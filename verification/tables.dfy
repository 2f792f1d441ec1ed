/** The two fixed reference tables of the cleaner and their read-only accessors. */
module Tables {

  /** Campaign, click-identifier and referrer markers. */
  const CampaignParams: seq<string> := [
    "utm_source", "utm_medium", "utm_campaign", "utm_term", "utm_content",
    "fbclid", "gclid", "msclkid", "twclid", "igshid",
    "ref", "referer", "referrer", "_ga", "_gid",
    "mc_cid", "mc_eid", "campaign_id", "ad_id",
    "source", "medium", "campaign", "content"
  ]

  /** Google mobile search markers. */
  const GoogleMobileParams: seq<string> := [
    "ved", "uact", "sa", "biw", "bih", "dpr", "ei", "gs_lcp",
    "sclient", "client", "hs", "hl", "gl", "cshid", "psb"
  ]

  /** LinkedIn markers. */
  const LinkedInParams: seq<string> := [
    "rcm", "trk", "trkInfo", "lipi", "licu", "li_medium", "li_source"
  ]

  /** Other short, common markers. */
  const OtherParams: seq<string> := [
    "si", "s", "sp", "sr", "st", "se", "sc", "sd", "sf", "sg", "sh"
  ]

  /** Query names removed by generic cleaning, in table order; matched exactly
      and case-sensitively. */
  const TrackingParams: seq<string> :=
    CampaignParams + GoogleMobileParams + LinkedInParams + OtherParams

  /** Link-shortening services; a host matches when it contains an entry. */
  const Shorteners: seq<string> := [
    "bit.ly", "tinyurl.com", "t.co", "goo.gl", "ow.ly",
    "short.link", "tiny.cc", "is.gd", "buff.ly", "ift.tt",
    "share.google"
  ]

  /** A copy of the tracking table, in table order. */
  function GetTrackingParams(): (r: seq<string>)
    ensures r == TrackingParams
    ensures |r| == 56
    ensures "utm_source" in r && "rcm" in r && "fbclid" in r && "gclid" in r
  {
    TestedNamesAreTracking();
    TrackingParams
  }

  lemma TestedNamesAreTracking()
    ensures "utm_source" in TrackingParams && "rcm" in TrackingParams
    ensures "fbclid" in TrackingParams && "gclid" in TrackingParams
  {
    assert CampaignParams[0] == "utm_source" && CampaignParams[5] == "fbclid";
    assert CampaignParams[6] == "gclid" && LinkedInParams[0] == "rcm";
  }

  /** A copy of the shortener table, in table order. */
  function GetShorteners(): (r: seq<string>)
    ensures r == Shorteners
    ensures |r| == 11
    ensures "bit.ly" in r && "t.co" in r && "tinyurl.com" in r
  {
    assert Shorteners[0] == "bit.ly" && Shorteners[1] == "tinyurl.com" && Shorteners[2] == "t.co";
    Shorteners
  }

  /** Neither name read by the host rules is itself a tracking name, so
      generic cleaning never removes them. */
  lemma RuleNamesAreNotTracking()
    ensures "url" !in TrackingParams && "q" !in TrackingParams
  {
    UrlIsNotTracking();
    QIsNotTracking();
  }

  // One name per lemma keeps each table scan small.
  lemma UrlIsNotTracking() ensures "url" !in TrackingParams {}

  lemma QIsNotTracking() ensures "q" !in TrackingParams {}

  /** Matching is by whole name: a name that merely contains a table entry
      (here "source") is not itself in the table. */
  lemma ResourceIsNotTracking()
    ensures "source" in TrackingParams && "resource" !in TrackingParams
  {
    assert CampaignParams[19] == "source";
    ResourceIsNotListed();
  }

  lemma ResourceIsNotListed() ensures "resource" !in TrackingParams {}
}
