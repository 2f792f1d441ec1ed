/** `cleanUrl`: parse, apply the first matching host rule, otherwise delete
    every tracking name from the query and serialize the URL again. */
module Cleaner {

  import opened Options
  import opened SearchParams
  import opened Urls
  import opened Tables

  /** JavaScript truthiness of the result of `searchParams.get`: neither
      `null` nor the empty string. */
  predicate Truthy(v: Option<string>)
  {
    v.Some? && v.value != ""
  }

  /** The branch `cleanUrl` takes for a parsed URL. */
  datatype Route =
    | ShareArticle(embedded: string)   // LinkedIn share link with a `url` entry
    | WebSearch(terms: string)         // Google search link with a `q` entry
    | Generic                          // no host rule applies

  predicate IsShareArticle(h: Head)
  {
    h.host == "www.linkedin.com" && h.path == "/shareArticle"
  }

  predicate IsWebSearch(h: Head)
  {
    h.host == "www.google.com" && h.path == "/search"
  }

  /** The host rules in source order; the first whose host, path and entry
      all match is taken. A share link without a usable `url` entry falls
      through to the search rule and then to generic cleaning. */
  function RouteOf(u: Url): (r: Route)
    ensures r.ShareArticle? <==> IsShareArticle(u.head) && Truthy(Get(u.query, "url"))
    ensures r.WebSearch? <==> IsWebSearch(u.head) && Truthy(Get(u.query, "q"))
    ensures r.ShareArticle? ==> Get(u.query, "url") == Some(r.embedded)
    ensures r.WebSearch? ==> Get(u.query, "q") == Some(r.terms)
  {
    if IsShareArticle(u.head) && Truthy(Get(u.query, "url")) then
      ShareArticle(Get(u.query, "url").value)
    else if IsWebSearch(u.head) && Truthy(Get(u.query, "q")) then
      WebSearch(Get(u.query, "q").value)
    else
      Generic
  }

  const SearchPrefix: string := "https://www.google.com/search?q="

  /** The rebuilt search link: scheme, host and path fixed, `q` re-encoded. */
  function SearchUrl(p: Platform, terms: string): string
  {
    SearchPrefix + p.encodeComponent(terms)
  }

  /** Generic cleaning: `delete` called for each tracking name in table order.
      The result keeps head and fragment, holds no tracking name, and keeps
      every other entry, each as often as before and in the same order. */
  function StripTracking(u: Url): (r: Url)
    ensures r.head == u.head && r.fragment == u.fragment
    ensures forall i :: 0 <= i < |r.query| ==> r.query[i].name !in TrackingParams
    ensures forall e: Entry :: e.name !in TrackingParams ==>
              multiset(r.query)[e] == multiset(u.query)[e]
    ensures IsSubsequence(r.query, u.query)
  {
    DeleteAllIsWithout(u.query, TrackingParams);
    WithoutCounts(u.query, TrackingParams);
    u.(query := DeleteAll(u.query, TrackingParams))
  }

  /** `cleanUrl(s)`. Every exception (a parse failure, or `URIError` from
      `decodeURIComponent`) is caught and yields the input unchanged. */
  function CleanUrl(p: Platform, s: string): (r: string)
    ensures p.parse(s).None? ==> r == s
    ensures p.parse(s).Some? && RouteOf(p.parse(s).value).WebSearch? ==> SearchPrefix <= r
  {
    match p.parse(s)
    case None => s
    case Some(u) =>
      match RouteOf(u)
      case ShareArticle(embedded) =>
        (match p.decodeComponent(embedded)
         case None => s
         case Some(target) => target)
      case WebSearch(terms) => SearchUrl(p, terms)
      case Generic => Serialize(p, StripTracking(u))
  }

  /** A LinkedIn share link with a non-empty `url` entry yields that entry
      percent-decoded, with nothing removed from it; if decoding throws, the
      input comes back unchanged. */
  lemma ShareArticleUnwrapped(p: Platform, s: string, u: Url, embedded: string)
    requires p.parse(s) == Some(u)
    requires IsShareArticle(u.head)
    requires Get(u.query, "url") == Some(embedded) && embedded != ""
    ensures p.decodeComponent(embedded) == None ==> CleanUrl(p, s) == s
    ensures p.decodeComponent(embedded) != None ==>
              CleanUrl(p, s) == p.decodeComponent(embedded).value
  {
  }

  /** An embedded link without `%` escapes is returned verbatim, tracking
      names and all. */
  lemma ShareArticleVerbatim(p: Platform, s: string, u: Url, embedded: string)
    requires DecodesPlainText(p)
    requires p.parse(s) == Some(u)
    requires IsShareArticle(u.head)
    requires Get(u.query, "url") == Some(embedded) && embedded != ""
    requires '%' !in embedded
    ensures CleanUrl(p, s) == embedded
  {
  }

  /** A LinkedIn share link whose `url` entry is missing or empty gets generic
      cleaning. */
  lemma ShareArticleFallsThrough(p: Platform, s: string, u: Url)
    requires p.parse(s) == Some(u)
    requires IsShareArticle(u.head)
    requires !Truthy(Get(u.query, "url"))
    ensures CleanUrl(p, s) == Serialize(p, Url(u.head, Without(u.query, TrackingParams), u.fragment))
  {
    DeleteAllIsWithout(u.query, TrackingParams);
  }

  /** A Google search link with a non-empty `q` becomes the fixed `https`
      search link carrying only `q`, from which `q` decodes back. */
  lemma WebSearchKeepsOnlyQuery(p: Platform, s: string, u: Url, terms: string)
    requires p.parse(s) == Some(u)
    requires IsWebSearch(u.head)
    requires Get(u.query, "q") == Some(terms) && terms != ""
    ensures CleanUrl(p, s) == SearchPrefix + p.encodeComponent(terms)
    ensures ComponentsRoundTrip(p) ==>
              p.decodeComponent(CleanUrl(p, s)[|SearchPrefix|..]) == Some(terms)
  {
    assert (SearchPrefix + p.encodeComponent(terms))[|SearchPrefix|..] == p.encodeComponent(terms);
  }

  /** Two Google search links with the same first `q` clean to the same
      string, whatever their scheme, port, other entries and fragment. */
  lemma WebSearchIgnoresTheRest(p: Platform, s1: string, u1: Url, s2: string, u2: Url)
    requires p.parse(s1) == Some(u1) && p.parse(s2) == Some(u2)
    requires IsWebSearch(u1.head) && IsWebSearch(u2.head)
    requires Get(u1.query, "q") == Get(u2.query, "q") && Truthy(Get(u1.query, "q"))
    ensures CleanUrl(p, s1) == CleanUrl(p, s2)
  {
  }

  /** Generic cleaning serializes the same head and fragment with the query
      filtered by the tracking table and nothing else changed. */
  lemma GenericCleaning(p: Platform, s: string, u: Url)
    requires p.parse(s) == Some(u)
    requires RouteOf(u) == Generic
    ensures CleanUrl(p, s) == Serialize(p, Url(u.head, Without(u.query, TrackingParams), u.fragment))
  {
    DeleteAllIsWithout(u.query, TrackingParams);
  }

  /** A query made only of tracking names disappears with its `?`, whatever
      the host; the fragment is kept. */
  lemma TrackingOnlyQueryCollapses(p: Platform, s: string, u: Url)
    requires p.parse(s) == Some(u)
    requires forall i :: 0 <= i < |u.query| ==> u.query[i].name in TrackingParams
    ensures CleanUrl(p, s) == p.serializeHead(u.head) + FragmentPart(u.fragment)
  {
    RuleNamesAreNotTracking();
    assert RouteOf(u) == Generic;
  }

  /** A URL without query entries comes back as its own serialization; when the
      input is already in that form it comes back unchanged. */
  lemma NoQueryRoundTrips(p: Platform, s: string, u: Url)
    requires p.parse(s) == Some(u)
    requires |u.query| == 0
    ensures CleanUrl(p, s) == Serialize(p, u)
    ensures Serialize(p, u) == s ==> CleanUrl(p, s) == s
  {
    TrackingOnlyQueryCollapses(p, s, u);
  }

  /** Once generic cleaning has run, cleaning its output again changes
      nothing: the output parses back to the cleaned URL, which still takes no
      host rule and has no tracking name left to remove. */
  lemma GenericIdempotent(p: Platform, s: string, u: Url)
    requires ReparsesQueries(p)
    requires p.parse(s) == Some(u)
    requires RouteOf(u) == Generic
    ensures CleanUrl(p, CleanUrl(p, s)) == CleanUrl(p, s)
  {
    var c := StripTracking(u);
    assert Parsed(p, u);
    assert c == WithQuery(u, c.query);
    var r := CleanUrl(p, s);
    assert r == Serialize(p, c);
    assert p.parse(r) == Some(c);
    RuleNamesAreNotTracking();
    DeleteAllIsWithout(u.query, TrackingParams);
    GetWithout(u.query, TrackingParams, "url");
    GetWithout(u.query, TrackingParams, "q");
    assert RouteOf(c) == Generic;
    DeleteAllIsWithout(c.query, TrackingParams);
    WithoutIdempotent(u.query, TrackingParams);
    assert StripTracking(c) == c;
  }
}
