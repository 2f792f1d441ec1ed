/** The repository's unit-test scenarios, replayed on the model. Each lemma
    states, as hypotheses, what the platform's parser, serializer and
    encoders do with the test's literal URL, and derives the asserted
    outcome from the general lemmas. */
module Examples {

  import opened Options
  import opened SearchParams
  import opened Urls
  import opened Tables
  import opened Cleaner
  import opened Resolver

  /** The head of an `https` URL without credentials or port. */
  function Https(host: string, path: string): Head
  {
    Head("https", "", "", host, None, path)
  }

  /** All three `utm_` entries are removed and the `?` goes with them. */
  lemma UtmParametersRemoved(p: Platform)
    requires p.parse("https://example.com/page?utm_source=google&utm_medium=cpc&utm_campaign=test")
               == Some(Url(Https("example.com", "/page"),
                           [Entry("utm_source", "google"), Entry("utm_medium", "cpc"),
                            Entry("utm_campaign", "test")], None))
    requires p.serializeHead(Https("example.com", "/page")) == "https://example.com/page"
    ensures CleanUrl(p, "https://example.com/page?utm_source=google&utm_medium=cpc&utm_campaign=test")
            == "https://example.com/page"
  {
    var s := "https://example.com/page?utm_source=google&utm_medium=cpc&utm_campaign=test";
    TrackingOnlyQueryCollapses(p, s, p.parse(s).value);
  }

  /** The fragment survives the removal of the whole query. */
  lemma FragmentKept(p: Platform)
    requires p.parse("https://example.com/page?utm_source=test#section1")
               == Some(Url(Https("example.com", "/page"), [Entry("utm_source", "test")], Some("section1")))
    requires p.serializeHead(Https("example.com", "/page")) == "https://example.com/page"
    ensures CleanUrl(p, "https://example.com/page?utm_source=test#section1")
            == "https://example.com/page#section1"
  {
    var s := "https://example.com/page?utm_source=test#section1";
    TestedNamesAreTracking();
    TrackingOnlyQueryCollapses(p, s, p.parse(s).value);
    FragmentText();
  }

  /** Credentials are part of the head and are written back unchanged. */
  lemma CredentialsKept(p: Platform)
    requires p.parse("https://u:p@example.com/p?utm_source=x")
               == Some(Url(Head("https", "u", "p", "example.com", None, "/p"),
                           [Entry("utm_source", "x")], None))
    requires p.serializeHead(Head("https", "u", "p", "example.com", None, "/p"))
               == "https://u:p@example.com/p"
    ensures CleanUrl(p, "https://u:p@example.com/p?utm_source=x") == "https://u:p@example.com/p"
  {
    var s := "https://u:p@example.com/p?utm_source=x";
    TrackingOnlyQueryCollapses(p, s, p.parse(s).value);
  }

  /** A query listing every tracking name, each with value `test`, is removed
      entirely. */
  lemma AllListedParamsRemoved(p: Platform, s: string, u: Url)
    requires p.parse(s) == Some(u)
    requires u.head == Https("example.com", "/page") && u.fragment == None
    requires |u.query| == |GetTrackingParams()|
    requires forall i :: 0 <= i < |u.query| ==> u.query[i] == Entry(GetTrackingParams()[i], "test")
    requires p.serializeHead(Https("example.com", "/page")) == "https://example.com/page"
    ensures CleanUrl(p, s) == "https://example.com/page"
  {
    TrackingOnlyQueryCollapses(p, s, u);
  }

  /** The share link's embedded URL comes back with its own `utm_source`. */
  lemma LinkedInShareUnwrapped(p: Platform)
    requires p.parse("https://www.linkedin.com/shareArticle?url=https%3A%2F%2Fexample.com%2Farticle%3Futm_source%3Dlinkedin")
               == Some(Url(Https("www.linkedin.com", "/shareArticle"),
                           [Entry("url", "https://example.com/article?utm_source=linkedin")], None))
    requires p.decodeComponent("https://example.com/article?utm_source=linkedin")
               == Some("https://example.com/article?utm_source=linkedin")
    ensures CleanUrl(p, "https://www.linkedin.com/shareArticle?url=https%3A%2F%2Fexample.com%2Farticle%3Futm_source%3Dlinkedin")
            == "https://example.com/article?utm_source=linkedin"
  {
    var embedded := "https://example.com/article?utm_source=linkedin";
    var s := "https://www.linkedin.com/shareArticle?url=https%3A%2F%2Fexample.com%2Farticle%3Futm_source%3Dlinkedin";
    var u := p.parse(s).value;
    assert Get(u.query, "url") == Some(embedded);
    ShareArticleUnwrapped(p, s, u, embedded);
  }

  /** Cleaning is not idempotent as a whole: the unwrapped share link still
      carries `utm_source`, which a second pass removes. */
  lemma LinkedInShareNotIdempotent(p: Platform)
    requires p.parse("https://www.linkedin.com/shareArticle?url=https%3A%2F%2Fexample.com%2Farticle%3Futm_source%3Dlinkedin")
               == Some(Url(Https("www.linkedin.com", "/shareArticle"),
                           [Entry("url", "https://example.com/article?utm_source=linkedin")], None))
    requires p.decodeComponent("https://example.com/article?utm_source=linkedin")
               == Some("https://example.com/article?utm_source=linkedin")
    requires p.parse("https://example.com/article?utm_source=linkedin")
               == Some(Url(Https("example.com", "/article"), [Entry("utm_source", "linkedin")], None))
    requires p.serializeHead(Https("example.com", "/article")) == "https://example.com/article"
    ensures var once := CleanUrl(p, "https://www.linkedin.com/shareArticle?url=https%3A%2F%2Fexample.com%2Farticle%3Futm_source%3Dlinkedin");
            CleanUrl(p, once) == "https://example.com/article" != once
  {
    var inner := "https://example.com/article?utm_source=linkedin";
    LinkedInShareUnwrapped(p);
    TrackingOnlyQueryCollapses(p, inner, p.parse(inner).value);
  }

  /** `q=test+query` is read as "test query" and re-encoded with `%20`; the
      other entries are dropped. */
  lemma GoogleSearchRebuilt(p: Platform)
    requires p.parse("https://www.google.com/search?q=test+query&ved=xyz&uact=8&sa=X&biw=360&bih=640")
               == Some(Url(Https("www.google.com", "/search"),
                           [Entry("q", "test query"), Entry("ved", "xyz"), Entry("uact", "8"),
                            Entry("sa", "X"), Entry("biw", "360"), Entry("bih", "640")], None))
    requires p.encodeComponent("test query") == "test%20query"
    ensures CleanUrl(p, "https://www.google.com/search?q=test+query&ved=xyz&uact=8&sa=X&biw=360&bih=640")
            == "https://www.google.com/search?q=test%20query"
  {
    var s := "https://www.google.com/search?q=test+query&ved=xyz&uact=8&sa=X&biw=360&bih=640";
    WebSearchKeepsOnlyQuery(p, s, p.parse(s).value, "test query");
  }

  /** Ordinary entries survive, in order, next to a removed tracking entry,
      and are written back by the form-urlencoded serializer. */
  lemma LegitimateParametersKept(p: Platform)
    requires p.parse("https://example.com/search?q=legitimate+query&category=tech&page=1&utm_source=tracking")
               == Some(Url(Https("example.com", "/search"),
                           [Entry("q", "legitimate query"), Entry("category", "tech"),
                            Entry("page", "1"), Entry("utm_source", "tracking")], None))
    requires p.serializeHead(Https("example.com", "/search")) == "https://example.com/search"
    requires p.formEncode("q") == "q" && p.formEncode("legitimate query") == "legitimate+query"
    requires p.formEncode("category") == "category" && p.formEncode("tech") == "tech"
    requires p.formEncode("page") == "page" && p.formEncode("1") == "1"
    ensures CleanUrl(p, "https://example.com/search?q=legitimate+query&category=tech&page=1&utm_source=tracking")
            == "https://example.com/search?q=legitimate+query&category=tech&page=1"
  {
    var s := "https://example.com/search?q=legitimate+query&category=tech&page=1&utm_source=tracking";
    var kept := [Entry("q", "legitimate query"), Entry("category", "tech"), Entry("page", "1")];
    LegitimateUrlParts(p, s);
    GenericKeepsEntries(p, s, p.parse(s).value, kept);
    LegitimateEntriesWritten(p, kept);
    LegitimateQuerySerialized(p, Https("example.com", "/search"), kept);
  }

  /** What the rules and the tracking filter see in the parsed test URL. */
  lemma LegitimateUrlParts(p: Platform, s: string)
    requires p.parse(s) == Some(Url(Https("example.com", "/search"),
                                    [Entry("q", "legitimate query"), Entry("category", "tech"),
                                     Entry("page", "1"), Entry("utm_source", "tracking")], None))
    ensures RouteOf(p.parse(s).value) == Generic
    ensures Without(p.parse(s).value.query, TrackingParams)
            == [Entry("q", "legitimate query"), Entry("category", "tech"), Entry("page", "1")]
  {
    var u := p.parse(s).value;
    assert !IsShareArticle(u.head) && !IsWebSearch(u.head);
    LegitimateQueryFiltered(u.query);
  }

  /** Generic cleaning writes back the head and fragment with the entries the
      tracking filter keeps. */
  lemma GenericKeepsEntries(p: Platform, s: string, u: Url, kept: Query)
    requires p.parse(s) == Some(u) && RouteOf(u) == Generic
    requires Without(u.query, TrackingParams) == kept
    ensures CleanUrl(p, s) == Serialize(p, Url(u.head, kept, u.fragment))
  {
    GenericCleaning(p, s, u);
  }

  /** The form-urlencoded text of the three kept entries. */
  lemma LegitimateEntriesWritten(p: Platform, kept: Query)
    requires kept == [Entry("q", "legitimate query"), Entry("category", "tech"), Entry("page", "1")]
    requires p.formEncode("q") == "q" && p.formEncode("legitimate query") == "legitimate+query"
    requires p.formEncode("category") == "category" && p.formEncode("tech") == "tech"
    requires p.formEncode("page") == "page" && p.formEncode("1") == "1"
    ensures FormSerialize(p.formEncode, kept) == "q=legitimate+query&category=tech&page=1"
  {
    LegitimateEntryTexts();
    LegitimateEntriesJoined();
    assert FormSerialize(p.formEncode, kept[2..]) == "page" + "=" + "1";
    assert FormSerialize(p.formEncode, kept[1..]) == "category" + "=" + "tech" + "&" + "page=1";
    assert FormSerialize(p.formEncode, kept) == "q" + "=" + "legitimate+query" + "&" + "category=tech&page=1";
  }

  /** The kept entries, written back after the head. */
  lemma LegitimateQuerySerialized(p: Platform, h: Head, kept: Query)
    requires p.serializeHead(h) == "https://example.com/search"
    requires |kept| > 0 && FormSerialize(p.formEncode, kept) == "q=legitimate+query&category=tech&page=1"
    ensures Serialize(p, Url(h, kept, None)) == "https://example.com/search?q=legitimate+query&category=tech&page=1"
  {
    SerializedWithQuery(p, h, kept, "q=legitimate+query&category=tech&page=1");
    LegitimateTextSplits();
    LegitimateTextFirstEntry();
    LegitimateTextRest();
    Glue("https://example.com/search" + "?", "q=legitimate+query", "&category=tech&page=1",
         "https://example.com/search?q=legitimate+query",
         "https://example.com/search?q=legitimate+query&category=tech&page=1");
  }

  /** A non-empty entry list without a fragment is written as head, `?`, entries. */
  lemma SerializedWithQuery(p: Platform, h: Head, q: Query, entries: string)
    requires |q| > 0 && FormSerialize(p.formEncode, q) == entries
    ensures Serialize(p, Url(h, q, None)) == p.serializeHead(h) + "?" + entries
  {
    SerializedParts(p, h, q, entries);
    var head := p.serializeHead(h);
    assert head + ("?" + entries) + "" == head + ("?" + entries);
    assert head + ("?" + entries) == head + "?" + entries;
  }

  lemma LegitimateQueryFiltered(q: Query)
    requires q == [Entry("q", "legitimate query"), Entry("category", "tech"),
                   Entry("page", "1"), Entry("utm_source", "tracking")]
    ensures Without(q, TrackingParams) == q[..3]
  {
    QIsNotTracking();
    CategoryIsNotTracking();
    PageIsNotTracking();
    TestedNamesAreTracking();
    KeepThreeDropOne(q[0], q[1], q[2], q[3], TrackingParams);
    assert q == [q[0], q[1], q[2], q[3]];
  }

  lemma KeepThreeDropOne(a: Entry, b: Entry, c: Entry, d: Entry, names: seq<string>)
    requires a.name !in names && b.name !in names && c.name !in names
    requires d.name in names
    ensures Without([a, b, c, d], names) == [a, b, c]
  {
    assert [d][1..] == [];
    assert Without([d], names) == [];
    WithoutKeeps(c, [d], names);
    WithoutKeeps(b, [c, d], names);
    WithoutKeeps(a, [b, c, d], names);
    assert [a, b, c, d] == [a] + [b, c, d];
    assert [b, c, d] == [b] + [c, d];
    assert [c, d] == [c] + [d];
  }

  /** A string the parser rejects is returned as it is. */
  lemma InvalidUrlUnchanged(p: Platform)
    requires p.parse("not-a-valid-url") == None
    ensures CleanUrl(p, "not-a-valid-url") == "not-a-valid-url"
  {
  }

  /** `example.com` is returned without any request. */
  lemma NonShortenerNotProbed(p: Platform, fetch: string -> Probe)
    requires p.parse("https://example.com/page") == Some(Url(Https("example.com", "/page"), [], None))
    ensures ResolveShortUrl(p, fetch, "https://example.com/page") == Resolution("https://example.com/page", [])
  {
    ExampleComIsNotShortener();
  }

  /** A rejected request to `bit.ly` settles with the input after one request. */
  lemma RejectedProbeKeepsInput(p: Platform, fetch: string -> Probe)
    requires p.parse("https://bit.ly/test") == Some(Url(Https("bit.ly", "/test"), [], None))
    requires fetch("https://bit.ly/test") == Rejected
    ensures ResolveShortUrl(p, fetch, "https://bit.ly/test") == Resolution("https://bit.ly/test", ["https://bit.ly/test"])
  {
    assert Strings.OccursAt("bit.ly", Shorteners[0], 0);
  }

  // Small facts about literals, one per lemma. A table lookup, or an equality
  // between long string literals, is costly for the verifier, and the cost
  // grows quickly when several such facts share one proof. Each lemma below
  // states one of them; the examples above combine them.

  lemma CategoryIsNotTracking() ensures "category" !in TrackingParams {}

  lemma PageIsNotTracking() ensures "page" !in TrackingParams {}

  lemma FragmentText()
    ensures "https://example.com/page" + FragmentPart(Some("section1")) == "https://example.com/page#section1"
  {
  }

  lemma LegitimateEntryTexts()
    ensures "page" + "=" + "1" == "page=1"
    ensures "category" + "=" + "tech" + "&" + "page=1" == "category=tech&page=1"
    ensures "q" + "=" + "legitimate+query" == "q=legitimate+query"
  {
  }

  lemma LegitimateEntriesJoined()
    ensures "q=legitimate+query" + "&" + "category=tech&page=1" == "q=legitimate+query&category=tech&page=1"
  {
  }

  lemma LegitimateTextSplits()
    ensures "q=legitimate+query&category=tech&page=1" == "q=legitimate+query" + "&category=tech&page=1"
  {
  }

  lemma LegitimateTextFirstEntry()
    ensures "https://example.com/search" + "?" + "q=legitimate+query" == "https://example.com/search?q=legitimate+query"
  {
  }

  lemma LegitimateTextRest()
    ensures "https://example.com/search?q=legitimate+query" + "&category=tech&page=1"
            == "https://example.com/search?q=legitimate+query&category=tech&page=1"
  {
  }

  lemma SerializedParts(p: Platform, h: Head, q: Query, entries: string)
    requires |q| > 0 && FormSerialize(p.formEncode, q) == entries
    ensures Serialize(p, Url(h, q, None)) == p.serializeHead(h) + ("?" + entries) + ""
  {
  }

  /** Two joins that compose into one. */
  lemma Glue(a: string, b: string, c: string, ab: string, abc: string)
    requires a + b == ab && ab + c == abc
    ensures a + (b + c) == abc
  {
    assert a + (b + c) == a + b + c;
  }
}
