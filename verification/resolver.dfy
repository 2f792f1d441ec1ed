/** `resolveShortUrl`: a single, non-following probe of a known shortener.
    The `await fetch(...)` is modelled by a `fetch` parameter giving the
    outcome of the one request; the result records which requests were made. */
module Resolver {

  import opened Options
  import opened Strings
  import opened Urls
  import opened Tables

  /** The outcome of the `HEAD` request: a rejected promise (network failure,
      CORS block, ...) or a response with its status and `Location` header. */
  datatype Probe = Rejected | Response(status: int, location: Option<string>)

  /** The settled value and the URLs passed to `fetch`, in call order. */
  datatype Resolution = Resolution(url: string, requests: seq<string>)

  /** `SHORTENERS.some(sh => hostname.includes(sh))`: some shortener entry
      occurs somewhere in the host name. */
  predicate IsShortenerHost(host: string)
    ensures IsShortenerHost(host) <==>
              exists i: nat, j: nat :: i < |Shorteners| && OccursAt(host, Shorteners[i], j)
  {
    exists i :: 0 <= i < |Shorteners| && Contains(host, Shorteners[i])
  }

  /** The probe is issued only for an input that parses and names a shortener. */
  predicate WouldProbe(p: Platform, s: string)
  {
    p.parse(s).Some? && IsShortenerHost(p.parse(s).value.head.host)
  }

  /** A 3xx response carrying a non-empty `Location` header. */
  predicate IsRedirectTo(outcome: Probe, target: string)
  {
    && outcome.Response?
    && 300 <= outcome.status < 400
    && outcome.location == Some(target)
    && target != ""
  }

  /** `resolveShortUrl(s)`: settles with the input or with the `Location` of a
      redirect answer to the single probe, and never rejects. */
  function ResolveShortUrl(p: Platform, fetch: string -> Probe, s: string): (r: Resolution)
    ensures r.requests == [] || r.requests == [s]
    ensures r.requests == [s] <==> WouldProbe(p, s)
    ensures r.url == s || (WouldProbe(p, s) && IsRedirectTo(fetch(s), r.url))
    ensures forall target :: WouldProbe(p, s) && IsRedirectTo(fetch(s), target) ==> r.url == target
  {
    match p.parse(s)
    case None => Resolution(s, [])
    case Some(u) =>
      if !IsShortenerHost(u.head.host) then Resolution(s, [])
      else
        var outcome := fetch(s);
        if outcome.Response? && 300 <= outcome.status < 400 then
          match outcome.location
          case Some(location) =>
            if location != "" then Resolution(location, [s]) else Resolution(s, [s])
          case None => Resolution(s, [s])
        else Resolution(s, [s])
  }

  /** Without the gate passing, the outcome of a request is never consulted:
      any two `fetch` behaviours give the input back with no request. */
  lemma GateComesBeforeFetch(p: Platform, f1: string -> Probe, f2: string -> Probe, s: string)
    requires !WouldProbe(p, s)
    ensures ResolveShortUrl(p, f1, s) == ResolveShortUrl(p, f2, s) == Resolution(s, [])
  {
  }

  /** A rejected probe, a non-3xx status, or a 3xx answer without a usable
      `Location` settles with the input. */
  lemma FailedProbeKeepsInput(p: Platform, fetch: string -> Probe, s: string)
    requires forall target :: !IsRedirectTo(fetch(s), target)
    ensures ResolveShortUrl(p, fetch, s).url == s
  {
  }

  /** The gate is a substring test, not a domain match: `microsoft.com`
      contains `t.co`. */
  lemma SubstringGateMatchesMicrosoft()
    ensures IsShortenerHost("microsoft.com")
  {
    assert Shorteners[2] == "t.co";
    assert OccursAt("microsoft.com", Shorteners[2], 8);
  }

  /** A host lacking some character of a shortener entry cannot contain it. */
  lemma ForeignCharBlocks(host: string, entry: string, c: char)
    requires c in entry && c !in host
    ensures !Contains(host, entry)
  {
  }

  /** `example.com` contains no shortener entry, so it is never probed. */
  lemma ExampleComIsNotShortener()
    ensures !IsShortenerHost("example.com")
  {
    var h := "example.com";
    var foreign := ['b', 't', 't', 'g', 'w', 's', 't', 'i', 'b', 'i', 's'];
    forall i | 0 <= i < |Shorteners|
      ensures !Contains(h, Shorteners[i])
    {
      assert foreign[i] in Shorteners[i] && foreign[i] !in h;
      ForeignCharBlocks(h, Shorteners[i], foreign[i]);
    }
  }
}
