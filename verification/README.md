# Forget My Past — URL cleaning engine in Dafny

This project models the URL-cleaning engine of the *Forget My Past* link
cleaner (`src/urlCleaner.cjs`) and proves properties of the model. The engine
has two operations:

- `cleanUrl(s)` parses `s` as a URL, then applies the first host rule that
  matches:
  - a LinkedIn `/shareArticle` link is unwrapped to its percent-decoded `url` entry;
  - a Google `/search` link is rebuilt with only its `q` entry.

  Otherwise it deletes every query entry whose name is in the tracking table
  and serializes the URL again. Any exception returns `s` unchanged.
- `resolveShortUrl(s)` sends one non-following `HEAD` request, and only when
  the host contains an entry of the shortener table. It settles with the
  `Location` of a 3xx answer, or with `s`.

Files (one module each):

- `options.dfy`: the `Option` type.
- `strings.dfy`: `String.prototype.includes`. Its contract says it answers true exactly when an occurrence exists.
- `search_params.dfy`: the entry list behind `URLSearchParams`:
  - `get`, `delete`, and the `forEach` of `delete` calls;
  - a reference filter `Without` to which they are proved equal.
- `urls.dfy`: parsed URLs and the platform functions.
  - A parsed URL is a head (scheme, username, password, host name, port, path),
    an entry list and an optional fragment.
  - the URL parser, the head serializer, the form-urlencoded byte serializer,
    `encodeURIComponent` and `decodeURIComponent`;
  - these form a `Platform` value that is passed in;
  - the facts some proofs need are stated about them as predicates.

  The query and fragment part of serialization is modelled concretely. When
  `URLSearchParams` updates a URL and the list is empty, the query becomes null,
  so no `?` is written.
- `tables.dfy`: `TRACKING_PARAMS` and `SHORTENERS`, and their getters.
  The tracking table is written as the concatenation of the groups marked by
  the source's comments; the order is the same.
- `cleaner.dfy`: `cleanUrl`, its routing and its generic cleaning, plus the lemmas about each branch.
- `resolver.dfy`: `resolveShortUrl` as a pure function of the input and a
  `fetch` function giving the outcome of the request. The result records the
  list of requested URLs: empty, or the input alone.
- `examples.dfy`: the repository's unit-test scenarios, derived from the
  general lemmas. Each one names the test's literal URL. Its hypotheses say
  what the parser, the serializers and the encoders do with that URL's parts.

Behaviour of the code that the model keeps:

- `searchParams.get('url')` already form-decodes the entry.
  `decodeURIComponent` then decodes it a second time. So an embedded link that
  contains `%` escapes is altered, and a stray `%` makes `cleanUrl` return its
  input unchanged.
- `delete` always re-runs the `URLSearchParams` update steps. So after generic
  cleaning the query is always re-serialized from the entry list, even when
  nothing was removed.
- Rule matching uses `hostname`, which excludes the port. The rebuilt search
  link is always `https://www.google.com/search?q=…`, whatever the scheme, port
  or fragment of the input.
- The shortener gate is a substring test on the host name, so
  `microsoft.com` matches `t.co`.
- Cleaning twice can differ from cleaning once. An unwrapped share link keeps
  its tracking entries, and a second pass removes them
  (`Examples.LinkedInShareNotIdempotent`). Idempotence holds for the generic
  branch (`Cleaner.GenericIdempotent`).
- A share link whose `url` entry is empty falls through to the later rules.
- An empty `Location` header is ignored, and the input is kept.
- Kept entries are written again by the form-urlencoded serializer, so their
  encoding may change: `%20` in a value comes back as `+`.
- Username and password are part of the head. Generic cleaning writes them back
  unchanged (`Examples.CredentialsKept`).

## Model

| member | source | states |
|---|---|---|
| Tables.GetTrackingParams | src/urlCleaner.cjs:102-104 | returns the 56 tracking names in table order, among them `utm_source`, `rcm`, `fbclid` and `gclid` |
| Tables.GetShorteners | src/urlCleaner.cjs:110-112 | returns the 11 shortener entries in table order, among them `bit.ly`, `t.co` and `tinyurl.com` |
| Tables.RuleNamesAreNotTracking | src/urlCleaner.cjs:4-17 | neither `url` nor `q`, the names the host rules read, is a tracking name |
| Tables.ResourceIsNotTracking | src/urlCleaner.cjs:4-17 | `source` is a tracking name but `resource`, which contains it, is not: matching is by whole name |
| Strings.Contains | src/urlCleaner.cjs:72 | `includes` answers true exactly when the entry occurs at some index of the host |
| SearchParams.Get | src/urlCleaner.cjs:37 | `get` is absent exactly when no entry has the name; otherwise it is the value of the first entry with that name |
| SearchParams.Without | src/urlCleaner.cjs:52-54 | the filtered query has no listed name, holds an entry exactly when the input holds it under an unlisted name, and keeps input order |
| SearchParams.WithoutCounts | src/urlCleaner.cjs:52-54 | each entry with an unlisted name is kept as many times as it occurs in the input |
| SearchParams.Delete | src/urlCleaner.cjs:53 | one `delete` drops every entry with that name and keeps every other entry as many times as it occurs, in input order |
| SearchParams.DeleteAll | src/urlCleaner.cjs:52-54 | after the `delete` calls, every remaining entry comes from the input and has none of the deleted names |
| SearchParams.DeleteAllIsWithout | src/urlCleaner.cjs:52-54 | the sequence of `delete` calls equals filtering once by all the deleted names |
| SearchParams.WithoutIdempotent | src/urlCleaner.cjs:52-54 | filtering a filtered query by the same names changes nothing |
| Urls.Serialize | src/urlCleaner.cjs:56 | the serialization starts with the head; it is head plus fragment exactly when the entry list is empty, and otherwise a `?` follows the head |
| Cleaner.RouteOf | src/urlCleaner.cjs:36-49 | the share rule applies exactly for `www.linkedin.com` `/shareArticle` with a non-empty first `url`; the search rule exactly for `www.google.com` `/search` with a non-empty first `q`; each carries that value |
| Cleaner.StripTracking | src/urlCleaner.cjs:52-54 | generic cleaning keeps head and fragment, leaves no tracking name, keeps every other entry as often as before, and keeps it in order |
| Cleaner.CleanUrl | src/urlCleaner.cjs:31-60 | an unparseable input is returned unchanged; a search link yields a string starting with the fixed search prefix |
| Cleaner.ShareArticleUnwrapped | src/urlCleaner.cjs:36-41 | a share link with a non-empty `url` yields that value percent-decoded, or the input when decoding throws |
| Cleaner.ShareArticleVerbatim | src/urlCleaner.cjs:38-39 | an embedded link without `%` is returned verbatim, its tracking entries included |
| Cleaner.ShareArticleFallsThrough | src/urlCleaner.cjs:36-56 | a share link whose `url` is missing or empty gets generic cleaning |
| Cleaner.WebSearchKeepsOnlyQuery | src/urlCleaner.cjs:44-48 | a search link with a non-empty `q` yields the `https` search prefix followed by the encoded `q`, from which `q` decodes back |
| Cleaner.WebSearchIgnoresTheRest | src/urlCleaner.cjs:44-48 | two search links with the same first `q` clean to the same string, whatever their scheme, port, other entries and fragment |
| Cleaner.GenericCleaning | src/urlCleaner.cjs:52-56 | when no rule applies, the result is the same head and fragment serialized with the query filtered by the tracking table |
| Cleaner.TrackingOnlyQueryCollapses | src/urlCleaner.cjs:52-56 | a query made only of tracking names disappears together with its `?`, on any host; the fragment is kept |
| Cleaner.NoQueryRoundTrips | src/urlCleaner.cjs:52-56 | a URL without entries comes back as its own serialization, and so unchanged when already in that form |
| Cleaner.GenericIdempotent | src/urlCleaner.cjs:52-56 | when the parser reads back serialized queries, cleaning the output of generic cleaning again changes nothing |
| Resolver.IsShortenerHost | src/urlCleaner.cjs:72 | the gate passes exactly when some shortener entry occurs at some index of the host name |
| Resolver.ResolveShortUrl | src/urlCleaner.cjs:67-96 | at most one request is made, for the input itself, exactly when the input parses and its host contains a shortener entry; the result is the input or the non-empty `Location` of a 3xx answer to that request, which it always takes |
| Resolver.GateComesBeforeFetch | src/urlCleaner.cjs:68-74 | when the gate fails, the result is the input with no request, whatever `fetch` would answer |
| Resolver.FailedProbeKeepsInput | src/urlCleaner.cjs:84-95 | a rejected request, a non-3xx status, or a missing or empty `Location` settles with the input |
| Resolver.SubstringGateMatchesMicrosoft | src/urlCleaner.cjs:72 | `microsoft.com` passes the gate because it contains `t.co` |
| Resolver.ExampleComIsNotShortener | src/urlCleaner.cjs:72 | `example.com` contains none of the 11 shortener entries, so it fails the gate |
| Examples.UtmParametersRemoved | __tests__/urlCleaner.test.js:5-9 | three `utm_` entries are removed and the result is `https://example.com/page` |
| Examples.FragmentKept | __tests__/urlCleaner.test.js:71-75 | removing the only entry keeps `#section1` |
| Examples.CredentialsKept | src/urlCleaner.cjs:52-56 | `https://u:p@example.com/p?utm_source=x` cleans to `https://u:p@example.com/p`: the credentials stay |
| Examples.AllListedParamsRemoved | __tests__/urlCleaner.test.js:77-83 | a query naming every tracking name from the getter is removed entirely |
| Examples.LinkedInShareUnwrapped | __tests__/urlCleaner.test.js:37-42 | the share link yields the embedded article link with its `utm_source` |
| Examples.LinkedInShareNotIdempotent | __tests__/urlCleaner.test.js:37-42 | cleaning that output again removes `utm_source`, so `cleanUrl` is not idempotent |
| Examples.GoogleSearchRebuilt | __tests__/urlCleaner.test.js:44-48 | the search link becomes `https://www.google.com/search?q=test%20query` |
| Examples.LegitimateParametersKept | __tests__/urlCleaner.test.js:50-57 | `q`, `category` and `page` stay in order and `utm_source` goes: the result is `https://example.com/search?q=legitimate+query&category=tech&page=1` |
| Examples.InvalidUrlUnchanged | __tests__/urlCleaner.test.js:65-69 | `not-a-valid-url` is returned unchanged |
| Examples.NonShortenerNotProbed | __tests__/urlCleaner.test.js:87-91 | an `example.com` URL is returned with no request |
| Examples.RejectedProbeKeepsInput | __tests__/urlCleaner.test.js:93-100 | a rejected request to `bit.ly` settles with the input after exactly one request |

## Left out

- URL parsing and serialization of the head (sections 4.4 and 4.5 of the WHATWG URL Standard) are left out, as are the percent-encoding algorithms. They are the `Platform` fields. Beyond naming the parse result they are stated for, the general lemmas assume only the predicates `ReparsesQueries`, `ComponentsRoundTrip` and `DecodesPlainText` about them, each as a `requires` of the lemmas that use it. Each lemma in `examples.dfy` also assumes what these functions return for that test's literal URL and its parts: the parse result, the head text, and the `formEncode`, `encodeComponent` or `decodeComponent` results it needs.
- The head is opaque to cleaning: the model does not say how the serializer writes scheme, credentials, host, port and path. It only says that the head is written back through the platform's head serializer.
- `encodeURIComponent` is total in the model. A Dafny `char` is a Unicode scalar value, so the lone surrogates that make it throw cannot occur; entries read through `searchParams` never contain them either.
- `fetch`, HTTP and the Promise machinery are replaced by a `fetch` parameter giving the outcome of the single request. No redirect chain is followed, because the code does not follow one. In a browser, a `redirect: 'manual'` request answers with an opaque redirect of status 0, so the `Location` branch is taken only by platforms that expose the redirect. That depends on `fetch`, which is outside the model.
- Global idempotence of `cleanUrl` is not proved, because it does not hold (see `Examples.LinkedInShareNotIdempotent`). It is proved for the generic branch.
- The caller-level policy of cleaning, resolving and cleaning again lives outside `src/urlCleaner.cjs`, so it is not modelled.
- `sw.js` is not part of this model. It is service-worker plumbing: asset caching and the share-target redirect.
- `__tests__/integration.test.js` and `jest.setup.js` are not part of this model. They are user-interface tests and test-environment mocks.
