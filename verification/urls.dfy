/** Parsed URLs and the platform services the cleaner calls: the URL parser,
    the URL serializer, and the percent-encoding functions of the WHATWG URL
    Standard and of ECMA-262. Parsing and percent-encoding are not modelled
    themselves; they are supplied as a `Platform` value, and the few facts the
    proofs rely on are stated as predicates over it. */
module Urls {

  import opened Options
  import opened SearchParams

  /** Everything the URL serializer writes before the query: scheme,
      credentials, host name (`url.hostname`, without the port), port and path
      (`url.pathname`). */
  datatype Head = Head(
    scheme: string,
    username: string,
    password: string,
    host: string,
    port: Option<nat>,
    path: string)

  /** A parsed URL: its head, the entry list read by `url.searchParams`
      (already `application/x-www-form-urlencoded`-decoded, so `+` has become
      a space), and the optional fragment. */
  datatype Url = Url(head: Head, query: Query, fragment: Option<string>)

  /** The platform functions the cleaner calls.
      - `parse`: `new URL(s)`, `None` when the constructor throws;
      - `serializeHead`: the URL serializer's output up to the query
        (section 4.5 of the WHATWG URL Standard);
      - `formEncode`: the `application/x-www-form-urlencoded` byte serializer
        applied to one name or value (section 5.2 of the WHATWG URL Standard);
      - `encodeComponent`, `decodeComponent`: `encodeURIComponent` and
        `decodeURIComponent` (section 19.2.6 of ECMA-262); decoding is `None`
        when it throws `URIError`. Encoding never throws here because a Dafny
        `char` is a Unicode scalar value, so there are no lone surrogates. */
  datatype Platform = Platform(
    parse: string -> Option<Url>,
    serializeHead: Head -> string,
    formEncode: string -> string,
    encodeComponent: string -> string,
    decodeComponent: string -> Option<string>)

  /** The `application/x-www-form-urlencoded` serializer: each entry as
      `name=value`, entries joined by `&`. */
  function FormSerialize(encode: string -> string, q: Query): string
  {
    if |q| == 0 then ""
    else
      var pair := encode(q[0].name) + "=" + encode(q[0].value);
      if |q| == 1 then pair else pair + "&" + FormSerialize(encode, q[1..])
  }

  /** The query as the URL serializer writes it. After `URLSearchParams`
      updates a URL, an empty entry list makes the query null, so no `?` is
      written at all. */
  function QueryPart(p: Platform, q: Query): string
  {
    if |q| == 0 then "" else "?" + FormSerialize(p.formEncode, q)
  }

  function FragmentPart(fragment: Option<string>): string
  {
    match fragment
    case None => ""
    case Some(f) => "#" + f
  }

  /** `url.toString()` of a URL whose query was last set through its
      `searchParams`. A `?` follows the head exactly when the list is
      non-empty, and the fragment is appended unchanged. */
  function Serialize(p: Platform, u: Url): (r: string)
    ensures |u.query| == 0 <==> r == p.serializeHead(u.head) + FragmentPart(u.fragment)
    ensures p.serializeHead(u.head) <= r
    ensures |u.query| > 0 ==> |r| > |p.serializeHead(u.head)| && r[|p.serializeHead(u.head)|] == '?'
  {
    p.serializeHead(u.head) + QueryPart(p, u.query) + FragmentPart(u.fragment)
  }

  /** `u` is the result of parsing some string. */
  ghost predicate Parsed(p: Platform, u: Url)
  {
    exists s :: p.parse(s) == Some(u)
  }

  /** `u` with its entry list replaced, as `searchParams` mutations leave it. */
  function WithQuery(u: Url, q: Query): Url
  {
    u.(query := q)
  }

  /** Re-parsing the serialization of a parsed URL whose entry list was
      replaced gives back that URL: the URL serializer and parser agree, and
      the form-urlencoded parser reads back what its serializer wrote. */
  ghost predicate ReparsesQueries(p: Platform)
  {
    forall u, q :: Parsed(p, u) ==>
      p.parse(Serialize(p, WithQuery(u, q))) == Some(WithQuery(u, q))
  }

  /** `decodeURIComponent(encodeURIComponent(x)) === x`. */
  ghost predicate ComponentsRoundTrip(p: Platform)
  {
    forall x :: p.decodeComponent(p.encodeComponent(x)) == Some(x)
  }

  /** `decodeURIComponent` changes only `%` escapes, so a string without `%`
      decodes to itself. */
  ghost predicate DecodesPlainText(p: Platform)
  {
    forall x :: '%' !in x ==> p.decodeComponent(x) == Some(x)
  }
}
