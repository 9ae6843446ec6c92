/** The parts of `net/http` the middleware reads: header maps with their
    canonical keys, and the fields of an inbound request. */
module Http {
  import opened GoContext

  /** `http.Header`: canonical key to the list of values sent under it. */
  type Header = map<string, seq<string>>

  function UpperAscii(c: char): char
  {
    if 'a' <= c <= 'z' then (c as int - 32) as char else c
  }

  function LowerAscii(c: char): char
  {
    if 'A' <= c <= 'Z' then (c as int + 32) as char else c
  }

  /** `textproto.CanonicalMIMEHeaderKey`: upper case at the start and after
      each '-', lower case elsewhere ("X-Trace-ID" becomes "X-Trace-Id"). */
  function Canonical(key: string): string
  {
    CanonicalFrom(key, true)
  }

  function CanonicalFrom(s: string, upper: bool): (r: string)
    ensures |r| == |s|
    ensures forall i :: 0 <= i < |s| ==> (r[i] == '-' <==> s[i] == '-')
  {
    if |s| == 0 then ""
    else
      var c := if upper then UpperAscii(s[0]) else LowerAscii(s[0]);
      [c] + CanonicalFrom(s[1..], s[0] == '-')
  }

  /** The values held under a canonical key. */
  function ValuesOf(h: Header, k: string): seq<string>
  {
    if k in h then h[k] else []
  }

  /** `Header.Get`: the first value under the key's canonical form, or "". */
  function Get(h: Header, key: string): string
  {
    var vs := ValuesOf(h, Canonical(key));
    if |vs| > 0 then vs[0] else ""
  }

  /** `Header.Add`: appends a value under the key's canonical form. */
  function Add(h: Header, key: string, value: string): (r: Header)
    ensures r.Keys == h.Keys + {Canonical(key)}
    ensures ValuesOf(r, Canonical(key)) == ValuesOf(h, Canonical(key)) + [value]
    ensures forall k :: k in h && k != Canonical(key) ==> r[k] == h[k]
    ensures Get(r, key) == if ValuesOf(h, Canonical(key)) == [] then value else Get(h, key)
  {
    var k := Canonical(key);
    h[k := ValuesOf(h, k) + [value]]
  }

  /** An inbound request, as far as the middleware reads it. */
  datatype Request = Request(
    verb: string,                     // `req.Method`
    path: string,                     // `req.URL.Path`
    query: map<string, seq<string>>,  // `req.URL.Query()`
    host: string,
    remoteAddr: string,
    header: Header,
    ctx: Context)

  function UserAgent(req: Request): string
  {
    Get(req.header, "User-Agent")
  }

  function Referer(req: Request): string
  {
    Get(req.header, "Referer")
  }
}
