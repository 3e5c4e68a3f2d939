/** The request methods of HttpMethod.swift: a `String`-backed enum. */
module HttpMethods {
  import opened Wrappers

  datatype HttpMethod = Get | Post | Put | Delete | Patch | Head

  /** Every case, once each. */
  const AllMethods: seq<HttpMethod> := [Get, Post, Put, Delete, Patch, Head]

  /** The Swift name of each case. */
  function CaseName(m: HttpMethod): string
  {
    match m
    case Get => "get"
    case Post => "post"
    case Put => "put"
    case Delete => "delete"
    case Patch => "patch"
    case Head => "head"
  }

  /** ASCII upper-casing, letter by letter. */
  function AsciiUpper(s: string): (r: string)
    ensures |r| == |s|
  {
    if s == [] then []
    else [if 'a' <= s[0] <= 'z' then (s[0] as int - 32) as char else s[0]] + AsciiUpper(s[1..])
  }

  /** The raw value of a case: its name in upper case. */
  function RawValue(m: HttpMethod): (r: string)
    ensures r == AsciiUpper(CaseName(m))
  {
    match m
    case Get => "GET"
    case Post =>
      assert AsciiUpper("post") == "P" + AsciiUpper("ost");
      "POST"
    case Put => "PUT"
    case Delete => "DELETE"
    case Patch => "PATCH"
    case Head => "HEAD"
  }

  /** The synthesized `init?(rawValue:)`: the case whose raw value is `s`, if any. */
  function FromRawValue(s: string): (m: Option<HttpMethod>)
    ensures m.Some? ==> RawValue(m.value) == s
    ensures m.None? ==> forall x :: RawValue(x) != s
  {
    if s == "GET" then Some(Get)
    else if s == "POST" then Some(Post)
    else if s == "PUT" then Some(Put)
    else if s == "DELETE" then Some(Delete)
    else if s == "PATCH" then Some(Patch)
    else if s == "HEAD" then Some(Head)
    else None
  }

  /** Parsing a raw value gives back its case. */
  lemma RawValueRoundTrip(m: HttpMethod)
    ensures FromRawValue(RawValue(m)) == Some(m)
  {
  }

  /** Distinct cases have distinct raw values. */
  lemma RawValueInjective(a: HttpMethod, b: HttpMethod)
    ensures RawValue(a) == RawValue(b) <==> a == b
  {
  }

  /** The enum is closed: six cases, all listed, none twice. */
  lemma SixMethods(m: HttpMethod)
    ensures m in AllMethods
    ensures |AllMethods| == 6
    ensures forall i, j :: 0 <= i < j < |AllMethods| ==> AllMethods[i] != AllMethods[j]
  {
  }
}
