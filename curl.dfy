/**
 * `getCurlString` of NetworkClient.swift: the curl command line logged for a
 * `URLRequest`. Parts are the base command, an optional `-X` flag, one `-H`
 * line per header except `Cookie`, and an optional `-d` body with its double
 * quotes escaped, joined by a backslash line continuation.
 *
 * Header lines come out in dictionary iteration order, which is unspecified:
 * the method reports the order it used as a ghost result.
 */
module Curl {
  import opened Wrappers
  import opened NetworkErrors
  import opened Client

  /** `" \\\n\t"`: space, backslash, newline, tab. */
  const Separator: string := " \\\n\t"

  const CookieKey: string := "Cookie"

  predicate StartsWith(s: string, prefix: string)
  {
    |prefix| <= |s| && s[..|prefix|] == prefix
  }

  predicate EndsWith(s: string, suffix: string)
  {
    |suffix| <= |s| && s[|s| - |suffix|..] == suffix
  }

  /** `curl "<url>"`, with ` --head` appended for a HEAD request. */
  function BaseCommand(url: string, httpMethod: Option<string>): (r: string)
    ensures StartsWith(r, "curl \"" + url + "\"")
    ensures EndsWith(r, " --head") <==> httpMethod == Some("HEAD")
  {
    var quoted := "curl \"" + url + "\"";
    var r := if httpMethod == Some("HEAD") then quoted + " --head" else quoted;
    assert r[..|quoted|] == quoted;
    assert httpMethod != Some("HEAD") ==> r[|r| - 1] == '"' && " --head"[6] == 'd';
    r
  }

  /** The `-X <method>` part: present for every method other than GET and HEAD. */
  function MethodFlag(httpMethod: Option<string>): (r: seq<string>)
    ensures r != [] <==> httpMethod.Some? && httpMethod.value != "GET" && httpMethod.value != "HEAD"
    ensures r != [] ==> r == ["-X " + httpMethod.value]
  {
    match httpMethod
    case Some(m) => if m != "GET" && m != "HEAD" then ["-X " + m] else []
    case None => []
  }

  function HeaderLine(key: string, value: string): string
  {
    "-H \"" + key + ": " + value + "\""
  }

  /** The header lines for the keys of `order`, in that order. */
  function HeaderLines(fields: HttpHeaders, order: seq<string>): (r: seq<string>)
    requires forall k :: k in order ==> k in fields
    ensures |r| == |order|
    ensures forall i :: 0 <= i < |order| ==> r[i] == HeaderLine(order[i], fields[order[i]])
  {
    if order == [] then []
    else HeaderLines(fields, order[..|order| - 1]) + [HeaderLine(order[|order| - 1], fields[order[|order| - 1]])]
  }

  /** `replacingOccurrences(of: "\"", with: "\\\"")`: each double quote gets a backslash before it. */
  function Escape(s: string): (r: string)
    ensures forall i :: 0 <= i < |r| && r[i] == '"' ==> 0 < i && r[i - 1] == '\\'
    ensures |r| >= |s|
  {
    if s == [] then []
    else (if s[0] == '"' then ['\\', '"'] else [s[0]]) + Escape(s[1..])
  }

  /** Reading an escaped body back: a backslash followed by a double quote stands for the quote. */
  function Unescape(s: string): string
  {
    if s == [] then []
    else if |s| >= 2 && s[0] == '\\' && s[1] == '"' then ['"'] + Unescape(s[2..])
    else [s[0]] + Unescape(s[1..])
  }

  /** No escaped text starts with a double quote. */
  lemma {:induction false} EscapeStart(s: string)
    ensures Escape(s) == [] || Escape(s)[0] != '"'
  {
  }

  /** Escaping loses nothing: the body can be read back from the curl line. */
  lemma {:induction false} UnescapeEscape(s: string)
    ensures Unescape(Escape(s)) == s
  {
    if s != [] {
      var rest := Escape(s[1..]);
      UnescapeEscape(s[1..]);
      if s[0] == '"' {
        assert Escape(s) == ['\\', '"'] + rest;
        assert (['\\', '"'] + rest)[2..] == rest;
      } else {
        EscapeStart(s[1..]);
        assert Escape(s) == [s[0]] + rest;
        assert ([s[0]] + rest)[1..] == rest;
      }
    }
  }

  /** The `-d "<body>"` part: present when there is a body that is valid UTF-8. */
  function BodyFlag(body: Option<Bytes>, utf8: Bytes -> Option<string>): (r: seq<string>)
    ensures r != [] <==> body.Some? && utf8(body.value).Some?
    ensures r != [] ==> r == ["-d \"" + Escape(utf8(body.value).value) + "\""]
    ensures r != [] ==> Unescape(r[0][4..|r[0]| - 1]) == utf8(body.value).value
  {
    match body
    case None => []
    case Some(data) =>
      match utf8(data)
      case None => []
      case Some(text) =>
        var line := "-d \"" + Escape(text) + "\"";
        assert line[4..|line| - 1] == Escape(text);
        UnescapeEscape(text);
        [line]
  }

  /** `joined(separator:)`. */
  function Join(parts: seq<string>, separator: string): (r: string)
    ensures |parts| > 0 ==> StartsWith(r, parts[0])
  {
    if |parts| == 0 then ""
    else if |parts| == 1 then parts[0]
    else parts[0] + separator + Join(parts[1..], separator)
  }

  /** The header fields of a request (none when the request has none). */
  function Fields(request: UrlRequest): HttpHeaders
  {
    if request.allHttpHeaderFields.Some? then request.allHttpHeaderFields.value else map[]
  }

  /** The headers a curl line shows: all but `Cookie`. */
  function ShownKeys(request: UrlRequest): set<string>
  {
    Fields(request).Keys - {CookieKey}
  }

  /** `order` lists each key of `keys` exactly once. */
  ghost predicate Enumerates(order: seq<string>, keys: set<string>)
  {
    && (forall i, j :: 0 <= i < j < |order| ==> order[i] != order[j])
    && (forall k :: k in order <==> k in keys)
  }

  /** The parts of the curl line, given the order the header keys came out in. */
  function CurlParts(request: UrlRequest, utf8: Bytes -> Option<string>, order: seq<string>): seq<string>
    requires request.url.Some?
    requires forall k :: k in order ==> k in Fields(request)
  {
    [BaseCommand(request.url.value, request.httpMethod)]
      + MethodFlag(request.httpMethod)
      + HeaderLines(Fields(request), order)
      + BodyFlag(request.httpBody, utf8)
  }

  /**
   * `getCurlString`: empty without a URL; otherwise the parts, with one
   * header line per non-`Cookie` header in the order met, joined.
   */
  method GetCurlString(request: UrlRequest, utf8: Bytes -> Option<string>) returns (curl: string, ghost order: seq<string>)
    ensures request.url.None? ==> curl == ""
    ensures request.url.Some? ==>
              Enumerates(order, ShownKeys(request)) && curl == Join(CurlParts(request, utf8, order), Separator)
  {
    order := [];
    if request.url.None? {
      return "", order;
    }
    var url := request.url.value;
    var baseCommand := "curl \"" + url + "\"";
    if request.httpMethod == Some("HEAD") {
      baseCommand := baseCommand + " --head";
    }
    var command := [baseCommand];
    if request.httpMethod.Some? {
      var m := request.httpMethod.value;
      if m != "GET" && m != "HEAD" {
        command := command + ["-X " + m];
      }
    }
    ghost var prefix := command;
    assert prefix == [BaseCommand(url, request.httpMethod)] + MethodFlag(request.httpMethod);
    if request.allHttpHeaderFields.Some? {
      var headers := request.allHttpHeaderFields.value;
      var pending := headers.Keys;
      while pending != {}
        invariant pending <= headers.Keys
        invariant forall k :: k in order ==> k in headers && k !in pending && k != CookieKey
        invariant Enumerates(order, headers.Keys - pending - {CookieKey})
        invariant command == prefix + HeaderLines(headers, order)
        decreases pending
      {
        var key :| key in pending;
        if key != CookieKey {
          command := command + [HeaderLine(key, headers[key])];
          order := order + [key];
        }
        pending := pending - {key};
      }
    }
    assert command == prefix + HeaderLines(Fields(request), order);
    command := command + BodyFlag(request.httpBody, utf8);
    assert command == CurlParts(request, utf8, order);
    curl := Join(command, Separator);
  }

  /** Only the `-X` part of a curl line starts with `-X `. */
  lemma {:induction false} XFlagIffOtherMethod(request: UrlRequest, utf8: Bytes -> Option<string>, order: seq<string>)
    requires request.url.Some?
    requires forall k :: k in order ==> k in Fields(request)
    ensures var parts := CurlParts(request, utf8, order);
            (exists i :: 0 <= i < |parts| && StartsWith(parts[i], "-X "))
            <==> request.httpMethod.Some? && request.httpMethod.value != "GET" && request.httpMethod.value != "HEAD"
  {
    var parts := CurlParts(request, utf8, order);
    var base := [BaseCommand(request.url.value, request.httpMethod)];
    var flag := MethodFlag(request.httpMethod);
    var lines := HeaderLines(Fields(request), order);
    var body := BodyFlag(request.httpBody, utf8);
    assert parts == base + flag + lines + body;
    forall i | 0 <= i < |parts| && !(|base| <= i < |base| + |flag|)
      ensures !StartsWith(parts[i], "-X ")
    {
      if i == 0 {
        assert parts[0][1] == 'u';
      } else if i < |base| + |flag| + |lines| {
        var j := i - |base| - |flag|;
        assert parts[i] == HeaderLine(order[j], Fields(request)[order[j]]);
        assert parts[i][1] == 'H';
      } else {
        assert parts[i] == body[0];
        assert parts[i][1] == 'd';
      }
    }
    if flag != [] {
      assert parts[1] == flag[0];
      assert StartsWith(parts[1], "-X ");
    }
  }

  /**
   * For a request the client built: ` --head` exactly for HEAD, `-X` exactly
   * for POST, PUT, DELETE and PATCH, and never a `Cookie` header line.
   */
  lemma ClientRequestFlags(client: NetworkClient, c: Call, utf8: Bytes -> Option<string>, order: seq<string>)
    requires Enumerates(order, ShownKeys(client.RequestFor(c)))
    ensures var request := client.RequestFor(c);
            && (EndsWith(BaseCommand(request.url.value, request.httpMethod), " --head") <==> c.httpMethod == HttpMethods.Head)
            && ((exists i :: 0 <= i < |CurlParts(request, utf8, order)| && StartsWith(CurlParts(request, utf8, order)[i], "-X "))
                <==> c.httpMethod !in {HttpMethods.Get, HttpMethods.Head})
            && CookieKey !in order
  {
    var request := client.RequestFor(c);
    XFlagIffOtherMethod(request, utf8, order);
    HttpMethods.RawValueInjective(c.httpMethod, HttpMethods.Get);
    HttpMethods.RawValueInjective(c.httpMethod, HttpMethods.Head);
  }
}
