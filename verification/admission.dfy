/**
 * The access-phase filter `ngx_dashll_access_handler`: it forbids a POST
 * unless its Content-Type is exactly "application/json" and it carries a
 * Content-Length header. Every other method passes untouched, with the same
 * DECLINED an admitted POST gets, and is left to the other handlers.
 */
module Admission {
  import opened Wrappers
  import Ngx

  /** The request methods nginx recognises; `r->method` holds exactly one of them. */
  datatype Method =
    | Unknown | Get | Head | Post | Put | Delete | Mkcol | Copy | Move
    | Options | Propfind | Proppatch | Lock | Unlock | Patch | Trace | Connect

  /**
   * What the filter reads of a request: its method (`r->method`) and the values of the
   * Content-Type and Content-Length headers, `None` when the header is absent.
   * A header value is the bytes nginx stored for it, one `char` per byte.
   */
  datatype RequestHeaders = RequestHeaders(requestMethod: Method, contentType: Option<seq<char>>, contentLength: Option<seq<char>>)

  const APPLICATION_JSON: seq<char> := "application/json"

  /** The byte a C string holds at its start; the end of the sequence reads as the terminating NUL. */
  function First(s: seq<char>): (c: char) {
    if s == [] then '\0' else s[0]
  }

  predicate NulFree(s: seq<char>) {
    '\0' !in s
  }

  /** The C string that starts at `s`: every byte before the first NUL. */
  function CString(s: seq<char>): (c: seq<char>)
    ensures |c| <= |s| && NulFree(c)
    ensures c <= s
    ensures |c| == |s| || s[|c|] == '\0'
  {
    if First(s) == '\0' then [] else [s[0]] + CString(s[1..])
  }

  /** A byte sequence is its own C string exactly when it holds no NUL. */
  lemma {:induction false} CStringIsIdentity(s: seq<char>)
    ensures CString(s) == s <==> NulFree(s)
  {
    if s != [] && s[0] != '\0' {
      CStringIsIdentity(s[1..]);
      assert s == [s[0]] + s[1..];
    }
  }

  /**
   * `ngx_strcmp`, which is C `strcmp`: compare byte by byte as unsigned
   * values until two differ or both end. Zero exactly when the two C strings
   * are equal; only the sign of a non-zero result is meaningful.
   */
  function StrCmp(a: seq<char>, b: seq<char>): (r: int)
    ensures r == 0 <==> CString(a) == CString(b)
    decreases |a|
  {
    var x, y := First(a), First(b);
    if x != y then
      assert CString(a) == [] || CString(b) == [] || CString(a)[0] != CString(b)[0];
      x as int - y as int
    else if x == '\0' then 0
    else
      var r := StrCmp(a[1..], b[1..]);
      assert CString(a) == [x] + CString(a[1..]) && CString(b) == [x] + CString(b[1..]);
      assert CString(a) == CString(b) ==> CString(a)[1..] == CString(b)[1..];
      r
  }

  /**
   * `ngx_dashll_access_handler`. It only ever answers DECLINED or FORBIDDEN;
   * a non-POST request is declined whatever its headers; a POST is declined
   * exactly when its Content-Type, read as a C string, is "application/json"
   * and a Content-Length header is present, and forbidden otherwise.
   */
  function AccessHandler(r: RequestHeaders): (rc: int)
    ensures rc == Ngx.NGX_DECLINED || rc == Ngx.NGX_HTTP_FORBIDDEN
    ensures r.requestMethod != Post ==> rc == Ngx.NGX_DECLINED
    ensures rc == Ngx.NGX_DECLINED <==>
      r.requestMethod != Post ||
      (r.contentType.Some? && CString(r.contentType.value) == APPLICATION_JSON && r.contentLength.Some?)
  {
    CStringIsIdentity(APPLICATION_JSON);
    if r.requestMethod != Post then Ngx.NGX_DECLINED
    else if r.contentType.None? then Ngx.NGX_HTTP_FORBIDDEN
    else if StrCmp(r.contentType.value, APPLICATION_JSON) != 0 then Ngx.NGX_HTTP_FORBIDDEN
    else if r.contentLength.None? then Ngx.NGX_HTTP_FORBIDDEN
    else Ngx.NGX_DECLINED
  }

  /**
   * For a POST whose Content-Type value holds no NUL byte, the comparison is
   * plain byte equality: the filter forbids a missing Content-Type, any value
   * other than exactly "application/json" (no case folding, no parameters),
   * and a missing Content-Length, and declines (admits) everything else.
   */
  lemma {:induction false} PostAdmittedIff(r: RequestHeaders)
    requires r.requestMethod == Post
    requires r.contentType.Some? ==> NulFree(r.contentType.value)
    ensures r.contentType.None? ==> AccessHandler(r) == Ngx.NGX_HTTP_FORBIDDEN
    ensures r.contentType.Some? && r.contentType.value != APPLICATION_JSON ==> AccessHandler(r) == Ngx.NGX_HTTP_FORBIDDEN
    ensures r.contentType == Some(APPLICATION_JSON) && r.contentLength.None? ==> AccessHandler(r) == Ngx.NGX_HTTP_FORBIDDEN
    ensures AccessHandler(r) == Ngx.NGX_DECLINED <==> r.contentType == Some(APPLICATION_JSON) && r.contentLength.Some?
  {
    if r.contentType.Some? {
      CStringIsIdentity(r.contentType.value);
    }
  }

  /**
   * The method test precedes every header test: two requests with the same
   * non-POST method get the same answer, DECLINED, whatever their headers.
   */
  lemma NonPostIgnoresHeaders(r: RequestHeaders, ct: Option<seq<char>>, cl: Option<seq<char>>)
    requires r.requestMethod != Post
    ensures AccessHandler(r) == AccessHandler(RequestHeaders(r.requestMethod, ct, cl)) == Ngx.NGX_DECLINED
  {
  }

  /**
   * The Content-Type test is stricter than section 8.3.1 of RFC 9110, which
   * allows parameters after the media type: a charset parameter is forbidden.
   */
  lemma ParameterForbidden(cl: seq<char>)
    ensures AccessHandler(RequestHeaders(Post, Some("application/json; charset=utf-8"), Some(cl))) == Ngx.NGX_HTTP_FORBIDDEN
  {
    var withCharset: seq<char> := "application/json; charset=utf-8";
    assert NulFree(withCharset) && withCharset != APPLICATION_JSON;
    PostAdmittedIff(RequestHeaders(Post, Some(withCharset), Some(cl)));
  }

  /**
   * Section 8.3.1 of RFC 9110 makes type and subtype case-insensitive; the
   * filter does not: a capitalised media type is forbidden.
   */
  lemma CaseForbidden(cl: seq<char>)
    ensures AccessHandler(RequestHeaders(Post, Some("Application/JSON"), Some(cl))) == Ngx.NGX_HTTP_FORBIDDEN
  {
    var capitalised: seq<char> := "Application/JSON";
    assert capitalised[0] != APPLICATION_JSON[0];
    PostAdmittedIff(RequestHeaders(Post, Some(capitalised), Some(cl)));
  }

  /**
   * Being a C string comparison, the test stops at a NUL byte: a value that
   * continues after "application/json\0" would pass. nginx's header parser
   * refuses NUL bytes in header values, so this does not arise in practice.
   */
  lemma ComparisonStopsAtNul(cl: seq<char>, tail: seq<char>)
    ensures AccessHandler(RequestHeaders(Post, Some(APPLICATION_JSON + "\0" + tail), Some(cl))) == Ngx.NGX_DECLINED
  {
    var v := APPLICATION_JSON + "\0" + tail;
    assert v[..|APPLICATION_JSON|] == APPLICATION_JSON;
    CStringIsIdentity(APPLICATION_JSON);
    CStringStopsAtNul(APPLICATION_JSON, tail);
  }

  /** The C string of `p + "\0" + tail` is `p` when `p` holds no NUL. */
  lemma {:induction false} CStringStopsAtNul(p: seq<char>, tail: seq<char>)
    requires NulFree(p)
    ensures CString(p + "\0" + tail) == p
  {
    if p != [] {
      assert (p + "\0" + tail)[1..] == p[1..] + "\0" + tail;
      CStringStopsAtNul(p[1..], tail);
    }
  }
}
