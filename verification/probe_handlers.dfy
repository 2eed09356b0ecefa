/**
 * The decisions of the Probe REST handlers: paging parameters, the media
 * type of a client resource and whether it is cached or text, the
 * `${contextPath}` substitution in text resources, and when a response ends
 * with 404 and an empty body.
 *
 * Resource lookup is I/O: `handleResource` receives what reading the
 * resource as text, or copying it as bytes, gave (`None` for a missing
 * resource).
 */
module ProbeHandlers {
  import opened Wrappers
  import opened JavaLang
  import opened JavaInteger
  import opened VertxHttp

  const BASE: string := "/weld-probe"

  const APPLICATION_JSON: string := "application/json"
  const APPLICATION_JSON_UTF8: string := APPLICATION_JSON + "; charset=utf-8"
  const APPLICATION_FONT_SFNT: string := "application/font-sfnt"
  const APPLICATION_FONT_WOFF: string := "application/font-woff"
  const APPLICATION_FONT_MS: string := "application/vnd.ms-fontobject"
  const TEXT_JAVASCRIPT: string := "text/javascript"
  const TEXT_CSS: string := "text/css"
  const TEXT_HTML: string := "text/html"
  const TEXT_PLAIN: string := "text/plain"
  const IMG_PNG: string := "image/png"
  const IMG_SVG: string := "image/svg+xml"
  /** Declared with a leading space, and sent that way. */
  const IMG_ICO: string := " image/x-icon"

  const SUFFIX_HTML: string := "html"
  const SUFFIX_CSS: string := "css"
  const SUFFIX_JS: string := "js"
  const SUFFIX_PNG: string := "png"
  const SUFFIX_TTF: string := "ttf"
  const SUFFIX_OTF: string := "otf"
  const SUFFIX_EOT: string := "eot"
  const SUFFIX_SVG: string := "svg"
  const SUFFIX_WOFF: string := "woff"
  const SUFFIX_ICO: string := "ico"

  const CONTENT_TYPE: string := "Content-type"
  const ALLOW_ORIGIN: string := "Access-Control-Allow-Origin"
  const ALLOW_METHODS: string := "Access-Control-Allow-Methods"
  const ALLOWED_METHODS: string := "POST, GET, OPTIONS, PUT, DELETE"
  const CACHE_CONTROL: string := "Cache-Control"
  /** 24 hours. */
  const MAX_AGE: string := "max-age=86400"

  /** The placeholder in text resources and what replaces it. */
  const CONTEXT_PATH: string := "${contextPath}"
  const CONTEXT_PATH_VALUE: string := BASE + "/"

  /** `getPage`: 1 when the parameter is absent or does not parse, otherwise the parsed value as it is. */
  function GetPage(param: Option<string>): (r: int)
    ensures IsInt32(r)
    ensures param.None? ==> r == 1
    ensures param.Some? ==> r == if ParseInt(param.value).Some? then ParseInt(param.value).value else 1
  {
    if param.None? then 1
    else
      match ParseInt(param.value)
      case None => 1
      case Some(n) => n
  }

  /** `getPageSize`: 50 when absent, 0 when unparsable or not positive, otherwise the parsed value. */
  function GetPageSize(param: Option<string>): (r: int)
    ensures 0 <= r <= INT_MAX
    ensures param.None? ==> r == 50
    ensures param.Some? && ParseInt(param.value).None? ==> r == 0
    ensures param.Some? && ParseInt(param.value).Some? ==>
      r == if ParseInt(param.value).value > 0 then ParseInt(param.value).value else 0
  {
    if param.None? then 50
    else
      match ParseInt(param.value)
      case None => 0
      case Some(n) => if n > 0 then n else 0
  }

  /** The page of a well-formed parameter is the number written, with no clamping: 0 and negative pages included. */
  lemma GetPageUnclamped(n: int)
    requires IsInt32(n)
    ensures GetPage(Some(IntToString(n))) == n
  {
    ParseIntToString(n);
  }

  /** A page number too large for an `int` falls back to page 1. */
  lemma GetPageOverflow(n: int)
    requires !IsInt32(n)
    ensures GetPage(Some(IntToString(n))) == 1
  {
    ParseIntOutOfRange(n);
  }

  /** The page size of a well-formed parameter is the number written when positive, 0 otherwise. */
  lemma GetPageSizeOfNumber(n: int)
    requires IsInt32(n)
    ensures GetPageSize(Some(IntToString(n))) == if n > 0 then n else 0
  {
    ParseIntToString(n);
  }

  /** `String.endsWith`, compared from the last character backwards. */
  predicate EndsWith(s: string, suffix: string)
    decreases |suffix|
  {
    |suffix| == 0 || (|s| > 0 && s[|s| - 1] == suffix[|suffix| - 1] && EndsWith(s[..|s| - 1], suffix[..|suffix| - 1]))
  }

  /** The suffixes tested, in order, with the media type each selects. */
  const SUFFIX_TYPES: seq<(string, string)> := [
    (SUFFIX_HTML, TEXT_HTML), (SUFFIX_CSS, TEXT_CSS), (SUFFIX_JS, TEXT_JAVASCRIPT),
    (SUFFIX_PNG, IMG_PNG), (SUFFIX_TTF, APPLICATION_FONT_SFNT), (SUFFIX_OTF, APPLICATION_FONT_SFNT),
    (SUFFIX_EOT, APPLICATION_FONT_MS), (SUFFIX_WOFF, APPLICATION_FONT_WOFF), (SUFFIX_SVG, IMG_SVG),
    (SUFFIX_ICO, IMG_ICO)]

  /** The index of the first entry of `table`, from `k` on, whose suffix ends `name`. */
  function FirstMatch(name: string, table: seq<(string, string)>, k: nat): (r: Option<nat>)
    ensures r.Some? ==> k <= r.value < |table|
    decreases |table| - k
  {
    if k >= |table| then None
    else if EndsWith(name, table[k].0) then Some(k)
    else FirstMatch(name, table, k + 1)
  }

  /** The entry found matches, no earlier entry does, and nothing is found only when no entry matches. */
  lemma {:induction false} FirstMatchIsFirst(name: string, table: seq<(string, string)>, k: nat)
    ensures FirstMatch(name, table, k).Some? ==> EndsWith(name, table[FirstMatch(name, table, k).value].0)
    ensures FirstMatch(name, table, k).Some? ==> forall j :: k <= j < FirstMatch(name, table, k).value ==> !EndsWith(name, table[j].0)
    ensures FirstMatch(name, table, k).None? <==> forall j :: k <= j < |table| ==> !EndsWith(name, table[j].0)
    decreases |table| - k
  {
    if k < |table| && !EndsWith(name, table[k].0) {
      FirstMatchIsFirst(name, table, k + 1);
    }
  }

  /** The media type the table gives `name`: that of the first matching suffix, `text/plain` when none matches. */
  function TableContentType(name: string): string {
    match FirstMatch(name, SUFFIX_TYPES, 0)
    case Some(i) => SUFFIX_TYPES[i].1
    case None => TEXT_PLAIN
  }

  /** The suffix that decides the media type of `name`, if any. */
  function MatchedSuffix(name: string): Option<string> {
    match FirstMatch(name, SUFFIX_TYPES, 0)
    case Some(i) => Some(SUFFIX_TYPES[i].0)
    case None => None
  }

  /** `detectContentType`: the suffixes are tested in order, without a dot. */
  function DetectContentType(name: string): string {
    if EndsWith(name, SUFFIX_HTML) then TEXT_HTML
    else if EndsWith(name, SUFFIX_CSS) then TEXT_CSS
    else if EndsWith(name, SUFFIX_JS) then TEXT_JAVASCRIPT
    else if EndsWith(name, SUFFIX_PNG) then IMG_PNG
    else if EndsWith(name, SUFFIX_TTF) || EndsWith(name, SUFFIX_OTF) then APPLICATION_FONT_SFNT
    else if EndsWith(name, SUFFIX_EOT) then APPLICATION_FONT_MS
    else if EndsWith(name, SUFFIX_WOFF) then APPLICATION_FONT_WOFF
    else if EndsWith(name, SUFFIX_SVG) then IMG_SVG
    else if EndsWith(name, SUFFIX_ICO) then IMG_ICO
    else TEXT_PLAIN
  }

  /** The table search on `SUFFIX_TYPES`, one entry at a time. */
  lemma MatchedIndex(name: string)
    ensures FirstMatch(name, SUFFIX_TYPES, 0) ==
      if EndsWith(name, SUFFIX_HTML) then Some(0) else if EndsWith(name, SUFFIX_CSS) then Some(1)
      else if EndsWith(name, SUFFIX_JS) then Some(2) else if EndsWith(name, SUFFIX_PNG) then Some(3)
      else if EndsWith(name, SUFFIX_TTF) then Some(4) else if EndsWith(name, SUFFIX_OTF) then Some(5)
      else if EndsWith(name, SUFFIX_EOT) then Some(6) else if EndsWith(name, SUFFIX_WOFF) then Some(7)
      else if EndsWith(name, SUFFIX_SVG) then Some(8) else if EndsWith(name, SUFFIX_ICO) then Some(9)
      else None
  {
    var t := SUFFIX_TYPES;
    assert FirstMatch(name, t, 10) == None;
    assert FirstMatch(name, t, 9) == if EndsWith(name, SUFFIX_ICO) then Some(9) else None;
    assert FirstMatch(name, t, 8) == if EndsWith(name, SUFFIX_SVG) then Some(8) else FirstMatch(name, t, 9);
    assert FirstMatch(name, t, 7) == if EndsWith(name, SUFFIX_WOFF) then Some(7) else FirstMatch(name, t, 8);
    assert FirstMatch(name, t, 6) == if EndsWith(name, SUFFIX_EOT) then Some(6) else FirstMatch(name, t, 7);
    assert FirstMatch(name, t, 5) == if EndsWith(name, SUFFIX_OTF) then Some(5) else FirstMatch(name, t, 6);
    assert FirstMatch(name, t, 4) == if EndsWith(name, SUFFIX_TTF) then Some(4) else FirstMatch(name, t, 5);
    assert FirstMatch(name, t, 3) == if EndsWith(name, SUFFIX_PNG) then Some(3) else FirstMatch(name, t, 4);
    assert FirstMatch(name, t, 2) == if EndsWith(name, SUFFIX_JS) then Some(2) else FirstMatch(name, t, 3);
    assert FirstMatch(name, t, 1) == if EndsWith(name, SUFFIX_CSS) then Some(1) else FirstMatch(name, t, 2);
  }

  /**
   * The chain of tests is the table search: the media type of the first
   * suffix, in table order, that the name ends with (`text/plain` when
   * none), so an earlier suffix shadows a later one.
   */
  lemma DetectContentTypeIsFirstMatch(name: string)
    ensures DetectContentType(name) == TableContentType(name)
    ensures DetectContentType(name) == TEXT_PLAIN <==> forall j :: 0 <= j < |SUFFIX_TYPES| ==> !EndsWith(name, SUFFIX_TYPES[j].0)
  {
    MatchedIndex(name);
    FirstMatchIsFirst(name, SUFFIX_TYPES, 0);
  }

  /** `isCachableContentType`. */
  predicate IsCachable(contentType: string) {
    contentType == TEXT_CSS || contentType == TEXT_JAVASCRIPT || contentType == IMG_ICO
    || contentType == IMG_PNG || contentType == IMG_SVG
  }

  /** `isTextBasedContenType`. */
  predicate IsTextBased(contentType: string) {
    !(contentType == IMG_PNG || contentType == IMG_ICO || contentType == APPLICATION_FONT_SFNT
      || contentType == APPLICATION_FONT_WOFF || contentType == APPLICATION_FONT_MS)
  }

  const CACHED_SUFFIXES: set<string> := {SUFFIX_CSS, SUFFIX_JS, SUFFIX_PNG, SUFFIX_SVG, SUFFIX_ICO}
  const BINARY_SUFFIXES: set<string> := {SUFFIX_PNG, SUFFIX_ICO, SUFFIX_TTF, SUFFIX_OTF, SUFFIX_EOT, SUFFIX_WOFF}

  lemma TableClasses(j: nat)
    requires j < |SUFFIX_TYPES|
    ensures IsCachable(SUFFIX_TYPES[j].1) <==> SUFFIX_TYPES[j].0 in CACHED_SUFFIXES
    ensures !IsTextBased(SUFFIX_TYPES[j].1) <==> SUFFIX_TYPES[j].0 in BINARY_SUFFIXES
  {
  }

  /**
   * Stylesheets, scripts, png, svg and ico resources are cached; html,
   * fonts and anything else are not. Png, ico and the fonts are copied as
   * bytes; everything else, unknown resources included, is read as text.
   */
  lemma ClassifiedBySuffix(name: string)
    ensures IsCachable(DetectContentType(name)) <==> MatchedSuffix(name).Some? && MatchedSuffix(name).value in CACHED_SUFFIXES
    ensures !IsTextBased(DetectContentType(name)) <==> MatchedSuffix(name).Some? && MatchedSuffix(name).value in BINARY_SUFFIXES
  {
    DetectContentTypeIsFirstMatch(name);
    match FirstMatch(name, SUFFIX_TYPES, 0) {
      case None =>
      case Some(i) => TableClasses(i);
    }
  }

  predicate StartsWith(s: string, prefix: string) {
    |prefix| <= |s| && s[..|prefix|] == prefix
  }

  /** `pattern` occurs in `s` at index `i`. */
  predicate OccursAt(pattern: string, s: string, i: int) {
    0 <= i <= |s| - |pattern| && s[i..i + |pattern|] == pattern
  }

  /** `pattern` occurs somewhere in `s`. */
  predicate Occurs(pattern: string, s: string) {
    exists i :: 0 <= i <= |s| - |pattern| && OccursAt(pattern, s, i)
  }

  /** `String.replace(target, replacement)`: every occurrence, scanning left to right without overlap. */
  function ReplaceAll(s: string, target: string, replacement: string): string
    requires |target| > 0
    decreases |s|
  {
    if |s| < |target| then s
    else if StartsWith(s, target) then replacement + ReplaceAll(s[|target|..], target, replacement)
    else [s[0]] + ReplaceAll(s[1..], target, replacement)
  }

  /** The substitution applied to text resources. */
  function ReplaceContextPath(content: string): string {
    ReplaceAll(content, CONTEXT_PATH, CONTEXT_PATH_VALUE)
  }

  /**
   * When the replacement cannot begin inside `q`, an output that starts
   * with `q` comes from an input that starts with `q`.
   */
  lemma {:induction false} ReplaceAllPrefix(s: string, target: string, replacement: string, q: string)
    requires |target| > 0 && |replacement| > 0
    requires replacement[0] !in q
    ensures StartsWith(ReplaceAll(s, target, replacement), q) ==> StartsWith(s, q)
    decreases |s|
  {
    var out := ReplaceAll(s, target, replacement);
    if |s| >= |target| && |q| > 0 {
      if StartsWith(s, target) {
        assert out[0] == replacement[0];
      } else {
        var rest := ReplaceAll(s[1..], target, replacement);
        assert out == [s[0]] + rest;
        ReplaceAllPrefix(s[1..], target, replacement, q[1..]);
        if StartsWith(out, q) {
          assert out[..|q|] == [s[0]] + rest[..|q| - 1];
          assert s[..|q|] == [s[0]] + s[1..][..|q| - 1];
        }
      }
    }
  }

  /**
   * After the replacement no occurrence of the target is left, provided the
   * replacement cannot start or complete one: its first character is not in
   * the target's tail and the target's first character is not in it.
   */
  lemma {:induction false} ReplaceAllRemoves(s: string, target: string, replacement: string)
    requires |target| > 0 && |replacement| > 0
    requires target[0] !in replacement && replacement[0] !in target[1..]
    ensures !Occurs(target, ReplaceAll(s, target, replacement))
    decreases |s|
  {
    var out := ReplaceAll(s, target, replacement);
    if |s| >= |target| {
      if StartsWith(s, target) {
        var rest := ReplaceAll(s[|target|..], target, replacement);
        assert out == replacement + rest;
        ReplaceAllRemoves(s[|target|..], target, replacement);
        forall i | 0 <= i <= |out| - |target|
          ensures !OccursAt(target, out, i)
        {
          if i < |replacement| {
            assert out[i..i + |target|][0] == replacement[i];
          } else {
            assert out[i..i + |target|] == rest[i - |replacement|..i - |replacement| + |target|];
            assert !OccursAt(target, rest, i - |replacement|);
          }
        }
      } else {
        var rest := ReplaceAll(s[1..], target, replacement);
        assert out == [s[0]] + rest;
        ReplaceAllRemoves(s[1..], target, replacement);
        forall i | 0 <= i <= |out| - |target|
          ensures !OccursAt(target, out, i)
        {
          if i == 0 {
            ReplaceAllPrefix(s[1..], target, replacement, target[1..]);
            assert out[..|target|] == [s[0]] + rest[..|target| - 1];
            assert s[..|target|] == [s[0]] + s[1..][..|target| - 1];
          } else {
            assert out[i..i + |target|] == rest[i - 1..i - 1 + |target|];
            assert !OccursAt(target, rest, i - 1);
          }
        }
      }
    }
  }

  /** A text without the target comes out unchanged. */
  lemma {:induction false} ReplaceAllWithoutTarget(s: string, target: string, replacement: string)
    requires |target| > 0
    requires !Occurs(target, s)
    ensures ReplaceAll(s, target, replacement) == s
    decreases |s|
  {
    if |s| >= |target| {
      assert !OccursAt(target, s, 0);
      assert s[0..|target|] == s[..|target|];
      forall i | 0 <= i <= |s[1..]| - |target|
        ensures !OccursAt(target, s[1..], i)
      {
        assert s[1..][i..i + |target|] == s[i + 1..i + 1 + |target|];
        assert !OccursAt(target, s, i + 1);
      }
      ReplaceAllWithoutTarget(s[1..], target, replacement);
    }
  }

  /** Every `${contextPath}` is substituted, and a text without one is served as it is. */
  lemma ContextPathReplaced(content: string)
    ensures !Occurs(CONTEXT_PATH, ReplaceContextPath(content))
    ensures !Occurs(CONTEXT_PATH, content) ==> ReplaceContextPath(content) == content
  {
    assert CONTEXT_PATH[0] == '$';
    assert CONTEXT_PATH_VALUE[0] == '/';
    assert '/' !in CONTEXT_PATH[1..];
    ReplaceAllRemoves(content, CONTEXT_PATH, CONTEXT_PATH_VALUE);
    if !Occurs(CONTEXT_PATH, content) {
      ReplaceAllWithoutTarget(content, CONTEXT_PATH, CONTEXT_PATH_VALUE);
    }
  }

  /** What a response was ended with. */
  datatype Body = Empty | Text(text: string) | Bytes(bytes: seq<bv8>)

  /**
   * An HTTP server response: headers set by name, a status code (200 until
   * set), and the body once `end` was called. Changing an ended response
   * throws `IllegalStateException`, recorded in `threw`.
   */
  class Response {
    var headers: map<string, string>
    var statusCode: int
    var body: Option<Body>
    var threw: bool

    constructor ()
      ensures headers == map[] && statusCode == 200 && body == None && !threw
    {
      headers, statusCode, body, threw := map[], 200, None, false;
    }

    predicate Ended()
      reads this
    {
      body.Some?
    }

    method PutHeader(name: string, value: string)
      modifies this
      ensures old(Ended()) ==> headers == old(headers) && threw
      ensures !old(Ended()) ==> headers == old(headers)[name := value] && threw == old(threw)
      ensures statusCode == old(statusCode) && body == old(body)
    {
      if body.Some? {
        threw := true;
      } else {
        headers := headers[name := value];
      }
    }

    method SetStatusCode(code: int)
      modifies this
      ensures old(Ended()) ==> statusCode == old(statusCode) && threw
      ensures !old(Ended()) ==> statusCode == code && threw == old(threw)
      ensures headers == old(headers) && body == old(body)
    {
      if body.Some? {
        threw := true;
      } else {
        statusCode := code;
      }
    }

    method End(b: Body)
      modifies this
      ensures old(Ended()) ==> body == old(body) && threw
      ensures !old(Ended()) ==> body == Some(b) && threw == old(threw)
      ensures headers == old(headers) && statusCode == old(statusCode)
    {
      if body.Some? {
        threw := true;
      } else {
        body := Some(b);
      }
    }
  }

  /** The headers after `setHeaders(resp, contentType)`: the type and the two CORS headers. */
  function WithHeaders(headers: map<string, string>, contentType: string): (r: map<string, string>)
    ensures r.Keys == headers.Keys + {CONTENT_TYPE, ALLOW_ORIGIN, ALLOW_METHODS}
    ensures r[CONTENT_TYPE] == contentType && r[ALLOW_ORIGIN] == "*" && r[ALLOW_METHODS] == ALLOWED_METHODS
    ensures forall h :: h in headers && h !in {CONTENT_TYPE, ALLOW_ORIGIN, ALLOW_METHODS} ==> r[h] == headers[h]
  {
    headers[CONTENT_TYPE := contentType][ALLOW_ORIGIN := "*"][ALLOW_METHODS := ALLOWED_METHODS]
  }

  /** `setHeaders`. */
  method SetHeaders(resp: Response, contentType: string)
    requires !resp.Ended()
    modifies resp
    ensures resp.headers == WithHeaders(old(resp.headers), contentType)
    ensures resp.statusCode == old(resp.statusCode) && resp.body == None && resp.threw == old(resp.threw)
  {
    resp.PutHeader(CONTENT_TYPE, contentType);
    resp.PutHeader(ALLOW_ORIGIN, "*");
    resp.PutHeader(ALLOW_METHODS, ALLOWED_METHODS);
  }

  /** `end(response, content)`: JSON headers, then the content. */
  method End(resp: Response, content: string)
    requires !resp.Ended()
    modifies resp
    ensures resp.headers == WithHeaders(old(resp.headers), APPLICATION_JSON_UTF8)
    ensures resp.statusCode == old(resp.statusCode) && resp.body == Some(Text(content)) && resp.threw == old(resp.threw)
  {
    SetHeaders(resp, APPLICATION_JSON_UTF8);
    resp.End(Text(content));
  }

  /** `endIfFound`: null content ends the response with 404 and an empty body. */
  method EndIfFound(resp: Response, content: Option<string>)
    requires !resp.Ended()
    modifies resp
    ensures resp.headers == WithHeaders(old(resp.headers), APPLICATION_JSON_UTF8)
    ensures content.None? ==> resp.statusCode == 404 && resp.body == Some(Empty)
    ensures content.Some? ==> resp.statusCode == old(resp.statusCode) && resp.body == Some(Text(content.value))
    ensures resp.threw == old(resp.threw)
  {
    SetHeaders(resp, APPLICATION_JSON_UTF8);
    if content.None? {
      resp.SetStatusCode(404);
      resp.End(Empty);
      return;
    }
    resp.End(Text(content.value));
  }

  /**
   * `handleResource`: the detected type and CORS headers, `Cache-Control`
   * exactly for cacheable types, then the resource — text with every
   * `${contextPath}` substituted, or the bytes — or 404 with an empty body
   * when it is missing.
   */
  method HandleResource(resp: Response, resourceName: string, text: Option<string>, bytes: Option<seq<bv8>>)
    requires !resp.Ended()
    modifies resp
    ensures var contentType := DetectContentType(resourceName);
      resp.headers == WithHeaders(old(resp.headers), contentType) + (if IsCachable(contentType) then map[CACHE_CONTROL := MAX_AGE] else map[])
    ensures CACHE_CONTROL !in old(resp.headers) ==> (CACHE_CONTROL in resp.headers <==> IsCachable(DetectContentType(resourceName)))
    ensures IsTextBased(DetectContentType(resourceName)) ==>
      (text.None? ==> resp.statusCode == 404 && resp.body == Some(Empty))
      && (text.Some? ==> resp.statusCode == old(resp.statusCode) && resp.body == Some(Text(ReplaceContextPath(text.value)))
                         && !Occurs(CONTEXT_PATH, resp.body.value.text))
    ensures !IsTextBased(DetectContentType(resourceName)) ==>
      (bytes.None? ==> resp.statusCode == 404 && resp.body == Some(Empty))
      && (bytes.Some? ==> resp.statusCode == old(resp.statusCode) && resp.body == Some(Bytes(bytes.value)))
    ensures resp.threw == old(resp.threw)
  {
    var contentType := DetectContentType(resourceName);
    SetHeaders(resp, contentType);
    if IsCachable(contentType) {
      resp.PutHeader(CACHE_CONTROL, MAX_AGE);
    }
    if IsTextBased(contentType) {
      if text.None? {
        resp.SetStatusCode(404);
        resp.End(Empty);
        return;
      }
      var content := ReplaceContextPath(text.value);
      ContextPathReplaced(text.value);
      resp.End(Text(content));
    } else {
      if bytes.Some? {
        resp.End(Bytes(bytes.value));
      } else {
        resp.SetStatusCode(404);
        resp.End(Empty);
      }
    }
  }

  /**
   * The invocations and events handlers as written: the `DELETE` case has
   * no `break`, so after ending the response with the cleared data it falls
   * into the default case, whose `setStatusCode(405)` on the ended response
   * throws.
   */
  method ListOrClearAsWritten(resp: Response, httpMethod: HttpMethod, listed: string, cleared: string)
    requires !resp.Ended() && !resp.threw
    modifies resp
    ensures httpMethod == GET ==> resp.body == Some(Text(listed)) && resp.statusCode == old(resp.statusCode) && !resp.threw
    ensures httpMethod == DELETE ==> resp.body == Some(Text(cleared)) && resp.statusCode == old(resp.statusCode) && resp.threw
    ensures httpMethod != GET && httpMethod != DELETE ==> resp.body == Some(Empty) && resp.statusCode == 405 && !resp.threw
  {
    match httpMethod {
      case GET =>
        End(resp, listed);
      case DELETE =>
        End(resp, cleared);
        // falls through: the response is ended, so this throws and the `end()` after it is not reached
        resp.SetStatusCode(405);
      case _ =>
        resp.SetStatusCode(405);
        resp.End(Empty);
    }
  }

  /** The same handlers with the `DELETE` case ended by a `break`. */
  method ListOrClear(resp: Response, httpMethod: HttpMethod, listed: string, cleared: string)
    requires !resp.Ended() && !resp.threw
    modifies resp
    ensures httpMethod == GET ==> resp.body == Some(Text(listed)) && resp.statusCode == old(resp.statusCode)
    ensures httpMethod == DELETE ==> resp.body == Some(Text(cleared)) && resp.statusCode == old(resp.statusCode)
    ensures httpMethod != GET && httpMethod != DELETE ==> resp.body == Some(Empty) && resp.statusCode == 405
    ensures !resp.threw
  {
    match httpMethod {
      case GET =>
        End(resp, listed);
      case DELETE =>
        End(resp, cleared);
      case _ =>
        resp.SetStatusCode(405);
        resp.End(Empty);
    }
  }

  /** A `DELETE` of the invocations, as written: the cleared data is sent and the handler then throws. */
  method DeleteThrowsAsWritten(cleared: string) returns (resp: Response)
    ensures resp.body == Some(Text(cleared)) && resp.statusCode == 200
    ensures resp.threw
  {
    resp := new Response();
    ListOrClearAsWritten(resp, DELETE, "", cleared);
  }

  /** A `DELETE` of the invocations with the `break`: the cleared data is sent and nothing throws. */
  method DeleteCompletes(cleared: string) returns (resp: Response)
    ensures resp.body == Some(Text(cleared)) && resp.statusCode == 200
    ensures !resp.threw
  {
    resp := new Response();
    ListOrClear(resp, DELETE, "", cleared);
  }
}
