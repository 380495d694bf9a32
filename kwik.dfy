/**
 * The Kwik stream extractor, in its TypeScript (src/providers/extractors/kwik.ts) and Go
 * (pkg/extractors/kwik.go) forms. The embed page hides the stream URL in a packed script:
 * locate `eval(f...` up to the closing script tag, drop the first `eval`, evaluate the rest in
 * a sandboxed interpreter, and take the first `https...m3u8` in what it returns.
 * The two regular expressions are written out as searches; the interpreter and the HTTP
 * client are parameters.
 */
module Kwik {
  import opened Wrappers
  import opened Text
  import opened Records

  /** An HTTP GET as the extractor issues it: the URL and the Referer header. */
  datatype Request = Request(url: string, referer: string)

  // ---------------------------------------------------------------------------------------
  // `(eval)(\(f.*?)(<terminator>)` with `.` matching every character

  /** The pattern matches `html[p..q + |term|]`: `eval(f` at `p`, the terminator at `q`. */
  predicate IsScriptMatch(html: string, term: string, p: nat, q: nat) {
    OccursAt(html, "eval(f", p) && p + 6 <= q && OccursAt(html, term, q)
  }

  /** The leftmost match, and at that start the shortest one (the lazy `.*?`). */
  function ScriptMatch(html: string, term: string): (r: Option<(nat, nat)>)
    ensures r.Some? ==> IsScriptMatch(html, term, r.value.0, r.value.1)
    ensures r.Some? ==> forall p: nat, q: nat :: p < r.value.0 ==> !IsScriptMatch(html, term, p, q)
    ensures r.Some? ==> forall q: nat :: q < r.value.1 ==> !IsScriptMatch(html, term, r.value.0, q)
    ensures r.None? ==> forall p, q :: !IsScriptMatch(html, term, p, q)
  {
    match FindFrom(html, "eval(f", 0)
    case None => None
    case Some(p) =>
      match FindFrom(html, term, p + 6)
      case None => None
      case Some(q) => Some((p, q))
  }

  /** Capture group 2 with its first `eval` removed: the code handed to the interpreter. */
  function ScriptPayload(html: string, term: string): (r: Option<string>)
    ensures r.None? <==> forall p, q :: !IsScriptMatch(html, term, p, q)
    ensures r.Some? ==>
      ScriptMatch(html, term).Some?
      && var (p, q) := ScriptMatch(html, term).value;
      r.value == ReplaceFirst(html[p + 4..q], "eval", "")
  {
    match ScriptMatch(html, term)
    case None => None
    case Some((p, q)) => Some(ReplaceFirst(html[p + 4..q], "eval", ""))
  }

  /** Capture group 2 starts with `(f` and stops right before the first terminator after it. */
  lemma ScriptGroupShape(html: string, term: string)
    requires ScriptMatch(html, term).Some?
    ensures var (p, q) := ScriptMatch(html, term).value;
      StartsWith(html[p + 4..q], "(f") && forall k :: p + 6 <= k < q ==> !OccursAt(html, term, k)
  {
    var (p, q) := ScriptMatch(html, term).value;
    assert html[p + 4..q][..2] == html[p..p + 6][4..];
    forall k | p + 6 <= k < q ensures !OccursAt(html, term, k) {
      assert !IsScriptMatch(html, term, p, k);
    }
  }

  // ---------------------------------------------------------------------------------------
  // `https.*?m3u8` with `.` matching every character but a line break

  predicate NoBreakBetween(s: string, lo: nat, hi: nat, isBreak: char -> bool)
    requires lo <= hi <= |s|
  {
    forall k :: lo <= k < hi ==> !isBreak(s[k])
  }

  /** The pattern matches `s[p..q + 4]`: `https` at `p`, `m3u8` at `q`, no line break between. */
  predicate IsSourceMatch(s: string, isBreak: char -> bool, p: nat, q: nat) {
    OccursAt(s, "https", p) && p + 5 <= q && OccursAt(s, "m3u8", q)
    && NoBreakBetween(s, p + 5, q, isBreak)
  }

  /** The leftmost match starting at or after `i`, and at that start the shortest one. */
  function SourceMatchFrom(s: string, isBreak: char -> bool, i: nat): (r: Option<(nat, nat)>)
    ensures r.Some? ==> i <= r.value.0 && IsSourceMatch(s, isBreak, r.value.0, r.value.1)
    ensures r.Some? ==> forall p, q :: i <= p < r.value.0 ==> !IsSourceMatch(s, isBreak, p, q)
    ensures r.Some? ==> forall q: nat :: q < r.value.1 ==> !IsSourceMatch(s, isBreak, r.value.0, q)
    ensures r.None? ==> forall p, q :: i <= p ==> !IsSourceMatch(s, isBreak, p, q)
    decreases |s| - i
  {
    match FindFrom(s, "https", i)
    case None => None
    case Some(p) =>
      match FindFrom(s, "m3u8", p + 5)
      case Some(q) =>
        if NoBreakBetween(s, p + 5, q, isBreak) then Some((p, q))
        else
          assert forall q': nat :: !IsSourceMatch(s, isBreak, p, q');
          SourceMatchFrom(s, isBreak, p + 1)
      case None => SourceMatchFrom(s, isBreak, p + 1)
  }

  /** The matched text, when the pattern matches somewhere. */
  function FirstSource(s: string, isBreak: char -> bool): (r: Option<string>)
    ensures r.None? <==> forall p, q :: !IsSourceMatch(s, isBreak, p, q)
    ensures r.Some? ==> StartsWith(r.value, "https") && |r.value| >= 9
                        && r.value[|r.value| - 4..] == "m3u8"
    ensures r.Some? ==>
      SourceMatchFrom(s, isBreak, 0).Some?
      && var (p, q) := SourceMatchFrom(s, isBreak, 0).value;
      r.value == s[p..q + 4]
  {
    match SourceMatchFrom(s, isBreak, 0)
    case None => None
    case Some((p, q)) =>
      assert s[p..q + 4][..5] == s[p..p + 5];
      assert s[p..q + 4][q + 4 - p - 4..] == s[q..q + 4];
      Some(s[p..q + 4])
  }

  /** The characters JavaScript's `.` does not match. */
  predicate IsJsLineTerminator(c: char) {
    c == '\n' || c == '\r' || c == '\U{2028}' || c == '\U{2029}'
  }

  /** The one character RE2's `.` does not match without the `s` flag. */
  predicate IsNewline(c: char) {
    c == '\n'
  }

  // ---------------------------------------------------------------------------------------
  // TypeScript extractor

  const TsReferer := "https://animepahe.ru/"

  /** What `extract` does: resolve to a URL, resolve to an error result, or throw. */
  datatype TsExtraction = Url(url: string) | ErrResult(message: string) | Throws

  /**
   * `extract(url)`: the embed page is requested with the animepahe referer; a status other
   * than 200 is an error result; a page without the packed script, a failed evaluation (the
   * sandbox answers `null`) and a result without a stream URL all throw.
   */
  function ExtractTs(url: string, fetch: Request -> HttpResponse<string>,
                     eval: string -> Option<string>): (r: TsExtraction)
    ensures fetch(Request(url, TsReferer)).status != 200 <==> r == ErrResult("Failed to fetch from animepahe.")
    ensures var res := fetch(Request(url, TsReferer));
      res.status == 200 && ScriptPayload(res.body, "\n</script>").None? ==> r == Throws
    ensures var res := fetch(Request(url, TsReferer));
      var code := ScriptPayload(res.body, "\n</script>");
      res.status == 200 && code.Some? && eval(code.value).None? ==> r == Throws
    ensures var res := fetch(Request(url, TsReferer));
      var code := ScriptPayload(res.body, "\n</script>");
      res.status == 200 && code.Some? && eval(code.value).Some? ==>
        (r.Throws? <==> FirstSource(eval(code.value).value, IsJsLineTerminator).None?)
        && (r.Url? ==> r.url == FirstSource(eval(code.value).value, IsJsLineTerminator).value)
    ensures r.Url? ==> StartsWith(r.url, "https") && r.url[|r.url| - 4..] == "m3u8"
  {
    var res := fetch(Request(url, TsReferer));
    if res.status != 200 then ErrResult("Failed to fetch from animepahe.")
    else
      match ScriptPayload(res.body, "\n</script>")
      case None => Throws
      case Some(script) =>
        match eval(script)
        case None => Throws
        case Some(text) =>
          match FirstSource(text, IsJsLineTerminator)
          case None => Throws
          case Some(src) => Url(src)
  }

  // ---------------------------------------------------------------------------------------
  // Go extractor

  /** A response as `http.Client.Do` returns it. */
  datatype GoResponse = GoResponse(status: int, contentType: string, body: string)

  datatype KwikError =
    | Transport(message: string)
    | BadStatus(code: int)
    | NotHtml
    | FailedToExtractMediaURL
    | EvalError(message: string)

  /** The Referer every extractor request carries. */
  function GoReferer(animepaheHost: string): string {
    "https://" + animepaheHost
  }

  /**
   * `unpack`: no script match and no stream URL are `ErrFailedToExtractMediaURL`;
   * an interpreter error is passed on unchanged.
   */
  function Unpack(html: string, eval: string -> Result<string, string>): (r: Result<string, KwikError>)
    ensures ScriptPayload(html, "</script>").None? ==> r == Failure(FailedToExtractMediaURL)
    ensures ScriptPayload(html, "</script>").Some? && eval(ScriptPayload(html, "</script>").value).Failure? ==>
      r == Failure(EvalError(eval(ScriptPayload(html, "</script>").value).error))
    ensures var code := ScriptPayload(html, "</script>");
      code.Some? && eval(code.value).Success? ==>
        var src := FirstSource(eval(code.value).value, IsNewline);
        (src.None? ==> r == Failure(FailedToExtractMediaURL)) && (src.Some? ==> r == Success(src.value))
    ensures r.Success? ==> StartsWith(r.value, "https") && r.value[|r.value| - 4..] == "m3u8"
  {
    match ScriptPayload(html, "</script>")
    case None => Failure(FailedToExtractMediaURL)
    case Some(code) =>
      match eval(code)
      case Failure(e) => Failure(EvalError(e))
      case Success(unpacked) =>
        match FirstSource(unpacked, IsNewline)
        case None => Failure(FailedToExtractMediaURL)
        case Some(src) => Success(src)
  }

  /**
   * `Extract`: a transport error is passed on; a status other than 200 and a Content-Type that
   * does not start with `text/html` are errors; otherwise the body is unpacked.
   */
  function ExtractGo(url: string, animepaheHost: string, send: Request -> Result<GoResponse, string>,
                     eval: string -> Result<string, string>): (r: Result<string, KwikError>)
    ensures send(Request(url, GoReferer(animepaheHost))).Failure? ==>
      r == Failure(Transport(send(Request(url, GoReferer(animepaheHost))).error))
    ensures send(Request(url, GoReferer(animepaheHost))).Success? ==>
      var resp := send(Request(url, GoReferer(animepaheHost))).value;
      (resp.status != 200 ==> r == Failure(BadStatus(resp.status)))
      && (resp.status == 200 && !StartsWith(resp.contentType, "text/html") ==> r == Failure(NotHtml))
      && (resp.status == 200 && StartsWith(resp.contentType, "text/html") ==> r == Unpack(resp.body, eval))
  {
    match send(Request(url, GoReferer(animepaheHost)))
    case Failure(e) => Failure(Transport(e))
    case Success(resp) =>
      if resp.status != 200 then Failure(BadStatus(resp.status))
      else if !StartsWith(resp.contentType, "text/html") then Failure(NotHtml)
      else Unpack(resp.body, eval)
  }

  /**
   * The two patterns match at the same place when the Go terminator's first occurrence is the
   * TS one's tail, the TS terminator then ending one character later.
   */
  lemma NewlineTerminatedMatch(html: string)
    requires ScriptMatch(html, "\n</script>").Some?
    requires var (p, q) := ScriptMatch(html, "\n</script>").value;
      forall k :: p + 6 <= k < q + 1 ==> !OccursAt(html, "</script>", k)
    ensures ScriptMatch(html, "</script>").Some?
    ensures ScriptMatch(html, "</script>").value.0 == ScriptMatch(html, "\n</script>").value.0
    ensures ScriptMatch(html, "</script>").value.1 == ScriptMatch(html, "\n</script>").value.1 + 1
  {
    var (p, q) := ScriptMatch(html, "\n</script>").value;
    assert html[q + 1..q + 10] == html[q..q + 10][1..];
    assert IsScriptMatch(html, "</script>", p, q + 1);
  }

  /**
   * The two scripts' payloads agree when the Go terminator's first occurrence is the TS one's
   * tail: a page whose packed script ends with a newline before `</script>` yields the same
   * code in both, except for that newline.
   */
  lemma PayloadsAgreeOnNewlineTerminatedScript(html: string)
    requires ScriptMatch(html, "\n</script>").Some?
    requires var (p, q) := ScriptMatch(html, "\n</script>").value;
      forall k :: p + 6 <= k < q + 1 ==> !OccursAt(html, "</script>", k)
    ensures ScriptMatch(html, "</script>").Some?
    ensures ScriptMatch(html, "</script>").value.0 == ScriptMatch(html, "\n</script>").value.0
    ensures ScriptMatch(html, "</script>").value.1 == ScriptMatch(html, "\n</script>").value.1 + 1
    ensures ScriptPayload(html, "</script>").value == ScriptPayload(html, "\n</script>").value + "\n"
  {
    NewlineTerminatedMatch(html);
    var (p, q) := ScriptMatch(html, "\n</script>").value;
    assert ScriptMatch(html, "</script>") == Some((p, q + 1));
    PayloadWithNewline(html, p, q);
    assert ScriptPayload(html, "\n</script>") == Some(ReplaceFirst(html[p + 4..q], "eval", ""));
    assert ScriptPayload(html, "</script>") == Some(ReplaceFirst(html[p + 4..q + 1], "eval", ""));
  }

  /** A group ending right before a newline, extended by it, has that newline appended to its payload. */
  lemma PayloadWithNewline(html: string, p: nat, q: nat)
    requires p + 4 <= q && OccursAt(html, "\n</script>", q)
    ensures q + 1 <= |html|
    ensures ReplaceFirst(html[p + 4..q + 1], "eval", "") == ReplaceFirst(html[p + 4..q], "eval", "") + "\n"
  {
    assert html[q] == "\n</script>"[0];
    assert html[p + 4..q + 1] == html[p + 4..q] + ['\n'];
    ReplaceFirstAppend(html[p + 4..q], "eval", "", '\n');
  }
}
