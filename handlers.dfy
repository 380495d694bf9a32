/**
 * The Go service's HTTP handlers (handlers/anime.go): query validation and the mapping from
 * use-case errors to response statuses. Query decoding and the use cases are parameters;
 * a response is what the handler writes, or nothing when the request was canceled.
 */
module Handlers {
  import opened Wrappers
  import opened Text
  import opened GoRecords

  const InvalidQuery := "invalid query"
  const InvalidSearchQuery := "invalid search query"
  const InvalidProviderQuery := "invalid provider query"
  const InvalidPageQuery := "invalid page query"
  const InvalidEpisodeID := "invalid episode id query"
  const InvalidMalID := "anime id is not valid"
  const InternalServerError := "server failed to process request"
  const FetchTimeout := "fetch timed out"
  const AnimeNotFoundMessage := "anime not found"

  /**
   * What a handler writes: nothing, an error body with its status, a plain-text 400 whose
   * text is the parser's message, or a 200 body.
   */
  datatype Response<T> = NoResponse | Error(status: int, message: string) | TextError(status: int) | Ok(data: T)

  // ---------------------------------------------------------------------------------------
  // strconv.Atoi

  const Int64Min := -0x8000_0000_0000_0000
  const Int64Max := 0x7FFF_FFFF_FFFF_FFFF
  const Uint64Max := 0xFFFF_FFFF_FFFF_FFFF

  datatype AtoiError = Syntax | OutOfRange

  predicate AllDigits(s: string) {
    forall k :: 0 <= k < |s| ==> IsDigit(s[k])
  }

  /** Decimal text: an optional `+` or `-` followed by at least one decimal digit. */
  predicate IsDecimal(s: string) {
    (s != [] && AllDigits(s)) || (|s| >= 2 && (s[0] == '+' || s[0] == '-') && AllDigits(s[1..]))
  }

  /** The integer decimal text denotes. */
  function DecimalValue(s: string): int
    requires IsDecimal(s)
  {
    if s[0] == '-' then -(ParseDigits(s[1..]) as int)
    else if s[0] == '+' then ParseDigits(s[1..]) as int
    else ParseDigits(s) as int
  }

  /** The text after one leading sign, if there is one. */
  function Unsigned(s: string): (u: string)
    ensures |u| <= |s|
  {
    if s != [] && (s[0] == '+' || s[0] == '-') then s[1..] else s
  }

  /** The length of the run of decimal digits `s` starts with. */
  function DigitRun(s: string): (n: nat)
    ensures n <= |s|
    ensures forall k :: 0 <= k < n ==> IsDigit(s[k])
    ensures n < |s| ==> !IsDigit(s[n])
  {
    if s != [] && IsDigit(s[0]) then 1 + DigitRun(s[1..]) else 0
  }

  /** The value of the digits `s` starts with, as far as its first non-digit. */
  function LeadingValue(s: string): nat {
    ParseDigits(s[..DigitRun(s)])
  }

  /**
   * The digit loop of `strconv.ParseUint(s, 10, 64)` from index `i` with `n` read so far: a
   * non-digit is a syntax error, and a digit taking the value past 2^64 - 1 is a range error
   * at once (Go's `n >= cutoff` and `n1 > maxVal` tests together say exactly that).
   */
  function ScanUint(s: string, i: nat, n: nat): Result<nat, AtoiError>
    requires i <= |s|
    decreases |s| - i
  {
    if i == |s| then Success(n)
    else if !IsDigit(s[i]) then Failure(Syntax)
    else if n * 10 + DigitValue(s[i]) > Uint64Max then Failure(OutOfRange)
    else ScanUint(s, i + 1, n * 10 + DigitValue(s[i]))
  }

  /** `strconv.ParseInt(s, 10, 64)`: the sign, then the unsigned scan, then the signed range. */
  function ParseInt(s: string): Result<int, AtoiError> {
    if s == [] then Failure(Syntax)
    else
      var u := Unsigned(s);
      var scan := if u == [] then Failure(Syntax) else ScanUint(u, 0, 0);
      if scan == Failure(Syntax) then Failure(Syntax)
      else if scan.Failure? then Failure(OutOfRange)
      else if s[0] != '-' && scan.value > Int64Max then Failure(OutOfRange)
      else if s[0] == '-' && scan.value > -Int64Min then Failure(OutOfRange)
      else Success(if s[0] == '-' then -(scan.value as int) else scan.value)
  }

  /**
   * `strconv.Atoi` on a 64-bit platform: text of 1 to 18 bytes takes the fast path (an
   * optional sign, then nothing but digits), anything else goes through `ParseInt`.
   */
  function Atoi(s: string): (r: Result<int, AtoiError>)
    ensures LeadingValue(Unsigned(s)) > Uint64Max ==> r == Failure(OutOfRange)
    ensures LeadingValue(Unsigned(s)) <= Uint64Max ==> (r == Failure(Syntax) <==> !IsDecimal(s))
    ensures IsDecimal(s) && Int64Min <= DecimalValue(s) <= Int64Max ==> r == Success(DecimalValue(s))
    ensures IsDecimal(s) && !(Int64Min <= DecimalValue(s) <= Int64Max) ==> r == Failure(OutOfRange)
    ensures r.Success? ==> Int64Min <= r.value <= Int64Max
  {
    AtoiMeaning(s);
    if 0 < |s| < 19 then
      var u := Unsigned(s);
      if u == [] || !AllDigits(u) then Failure(Syntax)
      else Success(if s[0] == '-' then -(ParseDigits(u) as int) else ParseDigits(u) as int)
    else ParseInt(s)
  }

  /** Reading more leading digits never lowers the value. */
  lemma {:induction false} ParseDigitsPrefixMono(s: string, i: nat, j: nat)
    requires i <= j <= |s| && AllDigits(s[..j])
    ensures ParseDigits(s[..i]) <= ParseDigits(s[..j])
    decreases j
  {
    if i < j {
      assert s[..j][..j - 1] == s[..j - 1];
      ParseDigitsPrefixMono(s, i, j - 1);
    }
  }

  /** Powers of ten. */
  function Pow10(n: nat): (p: nat)
    ensures p >= 1
  {
    if n == 0 then 1 else 10 * Pow10(n - 1)
  }

  /** `k` digits denote less than 10^k. */
  lemma {:induction false} ParseDigitsBelowPow10(s: string)
    requires AllDigits(s)
    ensures ParseDigits(s) < Pow10(|s|)
  {
    if s != [] {
      assert AllDigits(s[..|s| - 1]);
      ParseDigitsBelowPow10(s[..|s| - 1]);
    }
  }

  lemma Pow10Values()
    ensures Pow10(18) == 1_000_000_000_000_000_000
    ensures Pow10(19) == 10_000_000_000_000_000_000
  {
    assert Pow10(6) == 1_000_000;
    assert Pow10(12) == 1_000_000_000_000;
  }

  /** Digits denote at least their first digit times 10^(k - 1). */
  lemma {:induction false} ParseDigitsAtLeast(s: string)
    requires s != [] && AllDigits(s)
    ensures ParseDigits(s) >= DigitValue(s[0]) * Pow10(|s| - 1)
  {
    if |s| > 1 {
      var init := s[..|s| - 1];
      assert AllDigits(init) && init[0] == s[0];
      ParseDigitsAtLeast(init);
      assert DigitValue(s[0]) * Pow10(|s| - 1) == DigitValue(s[0]) * Pow10(|init| - 1) * 10;
    }
  }

  lemma {:induction false} Pow10Mono(a: nat, b: nat)
    requires a <= b
    ensures Pow10(a) <= Pow10(b)
    decreases b
  {
    if a < b {
      Pow10Mono(a, b - 1);
    }
  }

  /** The scan from index `i`: a range error when the leading digits overflow, otherwise a syntax error at a non-digit, otherwise the value. */
  lemma {:induction false} ScanUintMeaning(s: string, i: nat)
    requires i <= DigitRun(s) && ParseDigits(s[..i]) <= Uint64Max
    ensures ScanUint(s, i, ParseDigits(s[..i])) ==
      if LeadingValue(s) > Uint64Max then Failure(OutOfRange)
      else if DigitRun(s) < |s| then Failure(Syntax)
      else Success(LeadingValue(s))
    decreases |s| - i
  {
    var run := DigitRun(s);
    var n := ParseDigits(s[..i]);
    if i == |s| {
      assert s[..run] == s[..i];
    } else if !IsDigit(s[i]) {
      assert run == i;
    } else {
      var n' := n * 10 + DigitValue(s[i]);
      assert s[..i + 1][..i] == s[..i];
      assert ParseDigits(s[..i + 1]) == n';
      if n' > Uint64Max {
        ParseDigitsPrefixMono(s, i + 1, run);
      } else {
        ScanUintMeaning(s, i + 1);
      }
    }
  }

  /** The fast path and `ParseInt` both give the stated outcome. */
  lemma AtoiMeaning(s: string)
    ensures var r := if 0 < |s| < 19 then
        var u := Unsigned(s);
        if u == [] || !AllDigits(u) then Failure(Syntax)
        else Success(if s[0] == '-' then -(ParseDigits(u) as int) else ParseDigits(u) as int)
      else ParseInt(s);
      (LeadingValue(Unsigned(s)) > Uint64Max ==> r == Failure(OutOfRange))
      && (LeadingValue(Unsigned(s)) <= Uint64Max ==> (r == Failure(Syntax) <==> !IsDecimal(s)))
      && (IsDecimal(s) && Int64Min <= DecimalValue(s) <= Int64Max ==> r == Success(DecimalValue(s)))
      && (IsDecimal(s) && !(Int64Min <= DecimalValue(s) <= Int64Max) ==> r == Failure(OutOfRange))
      && (r.Success? ==> Int64Min <= r.value <= Int64Max)
  {
    var u := Unsigned(s);
    var run := DigitRun(u);
    assert u[..0] == [];
    assert IsDecimal(s) <==> u != [] && run == |u|;
    if run == |u| {
      assert u[..run] == u;
    }
    if 0 < |s| < 19 {
      ParseDigitsBelowPow10(u[..run]);
      Pow10Mono(run, 18);
      Pow10Values();
    } else if u != [] {
      ScanUintMeaning(u, 0);
    }
  }

  /** Every 64-bit integer's decimal text parses back to it. */
  lemma AtoiOfIntToString(n: int)
    requires Int64Min <= n <= Int64Max
    ensures Atoi(IntToString(n)) == Success(n)
  {
    var s := IntToString(n);
    var d := NatToString(if n < 0 then -n else n);
    ParseDigitsOfNatToString(if n < 0 then -n else n);
    if n < 0 {
      assert s[1..] == d;
    } else {
      assert s == d && IsDigit(d[0]);
    }
    assert IsDecimal(s) && DecimalValue(s) == n;
  }

  /**
   * As in Go, digits that overflow before a stray character are a range error, not a syntax
   * error: twenty nines followed by `x` is out of range.
   */
  lemma OverflowBeforeNonDigit(s: string)
    requires |s| == 21 && s[20] == 'x' && forall k :: 0 <= k < 20 ==> s[k] == '9'
    ensures Atoi(s) == Failure(OutOfRange)
  {
    assert Unsigned(s) == s;
    assert DigitRun(s) == 20;
    var t := s[..20];
    ParseDigitsAtLeast(t);
    Pow10Values();
  }

  // ---------------------------------------------------------------------------------------
  // Query validation

  /** `AnimeSearchQuery.Validate`. */
  function ValidateSearch(query: string): (err: Option<string>)
    ensures err.Some? <==> query == ""
    ensures err.Some? ==> err.value == InvalidSearchQuery
  {
    if query == "" then Some(InvalidSearchQuery) else None
  }

  /** `AnimeEpisodeLinksQuery.Validate`: the provider is checked before the episode id. */
  function ValidateLinks(provider: string, episodeId: string): (err: Option<string>)
    ensures err.None? <==> provider != "" && episodeId != ""
    ensures provider == "" ==> err == Some(InvalidProviderQuery)
    ensures provider != "" && episodeId == "" ==> err == Some(InvalidEpisodeID)
  {
    if provider == "" then Some(InvalidProviderQuery)
    else if episodeId == "" then Some(InvalidEpisodeID)
    else None
  }

  /** The decoded query of the episodes route. */
  class AnimeEpisodesQuery {
    var provider: string
    var page: int

    constructor (provider: string, page: int)
      ensures this.provider == provider && this.page == page
    {
      this.provider := provider;
      this.page := page;
    }

    /**
     * `Validate`: an empty provider is reported before the page; a negative page is invalid;
     * page 0 becomes 1. After a successful validation the page is at least 1.
     */
    method Validate() returns (err: Option<string>)
      modifies this
      ensures provider == old(provider)
      ensures old(provider) == "" ==> err == Some(InvalidProviderQuery) && page == old(page)
      ensures old(provider) != "" && old(page) < 0 ==> err == Some(InvalidPageQuery) && page == old(page)
      ensures old(provider) != "" && old(page) >= 0 ==> err.None? && page == (if old(page) == 0 then 1 else old(page))
      ensures err.None? ==> page >= 1
    {
      if provider == "" {
        return Some(InvalidProviderQuery);
      }
      if page < 0 {
        return Some(InvalidPageQuery);
      }
      if page == 0 {
        page := 1;
      }
      err := None;
    }
  }

  // ---------------------------------------------------------------------------------------
  // Handlers

  /** `SearchAnime`: query errors are 400s; a canceled request writes nothing; other errors are 500s. */
  function SearchAnime<T>(decoded: Option<string>, search: string -> Result<T, GoError>): (r: Response<T>)
    ensures decoded.None? <==> r == Error(400, InvalidQuery)
    ensures decoded.Some? && decoded.value == "" <==> r == Error(400, InvalidSearchQuery)
    ensures decoded.Some? && decoded.value != "" ==>
      var res := search(decoded.value);
      (res.Success? ==> r == Ok(res.value))
      && (res == Failure(Canceled) <==> r.NoResponse?)
      && (res.Failure? && res.error != Canceled <==> r == Error(500, InternalServerError))
  {
    if decoded.None? then Error(400, InvalidQuery)
    else
      match ValidateSearch(decoded.value)
      case Some(msg) => Error(400, msg)
      case None =>
        match search(decoded.value)
        case Success(data) => Ok(data)
        case Failure(e) => if e == Canceled then NoResponse else Error(500, InternalServerError)
  }

  /**
   * `GetAnime`: an id that is not an integer is a 400; a canceled request writes nothing;
   * `ErrAnimeNotFound` is a 404 and any other error a 500.
   */
  function GetAnime<T>(malId: string, getAnime: int -> Result<T, GoError>): (r: Response<T>)
    ensures Atoi(malId).Failure? <==> r == Error(400, InvalidMalID)
    ensures Atoi(malId).Success? ==>
      var res := getAnime(Atoi(malId).value);
      (res.Success? ==> r == Ok(res.value))
      && (res == Failure(Canceled) <==> r.NoResponse?)
      && (res == Failure(AnimeNotFound) <==> r == Error(404, AnimeNotFoundMessage))
      && (res.Failure? && res.error != Canceled && res.error != AnimeNotFound <==> r == Error(500, InternalServerError))
  {
    match Atoi(malId)
    case Failure(_) => Error(400, InvalidMalID)
    case Success(id) =>
      match getAnime(id)
      case Success(data) => Ok(data)
      case Failure(e) =>
        if e == Canceled then NoResponse
        else if e == AnimeNotFound then Error(404, AnimeNotFoundMessage)
        else Error(500, InternalServerError)
  }

  /**
   * `GetEpisodes`: a bad id is a plain-text 400; a query that does not decode or validate is
   * a 400 with its message; the use case gets the validated page (0 read as 1); its errors
   * map as in `GetAnime`.
   */
  method GetEpisodes<T>(malId: string, decoded: Result<(string, int), string>,
                        getEpisodes: (int, string, int) -> Result<T, GoError>)
    returns (r: Response<T>)
    ensures Atoi(malId).Failure? ==> r == TextError(400)
    ensures Atoi(malId).Success? && decoded.Failure? ==> r == Error(400, decoded.error)
    ensures Atoi(malId).Success? && decoded.Success? && decoded.value.0 == "" ==> r == Error(400, InvalidProviderQuery)
    ensures Atoi(malId).Success? && decoded.Success? && decoded.value.0 != "" && decoded.value.1 < 0 ==>
      r == Error(400, InvalidPageQuery)
    ensures Atoi(malId).Success? && decoded.Success? && decoded.value.0 != "" && decoded.value.1 >= 0 ==>
      var (provider, page) := decoded.value;
      var res := getEpisodes(Atoi(malId).value, provider, if page == 0 then 1 else page);
      (res.Success? ==> r == Ok(res.value))
      && (res == Failure(Canceled) <==> r.NoResponse?)
      && (res == Failure(AnimeNotFound) <==> r == Error(404, AnimeNotFoundMessage))
      && (res.Failure? && res.error != Canceled && res.error != AnimeNotFound <==> r == Error(500, InternalServerError))
  {
    var id := Atoi(malId);
    if id.Failure? {
      return TextError(400);
    }
    if decoded.Failure? {
      return Error(400, decoded.error);
    }
    var query := new AnimeEpisodesQuery(decoded.value.0, decoded.value.1);
    var err := query.Validate();
    if err.Some? {
      return Error(400, err.value);
    }
    var episodes := getEpisodes(id.value, query.provider, query.page);
    if episodes.Failure? {
      if episodes.error == Canceled {
        return NoResponse;
      }
      if episodes.error == AnimeNotFound {
        return Error(404, AnimeNotFoundMessage);
      }
      return Error(500, InternalServerError);
    }
    r := Ok(episodes.value);
  }

  /**
   * `GetEpisodesStreaming`: a bad id is a 400; a query that does not decode or validate is a
   * 400; a canceled request writes nothing; a timed-out one is a 504; any other error a 500.
   */
  function GetEpisodesStreaming<T>(malId: string, decoded: Option<(string, string)>,
                                   links: (int, string, string) -> Result<T, GoError>): (r: Response<T>)
    ensures Atoi(malId).Failure? <==> r == Error(400, InvalidMalID)
    ensures Atoi(malId).Success? && decoded.None? ==> r == Error(400, InvalidQuery)
    ensures Atoi(malId).Success? && decoded.Some? && ValidateLinks(decoded.value.0, decoded.value.1).Some? ==>
      r == Error(400, ValidateLinks(decoded.value.0, decoded.value.1).value)
    ensures Atoi(malId).Success? && decoded.Some? && ValidateLinks(decoded.value.0, decoded.value.1).None? ==>
      var res := links(Atoi(malId).value, decoded.value.0, decoded.value.1);
      (res.Success? ==> r == Ok(res.value))
      && (res == Failure(Canceled) <==> r.NoResponse?)
      && (res == Failure(DeadlineExceeded) <==> r == Error(504, FetchTimeout))
      && (res.Failure? && res.error != Canceled && res.error != DeadlineExceeded <==> r == Error(500, InternalServerError))
    ensures r.Error? ==> r.status in {400, 500, 504}
  {
    match Atoi(malId)
    case Failure(_) => Error(400, InvalidMalID)
    case Success(id) =>
      match decoded
      case None => Error(400, InvalidQuery)
      case Some((provider, episodeId)) =>
        match ValidateLinks(provider, episodeId)
        case Some(msg) => Error(400, msg)
        case None =>
          match links(id, provider, episodeId)
          case Success(data) => Ok(data)
          case Failure(e) =>
            if e == Canceled then NoResponse
            else if e == DeadlineExceeded then Error(504, FetchTimeout)
            else Error(500, InternalServerError)
  }
}
