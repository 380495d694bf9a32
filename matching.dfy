/**
 * Matching a Jikan anime to its AnimePahe search hit (pkg/animepahe/matching.go): pick a
 * search title by priority, search, and take the first hit of the same year, season and type
 * whose best title similarity reaches the threshold. The similarity, a percentage computed in
 * floating point from the edit distance, is stated exactly as a ratio of integers.
 * The session cache and the search request are parameters.
 */
module Matching {
  import opened Wrappers
  import opened Text
  import opened GoRecords

  // ---------------------------------------------------------------------------------------
  // Edit distance

  function Max(a: nat, b: nat): nat {
    if a < b then b else a
  }

  function Min3(a: nat, b: nat, c: nat): (r: nat)
    ensures r <= a && r <= b && r <= c && (r == a || r == b || r == c)
  {
    if a <= b && a <= c then a else if b <= c then b else c
  }

  /**
   * The Levenshtein distance: fewest insertions, deletions and substitutions turning `a` into
   * `b`. Deleting all of `a` and inserting all of `b` always works, which bounds it by the
   * sum of the lengths; `LevUpper` and `LevLower` tighten the bounds.
   */
  function Lev(a: string, b: string): (r: nat)
    ensures r <= |a| + |b|
    decreases |a| + |b|
  {
    if a == [] then |b|
    else if b == [] then |a|
    else
      var a', b' := a[..|a| - 1], b[..|b| - 1];
      var cost := if a[|a| - 1] == b[|b| - 1] then 0 else 1;
      Min3(Lev(a', b) + 1, Lev(a, b') + 1, Lev(a', b') + cost)
  }

  /** Substituting position by position and then inserting or deleting the rest never costs more than the longer string. */
  lemma {:induction false} LevUpper(a: string, b: string)
    ensures Lev(a, b) <= Max(|a|, |b|)
    decreases |a| + |b|
  {
    if a != [] && b != [] {
      LevUpper(a[..|a| - 1], b[..|b| - 1]);
    }
  }

  /** Each edit changes the length by at most one. */
  lemma {:induction false} LevLower(a: string, b: string)
    ensures Lev(a, b) >= |a| - |b| && Lev(a, b) >= |b| - |a|
    decreases |a| + |b|
  {
    if a != [] && b != [] {
      LevLower(a[..|a| - 1], b);
      LevLower(a, b[..|b| - 1]);
      LevLower(a[..|a| - 1], b[..|b| - 1]);
    }
  }

  /** The distance is zero exactly between equal strings. */
  lemma {:induction false} LevZero(a: string, b: string)
    ensures Lev(a, b) == 0 <==> a == b
    decreases |a| + |b|
  {
    if a != [] && b != [] {
      var a', b' := a[..|a| - 1], b[..|b| - 1];
      LevZero(a', b');
      if Lev(a, b) == 0 {
        assert a == a' + [a[|a| - 1]] && b == b' + [b[|b| - 1]];
      }
      if a == b {
        assert a' == b';
      }
    }
  }

  // ---------------------------------------------------------------------------------------
  // Similarity

  /**
   * A value of `stringCompare`: `(num / den) * 100`, or NaN (0/0 in floating point). Every
   * value the code computes has `den > 0`.
   */
  datatype Similarity = NaN | Ratio(num: int, den: int)

  /** `stringCompare(a, b)`: `(1 - distance / max(len a, len b)) * 100`. */
  function StringCompare(a: string, b: string): (s: Similarity)
    ensures s.NaN? <==> a == [] && b == []
    ensures s.Ratio? ==> s.den == Max(|a|, |b|) > 0 && s.num == s.den - Lev(a, b) && 0 <= s.num <= s.den
    ensures s.Ratio? ==> (s.num == s.den <==> a == b)
  {
    var m := Max(|a|, |b|);
    if m == 0 then NaN
    else
      LevUpper(a, b);
      LevZero(a, b);
      Ratio(m - Lev(a, b), m)
  }

  /** The float comparison `x >= y`: false whenever either side is NaN. */
  predicate AtLeast(x: Similarity, y: Similarity) {
    x.Ratio? && y.Ratio? && x.num * y.den >= y.num * x.den
  }

  /** `similarity >= 0.9` on the 0-100 scale, that is `1000 * num >= 9 * den`. */
  predicate Clears(s: Similarity) {
    s.Ratio? && 1000 * s.num >= 9 * s.den
  }

  /** Anything at least as similar as a value that clears the threshold clears it too. */
  lemma ClearsUpward(x: Similarity, y: Similarity)
    requires x.Ratio? && y.Ratio? && x.den > 0 && y.den > 0
    requires AtLeast(x, y) && Clears(y)
    ensures Clears(x)
  {
    var p := 1000 * x.num - 9 * x.den;
    assert p * y.den == 1000 * (x.num * y.den) - 9 * (x.den * y.den);
    assert (1000 * y.num) * x.den >= (9 * y.den) * x.den;
    assert p * y.den >= 0;
  }

  /**
   * The threshold, stated without division: for titles of at most 111 characters it accepts
   * every pair that is not completely different (distance below the longer length), because
   * the percentage is compared with 0.9, not 90.
   */
  lemma ThresholdMeaning(a: string, b: string)
    requires 0 < Max(|a|, |b|) <= 111
    ensures Clears(StringCompare(a, b)) <==> Lev(a, b) < Max(|a|, |b|)
  {
  }

  /** A non-empty title always clears the threshold against itself. */
  lemma SameTitleClears(a: string)
    requires a != []
    ensures Clears(StringCompare(a, a))
  {
    LevZero(a, a);
  }

  /** Some title of `titles` clears the threshold against `entryTitle`. */
  predicate SomeTitleClears(titles: seq<AnimeTitle>, entryTitle: string) {
    exists k :: 0 <= k < |titles| && Clears(StringCompare(titles[k].title, entryTitle))
  }

  /**
   * The inner loop: keep the largest similarity seen (starting from 0, a NaN never replaces
   * it) and the entry it was seen for. It clears the threshold exactly when some title does,
   * and the entry is recorded exactly when some title gives a number.
   */
  method BestSimilarity(titles: seq<AnimeTitle>, entry: SearchResult)
    returns (similarity: Similarity, closestMatch: Option<SearchResult>)
    ensures Clears(similarity) <==> SomeTitleClears(titles, entry.title)
    ensures closestMatch.Some? <==> exists k :: 0 <= k < |titles| && StringCompare(titles[k].title, entry.title).Ratio?
    ensures closestMatch.Some? ==> closestMatch.value == entry
  {
    similarity := Ratio(0, 1);
    closestMatch := None;
    for i := 0 to |titles|
      invariant similarity.Ratio? && similarity.den > 0 && similarity.num >= 0
      invariant closestMatch.None? ==> similarity == Ratio(0, 1)
      invariant closestMatch.Some? ==> closestMatch.value == entry
      invariant closestMatch.Some? <==> exists k :: 0 <= k < i && StringCompare(titles[k].title, entry.title).Ratio?
      invariant Clears(similarity) <==> exists k :: 0 <= k < i && Clears(StringCompare(titles[k].title, entry.title))
    {
      var titleSimilarity := StringCompare(titles[i].title, entry.title);
      if AtLeast(titleSimilarity, similarity) {
        if Clears(similarity) {
          ClearsUpward(titleSimilarity, similarity);
        }
        similarity := titleSimilarity;
        closestMatch := Some(entry);
      } else if Clears(titleSimilarity) {
        ClearsUpward(similarity, titleSimilarity);
      }
    }
  }

  // ---------------------------------------------------------------------------------------
  // Search title and filters

  /** The index of the first non-empty string at or after `i`. */
  function FirstNonEmptyFrom(strings: seq<string>, i: nat): (r: Option<nat>)
    requires i <= |strings|
    ensures r.Some? ==> i <= r.value < |strings| && strings[r.value] != ""
                        && forall j :: i <= j < r.value ==> strings[j] == ""
    ensures r.None? ==> forall j :: i <= j < |strings| ==> strings[j] == ""
    decreases |strings| - i
  {
    if i == |strings| then None
    else if strings[i] != "" then Some(i)
    else FirstNonEmptyFrom(strings, i + 1)
  }

  /**
   * The search title: the Japanese title, else the English one, else the first non-empty
   * synonym. Only a record with neither title and no synonyms at all is an error; synonyms
   * that are all empty give the empty title.
   */
  function SearchTitle(info: AnimeInfoBase): (r: Result<string, GoError>)
    ensures r.Failure? <==> info.titleJapanese == "" && info.titleEnglish == "" && info.titleSynonyms == []
    ensures r.Failure? ==> r.error == NoTitleFound
    ensures r == Success("") <==>
      info.titleJapanese == "" && info.titleEnglish == "" && info.titleSynonyms != []
      && forall k :: 0 <= k < |info.titleSynonyms| ==> info.titleSynonyms[k] == ""
    ensures info.titleJapanese != "" ==> r == Success(info.titleJapanese)
    ensures info.titleJapanese == "" && info.titleEnglish != "" ==> r == Success(info.titleEnglish)
    ensures info.titleJapanese == "" && info.titleEnglish == "" && FirstNonEmptyFrom(info.titleSynonyms, 0).Some? ==>
      r == Success(info.titleSynonyms[FirstNonEmptyFrom(info.titleSynonyms, 0).value])
    ensures r.Success? && r.value != "" ==>
      r.value == info.titleJapanese || r.value == info.titleEnglish || r.value in info.titleSynonyms
  {
    if info.titleJapanese != "" then Success(info.titleJapanese)
    else if info.titleEnglish != "" then Success(info.titleEnglish)
    else if |info.titleSynonyms| > 0 then
      match FirstNonEmptyFrom(info.titleSynonyms, 0)
      case None => Success("")
      case Some(k) => Success(info.titleSynonyms[k])
    else Failure(NoTitleFound)
  }

  /** The title `switch`, with its loop over the synonyms. */
  method ChooseTitle(info: AnimeInfoBase) returns (r: Result<string, GoError>)
    ensures r == SearchTitle(info)
  {
    if info.titleJapanese != "" {
      return Success(info.titleJapanese);
    }
    if info.titleEnglish != "" {
      return Success(info.titleEnglish);
    }
    if |info.titleSynonyms| == 0 {
      return Failure(NoTitleFound);
    }
    var title := "";
    var i := 0;
    while i < |info.titleSynonyms|
      invariant 0 <= i <= |info.titleSynonyms|
      invariant FirstNonEmptyFrom(info.titleSynonyms, 0) == FirstNonEmptyFrom(info.titleSynonyms, i)
    {
      if info.titleSynonyms[i] == "" {
        i := i + 1;
        continue;
      }
      title := info.titleSynonyms[i];
      break;
    }
    r := Success(title);
  }

  /** Same year, and season and type equal ignoring case. */
  predicate PassesFilters(info: AnimeInfoBase, entry: SearchResult) {
    entry.year == info.year
    && AsciiLower(info.season) == AsciiLower(entry.season)
    && AsciiLower(info.kind) == AsciiLower(entry.kind)
  }

  /** The hit the outer loop stops at. */
  predicate Accepted(info: AnimeInfoBase, entry: SearchResult) {
    PassesFilters(info, entry) && SomeTitleClears(info.titles, entry.title)
  }

  /** The first accepted hit at or after `i`. */
  function FirstAccepted(info: AnimeInfoBase, data: seq<SearchResult>, i: nat): (r: Option<nat>)
    requires i <= |data|
    ensures r.Some? ==> i <= r.value < |data| && Accepted(info, data[r.value])
                        && forall j :: i <= j < r.value ==> !Accepted(info, data[j])
    ensures r.None? ==> forall j :: i <= j < |data| ==> !Accepted(info, data[j])
    decreases |data| - i
  {
    if i == |data| then None
    else if Accepted(info, data[i]) then Some(i)
    else FirstAccepted(info, data, i + 1)
  }

  /** A record without titles never matches anything. */
  lemma NoTitlesNoMatch(info: AnimeInfoBase, data: seq<SearchResult>)
    requires info.titles == []
    ensures FirstAccepted(info, data, 0).None?
  {
  }

  // ---------------------------------------------------------------------------------------
  // GetMatchedResult

  /**
   * `GetMatchedResult`: a cached session is returned as it is. Otherwise the search title is
   * chosen and searched (first page); a search error, a status other than 200 and an empty
   * result list are errors; the first accepted hit's session is written to the session cache
   * (`written`: the anime id and the session) and returned, unless that write fails; no
   * accepted hit is `ErrNoSearchResultsFound`.
   */
  method GetMatchedResult(cached: Option<string>, info: AnimeInfoBase,
                          search: string -> Result<PaheResponse<SearchResult>, GoError>,
                          setError: Option<GoError>)
    returns (r: Result<string, GoError>, written: Option<(int, string)>)
    ensures cached.Some? ==> r == Success(cached.value) && written.None?
    ensures cached.None? && SearchTitle(info).Failure? ==> r == Failure(NoTitleFound) && written.None?
    ensures cached.None? && SearchTitle(info).Success? && search(SearchTitle(info).value).Failure? ==>
      r == Failure(search(SearchTitle(info).value).error) && written.None?
    ensures cached.None? && SearchTitle(info).Success? && search(SearchTitle(info).value).Success? ==>
      var resp := search(SearchTitle(info).value).value;
      var k := FirstAccepted(info, resp.data, 0);
      (resp.status != 200 ==> r == Failure(PaheBadStatus(resp.status)) && written.None?)
      && (resp.status == 200 && k.None? ==> r == Failure(PaheNoSearchResults) && written.None?)
      && (resp.status == 200 && k.Some? ==>
            written == Some((info.malId, resp.data[k.value].session))
            && (setError.Some? ==> r == Failure(setError.value))
            && (setError.None? ==> r == Success(resp.data[k.value].session)))
  {
    if cached.Some? {
      return Success(cached.value), None;
    }
    var title := ChooseTitle(info);
    if title.Failure? {
      return Failure(title.error), None;
    }
    var searched := search(title.value);
    if searched.Failure? {
      return Failure(searched.error), None;
    }
    var resp := searched.value;
    if resp.status != 200 {
      return Failure(PaheBadStatus(resp.status)), None;
    }
    if |resp.data| == 0 {
      return Failure(PaheNoSearchResults), None;
    }
    var found: Option<SearchResult> := None;
    var i := 0;
    while i < |resp.data|
      invariant 0 <= i <= |resp.data|
      invariant FirstAccepted(info, resp.data, 0) == FirstAccepted(info, resp.data, i)
      invariant found.None?
    {
      var entry := resp.data[i];
      if entry.year != info.year || AsciiLower(info.season) != AsciiLower(entry.season)
         || AsciiLower(info.kind) != AsciiLower(entry.kind) {
        i := i + 1;
        continue;
      }
      var similarity, closestMatch := BestSimilarity(info.titles, entry);
      if Clears(similarity) {
        found := closestMatch;
        break;
      }
      i := i + 1;
    }
    if found.None? {
      return Failure(PaheNoSearchResults), None;
    }
    written := Some((info.malId, found.value.session));
    if setError.Some? {
      return Failure(setError.value), written;
    }
    r := Success(found.value.session);
  }
}
