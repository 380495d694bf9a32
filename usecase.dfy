/**
 * The Go service's use cases (usecase/anime.go): the search listing, the anime record read
 * through the Jikan cache, and the episode list read through the AnimePahe cache.
 * Each Jikan, AnimePahe and cache call is a parameter; cache writes are returned as the
 * value written.
 */
module Usecase {
  import opened Wrappers
  import opened Text
  import opened GoRecords

  // ---------------------------------------------------------------------------------------
  // SearchAnime

  /** One search listing entry. */
  datatype SearchEntry = SearchEntry(malId: int, poster: string, native: string, romaji: string, english: string,
                                     kind: string, year: int, totalEpisodes: int, isNsfw: bool)

  /** The hits the listing keeps: those with a type and a year. */
  predicate Listed(anime: AnimeInfoBase) {
    anime.kind != "" && anime.year != 0
  }

  /** The entry of one kept hit. */
  function EntryOf(anime: AnimeInfoBase): (r: SearchEntry)
    ensures r.isNsfw <==> StartsWith(anime.rating, "R")
    ensures r.malId == anime.malId && r.kind == anime.kind && r.year == anime.year
            && r.totalEpisodes == anime.episodes
    ensures r.poster == anime.poster
    ensures r.native == anime.title && r.romaji == anime.titleJapanese && r.english == anime.titleEnglish
  {
    SearchEntry(anime.malId, anime.poster, anime.title, anime.titleJapanese, anime.titleEnglish,
                anime.kind, anime.year, anime.episodes, StartsWith(anime.rating, "R"))
  }

  /** The kept hits, in order. */
  function ListedOnly(results: seq<AnimeInfoBase>): (r: seq<AnimeInfoBase>)
    ensures |r| <= |results|
    ensures forall a :: a in r ==> a in results && Listed(a)
    ensures forall a :: a in results && Listed(a) ==> a in r
  {
    if results == [] then []
    else
      var init := ListedOnly(results[..|results| - 1]);
      var last := results[|results| - 1];
      assert forall a :: a in results[..|results| - 1] ==> a in results;
      if Listed(last) then init + [last] else init
  }

  /** The filter keeps order: the kept hits of two runs are those of each, one after the other. */
  lemma {:induction false} ListedOnlyAppend(a: seq<AnimeInfoBase>, b: seq<AnimeInfoBase>)
    ensures ListedOnly(a + b) == ListedOnly(a) + ListedOnly(b)
    decreases |b|
  {
    if b == [] {
      assert a + b == a;
    } else {
      var b' := b[..|b| - 1];
      assert (a + b)[..|a + b| - 1] == a + b';
      assert (a + b)[|a + b| - 1] == b[|b| - 1];
      ListedOnlyAppend(a, b');
    }
  }

  /** One hit is kept exactly when it has a type and a year. */
  lemma ListedOnlySingle(a: AnimeInfoBase)
    ensures ListedOnly([a]) == if Listed(a) then [a] else []
  {
    assert [a][..0] == [];
  }

  /** The listing: the entries of the kept hits, in order; every entry has a type and a year. */
  function SearchEntries(results: seq<AnimeInfoBase>): (r: seq<SearchEntry>)
    ensures |r| <= |results|
    ensures forall i :: 0 <= i < |r| ==> r[i].kind != "" && r[i].year != 0
  {
    if results == [] then []
    else
      var init := SearchEntries(results[..|results| - 1]);
      var last := results[|results| - 1];
      if Listed(last) then init + [EntryOf(last)] else init
  }

  /** The listing is exactly the entries of the kept hits, one for one and in the same order. */
  lemma {:induction false} SearchEntriesOfListed(results: seq<AnimeInfoBase>)
    ensures |SearchEntries(results)| == |ListedOnly(results)|
    ensures forall i :: 0 <= i < |SearchEntries(results)| ==>
      SearchEntries(results)[i] == EntryOf(ListedOnly(results)[i])
  {
    if results != [] {
      SearchEntriesOfListed(results[..|results| - 1]);
    }
  }

  /**
   * `SearchAnime`: a search error is returned; otherwise every kept hit is written to the
   * anime cache (`cachedInfos`, failures only logged) and listed.
   */
  method SearchAnime(term: string, search: string -> Result<seq<AnimeInfoBase>, GoError>)
    returns (r: Result<seq<SearchEntry>, GoError>, cachedInfos: seq<AnimeInfoBase>)
    ensures search(term).Failure? ==> r == Failure(search(term).error) && cachedInfos == []
    ensures search(term).Success? ==>
      r == Success(SearchEntries(search(term).value)) && cachedInfos == ListedOnly(search(term).value)
  {
    var malSearch := search(term);
    if malSearch.Failure? {
      return Failure(malSearch.error), [];
    }
    var data := malSearch.value;
    var results: seq<SearchEntry> := [];
    cachedInfos := [];
    for i := 0 to |data|
      invariant results == SearchEntries(data[..i])
      invariant cachedInfos == ListedOnly(data[..i])
    {
      var anime := data[i];
      assert data[..i + 1][..i] == data[..i];
      if anime.kind == "" || anime.year == 0 {
        continue;
      }
      cachedInfos := cachedInfos + [anime];
      results := results + [EntryOf(anime)];
    }
    assert data[..|data|] == data;
    r := Success(results);
  }

  // ---------------------------------------------------------------------------------------
  // GetAnime

  /**
   * What `GetAnimeById` hands back. The Jikan client returns no response with every error
   * (a failed request or an undecodable body) and a response with every success.
   */
  datatype ByIdOutcome = Answered(status: int, info: AnimeInfoBase) | Errored(err: GoError)

  /** How a Go call ends: with its results, or with a panic. */
  datatype Outcome<T> = Returns(result: Result<T, GoError>) | Panics

  /** The outcome of the lookup and the record written to the anime cache, if any. */
  datatype Lookup = Lookup(outcome: Outcome<AnimeInfoBase>, written: Option<AnimeInfoBase>)

  /**
   * `GetAnime` as written: the response's status is read before the error is checked, so an
   * error (which comes with no response) dereferences a nil response.
   */
  function GetAnimeAsWritten(cached: Option<AnimeInfoBase>, fetched: ByIdOutcome): (r: Lookup)
    ensures cached.Some? ==> r == Lookup(Returns(Success(cached.value)), None)
    ensures r.written.Some? <==> cached.None? && fetched.Answered? && fetched.status == 200
    ensures r.written.Some? ==> r.written == Some(fetched.info) && r.outcome == Returns(Success(fetched.info))
  {
    if cached.Some? then Lookup(Returns(Success(cached.value)), None)
    else
      match fetched
      case Errored(_) => Lookup(Panics, None)
      case Answered(status, info) =>
        if status != 200 then
          Lookup(Returns(Failure(if status == 404 then AnimeNotFound else FetchFailed)), None)
        else Lookup(Returns(Success(info)), Some(info))
  }

  /** A failed Jikan request on a cache miss crashes the handler instead of returning the error. */
  lemma FailedRequestPanics(e: GoError)
    ensures GetAnimeAsWritten(None, Errored(e)).outcome == Panics
  {
  }

  /**
   * `GetAnime` with the error checked first: a cached record is returned as it is; a failed
   * request returns its error; 404 is `ErrAnimeNotFound`, any other status but 200
   * `ErrFetchFailed`; a 200 record is written to the cache and returned. It never panics.
   */
  function GetAnime(cached: Option<AnimeInfoBase>, fetched: ByIdOutcome): (r: Lookup)
    ensures r.outcome.Returns?
    ensures cached.Some? ==> r == Lookup(Returns(Success(cached.value)), None)
    ensures cached.None? && fetched.Errored? ==> r == Lookup(Returns(Failure(fetched.err)), None)
    ensures cached.None? && fetched.Answered? ==>
      (fetched.status == 404 <==> r.outcome.result == Failure(AnimeNotFound))
      && (fetched.status != 404 && fetched.status != 200 <==> r.outcome.result == Failure(FetchFailed))
      && (fetched.status == 200 <==> r.written.Some?)
      && (fetched.status == 200 ==> r.outcome.result == Success(fetched.info) && r.written == Some(fetched.info))
  {
    if cached.Some? then Lookup(Returns(Success(cached.value)), None)
    else
      match fetched
      case Errored(e) => Lookup(Returns(Failure(e)), None)
      case Answered(status, info) =>
        if status != 200 then
          Lookup(Returns(Failure(if status == 404 then AnimeNotFound else FetchFailed)), None)
        else Lookup(Returns(Success(info)), Some(info))
  }

  /** Whenever the code as written does not panic, it agrees with the corrected lookup. */
  lemma AsWrittenAgreesUnlessPanic(cached: Option<AnimeInfoBase>, fetched: ByIdOutcome)
    ensures GetAnimeAsWritten(cached, fetched).outcome.Panics? <==> cached.None? && fetched.Errored?
    ensures GetAnimeAsWritten(cached, fetched).outcome.Returns? ==>
      GetAnimeAsWritten(cached, fetched) == GetAnime(cached, fetched)
  {
  }

  // ---------------------------------------------------------------------------------------
  // GetEpisodes

  datatype AnimeEpisode = AnimeEpisode(id: string, episode: int, title: string, snapshot: string)

  /** The episode entry of one release: its session as the id and a placeholder title. */
  function EpisodeOf(e: EpisodeResult): (r: AnimeEpisode)
    ensures r.id == e.session && r.episode == e.episode && r.snapshot == e.snapshot
    ensures r.title == "Episode " + IntToString(e.episode)
  {
    AnimeEpisode(e.session, e.episode, "Episode " + IntToString(e.episode), e.snapshot)
  }

  /** Two releases get the same placeholder title exactly when they have the same number. */
  lemma PlaceholderTitlesDistinct(a: EpisodeResult, b: EpisodeResult)
    ensures EpisodeOf(a).title == EpisodeOf(b).title <==> a.episode == b.episode
  {
    var prefix := "Episode ";
    if EpisodeOf(a).title == EpisodeOf(b).title {
      assert IntToString(a.episode) == EpisodeOf(a).title[|prefix|..];
      assert IntToString(b.episode) == EpisodeOf(b).title[|prefix|..];
    }
    IntToStringInjective(a.episode, b.episode);
  }

  function EpisodesOf(data: seq<EpisodeResult>): (r: seq<AnimeEpisode>)
    ensures |r| == |data|
    ensures forall i :: 0 <= i < |data| ==> r[i].id == data[i].session && r[i].episode == data[i].episode
  {
    seq(|data|, i requires 0 <= i < |data| => EpisodeOf(data[i]))
  }

  /** The `for ... range` loop appending one entry per release. */
  method ToEpisodes(data: seq<EpisodeResult>) returns (eps: seq<AnimeEpisode>)
    ensures eps == EpisodesOf(data)
    ensures forall i :: 0 <= i < |data| ==> eps[i].id == data[i].session && eps[i].episode == data[i].episode
  {
    eps := [];
    for i := 0 to |data|
      invariant eps == EpisodesOf(data[..i])
    {
      eps := eps + [EpisodeOf(data[i])];
    }
    assert data[..|data|] == data;
  }

  /**
   * `GetEpisodes`: `GetAnime`'s error comes first; only the "kwik" provider is served. A cached
   * list is mapped and returned. Otherwise the matched session (`matched`, what
   * `GetMatchedResult` returns) is required, with `ErrNoSearchResultsFound` reported as
   * `ErrAnimeNotFound`; release page 1 is requested whatever `page` is; an error, a status
   * other than 200 and an empty list are errors; the releases are written to the cache under
   * the anime and the requested `page` (`written`, failures ignored) and mapped.
   */
  method GetEpisodes(anime: Result<AnimeInfoBase, GoError>, id: int, provider: string, page: int,
                     cached: Option<seq<EpisodeResult>>, matched: Result<string, GoError>,
                     releases: (string, int) -> Result<PaheResponse<EpisodeResult>, GoError>)
    returns (r: Result<seq<AnimeEpisode>, GoError>, written: Option<(int, int, seq<EpisodeResult>)>)
    ensures anime.Failure? ==> r == Failure(anime.error) && written.None?
    ensures anime.Success? && provider != "kwik" ==> r == Failure(ProviderNotSupported(provider)) && written.None?
    ensures anime.Success? && provider == "kwik" && cached.Some? ==>
      r == Success(EpisodesOf(cached.value)) && written.None?
    ensures anime.Success? && provider == "kwik" && cached.None? && matched.Failure? ==>
      r == Failure(if matched.error == PaheNoSearchResults then AnimeNotFound else matched.error) && written.None?
    ensures anime.Success? && provider == "kwik" && cached.None? && matched.Success? ==>
      (releases(matched.value, 1).Failure? ==> r == Failure(releases(matched.value, 1).error) && written.None?)
      && (releases(matched.value, 1).Success? ==>
            var resp := releases(matched.value, 1).value;
            (resp.status != 200 ==> r == Failure(PaheBadStatus(resp.status)) && written.None?)
            && (resp.status == 200 && resp.data == [] ==>
                  r == Failure(NoReleases(anime.value.titleEnglish)) && written.None?)
            && (resp.status == 200 && resp.data != [] ==>
                  r == Success(EpisodesOf(resp.data)) && written == Some((id, page, resp.data))))
  {
    if anime.Failure? {
      return Failure(anime.error), None;
    }
    if provider != "kwik" {
      return Failure(ProviderNotSupported(provider)), None;
    }
    if cached.None? {
      if matched.Failure? {
        if matched.error == PaheNoSearchResults {
          return Failure(AnimeNotFound), None;
        }
        return Failure(matched.error), None;
      }
      var episodes := releases(matched.value, 1);
      if episodes.Failure? {
        return Failure(episodes.error), None;
      }
      if episodes.value.status != 200 {
        return Failure(PaheBadStatus(episodes.value.status)), None;
      }
      if |episodes.value.data| <= 0 {
        return Failure(NoReleases(anime.value.titleEnglish)), None;
      }
      written := Some((id, page, episodes.value.data));
      var eps := ToEpisodes(episodes.value.data);
      return Success(eps), written;
    }
    var eps := ToEpisodes(cached.value);
    r, written := Success(eps), None;
  }
}
