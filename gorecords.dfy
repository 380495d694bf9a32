/**
 * Record shapes of the Go service (pkg/jikan, pkg/animepahe, internal/usecase) restricted to
 * the fields the core reads, and one error type standing for the sentinel and formatted
 * errors it returns and tests with `errors.Is`.
 */
module GoRecords {
  /** One entry of Jikan's `titles` list. */
  datatype AnimeTitle = AnimeTitle(kind: string, title: string)

  /** Jikan's anime record. */
  datatype AnimeInfoBase = AnimeInfoBase(
    malId: int,
    poster: string,
    titles: seq<AnimeTitle>,
    title: string,
    titleEnglish: string,
    titleJapanese: string,
    titleSynonyms: seq<string>,
    kind: string,
    episodes: int,
    rating: string,
    season: string,
    year: int)

  /** One AnimePahe search hit. */
  datatype SearchResult = SearchResult(title: string, kind: string, season: string, year: int, session: string)

  /** One AnimePahe release (episode). */
  datatype EpisodeResult = EpisodeResult(episode: int, snapshot: string, session: string)

  /** A decoded AnimePahe answer: the status code and the `data` list. */
  datatype PaheResponse<T> = PaheResponse(status: int, data: seq<T>)

  /** One extracted stream. */
  datatype EpisodeStreamingLink = EpisodeStreamingLink(url: string, resolution: string, language: string)

  datatype GoError =
    | Canceled                     // context.Canceled, possibly wrapped by the HTTP client
    | DeadlineExceeded             // context.DeadlineExceeded, likewise
    | NoTitleFound                 // "no title found???"
    | PaheBadStatus(code: int)     // "animepahe api returned status code %d"
    | PaheNoSearchResults          // animepahe.ErrNoSearchResultsFound
    | AnimeNotFound                // usecase.ErrAnimeNotFound
    | FetchFailed                  // usecase.ErrFetchFailed
    | NoReleases(title: string)    // "no results found for %s"
    | ProviderNotSupported(provider: string)
    | Other(message: string)       // transport, decoding and Redis errors
}
