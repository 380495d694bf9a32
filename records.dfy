/**
 * Record shapes of the TypeScript services, and the union of everything they keep in the
 * shared JSON cache. Fields the core never reads (poster, score, timestamps, ...) are dropped.
 */
module Records {
  import opened Wrappers

  /** The columns of one row of the identity crosswalk table. */
  datatype IdKey =
    | LivechartId | AnimePlanetId | AnisearchId | AnidbId | KitsuId | MalId
    | NotifyMoeId | AnilistId | ThetvdbId | ImdbId | ThemoviedbId | AnimecountdownId

  /** A crosswalk cell: numeric for most schemes, a string for a few (IMDB, anime-planet). */
  datatype Field = Num(n: int) | Str(s: string)

  /** One crosswalk row; a scheme the row has no identifier for is absent from the map. */
  type AnimeIds = map<IdKey, Field>

  /** A link scraped from an anime page's external-links block: its label and absolute URL. */
  datatype ExternalLink = ExternalLink(kind: string, url: string)

  /** One provider episode: composite id, snapshot image, provider number, play URL. */
  datatype EpisodeRef = EpisodeRef(id: string, preview: string, episode: int, url: string)

  /** One page of a provider episode listing. */
  datatype EpisodeListing =
    EpisodeListing(hasNextPage: bool, from: int, to: int, total: int, list: seq<EpisodeRef>)

  datatype AnimePage = AnimePage(externalLinks: seq<ExternalLink>)

  datatype AnimeInfo = AnimeInfo(page: AnimePage, episodes: EpisodeListing)

  /**
   * What a stream source's `link` holds: the extracted URL, or, when the embed page answered
   * with a non-200 status, the error-result object the extractor returned instead of a URL.
   */
  datatype StreamLink = Direct(url: string) | ErrResultObject(message: string)

  datatype StreamSource = StreamSource(resolution: string, link: StreamLink)

  /** The neptune package's combined anime record: links plus the first episode page. */
  datatype NeptuneInfo = NeptuneInfo(externalLinks: seq<ExternalLink>, episodes: seq<EpisodeRef>)

  /** Everything stored in the JSON cache, one variant per key namespace. */
  datatype CachedValue =
    | IdsTable(rows: seq<AnimeIds>)
    | PageValue(page: AnimePage)
    | EpisodesValue(listing: EpisodeListing)
    | StreamsValue(sources: map<string, seq<StreamSource>>)
    | NeptuneInfoValue(info: NeptuneInfo)

  /** How a TypeScript operation fails: an error result it returns, or an exception it throws. */
  datatype TsError = Returned(message: string) | Thrown

  /** An HTTP response as the services see it: the status and the already-decoded body. */
  datatype HttpResponse<T> = HttpResponse(status: int, body: T)

  /** `Response.ok`: a status in the range 200-299. */
  predicate IsOk<T>(r: HttpResponse<T>) {
    200 <= r.status <= 299
  }
}
