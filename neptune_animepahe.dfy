/**
 * The AnimePahe provider of the neptune package (packages/neptune/src/providers/animepahe.ts).
 * Its `getAnime` caches one combined record: the normalised external links and the first
 * page of episodes, oldest first; a failed episode request is not fatal. Its link loop,
 * episode mapping and stream grouping are the same code as the service's provider and are
 * modelled once, in `AnimePahe`.
 */
module NeptunePahe {
  import opened Wrappers
  import opened Records
  import Cache
  import AnimePahe

  /** Half an hour. */
  const InfoTtl := 60 * 30

  function InfoKey(id: string): string {
    "animepahe:info:" + id
  }

  function CachedInfo(cached: Option<CachedValue>): Option<NeptuneInfo> {
    if cached.Some? && cached.value.NeptuneInfoValue? then Some(cached.value.info) else None
  }

  /** The release query neptune's `getAnime` issues: page 1, oldest first. */
  function FirstPageQuery(id: string): (q: AnimePahe.EpisodesQuery)
    ensures q.id == id && q.sort == Some("episode_asc") && q.page == Some("1")
  {
    AnimePahe.EpisodesQuery(id, Some("episode_asc"), Some("1"))
  }

  /**
   * `getAnime`: a cache hit is returned with no request; a failed page request is the error;
   * a failed episode request still succeeds, with the links and no episodes, and caches
   * nothing; otherwise the record is cached for half an hour and returned.
   */
  method GetAnime(store: Cache.Store<CachedValue>, id: string,
                  response: Result<seq<AnimePahe.Anchor>, string>,
                  release: AnimePahe.EpisodesQuery -> Result<AnimePahe.ReleasePage, string>,
                  faults: Cache.StoreFaults)
    returns (r: Result<NeptuneInfo, string>)
    modifies store
    ensures CachedInfo(old(store.Get(InfoKey(id), faults.getFails))).Some? ==>
      r == Success(CachedInfo(old(store.Get(InfoKey(id), faults.getFails))).value)
      && store.entries == old(store.entries)
    ensures CachedInfo(old(store.Get(InfoKey(id), faults.getFails))).None? ==>
      match response
      case Failure(e) => r == Failure(e) && store.entries == old(store.entries)
      case Success(anchors) =>
        match release(FirstPageQuery(id))
        case Failure(_) =>
          r == Success(NeptuneInfo(AnimePahe.ExternalLinksOf(anchors), []))
          && store.entries == old(store.entries)
        case Success(page) =>
          r == Success(NeptuneInfo(AnimePahe.ExternalLinksOf(anchors), AnimePahe.ToListing(id, page).list))
          && store.entries == Cache.SetEntries(store.configured, old(store.entries), InfoKey(id),
                                               NeptuneInfoValue(r.value), Some(InfoTtl), faults)
  {
    var cached := store.JsonGet(InfoKey(id), faults.getFails);
    if CachedInfo(cached).Some? {
      return Success(CachedInfo(cached).value);
    }
    if response.Failure? {
      return Failure(response.error);
    }
    var externalLinks := AnimePahe.CollectExternalLinks(response.value);
    var episodes := release(FirstPageQuery(id));
    if episodes.Failure? {
      return Success(NeptuneInfo(externalLinks, []));
    }
    var info := NeptuneInfo(externalLinks, AnimePahe.ToListing(id, episodes.value).list);
    var _ := store.JsonSet(InfoKey(id), NeptuneInfoValue(info), Some(InfoTtl), faults.setFails, faults.expireFails);
    r := Success(info);
  }
}
