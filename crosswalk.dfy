/**
 * The identity crosswalk (src/resources/animeIDs.ts): the whole table of per-anime
 * identifiers in a dozen database schemes, loaded through the cache, and a first-match
 * search on one scheme's column compared as a string.
 */
module Crosswalk {
  import opened Wrappers
  import opened Text
  import opened Records
  import Cache

  /** The schemes an identifier can be resolved from. */
  datatype Resource = MAL | ANILIST | ANIDB

  const IdsKey := "internal:anime_ids"
  /** One day, in seconds. */
  const IdsTtl := 60 * 60 * 24

  /** `toString` of a cell: decimal digits for a number, the text itself for a string. */
  function Stringify(f: Field): string {
    match f
    case Num(n) => IntToString(n)
    case Str(s) => s
  }

  /** `ids[key]?.toString() === value`: an absent cell never matches. */
  predicate Matches(row: AnimeIds, key: IdKey, value: string) {
    key in row && Stringify(row[key]) == value
  }

  function FirstMatchFrom(list: seq<AnimeIds>, key: IdKey, value: string, i: nat): (r: Option<nat>)
    requires i <= |list|
    ensures r.Some? ==> i <= r.value < |list| && Matches(list[r.value], key, value)
    ensures r.Some? ==> forall j :: i <= j < r.value ==> !Matches(list[j], key, value)
    ensures r.None? ==> forall j :: i <= j < |list| ==> !Matches(list[j], key, value)
    decreases |list| - i
  {
    if i == |list| then None
    else if Matches(list[i], key, value) then Some(i)
    else FirstMatchFrom(list, key, value, i + 1)
  }

  /** `findIds`: the first row whose `key` column stringifies to `value`. */
  function FindIds(list: seq<AnimeIds>, key: IdKey, value: string): (r: Option<AnimeIds>)
    ensures r.None? <==> forall i :: 0 <= i < |list| ==> !Matches(list[i], key, value)
    ensures r.Some? ==> exists i :: 0 <= i < |list| && list[i] == r.value && Matches(list[i], key, value)
                          && forall j :: 0 <= j < i ==> !Matches(list[j], key, value)
  {
    match FirstMatchFrom(list, key, value, 0)
    case None => None
    case Some(i) => Some(list[i])
  }

  /** The column each resource is looked up in. */
  function ResourceKey(res: Resource): IdKey {
    match res
    case MAL => MalId
    case ANILIST => AnilistId
    case ANIDB => AnidbId
  }

  function ResourceLabel(res: Resource): string {
    match res
    case MAL => "MAL"
    case ANILIST => "Anilist"
    case ANIDB => "AniDB"
  }

  /**
   * `fromResource` once the table is loaded: a load failure is passed on before any lookup;
   * otherwise the first matching row, or a not-found error.
   */
  function FromResource(table: Result<seq<AnimeIds>, string>, res: Resource, id: string)
    : (r: Result<AnimeIds, string>)
    ensures table.Failure? ==> r == Failure(table.error)
    ensures table.Success? ==>
      (r.Success? <==> exists i :: 0 <= i < |table.value| && Matches(table.value[i], ResourceKey(res), id))
    ensures table.Success? && r.Success? ==> Matches(r.value, ResourceKey(res), id)
    ensures table.Success? && r.Success? ==>
      exists i :: 0 <= i < |table.value| && table.value[i] == r.value
        && forall j :: 0 <= j < i ==> !Matches(table.value[j], ResourceKey(res), id)
    ensures table.Success? && r.Failure? ==> r.error == "No IDs found for " + ResourceLabel(res) + ": " + id
  {
    match table
    case Failure(e) => Failure(e)
    case Success(list) =>
      match FindIds(list, ResourceKey(res), id)
      case None => Failure("No IDs found for " + ResourceLabel(res) + ": " + id)
      case Some(row) => Success(row)
  }

  /**
   * Where every cell of `key` is numeric, looking up the decimal text of `n` matches exactly
   * the rows holding the number `n`.
   */
  lemma NumericLookup(list: seq<AnimeIds>, key: IdKey, n: int)
    requires forall i :: 0 <= i < |list| && key in list[i] ==> list[i][key].Num?
    ensures forall i :: 0 <= i < |list| ==>
      (Matches(list[i], key, IntToString(n)) <==> key in list[i] && list[i][key] == Num(n))
  {
    forall i | 0 <= i < |list| && key in list[i]
      ensures Matches(list[i], key, IntToString(n)) <==> list[i][key] == Num(n)
    {
      IntToStringInjective(list[i][key].n, n);
    }
  }

  /** The cached table, when the cache holds one. */
  function CachedTable(cached: Option<CachedValue>): Option<seq<AnimeIds>> {
    if cached.Some? && cached.value.IdsTable? then Some(cached.value.rows) else None
  }

  /** The outcome of `fetchIdsList`, given what the cache read and what the download answered. */
  function LoadTable(cached: Option<CachedValue>, response: HttpResponse<seq<AnimeIds>>)
    : Result<seq<AnimeIds>, string>
  {
    if CachedTable(cached).Some? then Success(CachedTable(cached).value)
    else if !IsOk(response) then Failure("Failed to fetch anime ids.")
    else Success(response.body)
  }

  /**
   * `fetchIdsList`: a cache hit is returned as it is and the download is not used; a non-ok
   * download is an error and nothing is written; otherwise the whole table is written under
   * `internal:anime_ids` for one day and returned.
   */
  method FetchIdsList(store: Cache.Store<CachedValue>, response: HttpResponse<seq<AnimeIds>>,
                      faults: Cache.StoreFaults)
    returns (r: Result<seq<AnimeIds>, string>)
    modifies store
    ensures r == LoadTable(old(store.Get(IdsKey, faults.getFails)), response)
    ensures CachedTable(old(store.Get(IdsKey, faults.getFails))).Some? ==>
      r == Success(CachedTable(old(store.Get(IdsKey, faults.getFails))).value)
      && store.entries == old(store.entries)
    ensures CachedTable(old(store.Get(IdsKey, faults.getFails))).None? && !IsOk(response) ==>
      r.Failure? && store.entries == old(store.entries)
    ensures CachedTable(old(store.Get(IdsKey, faults.getFails))).None? && IsOk(response) ==>
      r == Success(response.body)
      && store.entries == Cache.SetEntries(store.configured, old(store.entries), IdsKey,
                                           IdsTable(response.body), Some(IdsTtl), faults)
  {
    var cached := store.JsonGet(IdsKey, faults.getFails);
    if CachedTable(cached).Some? {
      return Success(CachedTable(cached).value);
    }
    if !IsOk(response) {
      return Failure("Failed to fetch anime ids.");
    }
    var _ := store.JsonSet(IdsKey, IdsTable(response.body), Some(IdsTtl), faults.setFails, faults.expireFails);
    r := Success(response.body);
  }

  /** `fromResource`: load the table (through the cache), then search the resource's column. */
  method FromResourceCached(store: Cache.Store<CachedValue>, response: HttpResponse<seq<AnimeIds>>,
                            faults: Cache.StoreFaults, res: Resource, id: string)
    returns (r: Result<AnimeIds, string>)
    modifies store
    ensures r == FromResource(LoadTable(old(store.Get(IdsKey, faults.getFails)), response), res, id)
    ensures store.entries ==
      if CachedTable(old(store.Get(IdsKey, faults.getFails))).None? && IsOk(response)
      then Cache.SetEntries(store.configured, old(store.entries), IdsKey, IdsTable(response.body), Some(IdsTtl), faults)
      else old(store.entries)
  {
    var table := FetchIdsList(store, response, faults);
    r := FromResource(table, res, id);
  }
}
