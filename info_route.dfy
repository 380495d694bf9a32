/**
 * The `/info` route of the service (src/api/routes/anime.ts): resolve the provider's external
 * links to a MyAnimeList/AniList identifier pair through the crosswalk, fetch the metadata,
 * fetch the 100-episode title buckets from Jikan, and fold the provider's episode page into
 * numbered, titled episodes.
 * The provider, the crosswalk lookup, the metadata call and the Jikan call are parameters.
 */
module InfoRoute {
  import opened Wrappers
  import opened Text
  import opened Records
  import Crosswalk

  // ---------------------------------------------------------------------------------------
  // Identifier mapping

  /** The identifiers the route keeps; 0 stands for unknown. */
  datatype IdPair = IdPair(mal: int, anilist: int)

  /** What the link loop ends with: a pair, or the 503 for a link of an unknown kind. */
  datatype Mapping = Mapped(ids: IdPair) | Unmappable

  /** The link labels the loop resolves, and the crosswalk column each is looked up in. */
  function KindOf(kind: string): (r: Option<Crosswalk.Resource>)
    ensures r == Some(Crosswalk.ANILIST) <==> kind == "AniList"
    ensures r == Some(Crosswalk.MAL) <==> kind == "MAL"
    ensures r == Some(Crosswalk.ANIDB) <==> kind == "AniDB"
  {
    if kind == "AniList" then Some(Crosswalk.ANILIST)
    else if kind == "MAL" then Some(Crosswalk.MAL)
    else if kind == "AniDB" then Some(Crosswalk.ANIDB)
    else None
  }

  /** A numeric cell of the row, 0 when the column is absent (or not a number). */
  function NumberAt(row: AnimeIds, key: IdKey): int {
    if key in row && row[key].Num? then row[key].n else 0
  }

  /** The two `if (mappedIds.x_id)` assignments: only a truthy cell replaces the current value. */
  function Overwrite(ids: IdPair, row: AnimeIds): IdPair {
    var anilist := if NumberAt(row, AnilistId) != 0 then NumberAt(row, AnilistId) else ids.anilist;
    var mal := if NumberAt(row, MalId) != 0 then NumberAt(row, MalId) else ids.mal;
    IdPair(mal, anilist)
  }

  /** A link that ends the loop: an unknown kind, or a lookup that succeeds. */
  predicate Decisive(link: ExternalLink, lookup: (Crosswalk.Resource, string) -> Result<AnimeIds, string>) {
    KindOf(link.kind).None? || lookup(KindOf(link.kind).value, LastSegment(link.url)).Success?
  }

  /** The index of the first decisive link, if any. */
  function FirstDecisive(links: seq<ExternalLink>, lookup: (Crosswalk.Resource, string) -> Result<AnimeIds, string>)
    : (r: Option<nat>)
    ensures r.Some? ==> r.value < |links| && Decisive(links[r.value], lookup)
                        && forall j :: 0 <= j < r.value ==> !Decisive(links[j], lookup)
    ensures r.None? ==> forall j :: 0 <= j < |links| ==> !Decisive(links[j], lookup)
  {
    if links == [] then None
    else if Decisive(links[0], lookup) then Some(0)
    else
      var rest := links[1..];
      match FirstDecisive(rest, lookup)
      case None =>
        assert forall j :: 1 <= j < |links| ==> links[j] == rest[j - 1];
        None
      case Some(k) =>
        assert links[k + 1] == rest[k];
        assert forall j :: 1 <= j <= k ==> links[j] == rest[j - 1];
        Some(k + 1)
  }

  /**
   * What the link loop computes, link by link from the front: the 503 exactly when the first
   * decisive link is of an unknown kind.
   */
  function Resolve(links: seq<ExternalLink>, lookup: (Crosswalk.Resource, string) -> Result<AnimeIds, string>)
    : (r: Mapping)
    ensures r.Unmappable? <==>
      FirstDecisive(links, lookup).Some? && KindOf(links[FirstDecisive(links, lookup).value].kind).None?
  {
    if links == [] then Mapped(IdPair(0, 0))
    else
      match KindOf(links[0].kind)
      case None => Unmappable
      case Some(res) =>
        match lookup(res, LastSegment(links[0].url))
        case Failure(_) =>
          var rest := links[1..];
          var k := FirstDecisive(rest, lookup);
          assert k.Some? ==> FirstDecisive(links, lookup) == Some(k.value + 1) && links[k.value + 1] == rest[k.value];
          Resolve(rest, lookup)
        case Success(row) => Mapped(Overwrite(IdPair(0, 0), row))
  }

  /**
   * The loop over the external links: a recognised link whose lookup fails is skipped, a link
   * of any other kind ends the request with 503, and the first successful lookup sets the pair
   * and ends the loop.
   */
  method MapIds(links: seq<ExternalLink>, lookup: (Crosswalk.Resource, string) -> Result<AnimeIds, string>)
    returns (r: Mapping)
    ensures r == Resolve(links, lookup)
  {
    var ids := IdPair(0, 0);
    var i := 0;
    while i < |links|
      invariant 0 <= i <= |links|
      invariant Resolve(links, lookup) == Resolve(links[i..], lookup)
      invariant ids == IdPair(0, 0)
    {
      var link := links[i];
      assert links[i..][1..] == links[i + 1..];
      i := i + 1;
      var mapped: Option<AnimeIds> := None;
      var res := KindOf(link.kind);
      if res.Some? {
        var linked := lookup(res.value, LastSegment(link.url));
        if linked.Failure? {
          continue;
        }
        mapped := Some(linked.value);
      }
      if mapped.None? {
        return Unmappable;
      }
      ids := Overwrite(ids, mapped.value);
      return Mapped(ids);
    }
    r := Mapped(ids);
  }

  /** A link that is not decisive is skipped. */
  lemma ResolveSkipsOne(links: seq<ExternalLink>, lookup: (Crosswalk.Resource, string) -> Result<AnimeIds, string>)
    requires links != [] && !Decisive(links[0], lookup)
    ensures Resolve(links, lookup) == Resolve(links[1..], lookup)
  {
  }

  /** Links before the first decisive one are skipped and change nothing. */
  lemma {:induction false} ResolveSkipsPrefix(links: seq<ExternalLink>,
                                              lookup: (Crosswalk.Resource, string) -> Result<AnimeIds, string>,
                                              i: nat)
    requires i <= |links|
    requires forall j :: 0 <= j < i ==> !Decisive(links[j], lookup)
    ensures Resolve(links, lookup) == Resolve(links[i..], lookup)
    decreases i
  {
    if i > 0 {
      ResolveSkipsOne(links, lookup);
      var rest := links[1..];
      forall j | 0 <= j < i - 1
        ensures !Decisive(rest[j], lookup)
      {
        assert rest[j] == links[j + 1];
      }
      ResolveSkipsPrefix(rest, lookup, i - 1);
      assert rest[i - 1..] == links[i..];
    }
  }

  /** When no link is decisive (in particular with no links) the pair stays at zero. */
  lemma AllSkippedGivesZero(links: seq<ExternalLink>, lookup: (Crosswalk.Resource, string) -> Result<AnimeIds, string>)
    requires forall j :: 0 <= j < |links| ==> !Decisive(links[j], lookup)
    ensures Resolve(links, lookup) == Mapped(IdPair(0, 0))
  {
    ResolveSkipsPrefix(links, lookup, |links|);
  }

  /**
   * The first decisive link alone decides: an unknown kind is the 503, a found row gives its
   * numeric MyAnimeList and AniList cells (0 where a cell is absent or 0). Links after it are
   * never consulted.
   */
  lemma FirstDecisiveDecides(links: seq<ExternalLink>, later: seq<ExternalLink>,
                             lookup: (Crosswalk.Resource, string) -> Result<AnimeIds, string>, i: nat)
    requires i < |links| && Decisive(links[i], lookup)
    requires forall j :: 0 <= j < i ==> !Decisive(links[j], lookup)
    ensures Resolve(links + later, lookup) == Resolve(links, lookup)
    ensures KindOf(links[i].kind).None? ==> Resolve(links, lookup) == Unmappable
    ensures KindOf(links[i].kind).Some? ==>
      var row := lookup(KindOf(links[i].kind).value, LastSegment(links[i].url)).value;
      Resolve(links, lookup) == Mapped(IdPair(NumberAt(row, MalId), NumberAt(row, AnilistId)))
  {
    var all := links + later;
    assert forall j :: 0 <= j < i ==> all[j] == links[j];
    ResolveSkipsPrefix(links, lookup, i);
    ResolveSkipsPrefix(all, lookup, i);
    assert all[i..][0] == links[i..][0] == links[i];
  }

  // ---------------------------------------------------------------------------------------
  // Title buckets

  /** `Math.ceil(n / 100)`: the 100-episode page of Jikan's listing that holds episode `n`. */
  function Bucket(n: int): (b: int)
    ensures 100 * (b - 1) < n <= 100 * b
  {
    (n + 99) / 100
  }

  /** `new Set(numbers.map(Bucket))` in insertion order: each bucket once, first occurrence first. */
  function DistinctBuckets(numbers: seq<int>): (r: seq<int>)
    ensures forall i, j :: 0 <= i < j < |r| ==> r[i] != r[j]
    ensures forall b :: b in r <==> exists k :: 0 <= k < |numbers| && Bucket(numbers[k]) == b
  {
    if numbers == [] then []
    else
      var init := DistinctBuckets(numbers[..|numbers| - 1]);
      assert forall k :: 0 <= k < |numbers| - 1 ==> numbers[..|numbers| - 1][k] == numbers[k];
      var b := Bucket(numbers[|numbers| - 1]);
      if b in init then init else init + [b]
  }

  /** One episode of Jikan's listing: its number within the entry, and its title. */
  datatype JikanEpisode = JikanEpisode(malId: int, title: string)

  /** One fetched bucket. */
  datatype PageEpisodes = PageEpisodes(page: int, episodes: seq<JikanEpisode>)

  /** What the route keeps of one bucket request: its episodes, none when it failed. */
  function PageContents(jikan: (int, int) -> Result<seq<JikanEpisode>, string>, mal: int, page: int)
    : seq<JikanEpisode>
  {
    if jikan(mal, page).Success? then jikan(mal, page).value else []
  }

  /** The bucket requests, one per bucket, in the buckets' order. */
  function FetchPages(buckets: seq<int>, mal: int, jikan: (int, int) -> Result<seq<JikanEpisode>, string>)
    : (r: seq<PageEpisodes>)
    ensures |r| == |buckets|
    ensures forall k :: 0 <= k < |buckets| ==>
      r[k].page == buckets[k] && r[k].episodes == PageContents(jikan, mal, buckets[k])
  {
    seq(|buckets|, k requires 0 <= k < |buckets| => PageEpisodes(buckets[k], PageContents(jikan, mal, buckets[k])))
  }

  /** `pages.find(p => p.page === page)`. */
  function FindPage(pages: seq<PageEpisodes>, page: int): (r: Option<PageEpisodes>)
    ensures r.None? <==> forall k :: 0 <= k < |pages| ==> pages[k].page != page
    ensures r.Some? ==> r.value in pages && r.value.page == page
  {
    if pages == [] then None
    else if pages[0].page == page then Some(pages[0])
    else FindPage(pages[1..], page)
  }

  /** `episodes.find(ep => ep.mal_id === n)`: the first entry with that number. */
  function FindEpisode(episodes: seq<JikanEpisode>, n: int): (r: Option<JikanEpisode>)
    ensures r.None? <==> forall k :: 0 <= k < |episodes| ==> episodes[k].malId != n
    ensures r.Some? ==> r.value in episodes && r.value.malId == n
    ensures r.Some? ==> exists k :: 0 <= k < |episodes| && episodes[k] == r.value
                          && forall j :: 0 <= j < k ==> episodes[j].malId != n
  {
    if episodes == [] then None
    else if episodes[0].malId == n then Some(episodes[0])
    else
      var r := FindEpisode(episodes[1..], n);
      assert r.Some? ==> exists k :: 0 <= k < |episodes| && episodes[k] == r.value
                                   && forall j :: 0 <= j < k ==> episodes[j].malId != n by {
        if r.Some? {
          var k :| 0 <= k < |episodes[1..]| && episodes[1..][k] == r.value
                   && forall j :: 0 <= j < k ==> episodes[1..][j].malId != n;
          assert episodes[k + 1] == r.value;
          forall j | 0 <= j < k + 1 ensures episodes[j].malId != n {
            if j > 0 { assert episodes[j] == episodes[1..][j - 1]; }
          }
        }
      }
      r
  }

  /** The placeholder title. */
  function Fallback(n: int): string {
    "Episode " + IntToString(n)
  }

  /** The title of episode `n` in one bucket's episodes, or the placeholder. */
  function TitleIn(episodes: seq<JikanEpisode>, n: int): string {
    match FindEpisode(episodes, n)
    case None => Fallback(n)
    case Some(ep) => ep.title
  }

  /** The title the fold gives episode `n`: its bucket, when fetched, then the episode in it. */
  function TitleFor(pages: seq<PageEpisodes>, n: int): string {
    match FindPage(pages, Bucket(n))
    case None => Fallback(n)
    case Some(p) => TitleIn(p.episodes, n)
  }

  /**
   * With the buckets fetched, episode `n` gets its title from its own bucket's request when
   * that bucket is among them (the placeholder when the request failed or lacks `n`), and the
   * placeholder otherwise.
   */
  lemma TitleFromBuckets(buckets: seq<int>, mal: int, jikan: (int, int) -> Result<seq<JikanEpisode>, string>, n: int)
    ensures TitleFor(FetchPages(buckets, mal, jikan), n)
      == if Bucket(n) in buckets then TitleIn(PageContents(jikan, mal, Bucket(n)), n) else Fallback(n)
  {
    var pages := FetchPages(buckets, mal, jikan);
    var found := FindPage(pages, Bucket(n));
    if Bucket(n) in buckets {
      var k :| 0 <= k < |buckets| && buckets[k] == Bucket(n);
      assert pages[k].page == Bucket(n);
    } else {
      assert forall k :: 0 <= k < |pages| ==> pages[k].page == buckets[k];
    }
    if found.Some? {
      var k :| 0 <= k < |pages| && pages[k] == found.value;
      assert pages[k].episodes == PageContents(jikan, mal, buckets[k]);
    }
  }

  // ---------------------------------------------------------------------------------------
  // Reconciliation

  /** One episode of the route's answer. */
  datatype DetailEpisode = DetailEpisode(id: string, title: string, episode: int, preview: string,
                                         streamingLink: string)

  datatype Details = Details(hasNextPage: bool, episodes: seq<DetailEpisode>)

  /**
   * The batch-wide rebase test: the first (newest) episode's number is what the page's
   * position in the whole listing says it is.
   */
  predicate KeepsNumbers(listing: EpisodeListing)
    requires |listing.list| > 0
  {
    listing.list[0].episode == listing.total - (listing.from - 1)
  }

  /** The number the fold gives the episode at `index`: its own, or the rebased `total - index`. */
  function EpisodeNumber(listing: EpisodeListing, index: nat): (n: int)
    requires index < |listing.list|
    ensures KeepsNumbers(listing) ==> n == listing.list[index].episode
    ensures !KeepsNumbers(listing) ==> n == listing.total - index
  {
    if KeepsNumbers(listing) then listing.list[index].episode else listing.total - index
  }

  /** The reduce callback for the episode at `index`. */
  function DetailOf(listing: EpisodeListing, pages: seq<PageEpisodes>, index: nat): DetailEpisode
    requires index < |listing.list|
  {
    var e := listing.list[index];
    var n := EpisodeNumber(listing, index);
    DetailEpisode(e.id, TitleFor(pages, n), n, e.preview, e.url)
  }

  /** The reduce over the first `count` episodes: one entry per episode, in order. */
  function ReduceEpisodes(listing: EpisodeListing, pages: seq<PageEpisodes>, count: nat)
    : (r: seq<DetailEpisode>)
    requires count <= |listing.list|
    ensures |r| == count
    ensures forall i :: 0 <= i < count ==> r[i] == DetailOf(listing, pages, i)
  {
    if count == 0 then [] else ReduceEpisodes(listing, pages, count - 1) + [DetailOf(listing, pages, count - 1)]
  }

  /** The provider's own episode numbers, from which the route picks the buckets. */
  function RawNumbers(list: seq<EpisodeRef>): (r: seq<int>)
    ensures |r| == |list| && forall i :: 0 <= i < |list| ==> r[i] == list[i].episode
  {
    seq(|list|, i requires 0 <= i < |list| => list[i].episode)
  }

  /** The numbers the fold gives the episodes. */
  function ReconciledNumbers(listing: EpisodeListing): (r: seq<int>)
    requires |listing.list| > 0
    ensures |r| == |listing.list| && forall i :: 0 <= i < |r| ==> r[i] == EpisodeNumber(listing, i)
  {
    seq(|listing.list|, i requires 0 <= i < |listing.list| => EpisodeNumber(listing, i))
  }

  /** The reconciled page, as written: buckets picked from the provider's own numbers. */
  function DetailsAsWritten(listing: EpisodeListing, mal: int, jikan: (int, int) -> Result<seq<JikanEpisode>, string>)
    : (r: Details)
    requires |listing.list| > 0
    ensures r.hasNextPage == listing.hasNextPage && |r.episodes| == |listing.list|
  {
    var pages := FetchPages(DistinctBuckets(RawNumbers(listing.list)), mal, jikan);
    Details(listing.hasNextPage, ReduceEpisodes(listing, pages, |listing.list|))
  }

  /** The reconciled page with the buckets picked from the numbers the titles are looked up by. */
  function Reconcile(listing: EpisodeListing, mal: int, jikan: (int, int) -> Result<seq<JikanEpisode>, string>)
    : (r: Details)
    requires |listing.list| > 0
    ensures r.hasNextPage == listing.hasNextPage && |r.episodes| == |listing.list|
  {
    var pages := FetchPages(DistinctBuckets(ReconciledNumbers(listing)), mal, jikan);
    Details(listing.hasNextPage, ReduceEpisodes(listing, pages, |listing.list|))
  }

  /**
   * Every reconciled episode keeps the provider's id, preview and play URL, carries the
   * batch-wide number, and is titled from its own bucket: the first Jikan episode with that
   * number when the bucket's request succeeded and has one, otherwise "Episode n".
   */
  lemma ReconcileEpisode(listing: EpisodeListing, mal: int, jikan: (int, int) -> Result<seq<JikanEpisode>, string>,
                         i: nat)
    requires i < |listing.list|
    ensures var d := Reconcile(listing, mal, jikan).episodes[i];
      var e := listing.list[i];
      var n := EpisodeNumber(listing, i);
      d.id == e.id && d.preview == e.preview && d.streamingLink == e.url && d.episode == n
      && d.title == TitleIn(PageContents(jikan, mal, Bucket(n)), n)
  {
    var numbers := ReconciledNumbers(listing);
    var n := EpisodeNumber(listing, i);
    assert Bucket(numbers[i]) in DistinctBuckets(numbers);
    TitleFromBuckets(DistinctBuckets(numbers), mal, jikan, n);
  }

  /** As written, an episode whose bucket was not among the provider numbers' buckets gets the placeholder. */
  lemma AsWrittenEpisode(listing: EpisodeListing, mal: int, jikan: (int, int) -> Result<seq<JikanEpisode>, string>,
                         i: nat)
    requires i < |listing.list|
    ensures var d := DetailsAsWritten(listing, mal, jikan).episodes[i];
      var n := EpisodeNumber(listing, i);
      d.episode == n
      && d.title == if (exists k :: 0 <= k < |listing.list| && Bucket(listing.list[k].episode) == Bucket(n))
                    then TitleIn(PageContents(jikan, mal, Bucket(n)), n) else Fallback(n)
  {
    var raw := RawNumbers(listing.list);
    var n := EpisodeNumber(listing, i);
    TitleFromBuckets(DistinctBuckets(raw), mal, jikan, n);
    assert (exists k :: 0 <= k < |raw| && Bucket(raw[k]) == Bucket(n))
       <==> (exists k :: 0 <= k < |listing.list| && Bucket(listing.list[k].episode) == Bucket(n));
  }

  /** When the numbers are kept, the code as written and the corrected fold agree. */
  lemma AsWrittenAgreesWhenKept(listing: EpisodeListing, mal: int, jikan: (int, int) -> Result<seq<JikanEpisode>, string>)
    requires |listing.list| > 0 && KeepsNumbers(listing)
    ensures DetailsAsWritten(listing, mal, jikan) == Reconcile(listing, mal, jikan)
  {
    assert RawNumbers(listing.list) == ReconciledNumbers(listing);
  }

  /**
   * A continuation season numbered 101-124 by the provider (newest first, total 24): its
   * newest episode is renumbered 24 and its title lives in bucket 1, but as written only
   * bucket 2 is requested, so the real title is lost.
   */
  lemma RebasedTitleLost()
    ensures var listing := EpisodeListing(false, 1, 1, 24, [EpisodeRef("x/s", "p", 124, "u")]);
      var jikan := (mal: int, page: int) => if page == 1 then Success([JikanEpisode(24, "Title")])
                                            else Success([]);
      DetailsAsWritten(listing, 7, jikan).episodes[0].title == "Episode 24"
      && Reconcile(listing, 7, jikan).episodes[0].title == "Title"
  {
    var listing := EpisodeListing(false, 1, 1, 24, [EpisodeRef("x/s", "p", 124, "u")]);
    var jikan := (mal: int, page: int) => if page == 1 then Success([JikanEpisode(24, "Title")])
                                          else Success([]);
    assert !KeepsNumbers(listing);
    assert EpisodeNumber(listing, 0) == 24;
    AsWrittenEpisode(listing, 7, jikan, 0);
    assert Bucket(124) == 2 && Bucket(24) == 1;
    assert Fallback(24) == "Episode 24";
    ReconcileEpisode(listing, 7, jikan, 0);
    assert [JikanEpisode(24, "Title")][0].malId == 24;
  }

  // ---------------------------------------------------------------------------------------
  // The handler

  /** The route's answer: an error status and message, an uncaught exception, or the body. */
  datatype InfoResponse<M> = Failed(status: int, message: string) | Thrown | Ok(meta: M, details: Details)

  /**
   * `GET /info`: a provider error is a 500 with its message; an unmappable link is a 503;
   * the metadata is requested by the AniList id (0 when unknown) and a non-ok answer is a
   * 500; an empty episode page throws at `episodes.list[0]`; otherwise the metadata and the
   * reconciled page.
   */
  method Info<M>(provider: Result<AnimeInfo, string>,
                 lookup: (Crosswalk.Resource, string) -> Result<AnimeIds, string>,
                 meta: string -> HttpResponse<M>,
                 jikan: (int, int) -> Result<seq<JikanEpisode>, string>)
    returns (r: InfoResponse<M>)
    ensures provider.Failure? ==> r == Failed(500, provider.error)
    ensures provider.Success? && Resolve(provider.value.page.externalLinks, lookup).Unmappable? ==>
      r == Failed(503, "failed to map ids.")
    ensures provider.Success? && Resolve(provider.value.page.externalLinks, lookup).Mapped? ==>
      var ids := Resolve(provider.value.page.externalLinks, lookup).ids;
      var m := meta(IntToString(ids.anilist));
      var listing := provider.value.episodes;
      (!IsOk(m) ==> r == Failed(500, "failed to fetch anime info."))
      && (IsOk(m) && listing.list == [] ==> r == InfoResponse.Thrown)
      && (IsOk(m) && listing.list != [] ==> r == Ok(m.body, Reconcile(listing, ids.mal, jikan)))
  {
    if provider.Failure? {
      return Failed(500, provider.error);
    }
    var info := provider.value;
    var mapping := MapIds(info.page.externalLinks, lookup);
    if mapping.Unmappable? {
      return Failed(503, "failed to map ids.");
    }
    var ids := mapping.ids;
    var metaRes := meta(IntToString(ids.anilist));
    if !IsOk(metaRes) {
      return Failed(500, "failed to fetch anime info.");
    }
    if info.episodes.list == [] {
      return InfoResponse.Thrown;
    }
    r := Ok(metaRes.body, Reconcile(info.episodes, ids.mal, jikan));
  }
}
