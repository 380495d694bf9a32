/**
 * The AnimePahe provider of the TypeScript service (src/providers/animepahe.ts): the release
 * listing mapped to episode references, the anime page's external links normalised, the
 * stream buttons of a play page grouped by audio language, each behind the JSON cache.
 * Requests are parameters: the parsed page (a sequence of anchors or buttons) or the decoded
 * release page, or a failure message. The release request is a function of its query, so that
 * the page and sort it was issued with are visible.
 */
module AnimePahe {
  import opened Wrappers
  import opened Text
  import opened Records
  import Cache
  import Kwik

  const BaseUrl := "https://animepahe.ru"

  /** Half an hour, for streams and episode listings. */
  const StreamsTtl := 60 * 30
  const EpisodesTtl := 60 * 30
  /** Seven hours, for the anime page. */
  const PageTtl := 60 * 60 * 7

  // ---------------------------------------------------------------------------------------
  // Episode listings

  /** One entry of the release API's `data` (the fields the service reads). */
  datatype ReleaseEpisode = ReleaseEpisode(episode: int, snapshot: string, session: string)

  /** The release API's paginated answer. */
  datatype ReleasePage =
    ReleasePage(total: int, currentPage: int, lastPage: int, from: int, to: int, data: seq<ReleaseEpisode>)

  /** The query `getEpisodes` is called with; `None` is a field left undefined. */
  datatype EpisodesQuery = EpisodesQuery(id: string, sort: Option<string>, page: Option<string>)

  /** `value || fallback` on an optional string: undefined and the empty string are falsy. */
  function OrDefault(value: Option<string>, fallback: string): (r: string)
    ensures value.Some? && value.value != "" ==> r == value.value
    ensures value.None? || value.value == "" ==> r == fallback
  {
    if value.Some? && value.value != "" then value.value else fallback
  }

  /**
   * The cache key of a release query: the namespace and the anime id first, the sort last,
   * with page and sort defaulted to "1" and "episode_asc".
   */
  function EpisodesKey(query: EpisodesQuery): (r: string)
    ensures StartsWith(r, "animepahe:episodes:" + query.id + ":page_" + OrDefault(query.page, "1") + ":sort_")
    ensures var sort := OrDefault(query.sort, "episode_asc"); |sort| <= |r| && r[|r| - |sort|..] == sort
  {
    "animepahe:episodes:" + query.id + ":page_" + OrDefault(query.page, "1")
      + ":sort_" + OrDefault(query.sort, "episode_asc")
  }

  /** Leaving page or sort out and asking for page 1 in ascending order share one cache entry. */
  lemma EpisodesKeyDefaults(id: string)
    ensures EpisodesKey(EpisodesQuery(id, None, None))
         == EpisodesKey(EpisodesQuery(id, Some("episode_asc"), Some("1")))
    ensures EpisodesKey(EpisodesQuery(id, Some(""), Some("")))
         == EpisodesKey(EpisodesQuery(id, None, None))
  {
  }

  /** One release entry as an episode reference: composite id `{id}/{session}` and its play URL. */
  function EpisodeRefOf(id: string, ep: ReleaseEpisode): (r: EpisodeRef)
    ensures r.url == BaseUrl + "/play/" + r.id
    ensures r.preview == ep.snapshot && r.episode == ep.episode
    ensures StartsWith(r.id, id + "/") && r.id[|id| + 1..] == ep.session
  {
    var composite := id + "/" + ep.session;
    assert composite[..|id| + 1] == id + "/";
    EpisodeRef(composite, ep.snapshot, ep.episode, BaseUrl + "/play/" + composite)
  }

  /** The session is recovered from a composite id by taking the text after its last slash. */
  lemma SessionFromCompositeId(id: string, ep: ReleaseEpisode)
    requires '/' !in ep.session
    ensures LastSegment(EpisodeRefOf(id, ep).id) == ep.session
  {
    LastSegmentAfterSlash(id, ep.session);
  }

  /** `getEpisodes`' mapping of a release page. */
  function ToListing(id: string, page: ReleasePage): (r: EpisodeListing)
    ensures r.hasNextPage <==> page.currentPage < page.lastPage
    ensures r.from == page.from && r.to == page.to && r.total == page.total
    ensures |r.list| == |page.data|
    ensures forall i :: 0 <= i < |page.data| ==> r.list[i] == EpisodeRefOf(id, page.data[i])
  {
    EpisodeListing(page.currentPage < page.lastPage, page.from, page.to, page.total,
                   seq(|page.data|, i requires 0 <= i < |page.data| => EpisodeRefOf(id, page.data[i])))
  }

  /** The listing cached under a key, when the cache holds one. */
  function CachedListing(cached: Option<CachedValue>): Option<EpisodeListing> {
    if cached.Some? && cached.value.EpisodesValue? then Some(cached.value.listing) else None
  }

  /** What `getEpisodes` returns, given the cache read and the release API. */
  function EpisodesResult(cached: Option<CachedValue>, query: EpisodesQuery,
                          release: EpisodesQuery -> Result<ReleasePage, string>)
    : (r: Result<EpisodeListing, string>)
    ensures CachedListing(cached).Some? ==> r == Success(CachedListing(cached).value)
    ensures CachedListing(cached).None? && release(query).Failure? ==> r == Failure(release(query).error)
    ensures CachedListing(cached).None? && release(query).Success? ==>
      r == Success(ToListing(query.id, release(query).value))
  {
    if CachedListing(cached).Some? then Success(CachedListing(cached).value)
    else match release(query)
      case Failure(e) => Failure(e)
      case Success(page) => Success(ToListing(query.id, page))
  }

  /**
   * `getEpisodes`: a cache hit is returned as it is; otherwise the release API is asked with
   * the query, a failure is returned and nothing is cached, and the mapped listing is cached
   * for half an hour under the key with page and sort defaulted.
   */
  method GetEpisodes(store: Cache.Store<CachedValue>, query: EpisodesQuery,
                     release: EpisodesQuery -> Result<ReleasePage, string>, faults: Cache.StoreFaults)
    returns (r: Result<EpisodeListing, string>)
    modifies store
    ensures r == EpisodesResult(old(store.Get(EpisodesKey(query), faults.getFails)), query, release)
    ensures CachedListing(old(store.Get(EpisodesKey(query), faults.getFails))).None? && r.Success? ==>
      store.entries == Cache.SetEntries(store.configured, old(store.entries), EpisodesKey(query),
                                        EpisodesValue(r.value), Some(EpisodesTtl), faults)
    ensures CachedListing(old(store.Get(EpisodesKey(query), faults.getFails))).Some? || r.Failure? ==>
      store.entries == old(store.entries)
    ensures store.entries == EntriesAfterEpisodes(store.configured, old(store.entries), query, release, faults)
  {
    var cached := store.JsonGet(EpisodesKey(query), faults.getFails);
    if CachedListing(cached).Some? {
      return Success(CachedListing(cached).value);
    }
    var res := release(query);
    if res.Failure? {
      return Failure(res.error);
    }
    var episodes := ToListing(query.id, res.value);
    var _ := store.JsonSet(EpisodesKey(query), EpisodesValue(episodes), Some(EpisodesTtl),
                           faults.setFails, faults.expireFails);
    r := Success(episodes);
  }

  // ---------------------------------------------------------------------------------------
  // External links

  /** An anchor of the page's external-links block: its text and its `href`, if it has one. */
  datatype Anchor = Anchor(text: string, href: Option<string>)

  /**
   * An `href` trimmed, stripped of every leading slash and prefixed with `https://`;
   * nothing when it is absent or nothing is left.
   */
  function NormalizeHref(href: Option<string>): (r: Option<string>)
    ensures r.None? <==> href.None? || StripLeadingSlashes(Trim(href.value)) == ""
    ensures r.Some? ==> r.value == "https://" + StripLeadingSlashes(Trim(href.value))
    ensures r.Some? ==> |r.value| > 8 && r.value[8] != '/'
  {
    match href
    case None => None
    case Some(h) =>
      var link := StripLeadingSlashes(Trim(h));
      if link == "" then None else Some("https://" + link)
  }

  /** The link an anchor contributes, labelled with its trimmed text. */
  function LinkOf(a: Anchor): Option<ExternalLink> {
    match NormalizeHref(a.href)
    case None => None
    case Some(url) => Some(ExternalLink(Trim(a.text), url))
  }

  /** The links of the anchors in document order, anchors without a usable `href` skipped. */
  function ExternalLinksOf(anchors: seq<Anchor>): (r: seq<ExternalLink>)
    ensures |r| <= |anchors|
    ensures forall k :: 0 <= k < |r| ==> |r[k].url| > 8 && r[k].url[..8] == "https://" && r[k].url[8] != '/'
    decreases |anchors|
  {
    if anchors == [] then []
    else
      var init := ExternalLinksOf(anchors[..|anchors| - 1]);
      match LinkOf(anchors[|anchors| - 1])
      case None => init
      case Some(l) => init + [l]
  }

  /** Links of a concatenation are the concatenation of the links: order is kept. */
  lemma {:induction false} ExternalLinksOfAppend(a: seq<Anchor>, b: seq<Anchor>)
    ensures ExternalLinksOf(a + b) == ExternalLinksOf(a) + ExternalLinksOf(b)
    decreases |b|
  {
    if b == [] {
      assert a + b == a;
    } else {
      var b' := b[..|b| - 1];
      assert (a + b)[..|a + b| - 1] == a + b';
      ExternalLinksOfAppend(a, b');
    }
  }

  /** One anchor contributes one link exactly when its normalised `href` is non-empty. */
  lemma ExternalLinksOfSingle(a: Anchor)
    ensures ExternalLinksOf([a]) == if LinkOf(a).Some? then [LinkOf(a).value] else []
  {
    assert [a][..0] == [];
  }

  /** The loop of `getAnimePage` over the anchors, pushing one link per usable anchor. */
  method CollectExternalLinks(anchors: seq<Anchor>) returns (links: seq<ExternalLink>)
    ensures links == ExternalLinksOf(anchors)
  {
    links := [];
    var i := 0;
    while i < |anchors|
      invariant 0 <= i <= |anchors|
      invariant links == ExternalLinksOf(anchors[..i])
    {
      assert anchors[..i + 1][..i] == anchors[..i];
      var a := anchors[i];
      var link := NormalizeHref(a.href);
      if link.Some? {
        links := links + [ExternalLink(Trim(a.text), link.value)];
      }
      assert links == ExternalLinksOf(anchors[..i]) + (if LinkOf(a).Some? then [LinkOf(a).value] else []);
      i := i + 1;
    }
    assert anchors[..i] == anchors;
  }

  function PageKey(id: string): string {
    "animepahe:info:" + id
  }

  function CachedPage(cached: Option<CachedValue>): Option<AnimePage> {
    if cached.Some? && cached.value.PageValue? then Some(cached.value.page) else None
  }

  /** What `getAnimePage` returns, given the cache read and the page request. */
  function PageResult(cached: Option<CachedValue>, response: Result<seq<Anchor>, string>)
    : (r: Result<AnimePage, string>)
    ensures CachedPage(cached).Some? ==> r == Success(CachedPage(cached).value)
    ensures CachedPage(cached).None? && response.Failure? ==> r == Failure(response.error)
    ensures CachedPage(cached).None? && response.Success? ==> r == Success(AnimePage(ExternalLinksOf(response.value)))
  {
    if CachedPage(cached).Some? then Success(CachedPage(cached).value)
    else if response.Failure? then Failure(response.error)
    else Success(AnimePage(ExternalLinksOf(response.value)))
  }

  /**
   * `getAnimePage`: a cache hit is returned as it is; a failed request is returned and nothing
   * is cached; otherwise the page's external links are cached for seven hours and returned.
   */
  method GetAnimePage(store: Cache.Store<CachedValue>, id: string, response: Result<seq<Anchor>, string>,
                      faults: Cache.StoreFaults)
    returns (r: Result<AnimePage, string>)
    modifies store
    ensures CachedPage(old(store.Get(PageKey(id), faults.getFails))).Some? ==>
      r == Success(CachedPage(old(store.Get(PageKey(id), faults.getFails))).value)
      && store.entries == old(store.entries)
    ensures CachedPage(old(store.Get(PageKey(id), faults.getFails))).None? && response.Failure? ==>
      r == Failure(response.error) && store.entries == old(store.entries)
    ensures CachedPage(old(store.Get(PageKey(id), faults.getFails))).None? && response.Success? ==>
      r == Success(AnimePage(ExternalLinksOf(response.value)))
      && store.entries == Cache.SetEntries(store.configured, old(store.entries), PageKey(id),
                                           PageValue(r.value), Some(PageTtl), faults)
    ensures r == PageResult(old(store.Get(PageKey(id), faults.getFails)), response)
    ensures store.entries == EntriesAfterPage(store.configured, old(store.entries), id, response, faults)
  {
    var cached := store.JsonGet(PageKey(id), faults.getFails);
    if CachedPage(cached).Some? {
      return Success(CachedPage(cached).value);
    }
    if response.Failure? {
      return Failure(response.error);
    }
    var links := CollectExternalLinks(response.value);
    var info := AnimePage(links);
    var _ := store.JsonSet(PageKey(id), PageValue(info), Some(PageTtl), faults.setFails, faults.expireFails);
    r := Success(info);
  }

  /** The entries after `getAnimePage`: written only on a cache miss with a successful request. */
  function EntriesAfterPage(configured: bool, entries: map<string, Cache.Entry<CachedValue>>, id: string,
                            response: Result<seq<Anchor>, string>, faults: Cache.StoreFaults)
    : map<string, Cache.Entry<CachedValue>>
  {
    if CachedPage(Cache.Read(configured, entries, PageKey(id), faults.getFails)).Some? || response.Failure? then entries
    else Cache.SetEntries(configured, entries, PageKey(id), PageValue(AnimePage(ExternalLinksOf(response.value))),
                          Some(PageTtl), faults)
  }

  /** The entries after `getEpisodes`: written only on a cache miss with a successful request. */
  function EntriesAfterEpisodes(configured: bool, entries: map<string, Cache.Entry<CachedValue>>,
                                query: EpisodesQuery, release: EpisodesQuery -> Result<ReleasePage, string>,
                                faults: Cache.StoreFaults)
    : map<string, Cache.Entry<CachedValue>>
  {
    if CachedListing(Cache.Read(configured, entries, EpisodesKey(query), faults.getFails)).Some?
       || release(query).Failure? then entries
    else Cache.SetEntries(configured, entries, EpisodesKey(query), EpisodesValue(ToListing(query.id, release(query).value)),
                          Some(EpisodesTtl), faults)
  }

  /** The release query `getAnime` issues: newest first, the requested page or page 1. */
  function AnimeEpisodesQuery(id: string, page: Option<string>): (q: EpisodesQuery)
    ensures q.sort == Some("episode_desc") && q.page.Some? && q.page.value != ""
    ensures page.Some? && page.value != "" ==> q.page == page
  {
    EpisodesQuery(id, Some("episode_desc"), Some(OrDefault(page, "1")))
  }

  /**
   * `getAnime`: the page first, whose error is returned before any episode request; then the
   * episodes, newest first, of the requested page, read through the cache as the page left
   * it; the first error met is returned, otherwise the page and the episodes together. The
   * store ends as the page step and then the episodes step leave it.
   */
  method GetAnime(store: Cache.Store<CachedValue>, id: string, page: Option<string>,
                  pageResponse: Result<seq<Anchor>, string>,
                  release: EpisodesQuery -> Result<ReleasePage, string>,
                  pageFaults: Cache.StoreFaults, episodeFaults: Cache.StoreFaults)
    returns (r: Result<AnimeInfo, string>)
    modifies store
    ensures var pageR := PageResult(old(store.Get(PageKey(id), pageFaults.getFails)), pageResponse);
      pageR.Failure? ==> r == Failure(pageR.error) && store.entries == old(store.entries)
    ensures var pageR := PageResult(old(store.Get(PageKey(id), pageFaults.getFails)), pageResponse);
      var afterPage := EntriesAfterPage(store.configured, old(store.entries), id, pageResponse, pageFaults);
      var query := AnimeEpisodesQuery(id, page);
      var episodes := EpisodesResult(Cache.Read(store.configured, afterPage, EpisodesKey(query), episodeFaults.getFails),
                                     query, release);
      pageR.Success? ==>
        (episodes.Failure? ==> r == Failure(episodes.error))
        && (episodes.Success? ==> r == Success(AnimeInfo(pageR.value, episodes.value)))
        && store.entries == EntriesAfterEpisodes(store.configured, afterPage, query, release, episodeFaults)
  {
    var info := GetAnimePage(store, id, pageResponse, pageFaults);
    if info.Failure? {
      return Failure(info.error);
    }
    var episodes := GetEpisodes(store, AnimeEpisodesQuery(id, page), release, episodeFaults);
    if episodes.Failure? {
      return Failure(episodes.error);
    }
    r := Success(AnimeInfo(info.value, episodes.value));
  }

  // ---------------------------------------------------------------------------------------
  // Stream sources

  /** A button of the play page's resolution menu: its `data-src`, `data-resolution`, `data-audio`. */
  datatype Button = Button(src: string, resolution: string, audio: string)

  /**
   * The source one button yields: the extracted URL, or the error object `extract` resolved
   * to on a non-200 embed page; nothing when `extract` throws.
   */
  function SourceOf(b: Button, extract: string -> Kwik.TsExtraction): (r: Option<StreamSource>)
    ensures r.None? <==> extract(Trim(b.src)).Throws?
    ensures r.Some? ==> r.value.resolution == Trim(b.resolution)
    ensures r.Some? && extract(Trim(b.src)).Url? ==> r.value.link == Direct(extract(Trim(b.src)).url)
    ensures r.Some? && extract(Trim(b.src)).ErrResult? ==>
      r.value.link == ErrResultObject(extract(Trim(b.src)).message)
  {
    match extract(Trim(b.src))
    case Throws => None
    case Url(u) => Some(StreamSource(Trim(b.resolution), Direct(u)))
    case ErrResult(m) => Some(StreamSource(Trim(b.resolution), ErrResultObject(m)))
  }

  /** `kwik.extract` with the embed-page request and the sandbox bound. */
  function Extractor(fetch: Kwik.Request -> HttpResponse<string>, eval: string -> Option<string>)
    : string -> Kwik.TsExtraction
  {
    url => Kwik.ExtractTs(url, fetch, eval)
  }

  /** The per-button source of the play page, with the extractor bound. */
  function ButtonSource(fetch: Kwik.Request -> HttpResponse<string>, eval: string -> Option<string>)
    : Button -> Option<StreamSource>
  {
    (b: Button) => SourceOf(b, Extractor(fetch, eval))
  }

  /** The key a button is grouped under: its trimmed `data-audio`. */
  function ButtonLanguage(): Button -> string {
    (b: Button) => Trim(b.audio)
  }

  /**
   * The names a plain `{}` inherits from `Object.prototype`. For these, `sources[lang]` is
   * already truthy before any source is stored, and it has no `push`.
   */
  const InheritedKeys: set<string> := {
    "constructor", "__proto__", "__defineGetter__", "__defineSetter__", "__lookupGetter__",
    "__lookupSetter__", "hasOwnProperty", "isPrototypeOf", "propertyIsEnumerable",
    "toLocaleString", "toString", "valueOf"
  }

  /** A button the loop gets past: its extraction does not throw and its language can be grouped. */
  predicate Groupable(b: Button, source: Button -> Option<StreamSource>, langOf: Button -> string) {
    source(b).Some? && langOf(b) !in InheritedKeys
  }

  /** `sources[lang]`, the empty list when the language has no entry yet. */
  function EntriesOf(sources: map<string, seq<StreamSource>>, lang: string): seq<StreamSource> {
    if lang in sources then sources[lang] else []
  }

  /**
   * The sources grouped by language after the buttons, in document order. It is `None` when a
   * button's extraction throws, or when its language names an inherited member, whose
   * `push` then throws.
   */
  function StreamsOf(buttons: seq<Button>, source: Button -> Option<StreamSource>, langOf: Button -> string)
    : (r: Option<map<string, seq<StreamSource>>>)
    ensures r.Some? ==> forall lang :: lang in r.value ==> r.value[lang] != []
    decreases |buttons|
  {
    if buttons == [] then Some(map[])
    else
      var last := buttons[|buttons| - 1];
      match StreamsOf(buttons[..|buttons| - 1], source, langOf)
      case None => None
      case Some(sources) =>
        match source(last)
        case None => None
        case Some(s) =>
          if langOf(last) in InheritedKeys then None
          else Some(sources[langOf(last) := EntriesOf(sources, langOf(last)) + [s]])
  }

  /** The sources of the buttons of language `lang`, in document order. */
  function SourcesFor(buttons: seq<Button>, lang: string, source: Button -> Option<StreamSource>,
                      langOf: Button -> string): (r: seq<StreamSource>)
    requires forall i :: 0 <= i < |buttons| ==> Groupable(buttons[i], source, langOf)
    ensures |r| <= |buttons|
    decreases |buttons|
  {
    if buttons == [] then []
    else
      var last := buttons[|buttons| - 1];
      assert Groupable(last, source, langOf);
      SourcesFor(buttons[..|buttons| - 1], lang, source, langOf)
        + (if langOf(last) == lang then [source(last).value] else [])
  }

  /** The grouping is defined exactly when every button is groupable. */
  lemma {:induction false} StreamsOfDefined(buttons: seq<Button>, source: Button -> Option<StreamSource>,
                                            langOf: Button -> string)
    ensures StreamsOf(buttons, source, langOf).Some? <==>
      forall i :: 0 <= i < |buttons| ==> Groupable(buttons[i], source, langOf)
    decreases |buttons|
  {
    if buttons != [] {
      var init := buttons[..|buttons| - 1];
      StreamsOfDefined(init, source, langOf);
      assert forall i :: 0 <= i < |init| ==> init[i] == buttons[i];
    }
  }

  /**
   * Under each language the grouping holds the sources of that language's buttons, one per
   * button, in document order; a language no button has is no key.
   */
  lemma {:induction false} StreamsOfEntries(buttons: seq<Button>, lang: string,
      source: Button -> Option<StreamSource>, langOf: Button -> string)
    requires forall i :: 0 <= i < |buttons| ==> Groupable(buttons[i], source, langOf)
    ensures StreamsOf(buttons, source, langOf).Some?
    ensures EntriesOf(StreamsOf(buttons, source, langOf).value, lang) == SourcesFor(buttons, lang, source, langOf)
    ensures lang in StreamsOf(buttons, source, langOf).value <==>
      exists i :: 0 <= i < |buttons| && langOf(buttons[i]) == lang
    decreases |buttons|
  {
    StreamsOfDefined(buttons, source, langOf);
    if buttons != [] {
      var init := buttons[..|buttons| - 1];
      assert forall i :: 0 <= i < |init| ==> init[i] == buttons[i];
      StreamsOfEntries(init, lang, source, langOf);
      if exists i :: 0 <= i < |buttons| && langOf(buttons[i]) == lang {
        var i :| 0 <= i < |buttons| && langOf(buttons[i]) == lang;
        if i < |init| {
          assert langOf(init[i]) == lang;
        }
      }
    }
  }

  /** A button whose audio is `constructor` makes `push` throw, even when its extraction succeeds. */
  lemma InheritedLanguageRejects(b: Button, source: Button -> Option<StreamSource>, langOf: Button -> string)
    requires source(b).Some? && langOf(b) == "constructor"
    ensures StreamsOf([b], source, langOf).None?
  {
    assert [b][..0] == [];
  }

  /** Once an extraction has thrown, the buttons after it do not matter. */
  lemma {:induction false} StreamsOfThrowSticks(buttons: seq<Button>, n: nat,
      source: Button -> Option<StreamSource>, langOf: Button -> string)
    requires n <= |buttons|
    requires StreamsOf(buttons[..n], source, langOf).None?
    ensures StreamsOf(buttons, source, langOf).None?
    decreases |buttons| - n
  {
    if n < |buttons| {
      assert buttons[..n + 1][..n] == buttons[..n];
      StreamsOfThrowSticks(buttons, n + 1, source, langOf);
    } else {
      assert buttons[..n] == buttons;
    }
  }

  function StreamsKey(id: string, session: string): string {
    "animepahe:streams:" + id + ":" + session
  }

  function CachedStreams(cached: Option<CachedValue>): Option<map<string, seq<StreamSource>>> {
    if cached.Some? && cached.value.StreamsValue? then Some(cached.value.sources) else None
  }

  /** The loop over the resolution menu, awaiting each extraction in turn. */
  method GroupStreams(buttons: seq<Button>, source: Button -> Option<StreamSource>, langOf: Button -> string)
    returns (r: Option<map<string, seq<StreamSource>>>)
    ensures r == StreamsOf(buttons, source, langOf)
  {
    var sources: map<string, seq<StreamSource>> := map[];
    var i := 0;
    while i < |buttons|
      invariant 0 <= i <= |buttons|
      invariant StreamsOf(buttons[..i], source, langOf) == Some(sources)
    {
      assert buttons[..i + 1][..i] == buttons[..i];
      var b := buttons[i];
      var streamingUrl := source(b);
      if streamingUrl.None? {
        StreamsOfThrowSticks(buttons, i + 1, source, langOf);
        return None;
      }
      var lang := langOf(b);
      if lang in InheritedKeys {
        // `sources[lang]` is the inherited member, so the array is never created and `push` throws.
        StreamsOfThrowSticks(buttons, i + 1, source, langOf);
        return None;
      }
      ghost var before := sources;
      if lang !in sources {
        sources := sources[lang := []];
      }
      sources := sources[lang := sources[lang] + [streamingUrl.value]];
      assert sources == before[lang := EntriesOf(before, lang) + [streamingUrl.value]];
      i := i + 1;
    }
    assert buttons[..i] == buttons;
    r := Some(sources);
  }

  /**
   * `getEpisodeStreams`: a cache hit is returned as it is; a failed request is returned; an
   * extraction that throws, or a language naming an inherited member, rejects the whole call
   * with nothing cached; otherwise the grouped
   * sources are cached for half an hour and returned.
   */
  method GetEpisodeStreams(store: Cache.Store<CachedValue>, id: string, session: string,
                           response: Result<seq<Button>, string>,
                           fetch: Kwik.Request -> HttpResponse<string>, eval: string -> Option<string>,
                           faults: Cache.StoreFaults)
    returns (r: Result<map<string, seq<StreamSource>>, TsError>)
    modifies store
    ensures CachedStreams(old(store.Get(StreamsKey(id, session), faults.getFails))).Some? ==>
      r == Success(CachedStreams(old(store.Get(StreamsKey(id, session), faults.getFails))).value)
      && store.entries == old(store.entries)
    ensures CachedStreams(old(store.Get(StreamsKey(id, session), faults.getFails))).None? ==>
      match response
      case Failure(e) => r == Failure(Returned(e)) && store.entries == old(store.entries)
      case Success(buttons) =>
        match StreamsOf(buttons, ButtonSource(fetch, eval), ButtonLanguage())
        case None => r == Failure(Thrown) && store.entries == old(store.entries)
        case Some(sources) =>
          r == Success(sources)
          && store.entries == Cache.SetEntries(store.configured, old(store.entries), StreamsKey(id, session),
                                               StreamsValue(sources), Some(StreamsTtl), faults)
  {
    var cached := store.JsonGet(StreamsKey(id, session), faults.getFails);
    if CachedStreams(cached).Some? {
      return Success(CachedStreams(cached).value);
    }
    if response.Failure? {
      return Failure(Returned(response.error));
    }
    var sources := GroupStreams(response.value, ButtonSource(fetch, eval), ButtonLanguage());
    if sources.None? {
      return Failure(Thrown);
    }
    var _ := store.JsonSet(StreamsKey(id, session), StreamsValue(sources.value), Some(StreamsTtl),
                           faults.setFails, faults.expireFails);
    r := Success(sources.value);
  }
}
