/**
 * The Go client's stream listing (pkg/animepahe/web.go): a cached list is returned as it is;
 * otherwise the play page is requested, each button of its resolution menu is run through
 * the Kwik extractor, buttons whose extraction fails are skipped, and the list is written
 * back to the cache, whose failure is only logged.
 * The cache read, the page request (already parsed into buttons) and the extractor's HTTP
 * client and interpreter are parameters.
 */
module Web {
  import opened Wrappers
  import opened GoRecords
  import opened Text
  import Kwik

  /** A button of the play page: its `data-resolution`, `data-audio` and `data-src`. */
  datatype GoButton = GoButton(resolution: string, audio: string, src: string)

  /** The request path of the play page. */
  function PlayPath(sessionId: string, episodeId: string): string {
    "/play/" + sessionId + "/" + episodeId
  }

  /** The extractor `GetEpisodeStreamingLinks` calls, for one animepahe host. */
  function Extractor(host: string, send: Kwik.Request -> Result<Kwik.GoResponse, string>,
                     eval: string -> Result<string, string>): string -> Result<string, Kwik.KwikError>
  {
    src => Kwik.ExtractGo(src, host, send, eval)
  }

  /** What one button contributes: its link, or nothing when the extraction fails. */
  function LinkOf(b: GoButton, extract: string -> Result<string, Kwik.KwikError>): (r: Option<EpisodeStreamingLink>)
    ensures r.None? <==> extract(b.src).Failure?
    ensures r.Some? ==> r.value == EpisodeStreamingLink(extract(b.src).value, b.resolution, b.audio)
  {
    match extract(b.src)
    case Failure(_) => None
    case Success(url) => Some(EpisodeStreamingLink(url, b.resolution, b.audio))
  }

  /** The links of the buttons, in document order, skipping failed extractions. */
  function LinksOf(buttons: seq<GoButton>, extract: string -> Result<string, Kwik.KwikError>)
    : (r: seq<EpisodeStreamingLink>)
    ensures |r| <= |buttons|
    ensures forall l :: l in r ==> exists k :: 0 <= k < |buttons| && LinkOf(buttons[k], extract) == Some(l)
  {
    if buttons == [] then []
    else
      var init := LinksOf(buttons[..|buttons| - 1], extract);
      assert forall k :: 0 <= k < |buttons| - 1 ==> buttons[..|buttons| - 1][k] == buttons[k];
      match LinkOf(buttons[|buttons| - 1], extract)
      case None => init
      case Some(l) => init + [l]
  }

  /** With the Kwik extractor, every listed link is an `https` URL ending in `m3u8`. */
  lemma KwikLinksAreStreams(buttons: seq<GoButton>, host: string,
                            send: Kwik.Request -> Result<Kwik.GoResponse, string>,
                            eval: string -> Result<string, string>)
    ensures forall l :: l in LinksOf(buttons, Extractor(host, send, eval)) ==>
      StartsWith(l.url, "https") && l.url[|l.url| - 4..] == "m3u8"
  {
    forall l | l in LinksOf(buttons, Extractor(host, send, eval))
      ensures StartsWith(l.url, "https") && l.url[|l.url| - 4..] == "m3u8"
    {
      var k :| 0 <= k < |buttons| && LinkOf(buttons[k], Extractor(host, send, eval)) == Some(l);
      assert l.url == Kwik.ExtractGo(buttons[k].src, host, send, eval).value;
    }
  }

  /** The links of two runs of buttons are the links of each, in order. */
  lemma {:induction false} LinksOfAppend(a: seq<GoButton>, b: seq<GoButton>,
                                         extract: string -> Result<string, Kwik.KwikError>)
    ensures LinksOf(a + b, extract) == LinksOf(a, extract) + LinksOf(b, extract)
    decreases |b|
  {
    if b == [] {
      assert a + b == a;
    } else {
      var b' := b[..|b| - 1];
      assert (a + b)[..|a + b| - 1] == a + b';
      assert (a + b)[|a + b| - 1] == b[|b| - 1];
      LinksOfAppend(a, b', extract);
    }
  }

  /** When every extraction succeeds there is exactly one link per button, in order. */
  lemma {:induction false} LinksOfAllSucceed(buttons: seq<GoButton>, extract: string -> Result<string, Kwik.KwikError>)
    requires forall k :: 0 <= k < |buttons| ==> extract(buttons[k].src).Success?
    ensures |LinksOf(buttons, extract)| == |buttons|
    ensures forall k :: 0 <= k < |buttons| ==>
      LinksOf(buttons, extract)[k] == EpisodeStreamingLink(extract(buttons[k].src).value, buttons[k].resolution, buttons[k].audio)
  {
    if buttons != [] {
      var init := buttons[..|buttons| - 1];
      var last := buttons[|buttons| - 1];
      LinksOfAllSucceed(init, extract);
      assert LinkOf(last, extract) == Some(EpisodeStreamingLink(extract(last.src).value, last.resolution, last.audio));
      assert LinksOf(buttons, extract) == LinksOf(init, extract) + [LinkOf(last, extract).value];
    }
  }

  /**
   * `GetEpisodeStreamingLinks`: a cached list is returned with no request. Otherwise a failed
   * page request is the error; else the links of the buttons are returned, and the same list
   * is written to the cache under the anime and episode (`written`), whatever the write's
   * outcome.
   */
  method GetEpisodeStreamingLinks(cached: Option<seq<EpisodeStreamingLink>>, animeId: int,
                                  sessionId: string, episodeId: string,
                                  request: string -> Result<seq<GoButton>, GoError>,
                                  extract: string -> Result<string, Kwik.KwikError>)
    returns (r: Result<seq<EpisodeStreamingLink>, GoError>,
             written: Option<(int, string, seq<EpisodeStreamingLink>)>)
    ensures cached.Some? ==> r == Success(cached.value) && written.None?
    ensures cached.None? && request(PlayPath(sessionId, episodeId)).Failure? ==>
      r == Failure(request(PlayPath(sessionId, episodeId)).error) && written.None?
    ensures cached.None? && request(PlayPath(sessionId, episodeId)).Success? ==>
      var links := LinksOf(request(PlayPath(sessionId, episodeId)).value, extract);
      r == Success(links) && written == Some((animeId, episodeId, links))
  {
    if cached.Some? {
      return Success(cached.value), None;
    }
    var html := request(PlayPath(sessionId, episodeId));
    if html.Failure? {
      return Failure(html.error), None;
    }
    var buttons := html.value;
    var streamingLinks: seq<EpisodeStreamingLink> := [];
    for i := 0 to |buttons|
      invariant streamingLinks == LinksOf(buttons[..i], extract)
    {
      var b := buttons[i];
      assert buttons[..i + 1][..i] == buttons[..i];
      var file := extract(b.src);
      if file.Failure? {
        continue;
      }
      streamingLinks := streamingLinks + [EpisodeStreamingLink(file.value, b.resolution, b.audio)];
    }
    assert buttons[..|buttons|] == buttons;
    written := Some((animeId, episodeId, streamingLinks));
    r := Success(streamingLinks);
  }
}
