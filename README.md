# MinnaSync neptune: a Dafny model of the anime lookup core

MinnaSync's backend answers three kinds of questions about an anime:
- what it is (its metadata, its external links and its episode list);
- how its episodes are titled;
- where its streams are.

It answers them by combining three outside services:
- AnimePahe, which provides episodes and player pages;
- Jikan, which provides MyAnimeList data;
- the community ID crosswalk that links MyAnimeList, AniList and AniDB numbers.

Every answer is cached in Redis.

The repository has this logic three times, and this project models all three:

- **The TypeScript service** (`src/`):
  - the AnimePahe provider (`src/providers/animepahe.ts`) scrapes the info page for external links, lists releases and groups the streams of the player page by audio language;
  - the kwik extractor (`src/providers/extractors/kwik.ts`) unpacks the player's obfuscated script and finds the `m3u8` URL;
  - the ID crosswalk (`src/resources/animeIDs.ts`) downloads the table once a day and finds the row for an id;
  - the `/info` route (`src/api/routes/anime.ts`) maps the external links to MyAnimeList and AniList ids, fetches the metadata, then reconciles AnimePahe's episode numbers with Jikan's titles page by page.
- **The neptune package** (`packages/neptune/src/`):
  - its best-effort JSON cache, which is optional and never throws;
  - its own AnimePahe provider, which caches one combined record.
- **The Go service**:
  - title matching between Jikan and AnimePahe (`pkg/animepahe/matching.go`);
  - stream extraction (`pkg/animepahe/web.go`, `pkg/extractors/kwik.go`);
  - the use cases (`usecase/anime.go`);
  - the HTTP handlers with their validation and status mapping (`handlers/anime.go`).

How the model is built:
- **Cache.** The neptune cache is a class whose map of entries changes in place.
- **Operations that change state or loop** are methods. Each is proved against a function that specifies it.
- **Pure logic** (matching rules, key formats, regular expressions, edit distance, status mapping) is functions and lemmas.
- **Calls to the outside world** are parameters: HTTP requests, HTML parsing, the JavaScript sandbox, the Jikan and AnimePahe APIs.
  - Either the value the call answered, or a total function from request to answer.
  - A function is used when the request itself matters, such as the Referer header, the page asked for or the play path.
- **Go's Redis caches.**
  - Their reads are optional inputs.
  - Their writes are returned as the record the method asks to write.
  - Their failures are inputs.

Modules:
- `Wrappers`: `Option` and `Result`.
- `Text`: string search, JavaScript `trim`, leading-slash removal, `split('/').pop()`, decimal text.
- `Records`: the TypeScript record shapes.
- `GoRecords`: the Go structs and one enumeration of the Go errors.
- `Cache`, `Crosswalk`, `Kwik`, `AnimePahe`, `NeptunePahe`, `InfoRoute`: the TypeScript side.
- `Matching`, `Web`, `Usecase`, `Handlers`: the Go side.

## Model

| member | source | states |
|---|---|---|
| Cache.Lookup | packages/neptune/src/util/cache.ts:16-23 | a stored key parses to a value exactly when it is present and holds valid JSON |
| Cache.AfterSet | packages/neptune/src/util/cache.ts:25-37 | `JSON.SET` then `EXPIRE` leaves every other key alone; the key holds the new payload; it is deleted only by a negative truthy TTL whose `EXPIRE` succeeds; a positive TTL is recorded; otherwise the old expiry stays |
| Cache.Read | packages/neptune/src/util/cache.ts:16-23 | an unconfigured store or a failing call reads as a miss; otherwise the stored JSON |
| Cache.ReadAfterSet | packages/neptune/src/util/cache.ts:25-37 | a value written with no TTL or a positive one reads back unchanged, and no other key's read changes |
| Cache.Store.constructor | packages/neptune/src/util/cache.ts:4-10 | the client exists exactly when Redis is configured |
| Cache.Store.Get | packages/neptune/src/util/cache.ts:16-23 | `jsonGet` in the current state: a miss when unconfigured or failing; otherwise the parsed entry for the key |
| Cache.SetEntries | packages/neptune/src/util/cache.ts:25-37 | the entries after `jsonSet`: unchanged with no client or a failing `JSON.SET`; no other key touched; a value written with no TTL, a positive one or a failing `EXPIRE` reads back |
| Cache.Store.JsonGet | packages/neptune/src/util/cache.ts:16-23 | never throws; an absent client, a failing call or unparseable text all yield null; otherwise the stored value |
| Cache.Store.JsonSet | packages/neptune/src/util/cache.ts:25-37 | with no client it does nothing and returns true; otherwise it returns false exactly when `JSON.SET`, or the `EXPIRE` issued for a truthy TTL, throws; the new entries are `AfterSet` of the old |
| Text.Trim | src/providers/animepahe.ts:115-117 | JavaScript `trim`: the result is the input with its leading white space (`LeadingSpaces`) and its trailing white space removed, starting and ending with non-space; an input that does neither is returned unchanged |
| Text.LeadingSpaces | src/providers/animepahe.ts:115-117 | the length of the input's leading run of white space: all white space, followed by a non-space or the end |
| Text.TrimStartDropsLeading | src/providers/animepahe.ts:115-117 | `trimStart` is the input from its first non-space character on |
| Text.TrimEndKeepsPrefix | src/providers/animepahe.ts:115-117 | `trimEnd` is a prefix of its input |
| Text.StripLeadingSlashes | src/providers/animepahe.ts:194 | `replace(/^\/+/, '')`: the result is a suffix of the input, does not start with `/`, and only slashes were removed |
| Text.LastSegment | src/api/routes/anime.ts:137 | `split('/').pop()`: contains no `/` and is no longer than the input |
| Text.LastSegmentSuffix | src/api/routes/anime.ts:137 | the last segment is a suffix of the input, preceded by `/` whenever it is shorter than the input |
| Text.LastSegmentAfterSlash | src/api/routes/anime.ts:137 | the last segment of `a + "/" + b` is `b` whenever `b` has no slash |
| Text.AsciiLower | pkg/animepahe/matching.go:65-72 | lower-cases ASCII letters one for one and leaves every other character as it is |
| Text.IntToString | src/api/routes/anime.ts:193 | decimal text: never empty, with a leading minus exactly for negative numbers |
| Text.IntToStringInjective | src/api/routes/anime.ts:193 | different integers have different decimal texts |
| Text.ParseDigitsOfNatToString | src/resources/animeIDs.ts:43 | parsing a natural number's decimal text gives the number back |
| Crosswalk.FirstMatchFrom | src/resources/animeIDs.ts:42-44 | the first row at or after `i` whose column stringifies to the value; none when no such row exists |
| Crosswalk.FindIds | src/resources/animeIDs.ts:42-44 | `list.find`: none exactly when no row matches; otherwise a matching row of the list, namely the first |
| Crosswalk.FromResource | src/resources/animeIDs.ts:46-73 | a table load error is passed on before any lookup; otherwise the first row whose resource column matches the id (a row of the table with no earlier match), or the error `No IDs found for <label>: <id>` |
| Crosswalk.NumericLookup | src/resources/animeIDs.ts:43 | on a numeric column, looking up the decimal text of n finds exactly the rows holding n |
| Crosswalk.FetchIdsList | src/resources/animeIDs.ts:27-40 | a cached table is returned with no write; a failed download is an error with no write; otherwise the table is cached for one day and returned |
| Crosswalk.FromResourceCached | src/resources/animeIDs.ts:46-73 | loads the table through the cache, then gives exactly `FromResource` of that load; the store afterwards holds the downloaded table for one day exactly when it missed and the download succeeded, and is otherwise unchanged |
| Kwik.ScriptMatch | src/providers/extractors/kwik.ts:18 | the leftmost match of `(eval)(\(f.*?)(<terminator>)`, shortest at that start; none exactly when no match exists |
| Kwik.ScriptPayload | src/providers/extractors/kwik.ts:18 | capture group 2 with its first `eval` removed: the text between `eval` and the terminator of `ScriptMatch`; absent exactly when the pattern does not match |
| Kwik.ScriptGroupShape | pkg/extractors/kwik.go:17 | capture group 2 starts with `(f` and holds no terminator before its end |
| Kwik.SourceMatchFrom | src/providers/extractors/kwik.ts:26 | the leftmost `https.*?m3u8` at or after `i`, shortest at that start, with no line break inside |
| Kwik.FirstSource | pkg/extractors/kwik.go:18 | none exactly when nothing matches; otherwise the text of the leftmost match, which starts with `https` and ends with `m3u8` |
| Kwik.ExtractTs | src/providers/extractors/kwik.ts:8-29 | the request carries the animepahe Referer; a non-200 status is exactly the error result; a missing script, a failed evaluation or a missing stream URL throws; a URL is the first `https…m3u8` match in the evaluated script |
| Kwik.Unpack | pkg/extractors/kwik.go:57-83 | no script match is `ErrFailedToExtractMediaURL`; an interpreter error is passed on; once the script evaluates, the result is its first stream URL, or `ErrFailedToExtractMediaURL` when it has none |
| Text.ReplaceFirstAppend | pkg/extractors/kwik.go:17 | a character that is not in the pattern, appended, passes through `replace` unchanged |
| Kwik.ExtractGo | pkg/extractors/kwik.go:29-40 | the request carries `Referer: https://<host>`; a transport error is passed on; a non-200 status and a non-`text/html` Content-Type are errors; otherwise the result is `Unpack` of the body |
| Kwik.PayloadsAgreeOnNewlineTerminatedScript | pkg/extractors/kwik.go:17 | the two patterns match at the same place when the script ends with a newline, and the `</script>` payload is the `\n</script>` payload followed by that newline |
| AnimePahe.OrDefault | src/providers/animepahe.ts:141 | `value \|\| fallback`: an absent or empty string gives the fallback |
| AnimePahe.EpisodesKey | src/providers/animepahe.ts:141 | `animepahe:episodes:<id>:page_<page or 1>:sort_<sort or episode_asc>` |
| AnimePahe.EpisodesKeyDefaults | src/providers/animepahe.ts:141 | an omitted page or sort, an empty one, and page 1 ascending all share one cache key |
| AnimePahe.EpisodeRefOf | src/providers/animepahe.ts:153-164 | the composite id is `<id>/<session>` and the play URL is `BASE_URL/play/<composite>`; number and preview are copied |
| AnimePahe.SessionFromCompositeId | src/providers/animepahe.ts:153-164 | the session is recovered from a composite id as its last path segment |
| AnimePahe.ToListing | src/providers/animepahe.ts:153-164 | there is a next page exactly when the current page is before the last; from, to and total are copied; there is one reference per release, in order |
| AnimePahe.EpisodesResult | src/providers/animepahe.ts:140-169 | a cached listing wins; otherwise the API error, or the mapped listing |
| AnimePahe.GetEpisodes | src/providers/animepahe.ts:140-169 | returns `EpisodesResult`; the store afterwards is `EntriesAfterEpisodes`: the listing cached for 30 minutes under the defaulted key on a miss with success, and otherwise unchanged |
| AnimePahe.EntriesAfterEpisodes | src/providers/animepahe.ts:140-169 | a hit or a failed request leaves the entries alone; otherwise they are `SetEntries` of the listing with the 30-minute TTL |
| AnimePahe.NormalizeHref | src/providers/animepahe.ts:194 | an `href` trimmed, stripped of leading slashes and given `https://`; none when absent or empty; a result never has a slash right after the scheme |
| AnimePahe.ExternalLinksOf | src/providers/animepahe.ts:192-199 | at most one link per anchor, each an `https://` URL with no slash right after the scheme |
| AnimePahe.ExternalLinksOfAppend | src/providers/animepahe.ts:192-199 | links keep document order: the links of a concatenation are the concatenation of the links |
| AnimePahe.ExternalLinksOfSingle | src/providers/animepahe.ts:192-199 | one anchor gives one link exactly when its normalised `href` is non-empty |
| AnimePahe.CollectExternalLinks | src/providers/animepahe.ts:192-199 | the push loop yields exactly `ExternalLinksOf` |
| AnimePahe.GetAnimePage | src/providers/animepahe.ts:175-208 | returns `PageResult`; a cached page is returned with no write; a failed request is returned with no write; otherwise the links are cached for seven hours and returned |
| AnimePahe.PageResult | src/providers/animepahe.ts:175-208 | a cached page wins; otherwise the request error, or the page of the external links of the anchors |
| AnimePahe.AnimeEpisodesQuery | src/providers/animepahe.ts:220 | `getAnime` asks for the requested page, or page 1 when it is absent or empty, newest first |
| AnimePahe.GetAnime | src/providers/animepahe.ts:214-231 | a page error is returned with no further write; after the page step, the call fails with exactly the error of the release listing (newest first, requested page) and on success returns the page with that listing; the store ends as the page step followed by the episodes step |
| AnimePahe.SourceOf | src/providers/animepahe.ts:115-128 | a button yields nothing exactly when the extraction of its trimmed `data-src` throws; otherwise its trimmed resolution with the URL, or the error object carrying the error result's message |
| AnimePahe.SourcesFor | src/providers/animepahe.ts:114-129 | the sources of one language's buttons in document order, one per button |
| AnimePahe.StreamsOf | src/providers/animepahe.ts:114-129 | the grouping of the buttons by language: every language present has at least one source; a language naming an inherited `Object.prototype` member (`constructor`, `toString`, …) makes the grouping fail, as `sources[lang].push` throws there |
| AnimePahe.StreamsOfDefined | src/providers/animepahe.ts:114-129 | the grouping exists exactly when every button is groupable: its extraction does not throw and its language is not an inherited member name |
| AnimePahe.InheritedLanguageRejects | src/providers/animepahe.ts:112-125 | a button whose language is `constructor` makes the grouping fail even when its extraction succeeds |
| AnimePahe.StreamsOfEntries | src/providers/animepahe.ts:114-129 | each language maps to its buttons' sources in order, and a language no button has is no key |
| AnimePahe.StreamsOfThrowSticks | src/providers/animepahe.ts:114-129 | once a button fails, the buttons after it do not matter |
| AnimePahe.GroupStreams | src/providers/animepahe.ts:114-129 | the awaiting loop returns exactly `StreamsOf` of the buttons |
| AnimePahe.GetEpisodeStreams | src/providers/animepahe.ts:99-134 | a cached grouping is returned; a request error is returned; a throwing extraction or an inherited-member language rejects with no write; otherwise the grouping is cached for 30 minutes and returned |
| NeptunePahe.FirstPageQuery | packages/neptune/src/providers/animepahe.ts:171 | page 1, oldest first |
| NeptunePahe.GetAnime | packages/neptune/src/providers/animepahe.ts:148-192 | a cached record is returned; a page error is returned; a failed release request still succeeds with the links and no episodes and writes nothing; otherwise the record is cached for 30 minutes |
| InfoRoute.KindOf | src/api/routes/anime.ts:135-169 | exactly the labels `AniList`, `MAL` and `AniDB` select a crosswalk column, each its own |
| InfoRoute.FirstDecisive | src/api/routes/anime.ts:132-171 | the index of the first link whose kind is unknown or whose lookup succeeds, none when there is no such link |
| InfoRoute.Resolve | src/api/routes/anime.ts:131-190 | the ids cannot be mapped exactly when the first decisive link has an unknown kind |
| InfoRoute.MapIds | src/api/routes/anime.ts:131-190 | the loop with `continue` and early return computes exactly `Resolve` |
| InfoRoute.ResolveSkipsPrefix | src/api/routes/anime.ts:140-164 | links whose lookup fails are skipped and change nothing |
| InfoRoute.AllSkippedGivesZero | src/api/routes/anime.ts:131 | when every lookup fails (or there are no links) both ids stay 0 |
| InfoRoute.FirstDecisiveDecides | src/api/routes/anime.ts:171-189 | the first link of an unknown kind, or whose lookup succeeds, decides: an unknown kind is the 503; otherwise the row's truthy ids overwrite the zeros; later links are ignored |
| InfoRoute.Bucket | src/api/routes/anime.ts:210 | `Math.ceil(n/100)`: the 100-episode Jikan page that holds episode n |
| InfoRoute.DistinctBuckets | src/api/routes/anime.ts:210 | the `Set` of buckets: no duplicates, and a bucket is present exactly when some number falls in it |
| InfoRoute.FetchPages | src/api/routes/anime.ts:211-225 | one fetched page per bucket, in order: each carries its bucket number and the episodes of that page, empty when the request failed |
| InfoRoute.FindPage | src/api/routes/anime.ts:240 | none exactly when no page has that number; otherwise a page of the list with that number |
| InfoRoute.FindEpisode | src/api/routes/anime.ts:253 | none exactly when no episode has that number; otherwise the first episode of the list with that number |
| InfoRoute.TitleFromBuckets | src/api/routes/anime.ts:240-274 | the title is looked up in the episode's bucket when that bucket was fetched, and is `Episode <n>` otherwise |
| InfoRoute.EpisodeNumber | src/api/routes/anime.ts:237-239 | the provider's own number when the first episode lines up with `total - (from - 1)`; otherwise `total - index` |
| InfoRoute.ReduceEpisodes | src/api/routes/anime.ts:236-276 | the reduce yields one entry per episode, in order, each the callback's entry |
| InfoRoute.RawNumbers | src/api/routes/anime.ts:210 | the provider's numbers, one per episode |
| InfoRoute.ReconciledNumbers | src/api/routes/anime.ts:237-239 | the numbers the fold assigns, one per episode |
| InfoRoute.DetailsAsWritten | src/api/routes/anime.ts:210-277 | as written, one entry per episode and `hasNextPage` copied; buckets come from the provider's numbers |
| InfoRoute.AsWrittenEpisode | src/api/routes/anime.ts:210-263 | as written, an episode whose bucket was not among the provider numbers' buckets gets the placeholder title |
| InfoRoute.AsWrittenAgreesWhenKept | src/api/routes/anime.ts:237-239 | when the numbers are kept, the code as written and the corrected fold agree |
| InfoRoute.RebasedTitleLost | src/api/routes/anime.ts:210 | a rebased season loses a title Jikan has: as written `Episode 24`, corrected `Title` |
| InfoRoute.Reconcile | src/api/routes/anime.ts:232-277 | corrected: one entry per episode, `hasNextPage` copied, buckets picked from the reconciled numbers |
| InfoRoute.ReconcileEpisode | src/api/routes/anime.ts:240-274 | corrected: id, preview and link are copied; the number is reconciled; the title comes from that number's own bucket |
| InfoRoute.Info | src/api/routes/anime.ts:104-291 | provider error is 500 with its message; an unknown link kind is 503 `failed to map ids.`; a failed metadata request is 500 `failed to fetch anime info.`; an empty listing throws; otherwise the metadata and the reconciled details |
| Matching.Lev | pkg/animepahe/matching.go:15 | the Levenshtein distance: never more than the two lengths together |
| Matching.LevUpper | pkg/animepahe/matching.go:15-16 | the distance never exceeds the longer length, so the similarity is never negative |
| Matching.LevLower | pkg/animepahe/matching.go:15-16 | the distance is at least the length difference |
| Matching.LevZero | pkg/animepahe/matching.go:15-16 | the distance is 0 exactly between equal strings |
| Matching.StringCompare | pkg/animepahe/matching.go:14-17 | NaN exactly when both strings are empty; otherwise a ratio in [0, 1] of the longer length, equal to 1 exactly when the strings are equal |
| Matching.ClearsUpward | pkg/animepahe/matching.go:80-89 | a similarity at least one that clears the threshold clears it too |
| Matching.ThresholdMeaning | pkg/animepahe/matching.go:86 | up to 111 characters, the threshold is cleared exactly when the titles are not completely different |
| Matching.SameTitleClears | pkg/animepahe/matching.go:86 | a non-empty title always clears against itself |
| Matching.BestSimilarity | pkg/animepahe/matching.go:74-84 | the inner loop's best clears the threshold exactly when some title does; a closest match is recorded exactly when some comparison is not NaN |
| Matching.FirstNonEmptyFrom | pkg/animepahe/matching.go:33-38 | the first non-empty synonym at or after i, none when all are empty |
| Matching.SearchTitle | pkg/animepahe/matching.go:26-44 | the Japanese title when non-empty; else the English title when non-empty; else the first non-empty synonym; an empty result when all synonyms are empty; "no title found" exactly when every source is absent |
| Matching.ChooseTitle | pkg/animepahe/matching.go:26-44 | the `switch` with its synonym loop returns exactly `SearchTitle` |
| Matching.FirstAccepted | pkg/animepahe/matching.go:57-90 | the first hit of the same year, season and type whose best similarity clears the threshold |
| Matching.PassesFilters | pkg/animepahe/matching.go:59-72 | the hit has the record's year, and its season and type equal the record's up to ASCII case |
| Matching.Accepted | pkg/animepahe/matching.go:57-89 | the hit passes the filters and its best similarity clears the threshold |
| Matching.NoTitlesNoMatch | pkg/animepahe/matching.go:77-89 | a record without titles matches no hit |
| Matching.GetMatchedResult | pkg/animepahe/matching.go:19-102 | a cached session wins; "no title found"; search error; non-200 status; no accepted hit is `ErrNoSearchResultsFound`; otherwise the session is written and returned unless the write fails |
| Web.LinkOf | pkg/animepahe/web.go:34-50 | a button gives a link exactly when its extraction succeeds, carrying the URL, resolution and audio |
| Web.LinksOf | pkg/animepahe/web.go:33-51 | at most one link per button, each from some button |
| Web.KwikLinksAreStreams | pkg/animepahe/web.go:33-51 | with the kwik extractor, every listed link is an `https` URL ending in `m3u8` |
| Web.LinksOfAppend | pkg/animepahe/web.go:33-51 | links keep document order across runs of buttons |
| Web.LinksOfAllSucceed | pkg/animepahe/web.go:33-51 | when every extraction succeeds there is exactly one link per button, in order |
| Web.GetEpisodeStreamingLinks | pkg/animepahe/web.go:13-59 | cached links win; a failed play-page request is the error; otherwise the links of the buttons, written to the cache and returned whatever the write does |
| Usecase.EntryOf | usecase/anime.go:64-76 | NSFW exactly when the rating starts with `R`; id, poster, type, year and episode count are copied; the native title is `Title`, romaji is `TitleJapanese` and English is `TitleEnglish` |
| Usecase.ListedOnly | usecase/anime.go:54-57 | keeps, in order, exactly the hits with a type and a year: every kept hit has both and every such hit is kept |
| Usecase.ListedOnlyAppend | usecase/anime.go:54-57 | filtering a concatenation is the concatenation of the filtered parts |
| Usecase.ListedOnlySingle | usecase/anime.go:54-57 | one hit is kept exactly when it has a type and a year |
| Usecase.SearchEntries | usecase/anime.go:54-77 | no more entries than hits, each with a type and a year |
| Usecase.SearchEntriesOfListed | usecase/anime.go:54-77 | the listing is the entries of the kept hits, one for one and in order |
| Usecase.SearchAnime | usecase/anime.go:40-80 | a search error is returned; otherwise the entries of the kept hits, and each kept hit is written to the anime cache |
| Usecase.FailedRequestPanics | usecase/anime.go:87-99 | as written, a failed Jikan request on a cache miss dereferences a nil response |
| Usecase.GetAnimeAsWritten | usecase/anime.go:82-115 | as written: a cached record wins; the record is written exactly on a miss answered with status 200, and then returned |
| Usecase.GetAnime | usecase/anime.go:82-115 | corrected: never panics; a cached record wins; a request error is returned; 404 is `ErrAnimeNotFound`; other non-200 statuses are `ErrFetchFailed`; 200 caches and returns the record |
| Usecase.AsWrittenAgreesUnlessPanic | usecase/anime.go:87-99 | the code as written panics exactly on a failed request on a miss, and otherwise agrees with the corrected lookup |
| Usecase.EpisodeOf | usecase/anime.go:154-160 | id is the session, number and snapshot are copied, the title is `Episode <n>` |
| Usecase.PlaceholderTitlesDistinct | usecase/anime.go:157 | two placeholder titles are equal exactly when the numbers are |
| Usecase.EpisodesOf | usecase/anime.go:154-173 | one entry per release, in order, each keyed by the release's session and number |
| Usecase.ToEpisodes | usecase/anime.go:154-161 | the append loop yields exactly `EpisodesOf` |
| Usecase.GetEpisodes | usecase/anime.go:117-179 | the outcomes are: the anime error; unsupported provider; cached releases; no match as `ErrAnimeNotFound`; release error, bad status or empty page; otherwise the releases of page 1, written under the requested page |
| Handlers.Atoi | handlers/anime.go:110 | `strconv.Atoi` on 64 bits: a range error whenever the digits before the first non-digit exceed 2^64 - 1; otherwise a syntax error exactly when the text is not an optional sign followed by at least one digit; decimal text is its value when that lies within 64 bits and a range error when it does not |
| Handlers.ScanUintMeaning | handlers/anime.go:110 | `ParseUint`'s digit loop stops with a range error when the leading digits overflow, otherwise with a syntax error at a non-digit, otherwise with their value |
| Handlers.OverflowBeforeNonDigit | handlers/anime.go:110 | twenty nines followed by `x` is a range error, as in Go, not a syntax error |
| Handlers.AtoiOfIntToString | handlers/anime.go:110 | every 64-bit integer's decimal text parses back to it |
| Handlers.ValidateSearch | handlers/anime.go:38-44 | an error exactly when the query is empty |
| Handlers.ValidateLinks | handlers/anime.go:266-276 | valid exactly when the provider and the episode id are non-empty; the provider is checked first |
| Handlers.AnimeEpisodesQuery.constructor | handlers/anime.go:186-206 | the decoded query holds the given provider and page |
| Handlers.AnimeEpisodesQuery.Validate | handlers/anime.go:168-182 | an empty provider, then a negative page, is an error; page 0 becomes 1; a valid query has page ≥ 1 |
| Handlers.SearchAnime | handlers/anime.go:48-102 | a decode failure and an empty query are 400s; a canceled request writes nothing; other errors are 500; otherwise 200 with the data |
| Handlers.GetAnime | handlers/anime.go:106-161 | a bad id is 400; not found is 404; canceled writes nothing; other errors are 500 |
| Handlers.GetEpisodes | handlers/anime.go:186-259 | a bad id is a plain-text 400; decode and validation errors are 400; the use case gets the validated page; errors map to 404, nothing or 500 |
| Handlers.GetEpisodesStreaming | handlers/anime.go:280-361 | like `GetEpisodes` with the links validation, and a deadline is 504; every error status is 400, 500 or 504 |

## Left out

- `src/util/cache.ts`, `src/util/request.ts` and the service's HTTP client are not part of this model. The service's cache calls are modelled with the neptune cache's semantics (`packages/neptune/src/util/cache.ts`), whose interface they share.
- Network I/O, HTML parsing (cheerio, goquery) and JSON decoding: their results are parameters (anchors, buttons, decoded pages).
- The JavaScript sandbox (`evalSync`, goja): a function from code to result. Both sandboxes are shared across calls, and neither sharing is modelled: `src/util/vm.ts:3` creates one `vm` context for every `evalSync`, and the Go extractor reuses one VM. A script that leaves globals behind could change a later evaluation.
- Regular expressions are modelled only for the patterns the code uses, not in general.
- Redis TTL expiry over time: the model records the TTL last set but has no clock.
- Cache.Read: a stored payload of another record type is treated as a miss. Within each package one key holds one type, so that case does not arise there. The two packages do share the key `animepahe:info:<id>`: an `AnimePage` in `src/providers/animepahe.ts:176,205`, and a links-plus-episodes record in `packages/neptune/src/providers/animepahe.ts:149,189`. If both used one Redis, `if (cached)` would return the other package's record as a hit, where the model reads a miss.
- InfoRoute.NumberAt: a crosswalk cell holding text where a number is expected counts as 0.
- Text.AsciiLower: Go's `strings.ToLower` handles full Unicode; the model lowers ASCII only.
- Matching.StringCompare: floating-point rounding is not modelled. The similarity is an exact rational, and NaN is kept for two empty strings. Go's `len` counts bytes while the Levenshtein distance counts runes; the model counts characters for both, so it differs on non-ASCII titles.
- Strings are sequences of characters throughout: JavaScript's UTF-16 code units and Go's bytes are not modelled.
- AnimePahe.Button: its attributes are plain strings. The source reads them with `attr(...)?.trim()` and uses `link!` and `lang!` (`src/providers/animepahe.ts:115-127`). An absent `data-audio` would group sources under the key `"undefined"`, and an absent `data-src` would make the fetch reject. Neither case is modelled.
- AnimePahe.GetEpisodeStreams: an `Error`'s `message` is not enumerable, so `jsonSet` (`src/providers/animepahe.ts:131`) stores an error object as `{"error":{}}`. A later cache hit carries no message. The model's cached grouping keeps the message as stored.
- Concurrency: `Promise.all` in `/info`, goroutines, `singleflight` and context cancellation. Cancellations and deadlines appear only as error values.
- The `/meta` and search routes of `src/api/routes/anime.ts` and the providers' `searchAnime`: outside the modelled core.
- The 403 "invalid provider" branch of `/info`: request validation admits only `animepahe`, so it cannot be reached.
- `GetStreamingLinks` in `usecase/anime.go`: not modelled. It ignores `GetAnime`'s error and would dereference a nil record, which is the same kind of defect as the finding below.
- Go's distinction between a nil and an empty slice in JSON output (`null` vs `[]`).
- Usecase.EntryOf: the entry's titles are copied by value. This matches `&anime.Title` and the other title pointers in `usecase/anime.go:67-71` only under Go 1.22 or later, where each loop iteration has its own `anime`. Under older Go every entry would point at the last hit's titles. The module's Go version (`go.mod`) is not part of this model.
- Handlers.GetEpisodes: the text of a `strconv` error is not modelled; it appears as `TextError(400)`.
- The Go Redis wrappers (`pkg/animepahe/cache.go`, `pkg/jikan/cache.go`): reads are inputs and writes are outputs.
- neptune's `getEpisodeStreams`: the same code as the service's, modelled once by `AnimePahe.GetEpisodeStreams`.
- InfoRoute.Info: uses the corrected `Reconcile`; the code as written is `DetailsAsWritten`.
- Usecase.GetEpisodes: takes the anime lookup's outcome as an input, as the corrected `GetAnime` gives it, with no panic path. It keeps the source's behaviour of fetching release page 1 whatever page is asked and keying the write by the requested page.
- Matching.ThresholdMeaning: the comparison `similarity >= 0.9` is against a 0–100 scale, so almost any pair passes. This is modelled as written and its meaning is proved, but it is not claimed as a defect.

## Findings

| source | as written | input that shows it | evidently intended | confidence | as-written member | corrected member |
|---|---|---|---|---|---|---|
| src/api/routes/anime.ts:210 | Jikan pages are chosen from AnimePahe's own numbers (`Math.ceil(e.episode / 100)`), but titles are looked up by the rebased number `total - index` | a listing with total 24 and from 1 whose one episode is numbered 124; Jikan page 1 has episode 24 "Title". Page 2 is fetched, page 1 is not, and the title is `Episode 24` | choose the pages from the numbers the titles are looked up by | not executed | InfoRoute.DetailsAsWritten, InfoRoute.RebasedTitleLost | InfoRoute.Reconcile, InfoRoute.ReconcileEpisode |
| usecase/anime.go:87-99 | `resp.StatusCode` is read before `err` is checked | a Jikan transport or decode error on a cache miss leaves `resp` nil, and the read panics | check `err` first and return it | not executed | Usecase.GetAnimeAsWritten, Usecase.FailedRequestPanics | Usecase.GetAnime, Usecase.AsWrittenAgreesUnlessPanic |
