# Threads-Pull media extraction, modelled in Dafny

Threads-Pull is a small HTTP service. It takes the URL of a post on
Threads, loads the post in a headless browser and answers with the image
and video URLs found on the rendered page. This project models the core of
that service as pure Dafny functions and proves properties about them:

- **URL normalisation** (`ThreadsUrl`).
  - `normalizeThreadsUrl` accepts the hosts `threads.com` and
    `www.threads.com`.
  - It rewrites the legacy `threads.net` hosts by textual replacement, then
    parses the URL again.
  - It rejects intent paths.
  - It keeps short links `t/<code>`.
  - It reduces post, reply and comment URLs to the parent post
    `https://www.threads.com/@handle/post/<id>`.
  - `isValidThreadsUrl` is "normalisation succeeds". The WHATWG URL parser
    is a parameter. `SimpleParse` is a small reference parser for
    `https://` URLs, used to state idempotence and the scenario lemmas.
- **The in-page collector** (`MediaCollector`).
  - `addUniqueUrl` resolves relative URLs and skips `data:` URLs.
  - It drops the query of non-CDN URLs.
  - It appends a URL only if it is not already present.
  - The model folds `addUniqueUrl` over a sequence of discovered URLs and
    proves the result equals a reference "first occurrences, in order"
    definition.
- **The script scan** (`ScriptScan`).
  - This is the global regular expression `"video_url":"([^"]+)"` with
    leftmost, non-overlapping matches, followed by the two `replace` calls
    that strip a match to its capture.
- **The page scan** (`PageScan`).
  - The rendered document is a record of the elements each of the seven
    image strategies and six video strategies selects.
  - The strategies' filters are predicates: size, visibility, profile,
    avatar, icon and emoji.
  - The scan feeds every candidate to `addUniqueUrl` in the source's order.
- **The service** (`ThreadService`).
  - `extractMediaFromThread` models a browser session as an input: its
    errors, the page title and the rendered page.
  - The steps are the error-title check, the scan, the "no media" check and
    the construction of the result with its counts.
  - It includes the `threads.net` rewrite applied to the result URLs and
    the `finally` block that closes the browser.
- **The cache** (`ResultCache`).
  - This is the controller's `node-cache` with `stdTTL: 3600`: a map from
    key to value and expiry instant, on an explicit millisecond clock.
- **The request handler** (`ThreadController`).
  - `extractMedia` is the decision flow: missing URL, invalid URL, cache
    hit, live extraction with caching, and the catch block's mapping of
    extractor messages to 404/500 replies.
  - The extractor is a parameter. It can be instantiated with the modelled
    service (`Service`) for end-to-end statements.

Some parts of the code do less than their surroundings suggest. The
model follows the code:

- The catch block answers 404 for three fixed messages
  (src/controllers/threadController.js:83-87). One of them,
  `Failed to fetch thread`, is thrown nowhere in the service, and neither
  is `Thread not found`. The service throws only
  `Thread not found or page error` and `No media found in thread`
  (src/services/threadService.js:73 and 324). A navigation error, such as a
  timeout of `page.goto` (src/services/threadService.js:55-58), keeps the
  browser's own message and is rethrown
  (src/services/threadService.js:349-351). It therefore falls through to
  **500** (src/controllers/threadController.js:95).
  `ThreadController.BrowserErrorIsServerError` states this.
- The collector's helper adds "unique URLs"
  (src/services/threadService.js:144). But the `threads.net` →
  `threads.com` rewrite runs on the collected arrays afterwards
  (src/services/threadService.js:337-338), so two distinct scanned URLs can
  become equal. `ThreadService.RewriteMayDuplicate` exhibits this.
- The catch block of `extractMedia` cannot send the mapped replies as
  written (see Findings). The rest of the model uses the corrected handler
  `ThreadController.ExtractMedia`.

## Model

| member | source | states |
|---|---|---|
| ThreadsUrl.CanonicalFromPath | src/controllers/threadController.js:124-173 | An intent path yields nothing. A path starting `t/<code>` yields the short link for `<code>`. A path starting `@handle/post/<id>` yields the canonical post URL. A result exists exactly when the path is one of those two shapes. |
| ThreadsUrl.NormalizeThreadsUrl | src/controllers/threadController.js:104-118 | A URL is produced only for the two canonical and two legacy hosts. A canonical host is decided by its pathname. A legacy host is decided by the pathname of the raw text after its first `threads.net` is replaced and the text is parsed again. |
| ThreadsUrl.IsValidThreadsUrl | src/controllers/threadController.js:185-187 | A URL is valid exactly when normalisation yields a URL; `ValidMeansThreadsPost` states what that requires of it. |
| ThreadsUrl.ValidMeansThreadsPost | src/controllers/threadController.js:185-187 | A valid URL parses, its host is one of the four Threads hosts, and on a canonical host its segments form a short link or a post path. |
| ThreadsUrl.PostPathCollapses | src/controllers/threadController.js:150-173 | `@handle/post/<id>` followed by any further segments normalises to the post URL of `handle` and `id`. |
| ThreadsUrl.ReplyAndCommentShareParent | src/controllers/threadController.js:165-173 | The post path, its `reply/...` path and its `comment/...` path all normalise to the same parent post URL. |
| ThreadsUrl.ShortLinkIgnoresRest | src/controllers/threadController.js:139-143 | A short link keeps only its code; later segments do not change the result. |
| ThreadsUrl.NormalizeIdempotent | src/controllers/threadController.js:104-173 | Normalising a normalised URL gives it back unchanged. |
| ThreadsUrl.CanonicalFromPathIdempotent | src/controllers/threadController.js:121-173 | The canonical URL built from a path parses back onto the canonical host with a path that yields the same canonical URL. |
| ThreadsUrl.ReplaceRewritesHost | src/controllers/threadController.js:111-114 | In `https://<legacy host>...` the first `threads.net` is the one in the host, so the replacement rewrites exactly the host and nothing else. |
| ThreadsUrl.LegacyHostNormalizesLikeCanonical | src/controllers/threadController.js:108-118 | A URL on a legacy host normalises exactly like the same URL on the matching canonical host. |
| ThreadsUrl.LegacyPostUrl | src/controllers/threadController.js:108-173 | A post URL on a legacy host normalises to the canonical post URL, when the handle and the id are plain segments: letters, digits and `-_.@~`, and not `.` or `..`. |
| ThreadsUrl.QueryAndFragmentIgnored | src/controllers/threadController.js:108-124 | On any of the four accepted hosts, appending a query string or a fragment never changes the normalised URL. |
| ThreadsUrl.CanonicalQueryIgnored | src/controllers/threadController.js:120-124 | On `threads.com` and `www.threads.com`, the pathname alone decides the result, so a query or fragment changes nothing. |
| ThreadsUrl.ForeignHostRejected | src/controllers/threadController.js:109-117 | Whatever the parser, a URL whose host is none of the four Threads hosts is rejected. |
| ThreadsUrl.ForeignHostScenario | src/controllers/threadController.js:109-117 | `https://example.com` is rejected. |
| ThreadsUrl.SegmentsOfJoin | src/controllers/threadController.js:124 | Splitting a path at `/` and dropping empty parts recovers the non-empty, slash-free segments it was joined from, followed by the segments of the rest. |
| Strings.ContainsLowerOf | src/services/threadService.js:201 | If a URL contains a word, its lower-cased form contains the lower-cased word: the case-insensitive emoji test catches every spelling. |
| MediaCollector.CleanUrl | src/services/threadService.js:149-167 | A URL is skipped exactly when its absolute form starts with `data:`. Otherwise the stored URL is a prefix of the absolute form: the whole of it for CDN URLs, and otherwise the part before the first `?`, with no `?` left. |
| MediaCollector.FbcdnSubsumed | src/services/threadService.js:164 | Keeping the query depends on `cdn` alone; the `fbcdn` test never changes the outcome. |
| MediaCollector.CleanUrlIdempotent | src/services/threadService.js:149-167 | Cleaning a cleaned URL changes nothing. |
| MediaCollector.AddUniqueUrl | src/services/threadService.js:145-176 | It reports an insertion exactly when the URL is non-empty, not a `data:` URL, and its cleaned form is not yet in the array. An insertion appends that cleaned form at the end; otherwise the array is unchanged. A duplicate-free array stays duplicate-free. |
| MediaCollector.Collect | src/services/threadService.js:145-176 | Successive `addUniqueUrl` calls only append, add at most one entry per call, keep the array duplicate-free, and end with exactly the old entries plus the cleaned URLs offered. |
| MediaCollector.CollectIsFirstSeen | src/services/threadService.js:169-173 | The array after the calls is the old array followed by the first occurrence of each new cleaned URL, in order of first occurrence. |
| MediaCollector.CollectAppend | src/services/threadService.js:145-176 | Offering `a` then `b` in one run is the same as offering `a` and then offering `b`. |
| MediaCollector.CollectPresent | src/services/threadService.js:169-175 | Offering URLs whose cleaned forms are all present leaves the array unchanged. |
| MediaCollector.CollectTwiceSame | src/services/threadService.js:169-175 | Running the same discovery twice never doubles an entry. |
| ScriptScan.MatchAt | src/services/threadService.js:303 | A match found at the front of the text is a whole match of the pattern and is a prefix of the text. |
| ScriptScan.Matches | src/services/threadService.js:303 | Each element is a whole match: the marker, a non-empty run without `"`, and a closing `"`. Matches are found left to right, each search resuming after the previous match. |
| ScriptScan.MatchOccurs | src/services/threadService.js:303 | Every match is a piece of the script text it was found in. |
| ScriptScan.StripMatch | src/services/threadService.js:306 | The two `replace` calls, each rewriting only the first occurrence; `StripMatchIsCapture` states their effect on a match. |
| ScriptScan.StripMatchIsCapture | src/services/threadService.js:306 | The two `replace` calls reduce a whole match to exactly its captured group. |
| ScriptScan.VideoUrlsIn | src/services/threadService.js:300-311 | Every URL a script yields is non-empty and free of `"`. |
| ScriptScan.StripAll | src/services/threadService.js:305-308 | One URL per match, in order, each exactly the captured group of its match. |
| ScriptScan.VideoUrlsSound | src/services/threadService.js:300-311 | Every URL a script yields was written into it as `"video_url":"x"`. |
| ScriptScan.ScriptVideoUrlsSound | src/services/threadService.js:299-311 | Every URL the scripts yield was written as `"video_url":"x"` into one of them. |
| ScriptScan.MatchesSkip | src/services/threadService.js:303 | Script text in which no marker starts holds no match and does not change what is matched after it. |
| ScriptScan.ScanRoundTrip | src/services/threadService.js:300-311 | A script holding `"video_url":"x"` for each `x` in a list, in order, yields exactly that list, in order. This holds when no marker starts in the text before each occurrence, and the text after the last one holds no match. Separators of JSON keys and values such as `{"id":"1",` qualify (`JsonKeyIsMarkerFree`); an empty `"video_url":""` member does not (`EmptyVideoMemberNotMarkerFree`). |
| ScriptScan.EmptyVideoMemberNotMarkerFree | src/services/threadService.js:303 | A marker starts inside the JSON member `"video_url":""`, so it is not marker-free, although the pattern finds no match there. |
| ScriptScan.MarkerFreeBefore | src/services/threadService.js:303 | Text in which no marker starts keeps that property when a marker follows it. |
| ScriptScan.QuoteFreeIsMarkerFree | src/services/threadService.js:303 | Text without `"` is marker-free. |
| ScriptScan.MarkerFreeByQuotes | src/services/threadService.js:303 | Text is marker-free when no `"` in it is followed by `v`. |
| ScriptScan.JsonKeyIsMarkerFree | src/services/threadService.js:303 | The JSON text `{"id":"1",` is marker-free. |
| ScriptScan.JsonScriptScenario | src/services/threadService.js:300-311 | The JSON script `{"id":"1","video_url":"u"}` yields exactly `u`. |
| ScriptScan.NoMarkerNoUrls | src/services/threadService.js:303-304 | A script without `"video_url":"` yields no match. |
| ScriptScan.QuoteInTextMatters | src/services/threadService.js:303 | A `"` in the surrounding text can change what is read: `"video_url":"video_url":"x"` yields `video_url`, not `x`. |
| PageScan.PostImage | src/services/threadService.js:197-203 | The filter of image strategy 3: larger than 200 by 200, a `src`, no `profile_pic`, `avatar` or `icon` in it, no `emoji` in any case, and neither hidden nor `display: none`. |
| PageScan.PostBackground | src/services/threadService.js:213-219 | The filter of image strategy 4: a captured URL, larger than 200 by 200, with no `profile_pic` or `avatar` in it. |
| PageScan.ContainerImage | src/services/threadService.js:228-230 | The filter of image strategy 5: a `src` and larger than 150 by 150. |
| PageScan.EmojiRejectedInAnyCase | src/services/threadService.js:201 | An image whose URL contains `emoji` in any letter case is rejected. |
| PageScan.FilterImgs | src/services/threadService.js:192-206 | Every image in the document that passes the filter contributes its `src`, and there are no more URLs than images. |
| PageScan.FilterImgsOnlyKept | src/services/threadService.js:192-206 | Only images that pass the filter contribute. |
| PageScan.FilterImgsAppend | src/services/threadService.js:192-206 | The URLs of a document are those of its first part followed by those of the rest, so they come in document order. |
| PageScan.FilterImgsOne | src/services/threadService.js:197-204 | One image contributes its `src` exactly when it passes the filter. |
| PageScan.FilterBackgrounds | src/services/threadService.js:209-224 | Every large background that is not a profile picture or avatar contributes its URL, and there are no more URLs than backgrounds. |
| PageScan.FilterBackgroundsOnlyKept | src/services/threadService.js:209-224 | Only backgrounds that pass strategy 4's filter contribute. |
| PageScan.FilterBackgroundsAppend | src/services/threadService.js:209-224 | The URLs of a document are those of its first part followed by those of the rest, in document order. |
| PageScan.FilterBackgroundsOne | src/services/threadService.js:216-221 | One background contributes its URL exactly when it passes the filter. |
| PageScan.PlayButtonCandidates | src/services/threadService.js:272-288 | Each button offers two URLs, both to the video array. |
| PageScan.ImageUrlsOffered | src/services/threadService.js:178-311 | The URLs offered to the image array are those of image strategies 1 to 7 in that order, followed by the poster of each video in document order. |
| PageScan.ImageStrategyUrls | src/services/threadService.js:178-244 | Image strategies 1 to 7 offer their URLs to the image array, strategy after strategy, each in document order. |
| PageScan.VideoStrategyImages | src/services/threadService.js:246-311 | The only image the video strategies offer is each video's poster, one per video, in document order. |
| PageScan.VideoUrlsOffered | src/services/threadService.js:178-311 | The URLs offered to the video array are those of video strategies 1 to 6, in that order, each in document order: each video's `src` then its sources, the video sources, the `data-video-url` values, each button's two sources, the progress-bar videos, and the script URLs. |
| PageScan.VideoStrategyUrls | src/services/threadService.js:246-311 | Video strategies 1 to 6 offer exactly those URLs to the video array, strategy after strategy. |
| PageScan.OwnVideoUrls | src/services/threadService.js:249-258 | Every video's `src` is among the URLs strategy 1 offers to the video array. |
| PageScan.OwnVideos | src/services/threadService.js:249-258 | Strategy 1 offers to the video array each video's `src`, then its sources, video after video. |
| PageScan.ButtonUrls | src/services/threadService.js:272-288 | Strategy 4 offers two URLs per button. |
| PageScan.ButtonVideos | src/services/threadService.js:272-288 | Strategy 4 offers to the video array each button's nested video `src`, then its `data-media` source. |
| PageScan.ScriptUrlCollected | src/services/threadService.js:299-311 | The cleaned form of every URL a script yields is in the video array, unless it is a `data:` URL. |
| PageScan.ImageStrategiesOfferNoVideo | src/services/threadService.js:178-244 | The image strategies offer nothing to the video array. |
| PageScan.ScanSplits | src/services/threadService.js:140-311 | The image array and the video array evolve independently: each is the fold of `addUniqueUrl` over the URLs offered to it. |
| PageScan.ScanPage | src/services/threadService.js:140-316 | Both arrays are duplicate-free. Each holds exactly the cleaned URLs offered to it, in order of first discovery. |
| PageScan.PostImageCollected | src/services/threadService.js:192-206 | The cleaned URL of every image the post-image filter accepts ends up in the image array. |
| PageScan.OverlappingStrategiesStoreOnce | src/services/threadService.js:191-234 | An image accepted by strategy 3 that also sits in a media container is offered to the image array at least twice, yet its cleaned URL is stored exactly once. |
| ThreadService.IsErrorTitle | src/services/threadService.js:69-74 | A title is an error page when it contains `Page not found`, `Error` or `Content not available` anywhere; `ErrorPageIsNotFound` states the reply. |
| ThreadService.NormalizeUrl | src/services/threadService.js:328-330 | Only the first `threads.net` is rewritten to `threads.com`. The length is kept, and everything before and after that occurrence is untouched. A URL without `threads.net` is returned unchanged. |
| ThreadService.BuildResult | src/services/threadService.js:333-345 | The counts equal the array lengths, the total is their sum, and each result URL is the rewritten scanned URL at the same position. |
| ThreadService.Attempt | src/services/threadService.js:66-345 | A load error is rethrown. An error title throws "Thread not found or page error". A scan error is rethrown. "No media found in thread" is thrown exactly when both arrays are empty. A success has a positive total. |
| ThreadService.ExtractMediaFromThread | src/services/threadService.js:8-356 | A launch error is rethrown. Once the browser is up, an error while closing it replaces the outcome. A success always has a positive total. |
| ThreadService.RewriteMayDuplicate | src/services/threadService.js:327-339 | Two distinct scanned URLs can become one after the host rewrite, so the result is not promised duplicate-free. |
| ResultCache.Get | src/controllers/threadController.js:38 | A value is returned exactly when the key holds an entry whose expiry has not passed, and it is the stored value. |
| ResultCache.Put | src/controllers/threadController.js:52 | The key then holds the value with an expiry one hour later. The set of keys grows by that key only, and other entries are untouched. |
| ResultCache.GetAfterPut | src/controllers/threadController.js:5 | A value set at `t` is returned at every instant of the following hour. |
| ResultCache.ExpiredAfterTtl | src/controllers/threadController.js:5 | A value set at `t` is never returned after the hour is over. |
| ResultCache.PutOtherKey | src/controllers/threadController.js:52 | Setting one key leaves the reads of every other key unchanged. |
| ThreadController.CacheKeyInjective | src/controllers/threadController.js:37 | Distinct normalised URLs use distinct cache keys. |
| ThreadController.TryBlock | src/controllers/threadController.js:13-58 | A missing `url` gives 400 "Missing required parameter: url" and an unnormalisable one gives 400 "Invalid Threads URL format"; neither touches the cache or the extractor. A live entry is returned from the cache. The extractor runs at most once, only on a miss and only on the normalised URL. Only a live success writes the cache, and it writes that result. An extractor error leaves the cache as it was. |
| ThreadController.ErrorResponse | src/controllers/threadController.js:59-95 | The three not-found messages map to 404 "Thread not found or inaccessible", and "No media found in thread" maps to 404 "No media found in the thread". Every other message maps to 500 "Failed to extract media from thread". The data carries the URL, empty media with zero counts, and the message as `error_details`. |
| ThreadController.ExtractMedia | src/controllers/threadController.js:12-97 | With `url` in scope in the catch block, every request gets a JSON reply with status 200, 400, 404 or 500. The status is 200 exactly when media are returned. |
| ThreadController.ExtractMediaAsWritten | src/controllers/threadController.js:12-97 | As written, the handler rejects without a reply exactly when the extractor fails; its other replies are those of the try block. |
| ThreadController.ErrorRepliesNeverSent | src/controllers/threadController.js:59-95 | Every extractor error leaves the handler as written without a reply, where the corrected handler answers 404 or 500. |
| ThreadController.RepeatWithinTtlHitsCache | src/controllers/threadController.js:36-58 | On a cache miss, a successful extraction is answered live and cached. A request for the same normalised URL within the hour then gets the same data from the cache, without running the extractor and without changing the cache. |
| ThreadController.ExpiredEntryRunsExtractor | src/controllers/threadController.js:36-52 | After a live success, a request for the same URL more than an hour after the first request's `now` runs the extractor again. |
| ThreadController.FailureIsRetried | src/controllers/threadController.js:48-59 | An extractor failure on a cache miss is answered 404 or 500 and leaves the cache unchanged. A later request for the same URL then runs the extractor again. |
| ThreadController.CanonicalRequestTarget | src/controllers/threadController.js:26-37 | A request for a URL on the canonical host without query or fragment is keyed by the canonical form of its path. |
| ThreadController.ReplySharesPostEntry | src/controllers/threadController.js:36-46 | A reply URL is answered from the cache entry that its parent post's live extraction left, when the handle, the id and the reply segment are plain segments. |
| ThreadController.ServiceFailureReply | src/controllers/threadController.js:48-95 | On a cache miss, the service's failure message is the one the reply reports, and the cache is left alone. |
| ThreadController.ErrorPageIsNotFound | src/controllers/threadController.js:83-87 | A page with an error title is answered 404 "Thread not found or inaccessible" with the service's message as details, and nothing is cached. |
| ThreadController.EmptyPageIsNoMedia | src/controllers/threadController.js:89-93 | A page whose scan finds nothing is answered 404 "No media found in the thread", and nothing is cached. |
| ThreadController.BrowserErrorIsServerError | src/controllers/threadController.js:95 | A browser error with any other message is answered 500 "Failed to extract media from thread", carrying the message. |
| ThreadController.MediaPageIsCached | src/controllers/threadController.js:49-58 | A page with media is answered live with the built result, which is then readable from the cache. |

## Left out

- The browser itself is not modelled: launch, page set-up, navigation, the fixed waits, the debug screenshot and closing. Each appears only as its error message, or its absence, in `ThreadService.Session`.
- The readiness probes (`waitForSelector` over the selector list, and the `waitForFunction` fallback) are left out. Every failure is caught, so they never change the outcome.
- The five scroll steps are left out. Only their possible error is kept, as `scanError`.
- CSS selector matching is not modelled. The page is a record of what each selector returns, in document order.
- Rendered sizes are `real` numbers, standing in for the browser's floating-point sizes.
- The background-image regular expression is not modelled. The captured URL is an input of `BackgroundDiv`.
- The `data-media` JSON is an input: its `src`, or the empty string when the JSON is invalid or has no `src`.
- `toLowerCase` is modelled on ASCII letters only. No Unicode case mapping is done.
- The WHATWG URL parser is a parameter. `SimpleParse` is a reference parser used only in the lemmas. It covers `https://` URLs and reads the text as written. It does not lower-case the host, strip tabs and newlines, treat `\` as `/`, resolve `.` and `..` segments, percent-encode, or read user info and a port. The lemmas that name handles and ids therefore require plain segments (`ThreadsUrl.PlainSegment`), where none of these differences arises. The other lemmas that use `SimpleParse` state what happens under this reference parser only.
- Time is an integer number of milliseconds, not the ISO-8601 string of `toISOString()`.
- One request uses one `now` for both the cache lookup and the cache write. The time the extraction takes is not modelled.
- `node-cache`'s periodic eviction (`checkperiod`) and its cloning of values are left out. Expired entries only stop being returned.
- A `url` parameter that is not a string, such as a number or an array, is not modelled. It is a string or absent.
- Logging, the Express routing and the HTTP layer are left out. A reply is its status and body.
- Concurrency is not modelled. Requests are handled one after another against the cache.

## Findings

| source | as written | input that shows it | evidently intended | confidence | as-written member | corrected member |
|---|---|---|---|---|---|---|
| src/controllers/threadController.js:15-68 | `url` is declared with `const` inside the `try` block, but the `catch` block reads it to fill in `data.url`. That read throws a `ReferenceError` inside the `catch`, so the handler's promise rejects and the 404/500 replies of lines 83-95 are never sent. | any valid URL whose extraction fails, e.g. a post page titled "Page not found" | the catch block replies 404 or 500 with the mapped message and the request URL | high (not executed) | ThreadController.ExtractMediaAsWritten | ThreadController.ExtractMedia |
