/** The `extractMedia` request handler: read the `url` parameter, validate
    and normalise it, answer from the cache when a live entry exists, else
    run the extractor, cache a success, and turn an extractor error into a
    404 or 500 reply. The extractor and the clock are inputs; the cache is
    threaded through explicitly. */
module ThreadController {
  import opened Wrappers
  import opened ThreadsUrl
  import opened ThreadService
  import opened ResultCache
  import opened Strings
  import opened PageScan

  /** The incoming request: its method and the `url` of the JSON body and
      of the query string (absent when not sent). */
  datatype Request = Request(httpMethod: string, bodyUrl: Option<string>, queryUrl: Option<string>)

  /** The body's `url` for POST, the query's for every other method. */
  function RequestUrl(req: Request): Option<string> {
    if req.httpMethod == "POST" then req.bodyUrl else req.queryUrl
  }

  /** `!url`: absent or the empty string. */
  predicate Missing(url: Option<string>) {
    url.None? || url.value == ""
  }

  const MissingUrlMessage := "Missing required parameter: url"
  const InvalidUrlMessage := "Invalid Threads URL format"
  /** Extractor messages that the catch block reports as an inaccessible thread. */
  const NotFoundMessages: set<string> := {"Failed to fetch thread", "Thread not found", PageErrorMessage}
  const NotFoundReply := "Thread not found or inaccessible"
  const NoMediaReply := "No media found in the thread"
  const FailedReply := "Failed to extract media from thread"
  /** What the catch block throws when it reads `url`, which is scoped to
      the `try` block. */
  const ReferenceErrorMessage := "url is not defined"

  datatype Source = FromCache | FromLive

  /** The `data` of an error reply: the requested URL, the time, empty
      media with zero counts, and the extractor's message. */
  datatype ErrorData = ErrorData(url: string, timestamp: int, media: Media, errorDetails: string)

  datatype Body =
    | BadRequest(message: string)
    | Extracted(source: Source, data: MediaResult)
    | ExtractionFailed(message: string, errorData: ErrorData)

  /** A JSON reply with its status, or a rejected handler promise. */
  datatype Response = Json(status: int, body: Body) | Rejected(reason: string)

  /** How the `try` block ends: with a reply, or with the extractor's error
      reaching the `catch` block. */
  datatype Exit = Responded(response: Response) | Threw(message: string)

  datatype Flow = Flow(exit: Exit, cache: Cache<MediaResult>, extractorCalls: seq<string>)

  /** What one request does: the reply, the cache afterwards and the URLs
      handed to the extractor. */
  datatype Outcome = Outcome(response: Response, cache: Cache<MediaResult>, extractorCalls: seq<string>)

  const EmptyMedia := Media([], [], Count(0, 0, 0))

  /** The cache key of a normalised URL. */
  function CacheKey(n: string): string {
    "thread:" + n
  }

  /** Distinct normalised URLs have distinct cache entries. */
  lemma CacheKeyInjective(a: string, b: string)
    requires CacheKey(a) == CacheKey(b)
    ensures a == b
  {
    assert a == CacheKey(a)[7..];
    assert b == CacheKey(b)[7..];
  }

  /** The normalised URL of a request whose `url` is present. */
  function Target(req: Request, parse: string -> Option<Url>): Option<string> {
    if Missing(RequestUrl(req)) then None else NormalizeThreadsUrl(RequestUrl(req).value, parse)
  }

  /** The `try` block of `extractMedia`. */
  function TryBlock(req: Request, parse: string -> Option<Url>, extract: string -> Result<MediaResult, string>,
                    cache: Cache<MediaResult>, now: int): (f: Flow)
    ensures Missing(RequestUrl(req)) ==>
      f == Flow(Responded(Json(400, BadRequest(MissingUrlMessage))), cache, [])
    ensures !Missing(RequestUrl(req)) && Target(req, parse).None? ==>
      f == Flow(Responded(Json(400, BadRequest(InvalidUrlMessage))), cache, [])
    ensures Target(req, parse).Some? && Live(cache, CacheKey(Target(req, parse).value), now) ==>
      f == Flow(Responded(Json(200, Extracted(FromCache, cache[CacheKey(Target(req, parse).value)].value))), cache, [])
    // the extractor runs at most once, on the normalised URL, and only on a miss
    ensures f.extractorCalls != [] ==>
      && Target(req, parse).Some?
      && f.extractorCalls == [Target(req, parse).value]
      && !Live(cache, CacheKey(Target(req, parse).value), now)
    ensures Target(req, parse).Some? && !Live(cache, CacheKey(Target(req, parse).value), now) ==>
      f.extractorCalls == [Target(req, parse).value]
    // only a live success writes the cache, and it writes that result
    ensures f.cache != cache ==>
      var n := Target(req, parse).value;
      && f.extractorCalls == [n]
      && extract(n).Success?
      && f.cache == Put(cache, CacheKey(n), extract(n).value, now)
    ensures f.exit.Responded? && f.exit.response.Json? && f.exit.response.body.Extracted? && f.exit.response.body.source == FromLive ==>
      var n := Target(req, parse).value;
      && f.extractorCalls == [n]
      && extract(n) == Success(f.exit.response.body.data)
      && f.cache == Put(cache, CacheKey(n), extract(n).value, now)
    // an extractor error leaves the cache as it was
    ensures f.exit.Threw? ==>
      && f.cache == cache
      && |f.extractorCalls| == 1
      && extract(f.extractorCalls[0]) == Failure(f.exit.message)
    ensures f.exit.Responded? ==> f.exit.response.Json? && f.exit.response.status in {200, 400}
  {
    var url := RequestUrl(req);
    if Missing(url) then
      Flow(Responded(Json(400, BadRequest(MissingUrlMessage))), cache, [])
    else
      match NormalizeThreadsUrl(url.value, parse)
      case None => Flow(Responded(Json(400, BadRequest(InvalidUrlMessage))), cache, [])
      case Some(n) =>
        var key := CacheKey(n);
        match Get(cache, key, now)
        case Some(v) => Flow(Responded(Json(200, Extracted(FromCache, v))), cache, [])
        case None =>
          match extract(n)
          case Success(media) =>
            var c := Put(cache, key, media, now);
            assert key in c;
            Flow(Responded(Json(200, Extracted(FromLive, media))), c, [n])
          case Failure(m) => Flow(Threw(m), cache, [n])
  }

  /** The `catch` block with `url` in scope: known messages become 404
      replies, every other message a 500 reply. */
  function ErrorResponse(message: string, url: string, now: int): (r: Response)
    ensures r.Json? && r.body.ExtractionFailed?
    ensures r.status == 404 <==> message in NotFoundMessages || message == NoMediaMessage
    ensures r.status == 500 <==> message !in NotFoundMessages && message != NoMediaMessage
    ensures r.body.message == NotFoundReply <==> message in NotFoundMessages
    ensures r.body.message == NoMediaReply <==> message == NoMediaMessage
    ensures r.body.message == FailedReply <==> r.status == 500
    ensures r.body.errorData == ErrorData(if url == "" then "unknown" else url, now, EmptyMedia, message)
  {
    var data := ErrorData(if url == "" then "unknown" else url, now, EmptyMedia, message);
    if message in NotFoundMessages then
      Json(404, ExtractionFailed(NotFoundReply, data))
    else if message == NoMediaMessage then
      Json(404, ExtractionFailed(NoMediaReply, data))
    else
      Json(500, ExtractionFailed(FailedReply, data))
  }

  /** `extractMedia` with `url` declared before the `try` block, so that
      the `catch` block can reply. */
  function ExtractMedia(req: Request, parse: string -> Option<Url>, extract: string -> Result<MediaResult, string>,
                        cache: Cache<MediaResult>, now: int): (o: Outcome)
    ensures var f := TryBlock(req, parse, extract, cache, now);
      && o.cache == f.cache
      && o.extractorCalls == f.extractorCalls
      && (f.exit.Responded? ==> o.response == f.exit.response)
      && (f.exit.Threw? ==> o.response == ErrorResponse(f.exit.message, RequestUrl(req).value, now))
    // every request is answered
    ensures o.response.Json? && o.response.status in {200, 400, 404, 500}
    ensures o.response.status == 200 <==> o.response.body.Extracted?
  {
    var f := TryBlock(req, parse, extract, cache, now);
    match f.exit
    case Responded(r) => Outcome(r, f.cache, f.extractorCalls)
    case Threw(m) => Outcome(ErrorResponse(m, RequestUrl(req).value, now), f.cache, f.extractorCalls)
  }

  /** `extractMedia` as written: the `catch` block reads `url`, which was
      declared inside the `try` block, so it throws in turn and the
      handler's promise rejects without a reply. */
  function ExtractMediaAsWritten(req: Request, parse: string -> Option<Url>, extract: string -> Result<MediaResult, string>,
                                 cache: Cache<MediaResult>, now: int): (o: Outcome)
    ensures var f := TryBlock(req, parse, extract, cache, now);
      && o.cache == f.cache
      && o.extractorCalls == f.extractorCalls
      && (f.exit.Responded? ==> o.response == f.exit.response)
      && (f.exit.Threw? ==> o.response == Rejected(ReferenceErrorMessage))
    ensures o.response.Rejected? <==> TryBlock(req, parse, extract, cache, now).exit.Threw?
  {
    var f := TryBlock(req, parse, extract, cache, now);
    match f.exit
    case Responded(r) => Outcome(r, f.cache, f.extractorCalls)
    case Threw(_) => Outcome(Rejected(ReferenceErrorMessage), f.cache, f.extractorCalls)
  }

  /** Every extractor error leaves the handler as written without a reply,
      where the corrected handler answers 404 or 500. */
  lemma ErrorRepliesNeverSent(req: Request, parse: string -> Option<Url>, extract: string -> Result<MediaResult, string>,
                              cache: Cache<MediaResult>, now: int)
    requires Target(req, parse).Some?
    requires !Live(cache, CacheKey(Target(req, parse).value), now)
    requires extract(Target(req, parse).value).Failure?
    ensures ExtractMediaAsWritten(req, parse, extract, cache, now).response == Rejected(ReferenceErrorMessage)
    ensures ExtractMedia(req, parse, extract, cache, now).response.status in {404, 500}
  {
    var f := TryBlock(req, parse, extract, cache, now);
    assert f.extractorCalls == [Target(req, parse).value];
  }

  // ---------------------------------------------------------------------
  // Caching across requests

  /** A live result answers every request for the same normalised URL from
      the cache for the next hour, without running the extractor. */
  lemma RepeatWithinTtlHitsCache(req1: Request, req2: Request, parse: string -> Option<Url>,
                                 extract1: string -> Result<MediaResult, string>,
                                 extract2: string -> Result<MediaResult, string>,
                                 cache: Cache<MediaResult>, t1: int, t2: int)
    requires Target(req1, parse).Some?
    requires !Live(cache, CacheKey(Target(req1, parse).value), t1)
    requires extract1(Target(req1, parse).value).Success?
    requires Target(req2, parse) == Target(req1, parse)
    requires t1 <= t2 <= t1 + TtlMillis
    ensures var v := extract1(Target(req1, parse).value).value;
      var first := ExtractMedia(req1, parse, extract1, cache, t1);
      var second := ExtractMedia(req2, parse, extract2, first.cache, t2);
      && first.response == Json(200, Extracted(FromLive, v))
      && second == Outcome(Json(200, Extracted(FromCache, v)), first.cache, [])
  {
    var n := Target(req1, parse).value;
    var v := extract1(n).value;
    var f := TryBlock(req1, parse, extract1, cache, t1);
    assert f.extractorCalls == [n];
    assert f.exit == Responded(Json(200, Extracted(FromLive, v)));
    GetAfterPut(cache, CacheKey(n), v, t1, t2);
  }

  /** Once the hour is over, the same URL runs the extractor again. */
  lemma ExpiredEntryRunsExtractor(req1: Request, req2: Request, parse: string -> Option<Url>,
                                  extract1: string -> Result<MediaResult, string>,
                                  extract2: string -> Result<MediaResult, string>,
                                  cache: Cache<MediaResult>, t1: int, t2: int)
    requires Target(req1, parse).Some?
    requires !Live(cache, CacheKey(Target(req1, parse).value), t1)
    requires extract1(Target(req1, parse).value).Success?
    requires Target(req2, parse) == Target(req1, parse)
    requires t2 > t1 + TtlMillis
    ensures var first := ExtractMedia(req1, parse, extract1, cache, t1);
      ExtractMedia(req2, parse, extract2, first.cache, t2).extractorCalls == [Target(req1, parse).value]
  {
    var n := Target(req1, parse).value;
    var v := extract1(n).value;
    var f := TryBlock(req1, parse, extract1, cache, t1);
    assert f.extractorCalls == [n];
    assert f.cache == Put(cache, CacheKey(n), v, t1);
    ExpiredAfterTtl(cache, CacheKey(n), v, t1, t2);
  }

  /** Failures are not cached: the reply is an error, the cache is as it
      was, and a later request for the same URL runs the extractor again. */
  lemma FailureIsRetried(req1: Request, req2: Request, parse: string -> Option<Url>,
                         extract1: string -> Result<MediaResult, string>,
                         extract2: string -> Result<MediaResult, string>,
                         cache: Cache<MediaResult>, t1: int, t2: int)
    requires Target(req1, parse).Some?
    requires !Live(cache, CacheKey(Target(req1, parse).value), t1)
    requires extract1(Target(req1, parse).value).Failure?
    requires Target(req2, parse) == Target(req1, parse)
    requires t1 <= t2
    ensures var first := ExtractMedia(req1, parse, extract1, cache, t1);
      && first.response.status in {404, 500}
      && first.cache == cache
      && ExtractMedia(req2, parse, extract2, first.cache, t2).extractorCalls == [Target(req1, parse).value]
  {
    var n := Target(req1, parse).value;
    var f := TryBlock(req1, parse, extract1, cache, t1);
    assert f.extractorCalls == [n];
    assert !Live(cache, CacheKey(n), t2);
  }

  /** A GET request carrying `url` in its query string. */
  function GetRequest(url: string): Request {
    Request("GET", None, Some(url))
  }

  /** A canonical-host URL without query or fragment is keyed by the
      canonical form of its path. */
  lemma CanonicalRequestTarget(path: string)
    requires path != "" && path[0] == '/'
    requires Avoids(path, PathStops)
    ensures Target(GetRequest(Scheme + CanonicalHost + path), SimpleParse) == CanonicalFromPath(path)
  {
    HostsAvoidDelimiters(CanonicalHost);
    SimpleParseParts(CanonicalHost, path, "");
    assert Scheme + CanonicalHost + path + "" == Scheme + CanonicalHost + path;
    assert CanonicalHost in CanonicalHosts;
  }

  /** A reply URL is answered from the entry its parent post left in the
      cache. */
  lemma ReplySharesPostEntry(handle: string, id: string, other: string,
                             extract1: string -> Result<MediaResult, string>,
                             extract2: string -> Result<MediaResult, string>,
                             cache: Cache<MediaResult>, t1: int, t2: int)
    requires StartsWith(handle, "@") && PlainSegment(handle)
    requires PlainSegment(id) && PlainSegment(other)
    requires extract1(PostLink(handle, id)).Success?
    requires !Live(cache, CacheKey(PostLink(handle, id)), t1)
    requires t1 <= t2 <= t1 + TtlMillis
    ensures var post := GetRequest(Scheme + CanonicalHost + ("/" + handle + "/post/" + id));
      var reply := GetRequest(Scheme + CanonicalHost + ("/" + handle + "/post/" + id + "/reply/" + other));
      var first := ExtractMedia(post, SimpleParse, extract1, cache, t1);
      ExtractMedia(reply, SimpleParse, extract2, first.cache, t2).response
        == Json(200, Extracted(FromCache, extract1(PostLink(handle, id)).value))
  {
    PlainSegmentIsSegment(handle);
    PlainSegmentIsSegment(id);
    PlainSegmentIsSegment(other);
    var path := "/" + handle + "/post/" + id;
    var replyPath := "/" + handle + "/post/" + id + "/reply/" + other;
    var post := GetRequest(Scheme + CanonicalHost + path);
    var reply := GetRequest(Scheme + CanonicalHost + replyPath);
    assert Avoids(path, PathStops);
    assert Avoids(replyPath, PathStops);
    CanonicalRequestTarget(path);
    CanonicalRequestTarget(replyPath);
    ReplyAndCommentShareParent(handle, id, other);
    var n := PostLink(handle, id);
    assert Target(post, SimpleParse) == Some(n);
    assert Target(reply, SimpleParse) == Some(n);
    RepeatWithinTtlHitsCache(post, reply, SimpleParse, extract1, extract2, cache, t1, t2);
  }

  // ---------------------------------------------------------------------
  // The handler over the browser extractor

  /** The extractor of `threadService` for one browser session and clock. */
  function Service(session: Session, t: int): string -> Result<MediaResult, string> {
    u => ExtractMediaFromThread(u, session, t)
  }

  /** A session that gets as far as the page title. */
  predicate Loaded(session: Session) {
    session.launchError.None? && session.loadError.None? && session.closeError.None?
  }

  /** An error page is reported as an inaccessible thread (404). */
  lemma ErrorPageIsNotFound(req: Request, parse: string -> Option<Url>, session: Session,
                            cache: Cache<MediaResult>, now: int, t: int)
    requires Target(req, parse).Some? && !Live(cache, CacheKey(Target(req, parse).value), now)
    requires Loaded(session) && IsErrorTitle(session.title)
    ensures var o := ExtractMedia(req, parse, Service(session, t), cache, now);
      && o.response.status == 404
      && o.response.body == ExtractionFailed(NotFoundReply, ErrorData(RequestUrl(req).value, now, EmptyMedia, PageErrorMessage))
      && o.cache == cache
  {
    var n := Target(req, parse).value;
    assert ExtractMediaFromThread(n, session, t) == Failure(PageErrorMessage);
    ServiceFailureReply(req, parse, session, cache, now, t, PageErrorMessage);
    assert PageErrorMessage in NotFoundMessages;
  }

  /** Whatever message the extractor fails with on a cache miss is the
      one the reply reports, and the cache is left alone. */
  lemma ServiceFailureReply(req: Request, parse: string -> Option<Url>, session: Session,
                            cache: Cache<MediaResult>, now: int, t: int, m: string)
    requires Target(req, parse).Some? && !Live(cache, CacheKey(Target(req, parse).value), now)
    requires ExtractMediaFromThread(Target(req, parse).value, session, t) == Failure(m)
    ensures var o := ExtractMedia(req, parse, Service(session, t), cache, now);
      && o.response == ErrorResponse(m, RequestUrl(req).value, now)
      && o.cache == cache
  {
    var n := Target(req, parse).value;
    assert Service(session, t)(n) == Failure(m);
    var f := TryBlock(req, parse, Service(session, t), cache, now);
    assert f.extractorCalls == [n];
  }

  /** A page whose scan finds nothing is reported as a 404 without media. */
  lemma EmptyPageIsNoMedia(req: Request, parse: string -> Option<Url>, session: Session,
                           cache: Cache<MediaResult>, now: int, t: int)
    requires Target(req, parse).Some? && !Live(cache, CacheKey(Target(req, parse).value), now)
    requires Loaded(session) && !IsErrorTitle(session.title) && session.scanError.None?
    requires ScanPage(session.page) == Found([], [])
    ensures var o := ExtractMedia(req, parse, Service(session, t), cache, now);
      && o.response.status == 404
      && o.response.body.message == NoMediaReply
      && o.cache == cache
  {
    var n := Target(req, parse).value;
    assert ExtractMediaFromThread(n, session, t) == Failure(NoMediaMessage);
    ServiceFailureReply(req, parse, session, cache, now, t, NoMediaMessage);
  }

  /** A browser error with its own message (a navigation timeout, say) is
      reported as a 500, carrying the message in `error_details`. */
  lemma BrowserErrorIsServerError(req: Request, parse: string -> Option<Url>, session: Session,
                                  cache: Cache<MediaResult>, now: int, t: int)
    requires Target(req, parse).Some? && !Live(cache, CacheKey(Target(req, parse).value), now)
    requires session.launchError.None? && session.closeError.None? && session.loadError.Some?
    requires session.loadError.value !in NotFoundMessages && session.loadError.value != NoMediaMessage
    ensures var o := ExtractMedia(req, parse, Service(session, t), cache, now);
      && o.response.status == 500
      && o.response.body.message == FailedReply
      && o.response.body.errorData.errorDetails == session.loadError.value
  {
    var n := Target(req, parse).value;
    assert ExtractMediaFromThread(n, session, t) == Failure(session.loadError.value);
    ServiceFailureReply(req, parse, session, cache, now, t, session.loadError.value);
  }

  /** A page with media is answered live and its result cached. */
  lemma MediaPageIsCached(req: Request, parse: string -> Option<Url>, session: Session,
                          cache: Cache<MediaResult>, now: int, t: int)
    requires Target(req, parse).Some? && !Live(cache, CacheKey(Target(req, parse).value), now)
    requires Loaded(session) && !IsErrorTitle(session.title) && session.scanError.None?
    requires ScanPage(session.page) != Found([], [])
    ensures var n := Target(req, parse).value;
      var o := ExtractMedia(req, parse, Service(session, t), cache, now);
      var v := BuildResult(NormalizeUrl(n), t, ScanPage(session.page));
      && o.response == Json(200, Extracted(FromLive, v))
      && Get(o.cache, CacheKey(n), now) == Some(v)
      && v.media.count.total > 0
  {
    var n := Target(req, parse).value;
    var found := ScanPage(session.page);
    assert |found.images| > 0 || |found.videos| > 0;
    assert Service(session, t)(n) == Success(BuildResult(NormalizeUrl(n), t, found));
  }
}
