/** `extractMediaFromThread`: the error-page check, the in-page scan, the
    "no media" check and the construction of the result. The browser
    session is an input: its errors, the page title and the rendered page. */
module ThreadService {
  import opened Wrappers
  import opened Strings
  import opened MediaCollector
  import opened PageScan

  /** Thrown when the page title shows an error page. */
  const PageErrorMessage := "Thread not found or page error"
  /** Thrown when the scan finds neither images nor videos. */
  const NoMediaMessage := "No media found in thread"

  datatype Count = Count(images: nat, videos: nat, total: nat)
  datatype Media = Media(images: seq<string>, videos: seq<string>, count: Count)

  /** The result object: the post URL, the time of extraction (ms) and the
      media lists with their counts. */
  datatype MediaResult = MediaResult(url: string, timestamp: int, media: Media)

  /** What the browser session yields for one extraction. */
  datatype Session = Session(
    // the message thrown by launching the browser
    launchError: Option<string>,
    // the message thrown by opening the page, configuring it, navigating,
    // waiting, the screenshot or reading the title
    loadError: Option<string>,
    title: string,
    // the message thrown by a scroll or by the in-page evaluation
    scanError: Option<string>,
    page: Page,
    // the message thrown by closing the browser in the `finally` block
    closeError: Option<string>)

  /** The page title marks an error or not-found page. */
  predicate IsErrorTitle(title: string) {
    Contains(title, "Page not found") || Contains(title, "Error") || Contains(title, "Content not available")
  }

  /** `url.replace('threads.net', 'threads.com')`: only the first
      occurrence is rewritten. */
  function NormalizeUrl(url: string): (r: string)
    ensures |r| == |url|
    ensures !Contains(url, "threads.net") ==> r == url
    ensures Contains(url, "threads.net") ==>
      var i := IndexOf(url, "threads.net").value;
      && r[..i] == url[..i]
      && r[i..i + 11] == "threads.com"
      && r[i + 11..] == url[i + 11..]
  {
    ReplaceFirst(url, "threads.net", "threads.com")
  }

  function NormalizeAll(urls: seq<string>): (r: seq<string>)
    ensures |r| == |urls|
    ensures forall i :: 0 <= i < |urls| ==> r[i] == NormalizeUrl(urls[i])
  {
    seq(|urls|, i requires 0 <= i < |urls| => NormalizeUrl(urls[i]))
  }

  /** The result object built from the scanned arrays. */
  function BuildResult(url: string, now: int, found: Found): (r: MediaResult)
    ensures r.url == NormalizeUrl(url) && r.timestamp == now
    ensures |r.media.images| == |found.images| == r.media.count.images
    ensures |r.media.videos| == |found.videos| == r.media.count.videos
    ensures r.media.count.total == r.media.count.images + r.media.count.videos
    ensures forall i :: 0 <= i < |found.images| ==> r.media.images[i] == NormalizeUrl(found.images[i])
    ensures forall i :: 0 <= i < |found.videos| ==> r.media.videos[i] == NormalizeUrl(found.videos[i])
  {
    MediaResult(
      NormalizeUrl(url),
      now,
      Media(
        NormalizeAll(found.images),
        NormalizeAll(found.videos),
        Count(|found.images|, |found.videos|, |found.images| + |found.videos|)))
  }

  /** The `try` block of `extractMediaFromThread(url)`, once the browser
      is up. The URL is rewritten once on entry and once more when the
      result is built. */
  function Attempt(url: string, session: Session, now: int): (r: Result<MediaResult, string>)
    ensures session.loadError.Some? ==> r == Failure(session.loadError.value)
    ensures session.loadError.None? && IsErrorTitle(session.title) ==> r == Failure(PageErrorMessage)
    ensures session.loadError.None? && !IsErrorTitle(session.title) && session.scanError.Some? ==>
      r == Failure(session.scanError.value)
    ensures r.Success? ==>
      && session.loadError.None? && !IsErrorTitle(session.title) && session.scanError.None?
      && r.value == BuildResult(NormalizeUrl(url), now, ScanPage(session.page))
      && r.value.media.count.total > 0
    ensures session.loadError.None? && !IsErrorTitle(session.title) && session.scanError.None? ==>
      (r == Failure(NoMediaMessage) <==> ScanPage(session.page) == Found([], []))
  {
    var target := NormalizeUrl(url);
    if session.loadError.Some? then Failure(session.loadError.value)
    else if IsErrorTitle(session.title) then Failure(PageErrorMessage)
    else if session.scanError.Some? then Failure(session.scanError.value)
    else
      var found := ScanPage(session.page);
      if |found.images| == 0 && |found.videos| == 0 then Failure(NoMediaMessage)
      else Success(BuildResult(target, now, found))
  }

  /** `extractMediaFromThread(url)`: a failed launch is rethrown; once the
      browser is up, the `finally` block closes it, and an error thrown by
      closing replaces whatever the `try` block produced. */
  function ExtractMediaFromThread(url: string, session: Session, now: int): (r: Result<MediaResult, string>)
    ensures session.launchError.Some? ==> r == Failure(session.launchError.value)
    ensures session.launchError.None? && session.closeError.Some? ==> r == Failure(session.closeError.value)
    ensures session.launchError.None? && session.closeError.None? ==> r == Attempt(url, session, now)
    ensures r.Success? ==> r.value.media.count.total > 0
  {
    if session.launchError.Some? then Failure(session.launchError.value)
    else
      var attempt := Attempt(url, session, now);
      if session.closeError.Some? then Failure(session.closeError.value) else attempt
  }

  /** The host rewrite can turn two distinct scanned URLs into one: the
      final lists are not promised to be duplicate-free. */
  lemma RewriteMayDuplicate()
    ensures var found := Found(["threads.net", "threads.com"], []);
      && NoDup(found.images)
      && !NoDup(BuildResult("", 0, found).media.images)
  {
    var a, b := "threads.net", "threads.com";
    assert StartsWith(a, a);
    assert NormalizeUrl(a) == b;
    assert !Contains(b, a);
    var r := BuildResult("", 0, Found([a, b], []));
    assert r.media.images[0] == r.media.images[1];
  }
}
