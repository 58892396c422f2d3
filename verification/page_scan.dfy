/** The in-page media scan: the rendered document as abstract element
    records, the filters each discovery strategy applies, and the scan as a
    fold of `addUniqueUrl` over the URLs the strategies discover, in the
    order the extraction script visits them. */
module PageScan {
  import opened Strings
  import opened MediaCollector
  import opened ScriptScan

  /** The inline `style.display` and `style.visibility` of an element. */
  datatype Style = Style(display: string, visibility: string)

  /** An `<img>`: its `src` (empty when absent), its rendered size from
      `getBoundingClientRect`, and its inline style. */
  datatype Img = Img(src: string, width: real, height: real, style: Style)

  /** A `div` with a `background-image` style: the URL captured from the
      style (empty when nothing was captured) and its rendered size. */
  datatype BackgroundDiv = BackgroundDiv(url: string, width: real, height: real)

  /** A `<video>`: `src`, `poster` and the `src` of each nested `<source>`. */
  datatype Video = Video(src: string, poster: string, sources: seq<string>)

  /** A video or play button: the `src` of its first nested `<video>` and
      the `src` field of its parsed `data-media` attribute (empty when absent
      or unparsable). */
  datatype PlayButton = PlayButton(videoSrc: string, dataMediaSrc: string)

  /** What each selector of the extraction script finds, in document order. */
  datatype Page = Page(
    mediaImages: seq<string>,         // src of [data-visualcompletion="media-vc-image"]
    labelledImages: seq<string>,      // src of the first img of photo/image-labelled containers
    imgs: seq<Img>,                   // every img
    backgrounds: seq<BackgroundDiv>,  // div[style*="background-image"]
    containerImgs: seq<Img>,          // div[role="presentation"] img, article img
    tabpanelImages: seq<string>,      // src of div[role="tabpanel"] img
    classImages: seq<string>,         // src of div._acss img, div._aagu img, div._aagv img
    videos: seq<Video>,               // every video
    videoSources: seq<string>,        // src of source[type^="video/"]
    dataVideoUrls: seq<string>,       // data-video-url of [data-video-url], [data-video-id]
    playButtons: seq<PlayButton>,     // [role="button"][aria-label*="video"], [aria-label*="Play"]
    progressbarVideos: seq<string>,   // src of the video beside each div[role="progressbar"]
    scripts: seq<string>)             // textContent of every script

  /** Minimum rendered width and height of a post image or background. */
  const MinPostSize: real := 200.0
  /** Minimum rendered width and height inside media containers. */
  const MinContainerSize: real := 150.0

  /** Strategy 3: a large, visible image that is not an avatar, icon or emoji. */
  predicate PostImage(img: Img) {
    && img.width > MinPostSize && img.height > MinPostSize
    && img.src != ""
    && !Contains(img.src, "profile_pic")
    && !Contains(img.src, "avatar")
    && !Contains(img.src, "icon")
    && !Contains(ToLower(img.src), "emoji")
    && img.style.display != "none"
    && img.style.visibility != "hidden"
  }

  /** Strategy 4: a captured URL on a large element, not a profile picture
      or avatar. */
  predicate PostBackground(bg: BackgroundDiv) {
    && bg.url != ""
    && bg.width > MinPostSize && bg.height > MinPostSize
    && !Contains(bg.url, "profile_pic")
    && !Contains(bg.url, "avatar")
  }

  /** Strategy 5: an image with a source, larger than the container threshold. */
  predicate ContainerImage(img: Img) {
    img.src != "" && img.width > MinContainerSize && img.height > MinContainerSize
  }

  /** An emoji image is rejected whatever the case of `emoji` in its URL. */
  lemma EmojiRejectedInAnyCase(img: Img, word: string)
    requires ToLower(word) == "emoji"
    requires Contains(img.src, word)
    ensures !PostImage(img)
  {
    ContainsLowerOf(img.src, word);
  }

  // ---------------------------------------------------------------------
  // Candidates

  /** Which array a discovered URL is offered to. */
  datatype Kind = ImageKind | VideoKind

  datatype Candidate = Candidate(kind: Kind, url: string)

  /** The `src` of each image the filter keeps, in document order. */
  function FilterImgs(imgs: seq<Img>, keep: Img -> bool): (r: seq<string>)
    ensures |r| <= |imgs|
    ensures forall img :: img in imgs && keep(img) ==> img.src in r
  {
    if imgs == [] then []
    else (if keep(imgs[0]) then [imgs[0].src] else []) + FilterImgs(imgs[1..], keep)
  }

  /** Only the images the filter keeps contribute. */
  lemma {:induction false} FilterImgsOnlyKept(imgs: seq<Img>, keep: Img -> bool, u: string)
    requires u in FilterImgs(imgs, keep)
    ensures exists img :: img in imgs && keep(img) && img.src == u
    decreases |imgs|
  {
    if !(keep(imgs[0]) && imgs[0].src == u) {
      FilterImgsOnlyKept(imgs[1..], keep, u);
    }
  }

  /** Filtering a document is filtering its parts, in order. */
  lemma {:induction false} FilterImgsAppend(a: seq<Img>, b: seq<Img>, keep: Img -> bool)
    ensures FilterImgs(a + b, keep) == FilterImgs(a, keep) + FilterImgs(b, keep)
    decreases |a|
  {
    if a == [] {
      assert a + b == b;
    } else {
      var ab := a + b;
      assert ab[0] == a[0] && ab[1..] == a[1..] + b;
      var head := if keep(a[0]) then [a[0].src] else [];
      assert FilterImgs(ab, keep) == head + FilterImgs(ab[1..], keep);
      assert FilterImgs(a, keep) == head + FilterImgs(a[1..], keep);
      FilterImgsAppend(a[1..], b, keep);
    }
  }

  /** One image contributes its `src` exactly when the filter keeps it. */
  lemma FilterImgsOne(img: Img, keep: Img -> bool)
    ensures FilterImgs([img], keep) == if keep(img) then [img.src] else []
  {
    assert [img][1..] == [];
  }

  /** The URL of each large background that is not a profile picture or
      avatar, in document order. */
  function FilterBackgrounds(bgs: seq<BackgroundDiv>): (r: seq<string>)
    ensures |r| <= |bgs|
    ensures forall bg :: bg in bgs && PostBackground(bg) ==> bg.url in r
  {
    if bgs == [] then []
    else (if PostBackground(bgs[0]) then [bgs[0].url] else []) + FilterBackgrounds(bgs[1..])
  }

  /** Only the backgrounds strategy 4 accepts contribute. */
  lemma {:induction false} FilterBackgroundsOnlyKept(bgs: seq<BackgroundDiv>, u: string)
    requires u in FilterBackgrounds(bgs)
    ensures exists bg :: bg in bgs && PostBackground(bg) && bg.url == u
    decreases |bgs|
  {
    if !(PostBackground(bgs[0]) && bgs[0].url == u) {
      FilterBackgroundsOnlyKept(bgs[1..], u);
    }
  }

  lemma {:induction false} FilterBackgroundsAppend(a: seq<BackgroundDiv>, b: seq<BackgroundDiv>)
    ensures FilterBackgrounds(a + b) == FilterBackgrounds(a) + FilterBackgrounds(b)
    decreases |a|
  {
    if a == [] {
      assert a + b == b;
    } else {
      assert (a + b)[0] == a[0] && (a + b)[1..] == a[1..] + b;
      FilterBackgroundsAppend(a[1..], b);
    }
  }

  lemma FilterBackgroundsOne(bg: BackgroundDiv)
    ensures FilterBackgrounds([bg]) == if PostBackground(bg) then [bg.url] else []
  {
    assert [bg][1..] == [];
  }

  function Offer(kind: Kind, urls: seq<string>): (r: seq<Candidate>)
    ensures |r| == |urls|
    ensures forall i :: 0 <= i < |r| ==> r[i] == Candidate(kind, urls[i])
  {
    seq(|urls|, i requires 0 <= i < |urls| => Candidate(kind, urls[i]))
  }

  /** One video: its `src` as a video, its `poster` as an image, then its
      nested sources as videos. */
  function VideoCandidates(vs: seq<Video>): seq<Candidate> {
    if vs == [] then []
    else
      [Candidate(VideoKind, vs[0].src), Candidate(ImageKind, vs[0].poster)]
      + Offer(VideoKind, vs[0].sources)
      + VideoCandidates(vs[1..])
  }

  /** One button: the `src` of its nested video, then its `data-media` source. */
  function PlayButtonCandidates(bs: seq<PlayButton>): (r: seq<Candidate>)
    ensures |r| == 2 * |bs|
    ensures forall i :: 0 <= i < |r| ==> r[i].kind == VideoKind
  {
    if bs == [] then []
    else
      [Candidate(VideoKind, bs[0].videoSrc), Candidate(VideoKind, bs[0].dataMediaSrc)]
      + PlayButtonCandidates(bs[1..])
  }

  /** Image strategies 1 to 7. */
  function ImageStrategies(page: Page): seq<Candidate> {
    Offer(ImageKind, page.mediaImages)
    + Offer(ImageKind, page.labelledImages)
    + Offer(ImageKind, FilterImgs(page.imgs, PostImage))
    + Offer(ImageKind, FilterBackgrounds(page.backgrounds))
    + Offer(ImageKind, FilterImgs(page.containerImgs, ContainerImage))
    + Offer(ImageKind, page.tabpanelImages)
    + Offer(ImageKind, page.classImages)
  }

  /** Video strategies 1 to 6. */
  function VideoStrategies(page: Page): seq<Candidate> {
    VideoCandidates(page.videos)
    + Offer(VideoKind, page.videoSources)
    + Offer(VideoKind, page.dataVideoUrls)
    + PlayButtonCandidates(page.playButtons)
    + Offer(VideoKind, page.progressbarVideos)
    + Offer(VideoKind, ScriptVideoUrls(page.scripts))
  }

  /** Every URL the extraction script passes to `addUniqueUrl`, in call order. */
  function Candidates(page: Page): seq<Candidate> {
    ImageStrategies(page) + VideoStrategies(page)
  }

  // ---------------------------------------------------------------------
  // The scan

  /** The `images` and `videos` arrays of the extraction script. */
  datatype Found = Found(images: seq<string>, videos: seq<string>)

  function Insert(f: Found, c: Candidate): Found {
    match c.kind
    case ImageKind => f.(images := AddUniqueUrl(c.url, f.images).list)
    case VideoKind => f.(videos := AddUniqueUrl(c.url, f.videos).list)
  }

  /** The candidates' URLs offered to one array. */
  function UrlsOf(cands: seq<Candidate>, kind: Kind): (r: seq<string>)
    ensures |r| <= |cands|
  {
    if cands == [] then []
    else (if cands[0].kind == kind then [cands[0].url] else []) + UrlsOf(cands[1..], kind)
  }

  /** `addUniqueUrl` applied to each candidate in turn. */
  function ScanCandidates(f: Found, cands: seq<Candidate>): Found
    decreases |cands|
  {
    if cands == [] then f else ScanCandidates(Insert(f, cands[0]), cands[1..])
  }

  /** The two arrays evolve independently: each is the fold of
      `addUniqueUrl` over the URLs offered to it. */
  lemma {:induction false} ScanSplits(f: Found, cands: seq<Candidate>)
    ensures ScanCandidates(f, cands).images == Collect(f.images, UrlsOf(cands, ImageKind))
    ensures ScanCandidates(f, cands).videos == Collect(f.videos, UrlsOf(cands, VideoKind))
    decreases |cands|
  {
    if cands != [] {
      var c := cands[0];
      ScanSplits(Insert(f, c), cands[1..]);
      if c.kind == ImageKind {
        assert UrlsOf(cands, ImageKind) == [c.url] + UrlsOf(cands[1..], ImageKind);
        assert UrlsOf(cands, VideoKind) == UrlsOf(cands[1..], VideoKind);
      } else {
        assert UrlsOf(cands, VideoKind) == [c.url] + UrlsOf(cands[1..], VideoKind);
        assert UrlsOf(cands, ImageKind) == UrlsOf(cands[1..], ImageKind);
      }
    }
  }

  /** The scan of a whole page. Both arrays are duplicate-free, and each
      holds exactly the cleaned URLs offered to it, first-seen first. */
  function ScanPage(page: Page): (r: Found)
    ensures NoDup(r.images) && NoDup(r.videos)
    ensures Elems(r.images) == Elems(Cleaned(UrlsOf(Candidates(page), ImageKind)))
    ensures Elems(r.videos) == Elems(Cleaned(UrlsOf(Candidates(page), VideoKind)))
    ensures r.images == FirstSeen(Cleaned(UrlsOf(Candidates(page), ImageKind)))
    ensures r.videos == FirstSeen(Cleaned(UrlsOf(Candidates(page), VideoKind)))
  {
    var cands := Candidates(page);
    ScanSplits(Found([], []), cands);
    assert NoDup<string>([]);
    assert Elems<string>([]) == {};
    CollectIsFirstSeen([], UrlsOf(cands, ImageKind));
    CollectIsFirstSeen([], UrlsOf(cands, VideoKind));
    WithoutNothing(Cleaned(UrlsOf(cands, ImageKind)));
    WithoutNothing(Cleaned(UrlsOf(cands, VideoKind)));
    ScanCandidates(Found([], []), cands)
  }

  lemma {:induction false} WithoutNothing(xs: seq<string>)
    ensures Without(xs, Elems<string>([])) == xs
    decreases |xs|
  {
    if xs != [] {
      WithoutNothing(xs[1..]);
      assert xs == [xs[0]] + xs[1..];
    }
  }

  // ---------------------------------------------------------------------
  // Completeness: every accepted post image reaches the image array

  lemma {:induction false} UrlsOfAppend(a: seq<Candidate>, b: seq<Candidate>, kind: Kind)
    ensures UrlsOf(a + b, kind) == UrlsOf(a, kind) + UrlsOf(b, kind)
    decreases |a|
  {
    if a == [] {
      assert a + b == b;
    } else {
      assert (a + b)[0] == a[0] && (a + b)[1..] == a[1..] + b;
      UrlsOfAppend(a[1..], b, kind);
    }
  }

  lemma {:induction false} UrlsOfOffer(kind: Kind, urls: seq<string>)
    ensures UrlsOf(Offer(kind, urls), kind) == urls
    decreases |urls|
  {
    if urls != [] {
      var o := Offer(kind, urls);
      assert o[1..] == Offer(kind, urls[1..]);
      UrlsOfOffer(kind, urls[1..]);
      assert urls == [urls[0]] + urls[1..];
    }
  }

  lemma {:induction false} CleanedHas(urls: seq<string>, u: string)
    requires u in urls && u != "" && CleanUrl(u).Some?
    ensures CleanUrl(u).value in Cleaned(urls)
    decreases |urls|
  {
    if urls[0] != u {
      CleanedHas(urls[1..], u);
    }
  }

  /** Every image that strategy 3 accepts is offered as an image. */
  lemma PostImageOffered(page: Page, img: Img)
    requires img in page.imgs && PostImage(img)
    ensures img.src in UrlsOf(Candidates(page), ImageKind)
  {
    var a := Offer(ImageKind, page.mediaImages) + Offer(ImageKind, page.labelledImages);
    var b := Offer(ImageKind, FilterImgs(page.imgs, PostImage));
    var c := Offer(ImageKind, FilterBackgrounds(page.backgrounds))
      + Offer(ImageKind, FilterImgs(page.containerImgs, ContainerImage))
      + Offer(ImageKind, page.tabpanelImages)
      + Offer(ImageKind, page.classImages);
    assert ImageStrategies(page) == a + b + c;
    UrlsOfAppend(a + b + c, VideoStrategies(page), ImageKind);
    UrlsOfAppend(a + b, c, ImageKind);
    UrlsOfAppend(a, b, ImageKind);
    UrlsOfOffer(ImageKind, FilterImgs(page.imgs, PostImage));
    assert img.src in FilterImgs(page.imgs, PostImage);
  }

  /** The URL of every image that strategy 3 accepts, cleaned, is in the
      image array, unless it is a `data:` URL. */
  lemma PostImageCollected(page: Page, img: Img)
    requires img in page.imgs && PostImage(img)
    requires CleanUrl(img.src).Some?
    ensures CleanUrl(img.src).value in ScanPage(page).images
  {
    PostImageOffered(page, img);
    var urls := UrlsOf(Candidates(page), ImageKind);
    CleanedHas(urls, img.src);
    assert CleanUrl(img.src).value in Elems(Cleaned(urls));
    assert CleanUrl(img.src).value in Elems(ScanPage(page).images);
  }

  // ---------------------------------------------------------------------
  // Which strategies feed which array

  function Posters(vs: seq<Video>): (r: seq<string>)
    ensures |r| == |vs|
    ensures forall i :: 0 <= i < |vs| ==> r[i] == vs[i].poster
  {
    if vs == [] then [] else [vs[0].poster] + Posters(vs[1..])
  }

  /** The URLs offered to the image array, strategy by strategy in the
      order the script runs them; the only image the video strategies
      offer is each video's poster. */
  lemma ImageUrlsOffered(page: Page)
    ensures UrlsOf(Candidates(page), ImageKind)
      == page.mediaImages + page.labelledImages
      + FilterImgs(page.imgs, PostImage) + FilterBackgrounds(page.backgrounds)
      + FilterImgs(page.containerImgs, ContainerImage)
      + page.tabpanelImages + page.classImages
      + Posters(page.videos)
  {
    ImageStrategyUrls(page);
    VideoStrategyImages(page);
    UrlsOfAppend(ImageStrategies(page), VideoStrategies(page), ImageKind);
  }

  lemma ImageStrategyUrls(page: Page)
    ensures UrlsOf(ImageStrategies(page), ImageKind)
      == page.mediaImages + page.labelledImages
      + FilterImgs(page.imgs, PostImage) + FilterBackgrounds(page.backgrounds)
      + FilterImgs(page.containerImgs, ContainerImage)
      + page.tabpanelImages + page.classImages
  {
    var o1 := Offer(ImageKind, page.mediaImages);
    var o2 := Offer(ImageKind, page.labelledImages);
    var o3 := Offer(ImageKind, FilterImgs(page.imgs, PostImage));
    var o4 := Offer(ImageKind, FilterBackgrounds(page.backgrounds));
    var o5 := Offer(ImageKind, FilterImgs(page.containerImgs, ContainerImage));
    var o6 := Offer(ImageKind, page.tabpanelImages);
    var o7 := Offer(ImageKind, page.classImages);
    assert ImageStrategies(page) == o1 + o2 + o3 + o4 + o5 + o6 + o7;
    UrlsOfAppend(o1 + o2 + o3 + o4 + o5 + o6, o7, ImageKind);
    UrlsOfAppend(o1 + o2 + o3 + o4 + o5, o6, ImageKind);
    UrlsOfAppend(o1 + o2 + o3 + o4, o5, ImageKind);
    UrlsOfAppend(o1 + o2 + o3, o4, ImageKind);
    UrlsOfAppend(o1 + o2, o3, ImageKind);
    UrlsOfAppend(o1, o2, ImageKind);
    UrlsOfOffer(ImageKind, page.mediaImages);
    UrlsOfOffer(ImageKind, page.labelledImages);
    UrlsOfOffer(ImageKind, FilterImgs(page.imgs, PostImage));
    UrlsOfOffer(ImageKind, FilterBackgrounds(page.backgrounds));
    UrlsOfOffer(ImageKind, FilterImgs(page.containerImgs, ContainerImage));
    UrlsOfOffer(ImageKind, page.tabpanelImages);
    UrlsOfOffer(ImageKind, page.classImages);
  }

  /** The video strategies offer exactly one image per video, its poster,
      in document order. */
  lemma VideoStrategyImages(page: Page)
    ensures UrlsOf(VideoStrategies(page), ImageKind) == Posters(page.videos)
  {
    var v1 := VideoCandidates(page.videos);
    var v2 := Offer(VideoKind, page.videoSources);
    var v3 := Offer(VideoKind, page.dataVideoUrls);
    var v4 := PlayButtonCandidates(page.playButtons);
    var v5 := Offer(VideoKind, page.progressbarVideos);
    var v6 := Offer(VideoKind, ScriptVideoUrls(page.scripts));
    assert VideoStrategies(page) == v1 + v2 + v3 + v4 + v5 + v6;
    UrlsOfAppend(v1 + v2 + v3 + v4 + v5, v6, ImageKind);
    UrlsOfAppend(v1 + v2 + v3 + v4, v5, ImageKind);
    UrlsOfAppend(v1 + v2 + v3, v4, ImageKind);
    UrlsOfAppend(v1 + v2, v3, ImageKind);
    UrlsOfAppend(v1, v2, ImageKind);
    PosterImages(page.videos);
    NoImageIn(v2);
    NoImageIn(v3);
    NoImageIn(v4);
    NoImageIn(v5);
    NoImageIn(v6);
  }

  /** Each video's `src`, then the `src` of each of its sources. */
  function OwnVideoUrls(vs: seq<Video>): (r: seq<string>)
    ensures forall v :: v in vs ==> v.src in r
  {
    if vs == [] then [] else [vs[0].src] + vs[0].sources + OwnVideoUrls(vs[1..])
  }

  /** Each button's nested video `src`, then its `data-media` source. */
  function ButtonUrls(bs: seq<PlayButton>): (r: seq<string>)
    ensures |r| == 2 * |bs|
  {
    if bs == [] then [] else [bs[0].videoSrc, bs[0].dataMediaSrc] + ButtonUrls(bs[1..])
  }

  /** The URLs offered to the video array: video strategies 1 to 6 in the
      order the script runs them, each in document order. */
  lemma VideoUrlsOffered(page: Page)
    ensures UrlsOf(Candidates(page), VideoKind)
      == OwnVideoUrls(page.videos) + page.videoSources + page.dataVideoUrls
      + ButtonUrls(page.playButtons) + page.progressbarVideos
      + ScriptVideoUrls(page.scripts)
  {
    ImageStrategiesOfferNoVideo(page);
    VideoStrategyUrls(page);
    UrlsOfAppend(ImageStrategies(page), VideoStrategies(page), VideoKind);
  }

  lemma VideoStrategyUrls(page: Page)
    ensures UrlsOf(VideoStrategies(page), VideoKind)
      == OwnVideoUrls(page.videos) + page.videoSources + page.dataVideoUrls
      + ButtonUrls(page.playButtons) + page.progressbarVideos
      + ScriptVideoUrls(page.scripts)
  {
    var v1 := VideoCandidates(page.videos);
    var v2 := Offer(VideoKind, page.videoSources);
    var v3 := Offer(VideoKind, page.dataVideoUrls);
    var v4 := PlayButtonCandidates(page.playButtons);
    var v5 := Offer(VideoKind, page.progressbarVideos);
    var v6 := Offer(VideoKind, ScriptVideoUrls(page.scripts));
    assert VideoStrategies(page) == v1 + v2 + v3 + v4 + v5 + v6;
    UrlsOfAppend(v1 + v2 + v3 + v4 + v5, v6, VideoKind);
    UrlsOfAppend(v1 + v2 + v3 + v4, v5, VideoKind);
    UrlsOfAppend(v1 + v2 + v3, v4, VideoKind);
    UrlsOfAppend(v1 + v2, v3, VideoKind);
    UrlsOfAppend(v1, v2, VideoKind);
    OwnVideos(page.videos);
    UrlsOfOffer(VideoKind, page.videoSources);
    UrlsOfOffer(VideoKind, page.dataVideoUrls);
    ButtonVideos(page.playButtons);
    UrlsOfOffer(VideoKind, page.progressbarVideos);
    UrlsOfOffer(VideoKind, ScriptVideoUrls(page.scripts));
  }

  lemma {:induction false} OwnVideos(vs: seq<Video>)
    ensures UrlsOf(VideoCandidates(vs), VideoKind) == OwnVideoUrls(vs)
    decreases |vs|
  {
    if vs != [] {
      var head := [Candidate(VideoKind, vs[0].src), Candidate(ImageKind, vs[0].poster)];
      var sources := Offer(VideoKind, vs[0].sources);
      assert VideoCandidates(vs) == head + (sources + VideoCandidates(vs[1..]));
      UrlsOfAppend(head, sources + VideoCandidates(vs[1..]), VideoKind);
      UrlsOfAppend(sources, VideoCandidates(vs[1..]), VideoKind);
      assert head[1..][1..] == [];
      assert UrlsOf(head, VideoKind) == [vs[0].src];
      UrlsOfOffer(VideoKind, vs[0].sources);
      OwnVideos(vs[1..]);
    }
  }

  lemma {:induction false} ButtonVideos(bs: seq<PlayButton>)
    ensures UrlsOf(PlayButtonCandidates(bs), VideoKind) == ButtonUrls(bs)
    decreases |bs|
  {
    if bs != [] {
      var head := [Candidate(VideoKind, bs[0].videoSrc), Candidate(VideoKind, bs[0].dataMediaSrc)];
      assert PlayButtonCandidates(bs) == head + PlayButtonCandidates(bs[1..]);
      UrlsOfAppend(head, PlayButtonCandidates(bs[1..]), VideoKind);
      assert head[1..][1..] == [];
      assert UrlsOf(head, VideoKind) == [bs[0].videoSrc, bs[0].dataMediaSrc];
      ButtonVideos(bs[1..]);
    }
  }

  /** The cleaned form of every URL a script yields is in the video array. */
  lemma ScriptUrlCollected(page: Page, x: string)
    requires x in ScriptVideoUrls(page.scripts)
    requires CleanUrl(x).Some?
    ensures CleanUrl(x).value in ScanPage(page).videos
  {
    VideoUrlsOffered(page);
    var urls := UrlsOf(Candidates(page), VideoKind);
    assert x in urls;
    CleanedHas(urls, x);
    assert CleanUrl(x).value in Elems(Cleaned(urls));
    assert CleanUrl(x).value in Elems(ScanPage(page).videos);
  }

  /** The image strategies offer nothing to the video array. */
  lemma ImageStrategiesOfferNoVideo(page: Page)
    ensures UrlsOf(ImageStrategies(page), VideoKind) == []
  {
    NoVideoIn(ImageStrategies(page));
  }

  lemma {:induction false} PosterImages(vs: seq<Video>)
    ensures UrlsOf(VideoCandidates(vs), ImageKind) == Posters(vs)
    decreases |vs|
  {
    if vs != [] {
      var head := [Candidate(VideoKind, vs[0].src), Candidate(ImageKind, vs[0].poster)];
      var sources := Offer(VideoKind, vs[0].sources);
      assert VideoCandidates(vs) == head + (sources + VideoCandidates(vs[1..]));
      UrlsOfAppend(head, sources + VideoCandidates(vs[1..]), ImageKind);
      UrlsOfAppend(sources, VideoCandidates(vs[1..]), ImageKind);
      assert head[1..][1..] == [];
      assert UrlsOf(head, ImageKind) == [vs[0].poster];
      NoImageIn(sources);
      PosterImages(vs[1..]);
    }
  }

  lemma {:induction false} NoImageIn(cands: seq<Candidate>)
    requires forall i :: 0 <= i < |cands| ==> cands[i].kind == VideoKind
    ensures UrlsOf(cands, ImageKind) == []
    decreases |cands|
  {
    if cands != [] {
      NoImageIn(cands[1..]);
    }
  }

  lemma {:induction false} NoVideoIn(cands: seq<Candidate>)
    requires forall i :: 0 <= i < |cands| ==> cands[i].kind == ImageKind
    ensures UrlsOf(cands, VideoKind) == []
    decreases |cands|
  {
    if cands != [] {
      NoVideoIn(cands[1..]);
    }
  }

  // ---------------------------------------------------------------------
  // Overlapping strategies

  /** An image that strategy 3 accepts and that also sits in a media
      container is offered to the image array at least twice, once by each
      strategy, yet its cleaned URL is stored exactly once. */
  lemma OverlappingStrategiesStoreOnce(page: Page, img: Img)
    requires img in page.imgs && PostImage(img)
    requires img in page.containerImgs
    requires CleanUrl(img.src).Some?
    ensures multiset(UrlsOf(Candidates(page), ImageKind))[img.src] >= 2
    ensures multiset(ScanPage(page).images)[CleanUrl(img.src).value] == 1
  {
    OfferedTwice(page, img);
    PostImageCollected(page, img);
    NoDupOnce(ScanPage(page).images, CleanUrl(img.src).value);
  }

  lemma OfferedTwice(page: Page, img: Img)
    requires img in page.imgs && PostImage(img)
    requires img in page.containerImgs
    ensures multiset(UrlsOf(Candidates(page), ImageKind))[img.src] >= 2
  {
    var post := FilterImgs(page.imgs, PostImage);
    var container := FilterImgs(page.containerImgs, ContainerImage);
    var upTo := page.mediaImages + page.labelledImages + post
      + FilterBackgrounds(page.backgrounds) + container;
    CountInParts(page.mediaImages + page.labelledImages, post,
      FilterBackgrounds(page.backgrounds), container, img.src);
    ImageUrlsOffered(page);
    var withTab := upTo + page.tabpanelImages;
    var withClass := withTab + page.classImages;
    assert UrlsOf(Candidates(page), ImageKind) == withClass + Posters(page.videos);
    assert multiset(withTab) == multiset(upTo) + multiset(page.tabpanelImages);
    assert multiset(withClass) == multiset(withTab) + multiset(page.classImages);
    assert multiset(withClass + Posters(page.videos))
      == multiset(withClass) + multiset(Posters(page.videos));
  }

  lemma CountInParts(a: seq<string>, b: seq<string>, c: seq<string>, d: seq<string>, x: string)
    requires x in b && x in d
    ensures multiset(a + b + c + d)[x] >= 2
  {
    assert multiset(a + b + c + d) == multiset(a) + multiset(b) + multiset(c) + multiset(d);
  }
}
