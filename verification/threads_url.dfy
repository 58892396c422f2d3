/** `normalizeThreadsUrl` and `isValidThreadsUrl` from the thread
    controller: the whitelist of Threads hosts, the legacy `threads.net`
    rewrite, and the reduction of every accepted path to one canonical
    post or short-link URL.

    The WHATWG URL parser is not part of this model: the normaliser takes it
    as a parameter `parse`, with `None` standing for "new URL(...) threw".
    `SimpleParse` is a small reference parser for `https:` URLs, used to
    state what happens when a canonical URL is parsed again. */
module ThreadsUrl {
  import opened Wrappers
  import opened Strings

  /** The parts of a parsed URL the normaliser reads: `hostname`,
      `pathname` and the query (`search` without its `?`). */
  datatype Url = Url(host: string, pathname: string, query: string)

  const CanonicalHosts: set<string> := {"threads.com", "www.threads.com"}
  const LegacyHosts: set<string> := {"threads.net", "www.threads.net"}
  const LegacyDomain := "threads.net"
  const CanonicalDomain := "threads.com"
  const Scheme := "https://"
  const CanonicalHost := "www.threads.com"
  const Origin := "https://www.threads.com"

  /** The canonical short link `https://www.threads.com/t/<code>`. */
  function ShortLink(code: string): string {
    Origin + "/t/" + code
  }

  /** The canonical post URL `https://www.threads.com/<handle>/post/<id>`. */
  function PostLink(handle: string, id: string): string {
    Origin + "/" + handle + "/post/" + id
  }

  /** `t/<code>`, possibly followed by more segments. */
  predicate IsShortPath(parts: seq<string>) {
    |parts| > 1 && parts[0] == "t"
  }

  /** `@handle/post/<id>`, possibly followed by more segments. */
  predicate IsPostPath(parts: seq<string>) {
    |parts| >= 3 && StartsWith(parts[0], "@") && parts[1] == "post"
  }

  /** Steps after the host check: split the pathname into its non-empty
      segments, reject intent paths, keep short links and reduce post,
      reply and comment paths to the parent post. */
  function CanonicalFromPath(pathname: string): (r: Option<string>)
    ensures var parts := Segments(pathname);
      && (|parts| > 0 && parts[0] == "intent" ==> r.None?)
      && (IsShortPath(parts) ==> r == Some(ShortLink(parts[1])))
      && (IsPostPath(parts) ==> r == Some(PostLink(parts[0], parts[2])))
      && (r.Some? <==> IsShortPath(parts) || IsPostPath(parts))
  {
    var parts := Segments(pathname);
    if |parts| > 0 && parts[0] == "intent" then
      assert "intent"[0] != '@';
      None
    else if |parts| > 1 && parts[0] == "t" then
      assert "t"[0] != '@';
      Some(ShortLink(parts[1]))
    else if |parts| < 3 then None
    else if !StartsWith(parts[0], "@") then None
    else if parts[1] != "post" then None
    else if |parts| > 3 && parts[3] in {"reply", "comment"} then
      // a reply or comment: the media lives on the parent post
      Some(PostLink(parts[0], parts[2]))
    else
      Some(PostLink(parts[0], parts[2]))
  }

  /** `normalizeThreadsUrl(raw)`. A host outside the four Threads hosts is
      rejected; a legacy host makes the normaliser replace the first
      `threads.net` of the raw text and parse it again. */
  function NormalizeThreadsUrl(raw: string, parse: string -> Option<Url>): (r: Option<string>)
    ensures r.Some? ==> parse(raw).Some? && parse(raw).value.host in CanonicalHosts + LegacyHosts
    ensures parse(raw).Some? && parse(raw).value.host in CanonicalHosts ==>
      r == CanonicalFromPath(parse(raw).value.pathname)
    ensures parse(raw).Some? && parse(raw).value.host in LegacyHosts ==>
      var again := parse(ReplaceFirst(raw, LegacyDomain, CanonicalDomain));
      r == if again.None? then None else CanonicalFromPath(again.value.pathname)
  {
    match parse(raw)
    case None => None
    case Some(u) =>
      if u.host in CanonicalHosts then
        CanonicalFromPath(u.pathname)
      else if u.host in LegacyHosts then
        match parse(ReplaceFirst(raw, LegacyDomain, CanonicalDomain))
        case None => None
        case Some(u2) => CanonicalFromPath(u2.pathname)
      else
        None
  }

  /** `isValidThreadsUrl(raw)`. */
  predicate IsValidThreadsUrl(raw: string, parse: string -> Option<Url>) {
    NormalizeThreadsUrl(raw, parse).Some?
  }

  /** A URL is valid only if its parsed host is one of the four Threads
      hosts and its path is a short link or a post path. */
  lemma ValidMeansThreadsPost(raw: string)
    requires IsValidThreadsUrl(raw, SimpleParse)
    ensures SimpleParse(raw).Some?
    ensures SimpleParse(raw).value.host in CanonicalHosts + LegacyHosts
    ensures SimpleParse(raw).value.host in CanonicalHosts ==>
      var parts := Segments(SimpleParse(raw).value.pathname);
      IsShortPath(parts) || IsPostPath(parts)
  {
  }

  // ---------------------------------------------------------------------
  // A reference parser for https URLs

  /** The longest prefix of `s` holding none of `stops`. */
  function PrefixUntil(s: string, stops: set<char>): (r: string)
    ensures |r| <= |s| && r == s[..|r|]
    ensures Avoids(r, stops)
    ensures |r| < |s| ==> s[|r|] in stops
  {
    if |s| == 0 || s[0] in stops then ""
    else [s[0]] + PrefixUntil(s[1..], stops)
  }

  /** No character of `stops` occurs in `s`. */
  predicate Avoids(s: string, stops: set<char>) {
    forall c :: c in stops ==> c !in s
  }

  lemma PrefixUntilStopsAt(a: string, b: string, stops: set<char>)
    requires Avoids(a, stops)
    requires |b| > 0 ==> b[0] in stops
    ensures PrefixUntil(a + b, stops) == a
    decreases |a|
  {
    if a == [] {
      assert a + b == b;
    } else {
      assert (a + b)[0] == a[0] && (a + b)[1..] == a[1..] + b;
      PrefixUntilStopsAt(a[1..], b, stops);
    }
  }

  const HostStops: set<char> := {'/', '?', '#'}
  const PathStops: set<char> := {'?', '#'}

  /** Host up to the first `/`, `?` or `#`; the rest is read by
      `AfterHost`. */
  function SimpleParse(s: string): (r: Option<Url>)
    ensures r.Some? ==> Avoids(r.value.pathname, PathStops)
    ensures r.Some? ==> StartsWith(s, Scheme) && r.value.host != ""
  {
    if !StartsWith(s, Scheme) then None
    else
      var rest := s[|Scheme|..];
      var host := PrefixUntil(rest, HostStops);
      if host == "" then None
      else Some(AfterHost(host, rest[|host|..]))
  }

  /** Pathname up to the first `?` or `#` (`/` when empty); query between
      `?` and `#`. */
  function AfterHost(host: string, tail: string): (u: Url)
    ensures u.host == host
    ensures Avoids(u.pathname, PathStops)
  {
    var path := PrefixUntil(tail, PathStops);
    var after := tail[|path|..];
    var query := if |after| > 0 && after[0] == '?' then PrefixUntil(after[1..], {'#'}) else "";
    Url(host, if path == "" then "/" else path, query)
  }

  /** A host followed by a delimiter is read as exactly that host. */
  lemma SimpleParseHost(host: string, tail: string)
    requires host != "" && Avoids(host, HostStops)
    requires tail == "" || tail[0] in HostStops
    ensures SimpleParse(Scheme + host + tail) == Some(AfterHost(host, tail))
  {
    var s := Scheme + host + tail;
    assert s[..|Scheme|] == Scheme;
    assert s[|Scheme|..] == host + tail;
    PrefixUntilStopsAt(host, tail, HostStops);
    assert (host + tail)[|host|..] == tail;
  }

  /** Whatever follows the pathname (a query, a fragment) does not change
      the pathname. */
  lemma AfterHostPath(host: string, path: string, suffix: string)
    requires Avoids(path, PathStops)
    requires suffix == "" || suffix[0] in PathStops
    ensures AfterHost(host, path + suffix).pathname == if path == "" then "/" else path
    ensures suffix == "" ==> AfterHost(host, path + suffix).query == ""
  {
    PrefixUntilStopsAt(path, suffix, PathStops);
    assert (path + suffix)[|path|..] == suffix;
  }

  /** `SimpleParse` of `https://<host><path><suffix>`. */
  lemma SimpleParseParts(host: string, path: string, suffix: string)
    requires host != "" && Avoids(host, HostStops)
    requires path == "" || path[0] == '/'
    requires Avoids(path, PathStops)
    requires suffix == "" || suffix[0] in PathStops
    ensures SimpleParse(Scheme + host + path + suffix).Some?
    ensures SimpleParse(Scheme + host + path + suffix).value.host == host
    ensures SimpleParse(Scheme + host + path + suffix).value.pathname == if path == "" then "/" else path
    ensures suffix == "" ==> SimpleParse(Scheme + host + path + suffix).value.query == ""
  {
    assert Scheme + host + path + suffix == Scheme + host + (path + suffix);
    if path == "" {
      assert path + suffix == suffix;
    }
    SimpleParseHost(host, path + suffix);
    AfterHostPath(host, path, suffix);
  }

  // ---------------------------------------------------------------------
  // Segment arithmetic for canonical paths

  lemma SplitSingle(a: string, c: char)
    requires c !in a
    ensures Split(a, c) == [a]
  {
  }

  lemma SplitAfterSlash(p0: string, rest: string)
    ensures Split("/" + p0 + rest, '/') == [""] + Split(p0 + rest, '/')
  {
    assert "/" + p0 + rest == "" + ['/'] + (p0 + rest);
    SplitAtFirst("", '/', p0 + rest);
  }

  lemma SplitBeforeSlash(p0: string, rest: string)
    requires '/' !in p0
    requires rest != "" && rest[0] == '/'
    ensures Split(p0 + rest, '/') == [p0] + Split(rest[1..], '/')
  {
    assert p0 + rest == p0 + ['/'] + rest[1..];
    SplitAtFirst(p0, '/', rest[1..]);
  }

  /** Splitting `"/" + p0 + rest` at `/`. */
  lemma SplitCons(p0: string, rest: string)
    requires '/' !in p0
    requires rest == "" || rest[0] == '/'
    ensures rest == "" ==> Split("/" + p0 + rest, '/') == ["", p0]
    ensures rest != "" ==> Split("/" + p0 + rest, '/') == ["", p0] + Split(rest[1..], '/')
  {
    var whole := Split("/" + p0 + rest, '/');
    var a := Split(p0 + rest, '/');
    SplitAfterSlash(p0, rest);
    assert whole == [""] + a;
    if rest == "" {
      assert p0 + rest == p0;
      SplitSingle(p0, '/');
    } else {
      var b := Split(rest[1..], '/');
      SplitBeforeSlash(p0, rest);
      assert a == [p0] + b;
      PairPrefix("", p0, b);
    }
  }

  lemma PairPrefix<T>(x: T, y: T, b: seq<T>)
    ensures [x] + ([y] + b) == [x, y] + b
  {
  }

  /** Splitting a path that starts with `/` yields a leading empty part. */
  lemma SplitLeadingSlash(rest: string)
    requires rest != "" && rest[0] == '/'
    ensures Split(rest, '/') == [""] + Split(rest[1..], '/')
  {
    assert rest == "" + ['/'] + rest[1..];
    SplitAtFirst("", '/', rest[1..]);
  }

  /** `"/" + p0 + rest` splits into `p0` followed by the segments of
      `rest`, when `rest` is empty or starts a new segment. */
  lemma SegmentsCons(p0: string, rest: string)
    requires p0 != "" && '/' !in p0
    requires rest == "" || rest[0] == '/'
    ensures Segments("/" + p0 + rest) == [p0] + Segments(rest)
  {
    SplitCons(p0, rest);
    if rest == "" {
      SplitSingle(rest, '/');
      NonEmptyCons("", [p0]);
      NonEmptyCons(p0, []);
      NonEmptyCons("", []);
    } else {
      var more := Split(rest[1..], '/');
      SplitLeadingSlash(rest);
      NonEmptyCons("", [p0] + more);
      assert ["", p0] + more == [""] + ([p0] + more);
      NonEmptyCons(p0, more);
      NonEmptyCons("", more);
    }
  }

  /** `"/" + parts[0] + "/" + parts[1] + ...`. */
  function JoinPath(parts: seq<string>): (p: string)
    ensures p == "" || p[0] == '/'
  {
    if parts == [] then "" else "/" + parts[0] + JoinPath(parts[1..])
  }

  lemma JoinPathCons(parts: seq<string>, tail: string)
    requires parts != []
    ensures JoinPath(parts) + tail == "/" + parts[0] + (JoinPath(parts[1..]) + tail)
  {
    var j := JoinPath(parts[1..]);
    assert JoinPath(parts) == "/" + parts[0] + j;
  }

  /** Non-empty parts without `/`: what `Segments` produces. */
  predicate SegmentList(parts: seq<string>) {
    forall i :: 0 <= i < |parts| ==> parts[i] != "" && '/' !in parts[i]
  }

  /** Segments are recovered from the path they were joined into. */
  lemma {:induction false} SegmentsOfJoin(parts: seq<string>, tail: string)
    requires SegmentList(parts)
    requires tail == "" || tail[0] == '/'
    ensures Segments(JoinPath(parts) + tail) == parts + Segments(tail)
    decreases |parts|
  {
    if parts == [] {
      assert JoinPath(parts) + tail == tail;
    } else {
      var p0, more := parts[0], parts[1..];
      var rest := JoinPath(more) + tail;
      var tailSegs := Segments(tail);
      assert SegmentList(more);
      SegmentsOfJoin(more, tail);
      JoinPathCons(parts, tail);
      assert rest == "" || rest[0] == '/';
      SegmentsCons(p0, rest);
      ConsAssoc(p0, more, tailSegs);
      assert [p0] + more == parts;
    }
  }

  lemma ConsAssoc<T>(x: T, a: seq<T>, b: seq<T>)
    ensures [x] + (a + b) == ([x] + a) + b
  {
  }

  lemma ShortPathIsJoin(code: string)
    ensures "/t/" + code == JoinPath(["t", code])
  {
    assert JoinPath([code]) == "/" + code by {
      assert [code][1..] == [];
    }
    assert ["t", code][1..] == [code];
  }

  lemma PostPathIsJoin(handle: string, id: string)
    ensures "/" + handle + "/post/" + id == JoinPath([handle, "post", id])
  {
    assert JoinPath([id]) == "/" + id by {
      assert [id][1..] == [];
    }
    assert ["post", id][1..] == [id];
    assert [handle, "post", id][1..] == ["post", id];
  }

  lemma SegmentsOfShort(code: string)
    requires code != "" && '/' !in code
    ensures Segments("/t/" + code) == ["t", code]
  {
    ShortPathIsJoin(code);
    SegmentsOfJoin(["t", code], "");
    assert JoinPath(["t", code]) + "" == JoinPath(["t", code]);
    SplitSingle("", '/');
  }

  /** Reply URLs, comment URLs and any other trailing segments all reduce
      to the parent post. */
  lemma PostPathCollapses(handle: string, id: string, tail: string)
    requires StartsWith(handle, "@") && '/' !in handle
    requires id != "" && '/' !in id
    requires tail == "" || tail[0] == '/'
    ensures CanonicalFromPath("/" + handle + "/post/" + id + tail) == Some(PostLink(handle, id))
  {
    PostPathIsJoin(handle, id);
    SegmentsOfJoin([handle, "post", id], tail);
    var parts := Segments("/" + handle + "/post/" + id + tail);
    assert parts[0] == handle && parts[1] == "post" && parts[2] == id;
    assert handle[0] == '@';
  }

  /** The post, its reply and its comment share one normalised URL. */
  lemma ReplyAndCommentShareParent(handle: string, id: string, other: string)
    requires StartsWith(handle, "@") && '/' !in handle
    requires id != "" && '/' !in id
    ensures CanonicalFromPath("/" + handle + "/post/" + id + "/reply/" + other) == Some(PostLink(handle, id))
    ensures CanonicalFromPath("/" + handle + "/post/" + id + "/comment/" + other) == Some(PostLink(handle, id))
    ensures CanonicalFromPath("/" + handle + "/post/" + id) == Some(PostLink(handle, id))
  {
    assert "/" + handle + "/post/" + id + "/reply/" + other == "/" + handle + "/post/" + id + ("/reply/" + other);
    assert "/" + handle + "/post/" + id + "/comment/" + other == "/" + handle + "/post/" + id + ("/comment/" + other);
    assert "/" + handle + "/post/" + id == "/" + handle + "/post/" + id + "";
    PostPathCollapses(handle, id, "/reply/" + other);
    PostPathCollapses(handle, id, "/comment/" + other);
    PostPathCollapses(handle, id, "");
  }

  /** A short link keeps only its code: later segments are not consulted. */
  lemma ShortLinkIgnoresRest(code: string, tail: string)
    requires code != "" && '/' !in code
    requires tail == "" || tail[0] == '/'
    ensures CanonicalFromPath("/t/" + code + tail) == Some(ShortLink(code))
  {
    ShortPathIsJoin(code);
    SegmentsOfJoin(["t", code], tail);
  }

  // ---------------------------------------------------------------------
  // Idempotence

  /** A path on the canonical host parses back to itself. */
  lemma CanonicalParse(path: string)
    requires path != "" && path[0] == '/' && Avoids(path, PathStops)
    ensures SimpleParse(Scheme + CanonicalHost + path + "") == Some(Url(CanonicalHost, path, ""))
  {
    assert CanonicalHost in CanonicalHosts;
    HostsAvoidDelimiters(CanonicalHost);
    SimpleParseParts(CanonicalHost, path, "");
  }

  /** A short link parses back to its own path, which normalises to it. */
  lemma ShortLinkReparses(code: string)
    requires code != "" && '/' !in code && Avoids(code, PathStops)
    ensures SimpleParse(ShortLink(code)) == Some(Url(CanonicalHost, "/t/" + code, ""))
    ensures CanonicalFromPath("/t/" + code) == Some(ShortLink(code))
  {
    var path := "/t/" + code;
    assert ShortLink(code) == Scheme + CanonicalHost + path + "";
    assert Avoids(path, PathStops);
    CanonicalParse(path);
    SegmentsOfShort(code);
  }

  /** A post link parses back to its own path, which normalises to it. */
  lemma PostLinkReparses(handle: string, id: string)
    requires StartsWith(handle, "@") && '/' !in handle && Avoids(handle, PathStops)
    requires id != "" && '/' !in id && Avoids(id, PathStops)
    ensures SimpleParse(PostLink(handle, id)) == Some(Url(CanonicalHost, "/" + handle + "/post/" + id, ""))
    ensures CanonicalFromPath("/" + handle + "/post/" + id) == Some(PostLink(handle, id))
  {
    var path := "/" + handle + "/post/" + id;
    PostLinkOfPath(handle, id);
    CanonicalParse(path);
    assert path == path + "";
    PostPathCollapses(handle, id, "");
  }

  /** A post link is the canonical origin followed by its path. */
  lemma PostLinkOfPath(handle: string, id: string)
    requires Avoids(handle, PathStops) && Avoids(id, PathStops)
    ensures var path := "/" + handle + "/post/" + id;
      && PostLink(handle, id) == Scheme + CanonicalHost + path + ""
      && path != "" && path[0] == '/' && Avoids(path, PathStops)
  {
    var path := "/" + handle + "/post/" + id;
    assert Origin == Scheme + CanonicalHost;
    assert PostLink(handle, id) == Scheme + CanonicalHost + path;
    assert Scheme + CanonicalHost + path + "" == Scheme + CanonicalHost + path;
    forall c | c in PathStops ensures c !in path {
      assert c != '/' && c !in "/post/";
    }
  }

  /** The canonical URL for a path parses back to a path that normalises to
      the same canonical URL. */
  lemma CanonicalFromPathIdempotent(p: string)
    requires Avoids(p, PathStops)
    requires CanonicalFromPath(p).Some?
    ensures var n := CanonicalFromPath(p).value;
      && SimpleParse(n).Some?
      && SimpleParse(n).value.host == CanonicalHost
      && CanonicalFromPath(SimpleParse(n).value.pathname) == Some(n)
  {
    var parts := Segments(p);
    SegmentsAvoid(p, '?');
    SegmentsAvoid(p, '#');
    if IsShortPath(parts) {
      ShortLinkReparses(parts[1]);
    } else {
      PostLinkReparses(parts[0], parts[2]);
    }
  }

  /** Normalising a normalised URL gives it back unchanged. */
  lemma NormalizeIdempotent(raw: string)
    requires NormalizeThreadsUrl(raw, SimpleParse).Some?
    ensures var n := NormalizeThreadsUrl(raw, SimpleParse).value;
      NormalizeThreadsUrl(n, SimpleParse) == Some(n)
  {
    var u := SimpleParse(raw).value;
    var p := if u.host in CanonicalHosts then u.pathname
             else SimpleParse(ReplaceFirst(raw, LegacyDomain, CanonicalDomain)).value.pathname;
    assert CanonicalFromPath(p) == NormalizeThreadsUrl(raw, SimpleParse);
    CanonicalFromPathIdempotent(p);
    assert CanonicalHost in CanonicalHosts;
  }

  // ---------------------------------------------------------------------
  // Host handling

  /** The four accepted hosts carry no URL delimiter. */
  lemma HostsAvoidDelimiters(host: string)
    requires host in CanonicalHosts + LegacyHosts
    ensures host != "" && Avoids(host, HostStops)
  {
  }

  /** The canonical counterpart of a legacy host. */
  function CanonicalOf(host: string): string
    requires host in LegacyHosts
  {
    if host == "threads.net" then "threads.com" else "www.threads.com"
  }

  /** No `th` starts inside `lead`, not even one completed by what follows. */
  predicate NoThIn(lead: string) {
    && (forall j :: 0 <= j < |lead| - 1 ==> lead[j] != 't' || lead[j + 1] != 'h')
    && (lead == [] || lead[|lead| - 1] != 't')
  }

  /** When nothing before it can start `threads.net`, the replacement
      rewrites the occurrence right after `lead`. */
  lemma ReplaceAfterLead(lead: string, tail: string)
    requires NoThIn(lead)
    ensures ReplaceFirst(lead + LegacyDomain + tail, LegacyDomain, CanonicalDomain)
         == lead + CanonicalDomain + tail
  {
    var s := lead + LegacyDomain + tail;
    var k := |lead|;
    assert s[k..k + 11] == LegacyDomain;
    assert OccursAt(s, LegacyDomain, k);
    forall j: nat | j < k ensures !OccursAt(s, LegacyDomain, j) {
      assert s[j] == lead[j];
      if j + 1 < k {
        assert s[j + 1] == lead[j + 1];
      }
    }
    assert IndexOf(s, LegacyDomain) == Some(k);
    assert s[..k] == lead && s[k + 11..] == tail;
  }

  /** In `https://<legacy host>...` the first `threads.net` is the one in
      the host, so the textual replacement rewrites exactly the host. */
  lemma ReplaceRewritesHost(host: string, rest: string)
    requires host in LegacyHosts
    ensures ReplaceFirst(Scheme + host + rest, LegacyDomain, CanonicalDomain)
         == Scheme + CanonicalOf(host) + rest
  {
    var lead := if host == "threads.net" then Scheme else Scheme + "www.";
    assert NoThIn(lead);
    assert Scheme + host + rest == lead + LegacyDomain + rest;
    assert Scheme + CanonicalOf(host) + rest == lead + CanonicalDomain + rest;
    ReplaceAfterLead(lead, rest);
  }

  /** A `threads.net` URL normalises exactly like the same URL on
      `threads.com`. */
  lemma LegacyHostNormalizesLikeCanonical(host: string, rest: string)
    requires host in LegacyHosts
    requires rest == "" || rest[0] in HostStops
    ensures NormalizeThreadsUrl(Scheme + host + rest, SimpleParse)
         == NormalizeThreadsUrl(Scheme + CanonicalOf(host) + rest, SimpleParse)
  {
    ReplaceRewritesHost(host, rest);
    HostsAvoidDelimiters(host);
    HostsAvoidDelimiters(CanonicalOf(host));
    SimpleParseHost(host, rest);
    SimpleParseHost(CanonicalOf(host), rest);
    assert AfterHost(host, rest).pathname == AfterHost(CanonicalOf(host), rest).pathname;
  }

  /** A character a URL parser leaves alone inside a path segment: an
      ASCII letter or digit, or one of `-_.@~`. */
  predicate SegmentChar(c: char) {
    ('a' <= c <= 'z') || ('A' <= c <= 'Z') || ('0' <= c <= '9')
    || c == '-' || c == '_' || c == '.' || c == '@' || c == '~'
  }

  /** A path segment that every URL parser reads back as written: not
      empty, not a dot segment, and free of characters a parser would
      percent-encode, strip, or treat as a separator (`%`, `\`, blanks,
      `/`, `?`, `#`). Handles and post ids are such segments. */
  predicate PlainSegment(s: string) {
    && s != "" && s != "." && s != ".."
    && forall i :: 0 <= i < |s| ==> SegmentChar(s[i])
  }

  /** A plain segment is one non-empty segment with no query or fragment. */
  lemma PlainSegmentIsSegment(s: string)
    requires PlainSegment(s)
    ensures s != "" && '/' !in s && Avoids(s, PathStops)
  {
  }

  /** A post URL on a legacy host normalises to the canonical post URL. */
  lemma LegacyPostUrl(host: string, handle: string, id: string)
    requires host in LegacyHosts
    requires StartsWith(handle, "@") && PlainSegment(handle)
    requires PlainSegment(id)
    ensures NormalizeThreadsUrl(Scheme + host + ("/" + handle + "/post/" + id), SimpleParse)
         == Some(PostLink(handle, id))
  {
    PlainSegmentIsSegment(handle);
    PlainSegmentIsSegment(id);
    var path := "/" + handle + "/post/" + id;
    LegacyHostNormalizesLikeCanonical(host, path);
    HostsAvoidDelimiters(CanonicalOf(host));
    assert Avoids(path, PathStops);
    SimpleParseParts(CanonicalOf(host), path, "");
    assert Scheme + CanonicalOf(host) + path + "" == Scheme + CanonicalOf(host) + path;
    PostLinkReparses(handle, id);
  }

  /** A query string or fragment never changes the result. */
  lemma QueryAndFragmentIgnored(host: string, path: string, suffix: string)
    requires host in CanonicalHosts + LegacyHosts
    requires path == "" || path[0] == '/'
    requires Avoids(path, PathStops)
    requires suffix == "" || suffix[0] in PathStops
    ensures NormalizeThreadsUrl(Scheme + host + path + suffix, SimpleParse)
         == NormalizeThreadsUrl(Scheme + host + path, SimpleParse)
  {
    if host in CanonicalHosts {
      CanonicalQueryIgnored(host, path, suffix);
    } else {
      var canonical := CanonicalOf(host);
      assert Scheme + host + path + suffix == Scheme + host + (path + suffix);
      assert Scheme + canonical + path + suffix == Scheme + canonical + (path + suffix);
      LegacyHostNormalizesLikeCanonical(host, path + suffix);
      LegacyHostNormalizesLikeCanonical(host, path);
      CanonicalQueryIgnored(canonical, path, suffix);
    }
  }

  /** The same on a canonical host, where the path is read directly. */
  lemma CanonicalQueryIgnored(host: string, path: string, suffix: string)
    requires host in CanonicalHosts
    requires path == "" || path[0] == '/'
    requires Avoids(path, PathStops)
    requires suffix == "" || suffix[0] in PathStops
    ensures NormalizeThreadsUrl(Scheme + host + path + suffix, SimpleParse)
         == NormalizeThreadsUrl(Scheme + host + path, SimpleParse)
  {
    HostsAvoidDelimiters(host);
    SimpleParseParts(host, path, suffix);
    assert Scheme + host + path == Scheme + host + path + "";
    SimpleParseParts(host, path, "");
  }

  /** The rejected-host scenario: `https://example.com` is not a Threads URL. */
  lemma ForeignHostScenario()
    ensures NormalizeThreadsUrl("https://example.com", SimpleParse).None?
  {
    ExampleParses();
    ForeignHostRejected("https://example.com", SimpleParse);
  }

  lemma ExampleParses()
    ensures SimpleParse("https://example.com") == Some(Url("example.com", "/", ""))
  {
    var host := "example.com";
    assert "https://example.com" == Scheme + host + "" + "";
    assert Avoids(host, HostStops) by {
      forall c | c in HostStops ensures c !in host {
        assert c == '/' || c == '?' || c == '#';
      }
    }
    SimpleParseParts(host, "", "");
  }

  /** A URL whose parsed host is not a Threads host is rejected. */
  lemma ForeignHostRejected(raw: string, parse: string -> Option<Url>)
    requires parse(raw).Some? && parse(raw).value.host !in CanonicalHosts + LegacyHosts
    ensures NormalizeThreadsUrl(raw, parse).None?
  {
  }

}
