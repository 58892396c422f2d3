/** `addUniqueUrl` from the in-page extraction script: URL cleaning, the
    insertion-ordered set semantics of the image and video arrays, and the
    fold of `addUniqueUrl` over a sequence of discovered URLs. */
module MediaCollector {
  import opened Wrappers
  import opened Strings

  /** Relative URLs (leading `/`) are resolved against this origin. */
  const RelativeBase := "https://www.threads.com"

  /** No element occurs twice. */
  predicate NoDup<T(==)>(s: seq<T>) {
    forall i, j :: 0 <= i < j < |s| ==> s[i] != s[j]
  }

  function Elems<T>(s: seq<T>): set<T> {
    set x | x in s
  }

  /** A duplicate-free list holds each of its elements exactly once. */
  lemma {:induction false} NoDupOnce<T>(s: seq<T>, x: T)
    requires NoDup(s) && x in s
    ensures multiset(s)[x] == 1
    decreases |s|
  {
    assert s == [s[0]] + s[1..];
    if s[0] == x {
      assert x !in s[1..] by {
        forall j | 0 <= j < |s[1..]| ensures s[1..][j] != x {
          assert s[1..][j] == s[j + 1];
        }
      }
    } else {
      NoDupOnce(s[1..], x);
    }
  }

  /** A leading `/` is resolved against the Threads origin. */
  function Absolute(url: string): string {
    if StartsWith(url, "/") then RelativeBase + url else url
  }

  /** The query is kept only on content-delivery URLs, as the source's
      `!includes('cdn') && !includes('fbcdn')` guard decides. */
  predicate KeepsQuery(url: string) {
    Contains(url, "cdn") || Contains(url, "fbcdn")
  }

  /** The `fbcdn` test adds nothing: every `fbcdn` URL contains `cdn`. */
  lemma FbcdnSubsumed(url: string)
    ensures KeepsQuery(url) <==> Contains(url, "cdn")
  {
    if Contains(url, "fbcdn") {
      var j := IndexOf(url, "fbcdn").value;
      assert url[j + 2..j + 5] == url[j..j + 5][2..5] == "cdn";
      ContainsAt(url, "cdn", j + 2);
    }
  }

  /** The URL `addUniqueUrl` stores for `url`, or None when it is a `data:`
      URL (which is skipped). */
  function CleanUrl(url: string): (r: Option<string>)
    ensures r.None? <==> StartsWith(Absolute(url), "data:")
    ensures r.Some? ==> |r.value| <= |Absolute(url)| && r.value == Absolute(url)[..|r.value|]
    ensures r.Some? && KeepsQuery(Absolute(url)) ==> r.value == Absolute(url)
    ensures r.Some? && !KeepsQuery(Absolute(url)) ==>
      '?' !in r.value && (r.value == Absolute(url) || Absolute(url)[|r.value|] == '?')
  {
    var c := Absolute(url);
    if StartsWith(c, "data:") then None
    else if '?' in c && !KeepsQuery(c) then
      Some(c[..CharIndex(c, '?').value])
    else
      Some(c)
  }

  /** Cleaning a cleaned URL changes nothing. */
  lemma CleanUrlIdempotent(url: string)
    requires CleanUrl(url).Some?
    ensures CleanUrl(CleanUrl(url).value) == CleanUrl(url)
  {
    var c := Absolute(url);
    var r := CleanUrl(url).value;
    assert r == c[..|r|];
    // r does not start with "/": either the origin was prepended or the
    // raw URL did not start with "/"
    if |r| > 0 {
      assert r[0] == c[0];
      if StartsWith(url, "/") {
        assert c[0] == 'h';
      } else {
        assert url[..1] != "/";
        assert c[0] != '/';
      }
    }
    assert !StartsWith(r, "/");
    assert Absolute(r) == r;
    assert !StartsWith(r, "data:");
    if '?' in r {
      FbcdnSubsumed(c);
      FbcdnSubsumed(r);
      if !KeepsQuery(c) {
        assert false;
      }
      assert r == c;
    } else {
      assert CleanUrl(r) == Some(r);
    }
  }

  /** `addUniqueUrl`'s return value and the array after the call. */
  datatype Added = Added(added: bool, list: seq<string>)

  /** `addUniqueUrl(url, list)`: a falsy or `data:` URL is skipped; otherwise
      the cleaned URL is appended unless already present. */
  function AddUniqueUrl(url: string, list: seq<string>): (r: Added)
    ensures r.added <==> url != "" && CleanUrl(url).Some? && CleanUrl(url).value !in list
    ensures r.added ==> r.list == list + [CleanUrl(url).value]
    ensures !r.added ==> r.list == list
    ensures NoDup(list) ==> NoDup(r.list)
  {
    if url == "" then Added(false, list)
    else
      match CleanUrl(url)
      case None => Added(false, list)
      case Some(c) =>
        if c in list then Added(false, list) else Added(true, list + [c])
  }

  /** The URLs a sequence of `addUniqueUrl` calls tries to insert: the
      cleaned form of every non-empty, non-`data:` URL, in call order. */
  function Cleaned(urls: seq<string>): (r: seq<string>)
    ensures |r| <= |urls|
  {
    if urls == [] then [] else CleanedOne(urls[0]) + Cleaned(urls[1..])
  }

  /** What one `addUniqueUrl(url, ...)` call tries to insert. */
  function CleanedOne(url: string): (r: seq<string>)
    ensures |r| <= 1
    ensures r == [] <==> url == "" || CleanUrl(url).None?
    ensures r != [] ==> r == [CleanUrl(url).value]
  {
    if url != "" && CleanUrl(url).Some? then [CleanUrl(url).value] else []
  }

  lemma {:induction false} CleanedAppend(a: seq<string>, b: seq<string>)
    ensures Cleaned(a + b) == Cleaned(a) + Cleaned(b)
    decreases |a|
  {
    if a == [] {
      assert a + b == b;
    } else {
      assert (a + b)[0] == a[0] && (a + b)[1..] == a[1..] + b;
      CleanedAppend(a[1..], b);
      assert Cleaned(a + b) == CleanedOne(a[0]) + (Cleaned(a[1..]) + Cleaned(b));
    }
  }

  /** `urls.forEach(u => addUniqueUrl(u, list))`. */
  function Collect(list: seq<string>, urls: seq<string>): (r: seq<string>)
    ensures |list| <= |r| <= |list| + |urls|
    ensures r[..|list|] == list
    ensures NoDup(list) ==> NoDup(r)
    ensures Elems(r) == Elems(list) + Elems(Cleaned(urls))
    decreases |urls|
  {
    if urls == [] then list
    else
      var next := AddUniqueUrl(urls[0], list).list;
      CollectStepElems(list, urls);
      var r := Collect(next, urls[1..]);
      PrefixOfPrefix(list, next, r);
      r
  }

  lemma PrefixOfPrefix<T>(a: seq<T>, b: seq<T>, c: seq<T>)
    requires |a| <= |b| <= |c| && b[..|a|] == a && c[..|b|] == b
    ensures c[..|a|] == a
  {
    assert c[..|a|] == c[..|b|][..|a|];
  }

  lemma ElemsConcat<T>(a: seq<T>, b: seq<T>)
    ensures Elems(a + b) == Elems(a) + Elems(b)
  {
  }

  /** One `addUniqueUrl` call moves the first URL's cleaned form into the
      array. */
  lemma CollectStepElems(list: seq<string>, urls: seq<string>)
    requires urls != []
    ensures Elems(AddUniqueUrl(urls[0], list).list) + Elems(Cleaned(urls[1..]))
         == Elems(list) + Elems(Cleaned(urls))
  {
    var step := AddUniqueUrl(urls[0], list);
    ElemsConcat(CleanedOne(urls[0]), Cleaned(urls[1..]));
    if step.added {
      ElemsConcat(list, [CleanUrl(urls[0]).value]);
    } else if CleanedOne(urls[0]) != [] {
      assert CleanUrl(urls[0]).value in list;
    }
  }

  lemma {:induction false} CollectAppend(list: seq<string>, a: seq<string>, b: seq<string>)
    ensures Collect(list, a + b) == Collect(Collect(list, a), b)
    decreases |a|
  {
    if a == [] {
      assert a + b == b;
    } else {
      assert (a + b)[0] == a[0] && (a + b)[1..] == a[1..] + b;
      CollectAppend(AddUniqueUrl(a[0], list).list, a[1..], b);
    }
  }

  // ---------------------------------------------------------------------
  // A reference definition: first occurrences, in order

  /** `xs` without the elements of `s`, order kept. */
  function Without(xs: seq<string>, s: set<string>): (r: seq<string>)
    ensures |r| <= |xs|
  {
    if xs == [] then []
    else (if xs[0] in s then [] else [xs[0]]) + Without(xs[1..], s)
  }

  /** The first occurrence of every element of `xs`, in order of first
      occurrence. */
  function FirstSeen(xs: seq<string>): seq<string>
    decreases |xs|
  {
    if xs == [] then [] else [xs[0]] + FirstSeen(Without(xs[1..], {xs[0]}))
  }

  lemma {:induction false} WithoutWithout(xs: seq<string>, s: set<string>, t: set<string>)
    ensures Without(Without(xs, s), t) == Without(xs, s + t)
    decreases |xs|
  {
    if xs != [] {
      WithoutWithout(xs[1..], s, t);
      var w := Without(xs, s);
      if xs[0] !in s {
        assert w[0] == xs[0] && w[1..] == Without(xs[1..], s);
      } else {
        assert w == Without(xs[1..], s);
      }
    }
  }

  lemma ElemsSnoc(list: seq<string>, c: string)
    ensures Elems(list + [c]) == Elems(list) + {c}
  {
  }

  /** The fold of single insertions equals the original array followed by
      the first occurrences of the new URLs: insertion order is first-seen
      order, and nothing is added twice. */
  lemma {:induction false} CollectIsFirstSeen(list: seq<string>, urls: seq<string>)
    ensures Collect(list, urls) == list + FirstSeen(Without(Cleaned(urls), Elems(list)))
    decreases |urls|
  {
    if urls == [] {
    } else {
      var step := AddUniqueUrl(urls[0], list);
      var rest := Cleaned(urls[1..]);
      var head := CleanedOne(urls[0]);
      assert Cleaned(urls) == head + rest;
      assert Collect(list, urls) == Collect(step.list, urls[1..]);
      CollectIsFirstSeen(step.list, urls[1..]);
      if step.added {
        var c := CleanUrl(urls[0]).value;
        CollectAdded(list, c, rest);
      } else if head != [] {
        assert Without(head + rest, Elems(list)) == Without(rest, Elems(list)) by {
          assert (head + rest)[0] in Elems(list);
          assert (head + rest)[1..] == rest;
        }
      } else {
        assert head + rest == rest;
      }
    }
  }

  lemma WithoutCons(c: string, rest: seq<string>, s: set<string>)
    ensures Without([c] + rest, s) == (if c in s then [] else [c]) + Without(rest, s)
  {
    assert ([c] + rest)[0] == c && ([c] + rest)[1..] == rest;
  }

  lemma FirstSeenCons(c: string, rest: seq<string>)
    ensures FirstSeen([c] + rest) == [c] + FirstSeen(Without(rest, {c}))
  {
    assert ([c] + rest)[0] == c && ([c] + rest)[1..] == rest;
  }

  lemma FirstSeenStep(c: string, rest: seq<string>, s: set<string>)
    requires c !in s
    ensures FirstSeen(Without([c] + rest, s)) == [c] + FirstSeen(Without(rest, s + {c}))
  {
    WithoutCons(c, rest, s);
    FirstSeenCons(c, Without(rest, s));
    WithoutWithout(rest, s, {c});
  }

  lemma FirstSeenAfterSnoc(list: seq<string>, c: string, rest: seq<string>)
    ensures FirstSeen(Without(rest, Elems(list + [c]))) == FirstSeen(Without(rest, Elems(list) + {c}))
  {
    ElemsSnoc(list, c);
  }

  lemma SnocAssoc(list: seq<string>, c: string, tail: seq<string>)
    ensures (list + [c]) + tail == list + ([c] + tail)
  {
  }

  /** The step of `CollectIsFirstSeen` where a new URL `c` is appended. */
  lemma CollectAdded(list: seq<string>, c: string, rest: seq<string>)
    requires c !in list
    ensures (list + [c]) + FirstSeen(Without(rest, Elems(list + [c])))
         == list + FirstSeen(Without([c] + rest, Elems(list)))
  {
    var s := Elems(list);
    var tail := FirstSeen(Without(rest, s + {c}));
    FirstSeenAfterSnoc(list, c, rest);
    FirstSeenStep(c, rest, s);
    SnocAssoc(list, c, tail);
  }

  /** Re-inserting URLs that are all already present changes nothing. */
  lemma {:induction false} CollectPresent(list: seq<string>, urls: seq<string>)
    requires Elems(Cleaned(urls)) <= Elems(list)
    ensures Collect(list, urls) == list
    decreases |urls|
  {
    if urls != [] {
      var rest := Cleaned(urls[1..]);
      var head := CleanedOne(urls[0]);
      assert Cleaned(urls) == head + rest;
      assert Elems(rest) <= Elems(Cleaned(urls));
      if head != [] {
        assert head[0] in Cleaned(urls);
        assert head[0] in Elems(Cleaned(urls));
        assert head[0] in list;
      }
      assert AddUniqueUrl(urls[0], list).list == list;
      CollectPresent(list, urls[1..]);
    }
  }

  /** Running the same discovery twice never doubles an entry. */
  lemma CollectTwiceSame(list: seq<string>, urls: seq<string>)
    ensures Collect(Collect(list, urls), urls) == Collect(list, urls)
  {
    CollectPresent(Collect(list, urls), urls);
  }
}
