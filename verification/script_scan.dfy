/** The last-resort video strategy: every `"video_url":"X"` in the text of
    a `<script>` element contributes `X`. The regular expression
    `/"video_url":"([^"]+)"/g` and the two `replace` calls that strip the
    match down to `X` are modelled directly. */
module ScriptScan {
  import opened Wrappers
  import opened Strings

  /** `"video_url":"` */
  const Marker := "\"video_url\":\""
  const Quote := "\""

  /** One whole match of the pattern: the marker, a non-empty run of
      non-quote characters, and the closing quote. */
  predicate IsVideoMatch(m: string) {
    && |m| > |Marker| + 1
    && StartsWith(m, Marker)
    && m[|m| - 1] == '"'
    && '"' !in m[|Marker|..|m| - 1]
  }

  /** The match of the pattern that starts exactly at the front of `s`. */
  function MatchAt(s: string): (r: Option<string>)
    ensures r.Some? ==> IsVideoMatch(r.value) && StartsWith(s, r.value)
  {
    if !StartsWith(s, Marker) then None
    else
      var body := s[|Marker|..];
      match CharIndex(body, '"')
      case None => None
      case Some(k) =>
        if k == 0 then None
        else
          var m := s[..|Marker| + k + 1];
          assert m[|Marker|..|m| - 1] == body[..k];
          Some(m)
  }

  /** `text.match(/"video_url":"([^"]+)"/g)`: the whole matches, left to
      right, each search resuming after the previous match. */
  function Matches(text: string): (r: seq<string>)
    ensures forall i :: 0 <= i < |r| ==> IsVideoMatch(r[i])
    decreases |text|
  {
    if text == [] then []
    else
      match MatchAt(text)
      case Some(m) => [m] + Matches(text[|m|..])
      case None => Matches(text[1..])
  }

  /** `match.replace('"video_url":"', '').replace('"', '')`. */
  function StripMatch(m: string): string {
    ReplaceFirst(ReplaceFirst(m, Marker, ""), Quote, "")
  }

  /** The two replacements leave exactly the captured URL. */
  lemma StripMatchIsCapture(m: string)
    requires IsVideoMatch(m)
    ensures StripMatch(m) == m[|Marker|..|m| - 1]
  {
    var x := m[|Marker|..|m| - 1];
    StripMarker(m);
    assert m[|Marker|..] == x + Quote;
    StripClosingQuote(x);
  }

  /** The first replacement removes the leading marker. */
  lemma StripMarker(m: string)
    requires StartsWith(m, Marker)
    ensures ReplaceFirst(m, Marker, "") == m[|Marker|..]
  {
    assert OccursAt(m, Marker, 0);
    assert IndexOf(m, Marker) == Some(0);
  }

  /** The second replacement removes the closing quote of a quote-free
      capture. */
  lemma StripClosingQuote(x: string)
    requires '"' !in x
    ensures ReplaceFirst(x + Quote, Quote, "") == x
  {
    var once := x + Quote;
    assert once[|x|..|x| + 1] == Quote;
    assert OccursAt(once, Quote, |x|);
    forall j: nat | j < |x| ensures !OccursAt(once, Quote, j) {
      assert once[j] == x[j];
    }
    assert IndexOf(once, Quote) == Some(|x|);
    assert once[..|x|] == x;
  }

  /** The video URLs one script contributes, in order of occurrence. */
  function VideoUrlsIn(text: string): (r: seq<string>)
    ensures forall i :: 0 <= i < |r| ==> r[i] != "" && '"' !in r[i]
  {
    StripAll(Matches(text))
  }

  /** `StripMatch` applied to each match, in order. */
  function StripAll(ms: seq<string>): (r: seq<string>)
    requires forall i :: 0 <= i < |ms| ==> IsVideoMatch(ms[i])
    ensures |r| == |ms|
    ensures forall i :: 0 <= i < |r| ==> r[i] == StripCapture(ms[i])
    ensures forall i :: 0 <= i < |r| ==> r[i] != "" && '"' !in r[i]
  {
    if ms == [] then [] else [StripCapture(ms[0])] + StripAll(ms[1..])
  }

  /** `StripMatch` on a whole match, with its result characterised. */
  function StripCapture(m: string): (x: string)
    requires IsVideoMatch(m)
    ensures x == m[|Marker|..|m| - 1]
    ensures x != "" && '"' !in x
  {
    StripMatchIsCapture(m);
    StripMatch(m)
  }

  // ---------------------------------------------------------------------
  // Soundness: every URL read back was written in the text

  /** A match is the marker, its capture and the closing quote. */
  lemma MatchShape(m: string)
    requires IsVideoMatch(m)
    ensures m == Marker + StripCapture(m) + Quote
  {
    var x := StripCapture(m);
    assert m[..|Marker|] == Marker;
    assert m[|m| - 1..] == Quote;
  }

  /** An occurrence in a suffix is an occurrence in the whole text. */
  lemma ContainsInSuffix(text: string, k: nat, p: string)
    requires k <= |text|
    requires Contains(text[k..], p)
    ensures Contains(text, p)
  {
    var j := IndexOf(text[k..], p).value;
    assert text[k + j..k + j + |p|] == text[k..][j..j + |p|];
    ContainsAt(text, p, k + j);
  }

  /** Every match is a piece of the text it was found in. */
  lemma {:induction false} MatchOccurs(text: string, m: string)
    requires m in Matches(text)
    ensures Contains(text, m)
    decreases |text|
  {
    var found := MatchAt(text);
    if found.Some? {
      var first := found.value;
      MatchesAfterMatch(text, first);
      if m == first {
        FirstMatchOccurs(text, m);
      } else {
        MatchOccurs(text[|first|..], m);
        ContainsInSuffix(text, |first|, m);
      }
    } else {
      MatchesAfterMiss(text);
      MatchOccurs(text[1..], m);
      ContainsInSuffix(text, 1, m);
    }
  }

  lemma MatchesAfterMatch(text: string, m: string)
    requires MatchAt(text) == Some(m)
    ensures Matches(text) == [m] + Matches(text[|m|..])
  {
  }

  lemma MatchesAfterMiss(text: string)
    requires text != [] && MatchAt(text).None?
    ensures Matches(text) == Matches(text[1..])
  {
  }

  lemma FirstMatchOccurs(text: string, m: string)
    requires MatchAt(text) == Some(m)
    ensures Contains(text, m)
  {
    assert OccursAt(text, m, 0);
    ContainsAt(text, m, 0);
  }

  /** Every URL a script yields was written into it as `"video_url":"x"`. */
  lemma VideoUrlsSound(text: string, x: string)
    requires x in VideoUrlsIn(text)
    ensures Contains(text, Marker + x + Quote)
  {
    var ms := Matches(text);
    var i :| 0 <= i < |StripAll(ms)| && StripAll(ms)[i] == x;
    MatchOccurs(text, ms[i]);
    MatchShape(ms[i]);
  }

  // ---------------------------------------------------------------------
  // Round trip: the URLs written into a script are the URLs read back

  /** A script text holding `"video_url":"x"` for each `x`, in order, with
      other script text before, between and after the occurrences:
      `seps[0] + occurrence + seps[1] + ... + seps[|xs|]`. */
  function Layout(xs: seq<string>, seps: seq<string>): string
    requires |seps| == |xs| + 1
  {
    if xs == [] then seps[0] else seps[0] + Marker + xs[0] + Quote + Layout(xs[1..], seps[1..])
  }

  predicate ValidVideoUrl(x: string) {
    x != "" && '"' !in x
  }

  /** No marker starts inside `sep`, even one that runs on into a marker
      written right after it. JSON around an occurrence is of this kind:
      its quotes are followed by keys such as `id`, not by `video_url`. */
  predicate MarkerFree(sep: string) {
    forall j: nat :: j < |sep| ==> !OccursAt(sep + Marker, Marker, j)
  }

  /** Text in which no marker starts before `rest` holds no match there and
      leaves the matches of `rest` as they are. */
  lemma {:induction false} MatchesSkip(sep: string, rest: string)
    requires forall j: nat :: j < |sep| ==> !OccursAt(sep + rest, Marker, j)
    ensures Matches(sep + rest) == Matches(rest)
    decreases |sep|
  {
    if sep != [] {
      var text := sep + rest;
      assert !OccursAt(text, Marker, 0);
      assert !StartsWith(text, Marker);
      assert MatchAt(text) == None;
      assert Matches(text) == Matches(text[1..]);
      assert text[1..] == sep[1..] + rest;
      forall j: nat | j < |sep[1..]| ensures !OccursAt(sep[1..] + rest, Marker, j) {
        OccursAtTail(text, Marker, j);
      }
      MatchesSkip(sep[1..], rest);
    } else {
      assert sep + rest == rest;
    }
  }

  /** A marker-free separator followed by a marker holds no marker start. */
  lemma MarkerFreeBefore(sep: string, tail: string)
    requires MarkerFree(sep) && StartsWith(tail, Marker)
    ensures forall j: nat :: j < |sep| ==> !OccursAt(sep + tail, Marker, j)
  {
    forall j: nat | j < |sep| ensures !OccursAt(sep + tail, Marker, j) {
      assert !OccursAt(sep + Marker, Marker, j);
      assert forall i :: 0 <= i < |sep| + |Marker| ==> (sep + tail)[i] == (sep + Marker)[i];
    }
  }

  /** Text without a `"` is marker-free. */
  lemma QuoteFreeIsMarkerFree(sep: string)
    requires '"' !in sep
    ensures MarkerFree(sep)
  {
    forall j: nat | j < |sep| ensures !OccursAt(sep + Marker, Marker, j) {
      assert (sep + Marker)[j] == sep[j];
    }
  }

  /** A separator is marker-free when every `"` in it is not followed by
      the `v` that starts `video_url`. */
  lemma MarkerFreeByQuotes(sep: string)
    requires forall j :: 0 <= j < |sep| && sep[j] == '"' ==> (sep + Marker)[j + 1] != 'v'
    ensures MarkerFree(sep)
  {
    forall j: nat | j < |sep| ensures !OccursAt(sep + Marker, Marker, j) {
      var t := sep + Marker;
      assert Marker[0] == '"' && Marker[1] == 'v';
      assert t[j] == sep[j];
      if sep[j] == '"' {
        assert t[j + 1] != 'v';
      }
    }
  }

  /** The JSON text `{"id":"1",` before an occurrence is marker-free. */
  lemma JsonKeyIsMarkerFree()
    ensures MarkerFree("{\"id\":\"1\",")
  {
    var sep := "{\"id\":\"1\",";
    var t := sep + Marker;
    assert t[2] == 'i' && t[5] == ':' && t[7] == '1' && t[9] == ',';
    MarkerFreeByQuotes(sep);
  }

  lemma MatchesOfOccurrence(x: string, rest: string)
    requires ValidVideoUrl(x)
    ensures Matches(Marker + x + Quote + rest) == [Marker + x + Quote] + Matches(rest)
  {
    var s := Marker + x + Quote + rest;
    var m := Marker + x + Quote;
    MatchAtOccurrence(x, rest);
    MatchesAfterMatch(s, m);
    assert s[|m|..] == rest;
  }

  lemma MatchAtOccurrence(x: string, rest: string)
    requires ValidVideoUrl(x)
    ensures MatchAt(Marker + x + Quote + rest) == Some(Marker + x + Quote)
  {
    var s := Marker + x + Quote + rest;
    assert s[..|Marker|] == Marker;
    var body := s[|Marker|..];
    assert body == x + Quote + rest;
    QuoteAfterCapture(x, rest);
    assert s[..|Marker| + |x| + 1] == Marker + x + Quote;
  }

  lemma QuoteAfterCapture(x: string, rest: string)
    requires '"' !in x
    ensures CharIndex(x + Quote + rest, '"') == Some(|x|)
  {
    var body := x + Quote + rest;
    assert body[|x|] == '"';
    assert body[..|x|] == x;
  }

  /** Every URL written as `"video_url":"x"` is read back, in order, when
      no marker starts in the text before each occurrence and the text
      after the last occurrence holds no match. */
  lemma {:induction false} ScanRoundTrip(xs: seq<string>, seps: seq<string>)
    requires |seps| == |xs| + 1
    requires forall i :: 0 <= i < |xs| ==> ValidVideoUrl(xs[i])
    requires forall i :: 0 <= i < |xs| ==> MarkerFree(seps[i])
    requires Matches(seps[|xs|]) == []
    ensures VideoUrlsIn(Layout(xs, seps)) == xs
    decreases |xs|
  {
    if xs != [] {
      LayoutStep(xs, seps);
      assert seps[1..][|xs[1..]|] == seps[|xs|];
      ScanRoundTrip(xs[1..], seps[1..]);
      assert xs == [xs[0]] + xs[1..];
    }
  }

  /** The first occurrence of a layout is read first, then the rest. */
  lemma LayoutStep(xs: seq<string>, seps: seq<string>)
    requires |seps| == |xs| + 1 && xs != []
    requires ValidVideoUrl(xs[0]) && MarkerFree(seps[0])
    ensures VideoUrlsIn(Layout(xs, seps)) == [xs[0]] + VideoUrlsIn(Layout(xs[1..], seps[1..]))
  {
    var rest := Layout(xs[1..], seps[1..]);
    var m := Marker + xs[0] + Quote;
    assert Layout(xs, seps) == seps[0] + (m + rest);
    assert (m + rest)[..|Marker|] == Marker;
    MarkerFreeBefore(seps[0], m + rest);
    MatchesSkip(seps[0], m + rest);
    MatchesOfOccurrence(xs[0], rest);
    assert m[|Marker|..|m| - 1] == xs[0];
    VideoUrlsCons(Layout(xs, seps), m, rest);
  }

  lemma VideoUrlsCons(text: string, m: string, rest: string)
    requires IsVideoMatch(m)
    requires Matches(text) == [m] + Matches(rest)
    ensures VideoUrlsIn(text) == [StripCapture(m)] + VideoUrlsIn(rest)
  {
    assert ([m] + Matches(rest))[1..] == Matches(rest);
  }

  /** An empty `"video_url":""` member is not marker-free: a marker starts
      in it, though the pattern finds no match there. */
  lemma EmptyVideoMemberNotMarkerFree()
    ensures !MarkerFree("{\"video_url\":\"\",")
  {
    var sep := "{\"video_url\":\"\",";
    var t := sep + Marker;
    assert t[1..1 + |Marker|] == Marker;
    assert OccursAt(t, Marker, 1);
  }

  /** A JSON script with one occurrence after a key yields that URL. */
  lemma JsonScriptScenario()
    ensures VideoUrlsIn("{\"id\":\"1\"," + Marker + "u" + Quote + "}") == ["u"]
  {
    var sep := "{\"id\":\"1\",";
    JsonKeyIsMarkerFree();
    ShortTextNoMatches("}");
    assert Layout(["u"], [sep, "}"]) == sep + Marker + "u" + Quote + Layout([], ["}"]);
    ScanRoundTrip(["u"], [sep, "}"]);
  }

  /** A script without `"video_url":"` yields no match. */
  lemma NoMarkerNoUrls(text: string)
    requires !Contains(text, Marker)
    ensures Matches(text) == []
  {
    assert text + [] == text;
    MatchesSkip(text, []);
  }

  /** Text shorter than the marker holds no match. */
  lemma {:induction false} ShortTextNoMatches(text: string)
    requires |text| < |Marker|
    ensures Matches(text) == []
    decreases |text|
  {
    if text != [] {
      assert MatchAt(text) == None;
      ShortTextNoMatches(text[1..]);
    }
  }

  /** A `"` in the surrounding text can change what is read: in
      `"video_url":"video_url":"x"` the first match captures `video_url`. */
  lemma QuoteInTextMatters()
    ensures VideoUrlsIn("\"video_url\":" + Marker + "x" + Quote) == ["video_url"]
  {
    var rest := ":\"x\"";
    var m := Marker + "video_url" + Quote;
    assert "\"video_url\":" + Marker + "x" + Quote == m + rest;
    MatchesOfOccurrence("video_url", rest);
    ShortTextNoMatches(rest);
    VideoUrlsCons(m + rest, m, rest);
    assert m[|Marker|..|m| - 1] == "video_url";
  }

  /** The video URLs of all scripts, script by script. */
  function ScriptVideoUrls(scripts: seq<string>): (r: seq<string>)
    ensures forall i :: 0 <= i < |r| ==> r[i] != "" && '"' !in r[i]
  {
    if scripts == [] then [] else VideoUrlsIn(scripts[0]) + ScriptVideoUrls(scripts[1..])
  }

  /** Every URL the scripts yield was written into one of them. */
  lemma {:induction false} ScriptVideoUrlsSound(scripts: seq<string>, x: string)
    requires x in ScriptVideoUrls(scripts)
    ensures exists i :: 0 <= i < |scripts| && Contains(scripts[i], Marker + x + Quote)
  {
    if x in VideoUrlsIn(scripts[0]) {
      VideoUrlsSound(scripts[0], x);
    } else {
      ScriptVideoUrlsSound(scripts[1..], x);
      var i :| 0 <= i < |scripts[1..]| && Contains(scripts[1..][i], Marker + x + Quote);
      assert scripts[i + 1] == scripts[1..][i];
    }
  }
}
