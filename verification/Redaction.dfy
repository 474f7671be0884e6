/** Finding credential-shaped spans in text, covering them with a marker, and the two ways of walking a payload. */
module Redaction {
  import opened Wrappers
  import opened Sorting

  /** The declared value rule; words are already folded. */
  datatype Rules = Rules(words: seq<string>, minBody: nat, skipsSpace: bool, spaces: set<char>, marker: string)

  function LowerAscii(c: char): char {
    if 'A' <= c <= 'Z' then c - 'A' + 'a' else c
  }

  /** Only ASCII letters fold, so every place of the folded text is the same place of the text. */
  function Fold(text: string): (r: string)
    ensures |r| == |text|
    ensures forall i | 0 <= i < |r| :: r[i] == LowerAscii(text[i])
  {
    seq(|text|, i requires 0 <= i < |text| => LowerAscii(text[i]))
  }

  predicate BodyChar(c: char) {
    'a' <= c <= 'z' || 'A' <= c <= 'Z' || '0' <= c <= '9' || c == '-' || c == '_' || c == '.'
  }

  /** The first place at or after `i` that is no skipped space. */
  function BodyStart(r: Rules, s: string, i: nat): (j: nat)
    requires i <= |s|
    ensures i <= j <= |s|
    decreases |s| - i
  {
    if r.skipsSpace && i < |s| && s[i] in r.spaces then BodyStart(r, s, i + 1) else i
  }

  /** The end of the run of body characters that starts at `i`. */
  function BodyEnd(s: string, i: nat): (j: nat)
    requires i <= |s|
    ensures i <= j <= |s|
    decreases |s| - i
  {
    if i < |s| && BodyChar(s[i]) then BodyEnd(s, i + 1) else i
  }

  function RunEnd(r: Rules, s: string, i: nat): (j: nat)
    requires i <= |s|
    ensures i <= j <= |s|
  {
    BodyEnd(s, BodyStart(r, s, i))
  }

  function RunLength(r: Rules, s: string, i: nat): nat
    requires i <= |s|
  {
    RunEnd(r, s, i) - BodyStart(r, s, i)
  }

  method BodyBounds(r: Rules, folded: string, index: nat) returns (length: nat, end: nat)
    requires index <= |folded|
    ensures length == RunLength(r, folded, index) && end == RunEnd(r, folded, index)
  {
    var start := index;
    if r.skipsSpace {
      while start < |folded| && folded[start] in r.spaces
        invariant index <= start <= |folded|
        invariant BodyStart(r, folded, index) == BodyStart(r, folded, start)
      {
        start := start + 1;
      }
    }
    end := start;
    while end < |folded| && BodyChar(folded[end])
      invariant start <= end <= |folded|
      invariant BodyEnd(folded, start) == BodyEnd(folded, end)
    {
      end := end + 1;
    }
    length := end - start;
  }

  predicate OccursAt(s: string, w: string, p: nat) {
    p + |w| <= |s| && s[p..p + |w|] == w
  }

  /** `str.find`: the first occurrence at or after `from`, or -1. */
  function Find(s: string, w: string, from: nat): (p: int)
    ensures p == -1 || (from <= p && OccursAt(s, w, p))
    ensures forall q | from <= q && (p == -1 || q < p) :: !OccursAt(s, w, q)
    decreases |s| - from
  {
    if from + |w| > |s| then -1 else if OccursAt(s, w, from) then from else Find(s, w, from + 1)
  }

  /** A word followed, after skipped spaces, by a body long enough to be a credential. */
  predicate Credential(r: Rules, s: string, w: string, p: nat): (b: bool)
    ensures b ==> p + |w| <= |s|
  {
    OccursAt(s, w, p) && RunLength(r, s, p + |w|) >= r.minBody
  }

  /** The declarative meaning of a suspect text. */
  ghost predicate Suspect(r: Rules, s: string) {
    exists k, p: nat :: 0 <= k < |r.words| && Credential(r, s, r.words[k], p)
  }

  ghost predicate SuspectText(r: Rules, text: string) { Suspect(r, Fold(text)) }

  method CarriesBody(r: Rules, folded: string, word: string) returns (found: bool)
    ensures found <==> exists p: nat :: Credential(r, folded, word, p)
  {
    var start := Find(folded, word, 0);
    while start != -1
      invariant start == -1 || OccursAt(folded, word, start)
      invariant forall p: nat | start == -1 || p < start :: !Credential(r, folded, word, p)
      decreases if start == -1 then 0 else |folded| - start + 1
    {
      var length, _ := BodyBounds(r, folded, start + |word|);
      if length >= r.minBody {
        assert Credential(r, folded, word, start);
        return true;
      }
      start := Find(folded, word, start + 1);
    }
    return false;
  }

  method IsSuspectText(r: Rules, text: string) returns (found: bool)
    ensures found <==> SuspectText(r, text)
  {
    var folded := Fold(text);
    for k := 0 to |r.words|
      invariant forall j, p: nat | 0 <= j < k :: !Credential(r, folded, r.words[j], p)
    {
      var carries := CarriesBody(r, folded, r.words[k]);
      if carries {
        return true;
      }
    }
    return false;
  }

  // ----- spans

  datatype Span = Span(start: nat, end: nat)

  /** Tuple order. */
  predicate SpanLe(a: Span, b: Span) {
    a.start < b.start || (a.start == b.start && a.end <= b.end)
  }

  /** The credential spans of one word from a place on. */
  function WordSpans(r: Rules, s: string, w: string, from: nat): seq<Span>
    decreases |s| - from
  {
    if from + |w| > |s| then []
    else
      (if Credential(r, s, w, from) then [Span(from, RunEnd(r, s, from + |w|))] else []) + WordSpans(r, s, w, from + 1)
  }

  function FoundSpans(r: Rules, s: string, words: seq<string>): seq<Span> {
    if words == [] then [] else FoundSpans(r, s, words[..|words| - 1]) + WordSpans(r, s, words[|words| - 1], 0)
  }

  /** One step of merging: a span that starts inside or right after the last one widens it. */
  function Absorb(merged: seq<Span>, next: Span): seq<Span> {
    var n := |merged|;
    if n > 0 && next.start <= merged[n - 1].end
    then merged[n - 1 := Span(merged[n - 1].start, if next.end > merged[n - 1].end then next.end else merged[n - 1].end)]
    else merged + [next]
  }

  function Merge(sorted: seq<Span>): seq<Span> {
    if sorted == [] then [] else Absorb(Merge(sorted[..|sorted| - 1]), sorted[|sorted| - 1])
  }

  function Spans(r: Rules, s: string): seq<Span> {
    Merge(Sort(FoundSpans(r, s, r.words), SpanLe))
  }

  /** The spans from an occurrence on; none once the search came back with -1. */
  function SpansFrom(r: Rules, s: string, w: string, start: int): seq<Span>
    requires start >= -1
  {
    if start == -1 then [] else WordSpans(r, s, w, start)
  }

  lemma {:induction false} SkipToFind(r: Rules, s: string, w: string, from: nat)
    ensures WordSpans(r, s, w, from) == SpansFrom(r, s, w, Find(s, w, from))
    decreases |s| - from
  {
    if from + |w| <= |s| && !OccursAt(s, w, from) {
      SkipToFind(r, s, w, from + 1);
    }
  }

  lemma AtOccurrence(r: Rules, s: string, w: string, start: nat)
    requires OccursAt(s, w, start)
    ensures WordSpans(r, s, w, start)
         == (if RunLength(r, s, start + |w|) >= r.minBody then [Span(start, RunEnd(r, s, start + |w|))] else [])
            + SpansFrom(r, s, w, Find(s, w, start + 1))
  {
    SkipToFind(r, s, w, start + 1);
  }

  method SuspectSpans(r: Rules, folded: string) returns (merged: seq<Span>)
    ensures merged == Spans(r, folded)
  {
    var found := [];
    for k := 0 to |r.words|
      invariant found == FoundSpans(r, folded, r.words[..k])
    {
      assert r.words[..k + 1][..k] == r.words[..k];
      var more := SpansOfWord(r, folded, r.words[k]);
      found := found + more;
    }
    assert r.words[..|r.words|] == r.words;
    var sorted := Sort(found, SpanLe);
    merged := [];
    for k := 0 to |sorted|
      invariant merged == Merge(sorted[..k])
    {
      assert sorted[..k + 1][..k] == sorted[..k];
      var n := |merged|;
      if n > 0 && sorted[k].start <= merged[n - 1].end {
        merged := merged[n - 1 := Span(merged[n - 1].start, if sorted[k].end > merged[n - 1].end then sorted[k].end else merged[n - 1].end)];
      } else {
        merged := merged + [sorted[k]];
      }
    }
    assert sorted[..|sorted|] == sorted;
  }

  method SpansOfWord(r: Rules, folded: string, word: string) returns (found: seq<Span>)
    ensures found == WordSpans(r, folded, word, 0)
  {
    hide WordSpans, RunLength, RunEnd;
    found := [];
    var start := Find(folded, word, 0);
    SkipToFind(r, folded, word, 0);
    while start != -1
      invariant start == -1 || OccursAt(folded, word, start)
      invariant WordSpans(r, folded, word, 0) == found + SpansFrom(r, folded, word, start)
      decreases if start == -1 then 0 else |folded| - start + 1
    {
      AtOccurrence(r, folded, word, start);
      var length, end := BodyBounds(r, folded, start + |word|);
      if length >= r.minBody {
        found := found + [Span(start, end)];
      }
      start := Find(folded, word, start + 1);
    }
  }

  // ----- covering

  /** The text from a cursor on, with the marker in place of every span. */
  function Rebuilt(text: string, spans: seq<Span>, marker: string, cursor: nat): string
    requires Separate(spans, cursor, |text|)
    decreases |spans|
  {
    if spans == [] then text[cursor..]
    else text[cursor..spans[0].start] + marker + Rebuilt(text, spans[1..], marker, spans[0].end)
  }

  /** Spans in order inside the text, and a gap before every span but perhaps the first. */
  predicate Separate(spans: seq<Span>, cursor: nat, length: nat) {
    && cursor <= length
    && (spans != [] ==> cursor <= spans[0].start <= spans[0].end <= length)
    && (spans != [] ==> Separate(spans[1..], spans[0].end, length))
  }

  predicate Apart(spans: seq<Span>) {
    forall i, j | 0 <= i < j < |spans| :: spans[i].end < spans[j].start
  }

  predicate InRange(spans: seq<Span>, length: nat) {
    forall i | 0 <= i < |spans| :: spans[i].start <= spans[i].end <= length
  }

  predicate Covers(spans: seq<Span>, x: nat) {
    exists i | 0 <= i < |spans| :: spans[i].start <= x < spans[i].end
  }

  lemma CoversAppend(spans: seq<Span>, next: Span, x: nat)
    ensures Covers(spans + [next], x) <==> Covers(spans, x) || next.start <= x < next.end
  {
    var all := spans + [next];
    assert forall i | 0 <= i < |spans| :: all[i] == spans[i];
    assert all[|spans|] == next;
  }

  lemma AbsorbCovers(merged: seq<Span>, next: Span, x: nat)
    requires next.start <= next.end
    requires merged != [] ==> merged[|merged| - 1].start <= next.start
    ensures Covers(Absorb(merged, next), x) <==> Covers(merged, x) || next.start <= x < next.end
  {
    var n := |merged|;
    if n > 0 && next.start <= merged[n - 1].end {
      var front, last := merged[..n - 1], merged[n - 1];
      var widened := Span(last.start, if next.end > last.end then next.end else last.end);
      assert merged == front + [last] && Absorb(merged, next) == front + [widened];
      CoversAppend(front, last, x);
      CoversAppend(front, widened, x);
    } else {
      CoversAppend(merged, next, x);
    }
  }

  lemma AbsorbKeeps(merged: seq<Span>, next: Span, length: nat)
    requires InRange(merged, length) && Apart(merged) && next.start <= next.end <= length
    requires merged != [] ==> merged[|merged| - 1].start <= next.start
    ensures var m := Absorb(merged, next); InRange(m, length) && Apart(m) && m != [] && m[|m| - 1].start <= next.start
  {
  }

  /** Merged spans lie in the text, with a gap between neighbours, and cover exactly what the given spans cover. */
  lemma {:induction false} MergeKeeps(sorted: seq<Span>, length: nat)
    requires Ordered(sorted, SpanLe) && InRange(sorted, length)
    ensures var m := Merge(sorted);
      && InRange(m, length) && Apart(m) && (m == [] <==> sorted == [])
      && (sorted != [] ==> m[|m| - 1].start <= sorted[|sorted| - 1].start)
      && forall x: nat :: Covers(m, x) <==> Covers(sorted, x)
  {
    hide Covers, Absorb;
    if sorted != [] {
      hide Apart;
      var n := |sorted| - 1;
      MergeKeeps(sorted[..n], length);
      assert n > 0 ==> SpanLe(sorted[n - 1], sorted[n]);
      AbsorbKeeps(Merge(sorted[..n]), sorted[n], length);
      forall x: nat ensures Covers(Merge(sorted), x) <==> Covers(sorted, x) {
        OneMoreCovers(sorted, x);
      }
    }
  }

  lemma OneMoreCovers(sorted: seq<Span>, x: nat)
    requires sorted != [] && sorted[|sorted| - 1].start <= sorted[|sorted| - 1].end
    requires var m := Merge(sorted[..|sorted| - 1]); m != [] ==> m[|m| - 1].start <= sorted[|sorted| - 1].start
    requires Covers(Merge(sorted[..|sorted| - 1]), x) <==> Covers(sorted[..|sorted| - 1], x)
    ensures Covers(Merge(sorted), x) <==> Covers(sorted, x)
  {
    hide Covers, Absorb;
    var n := |sorted| - 1;
    AbsorbCovers(Merge(sorted[..n]), sorted[n], x);
    CoversAppend(sorted[..n], sorted[n], x);
    assert sorted[..n] + [sorted[n]] == sorted;
  }

  lemma {:induction false} WordSpanMembers(r: Rules, s: string, w: string, from: nat, span: Span)
    ensures span in WordSpans(r, s, w, from) <==>
      from <= span.start && Credential(r, s, w, span.start) && span.end == RunEnd(r, s, span.start + |w|)
    decreases |s| - from
  {
    if from + |w| <= |s| {
      WordSpanMembers(r, s, w, from + 1, span);
    }
  }

  ghost predicate CredentialSpan(r: Rules, s: string, words: seq<string>, span: Span) {
    exists k | 0 <= k < |words| :: Credential(r, s, words[k], span.start) && span.end == RunEnd(r, s, span.start + |words[k]|)
  }

  lemma CredentialSpanSplits(r: Rules, s: string, words: seq<string>, n: nat, span: Span)
    requires |words| == n + 1
    ensures CredentialSpan(r, s, words, span) <==>
      CredentialSpan(r, s, words[..n], span)
      || (Credential(r, s, words[n], span.start) && span.end == RunEnd(r, s, span.start + |words[n]|))
  {
  }

  /** The search finds every credential, overlapping ones too, and nothing else. */
  lemma {:induction false} FoundMembers(r: Rules, s: string, words: seq<string>, span: Span)
    ensures span in FoundSpans(r, s, words) <==> CredentialSpan(r, s, words, span)
  {
    if words != [] {
      hide Credential, RunEnd, WordSpans, CredentialSpan;
      var n := |words| - 1;
      FoundMembers(r, s, words[..n], span);
      WordSpanMembers(r, s, words[n], 0, span);
      CredentialSpanSplits(r, s, words, n, span);
    }
  }

  lemma SpanLeIsPreorder()
    ensures TotalPreorder(SpanLe)
  {
  }

  /** The spans to cover: in the text, apart from each other, and together exactly the credentials' extent. */
  lemma SpansFacts(r: Rules, s: string)
    ensures var m := Spans(r, s);
      && InRange(m, |s|) && Apart(m)
      && (m == [] <==> !Suspect(r, s))
      && forall x: nat :: Covers(m, x) <==> exists span :: CredentialSpan(r, s, r.words, span) && span.start <= x < span.end
  {
    var found := FoundSpans(r, s, r.words);
    var sorted := Sort(found, SpanLe);
    SpanLeIsPreorder();
    SortOrders(found, SpanLe);
    SortMembers(found, SpanLe);
    forall span {
      FoundMembers(r, s, r.words, span);
    }
    forall i | 0 <= i < |sorted| ensures sorted[i].start <= sorted[i].end <= |s| {
      assert sorted[i] in found;
    }
    MergeKeeps(sorted, |s|);
    SuspectIffFound(r, s, found);
    forall x: nat ensures Covers(sorted, x) <==> exists span :: CredentialSpan(r, s, r.words, span) && span.start <= x < span.end {
      if Covers(sorted, x) {
        var i :| 0 <= i < |sorted| && sorted[i].start <= x < sorted[i].end;
        assert sorted[i] in found;
      }
      if span :| CredentialSpan(r, s, r.words, span) && span.start <= x < span.end {
        assert span in sorted;
      }
    }
  }

  lemma SuspectIffFound(r: Rules, s: string, found: seq<Span>)
    requires forall span :: span in found <==> CredentialSpan(r, s, r.words, span)
    ensures Suspect(r, s) <==> found != []
  {
    if Suspect(r, s) {
      var k, p: nat :| 0 <= k < |r.words| && Credential(r, s, r.words[k], p);
      assert CredentialSpan(r, s, r.words, Span(p, RunEnd(r, s, p + |r.words[k]|)));
    }
    if found != [] {
      assert found[0] in found;
    }
  }

  lemma {:induction false} ApartSeparate(spans: seq<Span>, cursor: nat, length: nat)
    requires InRange(spans, length) && Apart(spans) && cursor <= length
    requires spans != [] ==> cursor <= spans[0].start
    ensures Separate(spans, cursor, length)
  {
    if spans != [] {
      ApartSeparate(spans[1..], spans[0].end, length);
    }
  }

  lemma SpansSeparate(r: Rules, s: string)
    ensures Separate(Spans(r, s), 0, |s|)
  {
    SpansFacts(r, s);
    ApartSeparate(Spans(r, s), 0, |s|);
  }

  function CoveredText(r: Rules, text: string): string {
    SpansSeparate(r, Fold(text));
    Rebuilt(text, Spans(r, Fold(text)), r.marker, 0)
  }

  method CoverText(r: Rules, text: string) returns (covered: string)
    ensures covered == CoveredText(r, text)
  {
    var spans := SuspectSpans(r, Fold(text));
    SpansSeparate(r, Fold(text));
    if spans == [] {
      assert text[0..] == text;
      return text;
    }
    covered := Rebuild(text, spans, r.marker);
  }

  method Rebuild(text: string, spans: seq<Span>, marker: string) returns (covered: string)
    requires Separate(spans, 0, |text|)
    ensures covered == Rebuilt(text, spans, marker, 0)
  {
    covered := "";
    var cursor: nat := 0;
    assert spans[0..] == spans;
    for k := 0 to |spans|
      invariant Separate(spans[k..], cursor, |text|)
      invariant covered + Rebuilt(text, spans[k..], marker, cursor) == Rebuilt(text, spans, marker, 0)
    {
      assert spans[k..][1..] == spans[k + 1..] && spans[k..][0] == spans[k];
      RebuildStep(covered, text[cursor..spans[k].start], marker, Rebuilt(text, spans[k + 1..], marker, spans[k].end));
      covered := covered + text[cursor..spans[k].start] + marker;
      cursor := spans[k].end;
    }
    covered := covered + text[cursor..];
  }

  lemma RebuildStep(done: string, kept: string, marker: string, rest: string)
    ensures done + (kept + marker + rest) == (done + kept + marker) + rest
  {
  }

  // ----- the covered text is clean

  /** A character no word, no skipped space and no body contains. */
  predicate Separator(r: Rules, c: char) {
    !BodyChar(c) && c !in r.spaces && forall k | 0 <= k < |r.words| :: c !in r.words[k]
  }

  /** What the declared marker must be for covering to clean. */
  ghost predicate CleanMarker(r: Rules) {
    var m := Fold(r.marker);
    && (forall k | 0 <= k < |r.words| :: r.words[k] != "")
    && m != "" && Separator(r, m[0]) && Separator(r, m[|m| - 1]) && !Suspect(r, m)
  }

  function Least(a: nat, b: nat): nat { if a <= b then a else b }

  lemma {:induction false} BodyStartInPiece(r: Rules, s: string, a: nat, b: nat, i: nat)
    requires a + i <= b <= |s|
    ensures BodyStart(r, s[a..b], i) == Least(BodyStart(r, s, a + i), b) - a
    decreases b - i
  {
    if r.skipsSpace && a + i < b && s[a + i] in r.spaces {
      BodyStartInPiece(r, s, a, b, i + 1);
    }
  }

  lemma {:induction false} BodyEndInPiece(s: string, a: nat, b: nat, i: nat)
    requires a + i <= b <= |s|
    ensures BodyEnd(s[a..b], i) == Least(BodyEnd(s, a + i), b) - a
    decreases b - i
  {
    if a + i < b && BodyChar(s[a + i]) {
      BodyEndInPiece(s, a, b, i + 1);
    }
  }

  lemma SliceOfSlice(s: string, a: nat, b: nat, p: nat, q: nat)
    requires a <= b <= |s| && p <= q <= b - a
    ensures s[a..b][p..q] == s[a + p..a + q]
  {
    var piece := s[a..b];
    assert |piece[p..q]| == q - p == |s[a + p..a + q]|;
    forall i | 0 <= i < q - p ensures piece[p..q][i] == s[a + p..a + q][i] {
      assert piece[p..q][i] == piece[p + i] == s[a + p + i];
    }
    assert piece[p..q] == s[a + p..a + q];
  }

  lemma RunInPiece(r: Rules, s: string, a: nat, b: nat, i: nat)
    requires a + i <= b <= |s|
    ensures RunLength(r, s[a..b], i) <= RunLength(r, s, a + i)
  {
    BodyStartInPiece(r, s, a, b, i);
    var j := BodyStart(r, s, a + i);
    BodyEndInPiece(s, a, b, Least(j, b) - a);
  }

  /** A credential of a piece of a text is a credential of the text. */
  lemma CredentialInPiece(r: Rules, s: string, a: nat, b: nat, w: string, p: nat)
    requires a <= b <= |s| && Credential(r, s[a..b], w, p)
    ensures Credential(r, s, w, a + p)
  {
    hide RunLength;
    var i := p + |w|;
    SliceOfSlice(s, a, b, p, i);
    RunInPiece(r, s, a, b, i);
  }

  lemma SuspectPiece(r: Rules, s: string, a: nat, b: nat)
    requires a <= b <= |s|
    ensures Suspect(r, s[a..b]) ==> Suspect(r, s)
  {
    hide Credential;
    if Suspect(r, s[a..b]) {
      var k, p: nat :| 0 <= k < |r.words| && Credential(r, s[a..b], r.words[k], p);
      CredentialInPiece(r, s, a, b, r.words[k], p);
    }
  }

  lemma {:induction false} StartStopsAt(r: Rules, s: string, i: nat, q: nat)
    requires q <= i < |s| && s[i] !in r.spaces
    ensures BodyStart(r, s, q) <= i
    decreases i - q
  {
    if r.skipsSpace && s[q] in r.spaces {
      StartStopsAt(r, s, i, q + 1);
    }
  }

  lemma {:induction false} EndStopsAt(s: string, i: nat, q: nat)
    requires q <= i < |s| && !BodyChar(s[i])
    ensures BodyEnd(s, q) <= i
    decreases i - q
  {
    if BodyChar(s[q]) {
      EndStopsAt(s, i, q + 1);
    }
  }

  lemma CredentialAfter(r: Rules, s: string, a: nat, w: string, p: nat)
    requires a <= p && Credential(r, s, w, p)
    ensures Credential(r, s[a..], w, p - a)
  {
    var q := p + |w|;
    assert s[a..|s|] == s[a..];
    assert s[a..][p - a..q - a] == s[p..q];
    BodyStartInPiece(r, s, a, |s|, q - a);
    BodyEndInPiece(s, a, |s|, BodyStart(r, s, q) - a);
  }

  lemma CredentialBefore(r: Rules, s: string, i: nat, w: string, p: nat)
    requires p + |w| <= i < |s| && Separator(r, s[i]) && Credential(r, s, w, p)
    ensures Credential(r, s[..i], w, p)
  {
    hide BodyStart, BodyEnd, Separator, Credential;
    SeparatorStops(r, s[i]);
    var q := p + |w|;
    StartStopsAt(r, s, i, q);
    EndStopsAt(s, i, BodyStart(r, s, q));
    assert s[0..i] == s[..i];
    SliceOfSlice(s, 0, i, p, q);
    BodyStartInPiece(r, s, 0, i, q);
    BodyEndInPiece(s, 0, i, BodyStart(r, s, q));
    SameCredential(r, s, s[..i], w, p);
  }

  lemma SeparatorStops(r: Rules, c: char)
    requires Separator(r, c)
    ensures !BodyChar(c) && c !in r.spaces
  {
  }

  lemma SameCredential(r: Rules, s: string, piece: string, w: string, p: nat)
    requires Credential(r, s, w, p) && p + |w| <= |piece| && piece[p..p + |w|] == s[p..p + |w|]
    requires RunLength(r, piece, p + |w|) == RunLength(r, s, p + |w|)
    ensures Credential(r, piece, w, p)
  {
  }

  lemma OccurrenceContains(s: string, w: string, p: nat, i: nat)
    requires i < |s|
    ensures OccursAt(s, w, p) && p <= i < p + |w| ==> s[i] in w
  {
  }

  /** No credential reaches across a separator. */
  lemma BreakAt(r: Rules, s: string, i: nat)
    requires i < |s| && Separator(r, s[i])
    ensures Suspect(r, s) ==> Suspect(r, s[..i]) || Suspect(r, s[i + 1..])
  {
    hide RunLength;
    if Suspect(r, s) {
      var k, p: nat :| 0 <= k < |r.words| && Credential(r, s, r.words[k], p);
      if p + |r.words[k]| <= i {
        CredentialBefore(r, s, i, r.words[k], p);
      } else {
        OccurrenceContains(s, r.words[k], p, i);
        CredentialAfter(r, s, i + 1, r.words[k], p);
      }
    }
  }

  /** Two clean texts with a clean marker between them are clean together. */
  lemma CleanAroundMarker(r: Rules, before: string, m: string, after: string)
    requires m != "" && Separator(r, m[0]) && Separator(r, m[|m| - 1])
    requires !Suspect(r, before) && !Suspect(r, m) && !Suspect(r, after)
    ensures !Suspect(r, before + m + after)
  {
    hide Suspect, Separator;
    var s := before + m + after;
    BreakAt(r, s, |before|);
    assert s[..|before|] == before;
    var t := s[|before| + 1..];
    if |m| == 1 {
      assert t == after;
    } else {
      var last := |m| - 2;
      assert t[last] == m[|m| - 1];
      BreakAt(r, t, last);
      assert t[last + 1..] == after;
      assert t[..last] == m[1..|m| - 1];
      SuspectPiece(r, m, 1, |m| - 1);
    }
  }

  lemma FoldPieces(a: string, b: string, c: string)
    ensures Fold(a + b + c) == Fold(a) + Fold(b) + Fold(c)
  {
  }

  lemma {:induction false} SpansComeLater(spans: seq<Span>, cursor: nat, length: nat, i: nat)
    requires Separate(spans, cursor, length) && i < |spans|
    ensures spans[i].start >= spans[0].start
  {
    if i > 0 {
      SpansComeLater(spans[1..], spans[0].end, length, i - 1);
      assert spans[1..][i - 1] == spans[i];
      assert spans[1..][0].start >= spans[0].end;
    }
  }

  ghost predicate CoversFrom(r: Rules, s: string, spans: seq<Span>, cursor: nat) {
    forall k, p: nat | 0 <= k < |r.words| && p >= cursor && Credential(r, s, r.words[k], p) :: Covers(spans, p)
  }

  lemma GapIsClean(r: Rules, s: string, spans: seq<Span>, cursor: nat, until: nat)
    requires Separate(spans, cursor, |s|) && CoversFrom(r, s, spans, cursor)
    requires until == if spans == [] then |s| else spans[0].start
    requires forall k | 0 <= k < |r.words| :: r.words[k] != ""
    ensures !Suspect(r, s[cursor..until])
  {
    hide Credential;
    forall k, p: nat | 0 <= k < |r.words| && Credential(r, s[cursor..until], r.words[k], p) ensures false {
      CredentialInPiece(r, s, cursor, until, r.words[k], p);
      assert r.words[k] != "";
      assert Covers(spans, cursor + p);
      var i :| 0 <= i < |spans| && spans[i].start <= cursor + p < spans[i].end;
      SpansComeLater(spans, cursor, |s|, i);
    }
  }

  lemma {:induction false} RebuiltClean(r: Rules, text: string, spans: seq<Span>, cursor: nat)
    requires CleanMarker(r) && Separate(spans, cursor, |text|)
    requires CoversFrom(r, Fold(text), spans, cursor)
    ensures !SuspectText(r, Rebuilt(text, spans, r.marker, cursor))
    decreases |spans|
  {
    hide Suspect, Credential, Separator;
    var f := Fold(text);
    var until := if spans == [] then |text| else spans[0].start;
    var kept := text[cursor..until];
    assert Fold(kept) == f[cursor..until];
    GapIsClean(r, f, spans, cursor, until);
    if spans == [] {
      assert text[cursor..] == kept;
    } else {
      var rest := spans[1..];
      CoversRest(r, f, spans, cursor);
      RebuiltClean(r, text, rest, spans[0].end);
      var after := Rebuilt(text, rest, r.marker, spans[0].end);
      CleanAroundMarker(r, Fold(kept), Fold(r.marker), Fold(after));
      FoldPieces(kept, r.marker, after);
    }
  }

  lemma CoversRest(r: Rules, s: string, spans: seq<Span>, cursor: nat)
    requires spans != [] && CoversFrom(r, s, spans, cursor) && cursor <= spans[0].start <= spans[0].end
    ensures CoversFrom(r, s, spans[1..], spans[0].end)
  {
    hide Credential;
    forall k, p: nat | 0 <= k < |r.words| && p >= spans[0].end && Credential(r, s, r.words[k], p) ensures Covers(spans[1..], p) {
      assert Covers(spans, p);
      var i :| 0 <= i < |spans| && spans[i].start <= p < spans[i].end;
      assert spans[1..][i - 1] == spans[i];
    }
  }

  lemma SpansCoverCredentials(r: Rules, s: string)
    requires forall k | 0 <= k < |r.words| :: r.words[k] != ""
    ensures CoversFrom(r, s, Spans(r, s), 0)
  {
    SpansFacts(r, s);
    hide Spans, RunEnd, RunLength, Covers, OccursAt;
    forall k, p: nat | 0 <= k < |r.words| && Credential(r, s, r.words[k], p) ensures Covers(Spans(r, s), p) {
      var w := r.words[k];
      assert w != "";
      assert CredentialSpan(r, s, r.words, Span(p, RunEnd(r, s, p + |w|)));
    }
  }

  /** Covering leaves nothing a second look would find. */
  lemma CoveredIsClean(r: Rules, text: string)
    requires CleanMarker(r)
    ensures !SuspectText(r, CoveredText(r, text))
  {
    hide Suspect, Spans, Separate;
    SpansCoverCredentials(r, Fold(text));
    SpansSeparate(r, Fold(text));
    RebuiltClean(r, text, Spans(r, Fold(text)), 0);
  }

  lemma EmptyIsClean(r: Rules)
    requires CleanMarker(r)
    ensures !SuspectText(r, "")
  {
  }

  /** A text changes exactly when it is suspect; covering twice is covering once. */
  lemma CoveringIsIdentityOnClean(r: Rules, text: string)
    requires CleanMarker(r)
    ensures CoveredText(r, text) == text <==> !SuspectText(r, text)
    ensures CoveredText(r, CoveredText(r, text)) == CoveredText(r, text)
  {
    CoveredIsClean(r, text);
    CleanUnchanged(r, text);
    CleanUnchanged(r, CoveredText(r, text));
  }

  lemma CleanUnchanged(r: Rules, text: string)
    ensures !SuspectText(r, text) ==> CoveredText(r, text) == text
  {
    SpansFacts(r, Fold(text));
    SpansSeparate(r, Fold(text));
    assert text[0..] == text;
  }

  lemma LettersAndSign(t: string)
    requires t == "k=a"
    ensures forall p: nat :: OccursAt(t, "k", p) <==> p == 0
    ensures forall p: nat :: OccursAt(t, "=", p) <==> p == 1
  {
    assert t[0..1] == "k" && t[1..2] == "=" && t[2..3] == "a";
    assert "k"[0] == 'k' && "="[0] == '=';
    forall p: nat | p < 3 ensures OccursAt(t, "k", p) ==> t[p] == 'k' {
      assert t[p..p + 1][0] == t[p];
    }
    forall p: nat | p < 3 ensures OccursAt(t, "=", p) ==> t[p] == '=' {
      assert t[p..p + 1][0] == t[p];
    }
  }

  lemma CredentialHere(r: Rules, s: string, w: string, p: nat, q: nat)
    requires q == p + |w| && OccursAt(s, w, p)
    ensures Credential(r, s, w, p) <==> RunLength(r, s, q) >= r.minBody
  {
  }

  lemma {:induction false} NoSpansFrom(r: Rules, s: string, w: string, from: nat)
    requires forall p: nat | p >= from :: !Credential(r, s, w, p)
    ensures WordSpans(r, s, w, from) == []
    decreases |s| - from
  {
    if from + |w| <= |s| {
      NoSpansFrom(r, s, w, from + 1);
    }
  }

  lemma OneCredential(r: Rules, t: string)
    requires r == Rules(["k", "="], 1, false, {}, "m") && t == "k=a"
    ensures forall p: nat :: !Credential(r, t, "k", p)
    ensures forall p: nat :: Credential(r, t, "=", p) <==> p == 1
    ensures RunEnd(r, t, 2) == 3
  {
    LettersAndSign(t);
    assert BodyEnd(t, 3) == 3 && BodyEnd(t, 2) == 3 && BodyEnd(t, 1) == 1;
    assert RunLength(r, t, 1) == 0 && RunLength(r, t, 2) == 1;
    CredentialHere(r, t, "k", 0, 1);
    CredentialHere(r, t, "=", 1, 2);
  }

  lemma OneSpanOfSign(r: Rules, t: string, w: string)
    requires |w| == 1 && |t| == 3 && RunEnd(r, t, 2) == 3
    requires forall p: nat :: Credential(r, t, w, p) <==> p == 1
    ensures WordSpans(r, t, w, 0) == [Span(1, 3)]
  {
    hide Credential, RunEnd;
    NoSpansFrom(r, t, w, 2);
    assert WordSpans(r, t, w, 1) == [Span(1, 3)] + WordSpans(r, t, w, 2);
  }

  lemma OneSpan(r: Rules, t: string)
    requires r == Rules(["k", "="], 1, false, {}, "m") && t == "k=a"
    ensures Spans(r, t) == [Span(1, 3)]
  {
    hide Credential, RunEnd, WordSpans;
    OneCredential(r, t);
    NoSpansFrom(r, t, "k", 0);
    OneSpanOfSign(r, t, "=");
    assert r.words[..2] == r.words && r.words[..1] == ["k"];
    assert FoundSpans(r, t, ["k"]) == [];
    var found := FoundSpans(r, t, r.words);
    assert found == [Span(1, 3)];
    assert found[1..] == [] && Sort(found, SpanLe) == found;
    assert found[..0] == [] && Merge(found[..0]) == [];
    assert Merge(found) == [Span(1, 3)];
  }

  /** Without separators around the marker, covering one credential can complete another. */
  lemma MarkerNeedsSeparators(r: Rules)
    requires r == Rules(["k", "="], 1, false, {}, "m")
    ensures !SuspectText(r, r.marker) && CoveredText(r, "k=a") == "km" && SuspectText(r, "km")
  {
    hide Spans, Separate;
    assert Fold("m") == "m" && Fold("k=a") == "k=a" && Fold("km") == "km";
    OneSpan(r, "k=a");
    assert "km"[0..1] == "k";
    assert Credential(r, "km", r.words[0], 0);
    forall k, p: nat | 0 <= k < 2 ensures !Credential(r, "m", r.words[k], p) {
      assert p == 0 ==> "m"[0..1] == "m";
      assert "m"[0] != r.words[k][0];
    }
    SpansSeparate(r, "k=a");
    assert "k=a"[0..1] == "k" && "k=a"[3..] == "";
  }

  // ----- what is kept

  /** Where a character outside all spans ends up. */
  function NewPlace(spans: seq<Span>, markerLength: nat, cursor: nat, x: nat): int
    requires cursor <= x
    decreases |spans|
  {
    if spans == [] || x < spans[0].end then x - cursor
    else spans[0].start - cursor + markerLength + NewPlace(spans[1..], markerLength, spans[0].end, x)
  }

  lemma RestCovers(spans: seq<Span>, x: nat)
    requires spans != []
    ensures Covers(spans[1..], x) ==> Covers(spans, x)
  {
  }

  /** Every character outside the spans is kept, and kept in order. */
  lemma {:induction false} KeptVerbatim(text: string, spans: seq<Span>, marker: string, cursor: nat, x: nat)
    requires Separate(spans, cursor, |text|) && cursor <= x < |text| && !Covers(spans, x)
    ensures var place := NewPlace(spans, |marker|, cursor, x);
      && 0 <= place < |Rebuilt(text, spans, marker, cursor)|
      && Rebuilt(text, spans, marker, cursor)[place] == text[x]
    ensures forall y | x < y < |text| && !Covers(spans, y) ::
      NewPlace(spans, |marker|, cursor, x) < NewPlace(spans, |marker|, cursor, y)
    decreases |spans|
  {
    if spans != [] {
      var rest := spans[1..];
      assert !(spans[0].start <= x < spans[0].end);
      forall y: nat {
        RestCovers(spans, y);
      }
      if x >= spans[0].end {
        KeptVerbatim(text, rest, marker, spans[0].end, x);
      } else {
        forall y | x < y < |text| && !Covers(spans, y)
          ensures NewPlace(spans, |marker|, cursor, x) < NewPlace(spans, |marker|, cursor, y)
        {
          assert !(spans[0].start <= y < spans[0].end);
          if y >= spans[0].end {
            NewPlaceNatural(rest, |marker|, spans[0].end, y, |text|);
          }
        }
      }
    }
  }

  lemma {:induction false} NewPlaceNatural(spans: seq<Span>, markerLength: nat, cursor: nat, x: nat, length: nat)
    requires cursor <= x && Separate(spans, cursor, length)
    ensures NewPlace(spans, markerLength, cursor, x) >= 0
    decreases |spans|
  {
    if spans != [] && x >= spans[0].end {
      NewPlaceNatural(spans[1..], markerLength, spans[0].end, x, length);
    }
  }

  ghost predicate InCredential(r: Rules, s: string, x: nat) {
    exists span :: CredentialSpan(r, s, r.words, span) && span.start <= x < span.end
  }

  /** Two characters outside every credential are both in the covered text, in the same order. */
  lemma OutsideIsKept(r: Rules, text: string, x: nat, y: nat)
    requires x < y < |text| && !InCredential(r, Fold(text), x) && !InCredential(r, Fold(text), y)
    ensures var spans, covered := Spans(r, Fold(text)), CoveredText(r, text);
      var i, j := NewPlace(spans, |r.marker|, 0, x), NewPlace(spans, |r.marker|, 0, y);
      && 0 <= i < j < |covered| && covered[i] == text[x] && covered[j] == text[y]
  {
    var spans := Spans(r, Fold(text));
    SpansFacts(r, Fold(text));
    SpansSeparate(r, Fold(text));
    assert !Covers(spans, x) && !Covers(spans, y);
    KeptVerbatim(text, spans, r.marker, 0, x);
    KeptVerbatim(text, spans, r.marker, 0, y);
  }

  // ----- whole payloads

  /** A payload; `Unsupported` stands for any other type. */
  datatype Value =
    | Null
    | Bool(flag: bool)
    | Number(number: real)
    | Text(text: string)
    | Object(entries: seq<Entry>)
    | Array(items: seq<Value>)
    | Unsupported

  datatype Entry = Entry(key: string, value: Value)

  /** What one place inspects, and whether it discards or covers; key words and the fold of key names are given. */
  datatype Stage = Stage(rules: Rules, discards: bool, inspectsKeys: bool, inspectsValues: bool, keyWords: seq<string>, foldKey: string -> string)

  predicate SuspectKey(stage: Stage, key: string) {
    exists k | 0 <= k < |stage.keyWords| :: Find(stage.foldKey(key), stage.keyWords[k], 0) != -1
  }

  predicate KeyFound(stage: Stage, key: string) { stage.inspectsKeys && SuspectKey(stage, key) }

  ghost predicate TextFound(stage: Stage, text: string) { stage.inspectsValues && SuspectText(stage.rules, text) }

  function Covered(stage: Stage, v: Value): Value {
    match v
    case Object(entries) =>
      Object(seq(|entries|, i requires 0 <= i < |entries| => Entry(entries[i].key, CoveredEntry(stage, entries[i]))))
    case Text(text) => if stage.inspectsValues then Text(CoveredText(stage.rules, text)) else v
    case Array(items) => Array(seq(|items|, i requires 0 <= i < |items| => Covered(stage, items[i])))
    case Unsupported => Text(stage.rules.marker)
    case _ => v
  }

  function CoveredEntry(stage: Stage, e: Entry): Value {
    if KeyFound(stage, e.key) then Text(stage.rules.marker) else Covered(stage, e.value)
  }

  datatype Step = Key(name: string) | Index(index: nat)

  datatype Complaint = CredentialName(path: seq<Step>) | CredentialShape(path: seq<Step>) | UnsupportedAt(path: seq<Step>)

  /** The error that refuses a payload: the first offence in order, or none. */
  ghost function FirstOffence(stage: Stage, v: Value, path: seq<Step>): Option<Complaint>
    decreases v
  {
    match v
    case Object(entries) => OffenceInEntries(stage, v, 0, path)
    case Text(text) => if TextFound(stage, text) then Some(CredentialShape(path)) else None
    case Array(items) => OffenceInItems(stage, v, 0, path)
    case Unsupported => Some(UnsupportedAt(path))
    case _ => None
  }

  ghost function OffenceInEntries(stage: Stage, v: Value, i: nat, path: seq<Step>): Option<Complaint>
    requires v.Object? && i <= |v.entries|
    decreases v, |v.entries| - i + 1
  {
    if i == |v.entries| then None
    else
      var e := v.entries[i];
      var at := path + [Key(e.key)];
      if KeyFound(stage, e.key) then Some(CredentialName(at))
      else
        var offence := FirstOffence(stage, e.value, at);
        if offence.Some? then offence else OffenceInEntries(stage, v, i + 1, path)
  }

  ghost function OffenceInItems(stage: Stage, v: Value, i: nat, path: seq<Step>): Option<Complaint>
    requires v.Array? && i <= |v.items|
    decreases v, |v.items| - i + 1
  {
    if i == |v.items| then None
    else
      var offence := FirstOffence(stage, v.items[i], path + [Index(i)]);
      if offence.Some? then offence else OffenceInItems(stage, v, i + 1, path)
  }

  /** `redact`: refuse the whole payload, or cover what is found. */
  ghost function Redact(stage: Stage, v: Value): Result<Value, Complaint> {
    if stage.discards then
      match FirstOffence(stage, v, [])
      case Some(offence) => Err(offence)
      case None => Ok(v)
    else Ok(Covered(stage, v))
  }

  /** What an accepted payload is, said without any order of visits. */
  ghost predicate Clean(stage: Stage, v: Value) {
    match v
    case Object(entries) => forall i | 0 <= i < |entries| :: !KeyFound(stage, entries[i].key) && Clean(stage, entries[i].value)
    case Text(text) => !TextFound(stage, text)
    case Array(items) => forall i | 0 <= i < |items| :: Clean(stage, items[i])
    case Unsupported => false
    case _ => true
  }

  ghost predicate HasSuspectKey(stage: Stage, v: Value) {
    match v
    case Object(entries) => exists i | 0 <= i < |entries| :: SuspectKey(stage, entries[i].key) || HasSuspectKey(stage, entries[i].value)
    case Array(items) => exists i | 0 <= i < |items| :: HasSuspectKey(stage, items[i])
    case _ => false
  }

  lemma {:induction false} NoOffenceIffClean(stage: Stage, v: Value, path: seq<Step>)
    ensures FirstOffence(stage, v, path) == None <==> Clean(stage, v)
    decreases v
  {
    hide TextFound, KeyFound;
    match v {
      case Object(entries) => NoOffenceInEntries(stage, v, 0, path);
      case Array(items) => NoOffenceInItems(stage, v, 0, path);
      case _ =>
    }
  }

  lemma {:induction false} NoOffenceInEntries(stage: Stage, v: Value, i: nat, path: seq<Step>)
    requires v.Object? && i <= |v.entries|
    ensures OffenceInEntries(stage, v, i, path) == None <==>
      forall j | i <= j < |v.entries| :: !KeyFound(stage, v.entries[j].key) && Clean(stage, v.entries[j].value)
    decreases v, |v.entries| - i + 1
  {
    hide TextFound, KeyFound;
    if i < |v.entries| {
      NoOffenceIffClean(stage, v.entries[i].value, path + [Key(v.entries[i].key)]);
      NoOffenceInEntries(stage, v, i + 1, path);
    }
  }

  lemma {:induction false} NoOffenceInItems(stage: Stage, v: Value, i: nat, path: seq<Step>)
    requires v.Array? && i <= |v.items|
    ensures OffenceInItems(stage, v, i, path) == None <==> forall j | i <= j < |v.items| :: Clean(stage, v.items[j])
    decreases v, |v.items| - i + 1
  {
    hide TextFound, KeyFound;
    if i < |v.items| {
      NoOffenceIffClean(stage, v.items[i], path + [Index(i)]);
      NoOffenceInItems(stage, v, i + 1, path);
    }
  }

  /** The two modes agree except on key names: a covered payload keeps them, so it is accepted exactly when none is suspect. */
  lemma {:induction false} CoveredIsAccepted(stage: Stage, v: Value)
    requires CleanMarker(stage.rules)
    ensures Clean(stage, Covered(stage, v)) <==> !(stage.inspectsKeys && HasSuspectKey(stage, v))
  {
    hide SuspectKey, CoveredText, SuspectText;
    var c := Covered(stage, v);
    match v {
      case Text(text) => CoveredIsClean(stage.rules, text);
      case Unsupported => MarkerIsClean(stage);
      case Object(entries) =>
        forall i | 0 <= i < |entries|
          ensures !KeyFound(stage, entries[i].key) ==>
            (Clean(stage, c.entries[i].value) <==> !(stage.inspectsKeys && HasSuspectKey(stage, entries[i].value)))
        {
          CoveredIsAccepted(stage, entries[i].value);
          assert c.entries[i].value == CoveredEntry(stage, entries[i]);
        }
        assert forall i | 0 <= i < |entries| :: c.entries[i].key == entries[i].key;
      case Array(items) =>
        forall i | 0 <= i < |items| {
          CoveredIsAccepted(stage, items[i]);
        }
        assert forall i | 0 <= i < |items| :: c.items[i] == Covered(stage, items[i]);
      case _ =>
    }
  }

  lemma MarkerIsClean(stage: Stage)
    requires CleanMarker(stage.rules)
    ensures Clean(stage, Text(stage.rules.marker))
  {
  }

  /** Covering never touches an accepted payload. */
  lemma {:induction false} AcceptedIsUntouched(stage: Stage, v: Value)
    requires Clean(stage, v)
    ensures Covered(stage, v) == v
  {
    hide SuspectKey, CoveredText, SuspectText;
    var c := Covered(stage, v);
    match v {
      case Text(text) => CleanUnchanged(stage.rules, text);
      case Object(entries) =>
        forall i | 0 <= i < |entries| ensures c.entries[i] == entries[i] {
          AcceptedIsUntouched(stage, entries[i].value);
          assert c.entries[i] == Entry(entries[i].key, CoveredEntry(stage, entries[i]));
        }
        assert c.entries == entries;
      case Array(items) =>
        forall i | 0 <= i < |items| ensures c.items[i] == items[i] {
          AcceptedIsUntouched(stage, items[i]);
        }
        assert c.items == items;
      case _ =>
    }
  }

  /** Where only values are inspected, a payload covering leaves alone is one the other mode accepts. */
  lemma {:induction false} UntouchedIsAccepted(stage: Stage, v: Value)
    requires CleanMarker(stage.rules) && !stage.inspectsKeys && Covered(stage, v) == v
    ensures Clean(stage, v)
  {
    CoveredIsAccepted(stage, v);
  }

  /** Same shape, same names: only texts and unsupported leaves may differ. */
  predicate SameShape(a: Value, b: Value)
    decreases a
  {
    match a
    case Object(entries) =>
      b.Object? && |b.entries| == |entries|
      && forall i | 0 <= i < |entries| :: b.entries[i].key == entries[i].key && SameShape(entries[i].value, b.entries[i].value)
    case Array(items) => b.Array? && |b.items| == |items| && forall i | 0 <= i < |items| :: SameShape(items[i], b.items[i])
    case Text(_) => b.Text?
    case Unsupported => b.Text?
    case _ => b == a
  }

  lemma {:induction false} CoveringKeepsShape(stage: Stage, v: Value)
    requires !stage.inspectsKeys
    ensures SameShape(v, Covered(stage, v))
  {
    hide SuspectKey, CoveredText;
    match v {
      case Object(entries) =>
        forall i | 0 <= i < |entries| {
          CoveringKeepsShape(stage, entries[i].value);
        }
      case Array(items) =>
        forall i | 0 <= i < |items| {
          CoveringKeepsShape(stage, items[i]);
        }
      case _ =>
    }
  }

  /** Covering twice is covering once, in every stage. */
  lemma {:induction false} CoveringIsIdempotent(stage: Stage, v: Value)
    requires CleanMarker(stage.rules)
    ensures Covered(stage, Covered(stage, v)) == Covered(stage, v)
  {
    hide SuspectKey, CoveredText, SuspectText;
    var c := Covered(stage, v);
    var cc := Covered(stage, c);
    match v {
      case Text(text) => CoveringIsIdentityOnClean(stage.rules, text);
      case Unsupported => MarkerStays(stage);
      case Object(entries) =>
        forall i | 0 <= i < |entries| ensures cc.entries[i] == c.entries[i] {
          assert c.entries[i] == Entry(entries[i].key, CoveredEntry(stage, entries[i]));
          assert cc.entries[i] == Entry(entries[i].key, CoveredEntry(stage, c.entries[i]));
          if KeyFound(stage, entries[i].key) {
            MarkerStays(stage);
          } else {
            CoveringIsIdempotent(stage, entries[i].value);
          }
        }
        assert cc.entries == c.entries;
      case Array(items) =>
        forall i | 0 <= i < |items| ensures cc.items[i] == c.items[i] {
          CoveringIsIdempotent(stage, items[i]);
        }
        assert cc.items == c.items;
      case _ =>
    }
  }

  lemma MarkerStays(stage: Stage)
    requires CleanMarker(stage.rules)
    ensures Covered(stage, Text(stage.rules.marker)) == Text(stage.rules.marker)
  {
    CleanUnchanged(stage.rules, stage.rules.marker);
  }

  /** Whatever `redact` lets through: a discarding stage passes only what a covering one would not change. */
  lemma ModesAgree(discarding: Stage, covering: Stage, v: Value)
    requires discarding.discards && covering == discarding.(discards := false)
    requires CleanMarker(covering.rules)
    ensures Redact(discarding, v).Ok? <==> Clean(discarding, v)
    ensures Redact(discarding, v).Ok? ==> Redact(discarding, v) == Redact(covering, v) == Ok(v)
    ensures Redact(discarding, Covered(covering, v)).Ok? <==> !(covering.inspectsKeys && HasSuspectKey(covering, v))
  {
    NoOffenceIffClean(discarding, v, []);
    SameFindings(discarding, covering, v);
    if Clean(discarding, v) {
      AcceptedIsUntouched(covering, v);
    }
    var c := Covered(covering, v);
    NoOffenceIffClean(discarding, c, []);
    SameFindings(discarding, covering, c);
    CoveredIsAccepted(covering, v);
  }

  lemma {:induction false} SameFindings(a: Stage, b: Stage, v: Value)
    requires b == a.(discards := b.discards)
    ensures Clean(a, v) <==> Clean(b, v)
  {
    hide SuspectText;
    match v {
      case Object(entries) =>
        forall i | 0 <= i < |entries| {
          SameFindings(a, b, entries[i].value);
        }
        assert forall i | 0 <= i < |entries| :: KeyFound(a, entries[i].key) == KeyFound(b, entries[i].key);
      case Array(items) =>
        forall i | 0 <= i < |items| {
          SameFindings(a, b, items[i]);
        }
      case _ =>
    }
  }

  /** `redact_text`: one text under a stage's rule. */
  method RedactText(stage: Stage, text: string) returns (result: Result<string, Complaint>)
    ensures !stage.inspectsValues ==> result == Ok(text)
    ensures stage.inspectsValues && stage.discards ==> result == if SuspectText(stage.rules, text) then Err(CredentialShape([])) else Ok(text)
    ensures stage.inspectsValues && !stage.discards ==> result == Ok(CoveredText(stage.rules, text))
  {
    if !stage.inspectsValues {
      return Ok(text);
    }
    var suspect := IsSuspectText(stage.rules, text);
    if !suspect {
      CleanUnchanged(stage.rules, text);
      return Ok(text);
    }
    if stage.discards {
      return Err(CredentialShape([]));
    }
    var covered := CoverText(stage.rules, text);
    return Ok(covered);
  }
}
