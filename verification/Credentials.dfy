/** What covering does to a text, said on the text as it stands: no folding, no search, no merging of spans. */
module Credentials {
  import opened Sorting
  import opened Redaction

  /** A character of the text reads like a character of a folded word: itself, or the capital of it. */
  predicate Reads(c: char, w: char) {
    if 'A' <= c <= 'Z' then 'a' <= w <= 'z' && w as int - 'a' as int == c as int - 'A' as int else w == c
  }

  predicate InBody(c: char) {
    var small, capital, digit := 'a' <= c <= 'z', 'A' <= c <= 'Z', '0' <= c <= '9';
    small || capital || digit || c in {'-', '_', '.'}
  }

  ghost predicate Skipped(r: Rules, c: char) {
    r.skipsSpace && exists s :: s in r.spaces && Reads(c, s)
  }

  predicate WordAt(text: string, w: string, p: nat) {
    p + |w| <= |text| && forall i | 0 <= i < |w| :: Reads(text[p + i], w[i])
  }

  /** A word, then every skipped space there is, then every body character there is, and enough of them. */
  ghost predicate CredentialAt(r: Rules, text: string, w: string, p: nat, body: nat, end: nat) {
    && WordAt(text, w, p) && p + |w| <= body <= end <= |text| && end - body >= r.minBody
    && (forall i | p + |w| <= i < body :: Skipped(r, text[i])) && (body < |text| ==> !Skipped(r, text[body]))
    && (forall i | body <= i < end :: InBody(text[i])) && (end < |text| ==> !InBody(text[end]))
  }

  ghost predicate CarriesCredential(r: Rules, text: string) {
    exists k, p: nat, body: nat, end: nat :: 0 <= k < |r.words| && CredentialAt(r, text, r.words[k], p, body, end)
  }

  /** The place is part of some credential, its word included. */
  ghost predicate Hidden(r: Rules, text: string, x: nat) {
    exists k, p: nat, body: nat, end: nat :: 0 <= k < |r.words| && CredentialAt(r, text, r.words[k], p, body, end) && p <= x < end
  }

  lemma FoldReads(text: string, i: nat, w: char)
    requires i < |text|
    ensures Fold(text)[i] == w <==> Reads(text[i], w)
  {
  }

  lemma SkippedIs(r: Rules, text: string, i: nat)
    requires i < |text|
    ensures r.skipsSpace && Fold(text)[i] in r.spaces <==> Skipped(r, text[i])
  {
    if Fold(text)[i] in r.spaces {
      FoldReads(text, i, Fold(text)[i]);
    }
    if Skipped(r, text[i]) {
      var s :| s in r.spaces && Reads(text[i], s);
      FoldReads(text, i, s);
    }
  }

  lemma InBodyIs(text: string, i: nat)
    requires i < |text|
    ensures BodyChar(Fold(text)[i]) <==> InBody(text[i])
  {
  }

  lemma {:induction false} BodyStartIs(r: Rules, text: string, i: nat, j: nat)
    requires i <= j <= |text|
    ensures j == BodyStart(r, Fold(text), i) <==>
      (forall x | i <= x < j :: Skipped(r, text[x])) && (j < |text| ==> !Skipped(r, text[j]))
    decreases |text| - i
  {
    if i < |text| {
      SkippedIs(r, text, i);
      if i < j {
        BodyStartIs(r, text, i + 1, j);
      }
    }
  }

  lemma {:induction false} BodyEndIs(text: string, i: nat, j: nat)
    requires i <= j <= |text|
    ensures j == BodyEnd(Fold(text), i) <==>
      (forall x | i <= x < j :: InBody(text[x])) && (j < |text| ==> !InBody(text[j]))
    decreases |text| - i
  {
    if i < |text| {
      InBodyIs(text, i);
      if i < j {
        BodyEndIs(text, i + 1, j);
      }
    }
  }

  lemma WordAtIs(text: string, w: string, p: nat)
    ensures OccursAt(Fold(text), w, p) <==> WordAt(text, w, p)
  {
    var f := Fold(text);
    if p + |w| <= |text| {
      forall i | 0 <= i < |w| ensures f[p..p + |w|][i] == w[i] <==> Reads(text[p + i], w[i]) {
        FoldReads(text, p + i, w[i]);
      }
      assert f[p..p + |w|] == w <==> forall i | 0 <= i < |w| :: f[p..p + |w|][i] == w[i];
    }
  }

  /** The credentials the search looks for are those of the text. */
  lemma CredentialIs(r: Rules, text: string, w: string, p: nat, end: nat)
    ensures Credential(r, Fold(text), w, p) && end == RunEnd(r, Fold(text), p + |w|) <==> exists body: nat :: CredentialAt(r, text, w, p, body, end)
  {
    var f := Fold(text);
    WordAtIs(text, w, p);
    hide OccursAt, WordAt, BodyStart, BodyEnd, Skipped, InBody;
    if p + |w| <= |text| {
      var start := BodyStart(r, f, p + |w|);
      BodyStartIs(r, text, p + |w|, start);
      BodyEndIs(text, start, RunEnd(r, f, p + |w|));
      if Credential(r, f, w, p) && end == RunEnd(r, f, p + |w|) {
        assert CredentialAt(r, text, w, p, start, end);
      }
      if body: nat :| CredentialAt(r, text, w, p, body, end) {
        BodyStartIs(r, text, p + |w|, body);
        BodyEndIs(text, body, end);
      }
    }
  }

  /** A text is suspect if and only if it carries a credential. */
  lemma SuspectMeans(r: Rules, text: string)
    ensures SuspectText(r, text) <==> CarriesCredential(r, text)
  {
    var f := Fold(text);
    hide Credential, CredentialAt;
    if Suspect(r, f) {
      var k, p: nat :| 0 <= k < |r.words| && Credential(r, f, r.words[k], p);
      CredentialIs(r, text, r.words[k], p, RunEnd(r, f, p + |r.words[k]|));
    }
    if CarriesCredential(r, text) {
      var k, p: nat, body: nat, end: nat :| 0 <= k < |r.words| && CredentialAt(r, text, r.words[k], p, body, end);
      CredentialIs(r, text, r.words[k], p, end);
    }
  }

  lemma HiddenIs(r: Rules, text: string, x: nat)
    ensures InCredential(r, Fold(text), x) <==> Hidden(r, text, x)
  {
    var f := Fold(text);
    hide Credential, CredentialAt, RunEnd;
    if InCredential(r, f, x) {
      var span :| CredentialSpan(r, f, r.words, span) && span.start <= x < span.end;
      var k :| 0 <= k < |r.words| && Credential(r, f, r.words[k], span.start) && span.end == RunEnd(r, f, span.start + |r.words[k]|);
      CredentialIs(r, text, r.words[k], span.start, span.end);
    }
    if Hidden(r, text, x) {
      var k, p: nat, body: nat, end: nat :| 0 <= k < |r.words| && CredentialAt(r, text, r.words[k], p, body, end) && p <= x < end;
      CredentialIs(r, text, r.words[k], p, end);
      assert CredentialSpan(r, f, r.words, Span(p, end));
    }
  }

  /** The text from a place on, with one marker where a stretch of hidden characters begins. */
  ghost function Stitched(r: Rules, text: string, i: nat): string
    requires i <= |text|
    decreases |text| - i
  {
    if i == |text| then ""
    else if !Hidden(r, text, i) then [text[i]] + Stitched(r, text, i + 1)
    else (if i > 0 && Hidden(r, text, i - 1) then "" else r.marker) + Stitched(r, text, i + 1)
  }

  lemma {:induction false} StitchedOutside(r: Rules, text: string, i: nat, j: nat)
    requires i <= j <= |text| && forall x | i <= x < j :: !Hidden(r, text, x)
    ensures Stitched(r, text, i) == text[i..j] + Stitched(r, text, j)
    decreases j - i
  {
    hide Hidden;
    if i < j {
      StitchedOutside(r, text, i + 1, j);
      assert text[i..j] == [text[i]] + text[i + 1..j];
    }
  }

  lemma {:induction false} StitchedInside(r: Rules, text: string, i: nat, j: nat)
    requires 0 < i <= j <= |text| && Hidden(r, text, i - 1) && forall x | i <= x < j :: Hidden(r, text, x)
    ensures Stitched(r, text, i) == Stitched(r, text, j)
    decreases j - i
  {
    hide Hidden;
    if i < j {
      StitchedInside(r, text, i + 1, j);
    }
  }

  predicate NonEmpty(spans: seq<Span>) {
    forall i | 0 <= i < |spans| :: spans[i].start < spans[i].end
  }

  lemma {:induction false} MergedNonEmpty(sorted: seq<Span>)
    requires NonEmpty(sorted)
    ensures NonEmpty(Merge(sorted))
  {
    if sorted != [] {
      MergedNonEmpty(sorted[..|sorted| - 1]);
    }
  }

  lemma SpansNonEmpty(r: Rules, s: string)
    requires forall k | 0 <= k < |r.words| :: r.words[k] != ""
    ensures NonEmpty(Spans(r, s))
  {
    var found := FoundSpans(r, s, r.words);
    var sorted := Sort(found, SpanLe);
    SpanLeIsPreorder();
    SortMembers(found, SpanLe);
    hide Credential;
    forall i | 0 <= i < |sorted| ensures sorted[i].start < sorted[i].end {
      assert sorted[i] in found;
      FoundMembers(r, s, r.words, sorted[i]);
      var k :| 0 <= k < |r.words| && Credential(r, s, r.words[k], sorted[i].start) && sorted[i].end == RunEnd(r, s, sorted[i].start + |r.words[k]|);
      assert r.words[k] != "";
    }
    MergedNonEmpty(sorted);
  }

  lemma {:induction false} RebuiltIsStitched(r: Rules, text: string, spans: seq<Span>, cursor: nat)
    requires Separate(spans, cursor, |text|) && Apart(spans) && NonEmpty(spans)
    requires spans != [] && cursor > 0 ==> cursor < spans[0].start
    requires forall x: nat | cursor <= x < |text| :: Hidden(r, text, x) <==> Covers(spans, x)
    ensures Rebuilt(text, spans, r.marker, cursor) == Stitched(r, text, cursor)
    decreases |spans|
  {
    hide Hidden, Covers, Stitched;
    if spans == [] {
      NothingCovered(spans);
      StitchedOutside(r, text, cursor, |text|);
      StitchedEnd(r, text);
    } else {
      var start, end := spans[0].start, spans[0].end;
      hide Apart;
      ApartRest(spans);
      forall x: nat | cursor <= x < |text|
        ensures x < start ==> !Hidden(r, text, x)
        ensures start <= x < end ==> Hidden(r, text, x)
        ensures end <= x ==> (Hidden(r, text, x) <==> Covers(spans[1..], x))
      {
        CoversSplits(spans, x);
      }
      StitchedSpan(r, text, cursor, start, end);
      RebuiltIsStitched(r, text, spans[1..], end);
    }
  }

  lemma NothingCovered(spans: seq<Span>)
    requires spans == []
    ensures forall x: nat :: !Covers(spans, x)
  {
  }

  lemma StitchedEnd(r: Rules, text: string)
    ensures Stitched(r, text, |text|) == ""
  {
  }

  lemma ApartRest(spans: seq<Span>)
    requires spans != [] && Apart(spans)
    ensures Apart(spans[1..]) && (|spans| > 1 ==> spans[0].end < spans[1].start)
  {
  }

  lemma StitchedSpan(r: Rules, text: string, cursor: nat, start: nat, end: nat)
    requires cursor <= start < end <= |text| && (cursor > 0 ==> cursor < start)
    requires forall x: nat | cursor <= x < start :: !Hidden(r, text, x)
    requires forall x: nat | start <= x < end :: Hidden(r, text, x)
    ensures Stitched(r, text, cursor) == text[cursor..start] + r.marker + Stitched(r, text, end)
  {
    hide Hidden;
    StitchedOutside(r, text, cursor, start);
    MarkerThere(r, text, start);
    StitchedInside(r, text, start + 1, end);
  }

  lemma MarkerThere(r: Rules, text: string, start: nat)
    requires start < |text| && Hidden(r, text, start) && (start > 0 ==> !Hidden(r, text, start - 1))
    ensures Stitched(r, text, start) == r.marker + Stitched(r, text, start + 1)
  {
    hide Hidden;
  }

  lemma CoversSplits(spans: seq<Span>, x: nat)
    requires spans != [] && Apart(spans) && NonEmpty(spans)
    ensures Covers(spans, x) <==> spans[0].start <= x < spans[0].end || Covers(spans[1..], x)
    ensures x < spans[0].start ==> !Covers(spans, x)
  {
    assert forall i | 0 <= i < |spans| - 1 :: spans[1..][i] == spans[i + 1];
    if Covers(spans, x) {
      var i :| 0 <= i < |spans| && spans[i].start <= x < spans[i].end;
      assert i > 0 ==> spans[1..][i - 1] == spans[i];
    }
  }

  /** Covering puts one marker for every stretch of credentials and keeps everything else. */
  lemma CoveredMeans(r: Rules, text: string)
    requires forall k | 0 <= k < |r.words| :: r.words[k] != ""
    ensures CoveredText(r, text) == Stitched(r, text, 0)
  {
    var f := Fold(text);
    SpansFacts(r, f);
    SpansSeparate(r, f);
    SpansNonEmpty(r, f);
    hide Spans, Covers, Hidden, InCredential;
    forall x: nat | x < |text| ensures Hidden(r, text, x) <==> Covers(Spans(r, f), x) {
      HiddenIs(r, text, x);
      CoveredIsInCredential(r, f, x);
    }
    RebuiltIsStitched(r, text, Spans(r, f), 0);
  }

  lemma CoveredIsInCredential(r: Rules, s: string, x: nat)
    ensures Covers(Spans(r, s), x) <==> InCredential(r, s, x)
  {
    SpansFacts(r, s);
    hide Spans, Covers;
  }

  // ----- the case of letters

  /** Place by place the same character, or the two cases of one ASCII letter. */
  predicate SameButForCase(a: string, b: string) {
    |a| == |b| && forall i | 0 <= i < |a| :: a[i] == b[i] || CaseOf(a[i], b[i]) || CaseOf(b[i], a[i])
  }

  predicate CaseOf(capital: char, small: char) {
    'A' <= capital <= 'Z' && 'a' <= small <= 'z' && small as int - capital as int == 32
  }

  /** The case of ASCII letters changes neither what is found nor where. */
  lemma CaseDoesNotMatter(r: Rules, a: string, b: string)
    requires SameButForCase(a, b)
    ensures SuspectText(r, a) <==> SuspectText(r, b)
    ensures Spans(r, Fold(a)) == Spans(r, Fold(b))
  {
    assert Fold(a) == Fold(b);
  }

  /** A text without capitals is compared as it stands. */
  lemma NoCapitalsToFold(text: string)
    requires forall i | 0 <= i < |text| :: !('A' <= text[i] <= 'Z')
    ensures Fold(text) == text
  {
  }
}
