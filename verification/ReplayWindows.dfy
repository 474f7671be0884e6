/** What a replay holds, said on the rows of the conversation. */
module ReplayWindows {
  import opened Wrappers
  import opened Replay

  /** The first row with this id. */
  predicate FirstAt(messages: seq<Row>, id: string, k: nat) {
    k < |messages| && messages[k].id == id && forall j | 0 <= j < k :: messages[j].id != id
  }

  /** The row with this id, if it is there, is before `x`. */
  ghost predicate After(messages: seq<Row>, id: string, x: nat) {
    forall k: nat | FirstAt(messages, id, k) :: k < x
  }

  /** A replay up to `end` may start here: after the fold point if that is among these rows, and within the ceiling if there is one. */
  ghost predicate MayStartAt(cfg: Config, messages: seq<Row>, end: nat, through: Option<string>, start: nat)
    requires end <= |messages|
  {
    && start <= end
    && (through.Some? ==> After(messages[..end], through.value, start))
    && (cfg.ceiling > 0 ==> end - start <= cfg.ceiling)
  }

  /** The longest run of rows that ends with the anchor and may start where it does. */
  ghost predicate WindowOf(cfg: Config, messages: seq<Row>, anchor: string, through: Option<string>, start: nat, end: nat) {
    && 0 < end <= |messages| && FirstAt(messages, anchor, end - 1)
    && MayStartAt(cfg, messages, end, through, start) && forall earlier: nat | earlier < start :: !MayStartAt(cfg, messages, end, through, earlier)
  }

  lemma PlaceIsFirst(messages: seq<Row>, id: string, k: nat)
    ensures k < |messages| ==> (k == PlaceOf(messages, id) <==> FirstAt(messages, id, k))
    ensures FirstAt(messages, id, k) ==> k == PlaceOf(messages, id)
  {
  }

  /** Where a replay up to `end` may start, as a place. */
  lemma StartsFrom(cfg: Config, messages: seq<Row>, end: nat, through: Option<string>) returns (from: nat)
    requires end <= |messages|
    ensures from <= end && AfterSummary(messages[..end], through) == messages[from..end]
    ensures forall x: nat :: MayStartAt(cfg, messages, end, through, x) <==> from <= x <= end && (cfg.ceiling > 0 ==> end - x <= cfg.ceiling)
  {
    var until := messages[..end];
    if through.None? {
      from := 0;
      assert until == messages[0..end];
    } else {
      var fold := PlaceOf(until, through.value);
      from := if fold < end then fold + 1 else 0;
      assert fold < end ==> until[fold + 1..] == messages[fold + 1..end];
      assert fold >= end ==> until == messages[0..end];
      PlaceIsFirst(until, through.value, fold);
      forall x: nat
        ensures After(until, through.value, x) <==> from <= x
      {
        FoldedBefore(until, through.value, x);
      }
      hide PlaceOf, After;
    }
  }

  lemma FoldedBefore(messages: seq<Row>, id: string, x: nat)
    ensures After(messages, id, x) <==> (PlaceOf(messages, id) < |messages| ==> PlaceOf(messages, id) < x)
  {
    var fold := PlaceOf(messages, id);
    PlaceIsFirst(messages, id, fold);
    forall k: nat | FirstAt(messages, id, k) ensures k == fold {
      PlaceIsFirst(messages, id, k);
    }
    assert fold < |messages| ==> FirstAt(messages, id, fold);
  }

  lemma Starts(cfg: Config, messages: seq<Row>, end: nat, through: Option<string>) returns (start: nat)
    requires end <= |messages|
    ensures start <= end && Selected(cfg, messages[..end], through) == messages[start..end]
    ensures MayStartAt(cfg, messages, end, through, start) && forall earlier: nat | earlier < start :: !MayStartAt(cfg, messages, end, through, earlier)
  {
    hide MayStartAt, AfterSummary;
    var from := StartsFrom(cfg, messages, end, through);
    start := if end - from > cfg.ceiling > 0 then end - cfg.ceiling else from;
    assert messages[from..end][start - from..] == messages[start..end];
  }

  lemma AnchorFound(messages: seq<Row>, anchor: string)
    ensures PlaceOf(messages, anchor) < |messages| <==> exists k: nat :: FirstAt(messages, anchor, k)
    ensures PlaceOf(messages, anchor) < |messages| ==> FirstAt(messages, anchor, PlaceOf(messages, anchor))
  {
    PlaceIsFirst(messages, anchor, PlaceOf(messages, anchor));
    if k: nat :| FirstAt(messages, anchor, k) {
      PlaceIsFirst(messages, anchor, k);
    }
  }

  /** There is a replay if and only if the anchor is there, and it is made of the longest such run, one row after the other. */
  lemma ReplayIs(cfg: Config, messages: seq<Row>, anchor: string, through: Option<string>) returns (start: nat, end: nat)
    ensures Built(cfg, messages, anchor, through).Some? <==> exists k: nat :: FirstAt(messages, anchor, k)
    ensures Built(cfg, messages, anchor, through).Some? ==>
      && WindowOf(cfg, messages, anchor, through, start, end)
      && Built(cfg, messages, anchor, through).value == ChatReplay(RowsSay(messages[start..end], end - start), end, end - start)
  {
    hide PlaceOf, FirstAt, Selected, ReplayedUpTo, MayStartAt, Paired, RowsSay;
    AnchorFound(messages, anchor);
    start, end := 0, 0;
    if PlaceOf(messages, anchor) < |messages| {
      end := PlaceOf(messages, anchor) + 1;
      start := Starts(cfg, messages, end, through);
      RowsSayReplayed(messages[start..end], end - start);
    }
  }

  /** With a ceiling, and the fold point before the anchor, the anchor's own row comes last. */
  lemma AnchorIsLast(cfg: Config, messages: seq<Row>, anchor: string, through: Option<string>, start: nat, end: nat)
    requires cfg.ceiling > 0 && through != Some(anchor) && WindowOf(cfg, messages, anchor, through, start, end)
    ensures start < end && messages[start..end] != [] && messages[start..end][end - start - 1].id == anchor
  {
    var until := messages[..end];
    if through.Some? {
      forall k: nat | FirstAt(until, through.value, k) ensures k < end - 1 {
        assert until[k].id != anchor;
      }
    }
    assert MayStartAt(cfg, messages, end, through, end - 1);
  }

  // ----- what each row says

  /** Tool rows stand right after the row, and one of them answers this call. */
  predicate AnswerFollows(window: seq<Row>, k: nat, id: string) {
    exists m | k < m < |window| :: window[m].callId == Some(id) && forall j | k < j <= m :: window[j].role == Tool
  }

  predicate Asks(row: Row, id: string) {
    row.role == Assistant && exists c | 0 <= c < |row.calls| :: row.calls[c].id == id
  }

  /** The call is one of an assistant's row, every call of which is answered right after it. */
  predicate InPair(window: seq<Row>, id: string) {
    exists k | 0 <= k < |window| :: Asks(window[k], id) && forall c | 0 <= c < |window[k].calls| :: AnswerFollows(window, k, window[k].calls[c].id)
  }

  function CallsInPairs(window: seq<Row>, calls: seq<Call>): seq<Call> {
    if calls == [] then []
    else CallsInPairs(window, calls[..|calls| - 1]) + if InPair(window, calls[|calls| - 1].id) then [calls[|calls| - 1]] else []
  }

  /** A tool row is an answer if its call is in a pair, and a note otherwise; an assistant's row asks for its calls that are; the rest is said. */
  function RowSays(window: seq<Row>, row: Row): seq<Replayed> {
    var calls := CallsInPairs(window, row.calls);
    if row.role == Tool && row.callId.Some? && InPair(window, row.callId.value) then [Answer(row.content, row.callId.value)]
    else if row.role == Tool then [Note(row.content)]
    else if row.role == Assistant && calls != [] then [Asked(row.content, calls)]
    else if row.role == Assistant && row.content == "" then []
    else [Said(row.role, row.content)]
  }

  function RowsSay(window: seq<Row>, n: nat): seq<Replayed>
    requires n <= |window|
  {
    if n == 0 then [] else RowsSay(window, n - 1) + RowSays(window, window[n - 1])
  }

  lemma AnswerFollowsIs(window: seq<Row>, k: nat, id: string)
    requires k < |window|
    ensures Answered(window, k, id) <==> AnswerFollows(window, k, id)
  {
    if Answered(window, k, id) {
      var m :| k < m < |window| && AnsweredAt(window, k, m, id);
      assert window[m].callId == Some(id) && forall j | k < j <= m :: window[j].role == Tool;
    }
    if AnswerFollows(window, k, id) {
      var m :| k < m < |window| && window[m].callId == Some(id) && forall j | k < j <= m :: window[j].role == Tool;
      assert AnsweredAt(window, k, m, id);
    }
  }

  lemma RowPairedIs(window: seq<Row>, k: nat, id: string)
    requires k < |window|
    ensures RowPaired(window, k) && id in Declared(window[k]) <==>
      Asks(window[k], id) && forall c | 0 <= c < |window[k].calls| :: AnswerFollows(window, k, window[k].calls[c].id)
  {
    hide Answered, AnswerFollows;
    forall x {
      AnswerFollowsIs(window, k, x);
    }
    assert id in Declared(window[k]) <==> Asks(window[k], id);
    assert window[k].role == Assistant ==> forall c | 0 <= c < |window[k].calls| :: window[k].calls[c].id in Declared(window[k]);
  }

  lemma InPairIs(window: seq<Row>, id: string)
    ensures id in Paired(window) <==> InPair(window, id)
  {
    PairedMembers(window, |window|, id);
    hide RowPaired, Declared, Asks, AnswerFollows;
    forall k | 0 <= k < |window| {
      RowPairedIs(window, k, id);
    }
  }

  lemma {:induction false} CallsSplit(a: seq<Call>, b: seq<Call>, paired: set<string>)
    ensures PairedCalls(a + b, paired) == PairedCalls(a, paired) + PairedCalls(b, paired)
  {
    if a == [] {
      assert a + b == b;
    } else {
      var first := if a[0].id in paired then [a[0]] else [];
      CallsSplit(a[1..], b, paired);
      assert (a + b)[1..] == a[1..] + b;
      assert first + (PairedCalls(a[1..], paired) + PairedCalls(b, paired)) == (first + PairedCalls(a[1..], paired)) + PairedCalls(b, paired);
    }
  }

  lemma {:induction false} CallsAre(window: seq<Row>, calls: seq<Call>)
    ensures PairedCalls(calls, Paired(window)) == CallsInPairs(window, calls)
  {
    hide Paired, InPair;
    if calls != [] {
      var front, last := calls[..|calls| - 1], calls[|calls| - 1];
      CallsAre(window, front);
      InPairIs(window, last.id);
      CallsSplit(front, [last], Paired(window));
      assert [last][1..] == [] && front + [last] == calls;
    }
  }

  lemma RowSaysReplayed(window: seq<Row>, row: Row)
    ensures ReplayRow(row, Paired(window)) == RowSays(window, row)
  {
    CallsAre(window, row.calls);
    hide Paired, InPair, PairedCalls, CallsInPairs;
    if row.callId.Some? {
      InPairIs(window, row.callId.value);
    }
  }

  lemma {:induction false} RowsSayReplayed(window: seq<Row>, n: nat)
    requires n <= |window|
    ensures ReplayedUpTo(window, Paired(window), n) == RowsSay(window, n)
  {
    hide RowSays, ReplayRow, Paired;
    if n > 0 {
      RowsSayReplayed(window, n - 1);
      RowSaysReplayed(window, window[n - 1]);
    }
  }

  // ----- when a thread is summarised

  function AllText(messages: seq<Row>): string {
    if messages == [] then "" else AllText(messages[..|messages| - 1]) + messages[|messages| - 1].content
  }

  lemma {:induction false} CharactersAre(messages: seq<Row>)
    ensures Characters(messages) == |AllText(messages)|
  {
    if messages != [] {
      CharactersAre(messages[..|messages| - 1]);
    }
  }

  /** Something is folded if and only if the thread has grown past a threshold, in messages or in text, and has more turns than are kept. */
  lemma FoldsIff(cfg: Config, messages: seq<Row>)
    ensures Older(cfg, messages) != [] <==>
      (|messages| > cfg.triggerMessages || |AllText(messages)| > cfg.triggerChars) && KeepFrom(messages, cfg.keep) > 0
  {
    CharactersAre(messages);
    FoldedAndKept(messages, cfg.keep);
    hide KeepFrom;
  }
}
