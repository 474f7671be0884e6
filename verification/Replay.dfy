/** What a turn gives back to the model: the fold point, the ceiling, and tool calls kept only with all their answers. */
module Replay {
  import opened Wrappers

  datatype Role = User | Assistant | Tool | Other(name: string)

  datatype Call = Call(id: string, body: string)

  /** A message row; `calls` holds only the well-formed calls of its column. */
  datatype Row = Row(id: string, role: Role, content: string, calls: seq<Call>, callId: Option<string>)

  /** A message as the model reads it. */
  datatype Replayed =
    | Said(role: Role, content: string)
    | Asked(asking: string, calls: seq<Call>)
    | Answer(result: string, callId: string)
    | Note(result: string)

  datatype Config = Config(ceiling: nat, keep: nat, triggerMessages: nat, triggerChars: nat)

  datatype ChatReplay = ChatReplay(messages: seq<Replayed>, stored: nat, kept: nat)

  predicate Truncated(replay: ChatReplay) { replay.kept < replay.stored }

  // ----- cutting

  /** The place of a row by its id; the length of the history when it is not there. */
  function PlaceOf(messages: seq<Row>, id: string): (k: nat)
    ensures k <= |messages|
    ensures k < |messages| ==> messages[k].id == id
    ensures forall j | 0 <= j < k :: messages[j].id != id
  {
    if messages == [] || messages[0].id == id then 0 else PlaceOf(messages[1..], id) + 1
  }

  /** Everything up to the anchor; none when the anchor is missing. */
  function UntilAnchor(messages: seq<Row>, anchor: string): Option<seq<Row>> {
    var k := PlaceOf(messages, anchor);
    if k < |messages| then Some(messages[..k + 1]) else None
  }

  /** Everything after the fold point; all of it when the point is not in it. */
  function AfterSummary(messages: seq<Row>, through: Option<string>): seq<Row> {
    if through.None? then messages
    else
      var k := PlaceOf(messages, through.value);
      if k < |messages| then messages[k + 1..] else messages
  }

  /** A slice from minus zero is the whole list. */
  function LastOnes(messages: seq<Row>, ceiling: nat): seq<Row> {
    if |messages| > ceiling > 0 then messages[|messages| - ceiling..] else messages
  }

  function Selected(cfg: Config, messages: seq<Row>, through: Option<string>): seq<Row> {
    LastOnes(AfterSummary(messages, through), cfg.ceiling)
  }

  method FindPlace(messages: seq<Row>, id: string) returns (k: nat)
    ensures k == PlaceOf(messages, id)
  {
    k := 0;
    assert messages[0..] == messages;
    while k < |messages|
      invariant k <= |messages| && PlaceOf(messages, id) == k + PlaceOf(messages[k..], id)
    {
      if messages[k].id == id {
        return k;
      }
      assert messages[k..][1..] == messages[k + 1..];
      k := k + 1;
    }
  }

  // ----- pairing

  function Declared(row: Row): set<string> {
    if row.role != Assistant then {} else set k | 0 <= k < |row.calls| :: row.calls[k].id
  }

  predicate AllTools(window: seq<Row>, from: nat, to: nat)
    requires to <= |window|
  {
    forall k | from <= k < to :: window[k].role == Tool
  }

  /** A tool row answers the call, and nothing but tool rows stands between. */
  predicate AnsweredAt(window: seq<Row>, k: nat, m: nat, id: string) {
    k < m < |window| && AllTools(window, k + 1, m + 1) && window[m].callId == Some(id)
  }

  predicate Answered(window: seq<Row>, k: nat, id: string) {
    exists m | k < m < |window| :: AnsweredAt(window, k, m, id)
  }

  /** A row that declares calls, every one of them answered right after it. */
  predicate RowPaired(window: seq<Row>, k: nat)
    requires k < |window|
  {
    Declared(window[k]) != {} && forall id | id in Declared(window[k]) :: Answered(window, k, id)
  }

  function PairedUpTo(window: seq<Row>, n: nat): set<string>
    requires n <= |window|
  {
    if n == 0 then {} else PairedUpTo(window, n - 1) + if RowPaired(window, n - 1) then Declared(window[n - 1]) else {}
  }

  function Paired(window: seq<Row>): set<string> { PairedUpTo(window, |window|) }

  function PairedCalls(calls: seq<Call>, paired: set<string>): seq<Call> {
    if calls == [] then []
    else (if calls[0].id in paired then [calls[0]] else []) + PairedCalls(calls[1..], paired)
  }

  function ReplayRow(row: Row, paired: set<string>): (out: seq<Replayed>)
    ensures |out| <= 1
  {
    if row.role == Tool then
      if row.callId.Some? && row.callId.value in paired then [Answer(row.content, row.callId.value)] else [Note(row.content)]
    else if row.role != Assistant then [Said(row.role, row.content)]
    else
      var calls := PairedCalls(row.calls, paired);
      if calls != [] then [Asked(row.content, calls)] else if row.content != "" then [Said(Assistant, row.content)] else []
  }

  function ReplayedUpTo(window: seq<Row>, paired: set<string>, n: nat): seq<Replayed>
    requires n <= |window|
  {
    if n == 0 then [] else ReplayedUpTo(window, paired, n - 1) + ReplayRow(window[n - 1], paired)
  }

  function Built(cfg: Config, messages: seq<Row>, anchor: string, through: Option<string>): Option<ChatReplay> {
    var until := UntilAnchor(messages, anchor);
    if until.None? then None
    else
      var window := Selected(cfg, until.value, through);
      Some(ChatReplay(ReplayedUpTo(window, Paired(window), |window|), |until.value|, |window|))
  }

  /** The answers that follow a call row before any other role, among the declared ids. */
  method AnsweredCallIds(window: seq<Row>, k: nat, declared: set<string>) returns (answered: set<string>)
    requires k < |window|
    ensures forall id :: id in answered <==> id in declared && Answered(window, k, id)
  {
    answered := {};
    var m := k + 1;
    while m < |window|
      invariant k < m <= |window| && AllTools(window, k + 1, m)
      invariant forall id :: id in answered <==> id in declared && exists j | k < j < m :: AnsweredAt(window, k, j, id)
    {
      if window[m].role != Tool {
        assert forall j, id | m <= j < |window| :: !AnsweredAt(window, k, j, id);
        return;
      }
      ghost var before := answered;
      if window[m].callId.Some? && window[m].callId.value in declared {
        assert AnsweredAt(window, k, m, window[m].callId.value);
        answered := answered + {window[m].callId.value};
      }
      m := m + 1;
    }
  }

  method PairedCallIds(window: seq<Row>) returns (paired: set<string>)
    ensures paired == Paired(window)
  {
    paired := {};
    for k := 0 to |window|
      invariant paired == PairedUpTo(window, k)
    {
      var declared := Declared(window[k]);
      if declared != {} {
        var answered := AnsweredCallIds(window, k, declared);
        assert answered == declared <==> RowPaired(window, k) by {
          if answered == declared {
            assert forall id | id in declared :: id in answered;
          }
        }
        if answered == declared {
          paired := paired + declared;
        }
      }
    }
  }

  method BuildChatReplay(cfg: Config, messages: seq<Row>, anchor: string, through: Option<string>) returns (replay: Option<ChatReplay>)
    ensures replay == Built(cfg, messages, anchor, through)
  {
    hide Selected, Paired, PairedUpTo, ReplayRow;
    var k := FindPlace(messages, anchor);
    if k == |messages| {
      return None;
    }
    var until := messages[..k + 1];
    var window := Selected(cfg, until, through);
    var paired := PairedCallIds(window);
    var replayed := [];
    for n := 0 to |window|
      invariant replayed == ReplayedUpTo(window, paired, n)
    {
      replayed := replayed + ReplayRow(window[n], paired);
    }
    return Some(ChatReplay(replayed, |until|, |window|));
  }

  // ----- a well-formed conversation

  /** Each call id is declared by one row, and one tool row at most answers it. */
  predicate DeclaredOnce(messages: seq<Row>) {
    forall j, k, id | 0 <= j < |messages| && 0 <= k < |messages| && id in Declared(messages[j]) && id in Declared(messages[k]) :: j == k
  }

  predicate AnsweredOnce(messages: seq<Row>) {
    forall j, k | 0 <= j < |messages| && 0 <= k < |messages| && Answering(messages[j]) && Answering(messages[k])
      && messages[j].callId == messages[k].callId :: j == k
  }

  predicate Answering(row: Row) { row.role == Tool && row.callId.Some? }

  predicate ToolOut(m: Replayed) { m.Answer? || m.Note? }

  predicate AnswersFollow(out: seq<Replayed>, i: nat, j: nat, id: string) {
    i < j < |out| && out[j].Answer? && out[j].callId == id && forall x | i < x <= j :: ToolOut(out[x])
  }

  /** Tool messages that answer every call of a list follow it at once. */
  ghost predicate ListAnswered(out: seq<Replayed>, i: nat)
    requires i < |out| && out[i].Asked?
  {
    forall c | c in out[i].calls :: exists j | i < j < |out| :: AnswersFollow(out, i, j, c.id)
  }

  /** A list that asked for it stands before the run of tool messages an answer is in. */
  predicate AnswerAsked(out: seq<Replayed>, j: nat)
    requires j < |out| && out[j].Answer?
  {
    exists i | 0 <= i < j :: AsksFor(out[i], out[j].callId) && AnswersFollow(out, i, j, out[j].callId)
  }

  ghost predicate WellPaired(out: seq<Replayed>) {
    && (forall i: nat | i < |out| && out[i].Asked? :: ListAnswered(out, i))
    && (forall j: nat | j < |out| && out[j].Answer? :: AnswerAsked(out, j))
  }

  predicate AsksFor(m: Replayed, id: string) { m.Asked? && exists k | 0 <= k < |m.calls| :: m.calls[k].id == id }

  lemma {:induction false} PairedMembers(window: seq<Row>, n: nat, id: string)
    requires n <= |window|
    ensures id in PairedUpTo(window, n) <==> exists k | 0 <= k < n :: RowPaired(window, k) && id in Declared(window[k])
  {
    if n > 0 {
      PairedMembers(window, n - 1, id);
    }
  }

  /** Where a row's message ends up. */
  function Place(window: seq<Row>, paired: set<string>, k: nat): nat
    requires k <= |window|
  {
    |ReplayedUpTo(window, paired, k)|
  }

  lemma {:induction false} ReplayedPrefix(window: seq<Row>, paired: set<string>, k: nat, n: nat)
    requires k <= n <= |window|
    ensures ReplayedUpTo(window, paired, k) <= ReplayedUpTo(window, paired, n)
  {
    if k < n {
      ReplayedPrefix(window, paired, k, n - 1);
    }
  }

  /** A row that is not dropped is at its place in the whole. */
  lemma RowAtPlace(window: seq<Row>, paired: set<string>, k: nat)
    requires k < |window| && ReplayRow(window[k], paired) != []
    ensures var out, p := ReplayedUpTo(window, paired, |window|), Place(window, paired, k);
      p < |out| && out[p] == ReplayRow(window[k], paired)[0] && Place(window, paired, k + 1) == p + 1
  {
    ReplayedPrefix(window, paired, k + 1, |window|);
  }

  /** Every message comes from a row. */
  lemma {:induction false} PlaceHasRow(window: seq<Row>, paired: set<string>, n: nat, p: nat) returns (k: nat)
    requires n <= |window| && p < Place(window, paired, n)
    ensures k < n && Place(window, paired, k) == p && ReplayRow(window[k], paired) != []
  {
    hide ReplayRow;
    if p < Place(window, paired, n - 1) {
      k := PlaceHasRow(window, paired, n - 1, p);
    } else {
      k := n - 1;
    }
  }

  lemma ToolRowIsReplayed(row: Row, paired: set<string>)
    requires row.role == Tool
    ensures |ReplayRow(row, paired)| == 1 && ToolOut(ReplayRow(row, paired)[0])
  {
  }

  /** Tool rows are never dropped, so a run of them keeps its length. */
  lemma {:induction false} ToolRunLength(window: seq<Row>, paired: set<string>, from: nat, to: nat)
    requires from <= to <= |window| && AllTools(window, from, to)
    ensures Place(window, paired, to) == Place(window, paired, from) + (to - from)
  {
    if from < to {
      hide ReplayRow;
      ToolRunLength(window, paired, from, to - 1);
      ToolRowIsReplayed(window[to - 1], paired);
    }
  }

  /** And everything in it is a tool message. */
  lemma ToolRunStays(window: seq<Row>, paired: set<string>, from: nat, to: nat, x: nat)
    requires from <= to <= |window| && AllTools(window, from, to) && Place(window, paired, from) <= x < Place(window, paired, to)
    ensures var out := ReplayedUpTo(window, paired, |window|); x < |out| && ToolOut(out[x])
  {
    ToolRunLength(window, paired, from, to);
    var k := from + (x - Place(window, paired, from));
    ToolRunLength(window, paired, from, k);
    ToolRowIsReplayed(window[k], paired);
    hide ReplayRow, Place;
    RowAtPlace(window, paired, k);
  }

  lemma {:induction false} PairedCallsAll(calls: seq<Call>, paired: set<string>)
    requires forall k | 0 <= k < |calls| :: calls[k].id in paired
    ensures PairedCalls(calls, paired) == calls
  {
    if calls != [] {
      PairedCallsAll(calls[1..], paired);
    }
  }

  lemma {:induction false} PairedCallsNone(calls: seq<Call>, paired: set<string>)
    requires forall k | 0 <= k < |calls| :: calls[k].id !in paired
    ensures PairedCalls(calls, paired) == []
  {
    if calls != [] {
      PairedCallsNone(calls[1..], paired);
    }
  }

  /** All or nothing: a row's calls are replayed as they stand when every one is answered, and not at all otherwise. */
  lemma AllOrNothing(window: seq<Row>, k: nat)
    requires DeclaredOnce(window) && k < |window| && window[k].role == Assistant
    ensures PairedCalls(window[k].calls, Paired(window)) == if RowPaired(window, k) then window[k].calls else []
  {
    var paired := Paired(window);
    forall x | 0 <= x < |window[k].calls| ensures window[k].calls[x].id in paired <==> RowPaired(window, k) {
      var id := window[k].calls[x].id;
      PairedMembers(window, |window|, id);
      assert id in Declared(window[k]);
    }
    if RowPaired(window, k) {
      PairedCallsAll(window[k].calls, paired);
    } else {
      PairedCallsNone(window[k].calls, paired);
    }
  }

  /** A paired row's list is at its place, whole. */
  lemma PairedRowAsks(window: seq<Row>, k: nat, id: string)
    requires DeclaredOnce(window) && k < |window| && RowPaired(window, k) && id in Declared(window[k])
    ensures var out, i := ReplayedUpTo(window, Paired(window), |window|), Place(window, Paired(window), k);
      i < |out| && out[i] == Asked(window[k].content, window[k].calls) && AsksFor(out[i], id) && Place(window, Paired(window), k + 1) == i + 1
  {
    hide ReplayedUpTo, Paired, RowPaired;
    AllOrNothing(window, k);
    var x :| 0 <= x < |window[k].calls| && window[k].calls[x].id == id;
    RowAtPlace(window, Paired(window), k);
  }

  /** A tool row whose call is kept, at the end of the run behind a row, answers there. */
  lemma RunEndsInAnswer(window: seq<Row>, paired: set<string>, k: nat, m: nat, id: string)
    requires k < m < |window| && AllTools(window, k + 1, m + 1) && window[m].callId == Some(id) && id in paired
    requires Place(window, paired, k + 1) == Place(window, paired, k) + 1
    ensures AnswersFollow(ReplayedUpTo(window, paired, |window|), Place(window, paired, k), Place(window, paired, m), id)
  {
    hide *;
    var out, i, j := ReplayedUpTo(window, paired, |window|), Place(window, paired, k), Place(window, paired, m);
    AllToolsWithin(window, k + 1, m, m + 1);
    AnswerReplays(window[m], paired, id);
    RowAtPlace(window, paired, m);
    ToolRunLength(window, paired, k + 1, m);
    forall x | i < x <= j ensures x < |out| && ToolOut(out[x]) {
      ToolRunStays(window, paired, k + 1, m + 1, x);
    }
    FollowsAt(out, i, j, id);
  }

  lemma AnswerReplays(row: Row, paired: set<string>, id: string)
    requires row.role == Tool && row.callId == Some(id) && id in paired
    ensures ReplayRow(row, paired) == [Answer(row.content, id)]
  {
  }

  lemma AllToolsWithin(window: seq<Row>, from: nat, m: nat, to: nat)
    requires from <= m < to <= |window| && AllTools(window, from, to)
    ensures AllTools(window, from, m) && window[m].role == Tool
  {
  }

  lemma FollowsAt(out: seq<Replayed>, i: nat, j: nat, id: string)
    requires i < j < |out| && out[j].Answer? && out[j].callId == id && forall x | i < x <= j :: x < |out| && ToolOut(out[x])
    ensures AnswersFollow(out, i, j, id)
  {
  }

  /** The tool row that answers a paired row's call is in the run right behind it. */
  lemma PairedRowReplays(window: seq<Row>, k: nat, m: nat, id: string)
    requires DeclaredOnce(window) && k < |window| && RowPaired(window, k) && id in Declared(window[k]) && AnsweredAt(window, k, m, id)
    ensures var out, i, j := ReplayedUpTo(window, Paired(window), |window|), Place(window, Paired(window), k), Place(window, Paired(window), m);
      && i < |out| && out[i] == Asked(window[k].content, window[k].calls) && AsksFor(out[i], id)
      && AnswersFollow(out, i, j, id)
  {
    PairedMembers(window, |window|, id);
    assert id in Paired(window);
    hide ReplayedUpTo, Place, AnswersFollow, AsksFor, Paired;
    PairedRowAsks(window, k, id);
    RunEndsInAnswer(window, Paired(window), k, m, id);
  }

  lemma AskedAreAnswered(window: seq<Row>, i: nat)
    requires DeclaredOnce(window)
    requires var out := ReplayedUpTo(window, Paired(window), |window|); i < |out| && out[i].Asked?
    ensures ListAnswered(ReplayedUpTo(window, Paired(window), |window|), i)
  {
    var paired := Paired(window);
    var out := ReplayedUpTo(window, paired, |window|);
    var k := PlaceHasRow(window, paired, |window|, i);
    RowAtPlace(window, paired, k);
    AllOrNothing(window, k);
    forall c | c in out[i].calls ensures exists j | i < j < |out| :: AnswersFollow(out, i, j, c.id) {
      assert c.id in Declared(window[k]);
      var m :| k < m < |window| && AnsweredAt(window, k, m, c.id);
      PairedRowReplays(window, k, m, c.id);
    }
  }

  lemma AnswersWereAsked(window: seq<Row>, j: nat)
    requires DeclaredOnce(window) && AnsweredOnce(window)
    requires var out := ReplayedUpTo(window, Paired(window), |window|); j < |out| && out[j].Answer?
    ensures AnswerAsked(ReplayedUpTo(window, Paired(window), |window|), j)
  {
    var paired := Paired(window);
    var m := PlaceHasRow(window, paired, |window|, j);
    RowAtPlace(window, paired, m);
    var id := window[m].callId.value;
    PairedMembers(window, |window|, id);
    var k :| 0 <= k < |window| && RowPaired(window, k) && id in Declared(window[k]);
    var n :| k < n < |window| && AnsweredAt(window, k, n, id);
    assert n == m;
    PairedRowReplays(window, k, m, id);
  }

  lemma WindowIsWellPaired(window: seq<Row>)
    requires DeclaredOnce(window) && AnsweredOnce(window)
    ensures WellPaired(ReplayedUpTo(window, Paired(window), |window|))
  {
    hide ReplayedUpTo, Paired, ListAnswered, AnswerAsked, DeclaredOnce, AnsweredOnce;
    var out := ReplayedUpTo(window, Paired(window), |window|);
    forall i: nat | i < |out| && out[i].Asked? ensures ListAnswered(out, i) {
      AskedAreAnswered(window, i);
    }
    forall j: nat | j < |out| && out[j].Answer? ensures AnswerAsked(out, j) {
      AnswersWereAsked(window, j);
    }
  }

  lemma SelectedIsASlice(cfg: Config, messages: seq<Row>, anchor: string, through: Option<string>) returns (a: nat, b: nat)
    requires UntilAnchor(messages, anchor).Some?
    ensures a <= b <= |messages| && Selected(cfg, UntilAnchor(messages, anchor).value, through) == messages[a..b]
  {
    var until := UntilAnchor(messages, anchor).value;
    var after := AfterSummary(until, through);
    b := |until|;
    a := |until| - |Selected(cfg, until, through)|;
    assert after == until[|until| - |after|..];
  }

  /** Wherever the anchor, the summary and the ceiling cut, the replay is a conversation the model accepts. */
  lemma ReplayIsWellPaired(cfg: Config, messages: seq<Row>, anchor: string, through: Option<string>)
    requires DeclaredOnce(messages) && AnsweredOnce(messages) && Built(cfg, messages, anchor, through).Some?
    ensures WellPaired(Built(cfg, messages, anchor, through).value.messages)
  {
    var a, b := SelectedIsASlice(cfg, messages, anchor, through);
    var window := messages[a..b];
    assert forall k | 0 <= k < |window| :: window[k] == messages[a + k];
    assert DeclaredOnce(window) && AnsweredOnce(window);
    WindowIsWellPaired(window);
  }

  function Text(m: Replayed): string {
    match m
    case Said(_, content) => content
    case Asked(asking, _) => asking
    case Answer(result, _) => result
    case Note(result) => result
  }

  /** No text of the window is lost, and texts keep their order: only an empty assistant row without answered calls is dropped. */
  lemma TextIsKept(window: seq<Row>, j: nat, k: nat)
    requires j < k < |window|
    requires (window[j].content != "" || window[j].role != Assistant) && (window[k].content != "" || window[k].role != Assistant)
    ensures var out, paired := ReplayedUpTo(window, Paired(window), |window|), Paired(window);
      var p, q := Place(window, paired, j), Place(window, paired, k);
      p < q < |out| && Text(out[p]) == window[j].content && Text(out[q]) == window[k].content
  {
    hide ReplayRow, Paired, ReplayedUpTo, Text;
    var paired := Paired(window);
    KeptText(window[j], paired);
    KeptText(window[k], paired);
    ReplayedPrefix(window, paired, j + 1, k);
    RowAtPlace(window, paired, j);
    RowAtPlace(window, paired, k);
  }

  lemma KeptText(row: Row, paired: set<string>)
    requires row.content != "" || row.role != Assistant
    ensures |ReplayRow(row, paired)| == 1 && Text(ReplayRow(row, paired)[0]) == row.content
  {
  }

  /** A call answered a second time, further on, is replayed as an answer nobody asked for there. */
  lemma SecondAnswerBreaksPairing(asking: Row, first: Row, other: Row, second: Row)
    requires asking.role == Assistant && |asking.calls| == 1
    requires first.role == Tool && first.callId == Some(asking.calls[0].id) && second.role == Tool && second.callId == first.callId
    requires other.role == User
    ensures var window := [asking, first, other, second];
      DeclaredOnce(window) && !AnsweredOnce(window) && !WellPaired(ReplayedUpTo(window, Paired(window), |window|))
  {
    var window := [asking, first, other, second];
    var id := asking.calls[0].id;
    var paired, out := Paired(window), ReplayedUpTo(window, Paired(window), |window|);
    assert Declared(window[0]) == {id} && Declared(window[1]) == {} && Declared(window[2]) == {} && Declared(window[3]) == {};
    assert AnsweredAt(window, 0, 1, id);
    assert RowPaired(window, 0);
    PairedMembers(window, 4, id);
    assert Answering(window[1]) && Answering(window[3]);
    RowAtPlace(window, paired, 2);
    RowAtPlace(window, paired, 3);
    var p := Place(window, paired, 3);
    assert out[p - 1] == Said(User, other.content) && out[p] == Answer(second.content, id);
    SaidStandsBetween(out, p);
  }

  lemma SaidStandsBetween(out: seq<Replayed>, j: nat)
    requires 0 < j < |out| && out[j].Answer? && out[j - 1].Said?
    ensures !AnswerAsked(out, j) && !WellPaired(out)
  {
  }

  // ----- folding

  /** Tool results are not turns. */
  function Turns(messages: seq<Row>): nat {
    if messages == [] then 0 else Turns(messages[..|messages| - 1]) + if messages[|messages| - 1].role == Tool then 0 else 1
  }

  /** Where the kept messages begin: right after the last row that would be one turn too many. */
  function KeepFrom(messages: seq<Row>, keep: nat): (n: nat)
    ensures n <= |messages|
  {
    if messages == [] then 0
    else
      var last := |messages| - 1;
      if messages[last].role == Tool then KeepFrom(messages[..last], keep)
      else if keep == 0 then |messages| else KeepFrom(messages[..last], keep - 1)
  }

  function Kept(messages: seq<Row>, keep: nat): seq<Row> { messages[KeepFrom(messages, keep)..] }

  function Folded(messages: seq<Row>, keep: nat): seq<Row> { messages[..|messages| - |Kept(messages, keep)|] }

  method SelectMessagesToKeep(messages: seq<Row>, keep: nat) returns (kept: seq<Row>)
    ensures kept == Kept(messages, keep)
  {
    var turns := 0;
    var index := |messages|;
    assert messages[..index] == messages;
    while index > 0
      invariant index <= |messages| && turns <= keep
      invariant KeepFrom(messages, keep) == KeepFrom(messages[..index], keep - turns)
    {
      index := index - 1;
      assert messages[..index + 1][..index] == messages[..index];
      if messages[index].role != Tool {
        turns := turns + 1;
        if turns > keep {
          return messages[index + 1..];
        }
      }
    }
    return messages;
  }

  method SelectMessagesToFold(messages: seq<Row>, keep: nat) returns (folded: seq<Row>)
    ensures folded == Folded(messages, keep)
  {
    var kept := SelectMessagesToKeep(messages, keep);
    return messages[..|messages| - |kept|];
  }

  function TurnsFrom(messages: seq<Row>, n: nat): nat
    requires n <= |messages|
  {
    Turns(messages[n..])
  }

  lemma TurnsOfFront(messages: seq<Row>, n: nat)
    requires n < |messages|
    ensures TurnsFrom(messages, n) == TurnsFrom(messages[..|messages| - 1], n) + if messages[|messages| - 1].role == Tool then 0 else 1
    ensures TurnsFrom(messages, |messages|) == 0
  {
    var last := |messages| - 1;
    assert messages[n..][..last - n] == messages[..last][n..];
  }

  /** The kept messages are the longest run of latest messages with at most so many turns. */
  lemma {:induction false} KeptIsLongest(messages: seq<Row>, keep: nat)
    ensures TurnsFrom(messages, KeepFrom(messages, keep)) <= keep
    ensures forall n: nat | n < KeepFrom(messages, keep) :: TurnsFrom(messages, n) > keep
  {
    if messages != [] {
      hide TurnsFrom, Turns;
      var last := |messages| - 1;
      var front := messages[..last];
      forall n: nat | n <= last
        ensures TurnsFrom(messages, n) == TurnsFrom(front, n) + (if messages[last].role == Tool then 0 else 1)
      {
        TurnsOfFront(messages, n);
      }
      TurnsOfFront(messages, last);
      if messages[last].role == Tool {
        KeptIsLongest(front, keep);
      } else if keep > 0 {
        KeptIsLongest(front, keep - 1);
      }
    }
  }

  /** What is folded and what is kept are the history. */
  lemma FoldedAndKept(messages: seq<Row>, keep: nat)
    ensures Folded(messages, keep) + Kept(messages, keep) == messages && |Folded(messages, keep)| == KeepFrom(messages, keep)
  {
  }

  predicate DistinctIds(messages: seq<Row>) {
    forall j, k | 0 <= j < k < |messages| :: messages[j].id != messages[k].id
  }

  /** A fold point at a place of the history cuts there, and cuts nothing off a history that ends before it. */
  lemma CutAt(all: seq<Row>, k: nat, n: nat)
    requires DistinctIds(all) && 0 < k <= |all| && n <= |all|
    ensures AfterSummary(all[..n], Some(all[k - 1].id)) == if n >= k then all[k..n] else all[..n]
  {
  }

  /** Reading after the fold point gives back what was kept, and whatever came later; a turn anchored before the point reads everything. */
  lemma FoldAndReplayMeet(messages: seq<Row>, later: seq<Row>, keep: nat, n: nat)
    requires DistinctIds(messages + later) && Folded(messages, keep) != [] && n <= |messages + later|
    ensures var folded := Folded(messages, keep);
      AfterSummary((messages + later)[..n], Some(folded[|folded| - 1].id))
        == if n >= |folded| then (Kept(messages, keep) + later)[..n - |folded|] else (messages + later)[..n]
  {
    hide KeepFrom, DistinctIds, AfterSummary;
    var all, k := messages + later, KeepFrom(messages, keep);
    FoldedAndKept(messages, keep);
    assert all[k - 1] == Folded(messages, keep)[k - 1];
    CutAt(all, k, n);
    if n >= k {
      assert all[k..n] == (Kept(messages, keep) + later)[..n - k];
    }
  }

  lemma {:induction false} KeepFromRises(messages: seq<Row>, later: seq<Row>, keep: nat)
    ensures KeepFrom(messages, keep) <= KeepFrom(messages + later, keep)
  {
    if later == [] {
      assert messages + later == messages;
    } else {
      var front := later[..|later| - 1];
      KeepFromRises(messages, front, keep);
      assert (messages + later)[..|messages + later| - 1] == messages + front;
      if later[|later| - 1].role != Tool && keep > 0 {
        KeepFewerFoldsMore(messages + front, keep - 1);
      }
    }
  }

  lemma {:induction false} KeepFewerFoldsMore(messages: seq<Row>, keep: nat)
    ensures KeepFrom(messages, keep + 1) <= KeepFrom(messages, keep)
  {
    if messages != [] {
      var front := messages[..|messages| - 1];
      if messages[|messages| - 1].role == Tool {
        KeepFewerFoldsMore(front, keep);
      } else if keep > 0 {
        KeepFewerFoldsMore(front, keep - 1);
      }
    }
  }

  // ----- projections over a growing thread

  function Characters(messages: seq<Row>): nat {
    if messages == [] then 0 else Characters(messages[..|messages| - 1]) + |messages[|messages| - 1].content|
  }

  predicate ShouldSummarize(cfg: Config, messages: seq<Row>) {
    |messages| > cfg.triggerMessages || Characters(messages) > cfg.triggerChars
  }

  /** What a projection that has read these messages folds: nothing under the threshold. */
  function Older(cfg: Config, messages: seq<Row>): seq<Row> {
    if ShouldSummarize(cfg, messages) then Folded(messages, cfg.keep) else []
  }

  method CountCharacters(messages: seq<Row>) returns (n: nat)
    ensures n == Characters(messages)
  {
    n := 0;
    for k := 0 to |messages|
      invariant n == Characters(messages[..k])
    {
      assert messages[..k + 1][..k] == messages[..k];
      n := n + |messages[k].content|;
    }
    assert messages[..|messages|] == messages;
  }

  lemma ReadsOn(messages: seq<Row>, later: seq<Row>, keep: nat)
    requires Folded(messages, keep) != []
    ensures DistinctIds(messages + later) ==>
      var folded := Folded(messages, keep);
      AfterSummary(messages + later, Some(folded[|folded| - 1].id)) == Kept(messages, keep) + later
  {
    FoldedAndKept(messages, keep);
    hide KeepFrom, DistinctIds, AfterSummary, Kept, Folded;
    var all, read := messages + later, Kept(messages, keep) + later;
    if DistinctIds(all) {
      FoldAndReplayMeet(messages, later, keep, |all|);
      assert all[..|all|] == all && read[..|read|] == read;
      assert |read| == |all| - |Folded(messages, keep)|;
    }
  }

  class ChatThread {
    var history: seq<Row>
    var summary: Option<string>
    var through: Option<string>

    constructor ()
      ensures history == [] && summary == None && through == None
    {
      history, summary, through := [], None, None;
    }

    /** One projection: it reads, asks for a summary while the thread may grow, and writes the summary with the point it covers. */
    method Project(cfg: Config, summarize: (seq<Row>, Option<string>) -> string, appended: seq<Row>) returns (wrote: bool)
      modifies this
      ensures history == old(history) + appended
      ensures var older := Older(cfg, old(history));
        && (wrote <==> older != [] && summarize(older, old(summary)) != "")
        && (wrote ==> summary == Some(summarize(older, old(summary))) && through == Some(older[|older| - 1].id))
        && (!wrote ==> summary == old(summary) && through == old(through))
      ensures wrote && DistinctIds(history) ==> AfterSummary(history, through) == Kept(old(history), cfg.keep) + appended
    {
      hide KeepFrom, Characters, AfterSummary, DistinctIds;
      var characters := CountCharacters(history);
      var older := [];
      if |history| > cfg.triggerMessages || characters > cfg.triggerChars {
        older := SelectMessagesToFold(history, cfg.keep);
      }
      history := history + appended;
      if older == [] {
        return false;
      }
      var text := summarize(older, summary);
      if text == "" {
        return false;
      }
      summary, through := Some(text), Some(older[|older| - 1].id);
      ReadsOn(old(history), appended, cfg.keep);
      return true;
    }
  }

  /** The thread: its messages, the rows its summary was made from, the stored id of the last of them, and what each projection under
      way has read. */
  datatype Thread = Thread(history: seq<Row>, summarized: seq<Row>, through: Option<string>, reading: map<nat, seq<Row>>)

  datatype Event =
    | Appends(rows: seq<Row>)
    | ReadsHistory(projection: nat)
    | WritesFold(projection: nat, answered: bool)

  predicate Possible(t: Thread, e: Event) {
    match e
    case Appends(rows) => DistinctIds(t.history + rows)
    case ReadsHistory(p) => p !in t.reading
    case WritesFold(p, _) => p in t.reading
  }

  /** A projection that has nothing to fold, or gets no summary, writes nothing; the write itself looks at nothing. */
  function Next(cfg: Config, t: Thread, e: Event): Thread
    requires Possible(t, e)
  {
    match e
    case Appends(rows) => t.(history := t.history + rows)
    case ReadsHistory(p) => t.(reading := t.reading[p := Older(cfg, t.history)])
    case WritesFold(p, answered) =>
      var older := t.reading[p];
      var ended := t.(reading := t.reading - {p});
      if answered && older != [] then ended.(summarized := older, through := Some(older[|older| - 1].id)) else ended
  }

  function Run(cfg: Config, t: Thread, events: seq<Event>): Option<Thread> {
    if events == [] then Some(t)
    else
      var before := Run(cfg, t, events[..|events| - 1]);
      if before.None? || !Possible(before.value, events[|events| - 1]) then None
      else Some(Next(cfg, before.value, events[|events| - 1]))
  }

  predicate Inv(t: Thread) {
    && DistinctIds(t.history) && t.summarized <= t.history
    && t.through == (if t.summarized == [] then None else Some(t.summarized[|t.summarized| - 1].id))
    && forall p | p in t.reading :: t.reading[p] <= t.history
  }

  /** Nothing is covered, or about to be, that reading now would keep. */
  predicate UpToDate(cfg: Config, t: Thread) {
    |t.summarized| <= KeepFrom(t.history, cfg.keep) && forall p | p in t.reading :: |t.reading[p]| <= KeepFrom(t.history, cfg.keep)
  }

  lemma OlderIsPrefix(cfg: Config, messages: seq<Row>)
    ensures Older(cfg, messages) <= messages && |Older(cfg, messages)| <= KeepFrom(messages, cfg.keep)
    ensures Older(cfg, messages) != [] ==> |Older(cfg, messages)| == KeepFrom(messages, cfg.keep)
  {
    FoldedAndKept(messages, cfg.keep);
  }

  lemma StepKeeps(cfg: Config, t: Thread, e: Event)
    requires Inv(t) && Possible(t, e)
    ensures Inv(Next(cfg, t, e)) && t.history <= Next(cfg, t, e).history
    ensures UpToDate(cfg, t) ==> UpToDate(cfg, Next(cfg, t, e))
  {
    OlderIsPrefix(cfg, t.history);
    if e.Appends? {
      KeepFromRises(t.history, e.rows, cfg.keep);
    }
    hide KeepFrom, Older, DistinctIds;
  }

  lemma {:induction false} RunKeeps(cfg: Config, t: Thread, events: seq<Event>)
    requires Inv(t) && Run(cfg, t, events).Some?
    ensures Inv(Run(cfg, t, events).value) && t.history <= Run(cfg, t, events).value.history
    ensures UpToDate(cfg, t) ==> UpToDate(cfg, Run(cfg, t, events).value)
  {
    if events != [] {
      hide Inv, Possible, Next, UpToDate;
      RunKeeps(cfg, t, events[..|events| - 1]);
      StepKeeps(cfg, Run(cfg, t, events[..|events| - 1]).value, events[|events| - 1]);
    }
  }

  /** Over any interleaving of projections: the rows the stored summary was made from, and what reading after the stored id gives, are
      the history. */
  lemma NothingFallsBetween(cfg: Config, t: Thread, events: seq<Event>)
    requires Inv(t) && Run(cfg, t, events).Some?
    ensures var after := Run(cfg, t, events).value;
      t.history <= after.history && after.summarized + AfterSummary(after.history, after.through) == after.history
  {
    RunKeeps(cfg, t, events);
    hide *;
    NothingBetween(Run(cfg, t, events).value);
  }

  lemma NothingBetween(t: Thread)
    requires Inv(t)
    ensures t.summarized + AfterSummary(t.history, t.through) == t.history
  {
    var history, n := t.history, |t.summarized|;
    if n > 0 {
      assert history[n - 1] == t.summarized[n - 1];
      CutAt(history, n, |history|);
      assert history[..|history|] == history;
      hide DistinctIds, AfterSummary;
      assert AfterSummary(history, t.through) == history[n..];
      assert t.summarized == history[..n];
    }
  }

  // ----- when the fold point goes back

  /** How many rows the event at a place of a run folds: none unless it is a write that has something to write. */
  function WrittenAt(cfg: Config, t: Thread, events: seq<Event>, j: nat): nat
    requires j < |events| && Run(cfg, t, events[..j]).Some?
  {
    var before := Run(cfg, t, events[..j]).value;
    match events[j]
    case WritesFold(p, answered) => if answered && p in before.reading then |before.reading[p]| else 0
    case _ => 0
  }

  /** What the last write of a run folded; none when nothing was written. */
  function LastWritten(cfg: Config, t: Thread, events: seq<Event>): nat
    requires Run(cfg, t, events).Some?
  {
    if events == [] then 0
    else
      var n := |events| - 1;
      var last := WrittenAt(cfg, t, events, n);
      if last > 0 then last else LastWritten(cfg, t, events[..n])
  }

  lemma {:induction false} CoversTheLastWritten(cfg: Config, t: Thread, events: seq<Event>)
    requires Run(cfg, t, events).Some?
    ensures var last := LastWritten(cfg, t, events);
      |Run(cfg, t, events).value.summarized| == if last > 0 then last else |t.summarized|
  {
    if events != [] {
      CoversTheLastWritten(cfg, t, events[..|events| - 1]);
    }
  }

  /** A projection's reading stays what it was until it writes. */
  lemma {:induction false} ReadingStays(cfg: Config, t: Thread, events: seq<Event>, p: nat)
    requires Run(cfg, t, events).Some? && p in t.reading
    requires forall k | 0 <= k < |events| :: !(events[k].WritesFold? && events[k].projection == p)
    ensures p in Run(cfg, t, events).value.reading && Run(cfg, t, events).value.reading[p] == t.reading[p]
  {
    if events != [] {
      var front, e := events[..|events| - 1], events[|events| - 1];
      ReadingStays(cfg, t, front, p);
      assert !(e.WritesFold? && e.projection == p);
    }
  }

  /** One projection among any others: it reads at `start`, `between` happens, and it writes. */
  predicate Projects(cfg: Config, start: Thread, p: nat, between: seq<Event>) {
    && Inv(start) && UpToDate(cfg, start) && p !in start.reading
    && Run(cfg, Next(cfg, start, ReadsHistory(p)), between).Some?
    && forall k | 0 <= k < |between| :: !(between[k].WritesFold? && between[k].projection == p)
  }

  /** A projection's write moves the fold point back if and only if the last write since its reading folded more. */
  lemma FoldGoesBackIff(cfg: Config, start: Thread, p: nat, between: seq<Event>)
    requires Projects(cfg, start, p, between)
    ensures var reading := Next(cfg, start, ReadsHistory(p));
      var before := Run(cfg, reading, between).value;
      Possible(before, WritesFold(p, true)) &&
      var back := |Next(cfg, before, WritesFold(p, true)).summarized| < |before.summarized|;
      back <==> 0 < |Older(cfg, start.history)| < LastWritten(cfg, reading, between)
  {
    var reading := Next(cfg, start, ReadsHistory(p));
    ReadingStays(cfg, reading, between, p);
    CoversTheLastWritten(cfg, reading, between);
    OlderIsPrefix(cfg, start.history);
  }

  /** And it leaves the point behind where it once was since the reading if and only if some write in between folded more. */
  lemma FoldFallsBehindIff(cfg: Config, start: Thread, p: nat, between: seq<Event>)
    requires Projects(cfg, start, p, between) && Older(cfg, start.history) != []
    ensures var reading := Next(cfg, start, ReadsHistory(p));
      (exists k: nat :: k <= |between| && FurtherAt(cfg, reading, between, k, |Older(cfg, start.history)|)) <==>
      (exists j: nat :: j < |between| && WroteMoreAt(cfg, reading, between, j, |Older(cfg, start.history)|))
  {
    var reading, read := Next(cfg, start, ReadsHistory(p)), |Older(cfg, start.history)|;
    OlderIsPrefix(cfg, start.history);
    assert |reading.summarized| <= read;
    if k: nat :| k <= |between| && FurtherAt(cfg, reading, between, k, read) {
      var j := SomeWriteReached(cfg, reading, between, k, read);
      assert WroteMoreAt(cfg, reading, between, j, read);
    }
    if j: nat :| j < |between| && WroteMoreAt(cfg, reading, between, j, read) {
      WrittenIsReached(cfg, reading, between, j, read);
    }
  }

  lemma WrittenIsReached(cfg: Config, t: Thread, events: seq<Event>, j: nat, n: nat)
    requires Run(cfg, t, events).Some? && j < |events| && WroteMoreAt(cfg, t, events, j, n)
    ensures FurtherAt(cfg, t, events, j + 1, n)
  {
    PrefixRuns(cfg, t, events, j + 1);
    assert events[..j + 1][..j] == events[..j];
  }

  predicate FurtherAt(cfg: Config, t: Thread, events: seq<Event>, k: nat, n: nat)
    requires k <= |events|
  {
    Run(cfg, t, events[..k]).Some? && |Run(cfg, t, events[..k]).value.summarized| > n
  }

  predicate WroteMoreAt(cfg: Config, t: Thread, events: seq<Event>, j: nat, n: nat)
    requires j < |events|
  {
    Run(cfg, t, events[..j]).Some? && WrittenAt(cfg, t, events, j) > n
  }

  lemma {:induction false} PrefixRuns(cfg: Config, t: Thread, events: seq<Event>, k: nat)
    requires Run(cfg, t, events).Some? && k <= |events|
    ensures Run(cfg, t, events[..k]).Some?
  {
    if k < |events| {
      PrefixRuns(cfg, t, events[..|events| - 1], k);
      assert events[..|events| - 1][..k] == events[..k];
    } else {
      assert events[..k] == events;
    }
  }

  lemma {:induction false} SomeWriteReached(cfg: Config, t: Thread, events: seq<Event>, k: nat, n: nat) returns (j: nat)
    requires k <= |events| && |t.summarized| <= n && FurtherAt(cfg, t, events, k, n)
    ensures j < k && WroteMoreAt(cfg, t, events, j, n)
  {
    assert events[..0] == [];
    assert k > 0;
    assert events[..k][..k - 1] == events[..k - 1];
    if FurtherAt(cfg, t, events, k - 1, n) {
      j := SomeWriteReached(cfg, t, events, k - 1, n);
    } else {
      j := k - 1;
    }
  }

  predicate IsRead(e: Event) { e.ReadsHistory? }

  /** At most one projection is under way, and nothing it would write is behind what is covered. */
  predicate Serial(t: Thread) {
    |t.reading| <= 1 && forall p | p in t.reading :: t.reading[p] == [] || |t.summarized| <= |t.reading[p]|
  }

  /** If each projection starts after the one before it ended, the fold point only moves forward. */
  lemma {:induction false} SerialFoldsMoveForward(cfg: Config, t: Thread, events: seq<Event>)
    requires Inv(t) && t.reading == map[] && UpToDate(cfg, t) && Run(cfg, t, events).Some?
    requires forall n | 0 <= n < |events| && IsRead(events[n]) && Run(cfg, t, events[..n]).Some? :: Run(cfg, t, events[..n]).value.reading == map[]
    ensures var after := Run(cfg, t, events).value; Serial(after) && |t.summarized| <= |after.summarized|
  {
    if events != [] {
      var n := |events| - 1;
      var front, e := events[..n], events[n];
      forall m | 0 <= m < n && IsRead(front[m]) && Run(cfg, t, front[..m]).Some? ensures Run(cfg, t, front[..m]).value.reading == map[] {
        assert front[..m] == events[..m] && IsRead(events[m]);
      }
      SerialFoldsMoveForward(cfg, t, front);
      RunKeeps(cfg, t, front);
      var before := Run(cfg, t, front).value;
      OlderIsPrefix(cfg, before.history);
      assert e.ReadsHistory? ==> IsRead(events[n]);
    }
  }

  /** Two projections at once: the other one reads after the thread has grown and writes first, and the point goes back. */
  lemma InterleavedFoldsGoBack(cfg: Config, start: Thread, p: nat, other: nat, rows: seq<Row>)
    requires Inv(start) && UpToDate(cfg, start) && p !in start.reading && other !in start.reading && other != p
    requires DistinctIds(start.history + rows)
    requires 0 < |Older(cfg, start.history)| < |Older(cfg, start.history + rows)|
    ensures var between := [Appends(rows), ReadsHistory(other), WritesFold(other, true)];
      Projects(cfg, start, p, between) &&
      var before := Run(cfg, Next(cfg, start, ReadsHistory(p)), between).value;
      Possible(before, WritesFold(p, true)) && |Next(cfg, before, WritesFold(p, true)).summarized| < |before.summarized|
  {
    hide Older, DistinctIds, KeepFrom;
    var between := [Appends(rows), ReadsHistory(other), WritesFold(other, true)];
    var reading := Next(cfg, start, ReadsHistory(p));
    var grown := Next(cfg, reading, Appends(rows));
    var both := Next(cfg, grown, ReadsHistory(other));
    assert between[..1] == [Appends(rows)] && between[..1][..0] == [] && Run(cfg, reading, between[..1]) == Some(grown);
    assert between[..2][..1] == between[..1] && Run(cfg, reading, between[..2]) == Some(both);
    assert between[..3] == between && between[..3][..2] == between[..2];
    assert WrittenAt(cfg, reading, between, 2) == |Older(cfg, start.history + rows)|;
    assert LastWritten(cfg, reading, between) == |Older(cfg, start.history + rows)|;
    FoldGoesBackIff(cfg, start, p, between);
  }

  // ----- when the replay calls itself truncated

  /** `truncated` holds when the ceiling cut, and also when nothing but the summary did. */
  lemma TruncatedIff(cfg: Config, messages: seq<Row>, anchor: string, through: Option<string>)
    requires Built(cfg, messages, anchor, through).Some?
    ensures var until := UntilAnchor(messages, anchor).value;
      Truncated(Built(cfg, messages, anchor, through).value) <==>
        (|AfterSummary(until, through)| > cfg.ceiling > 0 || (through.Some? && PlaceOf(until, through.value) < |until|))
    ensures cfg.ceiling > 0 ==> Built(cfg, messages, anchor, through).value.kept <= cfg.ceiling
  {
  }

  /** So an ordinary fold within the ceiling is reported as truncated too. */
  lemma OrdinaryFoldLooksTruncated(cfg: Config, messages: seq<Row>)
    requires DistinctIds(messages) && Folded(messages, cfg.keep) != [] && |Kept(messages, cfg.keep)| <= cfg.ceiling
    ensures var folded := Folded(messages, cfg.keep);
      var replay := Built(cfg, messages, messages[|messages| - 1].id, Some(folded[|folded| - 1].id));
      replay.Some? && Truncated(replay.value) && replay.value.kept == |Kept(messages, cfg.keep)| <= cfg.ceiling
  {
  }
}
