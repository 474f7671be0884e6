/**
 * The service's calls and the scans' writes as transactions that overlap: what a transaction found may have
 * changed by the time it commits, and a commit writes the whole row it found.
 */
module Transactions {
  import opened Wrappers
  import opened Recipes
  import opened RecipeLedger

  /** What an open call has found: its recipe and, once it has looked for one, its parent or that there is none. */
  datatype Reading = Reading(row: Row, parent: Option<Option<Row>>)

  /** What an open attempt of a scan has seen of its job's output. */
  datatype Attempt = Attempt(from: Origin, seen: bool)

  datatype Work = Work(t: Tables, readings: map<nat, Reading>, attempts: map<nat, Attempt>)

  datatype Move =
    | Finds(n: nat, userId: string, id: string)
    | FindsParent(n: nat)
    | Commits(n: nat, action: Action, ids: (string, string), now: int)
    | Looks(n: nat, from: Origin)
    | Writes(n: nat, drafts: seq<Draft>, now: int)

  /** Only an acceptance looks for a parent; ids of new rows are new. */
  predicate Possible(w: Work, m: Move) {
    match m
    case Finds(n, userId, id) => n !in w.readings && Owned(w.t.recipes, userId, id).Ok?
    case FindsParent(n) => n in w.readings
    case Commits(n, action, _, now) =>
      && n in w.readings && action != Action.Supersede && Transition(w.readings[n].row, action, now).Ok?
      && (action.Accept? ==> w.readings[n].parent.Some?)
    case Looks(n, _) => n !in w.attempts
    case Writes(n, drafts, _) => n in w.attempts && NewIds(w.t, drafts)
  }

  /** The parent an acceptance takes out of use. */
  function Replaced(reading: Reading, action: Action): Option<Row> {
    if action.Accept? && reading.parent.Some? then reading.parent.value else None
  }

  function Committed(t: Tables, reading: Reading, action: Action, ids: (string, string), now: int): Tables
    requires Transition(reading.row, action, now).Ok?
  {
    var first := Saved(t, Transition(reading.row, action, now).value, ids.0, reading.row.userId, now);
    match Replaced(reading, action)
    case None => first
    case Some(parent) => Saved(first, Transition(parent, Supersede, now).value, ids.1, reading.row.userId, now)
  }

  function Moved(w: Work, m: Move): Work
    requires Possible(w, m)
  {
    match m
    case Finds(n, userId, id) => w.(readings := w.readings[n := Reading(Owned(w.t.recipes, userId, id).value, None)])
    case FindsParent(n) =>
      var row := w.readings[n].row;
      w.(readings := w.readings[n := Reading(row, Some(OwnedParent(w.t.recipes, row.userId, row.parentId)))])
    case Commits(n, action, ids, now) => w.(t := Committed(w.t, w.readings[n], action, ids, now), readings := w.readings - {n})
    case Looks(n, from) => w.(attempts := w.attempts[n := Attempt(from, HasOutput(w.t.recipes, from.userId, from.job))])
    case Writes(n, drafts, now) =>
      var attempt := w.attempts[n];
      w.(t := if drafts == [] || attempt.seen then w.t else WrittenOnes(w.t, attempt.from, drafts, now), attempts := w.attempts - {n})
  }

  predicate Legal(w: Work, moves: seq<Move>)
    decreases |moves|
  {
    moves == [] || (Possible(w, moves[0]) && Legal(Moved(w, moves[0]), moves[1..]))
  }

  function AllMoved(w: Work, moves: seq<Move>): Work
    requires Legal(w, moves)
    decreases |moves|
  {
    if moves == [] then w else AllMoved(Moved(w, moves[0]), moves[1..])
  }

  // ----- what every move keeps

  /** Rows lie under their ids, and a parent is another row. */
  predicate Lineage(recipes: map<string, Row>) {
    KeyedById(recipes) &&
    forall id | id in recipes && recipes[id].parentId.Some? :: recipes[id].parentId.value in recipes && recipes[id].parentId.value != id
  }

  predicate Found(recipes: map<string, Row>, read: Row) {
    EarlierReading(recipes, read) && recipes[read.id].sourceJobId == read.sourceJobId
  }

  predicate ReadingHolds(recipes: map<string, Row>, reading: Reading) {
    && Found(recipes, reading.row)
    && (reading.parent.Some? && reading.parent.value.Some? ==>
          reading.row.parentId == Some(reading.parent.value.value.id) && Found(recipes, reading.parent.value.value))
  }

  predicate Inv(w: Work) {
    Lineage(w.t.recipes) && forall n | n in w.readings :: ReadingHolds(w.t.recipes, w.readings[n])
  }

  /** No row goes away, and none changes its owner, its parent or its job. */
  predicate Lasts(before: map<string, Row>, after: map<string, Row>) {
    forall id | id in before :: id in after
      && after[id].userId == before[id].userId && after[id].parentId == before[id].parentId && after[id].sourceJobId == before[id].sourceJobId
  }

  lemma SavedLasts(recipes: map<string, Row>, read: Row, action: Action, now: int)
    requires Lineage(recipes) && Found(recipes, read) && Transition(read, action, now).Ok?
    ensures var after := Upserted(recipes, Transition(read, action, now).value);
      Lineage(after) && Lasts(recipes, after) && after.Keys == recipes.Keys
  {
    SameIdentity(read, action, now);
    hide Transition;
    ReplacedLasts(recipes, Merged(recipes, read.id, Transition(read, action, now).value));
  }

  lemma SameIdentity(read: Row, action: Action, now: int)
    requires Transition(read, action, now).Ok?
    ensures var row := Transition(read, action, now).value;
      row.id == read.id && row.parentId == read.parentId && row.sourceJobId == read.sourceJobId
  {
  }

  lemma ReplacedLasts(recipes: map<string, Row>, row: Row)
    requires Lineage(recipes) && row.id in recipes
    requires var before := recipes[row.id];
      row.userId == before.userId && row.parentId == before.parentId && row.sourceJobId == before.sourceJobId
    ensures Lineage(recipes[row.id := row]) && Lasts(recipes, recipes[row.id := row])
  {
  }

  lemma LastsInSteps(a: map<string, Row>, b: map<string, Row>, c: map<string, Row>)
    requires Lasts(a, b) && Lasts(b, c)
    ensures Lasts(a, c)
  {
  }

  lemma FoundStays(before: map<string, Row>, after: map<string, Row>, read: Row)
    requires Found(before, read) && Lasts(before, after)
    ensures Found(after, read)
  {
  }

  lemma CommittedLasts(t: Tables, reading: Reading, action: Action, ids: (string, string), now: int)
    requires Lineage(t.recipes) && ReadingHolds(t.recipes, reading) && Transition(reading.row, action, now).Ok?
    ensures var after := Committed(t, reading, action, ids, now).recipes;
      Lineage(after) && Lasts(t.recipes, after) && after.Keys == t.recipes.Keys
  {
    SavedLasts(t.recipes, reading.row, action, now);
    var first := Upserted(t.recipes, Transition(reading.row, action, now).value);
    var parent := Replaced(reading, action);
    if parent.Some? {
      FoundStays(t.recipes, first, parent.value);
      SavedLasts(first, parent.value, Supersede, now);
      LastsInSteps(t.recipes, first, Upserted(first, Transition(parent.value, Supersede, now).value));
    }
  }

  /** A scan's write adds candidates of its job and touches nothing else. */
  predicate Adds(before: map<string, Row>, after: map<string, Row>, from: Origin) {
    && (forall id | id in before :: id in after && after[id] == before[id])
    && (forall id | id in after && id !in before ::
          after[id].status == Candidate && after[id].userId == from.userId && after[id].sourceJobId == Some(from.job))
  }

  lemma CandidateAdds(before: map<string, Row>, recipes: map<string, Row>, from: Origin, draft: Draft, now: int)
    requires Lineage(recipes) && Adds(before, recipes, from) && draft.rowId !in recipes
    ensures var after := Upserted(recipes, RowOf(recipes, from, draft, now));
      Lineage(after) && Adds(before, after, from) && draft.rowId in after
  {
  }

  lemma {:induction false} ScanAddsOnly(t: Tables, from: Origin, drafts: seq<Draft>, now: int)
    requires Lineage(t.recipes) && NewIds(t, drafts)
    ensures var after := WrittenOnes(t, from, drafts, now).recipes;
      && Lineage(after) && Adds(t.recipes, after, from)
      && (drafts != [] ==> drafts[|drafts| - 1].rowId in after && drafts[|drafts| - 1].rowId !in t.recipes)
  {
    if drafts != [] {
      hide Lineage, RowOf, Upserted, Adds;
      var n := |drafts| - 1;
      ScanAddsOnly(t, from, drafts[..n], now);
      ScanAdds(t, from, drafts[..n], now);
      CandidateAdds(t.recipes, WrittenOnes(t, from, drafts[..n], now).recipes, from, drafts[n], now);
    } else {
      AddsNothing(t.recipes, from);
    }
  }

  lemma AddsNothing(recipes: map<string, Row>, from: Origin)
    ensures Adds(recipes, recipes, from)
  {
  }

  lemma AddsLasts(before: map<string, Row>, after: map<string, Row>, from: Origin)
    requires Adds(before, after, from)
    ensures Lasts(before, after)
  {
  }

  lemma OwnedIsFound(recipes: map<string, Row>, userId: string, id: string)
    requires Lineage(recipes) && Owned(recipes, userId, id).Ok?
    ensures Found(recipes, Owned(recipes, userId, id).value)
  {
  }

  lemma OwnedParentIsFound(recipes: map<string, Row>, row: Row)
    requires Lineage(recipes)
    ensures var parent := OwnedParent(recipes, row.userId, row.parentId);
      parent.Some? ==> row.parentId == Some(parent.value.id) && Found(recipes, parent.value)
  {
  }

  lemma TablesLast(w: Work, m: Move)
    requires Inv(w) && Possible(w, m)
    ensures Lineage(Moved(w, m).t.recipes) && Lasts(w.t.recipes, Moved(w, m).t.recipes)
  {
    hide Committed, WrittenOnes, Lineage, Lasts, Adds, ReadingHolds;
    LastsItself(w.t.recipes);
    match m {
      case Commits(n, action, ids, now) => CommittedLasts(w.t, w.readings[n], action, ids, now);
      case Writes(n, drafts, now) =>
        ScanAddsOnly(w.t, w.attempts[n].from, drafts, now);
        AddsLasts(w.t.recipes, WrittenOnes(w.t, w.attempts[n].from, drafts, now).recipes, w.attempts[n].from);
      case _ =>
    }
  }

  lemma LastsItself(recipes: map<string, Row>)
    ensures Lasts(recipes, recipes)
  {
  }

  lemma ReadingStays(before: map<string, Row>, after: map<string, Row>, reading: Reading)
    requires ReadingHolds(before, reading) && Lasts(before, after)
    ensures ReadingHolds(after, reading)
  {
  }

  /** What a transaction finds stays an earlier reading through everything others commit. */
  lemma MoveKeeps(w: Work, m: Move)
    requires Inv(w) && Possible(w, m)
    ensures Inv(Moved(w, m)) && Lasts(w.t.recipes, Moved(w, m).t.recipes)
  {
    var after := Moved(w, m);
    TablesLast(w, m);
    if m.Finds? {
      OwnedIsFound(w.t.recipes, m.userId, m.id);
    }
    if m.FindsParent? {
      OwnedParentIsFound(w.t.recipes, w.readings[m.n].row);
    }
    forall n | n in after.readings ensures ReadingHolds(after.t.recipes, after.readings[n]) {
      if n in w.readings && after.readings[n] == w.readings[n] {
        hide Possible, Moved, Lineage, Lasts, ReadingHolds;
        ReadingStays(w.t.recipes, after.t.recipes, w.readings[n]);
      }
    }
  }

  // ----- one live version

  /** Looked up in the tables before the commit; an acceptance that takes its parent out of use only depends on what revises the child. */
  predicate HarmlessCommit(recipes: map<string, Row>, reading: Reading, action: Action) {
    match Replaced(reading, action)
    case None => Harmless(recipes, reading.row, action)
    case Some(parent) => forall id | id in recipes && Live(recipes[id]) && id != parent.id :: recipes[id].parentId != Some(reading.row.id)
  }

  predicate StaysOneLive(w: Work, moves: seq<Move>)
    requires Legal(w, moves)
    decreases |moves|
  {
    OneLiveVersion(w.t.recipes) && (moves == [] || StaysOneLive(Moved(w, moves[0]), moves[1..]))
  }

  predicate AllHarmless(w: Work, moves: seq<Move>)
    requires Legal(w, moves)
    decreases |moves|
  {
    moves == [] || (
      && (moves[0].Commits? ==> HarmlessCommit(w.t.recipes, w.readings[moves[0].n], moves[0].action))
      && AllHarmless(Moved(w, moves[0]), moves[1..]))
  }

  lemma AddedCandidatesAreHarmless(before: map<string, Row>, after: map<string, Row>, from: Origin)
    requires Lineage(before) && Adds(before, after, from) && OneLiveVersion(before)
    ensures OneLiveVersion(after)
  {
    forall id | id in after && Live(after[id]) && after[id].parentId.Some?
      ensures !(after[id].parentId.value in after && Live(after[after[id].parentId.value]))
    {
      assert after[id] == before[id];
      assert after[after[id].parentId.value] == before[after[id].parentId.value];
    }
  }

  lemma CommitKeepsIff(t: Tables, reading: Reading, action: Action, ids: (string, string), now: int)
    requires OneLiveVersion(t.recipes) && ReadingHolds(t.recipes, reading) && Transition(reading.row, action, now).Ok?
    ensures OneLiveVersion(Committed(t, reading, action, ids, now).recipes) <==> HarmlessCommit(t.recipes, reading, action)
  {
    hide OneLiveVersion, Harmless;
    var parent := Replaced(reading, action);
    if parent.Some? {
      StaleAcceptanceKeepsOneLiveVersionIff(t, reading.row, parent.value, ids, reading.row.userId, now);
    } else {
      StaleCommitKeepsOneLiveVersionIff(t, reading.row, action, ids.0, reading.row.userId, now);
    }
  }

  lemma MoveKeepsIff(w: Work, m: Move)
    requires Inv(w) && Possible(w, m) && OneLiveVersion(w.t.recipes)
    ensures OneLiveVersion(Moved(w, m).t.recipes) <==> (m.Commits? ==> HarmlessCommit(w.t.recipes, w.readings[m.n], m.action))
  {
    hide OneLiveVersion, HarmlessCommit, Committed, WrittenOnes, Adds, ReadingHolds, Lineage;
    match m {
      case Commits(n, action, ids, now) => CommitKeepsIff(w.t, w.readings[n], action, ids, now);
      case Writes(n, drafts, now) =>
        ScanAddsOnly(w.t, w.attempts[n].from, drafts, now);
        AddedCandidatesAreHarmless(w.t.recipes, WrittenOnes(w.t, w.attempts[n].from, drafts, now).recipes, w.attempts[n].from);
      case _ =>
    }
  }

  /** Over every overlap of transactions: one live version throughout if and only if every commit is harmless where it lands. */
  lemma {:induction false} CommitsKeepOneLiveVersionIff(w: Work, moves: seq<Move>)
    requires Inv(w) && OneLiveVersion(w.t.recipes) && Legal(w, moves)
    ensures StaysOneLive(w, moves) <==> AllHarmless(w, moves)
    decreases |moves|
  {
    if moves != [] {
      hide OneLiveVersion, HarmlessCommit, Inv, Moved, Possible, Lasts;
      var after := Moved(w, moves[0]);
      MoveKeepsIff(w, moves[0]);
      MoveKeeps(w, moves[0]);
      if OneLiveVersion(after.t.recipes) {
        CommitsKeepOneLiveVersionIff(after, moves[1..]);
      }
    }
  }

  /** Tables the calls have kept in order are a place to start from. */
  lemma TablesInOrder(t: Tables)
    requires RecipeLedger.Inv(t.recipes)
    ensures Inv(Work(t, map[], map[])) && OneLiveVersion(t.recipes)
  {
    forall id | id in t.recipes && t.recipes[id].parentId.Some?
      ensures t.recipes[id].parentId.value in t.recipes && t.recipes[id].parentId.value != id
      ensures Live(t.recipes[id]) ==> !Live(t.recipes[t.recipes[id].parentId.value])
    {
      assert GivesWay(t.recipes, t.recipes[id]);
    }
  }

  // ----- nothing in between

  function InARow(n: nat, call: Call, now: int): seq<Move> {
    match call
    case Act(requestId, userId, id, action) => [Finds(n, userId, id), Commits(n, action, (requestId, ""), now)]
    case Acceptance(requestId, parentRequestId, userId, id) =>
      [Finds(n, userId, id), FindsParent(n), Commits(n, Action.Accept, (requestId, parentRequestId), now)]
    case Scan(from, drafts) => [Looks(n, from), Writes(n, drafts, now)]
  }

  predicate Takes(t: Tables, call: Call, now: int) {
    match call
    case Act(requestId, userId, id, action) => Done(t, requestId, userId, id, action, now).Ok?
    case Acceptance(requestId, parentRequestId, userId, id) => Accepted(t, requestId, parentRequestId, userId, id, now).Ok?
    case Scan(_, _) => true
  }

  /** Moves with nothing in between are the call itself: they can be made if and only if it is not refused, and they leave its tables and nothing open. */
  lemma InARowIsTheCall(w: Work, n: nat, call: Call, now: int)
    requires n !in w.readings && n !in w.attempts && FreshIds(w.t, call)
    requires call.Act? ==> call.action != Action.Accept && call.action != Action.Supersede
    ensures Legal(w, InARow(n, call, now)) <==> Takes(w.t, call, now)
    ensures Legal(w, InARow(n, call, now)) ==> AllMoved(w, InARow(n, call, now)) == w.(t := Called(w.t, call, now))
  {
    hide Transition, Saved, WrittenOnes, HasOutput;
    match call {
      case Act(requestId, userId, id, action) =>
        InTwo(w, Finds(n, userId, id), Commits(n, action, (requestId, ""), now));
      case Acceptance(requestId, parentRequestId, userId, id) =>
        InThree(w, Finds(n, userId, id), FindsParent(n), Commits(n, Action.Accept, (requestId, parentRequestId), now));
      case Scan(from, drafts) =>
        InTwo(w, Looks(n, from), Writes(n, drafts, now));
    }
  }

  lemma InTwo(w: Work, a: Move, b: Move)
    ensures Legal(w, [a, b]) <==> Possible(w, a) && Possible(Moved(w, a), b)
    ensures Legal(w, [a, b]) ==> AllMoved(w, [a, b]) == Moved(Moved(w, a), b)
  {
    hide Possible, Moved;
    assert [a, b][1..] == [b] && [b][1..] == [];
    if Possible(w, a) {
      var next := Moved(w, a);
      assert Legal(next, [b]) <==> Possible(next, b);
      assert Possible(next, b) ==> AllMoved(next, [b]) == AllMoved(Moved(next, b), []);
    }
  }

  lemma InThree(w: Work, a: Move, b: Move, c: Move)
    ensures Legal(w, [a, b, c]) <==> Possible(w, a) && Possible(Moved(w, a), b) && Possible(Moved(Moved(w, a), b), c)
    ensures Legal(w, [a, b, c]) ==> AllMoved(w, [a, b, c]) == Moved(Moved(Moved(w, a), b), c)
  {
    hide Possible, Moved;
    assert [a, b, c][1..] == [b, c];
    if Possible(w, a) {
      InTwo(Moved(w, a), b, c);
    }
  }

  // ----- the index still follows

  predicate NewRequests(w: Work, m: Move) {
    m.Commits? ==> m.ids.0 !in w.t.outbox && m.ids.1 !in w.t.outbox && m.ids.0 != m.ids.1
  }

  /** However old its reading, no commit changes a recipe without leaving a new request for it. */
  lemma MoveAnnounces(w: Work, m: Move)
    requires Inv(w) && Possible(w, m) && NewRequests(w, m)
    ensures Announces(w.t, Moved(w, m).t) && KeyedById(Moved(w, m).t.recipes)
  {
    TablesLast(w, m);
    hide Saved, WrittenOnes, Announces, Transition, Lasts;
    AnnouncesItself(w.t);
    match m {
      case Commits(n, action, ids, now) =>
        var reading := w.readings[n];
        var row := Transition(reading.row, action, now).value;
        var first := Saved(w.t, row, ids.0, reading.row.userId, now);
        SaveAnnounces(w.t, row, ids.0, reading.row.userId, now);
        OtherRequest(w.t, row, ids, reading.row.userId, now);
        var parent := Replaced(reading, action);
        if parent.Some? {
          SupersedeIsOk(parent.value, now);
          var gone := Transition(parent.value, Supersede, now).value;
          SaveAnnounces(first, gone, ids.1, reading.row.userId, now);
          AnnouncesInSteps(w.t, first, Saved(first, gone, ids.1, reading.row.userId, now));
        }
      case Writes(n, drafts, now) => ScanAnnounces(w.t, w.attempts[n].from, drafts, now);
      case _ =>
    }
  }

  lemma AnnouncesItself(t: Tables)
    ensures Announces(t, t)
  {
  }

  lemma OtherRequest(t: Tables, row: Row, ids: (string, string), userId: string, now: int)
    requires ids.1 !in t.outbox && ids.0 != ids.1
    ensures ids.1 !in Saved(t, row, ids.0, userId, now).outbox
  {
  }

  lemma SupersedeIsOk(row: Row, now: int)
    ensures Transition(row, Supersede, now).Ok?
  {
  }
}
