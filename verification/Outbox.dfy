/** The search index and the ledger it speeds up: writers, one drainer behind a lock, failing index writes, aborted drains. */
module Outbox {
  import opened Wrappers
  import opened Recipes
  import opened RecipeLedger
  import opened Sorting

  /** `locking` says whether the advisory lock excludes a second drainer, as it does. */
  datatype Config = Config(locking: bool, limit: nat)

  /** Where a drain is with the current row of its batch. */
  datatype Stage = Locked | Ready | Looked(found: Option<Row>) | Answered(ok: bool)

  /** One open drain transaction, with what it has written and not yet committed. */
  datatype Drain = Drain(batch: seq<Request>, at: nat, stage: Stage, deleted: set<string>, marked: map<string, Request>)

  /** The committed tables, the search index, and the drain transactions under way. */
  datatype World = World(tables: Tables, index: map<string, Document>, drains: map<nat, Drain>)

  datatype Event =
    | Commit(after: Tables)
    | Lock(drain: nat)
    | Fetch(drain: nat, rows: seq<Request>)
    | Look(drain: nat, answered: bool)
    | Write(drain: nat, took: bool, answered: bool)
    | Settle(drain: nat)
    | Finish(drain: nat)
    | Abort(drain: nat)

  /** The oldest rows, at most `limit` of them. */
  ghost predicate IsBatch(outbox: map<string, Request>, limit: nat, rows: seq<Request>) {
    && (forall k | 0 <= k < |rows| :: rows[k].id in outbox && outbox[rows[k].id] == rows[k])
    && (forall j, k | 0 <= j < k < |rows| :: rows[j].id != rows[k].id && rows[j].createdAt <= rows[k].createdAt)
    && |rows| == (if |outbox| <= limit then |outbox| else limit)
    && (forall k, q | 0 <= k < |rows| && q in outbox && Left(rows, q) :: rows[k].createdAt <= outbox[q].createdAt)
  }

  predicate Left(rows: seq<Request>, q: string) {
    forall k | 0 <= k < |rows| :: rows[k].id != q
  }

  /** The index after a row's put, or after the deletion of a recipe that is not found. */
  function Indexed(index: map<string, Document>, target: string, found: Option<Row>): map<string, Document> {
    match found
    case Some(row) => index[row.id := DocumentOf(row)]
    case None => index - {target}
  }

  function Marked(row: Request): Request { row.(attempts := row.attempts + 1, failed := true) }

  /** The outbox once a drain's deletions and marks are committed. */
  function Drained(outbox: map<string, Request>, drain: Drain): map<string, Request> {
    map q | q in outbox && q !in drain.deleted :: if q in drain.marked then drain.marked[q] else outbox[q]
  }

  function With(w: World, d: nat, drain: Drain): World { w.(drains := w.drains[d := drain]) }

  /** The world after an event, or none where the event cannot happen. */
  ghost function Next(cfg: Config, w: World, e: Event): Option<World> {
    if e.Commit? then
      if Announces(w.tables, e.after) && KeyedById(e.after.recipes) then Some(w.(tables := e.after)) else None
    else if e.Lock? then
      if e.drain !in w.drains && (cfg.locking ==> w.drains == map[])
      then Some(With(w, e.drain, Drain([], 0, Locked, {}, map[]))) else None
    else if e.drain !in w.drains then None
    else
      var drain := w.drains[e.drain];
      match e
      case Fetch(d, rows) =>
        if drain.stage.Locked? && IsBatch(w.tables.outbox, cfg.limit, rows)
        then Some(With(w, d, drain.(batch := rows, stage := Ready))) else None
      case Look(d, answered) =>
        if drain.stage.Ready? && drain.at < |drain.batch|
        then Some(With(w, d, drain.(stage := if answered then Looked(Visible(w.tables.recipes, drain.batch[drain.at].target)) else Answered(false))))
        else None
      case Write(d, took, answered) =>
        if drain.stage.Looked? && drain.at < |drain.batch| && (answered ==> took)
        then Some(With(w, d, drain.(stage := Answered(answered))).(
          index := if took then Indexed(w.index, drain.batch[drain.at].target, drain.stage.found) else w.index))
        else None
      case Settle(d) =>
        if drain.stage.Answered? && drain.at < |drain.batch|
        then
          Some(With(w, d, Settled(drain.(stage := Ready), drain.stage.ok)))
        else None
      case Finish(d) =>
        if drain.stage.Ready? && drain.at == |drain.batch|
        then Some(World(Tables(w.tables.recipes, Drained(w.tables.outbox, drain)), w.index, w.drains - {d})) else None
      case Abort(d) => Some(w.(drains := w.drains - {d}))
  }

  // ----- agreement

  function Held(index: map<string, Document>, id: string): Option<Document> {
    if id in index then Some(index[id]) else None
  }

  /** What the index should hold for a recipe: nothing once it is deleted. */
  function Expected(recipes: map<string, Row>, id: string): Option<Document> {
    var found := Visible(recipes, id);
    if found.Some? then Some(DocumentOf(found.value)) else None
  }

  predicate Agrees(w: World, id: string) {
    Held(w.index, id) == Expected(w.tables.recipes, id)
  }

  ghost predicate Taken(w: World, q: string) {
    exists d | d in w.drains :: q in w.drains[d].deleted
  }

  /** A request for the recipe is committed, is not `but`, and no drain has already dropped it. */
  ghost predicate Pending(w: World, id: string, but: Option<string>) {
    exists q | q in w.tables.outbox :: w.tables.outbox[q].target == id && Some(q) != but && !Taken(w, q)
  }

  predicate BatchHeld(outbox: map<string, Request>, drain: Drain) {
    && drain.at <= |drain.batch|
    && (forall k | 0 <= k < |drain.batch| :: drain.batch[k].id in outbox && outbox[drain.batch[k].id] == drain.batch[k])
    && (forall j, k | 0 <= j < k < |drain.batch| :: drain.batch[j].id != drain.batch[k].id)
    && (forall q | q in drain.deleted :: exists k | 0 <= k < drain.at :: drain.batch[k].id == q)
    && (forall q | q in drain.marked :: (exists k | 0 <= k < drain.at :: drain.batch[k].id == q)
          && q in outbox && drain.marked[q] == Marked(outbox[q]))
    && (drain.stage.Locked? ==> drain.batch == [] && drain.at == 0)
    && (drain.stage.Looked? || drain.stage.Answered? ==> drain.at < |drain.batch|)
  }

  /** What the current row's stage still vouches for. */
  ghost predicate StageHolds(w: World, drain: Drain) {
    match drain.stage
    case Looked(found) =>
      drain.at < |drain.batch| &&
      var row := drain.batch[drain.at];
      && (found.Some? ==> found.value.id == row.target)
      && (found == Visible(w.tables.recipes, row.target) || Pending(w, row.target, Some(row.id)))
    case Answered(ok) =>
      drain.at < |drain.batch| &&
      var row := drain.batch[drain.at];
      ok ==> Agrees(w, row.target) || Pending(w, row.target, Some(row.id))
    case _ => true
  }

  ghost predicate Inv(w: World) {
    && KeyedById(w.tables.recipes)
    && (forall q | q in w.tables.outbox :: w.tables.outbox[q].id == q)
    && (forall d, e | d in w.drains && e in w.drains :: d == e)
    && (forall d | d in w.drains :: BatchHeld(w.tables.outbox, w.drains[d]) && StageHolds(w, w.drains[d]))
    && (forall id :: Agrees(w, id) || Pending(w, id, None))
  }

  // ----- every step keeps the agreement

  lemma PendingStays(w: World, after: Tables, id: string, but: Option<string>)
    requires Announces(w.tables, after) && Pending(w, id, but)
    ensures Pending(w.(tables := after), id, but)
  {
  }

  /** After a commit a recipe is as it was, or has a new request nobody has fetched yet. */
  lemma CommittedRecipe(w: World, after: Tables, id: string, but: Option<string>)
    requires Inv(w) && Announces(w.tables, after)
    requires but.Some? ==> but.value in w.tables.outbox
    ensures Visible(after.recipes, id) == Visible(w.tables.recipes, id) || Pending(w.(tables := after), id, but)
  {
  }

  lemma CommitStageHolds(w: World, after: Tables, drain: Drain)
    requires Inv(w) && Announces(w.tables, after) && BatchHeld(w.tables.outbox, drain) && StageHolds(w, drain)
    ensures StageHolds(w.(tables := after), drain)
  {
    if drain.stage.Looked? || drain.stage.Answered? {
      hide Inv, Announces, Pending;
      var row := drain.batch[drain.at];
      CommittedRecipe(w, after, row.target, Some(row.id));
      if Pending(w, row.target, Some(row.id)) {
        PendingStays(w, after, row.target, Some(row.id));
      }
    }
  }

  lemma CommitKeeps(w: World, after: Tables)
    requires Inv(w) && Announces(w.tables, after) && KeyedById(after.recipes)
    ensures Inv(w.(tables := after))
  {
    var w2 := w.(tables := after);
    forall d | d in w.drains ensures BatchHeld(w2.tables.outbox, w2.drains[d]) && StageHolds(w2, w2.drains[d]) {
      assert BatchHeld(w.tables.outbox, w.drains[d]);
      CommitStageHolds(w, after, w.drains[d]);
    }
    forall id ensures Agrees(w2, id) || Pending(w2, id, None) {
      assert Agrees(w, id) || Pending(w, id, None);
      CommittedRecipe(w, after, id, None);
      if Pending(w, id, None) {
        PendingStays(w, after, id, None);
      }
    }
  }

  /** Steps that write neither the ledger nor the index and drop no request. */
  lemma QuietStepKeeps(w: World, w2: World)
    requires Inv(w) && w2.tables == w.tables && w2.index == w.index
    requires forall q | Taken(w2, q) :: Taken(w, q)
    requires forall d, e | d in w2.drains && e in w2.drains :: d == e
    requires forall d | d in w2.drains :: BatchHeld(w2.tables.outbox, w2.drains[d]) && StageHolds(w2, w2.drains[d])
    ensures Inv(w2)
  {
    forall id ensures Agrees(w2, id) || Pending(w2, id, None) {
      if !Agrees(w, id) {
        PendingWithFewerTaken(w, w2, id, None);
      }
    }
  }

  lemma PendingWithFewerTaken(w: World, w2: World, id: string, but: Option<string>)
    requires w2.tables == w.tables && Pending(w, id, but)
    requires forall q | Taken(w2, q) :: Taken(w, q)
    ensures Pending(w2, id, but)
  {
  }

  /** The current row of a drain is itself still pending. */
  lemma CurrentIsPending(w: World, d: nat)
    requires Inv(w) && d in w.drains && w.drains[d].at < |w.drains[d].batch|
    ensures Pending(w, w.drains[d].batch[w.drains[d].at].target, None)
  {
  }

  /** A write changes the index only for the current row's recipe, and drops no request. */
  lemma WriteEffect(cfg: Config, w: World, d: nat, took: bool, answered: bool)
    requires Inv(w) && Next(cfg, w, Write(d, took, answered)).Some?
    ensures d in w.drains && w.drains[d].stage.Looked? && w.drains[d].at < |w.drains[d].batch| && (answered ==> took)
    ensures StageHolds(w, w.drains[d]) && BatchHeld(w.tables.outbox, w.drains[d])
    ensures var w2, drain := Next(cfg, w, Write(d, took, answered)).value, w.drains[d];
      var row := drain.batch[drain.at];
      && w2.tables == w.tables && w2.drains == w.drains[d := drain.(stage := Answered(answered))]
      && (forall q | Taken(w2, q) :: Taken(w, q))
      && (forall id | id != row.target :: Held(w2.index, id) == Held(w.index, id))
      && (took && drain.stage.found == Visible(w.tables.recipes, row.target) ==> Agrees(w2, row.target))
  {
    var w2, drain := Next(cfg, w, Write(d, took, answered)).value, w.drains[d];
    assert StageHolds(w, drain);
    forall q | Taken(w2, q) ensures Taken(w, q) {
      var e :| e in w2.drains && q in w2.drains[e].deleted;
      assert q in w.drains[e].deleted;
    }
  }

  lemma WriteKeeps(cfg: Config, w: World, d: nat, took: bool, answered: bool)
    requires Inv(w) && Next(cfg, w, Write(d, took, answered)).Some?
    ensures Inv(Next(cfg, w, Write(d, took, answered)).value)
  {
    hide Next, Pending, Taken;
    WriteEffect(cfg, w, d, took, answered);
    var w2 := Next(cfg, w, Write(d, took, answered)).value;
    var drain := w.drains[d];
    var row := drain.batch[drain.at];
    CurrentIsPending(w, d);
    forall id ensures Agrees(w2, id) || Pending(w2, id, None) {
      assert Agrees(w, id) || Pending(w, id, None);
      if id == row.target || Pending(w, id, None) {
        PendingWithFewerTaken(w, w2, id, None);
      }
    }
    if Pending(w, row.target, Some(row.id)) {
      PendingWithFewerTaken(w, w2, row.target, Some(row.id));
    }
  }

  lemma TakenBySettling(cfg: Config, w: World, d: nat, q: string)
    requires Next(cfg, w, Settle(d)).Some?
    ensures Taken(Next(cfg, w, Settle(d)).value, q) ==>
      Taken(w, q) || (w.drains[d].stage.ok && q == w.drains[d].batch[w.drains[d].at].id)
  {
  }

  lemma SettleKeeps(cfg: Config, w: World, d: nat)
    requires Inv(w) && Next(cfg, w, Settle(d)).Some?
    ensures Inv(Next(cfg, w, Settle(d)).value)
  {
    var w2 := Next(cfg, w, Settle(d)).value;
    var drain := w.drains[d];
    var row := drain.batch[drain.at];
    assert BatchHeld(w.tables.outbox, drain) && StageHolds(w, drain);
    assert BatchHeld(w2.tables.outbox, w2.drains[d]);
    forall id ensures Agrees(w2, id) || Pending(w2, id, None) {
      assert Agrees(w, id) || Pending(w, id, None);
      if !Agrees(w2, id) {
        var but := if drain.stage.ok && id == row.target then Some(row.id) else None;
        assert Pending(w, id, but);
        var q :| q in w.tables.outbox && w.tables.outbox[q].target == id && Some(q) != but && !Taken(w, q);
        TakenBySettling(cfg, w, d, q);
      }
    }
  }

  lemma FinishKeeps(cfg: Config, w: World, d: nat)
    requires Inv(w) && Next(cfg, w, Finish(d)).Some?
    ensures Inv(Next(cfg, w, Finish(d)).value)
  {
    var w2 := Next(cfg, w, Finish(d)).value;
    var drain := w.drains[d];
    assert BatchHeld(w.tables.outbox, drain);
    assert forall e | e in w2.drains :: e == d;
    assert w2.drains == map[];
    forall id ensures Agrees(w2, id) || Pending(w2, id, None) {
      assert Agrees(w, id) || Pending(w, id, None);
      if !Agrees(w2, id) {
        var q :| q in w.tables.outbox && w.tables.outbox[q].target == id && !Taken(w, q);
        assert q !in drain.deleted;
        assert q in w2.tables.outbox && w2.tables.outbox[q].target == id && !Taken(w2, q);
      }
    }
  }

  lemma LockKeeps(cfg: Config, w: World, d: nat)
    requires cfg.locking && Inv(w) && Next(cfg, w, Lock(d)).Some?
    ensures Inv(Next(cfg, w, Lock(d)).value)
  {
    QuietStepKeeps(w, Next(cfg, w, Lock(d)).value);
  }

  lemma ReadKeeps(cfg: Config, w: World, e: Event)
    requires (e.Fetch? || e.Look?) && Inv(w) && Next(cfg, w, e).Some?
    ensures Inv(Next(cfg, w, e).value)
  {
    var w2 := Next(cfg, w, e).value;
    assert BatchHeld(w.tables.outbox, w.drains[e.drain]);
    forall q | Taken(w2, q) ensures Taken(w, q) {
      var d :| d in w2.drains && q in w2.drains[d].deleted;
      assert q in w.drains[d].deleted;
    }
    QuietStepKeeps(w, w2);
  }

  lemma AbortKeeps(cfg: Config, w: World, d: nat)
    requires Inv(w) && Next(cfg, w, Abort(d)).Some?
    ensures Inv(Next(cfg, w, Abort(d)).value)
  {
    var w2 := Next(cfg, w, Abort(d)).value;
    assert forall e | e in w2.drains :: e == d;
    QuietStepKeeps(w, w2);
  }

  lemma StepKeeps(cfg: Config, w: World, e: Event)
    requires cfg.locking && Inv(w) && Next(cfg, w, e).Some?
    ensures Inv(Next(cfg, w, e).value)
  {
    hide Inv;
    match e {
      case Commit(after) => CommitKeeps(w, after);
      case Lock(d) => LockKeeps(cfg, w, d);
      case Fetch(_, _) => ReadKeeps(cfg, w, e);
      case Look(_, _) => ReadKeeps(cfg, w, e);
      case Write(d, took, answered) => WriteKeeps(cfg, w, d, took, answered);
      case Settle(d) => SettleKeeps(cfg, w, d);
      case Finish(d) => FinishKeeps(cfg, w, d);
      case Abort(d) => AbortKeeps(cfg, w, d);
    }
  }

  ghost function Run(cfg: Config, w: World, events: seq<Event>): Option<World> {
    if events == [] then Some(w)
    else
      var before := Run(cfg, w, events[..|events| - 1]);
      if before.None? then None else Next(cfg, before.value, events[|events| - 1])
  }

  /** In every reachable world each recipe's document is right, or a request to re-index it is pending. */
  lemma {:induction false} RunKeeps(cfg: Config, w: World, events: seq<Event>)
    requires cfg.locking && Inv(w) && Run(cfg, w, events).Some?
    ensures Inv(Run(cfg, w, events).value)
  {
    if events != [] {
      RunKeeps(cfg, w, events[..|events| - 1]);
      StepKeeps(cfg, Run(cfg, w, events[..|events| - 1]).value, events[|events| - 1]);
    }
  }

  predicate ActiveDocument(index: map<string, Document>, id: string) {
    id in index && index[id].status == Active
  }

  predicate ActiveRecipe(recipes: map<string, Row>, id: string) {
    id in recipes && recipes[id].deletedAt == None && recipes[id].status == Active
  }

  /** Once the outbox is empty, what search can find active is exactly what is active. */
  lemma EmptyOutboxMeansFresh(cfg: Config, w: World, events: seq<Event>)
    requires cfg.locking && Inv(w) && Run(cfg, w, events).Some?
    requires Run(cfg, w, events).value.tables.outbox == map[]
    ensures var after := Run(cfg, w, events).value;
      forall id :: Agrees(after, id) && (ActiveDocument(after.index, id) <==> ActiveRecipe(after.tables.recipes, id))
  {
    RunKeeps(cfg, w, events);
    var after := Run(cfg, w, events).value;
    forall id ensures Agrees(after, id) && (ActiveDocument(after.index, id) <==> ActiveRecipe(after.tables.recipes, id)) {
      assert Agrees(after, id) || Pending(after, id, None);
    }
  }

  /** Every field of the document is the column of the row that it is named after. */
  predicate Shows(d: Document, row: Row) {
    && d.recipeId == row.id && d.userId == row.userId
    && d.title == row.title && d.intent == row.intent && d.description == row.description && d.useWhen == row.useWhen
    && d.summaryMd == row.summaryMd && d.touchedFiles == TouchedPaths(row.touchedFiles)
    && d.status == row.status && d.userEdited == row.userEdited && d.rev == row.rev && d.updatedAt == row.updatedAt
  }

  /** What agreement about a recipe means: a document that shows its row, or none once it is deleted. */
  lemma AgreesMeans(w: World, id: string)
    ensures Agrees(w, id) <==>
      if id in w.tables.recipes && w.tables.recipes[id].deletedAt == None
      then id in w.index && Shows(w.index[id], w.tables.recipes[id])
      else id !in w.index
  {
  }

  /** In every reachable world a recipe without a request shows in the index as it is. */
  lemma SettledRecipesShow(cfg: Config, w: World, events: seq<Event>, id: string)
    requires cfg.locking && Inv(w) && Run(cfg, w, events).Some?
    requires forall q | q in Run(cfg, w, events).value.tables.outbox :: Run(cfg, w, events).value.tables.outbox[q].target != id
    ensures var after := Run(cfg, w, events).value;
      if id in after.tables.recipes && after.tables.recipes[id].deletedAt == None
      then id in after.index && Shows(after.index[id], after.tables.recipes[id])
      else id !in after.index
  {
    RunKeeps(cfg, w, events);
    var after := Run(cfg, w, events).value;
    assert Agrees(after, id) || Pending(after, id, None);
    hide Run, Inv;
    AgreesMeans(after, id);
  }

  lemma NothingYetIsFine(w: World)
    requires w == World(Tables(map[], map[]), map[], map[])
    ensures Inv(w)
  {
  }

  // ----- the service's calls are such commits

  /** Committing a call of the recipe service is a step, and so keeps the agreement. */
  lemma CallIsACommit(cfg: Config, w: World, call: Call, now: int)
    requires RecipeLedger.Inv(w.tables.recipes) && FreshIds(w.tables, call)
    ensures var after := Called(w.tables, call, now);
      Next(cfg, w, Commit(after)) == Some(w.(tables := after)) && RecipeLedger.Inv(after.recipes)
  {
    CallAnnounces(w.tables, call, now);
    CallKeeps(w.tables, call, now);
  }

  /** So is writing a row computed from any earlier reading, as long as its request's id is new. */
  lemma StaleSaveIsACommit(cfg: Config, w: World, row: Row, requestId: string, userId: string, now: int)
    requires KeyedById(w.tables.recipes) && requestId !in w.tables.outbox
    ensures Next(cfg, w, Commit(Saved(w.tables, row, requestId, userId, now))).Some?
  {
    SaveAnnounces(w.tables, row, requestId, userId, now);
  }

  // ----- the drain itself

  lemma {:induction false} RunJoins(cfg: Config, w: World, a: seq<Event>, b: seq<Event>)
    requires Run(cfg, w, a).Some?
    ensures Run(cfg, w, a + b) == Run(cfg, Run(cfg, w, a).value, b)
  {
    if b == [] {
      assert a + b == a;
    } else {
      RunJoins(cfg, w, a, b[..|b| - 1]);
      assert (a + b)[..|a + b| - 1] == a + b[..|b| - 1];
    }
  }

  lemma RunStep(cfg: Config, w: World, events: seq<Event>, e: Event)
    requires Run(cfg, w, events).Some?
    ensures Run(cfg, w, events + [e]) == Next(cfg, Run(cfg, w, events).value, e)
  {
  }

  lemma StepTo(cfg: Config, w: World, events: seq<Event>, before: World, e: Event, after: World)
    requires Run(cfg, w, events) == Some(before) && Next(cfg, before, e) == Some(after)
    ensures Run(cfg, w, events + [e]) == Some(after)
  {
    RunStep(cfg, w, events, e);
  }

  lemma StartsAt(cfg: Config, w: World, events: seq<Event>)
    requires events == []
    ensures Run(cfg, w, events) == Some(w)
  {
  }

  lemma LockStep(cfg: Config, w: World, d: nat)
    requires d !in w.drains && (cfg.locking ==> w.drains == map[])
    ensures Next(cfg, w, Lock(d)) == Some(With(w, d, Drain([], 0, Locked, {}, map[])))
  {
  }

  lemma FetchStep(cfg: Config, w: World, d: nat, rows: seq<Request>)
    requires d in w.drains && w.drains[d].stage.Locked? && IsBatch(w.tables.outbox, cfg.limit, rows)
    ensures Next(cfg, w, Fetch(d, rows)) == Some(With(w, d, w.drains[d].(batch := rows, stage := Ready)))
  {
  }

  lemma LookStep(cfg: Config, w: World, d: nat, answered: bool)
    requires d in w.drains && w.drains[d].stage.Ready? && w.drains[d].at < |w.drains[d].batch|
    ensures Next(cfg, w, Look(d, answered)) == Some(With(w, d, w.drains[d].(stage :=
      if answered then Looked(Visible(w.tables.recipes, w.drains[d].batch[w.drains[d].at].target)) else Answered(false))))
  {
  }

  lemma WriteStep(cfg: Config, w: World, d: nat, took: bool, answered: bool)
    requires d in w.drains && w.drains[d].stage.Looked? && w.drains[d].at < |w.drains[d].batch| && (answered ==> took)
    ensures Next(cfg, w, Write(d, took, answered)) == Some(With(w, d, w.drains[d].(stage := Answered(answered))).(
      index := if took then Indexed(w.index, w.drains[d].batch[w.drains[d].at].target, w.drains[d].stage.found) else w.index))
  {
  }

  lemma SettleStep(cfg: Config, w: World, d: nat)
    requires d in w.drains && w.drains[d].stage.Answered? && w.drains[d].at < |w.drains[d].batch|
    ensures var drain := w.drains[d];
      Next(cfg, w, Settle(d)) == Some(With(w, d, Settled(drain.(stage := Ready), drain.stage.ok)))
  {
  }

  lemma FinishStep(cfg: Config, w: World, d: nat)
    requires d in w.drains && w.drains[d].stage.Ready? && w.drains[d].at == |w.drains[d].batch|
    ensures Next(cfg, w, Finish(d))
      == Some(World(Tables(w.tables.recipes, Drained(w.tables.outbox, w.drains[d])), w.index, w.drains - {d}))
  {
  }

  lemma AbortStep(cfg: Config, w: World, d: nat)
    requires d in w.drains
    ensures Next(cfg, w, Abort(d)) == Some(w.(drains := w.drains - {d}))
  {
  }

  /** The current row dropped or marked, and the next one up. */
  function Settled(drain: Drain, ok: bool): Drain
    requires drain.at < |drain.batch|
  {
    var row := drain.batch[drain.at];
    if ok then drain.(at := drain.at + 1, deleted := drain.deleted + {row.id})
    else drain.(at := drain.at + 1, marked := drain.marked[row.id := Marked(row)])
  }

  /** What surrounds one row: the calls other writers commit before it is looked up and before the index answers, and the answers. */
  datatype Turn = Turn(before: seq<(Call, int)>, found: bool, between: seq<(Call, int)>, took: bool, answered: bool)

  predicate Applied(turn: Turn) { turn.found && turn.took && turn.answered }

  function CountApplied(turns: nat -> Turn, n: nat): nat {
    if n == 0 then 0 else CountApplied(turns, n - 1) + if Applied(turns(n - 1)) then 1 else 0
  }

  predicate Older(a: Request, b: Request) { a.createdAt <= b.createdAt }

  class SearchOutboxDrain {
    const cfg: Config
    var world: World

    constructor (cfg: Config, world: World)
      ensures this.cfg == cfg && this.world == world
    {
      this.cfg, this.world := cfg, world;
    }

    /** Other writers commit; a call whose generated ids are not new is not made. */
    method WritersCommit(calls: seq<(Call, int)>) returns (ghost events: seq<Event>)
      requires RecipeLedger.Inv(world.tables.recipes)
      modifies this
      ensures Run(cfg, old(world), events) == Some(world) && RecipeLedger.Inv(world.tables.recipes)
      ensures world.index == old(world.index) && world.drains == old(world.drains)
      ensures calls == [] ==> world == old(world)
    {
      events := [];
      for k := 0 to |calls|
        invariant Run(cfg, old(world), events) == Some(world) && RecipeLedger.Inv(world.tables.recipes)
        invariant world.index == old(world.index) && world.drains == old(world.drains)
        invariant k == 0 ==> world == old(world)
      {
        var (call, now) := calls[k];
        if FreshIds(world.tables, call) {
          CallIsACommit(cfg, world, call, now);
          RunStep(cfg, old(world), events, Commit(Called(world.tables, call, now)));
          events := events + [Commit(Called(world.tables, call, now))];
          world := world.(tables := Called(world.tables, call, now));
        }
      }
    }

    /** `find_batch`: the oldest rows first, at most the limit. */
    method FindBatch() returns (rows: seq<Request>)
      requires forall q | q in world.tables.outbox :: world.tables.outbox[q].id == q
      ensures IsBatch(world.tables.outbox, cfg.limit, rows)
    {
      var outbox := world.tables.outbox;
      var all: seq<Request> := [];
      var left := outbox.Keys;
      while left != {}
        invariant left <= outbox.Keys
        invariant |all| + |left| == |outbox|
        invariant forall k | 0 <= k < |all| :: all[k].id in outbox && outbox[all[k].id] == all[k] && all[k].id !in left
        invariant forall j, k | 0 <= j < k < |all| :: all[j].id != all[k].id
        invariant forall q | q in outbox && q !in left :: outbox[q] in all
        decreases |left|
      {
        var q :| q in left;
        all := all + [outbox[q]];
        left := left - {q};
      }
      var sorted := Sort(all, Older);
      OldestAreABatch(outbox, all, cfg.limit);
      rows := if |sorted| <= cfg.limit then sorted else sorted[..cfg.limit];
    }

    /** `_apply` for one row, and then its deletion or its mark. */
    method ApplyRow(d: nat, turn: Turn) returns (ok: bool, ghost events: seq<Event>)
      requires RecipeLedger.Inv(world.tables.recipes)
      requires d in world.drains && world.drains[d].stage.Ready? && world.drains[d].at < |world.drains[d].batch|
      modifies this
      ensures Run(cfg, old(world), events) == Some(world) && RecipeLedger.Inv(world.tables.recipes)
      ensures ok == Applied(turn)
      ensures world.drains == old(world.drains)[d := Settled(old(world.drains[d]), ok)]
      ensures turn.before == [] && turn.between == [] ==> world.tables == old(world.tables)
    {
      hide Run, Next, Settled, RecipeLedger.Inv, Announces, IsBatch, Drained, Visible, Indexed, KeyedById, FreshIds, Called;
      ghost var start := world;
      events := WritersCommit(turn.before);
      var drain := world.drains[d];
      var row := drain.batch[drain.at];
      ok := turn.found;
      var found := Visible(world.tables.recipes, row.target);
      ghost var before := world;
      world := With(world, d, drain.(stage := if ok then Looked(found) else Answered(false)));
      LookStep(cfg, before, d, ok);
      StepTo(cfg, start, events, before, Look(d, ok), world);
      events := events + [Look(d, ok)];
      if ok {
        ghost var more := WritersCommit(turn.between);
        RunJoins(cfg, start, events, more);
        events := events + more;
        ok := turn.took && turn.answered;
        before := world;
        world := With(world, d, drain.(stage := Answered(ok))).(index := if turn.took then Indexed(world.index, row.target, found) else world.index);
        WriteStep(cfg, before, d, turn.took, ok);
        StepTo(cfg, start, events, before, Write(d, turn.took, ok), world);
        events := events + [Write(d, turn.took, ok)];
      }
      before := world;
      world := With(world, d, Settled(drain, ok));
      SettleStep(cfg, before, d);
      StepTo(cfg, start, events, before, Settle(d), world);
      events := events + [Settle(d)];
    }

    /** The loop over a fetched batch: every row is dropped or marked, and `applied` counts the dropped ones. */
    method DrainRows(d: nat, rows: seq<Request>, turns: nat -> Turn) returns (applied: nat, ghost events: seq<Event>)
      requires RecipeLedger.Inv(world.tables.recipes)
      requires forall j, k | 0 <= j < k < |rows| :: rows[j].id != rows[k].id
      requires d in world.drains && world.drains[d] == Drain(rows, 0, Ready, {}, map[])
      modifies this
      ensures Run(cfg, old(world), events) == Some(world) && applied == CountApplied(turns, |rows|) && RecipeLedger.Inv(world.tables.recipes)
      ensures world.drains.Keys == old(world.drains.Keys) && d in world.drains
      ensures world.drains[d].at == |rows| && world.drains[d].stage == Ready && Outcomes(world.drains[d], rows, turns, |rows|)
        && world.drains[d].batch == rows
      ensures Calm(turns) ==> world.tables == old(world.tables)
    {
      hide *;
      ghost var start := world;
      events := [];
      applied := 0;
      StartsAt(cfg, start, events);
      NothingCounted(turns);
      NoOutcomeYet(world.drains[d], rows, turns);
      for k := 0 to |rows|
        invariant RecipeLedger.Inv(world.tables.recipes)
        invariant Run(cfg, start, events) == Some(world)
        invariant world.drains.Keys == start.drains.Keys
        invariant d in world.drains && world.drains[d].batch == rows && world.drains[d].at == k && world.drains[d].stage == Ready
        invariant Outcomes(world.drains[d], rows, turns, k)
        invariant applied == CountApplied(turns, k)
        invariant Calm(turns) ==> world.tables == start.tables
      {
        ghost var drain := world.drains[d];
        CalmTurn(turns, k);
        CountedOne(turns, k);
        NextOutcome(drain, rows, turns, k);
        var ok, more := ApplyRow(d, turns(k));
        RunJoins(cfg, start, events, more);
        events := events + more;
        if ok {
          applied := applied + 1;
        }
      }
    }

    /** `_drain_batch` inside the lock. */
    method DrainBatch(d: nat, turns: nat -> Turn) returns (applied: nat, rows: seq<Request>, ghost events: seq<Event>)
      requires RecipeLedger.Inv(world.tables.recipes)
      requires forall q | q in world.tables.outbox :: world.tables.outbox[q].id == q
      requires d in world.drains && world.drains[d] == Drain([], 0, Locked, {}, map[])
      modifies this
      ensures Run(cfg, old(world), events) == Some(world) && RecipeLedger.Inv(world.tables.recipes)
      ensures IsBatch(old(world.tables.outbox), cfg.limit, rows) && applied == CountApplied(turns, |rows|)
      ensures world.drains.Keys == old(world.drains.Keys) && d in world.drains
      ensures world.drains[d].at == |rows| && world.drains[d].stage == Ready && Outcomes(world.drains[d], rows, turns, |rows|)
        && world.drains[d].batch == rows
      ensures Calm(turns) ==> world.tables == old(world.tables)
    {
      hide Run, Next, RecipeLedger.Inv, Announces, Drained, Visible, Indexed, KeyedById, Outcomes, CountApplied, Calm, Settled;
      ghost var start := world;
      rows := FindBatch();
      FetchStep(cfg, start, d, rows);
      world := With(world, d, world.drains[d].(batch := rows, stage := Ready));
      StartsAt(cfg, start, []);
      StepTo(cfg, start, [], start, Fetch(d, rows), world);
      applied, events := DrainRows(d, rows, turns);
      RunJoins(cfg, start, [] + [Fetch(d, rows)], events);
      events := [] + [Fetch(d, rows)] + events;
    }

    /** One period: nothing happens unless the lock is free, and then the batch's outcome is committed, unless the transaction crashes. */
    method RunOnce(d: nat, turns: nat -> Turn, crashes: bool)
      returns (drained: Option<nat>, rows: seq<Request>, ghost events: seq<Event>)
      requires RecipeLedger.Inv(world.tables.recipes) && d !in world.drains
      requires forall q | q in world.tables.outbox :: world.tables.outbox[q].id == q
      modifies this
      ensures Run(cfg, old(world), events) == Some(world) && RecipeLedger.Inv(world.tables.recipes)
      ensures cfg.locking && old(world.drains) != map[] ==> drained == None && world == old(world)
      ensures old(world.drains) == map[] ==> world.drains == map[] && (drained == None <==> crashes)
      ensures drained.Some? ==> IsBatch(old(world.tables.outbox), cfg.limit, rows) && drained == Some(CountApplied(turns, |rows|))
      ensures drained.Some? && Calm(turns) ==> (
        && world.tables.recipes == old(world.tables.recipes)
        && world.tables.outbox.Keys == old(world.tables.outbox).Keys - AppliedIds(rows, turns))
      ensures drained.Some? && Calm(turns) ==> Remaining(old(world.tables.outbox), world.tables.outbox, rows)
    {
      hide Run, Next, RecipeLedger.Inv, Announces, IsBatch, Visible, Indexed, KeyedById, Drained, Outcomes, Calm, AppliedIds, CountApplied, Settled;
      ghost var start := world;
      events := [];
      StartsAt(cfg, start, events);
      if cfg.locking && world.drains != map[] {
        return None, [], [];
      }
      LockStep(cfg, start, d);
      world := With(world, d, Drain([], 0, Locked, {}, map[]));
      StepTo(cfg, start, events, start, Lock(d), world);
      events := events + [Lock(d)];
      var applied, batch, more := DrainBatch(d, turns);
      rows := batch;
      RunJoins(cfg, start, events, more);
      events := events + more;
      ghost var before := world;
      if crashes {
        AbortStep(cfg, before, d);
        world := world.(drains := world.drains - {d});
        StepTo(cfg, start, events, before, Abort(d), world);
        events := events + [Abort(d)];
        return None, rows, events;
      }
      FinishedKeys(world.tables.outbox, world.drains[d], rows, turns);
      if Calm(turns) {
        BatchRows(world.tables.outbox, cfg.limit, rows);
        FinishedRows(world.tables.outbox, world.drains[d], rows, turns);
      }
      FinishStep(cfg, before, d);
      world := World(Tables(world.tables.recipes, Drained(world.tables.outbox, world.drains[d])), world.index, world.drains - {d});
      StepTo(cfg, start, events, before, Finish(d), world);
      events := events + [Finish(d)];
      return Some(applied), rows, events;
    }
  }

  class SearchOutboxDrainScheduler {
    const drain: SearchOutboxDrain

    constructor (drain: SearchOutboxDrain)
      ensures this.drain == drain
    {
      this.drain := drain;
    }

    /** One drain a period; a crashed one is given up and the next period comes. */
    method Loop(d: nat, periods: nat, turns: nat -> nat -> Turn, crashes: nat -> bool) returns (ghost events: seq<Event>)
      requires drain.cfg.locking && InAgreement(drain.world) && RecipeLedger.Inv(drain.world.tables.recipes) && drain.world.drains == map[]
      modifies drain
      ensures Run(drain.cfg, old(drain.world), events) == Some(drain.world) && InAgreement(drain.world)
      ensures (forall k | 0 <= k < periods :: Clean(turns(k), crashes(k))) ==>
        |drain.world.tables.outbox| == AfterPasses(|old(drain.world.tables.outbox)|, drain.cfg.limit, periods)
      ensures drain.world.tables.outbox == map[] ==> forall id :: Agrees(drain.world, id)
    {
      hide Run, Next, RecipeLedger.Inv, InAgreement, Agrees, Remaining, AfterPasses, Clean, Calm, IsBatch, AppliedIds;
      ghost var start := drain.world;
      events := [];
      StartsAt(drain.cfg, start, events);
      NoPass(|start.tables.outbox|, drain.cfg.limit);
      for k := 0 to periods
        invariant Run(drain.cfg, start, events) == Some(drain.world) && InAgreement(drain.world)
        invariant RecipeLedger.Inv(drain.world.tables.recipes) && drain.world.drains == map[]
        invariant (forall j | 0 <= j < k :: Clean(turns(j), crashes(j))) ==>
          |drain.world.tables.outbox| == AfterPasses(|start.tables.outbox|, drain.cfg.limit, k)
      {
        ghost var before := drain.world;
        RequestsKeyed(before);
        var drained, rows, more := drain.RunOnce(d, turns(k), crashes(k));
        if Clean(turns(k), crashes(k)) {
          CleanPass(before.tables.outbox, drain.world.tables.outbox, drain.cfg.limit, rows, turns(k), crashes(k));
        }
        OnePassMore(|start.tables.outbox|, drain.cfg.limit, k);
        RunJoins(drain.cfg, start, events, more);
        events := events + more;
        StaysInAgreement(drain.cfg, start, events);
      }
      if drain.world.tables.outbox == map[] {
        EmptyMeansAgreement(drain.world);
      }
    }
  }

  /** A calm pass in which the index takes every write. */
  ghost predicate Clean(turns: nat -> Turn, crashes: bool) {
    !crashes && Calm(turns) && forall k :: Applied(turns(k))
  }

  ghost predicate InAgreement(w: World) { Inv(w) }

  lemma StaysInAgreement(cfg: Config, w: World, events: seq<Event>)
    requires cfg.locking && InAgreement(w) && Run(cfg, w, events).Some?
    ensures InAgreement(Run(cfg, w, events).value)
  {
    RunKeeps(cfg, w, events);
  }

  lemma RequestsKeyed(w: World)
    requires InAgreement(w)
    ensures forall q | q in w.tables.outbox :: w.tables.outbox[q].id == q
  {
  }

  lemma EmptyMeansAgreement(w: World)
    requires InAgreement(w) && w.tables.outbox == map[]
    ensures forall id :: Agrees(w, id)
  {
    forall id ensures Agrees(w, id) {
      assert Agrees(w, id) || Pending(w, id, None);
    }
  }

  lemma CleanPass(before: map<string, Request>, after: map<string, Request>, limit: nat, rows: seq<Request>, turns: nat -> Turn, crashes: bool)
    requires Clean(turns, crashes) && (!crashes ==> IsBatch(before, limit, rows))
    requires Calm(turns) && !crashes ==> after.Keys == before.Keys - AppliedIds(rows, turns)
    ensures |after| == if |before| <= limit then 0 else |before| - limit
  {
    CleanPassShrinks(before, limit, rows, turns);
    assert |after.Keys| == |after|;
  }

  /** How many requests so many clean passes leave. */
  function AfterPasses(size: nat, limit: nat, passes: nat): nat {
    if passes == 0 then size
    else
      var left := AfterPasses(size, limit, passes - 1);
      if left <= limit then 0 else left - limit
  }

  lemma NoPass(size: nat, limit: nat)
    ensures AfterPasses(size, limit, 0) == size
  {
  }

  lemma OnePassMore(size: nat, limit: nat, passes: nat)
    ensures var left := AfterPasses(size, limit, passes);
      AfterPasses(size, limit, passes + 1) == if left <= limit then 0 else left - limit
  {
  }

  /** Clean passes empty the outbox if and only if their batches together have room for it. */
  lemma {:induction false} PassesEmptyIff(size: nat, limit: nat, passes: nat)
    ensures AfterPasses(size, limit, passes) == (if size <= passes * limit then 0 else size - passes * limit)
    ensures AfterPasses(size, limit, passes) == 0 <==> size <= passes * limit
  {
    if passes > 0 {
      PassesEmptyIff(size, limit, passes - 1);
      assert passes * limit == (passes - 1) * limit + limit;
    }
  }

  /** No other writer commits during the pass. */
  ghost predicate Calm(turns: nat -> Turn) {
    forall k :: turns(k).before == [] && turns(k).between == []
  }

  ghost function AppliedIds(rows: seq<Request>, turns: nat -> Turn): set<string> {
    set k: nat | k < |rows| && Applied(turns(k)) :: rows[k].id
  }

  predicate Outcome(drain: Drain, row: Request, ok: bool) {
    && (row.id in drain.deleted <==> ok)
    && (row.id in drain.marked <==> !ok)
    && (!ok ==> drain.marked[row.id] == Marked(row))
  }

  /** The first `n` rows have each been dropped or marked, and no other row has. */
  ghost predicate Outcomes(drain: Drain, rows: seq<Request>, turns: nat -> Turn, n: nat)
    requires n <= |rows|
  {
    && (forall q | q in drain.deleted || q in drain.marked :: !Left(rows[..n], q))
    && (forall k | 0 <= k < n :: Outcome(drain, rows[k], Applied(turns(k))))
  }

  lemma NothingCounted(turns: nat -> Turn)
    ensures CountApplied(turns, 0) == 0
  {
  }

  lemma CalmTurn(turns: nat -> Turn, k: nat)
    ensures Calm(turns) ==> turns(k).before == [] && turns(k).between == []
  {
  }

  lemma CountedOne(turns: nat -> Turn, n: nat)
    ensures CountApplied(turns, n + 1) == CountApplied(turns, n) + if Applied(turns(n)) then 1 else 0
  {
  }

  lemma NoOutcomeYet(drain: Drain, rows: seq<Request>, turns: nat -> Turn)
    requires drain.deleted == {} && drain.marked == map[]
    ensures Outcomes(drain, rows, turns, 0)
  {
  }

  lemma NextOutcome(drain: Drain, rows: seq<Request>, turns: nat -> Turn, n: nat)
    requires n < |rows| && Outcomes(drain, rows, turns, n)
    requires forall j, k | 0 <= j < k < |rows| :: rows[j].id != rows[k].id
    requires drain.batch == rows && drain.at == n
    ensures var next := Settled(drain, Applied(turns(n)));
      Outcomes(next, rows, turns, n + 1) && next.batch == rows && next.at == n + 1 && next.stage == drain.stage
  {
    hide *;
    LeftOneMore(rows, n);
    var next := Settled(drain, Applied(turns(n)));
    SettledFacts(drain, Applied(turns(n)));
    OutcomesOneMore(drain, next, rows, turns, n);
  }

  lemma SettledFacts(drain: Drain, ok: bool)
    requires drain.at < |drain.batch|
    ensures var next, row := Settled(drain, ok), drain.batch[drain.at];
      && next.batch == drain.batch && next.at == drain.at + 1 && next.stage == drain.stage
      && next.deleted == (if ok then drain.deleted + {row.id} else drain.deleted)
      && next.marked == (if ok then drain.marked else drain.marked[row.id := Marked(row)])
  {
  }

  lemma OutcomesOneMore(drain: Drain, next: Drain, rows: seq<Request>, turns: nat -> Turn, n: nat)
    requires n < |rows| && Outcomes(drain, rows, turns, n) && forall j, k | 0 <= j < k < |rows| :: rows[j].id != rows[k].id
    requires Left(rows[..n], rows[n].id) && !Left(rows[..n + 1], rows[n].id)
    requires forall q | !Left(rows[..n], q) :: !Left(rows[..n + 1], q)
    requires next.deleted == (if Applied(turns(n)) then drain.deleted + {rows[n].id} else drain.deleted)
    requires next.marked == (if Applied(turns(n)) then drain.marked else drain.marked[rows[n].id := Marked(rows[n])])
    ensures Outcomes(next, rows, turns, n + 1)
  {
    hide Left, Marked, Applied;
    forall k | 0 <= k < n + 1 ensures Outcome(next, rows[k], Applied(turns(k))) {
      if k < n {
        assert Outcome(drain, rows[k], Applied(turns(k)));
      }
    }
  }

  lemma LeftOneMore(rows: seq<Request>, n: nat)
    requires n < |rows| && forall j, k | 0 <= j < k < |rows| :: rows[j].id != rows[k].id
    ensures Left(rows[..n], rows[n].id) && !Left(rows[..n + 1], rows[n].id)
    ensures forall q | !Left(rows[..n], q) :: !Left(rows[..n + 1], q)
  {
    var front, more := rows[..n], rows[..n + 1];
    assert more[n] == rows[n];
    forall q | !Left(front, q) ensures !Left(more, q) {
      var k :| 0 <= k < n && front[k].id == q;
      assert more[k].id == q;
    }
  }

  /** A request that failed once more: only that is written down. */
  predicate Retried(before: Request, after: Request) {
    && after.attempts == before.attempts + 1 && after.failed
    && after.id == before.id && after.userId == before.userId && after.target == before.target && after.createdAt == before.createdAt
  }

  /** What is left of a batch has failed once more, and what was not in it is as it was. */
  predicate Remaining(before: map<string, Request>, after: map<string, Request>, rows: seq<Request>) {
    forall q | q in after :: q in before && if Left(rows, q) then after[q] == before[q] else Retried(before[q], after[q])
  }

  lemma FinishedRows(outbox: map<string, Request>, drain: Drain, rows: seq<Request>, turns: nat -> Turn)
    requires Outcomes(drain, rows, turns, |rows|)
    requires forall k | 0 <= k < |rows| :: rows[k].id in outbox && outbox[rows[k].id] == rows[k]
    ensures Remaining(outbox, Drained(outbox, drain), rows)
  {
    assert rows[..|rows|] == rows;
    forall q | q in Drained(outbox, drain)
      ensures q in outbox && if Left(rows, q) then Drained(outbox, drain)[q] == outbox[q] else Retried(outbox[q], Drained(outbox, drain)[q])
    {
      if !Left(rows, q) {
        var k :| 0 <= k < |rows| && rows[k].id == q;
        assert Outcome(drain, rows[k], Applied(turns(k)));
      }
    }
  }

  lemma BatchRows(outbox: map<string, Request>, limit: nat, rows: seq<Request>)
    requires IsBatch(outbox, limit, rows)
    ensures forall k | 0 <= k < |rows| :: rows[k].id in outbox && outbox[rows[k].id] == rows[k]
  {
  }

  lemma FinishedKeys(outbox: map<string, Request>, drain: Drain, rows: seq<Request>, turns: nat -> Turn)
    requires Outcomes(drain, rows, turns, |rows|)
    ensures Drained(outbox, drain).Keys == outbox.Keys - AppliedIds(rows, turns)
  {
  }

  lemma OlderIsPreorder()
    ensures TotalPreorder(Older)
  {
  }

  lemma SortedRows(outbox: map<string, Request>, all: seq<Request>)
    requires forall k | 0 <= k < |all| :: all[k].id in outbox && outbox[all[k].id] == all[k]
    requires forall j, k | 0 <= j < k < |all| :: all[j].id != all[k].id
    ensures var sorted := Sort(all, Older);
      && (forall x :: x in sorted <==> x in all)
      && (forall k | 0 <= k < |sorted| :: sorted[k].id in outbox && outbox[sorted[k].id] == sorted[k])
      && (forall j, k | 0 <= j < k < |sorted| :: sorted[j].id != sorted[k].id && sorted[j].createdAt <= sorted[k].createdAt)
  {
    var sorted := Sort(all, Older);
    OlderIsPreorder();
    SortMembers(all, Older);
    SortOrders(all, Older);
    SortDistinct(all, Older);
    forall k | 0 <= k < |sorted| ensures sorted[k].id in outbox && outbox[sorted[k].id] == sorted[k] {
      assert sorted[k] in all;
    }
    forall j, k | 0 <= j < k < |sorted| ensures sorted[j].id != sorted[k].id && sorted[j].createdAt <= sorted[k].createdAt {
      assert Older(sorted[j], sorted[k]);
    }
  }

  lemma OldestAreABatch(outbox: map<string, Request>, all: seq<Request>, limit: nat)
    requires |all| == |outbox|
    requires forall k | 0 <= k < |all| :: all[k].id in outbox && outbox[all[k].id] == all[k]
    requires forall j, k | 0 <= j < k < |all| :: all[j].id != all[k].id
    requires forall q | q in outbox :: outbox[q] in all && outbox[q].id == q
    ensures var sorted := Sort(all, Older);
      IsBatch(outbox, limit, if |sorted| <= limit then sorted else sorted[..limit])
  {
    SortedRows(outbox, all);
    var sorted := Sort(all, Older);
    OldestOfSorted(outbox, sorted, limit);
  }

  lemma OldestOfSorted(outbox: map<string, Request>, sorted: seq<Request>, limit: nat)
    requires |sorted| == |outbox|
    requires forall k | 0 <= k < |sorted| :: sorted[k].id in outbox && outbox[sorted[k].id] == sorted[k]
    requires forall j, k | 0 <= j < k < |sorted| :: sorted[j].id != sorted[k].id && sorted[j].createdAt <= sorted[k].createdAt
    requires forall q | q in outbox :: outbox[q] in sorted && outbox[q].id == q
    ensures IsBatch(outbox, limit, if |sorted| <= limit then sorted else sorted[..limit])
  {
    var rows := if |sorted| <= limit then sorted else sorted[..limit];
    assert rows <= sorted;
    assert forall k | 0 <= k < |rows| :: rows[k] == sorted[k];
    forall k, q | 0 <= k < |rows| && q in outbox && Left(rows, q) ensures rows[k].createdAt <= outbox[q].createdAt {
      LaterIfLeft(outbox, rows, sorted, k, q);
    }
  }

  lemma LaterIfLeft(outbox: map<string, Request>, rows: seq<Request>, sorted: seq<Request>, k: nat, q: string)
    requires rows <= sorted && k < |rows| && q in outbox && outbox[q] in sorted && outbox[q].id == q && Left(rows, q)
    requires forall i, j | 0 <= i < j < |sorted| :: sorted[i].createdAt <= sorted[j].createdAt
    ensures rows[k].createdAt <= outbox[q].createdAt
  {
    hide Left;
    var j :| 0 <= j < |sorted| && sorted[j] == outbox[q];
    NotLeft(rows, sorted, j);
    assert rows[k] == sorted[k];
  }

  lemma NotLeft(rows: seq<Request>, sorted: seq<Request>, j: nat)
    requires rows <= sorted && j < |sorted|
    ensures j < |rows| ==> !Left(rows, sorted[j].id)
  {
  }

  // ----- progress, and what stops it

  function Ids(rows: seq<Request>): set<string> {
    set k: nat | k < |rows| :: rows[k].id
  }

  lemma {:induction false} DistinctIds(rows: seq<Request>)
    requires forall j, k | 0 <= j < k < |rows| :: rows[j].id != rows[k].id
    ensures |Ids(rows)| == |rows|
  {
    if rows != [] {
      var front, last := rows[..|rows| - 1], rows[|rows| - 1];
      DistinctIds(front);
      assert Ids(rows) == Ids(front) + {last.id};
    }
  }

  /** A calm pass in which the index takes every write shortens the outbox by a whole batch. */
  lemma CleanPassShrinks(outbox: map<string, Request>, limit: nat, rows: seq<Request>, turns: nat -> Turn)
    requires IsBatch(outbox, limit, rows) && forall k | 0 <= k < |rows| :: Applied(turns(k))
    ensures |outbox.Keys - AppliedIds(rows, turns)| == if |outbox| <= limit then 0 else |outbox| - limit
  {
    DistinctIds(rows);
    assert AppliedIds(rows, turns) == Ids(rows);
    assert Ids(rows) <= outbox.Keys;
  }

  /** The count a pass reports is of the requests it drops. */
  lemma {:induction false} CountIsOfTheDropped(rows: seq<Request>, turns: nat -> Turn, n: nat)
    requires n <= |rows| && forall j, k | 0 <= j < k < |rows| :: rows[j].id != rows[k].id
    ensures CountApplied(turns, n) == |AppliedIds(rows[..n], turns)|
  {
    hide AppliedIds;
    if n == 0 {
      NothingDropped(rows, turns);
    } else {
      CountIsOfTheDropped(rows, turns, n - 1);
      DroppedOneMore(rows, turns, n);
    }
  }

  lemma NothingDropped(rows: seq<Request>, turns: nat -> Turn)
    ensures AppliedIds(rows[..0], turns) == {}
  {
  }

  lemma DroppedOneMore(rows: seq<Request>, turns: nat -> Turn, n: nat)
    requires 0 < n <= |rows| && forall j, k | 0 <= j < k < |rows| :: rows[j].id != rows[k].id
    ensures var front, more := AppliedIds(rows[..n - 1], turns), AppliedIds(rows[..n], turns);
      |more| == |front| + if Applied(turns(n - 1)) then 1 else 0
  {
    var front, more, last := AppliedIds(rows[..n - 1], turns), AppliedIds(rows[..n], turns), rows[n - 1].id;
    hide Applied;
    assert last !in front;
    forall id ensures id in more <==> id in front || (Applied(turns(n - 1)) && id == last) {
      if id in more {
        var k: nat :| k < n && Applied(turns(k)) && rows[k].id == id;
        assert k < n - 1 ==> rows[..n - 1][k].id == id;
      }
      if id in front {
        var k: nat :| k < n - 1 && Applied(turns(k)) && rows[k].id == id;
        assert rows[..n][k].id == id;
      }
      assert rows[..n][n - 1].id == last;
    }
    assert more == if Applied(turns(n - 1)) then front + {last} else front;
  }

  /** The other requests that are older, and those that are not younger. */
  function Earlier(outbox: map<string, Request>, q: string): set<string>
    requires q in outbox
  {
    set x | x in outbox && x != q && outbox[x].createdAt < outbox[q].createdAt
  }

  function NotLater(outbox: map<string, Request>, q: string): set<string>
    requires q in outbox
  {
    set x | x in outbox && x != q && outbox[x].createdAt <= outbox[q].createdAt
  }

  /** By age, and among equals one request first, or last. */
  function Tie(q: string, first: bool, a: Request): int {
    if a.id != q then 0 else if first then -1 else 1
  }

  predicate Before(q: string, first: bool, a: Request, b: Request) {
    a.createdAt < b.createdAt || (a.createdAt == b.createdAt && Tie(q, first, a) <= Tie(q, first, b))
  }

  ghost predicate Lists(outbox: map<string, Request>, keys: set<string>, all: seq<Request>) {
    && |all| == |keys|
    && (forall k | 0 <= k < |all| :: all[k].id in keys && all[k].id in outbox && outbox[all[k].id] == all[k])
    && (forall j, k | 0 <= j < k < |all| :: all[j].id != all[k].id)
    && (forall x | x in keys && x in outbox :: outbox[x] in all)
  }

  lemma {:induction false} Listing(outbox: map<string, Request>, keys: set<string>) returns (all: seq<Request>)
    requires keys <= outbox.Keys && forall x | x in outbox :: outbox[x].id == x
    ensures Lists(outbox, keys, all)
  {
    if keys == {} {
      all := [];
    } else {
      var x :| x in keys;
      var rest := Listing(outbox, keys - {x});
      all := rest + [outbox[x]];
      forall y | y in keys && y in outbox ensures outbox[y] in all {
        assert y != x ==> y in keys - {x};
      }
    }
  }

  /** All requests in an order of age that puts one of them before, or behind, its equals. */
  lemma InOrder(outbox: map<string, Request>, q: string, first: bool) returns (sorted: seq<Request>)
    requires forall x | x in outbox :: outbox[x].id == x
    ensures Lists(outbox, outbox.Keys, sorted)
    ensures forall j, k | 0 <= j < k < |sorted| :: Before(q, first, sorted[j], sorted[k])
  {
    var all := Listing(outbox, outbox.Keys);
    var le := (a: Request, b: Request) => Before(q, first, a, b);
    sorted := Sort(all, le);
    SortMembers(all, le);
    SortOrders(all, le);
    SortDistinct(all, le);
    forall k | 0 <= k < |sorted| ensures sorted[k].id in outbox && outbox[sorted[k].id] == sorted[k] {
      assert sorted[k] in all;
    }
    forall j, k | 0 <= j < k < |sorted| ensures sorted[j].id != sorted[k].id && Before(q, first, sorted[j], sorted[k]) {
      assert le(sorted[j], sorted[k]);
    }
  }

  function FirstOnes(sorted: seq<Request>, limit: nat): seq<Request> {
    if |sorted| <= limit then sorted else sorted[..limit]
  }

  lemma FirstAreABatch(outbox: map<string, Request>, sorted: seq<Request>, q: string, first: bool, limit: nat)
    requires (forall x | x in outbox :: outbox[x].id == x) && Lists(outbox, outbox.Keys, sorted)
    requires forall j, k | 0 <= j < k < |sorted| :: Before(q, first, sorted[j], sorted[k])
    ensures IsBatch(outbox, limit, FirstOnes(sorted, limit))
  {
    OldestOfSorted(outbox, sorted, limit);
  }

  lemma SubsetSmaller<T>(a: set<T>, b: set<T>)
    requires a <= b
    ensures |a| <= |b|
  {
    assert b == a + (b - a);
  }

  /** The request put before its equals stands behind nothing but older ones. */
  lemma PlaceWhenFirst(outbox: map<string, Request>, sorted: seq<Request>, q: string, j: nat)
    requires q in outbox && Lists(outbox, outbox.Keys, sorted) && j < |sorted| && sorted[j].id == q
    requires forall i, k | 0 <= i < k < |sorted| :: Before(q, true, sorted[i], sorted[k])
    ensures j <= |Earlier(outbox, q)|
  {
    DistinctIds(sorted[..j]);
    forall x | x in Ids(sorted[..j]) ensures x in Earlier(outbox, q) {
      var k: nat :| k < j && sorted[..j][k].id == x;
      assert Before(q, true, sorted[k], sorted[j]);
    }
    SubsetSmaller(Ids(sorted[..j]), Earlier(outbox, q));
  }

  /** The request put behind its equals stands behind everything not younger. */
  lemma PlaceWhenLast(outbox: map<string, Request>, sorted: seq<Request>, q: string, j: nat)
    requires (forall x | x in outbox :: outbox[x].id == x)
    requires q in outbox && Lists(outbox, outbox.Keys, sorted) && j < |sorted| && sorted[j].id == q
    requires forall i, k | 0 <= i < k < |sorted| :: Before(q, false, sorted[i], sorted[k])
    ensures |NotLater(outbox, q)| <= j
  {
    DistinctIds(sorted[..j]);
    forall x | x in NotLater(outbox, q) ensures x in Ids(sorted[..j]) {
      var k: nat :| k < |sorted| && sorted[k] == outbox[x];
      assert sorted[k].id == x && k != j;
      assert !Before(q, false, sorted[j], sorted[k]);
      assert sorted[..j][k].id == x;
    }
    SubsetSmaller(NotLater(outbox, q), Ids(sorted[..j]));
  }

  /** Exactly which requests the next batch is sure to hold: those with fewer than a batch of others not younger. */
  lemma FetchedForSureIff(outbox: map<string, Request>, limit: nat, q: string)
    requires (forall x | x in outbox :: outbox[x].id == x) && q in outbox
    ensures (forall rows | IsBatch(outbox, limit, rows) :: !Left(rows, q)) <==> |NotLater(outbox, q)| < limit
  {
    if |NotLater(outbox, q)| < limit {
      forall rows | IsBatch(outbox, limit, rows) && Left(rows, q) ensures false {
        LeftMeansFull(outbox, limit, rows, q);
      }
    } else {
      var sorted := InOrder(outbox, q, false);
      var j :| 0 <= j < |sorted| && sorted[j] == outbox[q];
      PlaceWhenLast(outbox, sorted, q, j);
      FirstAreABatch(outbox, sorted, q, false, limit);
      assert Left(FirstOnes(sorted, limit), q);
    }
  }

  /** A batch that leaves a request is full of requests not younger. */
  lemma LeftMeansFull(outbox: map<string, Request>, limit: nat, rows: seq<Request>, q: string)
    requires q in outbox && IsBatch(outbox, limit, rows) && Left(rows, q)
    ensures |NotLater(outbox, q)| >= limit
  {
    DistinctIds(rows);
    forall x | x in Ids(rows) ensures x in NotLater(outbox, q) {
      var k: nat :| k < |rows| && rows[k].id == x;
    }
    SubsetSmaller(Ids(rows), NotLater(outbox, q));
    SubsetSmaller(NotLater(outbox, q) + {q}, outbox.Keys);
  }

  /** And exactly which it may hold, as ties fall: those with fewer than a batch of others older. */
  lemma FetchedPerhapsIff(outbox: map<string, Request>, limit: nat, q: string)
    requires (forall x | x in outbox :: outbox[x].id == x) && q in outbox
    ensures (exists rows :: IsBatch(outbox, limit, rows) && !Left(rows, q)) <==> |Earlier(outbox, q)| < limit
  {
    if |Earlier(outbox, q)| < limit {
      var sorted := InOrder(outbox, q, true);
      var j :| 0 <= j < |sorted| && sorted[j] == outbox[q];
      PlaceWhenFirst(outbox, sorted, q, j);
      FirstAreABatch(outbox, sorted, q, true, limit);
      assert FirstOnes(sorted, limit)[j].id == q;
      assert !Left(FirstOnes(sorted, limit), q);
    } else {
      forall rows | IsBatch(outbox, limit, rows) ensures Left(rows, q) {
        OlderComeFirst(outbox, limit, rows, q);
      }
    }
  }

  lemma LeftIff(rows: seq<Request>, x: string)
    ensures Left(rows, x) <==> x !in Ids(rows)
  {
  }

  lemma OlderComeFirst(outbox: map<string, Request>, limit: nat, rows: seq<Request>, q: string)
    requires q in outbox && IsBatch(outbox, limit, rows) && |Earlier(outbox, q)| >= limit
    ensures Left(rows, q)
  {
    DistinctIds(rows);
    if k: nat :| k < |rows| && rows[k].id == q {
      forall x | x in Earlier(outbox, q) ensures x in Ids(rows) {
        LeftIff(rows, x);
      }
      SubsetSmaller(Earlier(outbox, q) + {q}, Ids(rows));
    }
  }

  /** Exactly a batch's worth of requests, all older than every other. */
  predicate Head(outbox: map<string, Request>, limit: nat, head: set<string>) {
    && |head| == limit && head <= outbox.Keys
    && forall q, h | h in head && q in outbox && q !in head :: outbox[h].createdAt < outbox[q].createdAt
  }

  /** A full head is the whole of the next batch. */
  lemma HeadIsTheBatch(outbox: map<string, Request>, limit: nat, head: set<string>, rows: seq<Request>)
    requires Head(outbox, limit, head) && IsBatch(outbox, limit, rows)
    ensures Ids(rows) == head
  {
    DistinctIds(rows);
    assert Ids(rows) <= outbox.Keys;
    SubsetSmaller(head, outbox.Keys);
    if k: nat :| k < |rows| && rows[k].id !in head {
      if head <= Ids(rows) {
        SubsetSmaller(head + {rows[k].id}, Ids(rows));
        assert false;
      }
      var h :| h in head && h !in Ids(rows);
      assert Left(rows, h);
    }
    EqualSets(Ids(rows), head);
  }

  lemma EqualSets<T>(a: set<T>, b: set<T>)
    requires a <= b && |a| == |b|
    ensures a == b
  {
    assert b == a + (b - a);
  }

  /** The request a drain is at. */
  function Current(w: World, d: nat): Option<string> {
    if d in w.drains && w.drains[d].at < |w.drains[d].batch| then Some(w.drains[d].batch[w.drains[d].at].id) else None
  }

  /** The index answers no write for a request of the head, and writers ask only for later rows. */
  ghost predicate Failing(w: World, head: set<string>, e: Event) {
    && (e.Write? && Current(w, e.drain).Some? && Current(w, e.drain).value in head ==> !e.answered)
    && (e.Commit? ==> forall q, h | q in e.after.outbox && q !in w.tables.outbox && h in head && h in w.tables.outbox ::
          w.tables.outbox[h].createdAt < e.after.outbox[q].createdAt)
  }

  /** Only the head is ever in a batch, and nothing is dropped. */
  ghost predicate Stuck(cfg: Config, w: World, head: set<string>) {
    && Head(w.tables.outbox, cfg.limit, head)
    && forall d | d in w.drains :: OnlyMarks(w.tables.outbox, w.drains[d], head)
  }

  predicate OnlyMarks(outbox: map<string, Request>, drain: Drain, head: set<string>) {
    && drain.deleted == {} && drain.stage != Answered(true) && drain.marked.Keys <= head
    && (forall k | 0 <= k < |drain.batch| :: drain.batch[k].id in head)
    && (forall q | q in drain.marked :: q in outbox && drain.marked[q].createdAt == outbox[q].createdAt)
  }

  lemma StuckFetch(cfg: Config, w: World, head: set<string>, d: nat, rows: seq<Request>)
    requires Stuck(cfg, w, head) && Next(cfg, w, Fetch(d, rows)).Some?
    ensures Stuck(cfg, Next(cfg, w, Fetch(d, rows)).value, head)
  {
    HeadIsTheBatch(w.tables.outbox, cfg.limit, head, rows);
    hide IsBatch, Head;
    forall k | 0 <= k < |rows| ensures rows[k].id in head {
      assert rows[k].id in Ids(rows);
    }
  }

  lemma StuckSettle(cfg: Config, w: World, head: set<string>, d: nat)
    requires Inv(w) && Stuck(cfg, w, head) && Next(cfg, w, Settle(d)).Some?
    ensures Stuck(cfg, Next(cfg, w, Settle(d)).value, head)
  {
    assert BatchHeld(w.tables.outbox, w.drains[d]);
    hide Inv, Head;
  }

  lemma StuckStep(cfg: Config, w: World, head: set<string>, e: Event)
    requires Inv(w) && Stuck(cfg, w, head) && Failing(w, head, e) && Next(cfg, w, e).Some?
    ensures Stuck(cfg, Next(cfg, w, e).value, head)
    ensures forall q | q in w.tables.outbox && q !in head ::
      q in Next(cfg, w, e).value.tables.outbox && Next(cfg, w, e).value.tables.outbox[q] == w.tables.outbox[q]
  {
    if e.Fetch? {
      StuckFetch(cfg, w, head, e.drain, e.rows);
    } else if e.Settle? {
      StuckSettle(cfg, w, head, e.drain);
    } else if e.Commit? {
      StuckCommit(cfg, w, head, e.after);
    } else if e.Finish? {
      StuckFinish(cfg, w, head, e.drain);
    } else {
      hide Inv, IsBatch, StageHolds, Indexed, Visible, Head;
    }
  }

  lemma StuckCommit(cfg: Config, w: World, head: set<string>, after: Tables)
    requires Stuck(cfg, w, head) && Failing(w, head, Commit(after)) && Announces(w.tables, after)
    ensures Stuck(cfg, w.(tables := after), head)
  {
    assert forall q | q in w.tables.outbox :: q in after.outbox && after.outbox[q] == w.tables.outbox[q];
    hide Announces;
  }

  lemma StuckFinish(cfg: Config, w: World, head: set<string>, d: nat)
    requires Stuck(cfg, w, head) && Next(cfg, w, Finish(d)).Some? && forall q | q in w.tables.outbox :: w.tables.outbox[q].id == q
    requires forall e | e in w.drains :: e == d
    ensures Stuck(cfg, Next(cfg, w, Finish(d)).value, head)
    ensures forall q | q in w.tables.outbox && q !in head ::
      q in Next(cfg, w, Finish(d)).value.tables.outbox && Next(cfg, w, Finish(d)).value.tables.outbox[q] == w.tables.outbox[q]
  {
    DrainedMarks(w.tables.outbox, w.drains[d], head);
    assert Next(cfg, w, Finish(d)).value.drains == map[];
  }

  lemma DrainedMarks(outbox: map<string, Request>, drain: Drain, head: set<string>)
    requires OnlyMarks(outbox, drain, head)
    ensures var after := Drained(outbox, drain);
      && after.Keys == outbox.Keys
      && forall q | q in outbox :: after[q].createdAt == outbox[q].createdAt && (q !in head ==> after[q] == outbox[q])
  {
  }

  /** While a full head of requests keeps failing, no request behind it is ever reached, whatever its own chances. */
  lemma {:induction false} FailingHeadStarvesTheRest(cfg: Config, w: World, head: set<string>, events: seq<Event>, q: string)
    requires cfg.locking && Inv(w) && Stuck(cfg, w, head) && q in w.tables.outbox && q !in head
    requires Run(cfg, w, events).Some?
    requires forall k | 0 <= k < |events| :: Run(cfg, w, events[..k]).Some? ==> Failing(Run(cfg, w, events[..k]).value, head, events[k])
    ensures var after := Run(cfg, w, events).value;
      Stuck(cfg, after, head) && q in after.tables.outbox && after.tables.outbox[q] == w.tables.outbox[q]
  {
    if events != [] {
      var n := |events| - 1;
      var front := events[..n];
      forall k | 0 <= k < n && Run(cfg, w, front[..k]).Some? ensures Failing(Run(cfg, w, front[..k]).value, head, front[k]) {
        assert front[..k] == events[..k];
      }
      FailingHeadStarvesTheRest(cfg, w, head, front, q);
      RunKeeps(cfg, w, front);
      StuckStep(cfg, Run(cfg, w, front).value, head, events[n]);
    }
  }

  // ----- such a head can come about

  function Name(n: nat): (name: string)
    ensures |name| == n
  {
    seq(n, _ => 'a')
  }

  function Numbered(n: nat): Draft { Draft(Name(n), Name(n), "", "", "", "", [], [], "", None) }

  /** So many scans, one candidate each. */
  function OneByOne(t: Tables, from: nat -> Origin, n: nat, now: int): Tables {
    if n == 0 then t else Written(OneByOne(t, from, n - 1, now), from(n - 1), [Numbered(n - 1)], now)
  }

  function Commits(t: Tables, from: nat -> Origin, n: nat, now: int): seq<Event> {
    if n == 0 then [] else Commits(t, from, n - 1, now) + [Commit(OneByOne(t, from, n, now))]
  }

  predicate OtherJobs(from: nat -> Origin, n: nat) {
    forall j, k | 0 <= j < k <= n :: from(j).job != from(k).job
  }

  /** The first `n` names are taken, each by the row and the request of its own scan. */
  predicate Filled(t: Tables, from: nat -> Origin, n: nat, now: int) {
    && |t.outbox| == n && (forall q | q in t.outbox :: |q| < n && t.outbox[q].createdAt == now)
    && (forall r | r in t.recipes :: |r| < n && t.recipes[r].sourceJobId == Some(from(|r|).job))
  }

  /** One more scan of another job asks for one recipe more. */
  lemma OneMore(t: Tables, from: nat -> Origin, n: nat, now: int, later: int)
    requires Filled(t, from, n, now) && OtherJobs(from, n)
    ensures FreshIds(t, Scan(from(n), [Numbered(n)]))
    ensures var after := Written(t, from(n), [Numbered(n)], later);
      && after.outbox.Keys == t.outbox.Keys + {Name(n)} && after.outbox[Name(n)].createdAt == later
      && (forall q | q in t.outbox :: after.outbox[q] == t.outbox[q])
      && (later == now ==> Filled(after, from, n + 1, now))
  {
    hide *;
    NoOutputYet(t, from, n, now);
    OneCandidate(t, from(n), Numbered(n), later);
    if later == now {
      FilledMore(t, Written(t, from(n), [Numbered(n)], later), from, n, now);
    }
  }

  lemma NoOutputYet(t: Tables, from: nat -> Origin, n: nat, now: int)
    requires Filled(t, from, n, now) && OtherJobs(from, n)
    ensures !HasOutput(t.recipes, from(n).userId, from(n).job) && Numbered(n).rowId == Numbered(n).requestId == Name(n)
    ensures Name(n) !in t.recipes && Name(n) !in t.outbox
  {
  }

  lemma FilledMore(t: Tables, after: Tables, from: nat -> Origin, n: nat, now: int)
    requires Filled(t, from, n, now) && Name(n) !in t.outbox
    requires after.recipes.Keys == t.recipes.Keys + {Name(n)} && after.outbox.Keys == t.outbox.Keys + {Name(n)}
    requires after.outbox[Name(n)].createdAt == now && after.recipes[Name(n)].sourceJobId == Some(from(n).job)
    requires forall q | q in t.outbox :: after.outbox[q] == t.outbox[q]
    requires forall r | r in t.recipes :: r != Name(n) ==> after.recipes[r] == t.recipes[r]
    ensures Filled(after, from, n + 1, now)
  {
    OneLarger(t.outbox, after.outbox, Name(n));
    forall q | q in after.outbox ensures |q| < n + 1 && after.outbox[q].createdAt == now {
      if q != Name(n) {
        assert q in t.outbox;
      }
    }
    forall r | r in after.recipes ensures |r| < n + 1 && after.recipes[r].sourceJobId == Some(from(|r|).job) {
      if r != Name(n) {
        assert r in t.recipes;
      }
    }
  }

  lemma OneLarger(before: map<string, Request>, after: map<string, Request>, id: string)
    requires id !in before && after.Keys == before.Keys + {id}
    ensures |after| == |before| + 1
  {
    assert |after| == |after.Keys| && |before| == |before.Keys|;
  }

  lemma OneCandidate(t: Tables, from: Origin, draft: Draft, now: int)
    requires draft.rowId !in t.recipes && draft.requestId !in t.outbox && !HasOutput(t.recipes, from.userId, from.job)
    ensures FreshIds(t, Scan(from, [draft]))
    ensures var after := Written(t, from, [draft], now);
      && after.recipes.Keys == t.recipes.Keys + {draft.rowId} && after.recipes[draft.rowId].sourceJobId == Some(from.job)
      && after.outbox.Keys == t.outbox.Keys + {draft.requestId} && after.outbox[draft.requestId].createdAt == now
      && (forall q | q in t.outbox :: after.outbox[q] == t.outbox[q])
      && (forall r | r in t.recipes :: after.recipes[r] == t.recipes[r])
  {
    RowOfFacts(t.recipes, from, draft, now);
    hide RowOf, HasOutput;
    var one := [draft];
    assert one[..0] == [] && RowIds(one[..0]) == {} && RequestIds(one[..0]) == {} && NewIds(t, one[..0]);
    assert WrittenOnes(t, from, one[..0], now) == t;
  }

  lemma RowOfFacts(recipes: map<string, Row>, from: Origin, draft: Draft, now: int)
    ensures var row := RowOf(recipes, from, draft, now); row.id == draft.rowId && row.sourceJobId == Some(from.job)
  {
  }

  /** Scans of other jobs fill the outbox, one request at a time. */
  lemma {:induction false} ScansFill(cfg: Config, w: World, from: nat -> Origin, n: nat, now: int)
    requires w == World(Tables(map[], map[]), map[], map[]) && OtherJobs(from, n)
    ensures var t := OneByOne(w.tables, from, n, now);
      && Run(cfg, w, Commits(w.tables, from, n, now)) == Some(World(t, map[], map[]))
      && Filled(t, from, n, now) && RecipeLedger.Inv(t.recipes)
  {
    hide *;
    if n == 0 {
      NothingFilled(cfg, w, from, now);
    } else {
      FewerJobs(from, n - 1);
      ScansFill(cfg, w, from, n - 1, now);
      var t := OneByOne(w.tables, from, n - 1, now);
      OneMore(t, from, n - 1, now, now);
      CallIsACommit(cfg, World(t, map[], map[]), Scan(from(n - 1), [Numbered(n - 1)]), now);
      StepTo(cfg, w, Commits(w.tables, from, n - 1, now), World(t, map[], map[]),
        Commit(Called(t, Scan(from(n - 1), [Numbered(n - 1)]), now)), World(Called(t, Scan(from(n - 1), [Numbered(n - 1)]), now), map[], map[]));
      OneMoreCommit(w.tables, from, n, now);
    }
  }

  lemma NothingFilled(cfg: Config, w: World, from: nat -> Origin, now: int)
    requires w == World(Tables(map[], map[]), map[], map[])
    ensures OneByOne(w.tables, from, 0, now) == w.tables && Run(cfg, w, Commits(w.tables, from, 0, now)) == Some(w)
    ensures Filled(w.tables, from, 0, now) && RecipeLedger.Inv(w.tables.recipes)
  {
    hide Next;
    NothingIsInOrder(w.tables.recipes);
  }

  lemma FewerJobs(from: nat -> Origin, n: nat)
    requires OtherJobs(from, n + 1)
    ensures OtherJobs(from, n)
  {
  }

  lemma OneMoreCommit(t: Tables, from: nat -> Origin, n: nat, now: int)
    requires n > 0 && FreshIds(OneByOne(t, from, n - 1, now), Scan(from(n - 1), [Numbered(n - 1)]))
    ensures var before := OneByOne(t, from, n - 1, now);
      && Written(before, from(n - 1), [Numbered(n - 1)], now) == Called(before, Scan(from(n - 1), [Numbered(n - 1)]), now)
      && OneByOne(t, from, n, now) == Called(before, Scan(from(n - 1), [Numbered(n - 1)]), now)
      && Commits(t, from, n, now) == Commits(t, from, n - 1, now) + [Commit(OneByOne(t, from, n, now))]
  {
    hide Written;
  }

  lemma WaitsBehind(cfg: Config, t: Tables, head: map<string, Request>, q: string, now: int)
    requires |head| == cfg.limit && q !in head && t.outbox.Keys == head.Keys + {q}
    requires (forall h | h in head :: t.outbox[h].createdAt == now) && now < t.outbox[q].createdAt
    ensures Waits(cfg, World(t, map[], map[]), head.Keys, q)
  {
    assert |head.Keys| == |head|;
  }

  /** From an empty outbox scans of different jobs, one candidate each, make a head that can keep a later request waiting for good. */
  lemma AHeadComesAbout(cfg: Config, w: World, from: nat -> Origin, now: int, later: int)
    requires w == World(Tables(map[], map[]), map[], map[]) && OtherJobs(from, cfg.limit) && now < later
    ensures exists events, head, q :: Run(cfg, w, events).Some? && Waits(cfg, Run(cfg, w, events).value, head, q)
  {
    hide *;
    var n := cfg.limit;
    ScansFill(cfg, w, from, n, now);
    var t := OneByOne(w.tables, from, n, now);
    FilledFacts(t, from, n, now);
    OneMore(t, from, n, now, later);
    var last := Scan(from(n), [Numbered(n)]);
    var after := Called(t, last, later);
    LastScan(t, from(n), [Numbered(n)], later);
    CallIsACommit(cfg, World(t, map[], map[]), last, later);
    StepTo(cfg, w, Commits(w.tables, from, n, now), World(t, map[], map[]), Commit(after), World(after, map[], map[]));
    WaitsBehind(cfg, after, t.outbox, Name(n), now);
    assert Waits(cfg, Run(cfg, w, Commits(w.tables, from, n, now) + [Commit(after)]).value, t.outbox.Keys, Name(n));
  }

  lemma FilledFacts(t: Tables, from: nat -> Origin, n: nat, now: int)
    requires Filled(t, from, n, now)
    ensures |t.outbox| == n && Name(n) !in t.outbox && forall q | q in t.outbox :: t.outbox[q].createdAt == now
  {
  }

  lemma LastScan(t: Tables, from: Origin, drafts: seq<Draft>, now: int)
    requires FreshIds(t, Scan(from, drafts))
    ensures Called(t, Scan(from, drafts), now) == Written(t, from, drafts, now)
  {
  }

  ghost predicate Waits(cfg: Config, w: World, head: set<string>, q: string) {
    Stuck(cfg, w, head) && q in w.tables.outbox && q !in head
  }

  lemma NothingIsInOrder(recipes: map<string, Row>)
    requires recipes == map[]
    ensures RecipeLedger.Inv(recipes)
  {
  }

  // ----- what the lock is for

  lemma RunThree(cfg: Config, w: World, a: Event, b: Event, c: Event, w1: World, w2: World, w3: World)
    requires Next(cfg, w, a) == Some(w1) && Next(cfg, w1, b) == Some(w2) && Next(cfg, w2, c) == Some(w3)
    ensures Run(cfg, w, [a, b, c]) == Some(w3)
  {
    hide Next;
    RunStep(cfg, w, [], a);
    RunStep(cfg, w, [a], b);
    RunStep(cfg, w, [a, b], c);
    assert [] + [a] == [a] && [a] + [b] == [a, b] && [a, b] + [c] == [a, b, c];
  }

  /** A drain opens, fetches, and looks the first recipe up. */
  lemma Opens(cfg: Config, w: World, d: nat, rows: seq<Request>)
    requires d !in w.drains && !cfg.locking && rows != [] && IsBatch(w.tables.outbox, cfg.limit, rows)
    ensures Run(cfg, w, [Lock(d), Fetch(d, rows), Look(d, true)])
      == Some(With(w, d, Drain(rows, 0, Looked(Visible(w.tables.recipes, rows[0].target)), {}, map[])))
  {
    hide IsBatch, Visible;
    var w1 := With(w, d, Drain([], 0, Locked, {}, map[]));
    var w2 := With(w, d, Drain(rows, 0, Ready, {}, map[]));
    var w3 := With(w, d, Drain(rows, 0, Looked(Visible(w.tables.recipes, rows[0].target)), {}, map[]));
    assert With(w1, d, Drain(rows, 0, Ready, {}, map[])) == w2;
    assert With(w2, d, w3.drains[d]) == w3;
    RunThree(cfg, w, Lock(d), Fetch(d, rows), Look(d, true), w1, w2, w3);
  }

  /** The index takes the current row, and the next recipe is looked up. */
  lemma Proceeds(cfg: Config, w: World, d: nat)
    requires d in w.drains && w.drains[d].stage.Looked? && w.drains[d].at + 1 < |w.drains[d].batch|
    ensures var drain := w.drains[d];
      var row, next := drain.batch[drain.at], drain.batch[drain.at + 1];
      Run(cfg, w, [Write(d, true, true), Settle(d), Look(d, true)])
        == Some(With(w, d, drain.(at := drain.at + 1, stage := Looked(Visible(w.tables.recipes, next.target)), deleted := drain.deleted + {row.id}))
             .(index := Indexed(w.index, row.target, drain.stage.found)))
  {
    hide Visible, Indexed;
    var drain := w.drains[d];
    var row, next := drain.batch[drain.at], drain.batch[drain.at + 1];
    var index := Indexed(w.index, row.target, drain.stage.found);
    var d1 := drain.(stage := Answered(true));
    var d2 := drain.(at := drain.at + 1, stage := Ready, deleted := drain.deleted + {row.id});
    var d3 := d2.(stage := Looked(Visible(w.tables.recipes, next.target)));
    var w1, w2, w3 := With(w, d, d1).(index := index), With(w, d, d2).(index := index), With(w, d, d3).(index := index);
    assert With(w1, d, d2) == w2 && With(w2, d, d3) == w3;
    RunThree(cfg, w, Write(d, true, true), Settle(d), Look(d, true), w1, w2, w3);
  }

  /** The index takes the last row, and the drain commits. */
  lemma Closes(cfg: Config, w: World, d: nat)
    requires d in w.drains && w.drains[d].stage.Looked? && w.drains[d].at + 1 == |w.drains[d].batch|
    ensures var drain := w.drains[d];
      var row := drain.batch[drain.at];
      Run(cfg, w, [Write(d, true, true), Settle(d), Finish(d)])
        == Some(World(Tables(w.tables.recipes, Drained(w.tables.outbox, drain.(deleted := drain.deleted + {row.id}))),
                  Indexed(w.index, row.target, drain.stage.found), w.drains - {d}))
  {
    hide Indexed;
    var drain := w.drains[d];
    var row := drain.batch[drain.at];
    var index := Indexed(w.index, row.target, drain.stage.found);
    var d1 := drain.(stage := Answered(true));
    var d2 := drain.(at := drain.at + 1, stage := Ready, deleted := drain.deleted + {row.id});
    var w1, w2 := With(w, d, d1).(index := index), With(w, d, d2).(index := index);
    var w3 := World(Tables(w.tables.recipes, Drained(w.tables.outbox, drain.(deleted := drain.deleted + {row.id}))), index, w.drains - {d});
    assert With(w1, d, d2) == w2;
    assert Drained(w.tables.outbox, d2) == Drained(w.tables.outbox, drain.(deleted := drain.deleted + {row.id}));
    assert w2.drains - {d} == w.drains - {d};
    RunThree(cfg, w, Write(d, true, true), Settle(d), Finish(d), w1, w2, w3);
  }

  /** One recipe with one request for it; then it changes, and a second request follows the first. */
  predicate ChangesOnce(w: World, row: Request, later: Request, before: Row, after: Row) {
    && row.id != later.id && row.target == later.target == before.id == after.id && row.createdAt <= later.createdAt
    && before.deletedAt == None && after.deletedAt == None && DocumentOf(before) != DocumentOf(after)
    && w == World(Tables(map[before.id := before], map[row.id := row]), map[], map[])
  }

  function Changed(row: Request, later: Request, after: Row): Tables {
    Tables(map[after.id := after], map[row.id := row, later.id := later])
  }

  lemma ChangeIsACommit(cfg: Config, w: World, row: Request, later: Request, before: Row, after: Row)
    requires ChangesOnce(w.(drains := map[], index := map[]), row, later, before, after)
    ensures Next(cfg, w, Commit(Changed(row, later, after))) == Some(w.(tables := Changed(row, later, after)))
  {
    var t := Changed(row, later, after);
    assert later.id in t.outbox && later.id !in w.tables.outbox && t.outbox[later.id].target == after.id;
    assert NewlyRequested(w.tables.outbox, t.outbox, after.id);
  }

  lemma BothAreABatch(limit: nat, row: Request, later: Request)
    requires limit >= 2 && row.id != later.id && row.createdAt <= later.createdAt
    ensures IsBatch(map[row.id := row], limit, [row])
    ensures IsBatch(map[row.id := row, later.id := later], limit, [row, later])
  {
    var one, two := map[row.id := row], map[row.id := row, later.id := later];
    assert one.Keys == {row.id} && two.Keys == {row.id, later.id};
    assert |one| == |one.Keys| && |two| == |two.Keys|;
    assert [row, later][0].id == row.id && [row, later][1].id == later.id && [row][0].id == row.id;
  }

  /** Both drains hold a reading of the recipe, the first one the older. */
  function BothReading(row: Request, later: Request, before: Row, after: Row): World {
    World(Changed(row, later, after), map[],
      map[0 := Drain([row], 0, Looked(Some(before)), {}, map[]), 1 := Drain([row, later], 0, Looked(Some(after)), {}, map[])])
  }

  lemma BothRead(cfg: Config, w: World, row: Request, later: Request, before: Row, after: Row)
    requires !cfg.locking && cfg.limit >= 2 && ChangesOnce(w, row, later, before, after)
    ensures Run(cfg, w, [Lock(0), Fetch(0, [row]), Look(0, true)] + [Commit(Changed(row, later, after))] + [Lock(1), Fetch(1, [row, later]), Look(1, true)])
      == Some(BothReading(row, later, before, after))
  {
    hide Next, Run, IsBatch;
    BothAreABatch(cfg.limit, row, later);
    var es0 := [Lock(0), Fetch(0, [row]), Look(0, true)];
    Opens(cfg, w, 0, [row]);
    var w1 := w.(drains := map[0 := Drain([row], 0, Looked(Some(before)), {}, map[])]);
    assert Run(cfg, w, es0) == Some(w1);
    ChangeIsACommit(cfg, w1, row, later, before, after);
    RunStep(cfg, w, es0, Commit(Changed(row, later, after)));
    var es1 := es0 + [Commit(Changed(row, later, after))];
    var w2 := w1.(tables := Changed(row, later, after));
    assert Run(cfg, w, es1) == Some(w2);
    Opens(cfg, w2, 1, [row, later]);
    RunJoins(cfg, w, es1, [Lock(1), Fetch(1, [row, later]), Look(1, true)]);
    assert With(w2, 1, Drain([row, later], 0, Looked(Some(after)), {}, map[])) == BothReading(row, later, before, after);
  }

  /** The later reading is written first, the older one last. */
  lemma OlderWritesLast(cfg: Config, row: Request, later: Request, before: Row, after: Row)
    requires row.id != later.id && row.target == later.target == before.id == after.id && after.deletedAt == None
    ensures Run(cfg, BothReading(row, later, before, after), [Write(1, true, true), Settle(1), Look(1, true)] + [Write(1, true, true), Settle(1), Finish(1)]
        + [Write(0, true, true), Settle(0), Finish(0)])
      == Some(World(Tables(map[after.id := after], map[]), map[after.id := DocumentOf(before)], map[]))
  {
    hide Next, Run;
    var w := BothReading(row, later, before, after);
    var es0 := [Write(1, true, true), Settle(1), Look(1, true)];
    Proceeds(cfg, w, 1);
    var w1 := Run(cfg, w, es0).value;
    assert w1.index == map[after.id := DocumentOf(after)];
    Closes(cfg, w1, 1);
    RunJoins(cfg, w, es0, [Write(1, true, true), Settle(1), Finish(1)]);
    var es1 := es0 + [Write(1, true, true), Settle(1), Finish(1)];
    var w2 := Run(cfg, w, es1).value;
    assert w2.drains == map[0 := Drain([row], 0, Looked(Some(before)), {}, map[])];
    assert w2.tables.outbox == map[];
    assert w2.index == map[after.id := DocumentOf(after)];
    Closes(cfg, w2, 0);
    assert Drained(w2.tables.outbox, Drain([row], 0, Looked(Some(before)), {row.id}, map[])) == map[];
    assert w2.index[after.id := DocumentOf(before)] == map[after.id := DocumentOf(before)];
    assert w2.drains - {0} == map[];
    RunJoins(cfg, w, es1, [Write(0, true, true), Settle(0), Finish(0)]);
  }

  /** Without the lock the theorem is false: a second drain can finish while the first still holds an old reading, and then the
      outbox ends empty with the old document in the index. */
  lemma WithoutTheLockTheIndexGoesStale(cfg: Config, w: World, row: Request, later: Request, before: Row, after: Row)
    requires !cfg.locking && cfg.limit >= 2 && ChangesOnce(w, row, later, before, after)
    ensures exists events :: var end := Run(cfg, w, events);
      end.Some? && end.value.tables.outbox == map[] && end.value.drains == map[] && !Agrees(end.value, after.id)
  {
    hide Next, Run;
    BothRead(cfg, w, row, later, before, after);
    OlderWritesLast(cfg, row, later, before, after);
    var es0 := [Lock(0), Fetch(0, [row]), Look(0, true)] + [Commit(Changed(row, later, after))] + [Lock(1), Fetch(1, [row, later]), Look(1, true)];
    var es1 := [Write(1, true, true), Settle(1), Look(1, true)] + [Write(1, true, true), Settle(1), Finish(1)] + [Write(0, true, true), Settle(0), Finish(0)];
    RunJoins(cfg, w, es0, es1);
    var end := World(Tables(map[after.id := after], map[]), map[after.id := DocumentOf(before)], map[]);
    assert Run(cfg, w, es0 + es1) == Some(end) && !Agrees(end, after.id);
  }
}
