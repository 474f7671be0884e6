/** The recipe tables, and the transactions that change them together with their requests to re-index. */
module RecipeLedger {
  import opened Wrappers
  import opened Recipes

  datatype Request = Request(id: string, userId: string, target: string, attempts: nat, failed: bool, createdAt: int)

  datatype Tables = Tables(recipes: map<string, Row>, outbox: map<string, Request>)

  /** What one transaction writes. */
  datatype Batch = Batch(writes: map<string, Row>, requests: map<string, Request>)

  /** `find_by_id`: a deleted row is not found. */
  function Visible(recipes: map<string, Row>, id: string): Option<Row> {
    if id in recipes && recipes[id].deletedAt == None then Some(recipes[id]) else None
  }

  /** The upsert keeps the owner and the time of creation of a row that is there. */
  function Merged(recipes: map<string, Row>, id: string, row: Row): Row {
    if id in recipes then row.(userId := recipes[id].userId, createdAt := recipes[id].createdAt) else row
  }

  function Upserted(recipes: map<string, Row>, row: Row): map<string, Row> {
    recipes[row.id := Merged(recipes, row.id, row)]
  }

  /** A request whose id is there already is dropped. */
  function Enqueued(outbox: map<string, Request>, request: Request): map<string, Request> {
    if request.id in outbox then outbox else outbox[request.id := request]
  }

  function Fresh(id: string, userId: string, target: string, now: int): Request {
    Request(id, userId, target, 0, false, now)
  }

  /** Another's recipe is refused exactly like one that is not there. */
  function Owned(recipes: map<string, Row>, userId: string, id: string): Result<Row, Rejection> {
    var found := Visible(recipes, id);
    if found.None? || found.value.userId != userId then Err(NotFound) else Ok(found.value)
  }

  function OwnedParent(recipes: map<string, Row>, userId: string, parentId: Option<string>): Option<Row> {
    if parentId.None? then None
    else
      var parent := Visible(recipes, parentId.value);
      if parent.Some? && parent.value.userId == userId then parent else None
  }

  /** The tables after a recipe's row is written and its request put beside it. */
  function Saved(t: Tables, row: Row, requestId: string, userId: string, now: int): Tables {
    Tables(Upserted(t.recipes, row), Enqueued(t.outbox, Fresh(requestId, userId, row.id, now)))
  }

  function Done(t: Tables, requestId: string, userId: string, id: string, action: Action, now: int): Result<Tables, Rejection> {
    var owned := Owned(t.recipes, userId, id);
    if owned.Err? then Err(owned.error)
    else
      match Transition(owned.value, action, now)
      case Err(reason) => Err(reason)
      case Ok(row) => Ok(Saved(t, row, requestId, userId, now))
  }

  function Accepted(t: Tables, requestId: string, parentRequestId: string, userId: string, id: string, now: int): Result<Tables, Rejection> {
    var done := Done(t, requestId, userId, id, Action.Accept, now);
    var parent := if done.Ok? then OwnedParent(t.recipes, userId, t.recipes[id].parentId) else None;
    if parent.None? then done
    else Ok(Saved(done.value, Transition(parent.value, Supersede, now).value, parentRequestId, userId, now))
  }

  /** One open connection. */
  class Ledger {
    var recipes: map<string, Row>
    var outbox: map<string, Request>

    constructor (t: Tables)
      ensures Now() == t
    {
      recipes, outbox := t.recipes, t.outbox;
    }

    function Now(): Tables
      reads this
    {
      Tables(recipes, outbox)
    }

    method FindById(id: string) returns (found: Option<Recipe>)
      ensures found.Some? <==> Visible(recipes, id).Some?
      ensures found.Some? ==> fresh(found.value) && found.value.AsRow() == recipes[id]
    {
      if id !in recipes || recipes[id].deletedAt != None {
        return None;
      }
      var recipe := new Recipe(recipes[id]);
      return Some(recipe);
    }

    method OwnedRecipe(userId: string, id: string) returns (found: Result<Recipe, Rejection>)
      ensures found.Ok? ==> fresh(found.value) && Owned(recipes, userId, id) == Ok(found.value.AsRow())
      ensures found.Err? ==> Owned(recipes, userId, id) == Err(found.error)
    {
      var recipe := FindById(id);
      if recipe.None? || recipe.value.userId != userId {
        return Err(NotFound);
      }
      return Ok(recipe.value);
    }

    method Save(recipe: Recipe, requestId: string, userId: string, now: int)
      modifies this
      ensures Now() == Saved(old(Now()), recipe.AsRow(), requestId, userId, now)
    {
      recipes := Upserted(recipes, recipe.AsRow());
      outbox := Enqueued(outbox, Fresh(requestId, userId, recipe.id, now));
    }

    /** What a call leaves: the new tables, or the tables as they were and the refusal. */
    ghost predicate Outcome(expected: Result<Tables, Rejection>, before: Tables, result: Result<Row, Rejection>)
      reads this
    {
      match expected
      case Ok(after) => result.Ok? && Now() == after
      case Err(reason) => result == Err(reason) && Now() == before
    }

    method AcceptRecipe(requestId: string, parentRequestId: string, userId: string, id: string, now: int) returns (result: Result<Row, Rejection>)
      requires KeyedById(recipes)
      modifies this
      ensures Outcome(Accepted(old(Now()), requestId, parentRequestId, userId, id, now), old(Now()), result)
      ensures result.Ok? ==> id in old(recipes) && Transition(old(recipes)[id], Action.Accept, now) == Ok(result.value)
    {
      var owned := OwnedRecipe(userId, id);
      if owned.Err? {
        return Err(owned.error);
      }
      var recipe := owned.value;
      var parent: Option<Recipe> := None;
      if recipe.parentId.Some? {
        parent := FindById(recipe.parentId.value);
        if parent.Some? && parent.value.userId != userId {
          parent := None;
        }
      }
      var rejection := recipe.Accept(now);
      if rejection.Some? {
        return Err(rejection.value);
      }
      Save(recipe, requestId, userId, now);
      if parent.Some? {
        parent.value.Supersede(now);
        Save(parent.value, parentRequestId, userId, now);
      }
      return Ok(recipe.AsRow());
    }

    method DismissRecipe(requestId: string, userId: string, id: string, now: int) returns (result: Result<Row, Rejection>)
      modifies this
      ensures Outcome(Done(old(Now()), requestId, userId, id, Action.Dismiss, now), old(Now()), result)
      ensures result.Ok? ==> id in old(recipes) && Transition(old(recipes)[id], Action.Dismiss, now) == Ok(result.value)
    {
      var owned := OwnedRecipe(userId, id);
      if owned.Err? {
        return Err(owned.error);
      }
      var rejection := owned.value.Dismiss(now);
      if rejection.Some? {
        return Err(rejection.value);
      }
      Save(owned.value, requestId, userId, now);
      return Ok(owned.value.AsRow());
    }

    method RetireRecipe(requestId: string, userId: string, id: string, now: int) returns (result: Result<Row, Rejection>)
      modifies this
      ensures Outcome(Done(old(Now()), requestId, userId, id, Action.Retire, now), old(Now()), result)
      ensures result.Ok? ==> id in old(recipes) && Transition(old(recipes)[id], Action.Retire, now) == Ok(result.value)
    {
      var owned := OwnedRecipe(userId, id);
      if owned.Err? {
        return Err(owned.error);
      }
      var rejection := owned.value.Retire(now);
      if rejection.Some? {
        return Err(rejection.value);
      }
      Save(owned.value, requestId, userId, now);
      return Ok(owned.value.AsRow());
    }

    method EditRecipe(requestId: string, userId: string, id: string, revision: Revision, now: int) returns (result: Result<Row, Rejection>)
      modifies this
      ensures Outcome(Done(old(Now()), requestId, userId, id, Edit(revision), now), old(Now()), result)
      ensures result.Ok? ==> id in old(recipes) && Transition(old(recipes)[id], Edit(revision), now) == Ok(result.value)
    {
      var owned := OwnedRecipe(userId, id);
      if owned.Err? {
        return Err(owned.error);
      }
      var rejection := owned.value.EditByUser(revision, now);
      if rejection.Some? {
        return Err(rejection.value);
      }
      Save(owned.value, requestId, userId, now);
      return Ok(owned.value.AsRow());
    }

    method DeleteRecipe(requestId: string, userId: string, id: string, now: int) returns (result: Result<Row, Rejection>)
      modifies this
      ensures Outcome(Done(old(Now()), requestId, userId, id, Action.Delete, now), old(Now()), result)
      ensures result.Ok? ==> id in old(recipes) && Transition(old(recipes)[id], Action.Delete, now) == Ok(result.value)
    {
      var owned := OwnedRecipe(userId, id);
      if owned.Err? {
        return Err(owned.error);
      }
      var rejection := owned.value.Delete(now);
      if rejection.Some? {
        return Err(rejection.value);
      }
      Save(owned.value, requestId, userId, now);
      return Ok(owned.value.AsRow());
    }

    /** One finished scan writes its candidates once; the caller's transaction commits or rolls the whole of it back. */
    method WriteRecipes(from: Origin, drafts: seq<Draft>, now: int)
        modifies this
      ensures Now() == Written(old(Now()), from, drafts, now)
    {
      if drafts == [] || HasOutput(recipes, from.userId, from.job) {
        return;
      }
      for k := 0 to |drafts|
        invariant Now() == WrittenOnes(old(Now()), from, drafts[..k], now)
      {
        assert drafts[..k + 1][..k] == drafts[..k];
        var row := RowOf(recipes, from, drafts[k], now);
        recipes := Upserted(recipes, row);
        outbox := Enqueued(outbox, Fresh(drafts[k].requestId, from.userId, row.id, now));
      }
      assert drafts[..|drafts|] == drafts;
    }
  }

  // ----- the scan's own writes

  /** A candidate of a finished scan, with the two ids generated when it is written. */
  datatype Draft = Draft(rowId: string, requestId: string, title: string, intent: string, description: string, summaryMd: string, useWhen: seq<string>,
    touchedFiles: seq<Option<string>>, body: string, revises: Option<string>)

  /** The run a scan's candidates come from: its recipes' versions are the ones it saw while searching. */
  datatype Origin = Origin(userId: string, job: string, observed: map<string, int>, language: string)

  /** Deleted candidates count too, so a retried job does not write a second set. */
  predicate HasOutput(recipes: map<string, Row>, userId: string, job: string) {
    exists id | id in recipes :: recipes[id].userId == userId && recipes[id].sourceJobId == Some(job)
  }

  /** A draft revises a recipe of the same user that still has the version the run saw. */
  function RevisedParent(recipes: map<string, Row>, userId: string, draft: Draft, observed: map<string, int>): Option<Row> {
    if draft.revises.None? || draft.revises.value !in observed then None
    else
      var parent := OwnedParent(recipes, userId, draft.revises);
      if parent.Some? && parent.value.rev == observed[draft.revises.value] then parent else None
  }

  function RowOf(recipes: map<string, Row>, from: Origin, draft: Draft, now: int): Row {
    var parent := RevisedParent(recipes, from.userId, draft, from.observed);
    Row(draft.rowId, from.userId, Candidate, draft.title, draft.intent, draft.description, draft.summaryMd, draft.useWhen, draft.touchedFiles,
      draft.body, from.language, if parent.Some? then parent.value.rev + 1 else 1, if parent.Some? then Some(parent.value.id) else None,
      Some(from.job), false, Agent, now, now, None, None)
  }

  function WrittenOnes(t: Tables, from: Origin, drafts: seq<Draft>, now: int): Tables
  {
    if drafts == [] then t
    else
      var n := |drafts| - 1;
      var before := WrittenOnes(t, from, drafts[..n], now);
      Saved(before, RowOf(before.recipes, from, drafts[n], now), drafts[n].requestId, from.userId, now)
  }

  function Written(t: Tables, from: Origin, drafts: seq<Draft>, now: int): Tables
  {
    if drafts == [] || HasOutput(t.recipes, from.userId, from.job) then t
    else WrittenOnes(t, from, drafts, now)
  }

  // ----- every call announces what it changes

  predicate KeyedById(recipes: map<string, Row>) {
    forall id | id in recipes :: recipes[id].id == id
  }

  /** Every row that differs has a request of its own that was not there before, and no request is lost. */
  ghost predicate Announces(before: Tables, after: Tables) {
    && before.recipes.Keys <= after.recipes.Keys
    && (forall q | q in before.outbox :: q in after.outbox && after.outbox[q] == before.outbox[q])
    && (forall q | q in after.outbox && q !in before.outbox :: after.outbox[q].id == q)
    && (forall id | id in after.recipes :: Unchanged(before.recipes, after.recipes, id) || NewlyRequested(before.outbox, after.outbox, id))
  }

  predicate Unchanged(before: map<string, Row>, after: map<string, Row>, id: string)
    requires id in after
  {
    id in before && after[id] == before[id]
  }

  predicate NewlyRequested(before: map<string, Request>, after: map<string, Request>, target: string) {
    exists q | q in after :: q !in before && after[q].target == target
  }

  lemma AnnouncesInSteps(a: Tables, b: Tables, c: Tables)
    requires Announces(a, b) && Announces(b, c)
    ensures Announces(a, c)
  {
  }

  /** Whatever row is written, from however old a reading. */
  lemma SaveAnnounces(t: Tables, row: Row, requestId: string, userId: string, now: int)
    requires requestId !in t.outbox
    ensures Announces(t, Saved(t, row, requestId, userId, now))
  {
  }

  datatype Call =
    | Act(requestId: string, userId: string, id: string, action: Action)
    | Acceptance(requestId: string, parentRequestId: string, userId: string, id: string)
    | Scan(from: Origin, drafts: seq<Draft>)

  function Caller(call: Call): string {
    if call.Scan? then call.from.userId else call.userId
  }

  /** What the callers of the ledger promise: generated ids are new. */
  predicate FreshIds(t: Tables, call: Call) {
    match call
    case Act(requestId, _, _, action) => requestId !in t.outbox && action != Action.Accept && action != Action.Supersede
    case Acceptance(requestId, parentRequestId, _, _) => requestId !in t.outbox && parentRequestId !in t.outbox && requestId != parentRequestId
    case Scan(_, drafts) => NewIds(t, drafts)
  }

  function RowIds(drafts: seq<Draft>): set<string> {
    if drafts == [] then {} else RowIds(drafts[..|drafts| - 1]) + {drafts[|drafts| - 1].rowId}
  }

  function RequestIds(drafts: seq<Draft>): set<string> {
    if drafts == [] then {} else RequestIds(drafts[..|drafts| - 1]) + {drafts[|drafts| - 1].requestId}
  }

  /** No id is taken, by a row or by an earlier candidate. */
  predicate NewIds(t: Tables, drafts: seq<Draft>) {
    drafts == [] ||
    var front, last := drafts[..|drafts| - 1], drafts[|drafts| - 1];
    && NewIds(t, front)
    && last.rowId !in t.recipes && last.rowId !in RowIds(front)
    && last.requestId !in t.outbox && last.requestId !in RequestIds(front)
  }

  /** The tables after a call; a refused call changes nothing. */
  function Called(t: Tables, call: Call, now: int): Tables
    requires FreshIds(t, call)
  {
    match call
    case Act(requestId, userId, id, action) =>
      var done := Done(t, requestId, userId, id, action, now);
      if done.Ok? then done.value else t
    case Acceptance(requestId, parentRequestId, userId, id) =>
      var done := Accepted(t, requestId, parentRequestId, userId, id, now);
      if done.Ok? then done.value else t
    case Scan(from, drafts) => Written(t, from, drafts, now)
  }

  lemma {:induction false} ScanAdds(t: Tables, from: Origin, drafts: seq<Draft>, now: int)
    ensures var after := WrittenOnes(t, from, drafts, now);
      after.recipes.Keys <= t.recipes.Keys + RowIds(drafts) && after.outbox.Keys <= t.outbox.Keys + RequestIds(drafts)
  {
    if drafts != [] {
      hide RowOf;
      ScanAdds(t, from, drafts[..|drafts| - 1], now);
      RowOfId(WrittenOnes(t, from, drafts[..|drafts| - 1], now).recipes, from, drafts[|drafts| - 1], now);
    }
  }

  lemma RowOfId(recipes: map<string, Row>, from: Origin, draft: Draft, now: int)
    ensures RowOf(recipes, from, draft, now).id == draft.rowId
  {
  }

  lemma {:induction false} ScanAnnounces(t: Tables, from: Origin, drafts: seq<Draft>, now: int)
    requires NewIds(t, drafts)
    ensures Announces(t, WrittenOnes(t, from, drafts, now))
  {
    if drafts != [] {
      hide RowOf, Saved, Announces;
      var n := |drafts| - 1;
      ScanAnnounces(t, from, drafts[..n], now);
      ScanAdds(t, from, drafts[..n], now);
      var before := WrittenOnes(t, from, drafts[..n], now);
      var row := RowOf(before.recipes, from, drafts[n], now);
      SaveAnnounces(before, row, drafts[n].requestId, from.userId, now);
      AnnouncesInSteps(t, before, Saved(before, row, drafts[n].requestId, from.userId, now));
    } else {
      assert Announces(t, t);
    }
  }

  /** No call changes a recipe without leaving, in the same commit, a new request to re-index it. */
  lemma CallAnnounces(t: Tables, call: Call, now: int)
    requires FreshIds(t, call)
    ensures Announces(t, Called(t, call, now))
  {
    match call {
      case Act(requestId, userId, id, action) =>
        var owned := Owned(t.recipes, userId, id);
        if owned.Ok? && Transition(owned.value, action, now).Ok? {
          SaveAnnounces(t, Transition(owned.value, action, now).value, requestId, userId, now);
        }
      case Acceptance(requestId, parentRequestId, userId, id) =>
        var owned := Owned(t.recipes, userId, id);
        if owned.Ok? && Transition(owned.value, Action.Accept, now).Ok? {
          var first := Saved(t, Transition(owned.value, Action.Accept, now).value, requestId, userId, now);
          SaveAnnounces(t, Transition(owned.value, Action.Accept, now).value, requestId, userId, now);
          var parent := OwnedParent(t.recipes, userId, owned.value.parentId);
          if parent.Some? {
            var superseded := Transition(parent.value, Action.Supersede, now).value;
            SaveAnnounces(first, superseded, parentRequestId, userId, now);
            AnnouncesInSteps(t, first, Saved(first, superseded, parentRequestId, userId, now));
          }
        }
      case Scan(from, drafts) =>
        ScanAnnounces(t, from, drafts, now);
    }
  }

  // ----- every run of calls keeps

  /** A row's parent is another row of the same user, and gives way before the row is in use. */
  predicate GivesWay(recipes: map<string, Row>, row: Row) {
    row.parentId.Some? ==>
      var p := row.parentId.value;
      && p in recipes && p != row.id && recipes[p].userId == row.userId
      && (row.status in {Active, Retired} ==> recipes[p].status == Superseded || recipes[p].deletedAt.Some?)
  }

  predicate Inv(recipes: map<string, Row>) {
    KeyedById(recipes) && forall id | id in recipes :: Sound(recipes[id]) && GivesWay(recipes, recipes[id])
  }

  /** What a caller's own call may do to the rows. */
  predicate Respects(before: map<string, Row>, after: map<string, Row>, userId: string) {
    && before.Keys <= after.Keys
    && (forall id | id in before :: after[id].userId == before[id].userId && after[id].sourceJobId == before[id].sourceJobId)
    && (forall id | id in before && before[id].userId != userId :: after[id] == before[id])
    && (forall id | id in before && before[id].deletedAt.Some? :: after[id] == before[id])
    && (forall id | id in after && id !in before :: after[id].userId == userId && after[id].status == Candidate)
  }

  /** The parent no longer stands in the way of a child in use. */
  predicate ParentGone(recipes: map<string, Row>, row: Row) {
    row.parentId.Some? && row.parentId.value in recipes ==>
      var parent := recipes[row.parentId.value]; parent.status == Superseded || parent.deletedAt.Some?
  }

  predicate InUse(row: Row) { row.status == Active || row.status == Retired }

  /** What replacing a live row by its successor needs to keep the lineage. */
  predicate Succeeds(recipes: map<string, Row>, before: Row, row: Row) {
    && row.id == before.id && row.userId == before.userId && row.parentId == before.parentId
    && row.sourceJobId == before.sourceJobId && row.createdAt == before.createdAt
    && Sound(row) && before.deletedAt == None && (before.status == Superseded ==> row.status == Superseded)
    && (InUse(row) ==> InUse(before) || ParentGone(recipes, before))
  }

  lemma LineageKept(recipes: map<string, Row>, id: string, row: Row, k: string)
    requires Inv(recipes) && id in recipes && Succeeds(recipes, recipes[id], row) && k in recipes
    ensures GivesWay(recipes[id := row], recipes[id := row][k])
  {
  }

  lemma SuccessorSaved(recipes: map<string, Row>, id: string, row: Row)
    requires Inv(recipes) && id in recipes && Succeeds(recipes, recipes[id], row)
    ensures Upserted(recipes, row) == recipes[id := row]
    ensures Inv(recipes[id := row]) && Respects(recipes, recipes[id := row], row.userId)
  {
    assert recipes[id].id == id;
    assert Merged(recipes, id, row) == row;
    hide GivesWay, Sound;
    forall k | k in recipes ensures GivesWay(recipes[id := row], recipes[id := row][k]) {
      LineageKept(recipes, id, row, k);
    }
  }

  lemma TransitionSucceeds(recipes: map<string, Row>, before: Row, action: Action, now: int)
    requires Sound(before) && before.deletedAt == None && Transition(before, action, now).Ok?
    requires action == Action.Accept ==> ParentGone(recipes, before)
    ensures Succeeds(recipes, before, Transition(before, action, now).value)
  {
  }

  lemma ActKeeps(t: Tables, requestId: string, userId: string, id: string, action: Action, now: int)
    requires Inv(t.recipes) && action != Action.Accept
    ensures match Done(t, requestId, userId, id, action, now)
      case Ok(after) => Inv(after.recipes) && Respects(t.recipes, after.recipes, userId)
      case Err(_) => true
  {
    var owned := Owned(t.recipes, userId, id);
    if owned.Ok? && Transition(owned.value, action, now).Ok? {
      TransitionSucceeds(t.recipes, owned.value, action, now);
      hide Inv, Respects, Transition, Succeeds;
      SuccessorSaved(t.recipes, id, Transition(owned.value, action, now).value);
    }
  }

  lemma RespectsInSteps(a: map<string, Row>, b: map<string, Row>, c: map<string, Row>, userId: string)
    requires Respects(a, b, userId) && Respects(b, c, userId)
    requires forall id | id in c && id !in a && id in b :: c[id].status == b[id].status
    ensures Respects(a, c, userId)
  {
  }

  lemma RespectsOneMore(a: map<string, Row>, b: map<string, Row>, id: string, row: Row, userId: string)
    requires Respects(a, b, userId) && Respects(b, b[id := row], userId) && id !in b
    ensures Respects(a, b[id := row], userId)
  {
  }

  /** Acceptance writes the child first; the rows come out as if the parent had given way before. */
  lemma AcceptanceKeeps(t: Tables, requestId: string, parentRequestId: string, userId: string, id: string, now: int)
    requires Inv(t.recipes)
    ensures match Accepted(t, requestId, parentRequestId, userId, id, now)
      case Ok(after) => Inv(after.recipes) && Respects(t.recipes, after.recipes, userId)
      case Err(_) => true
  {
    var owned := Owned(t.recipes, userId, id);
    if owned.Ok? && owned.value.status == Candidate {
      var row := Transition(owned.value, Action.Accept, now).value;
      var parent := OwnedParent(t.recipes, userId, owned.value.parentId);
      assert GivesWay(t.recipes, owned.value);
      if parent.Some? {
        ParentFirst(t.recipes, parent.value, owned.value, now);
      } else {
        TransitionSucceeds(t.recipes, owned.value, Action.Accept, now);
        SuccessorSaved(t.recipes, id, row);
      }
    }
  }

  lemma ParentFirst(recipes: map<string, Row>, parent: Row, child: Row, now: int)
    requires Inv(recipes) && child.id in recipes && recipes[child.id] == child && child.status == Candidate && child.deletedAt == None
    requires child.parentId == Some(parent.id) && parent.id in recipes && recipes[parent.id] == parent && parent.deletedAt == None
    ensures var accepted, superseded := Transition(child, Action.Accept, now).value, Transition(parent, Supersede, now).value;
      var after := Upserted(Upserted(recipes, accepted), superseded);
      && after == recipes[parent.id := superseded][child.id := accepted]
      && Inv(after) && Respects(recipes, after, child.userId)
  {
    var accepted, superseded := Transition(child, Action.Accept, now).value, Transition(parent, Supersede, now).value;
    assert GivesWay(recipes, child);
    TransitionSucceeds(recipes, parent, Supersede, now);
    SuccessorSaved(recipes, parent.id, superseded);
    var middle := recipes[parent.id := superseded];
    TransitionSucceeds(middle, child, Action.Accept, now);
    SuccessorSaved(middle, child.id, accepted);
    RespectsInSteps(recipes, middle, middle[child.id := accepted], child.userId);
    BothSaved(recipes, accepted, superseded);
  }

  lemma BothSaved(recipes: map<string, Row>, a: Row, b: Row)
    requires a.id != b.id && a.id in recipes && b.id in recipes
    requires Merged(recipes, a.id, a) == a && Merged(recipes, b.id, b) == b
    ensures Upserted(Upserted(recipes, a), b) == recipes[b.id := b][a.id := a]
  {
  }

  lemma NewRowSaved(recipes: map<string, Row>, row: Row)
    requires Inv(recipes) && row.id !in recipes && Sound(row) && row.status == Candidate
    requires row.parentId.Some? ==> row.parentId.value in recipes && recipes[row.parentId.value].userId == row.userId
    ensures Inv(Upserted(recipes, row)) && Respects(recipes, Upserted(recipes, row), row.userId)
  {
    var after := Upserted(recipes, row);
    forall k | k in after ensures GivesWay(after, after[k]) {
      assert k in recipes ==> GivesWay(recipes, recipes[k]);
    }
  }

  lemma CandidateSaved(recipes: map<string, Row>, from: Origin, draft: Draft, now: int)
    requires Inv(recipes) && draft.rowId !in recipes
    ensures var row := RowOf(recipes, from, draft, now);
      var after := Upserted(recipes, row);
      after == recipes[draft.rowId := row] && Inv(after) && Respects(recipes, after, from.userId) && HasOutput(after, from.userId, from.job)
  {
    var row := RowOf(recipes, from, draft, now);
    NewRowSaved(recipes, row);
    var after := Upserted(recipes, row);
    assert after[row.id].userId == from.userId && after[row.id].sourceJobId == Some(from.job);
  }

  lemma {:induction false} ScanKeeps(t: Tables, from: Origin, drafts: seq<Draft>, now: int)
    requires NewIds(t, drafts) && Inv(t.recipes)
    ensures var after := WrittenOnes(t, from, drafts, now);
      && Inv(after.recipes) && Respects(t.recipes, after.recipes, from.userId)
      && (drafts != [] ==> HasOutput(after.recipes, from.userId, from.job))
  {
    if drafts == [] {
      RespectsItself(t.recipes, from.userId);
    } else {
      hide Inv, HasOutput, RowOf, Upserted, Respects;
      var n := |drafts| - 1;
      ScanKeeps(t, from, drafts[..n], now);
      ScanAdds(t, from, drafts[..n], now);
      var before := WrittenOnes(t, from, drafts[..n], now).recipes;
      CandidateSaved(before, from, drafts[n], now);
      RespectsOneMore(t.recipes, before, drafts[n].rowId, RowOf(before, from, drafts[n], now), from.userId);
    }
  }

  /** Every call keeps the lineage, touches only the caller's live rows, and adds only candidates. */
  lemma CallKeeps(t: Tables, call: Call, now: int)
    requires FreshIds(t, call) && Inv(t.recipes)
    ensures var after := Called(t, call, now); Inv(after.recipes) && Respects(t.recipes, after.recipes, Caller(call))
  {
    hide Inv, Respects, WrittenOnes;
    RespectsItself(t.recipes, Caller(call));
    match call {
      case Act(requestId, userId, id, action) => ActKeeps(t, requestId, userId, id, action, now);
      case Acceptance(requestId, parentRequestId, userId, id) => AcceptanceKeeps(t, requestId, parentRequestId, userId, id, now);
      case Scan(from, drafts) => ScanKeeps(t, from, drafts, now);
    }
  }

  lemma RespectsItself(recipes: map<string, Row>, userId: string)
    ensures Respects(recipes, recipes, userId)
  {
  }

  /** The tables after each call in turn, or none once a generated id was not new. */
  function Ran(t: Tables, calls: seq<(Call, int)>): Option<Tables> {
    if calls == [] then Some(t)
    else
      var before := Ran(t, calls[..|calls| - 1]);
      var (call, now) := calls[|calls| - 1];
      if before.None? || !FreshIds(before.value, call) then None else Some(Called(before.value, call, now))
  }

  /** Over every run, a recipe in use has no parent in use: accepting a revision retires what it revises for good. */
  lemma {:induction false} RunKeepsOneLiveVersion(t: Tables, calls: seq<(Call, int)>)
    requires Inv(t.recipes) && Ran(t, calls).Some?
    ensures var after := Ran(t, calls).value;
      && Inv(after.recipes) && Announces(t, after)
      && (forall id | id in after.recipes && after.recipes[id].status == Active && after.recipes[id].parentId.Some? ::
            var p := after.recipes[id].parentId.value; p in after.recipes && !(after.recipes[p].status == Active && after.recipes[p].deletedAt == None))
      && (forall user, job | HasOutput(t.recipes, user, job) :: HasOutput(after.recipes, user, job))
  {
    if calls != [] {
      var (call, now) := calls[|calls| - 1];
      RunKeepsOneLiveVersion(t, calls[..|calls| - 1]);
      var before := Ran(t, calls[..|calls| - 1]).value;
      CallKeeps(before, call, now);
      CallAnnounces(before, call, now);
      AnnouncesInSteps(t, before, Called(before, call, now));
      forall user, job | HasOutput(before.recipes, user, job) ensures HasOutput(Called(before, call, now).recipes, user, job) {
        OutputStays(before.recipes, Called(before, call, now).recipes, Caller(call), user, job);
      }
    }
    assert forall id | Ran(t, calls).Some? && id in Ran(t, calls).value.recipes :: GivesWay(Ran(t, calls).value.recipes, Ran(t, calls).value.recipes[id]);
  }

  // ----- commits of rows read earlier

  predicate Live(row: Row) { row.status == Active && row.deletedAt == None }

  /** No recipe in use revises a recipe in use. */
  predicate OneLiveVersion(recipes: map<string, Row>) {
    forall id | id in recipes && Live(recipes[id]) && recipes[id].parentId.Some? ::
      !(recipes[id].parentId.value in recipes && Live(recipes[recipes[id].parentId.value]))
  }

  /** A row some transaction found, perhaps long ago: anything but its identity and its parent may have changed since. */
  predicate EarlierReading(recipes: map<string, Row>, read: Row) {
    && read.id in recipes && recipes[read.id].parentId == read.parentId && read.parentId != Some(read.id)
    && read.deletedAt == None
  }

  /** Looked up in the tables before the commit: the row written is not in use, or nothing in use revises it and it revises nothing in use. */
  predicate Harmless(recipes: map<string, Row>, read: Row, action: Action) {
    action.Accept? || action.Edit? ==>
      && (forall id | id in recipes && Live(recipes[id]) :: recipes[id].parentId != Some(read.id))
      && (read.parentId.Some? && read.parentId.value in recipes ==> !Live(recipes[read.parentId.value]))
  }

  lemma WrittenLiveIff(read: Row, action: Action, now: int)
    requires read.deletedAt == None && Transition(read, action, now).Ok?
    ensures var row := Transition(read, action, now).value;
      && (Live(row) <==> action.Accept? || action.Edit?) && row.id == read.id && row.parentId == read.parentId
  {
  }

  lemma ReplacedKeepsIff(recipes: map<string, Row>, id: string, row: Row)
    requires OneLiveVersion(recipes) && id in recipes && row.parentId == recipes[id].parentId && row.parentId != Some(id)
    ensures OneLiveVersion(recipes[id := row]) <==> (Live(row) ==>
      && (forall k | k in recipes && Live(recipes[k]) :: recipes[k].parentId != Some(id))
      && (row.parentId.Some? && row.parentId.value in recipes ==> !Live(recipes[row.parentId.value])))
  {
    var after := recipes[id := row];
    assert id in after && after[id] == row;
    if OneLiveVersion(after) {
      forall k | k in recipes && Live(recipes[k]) && Live(row) ensures recipes[k].parentId != Some(id) {
        assert k != id ==> after[k] == recipes[k];
      }
      assert row.parentId.Some? && row.parentId.value in recipes ==> after[row.parentId.value] == recipes[row.parentId.value];
    } else {
      var k :| k in after && Live(after[k]) && after[k].parentId.Some?
        && after[k].parentId.value in after && Live(after[after[k].parentId.value]);
      var p := after[k].parentId.value;
      assert k != id ==> after[k] == recipes[k];
      assert p != id ==> after[p] == recipes[p];
    }
  }

  /** Exactly which commits of an earlier reading keep one live version, whatever was committed in between. */
  lemma StaleCommitKeepsOneLiveVersionIff(t: Tables, read: Row, action: Action, requestId: string, userId: string, now: int)
    requires OneLiveVersion(t.recipes) && EarlierReading(t.recipes, read) && Transition(read, action, now).Ok?
    ensures OneLiveVersion(Saved(t, Transition(read, action, now).value, requestId, userId, now).recipes) <==> Harmless(t.recipes, read, action)
  {
    var row := Transition(read, action, now).value;
    WrittenLiveIff(read, action, now);
    ReplacedKeepsIff(t.recipes, read.id, Merged(t.recipes, read.id, row));
  }

  /** An acceptance that takes its parent out of use only depends on what revises the child. */
  lemma StaleAcceptanceKeepsOneLiveVersionIff(t: Tables, child: Row, parent: Row, ids: (string, string), userId: string, now: int)
    requires OneLiveVersion(t.recipes) && EarlierReading(t.recipes, child) && child.status == Candidate
    requires child.parentId == Some(parent.id) && EarlierReading(t.recipes, parent)
    ensures var first := Saved(t, Transition(child, Action.Accept, now).value, ids.0, userId, now);
      var after := Saved(first, Transition(parent, Supersede, now).value, ids.1, userId, now);
      OneLiveVersion(after.recipes) <==>
        forall id | id in t.recipes && Live(t.recipes[id]) && id != parent.id :: t.recipes[id].parentId != Some(child.id)
  {
    var row, gone := Transition(child, Action.Accept, now).value, Transition(parent, Supersede, now).value;
    var middle := t.recipes[parent.id := Merged(t.recipes, parent.id, gone)];
    ReplacedKeepsIff(t.recipes, parent.id, Merged(t.recipes, parent.id, gone));
    assert forall k | k in t.recipes :: k in middle && (Live(middle[k]) <==> Live(t.recipes[k]) && k != parent.id);
    assert forall k | k in t.recipes && k != parent.id :: middle[k] == t.recipes[k];
    ReplacedKeepsIff(middle, child.id, Merged(t.recipes, child.id, row));
    assert Upserted(Upserted(t.recipes, row), gone) == middle[child.id := Merged(t.recipes, child.id, row)];
  }

  /** For one, an edit that read the parent before the acceptance and commits after it brings the parent back. */
  lemma StaleEditRevivesParent(t: Tables, child: Row, parent: Row, revision: Revision, ids: (string, string, string), now: int, later: int)
    requires Inv(t.recipes) && Owned(t.recipes, child.userId, child.id) == Ok(child) && child.status == Candidate
    requires OwnedParent(t.recipes, child.userId, child.parentId) == Some(parent) && parent.status == Active
    ensures Accepted(t, ids.0, ids.1, child.userId, child.id, now).Ok?
    ensures var edited := Transition(parent, Edit(revision), later).value;
      var after := Saved(Accepted(t, ids.0, ids.1, child.userId, child.id, now).value, edited, ids.2, child.userId, later);
      after.recipes[child.id].status == Active && after.recipes[parent.id].status == Active && !Inv(after.recipes)
  {
    ParentFirst(t.recipes, parent, child, now);
    var edited := Transition(parent, Edit(revision), later).value;
    var after := Saved(Accepted(t, ids.0, ids.1, child.userId, child.id, now).value, edited, ids.2, child.userId, later);
    assert GivesWay(t.recipes, child);
    assert !GivesWay(after.recipes, after.recipes[child.id]);
  }

  lemma OutputStays(before: map<string, Row>, after: map<string, Row>, caller: string, user: string, job: string)
    requires Respects(before, after, caller) && HasOutput(before, user, job)
    ensures HasOutput(after, user, job)
  {
  }

  /** A job that wrote its candidates never writes again, whatever happens to them in between and whatever the retry brings. */
  lemma JobWritesOnce(t: Tables, first: Call, now: int, between: seq<(Call, int)>, again: Call, later: int)
    requires Inv(t.recipes) && first.Scan? && again.Scan? && first.drafts != [] && FreshIds(t, first)
    requires again.from.userId == first.from.userId && again.from.job == first.from.job
    requires Ran(Called(t, first, now), between).Some? && FreshIds(Ran(Called(t, first, now), between).value, again)
    ensures Called(Ran(Called(t, first, now), between).value, again, later) == Ran(Called(t, first, now), between).value
  {
    CallKeeps(t, first, now);
    if !HasOutput(t.recipes, first.from.userId, first.from.job) {
      ScanKeeps(t, first.from, first.drafts, now);
    }
    RunKeepsOneLiveVersion(Called(t, first, now), between);
  }

  // ----- what is written, column by column

  /** A saved recipe keeps its owner and time of creation if it was there; nothing else but it is touched, and its request asks for it. */
  lemma SavedMeans(t: Tables, row: Row, requestId: string, userId: string, now: int)
    requires requestId !in t.outbox
    ensures var after := Saved(t, row, requestId, userId, now);
      && after.recipes.Keys == t.recipes.Keys + {row.id} && (forall id | id in t.recipes && id != row.id :: after.recipes[id] == t.recipes[id])
      && after.recipes[row.id].userId == (if row.id in t.recipes then t.recipes[row.id].userId else row.userId)
      && after.recipes[row.id].createdAt == (if row.id in t.recipes then t.recipes[row.id].createdAt else row.createdAt)
      && after.recipes[row.id] == row.(userId := after.recipes[row.id].userId, createdAt := after.recipes[row.id].createdAt)
      && after.outbox.Keys == t.outbox.Keys + {requestId} && (forall q | q in t.outbox :: after.outbox[q] == t.outbox[q])
      && var request := after.outbox[requestId];
        && request.id == requestId && request.userId == userId && request.target == row.id
        && request.attempts == 0 && !request.failed && request.createdAt == now
  {
  }

  /** A live recipe of this user. */
  predicate Mine(recipes: map<string, Row>, userId: string, id: string) {
    id in recipes && recipes[id].deletedAt == None && recipes[id].userId == userId
  }

  /** A call is refused as not found unless the recipe is live and the caller's, then by the state it is in;
      otherwise that row alone moves, and one request is put for it. */
  lemma DoneMeans(t: Tables, requestId: string, userId: string, id: string, action: Action, now: int)
    requires KeyedById(t.recipes) && requestId !in t.outbox
    ensures var done := Done(t, requestId, userId, id, action, now);
      if !Mine(t.recipes, userId, id) then done == Err(NotFound)
      else if Refusal(t.recipes[id], action).Some? then done == Err(Refusal(t.recipes[id], action).value)
      else
        && done.Ok? && Transition(t.recipes[id], action, now).Ok?
        && done.value.recipes == t.recipes[id := Transition(t.recipes[id], action, now).value]
        && done.value.outbox == t.outbox[requestId := Request(requestId, userId, id, 0, false, now)]
  {
  }

  /** An acceptance also has a live parent of the caller give way, whatever state it is in, with a request of its own. */
  lemma AcceptedMeans(t: Tables, requestId: string, parentRequestId: string, userId: string, id: string, now: int)
    requires KeyedById(t.recipes) && requestId !in t.outbox && parentRequestId !in t.outbox && requestId != parentRequestId
    ensures var done := Accepted(t, requestId, parentRequestId, userId, id, now);
      if !Mine(t.recipes, userId, id) then done == Err(NotFound)
      else if t.recipes[id].status != Candidate then done == Err(NotCandidate)
      else
        var child := t.recipes[id].(status := Active, resolvedAt := Some(now), updatedAt := now);
        var request := Request(requestId, userId, id, 0, false, now);
        if t.recipes[id].parentId.Some? && Mine(t.recipes, userId, t.recipes[id].parentId.value) then
          var up := t.recipes[id].parentId.value;
          var parent := t.recipes[up].(status := Superseded, resolvedAt := Some(now), updatedAt := now);
          done == Ok(Tables(t.recipes[id := child][up := parent],
            t.outbox[requestId := request][parentRequestId := Request(parentRequestId, userId, up, 0, false, now)]))
        else done == Ok(Tables(t.recipes[id := child], t.outbox[requestId := request]))
  {
    DoneMeans(t, requestId, userId, id, Action.Accept, now);
  }

  /** The recipe a draft revises: one the run saw, still of that version, of the same user and not deleted. */
  predicate StillSeen(recipes: map<string, Row>, from: Origin, draft: Draft) {
    && draft.revises.Some? && draft.revises.value in from.observed && draft.revises.value in recipes
    && var parent := recipes[draft.revises.value];
      parent.deletedAt == None && parent.userId == from.userId && parent.rev == from.observed[draft.revises.value]
  }

  /** A candidate has its draft's columns and its run's user, job and language; it is the next version of what it revises, or the first. */
  lemma CandidateMeans(recipes: map<string, Row>, from: Origin, draft: Draft, now: int)
    requires KeyedById(recipes)
    ensures var row := RowOf(recipes, from, draft, now);
      && row.id == draft.rowId && row.title == draft.title && row.intent == draft.intent && row.description == draft.description
      && row.summaryMd == draft.summaryMd && row.useWhen == draft.useWhen && row.touchedFiles == draft.touchedFiles && row.body == draft.body
      && row.userId == from.userId && row.sourceJobId == Some(from.job) && row.language == from.language
      && row.status == Candidate && !row.userEdited && row.lastEditedBy == Agent
      && row.createdAt == now && row.updatedAt == now && row.resolvedAt == None && row.deletedAt == None
      && row.parentId == (if StillSeen(recipes, from, draft) then draft.revises else None)
      && row.rev == (if StillSeen(recipes, from, draft) then recipes[draft.revises.value].rev + 1 else 1)
  {
  }

  predicate Extends(t: Tables, after: Tables) {
    KeyedById(after.recipes) && forall id | id in t.recipes :: id in after.recipes && after.recipes[id] == t.recipes[id]
  }

  /** The draft is there as its candidate, with its own request. */
  predicate HasDraft(t: Tables, after: Tables, from: Origin, draft: Draft, now: int) {
    && draft.rowId in after.recipes && after.recipes[draft.rowId] == RowOf(t.recipes, from, draft, now)
    && draft.requestId in after.outbox && after.outbox[draft.requestId] == Fresh(draft.requestId, from.userId, draft.rowId, now)
  }

  /** Every draft of a scan is there afterwards, with its own columns and its own request; no draft revises a candidate written with it. */
  lemma {:induction false} ScanWritesEach(t: Tables, from: Origin, drafts: seq<Draft>, now: int)
    requires NewIds(t, drafts) && KeyedById(t.recipes)
    requires forall j | 0 <= j < |drafts| :: drafts[j].revises.Some? ==> drafts[j].revises.value !in RowIds(drafts)
    ensures var after := WrittenOnes(t, from, drafts, now);
      Extends(t, after) && forall k | 0 <= k < |drafts| :: HasDraft(t, after, from, drafts[k], now)
  {
    if drafts != [] {
      hide RowOf, Saved, HasDraft, Extends;
      var n := |drafts| - 1;
      var front, last := drafts[..n], drafts[n];
      var before := WrittenOnes(t, from, front, now);
      assert RowIds(drafts) == RowIds(front) + {last.rowId};
      ScanAdds(t, from, front, now);
      ScanWritesEach(t, from, front, now);
      WrittenNext(t, before, from, last, now);
      DraftsStay(t, before, WrittenOnes(t, from, drafts, now), from, front, now);
      assert drafts == front + [last];
    }
  }

  lemma WrittenNext(t: Tables, before: Tables, from: Origin, draft: Draft, now: int)
    requires Extends(t, before) && draft.rowId !in before.recipes && draft.requestId !in before.outbox
    requires draft.revises.Some? && draft.revises.value in before.recipes ==> draft.revises.value in t.recipes
    ensures var after := Saved(before, RowOf(before.recipes, from, draft, now), draft.requestId, from.userId, now);
      && Extends(t, after) && HasDraft(t, after, from, draft, now)
      && after.recipes.Keys == before.recipes.Keys + {draft.rowId} && after.outbox.Keys == before.outbox.Keys + {draft.requestId}
      && (forall id | id in before.recipes :: after.recipes[id] == before.recipes[id])
      && (forall q | q in before.outbox :: after.outbox[q] == before.outbox[q])
  {
    hide RowOf, Saved;
    RowOfId(before.recipes, from, draft, now);
    SameParent(t.recipes, before.recipes, from, draft, now);
    NewRowMeans(before, RowOf(before.recipes, from, draft, now), draft.requestId, from.userId, now);
  }

  lemma DraftsStay(t: Tables, before: Tables, after: Tables, from: Origin, drafts: seq<Draft>, now: int)
    requires forall k | 0 <= k < |drafts| :: HasDraft(t, before, from, drafts[k], now)
    requires forall id | id in before.recipes :: id in after.recipes && after.recipes[id] == before.recipes[id]
    requires forall q | q in before.outbox :: q in after.outbox && after.outbox[q] == before.outbox[q]
    ensures forall k | 0 <= k < |drafts| :: HasDraft(t, after, from, drafts[k], now)
  {
    hide RowOf;
  }

  lemma NewRowMeans(t: Tables, row: Row, requestId: string, userId: string, now: int)
    requires requestId !in t.outbox && row.id !in t.recipes
    ensures Saved(t, row, requestId, userId, now)
      == Tables(t.recipes[row.id := row], t.outbox[requestId := Fresh(requestId, userId, row.id, now)])
  {
  }

  lemma SameParent(recipes: map<string, Row>, more: map<string, Row>, from: Origin, draft: Draft, now: int)
    requires forall id | id in recipes :: id in more && more[id] == recipes[id]
    requires draft.revises.Some? && draft.revises.value in more ==> draft.revises.value in recipes
    ensures RowOf(more, from, draft, now) == RowOf(recipes, from, draft, now)
  {
  }
}
