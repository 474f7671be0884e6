/** What a recipe candidate may cite: the evidence catalog and the deterministic validation against it. */
module Provenance {
  import opened Wrappers

  type Id = string

  datatype Catalog = Catalog(
    eventsByTask: map<Id, set<Id>>,
    turnsByTask: map<Id, set<Id>>,
    rules: set<Id>,
    recipeRevs: map<Id, int>)

  const EMPTY_CATALOG := Catalog(map[], map[], {}, map[])

  datatype Slice = Slice(taskId: Id, turnIds: seq<Id>, eventIds: seq<Id>)

  /** A claim of a recipe, as far as validation reads it: the event ids it gives as evidence. */
  type Evidence = seq<Id>

  datatype Candidate = Candidate(
    slices: seq<Slice>,
    corrections: seq<Evidence>,
    pitfalls: seq<Evidence>,
    recovery: seq<Evidence>,
    governingRules: seq<Id>,
    revises: Option<Id>,
    steps: seq<Evidence>)

  datatype Section = Correction | Pitfall | Recovery | StepOf

  /** One entry of the error list; the identifiers a message spells out are its arguments. */
  datatype Problem =
    | MissingAnchor(task: Id)
    | AnchorWithoutEvents
    | UnsupportedTask(task: Id)
    | UnsupportedTurns(task: Id, ids: set<Id>)
    | UnsupportedEvents(task: Id, ids: set<Id>)
    | NothingCited
    | UnsupportedEvidence(section: Section, number: nat, ids: set<Id>)
    | UnsupportedRules(ids: set<Id>)
    | UnsupportedRevision(recipe: Id)
    | TooManyCandidates
    | InRecipe(number: nat, problem: Problem)
    | TurnClaimedTwice(number: nat, turn: Id, owner: nat)

  function ToSet(ids: seq<Id>): set<Id> { set id | id in ids }

  function IdsOf(byTask: map<Id, set<Id>>, task: Id): set<Id> {
    if task in byTask then byTask[task] else {}
  }

  function AllEvents(c: Catalog): set<Id> {
    set task, id | task in c.eventsByTask && id in c.eventsByTask[task] :: id
  }

  /** All events a list of slices cites for one task, however many slices that task was spread over. */
  function CitedFor(slices: seq<Slice>, task: Id): set<Id> {
    if slices == [] then {}
    else
      var last := slices[|slices| - 1];
      CitedFor(slices[..|slices| - 1], task) + if last.taskId == task then ToSet(last.eventIds) else {}
  }

  function EvidenceOf(c: Candidate, section: Section): seq<Evidence> {
    match section
    case Correction => c.corrections
    case Pitfall => c.pitfalls
    case Recovery => c.recovery
    case StepOf => c.steps
  }

  // ----- what a published recipe must satisfy

  ghost predicate SliceSupported(s: Slice, catalog: Catalog) {
    && s.taskId in catalog.eventsByTask
    && (forall id | id in s.eventIds :: id in catalog.eventsByTask[s.taskId])
    && (forall id | id in s.turnIds :: s.taskId in catalog.turnsByTask && id in catalog.turnsByTask[s.taskId])
  }

  ghost predicate EvidenceSupported(lists: seq<Evidence>, catalog: Catalog) {
    forall i, id | 0 <= i < |lists| && id in lists[i] ::
      exists task :: task in catalog.eventsByTask && id in catalog.eventsByTask[task]
  }

  /** Every citation was gathered by this run, and the anchor task is cited with at least one event. */
  ghost predicate Supported(c: Candidate, anchor: Id, catalog: Catalog) {
    && (exists i :: 0 <= i < |c.slices| && c.slices[i].taskId == anchor && c.slices[i].eventIds != [])
    && (forall i | 0 <= i < |c.slices| :: SliceSupported(c.slices[i], catalog))
    && (forall section :: EvidenceSupported(EvidenceOf(c, section), catalog))
    && (forall rule | rule in c.governingRules :: rule in catalog.rules)
    && (c.revises.Some? ==> c.revises.value in catalog.recipeRevs)
  }

  ghost predicate Claims(c: Candidate, task: Id, turn: Id) {
    exists i :: 0 <= i < |c.slices| && c.slices[i].taskId == task && turn in c.slices[i].turnIds
  }

  ghost predicate NoTurnClaimedTwice(cs: seq<Candidate>) {
    forall i, j, task, turn | 0 <= i < j < |cs| :: !(Claims(cs[i], task, turn) && Claims(cs[j], task, turn))
  }

  ghost predicate Publishable(cs: seq<Candidate>, anchor: Id, catalog: Catalog, limit: nat) {
    && |cs| <= limit
    && (forall i | 0 <= i < |cs| :: Supported(cs[i], anchor, catalog))
    && NoTurnClaimedTwice(cs)
  }

  // ----- one candidate

  /** Exactly when each error is reported. */
  ghost predicate Applies(p: Problem, c: Candidate, anchor: Id, catalog: Catalog) {
    match p
    case MissingAnchor(task) => task == anchor && forall i | 0 <= i < |c.slices| :: c.slices[i].taskId != anchor
    case AnchorWithoutEvents =>
      && (exists i :: 0 <= i < |c.slices| && c.slices[i].taskId == anchor)
      && CitedFor(c.slices, anchor) == {}
    case NothingCited => forall i | 0 <= i < |c.slices| :: c.slices[i].eventIds == []
    case UnsupportedEvidence(section, n, ids) => EvidenceProblem(EvidenceOf(c, section), n, ids, catalog)
    case UnsupportedRules(ids) => ids != {} && ids == ToSet(c.governingRules) - catalog.rules
    case UnsupportedRevision(id) => c.revises == Some(id) && id !in catalog.recipeRevs
    case _ => exists i :: 0 <= i < |c.slices| && SliceProblem(p, c.slices[i], catalog)
  }

  ghost predicate EvidenceProblem(lists: seq<Evidence>, n: nat, ids: set<Id>, catalog: Catalog) {
    1 <= n <= |lists| && ids != {} && ids == ToSet(lists[n - 1]) - AllEvents(catalog)
  }

  ghost predicate SliceProblem(p: Problem, s: Slice, catalog: Catalog) {
    match p
    case UnsupportedTask(task) => s.taskId == task && task !in catalog.eventsByTask
    case UnsupportedTurns(task, ids) =>
      s.taskId == task && ids != {} && ids == ToSet(s.turnIds) - IdsOf(catalog.turnsByTask, task)
    case UnsupportedEvents(task, ids) =>
      s.taskId == task && ids != {} && ids == ToSet(s.eventIds) - IdsOf(catalog.eventsByTask, task)
    case _ => false
  }

  /** The union, per task, of what the slices cite. */
  method EventsBySliceTask(slices: seq<Slice>) returns (byTask: map<Id, set<Id>>)
    ensures forall task :: task in byTask <==> exists i :: 0 <= i < |slices| && slices[i].taskId == task
    ensures forall task | task in byTask :: byTask[task] == CitedFor(slices, task)
  {
    byTask := map[];
    for k := 0 to |slices|
      invariant forall task :: task in byTask <==> exists i :: 0 <= i < k && slices[i].taskId == task
      invariant forall task :: IdsOf(byTask, task) == CitedFor(slices[..k], task)
    {
      var item := slices[k];
      assert slices[..k + 1][..k] == slices[..k];
      byTask := byTask[item.taskId := IdsOf(byTask, item.taskId) + ToSet(item.eventIds)];
    }
    assert slices[..|slices|] == slices;
  }

  method SliceErrors(slices: seq<Slice>, catalog: Catalog) returns (errors: seq<Problem>, cited: set<Id>)
    ensures forall p :: p in errors <==> exists i :: 0 <= i < |slices| && SliceProblem(p, slices[i], catalog)
    ensures cited == {} <==> forall i | 0 <= i < |slices| :: slices[i].eventIds == []
  {
    errors, cited := [], {};
    for k := 0 to |slices|
      invariant forall p :: p in errors <==> exists i :: 0 <= i < k && SliceProblem(p, slices[i], catalog)
      invariant cited == {} <==> forall i | 0 <= i < k :: slices[i].eventIds == []
    {
      var found := ErrorsOfSlice(slices[k], catalog);
      errors := errors + found;
      if slices[k].eventIds != [] {
        assert slices[k].eventIds[0] in ToSet(slices[k].eventIds);
      }
      cited := cited + ToSet(slices[k].eventIds);
    }
  }

  method ErrorsOfSlice(item: Slice, catalog: Catalog) returns (errors: seq<Problem>)
    ensures forall p :: p in errors <==> SliceProblem(p, item, catalog)
  {
    errors := [];
    if item.taskId !in catalog.eventsByTask {
      errors := errors + [UnsupportedTask(item.taskId)];
    }
    var unknownTurns := ToSet(item.turnIds) - IdsOf(catalog.turnsByTask, item.taskId);
    if unknownTurns != {} {
      errors := errors + [UnsupportedTurns(item.taskId, unknownTurns)];
    }
    var unknown := ToSet(item.eventIds) - IdsOf(catalog.eventsByTask, item.taskId);
    if unknown != {} {
      errors := errors + [UnsupportedEvents(item.taskId, unknown)];
    }
  }

  /** Numbered from one; a claim without evidence reports nothing. */
  method EvidenceErrors(section: Section, lists: seq<Evidence>, catalog: Catalog) returns (errors: seq<Problem>)
    ensures forall p :: p in errors <==>
      p.UnsupportedEvidence? && p.section == section && EvidenceProblem(lists, p.number, p.ids, catalog)
  {
    errors := [];
    var known := AllEvents(catalog);
    for k := 0 to |lists|
      invariant forall p :: p in errors <==>
        p.UnsupportedEvidence? && p.section == section && p.number <= k && EvidenceProblem(lists, p.number, p.ids, catalog)
    {
      var unknown := ToSet(lists[k]) - known;
      if unknown != {} {
        errors := errors + [UnsupportedEvidence(section, k + 1, unknown)];
      }
    }
  }

  method AnchorErrors(c: Candidate, anchor: Id) returns (errors: seq<Problem>)
    ensures forall p, catalog :: p in errors <==> (p.MissingAnchor? || p.AnchorWithoutEvents?) && Applies(p, c, anchor, catalog)
  {
    var bySliceTask := EventsBySliceTask(c.slices);
    errors := [];
    if anchor !in bySliceTask {
      errors := errors + [MissingAnchor(anchor)];
    } else if bySliceTask[anchor] == {} {
      errors := errors + [AnchorWithoutEvents];
    }
  }

  method TextErrors(c: Candidate, catalog: Catalog) returns (errors: seq<Problem>)
    ensures forall p, anchor :: p in errors <==>
      p.UnsupportedEvidence? && p.section != StepOf && Applies(p, c, anchor, catalog)
  {
    var ofCorrections := EvidenceErrors(Correction, c.corrections, catalog);
    var ofPitfalls := EvidenceErrors(Pitfall, c.pitfalls, catalog);
    var ofRecovery := EvidenceErrors(Recovery, c.recovery, catalog);
    errors := ofCorrections + ofPitfalls + ofRecovery;
  }

  method SourceErrors(c: Candidate, catalog: Catalog) returns (errors: seq<Problem>)
    ensures forall p, anchor :: p in errors <==>
      (p.UnsupportedRules? || p.UnsupportedRevision?) && Applies(p, c, anchor, catalog)
  {
    errors := [];
    var unknownRules := ToSet(c.governingRules) - catalog.rules;
    if unknownRules != {} {
      errors := errors + [UnsupportedRules(unknownRules)];
    }
    if c.revises.Some? && c.revises.value !in catalog.recipeRevs {
      errors := errors + [UnsupportedRevision(c.revises.value)];
    }
  }

  method ValidateRecipeCandidate(c: Candidate, anchor: Id, catalog: Catalog) returns (errors: seq<Problem>)
    ensures forall p :: p in errors <==> Applies(p, c, anchor, catalog)
  {
    var ofAnchor := AnchorErrors(c, anchor);
    var ofSlices, cited := SliceErrors(c.slices, catalog);
    if cited == {} {
      ofSlices := ofSlices + [NothingCited];
    }
    var ofTexts := TextErrors(c, catalog);
    var ofSources := SourceErrors(c, catalog);
    var ofSteps := EvidenceErrors(StepOf, c.steps, catalog);
    errors := ofAnchor + ofSlices + ofTexts + ofSources + ofSteps;
  }

  // ----- soundness and completeness of one candidate's errors

  lemma {:induction false} CitedMembers(slices: seq<Slice>, task: Id, id: Id)
    ensures id in CitedFor(slices, task) <==> exists i :: 0 <= i < |slices| && slices[i].taskId == task && id in slices[i].eventIds
  {
    if slices != [] {
      var n := |slices| - 1;
      CitedMembers(slices[..n], task, id);
      if i :| 0 <= i < |slices| && slices[i].taskId == task && id in slices[i].eventIds {
        assert i == n || slices[..n][i] == slices[i];
      }
    }
  }

  lemma SomethingLeft(ids: seq<Id>, known: set<Id>)
    ensures ToSet(ids) - known == {} <==> forall id | id in ids :: id in known
  {
    if ToSet(ids) - known == {} {
      forall id | id in ids ensures id in known {
        assert id !in ToSet(ids) - known;
      }
    }
  }

  lemma SlicesSound(c: Candidate, anchor: Id, catalog: Catalog)
    requires forall p :: !Applies(p, c, anchor, catalog)
    ensures forall i | 0 <= i < |c.slices| :: SliceSupported(c.slices[i], catalog)
  {
    forall i | 0 <= i < |c.slices| ensures SliceSupported(c.slices[i], catalog) {
      var s := c.slices[i];
      var turns, events := ToSet(s.turnIds) - IdsOf(catalog.turnsByTask, s.taskId), ToSet(s.eventIds) - IdsOf(catalog.eventsByTask, s.taskId);
      assert !Applies(UnsupportedTask(s.taskId), c, anchor, catalog);
      assert !SliceProblem(UnsupportedTask(s.taskId), s, catalog);
      assert !Applies(UnsupportedTurns(s.taskId, turns), c, anchor, catalog);
      assert !SliceProblem(UnsupportedTurns(s.taskId, turns), s, catalog);
      assert !Applies(UnsupportedEvents(s.taskId, events), c, anchor, catalog);
      assert !SliceProblem(UnsupportedEvents(s.taskId, events), s, catalog);
      SomethingLeft(s.turnIds, IdsOf(catalog.turnsByTask, s.taskId));
      SomethingLeft(s.eventIds, IdsOf(catalog.eventsByTask, s.taskId));
    }
  }

  lemma AnchorSound(c: Candidate, anchor: Id, catalog: Catalog)
    requires forall p :: !Applies(p, c, anchor, catalog)
    ensures exists i :: 0 <= i < |c.slices| && c.slices[i].taskId == anchor && c.slices[i].eventIds != []
  {
    assert !Applies(MissingAnchor(anchor), c, anchor, catalog);
    assert !Applies(AnchorWithoutEvents, c, anchor, catalog);
    var id :| id in CitedFor(c.slices, anchor);
    CitedMembers(c.slices, anchor, id);
  }

  lemma EvidenceSound(c: Candidate, anchor: Id, catalog: Catalog, section: Section)
    requires forall p :: !Applies(p, c, anchor, catalog)
    ensures EvidenceSupported(EvidenceOf(c, section), catalog)
  {
    var lists := EvidenceOf(c, section);
    forall i, id | 0 <= i < |lists| && id in lists[i]
      ensures exists task :: task in catalog.eventsByTask && id in catalog.eventsByTask[task]
    {
      var unknown := ToSet(lists[i]) - AllEvents(catalog);
      assert !Applies(UnsupportedEvidence(section, i + 1, unknown), c, anchor, catalog);
      SomethingLeft(lists[i], AllEvents(catalog));
    }
  }

  lemma Complete(c: Candidate, anchor: Id, catalog: Catalog, p: Problem)
    requires Supported(c, anchor, catalog)
    ensures !Applies(p, c, anchor, catalog)
  {
    match p {
      case MissingAnchor(_) =>
      case AnchorWithoutEvents =>
        var i :| 0 <= i < |c.slices| && c.slices[i].taskId == anchor && c.slices[i].eventIds != [];
        CitedMembers(c.slices, anchor, c.slices[i].eventIds[0]);
      case NothingCited =>
      case UnsupportedEvidence(section, n, ids) =>
        var lists := EvidenceOf(c, section);
        assert EvidenceSupported(lists, catalog);
        if 1 <= n <= |lists| {
          SomethingLeft(lists[n - 1], AllEvents(catalog));
        }
      case UnsupportedRules(ids) => SomethingLeft(c.governingRules, catalog.rules);
      case UnsupportedRevision(_) =>
      case _ =>
        forall i | 0 <= i < |c.slices| ensures !SliceProblem(p, c.slices[i], catalog) {
          var s := c.slices[i];
          assert SliceSupported(s, catalog);
          SomethingLeft(s.turnIds, IdsOf(catalog.turnsByTask, s.taskId));
          SomethingLeft(s.eventIds, IdsOf(catalog.eventsByTask, s.taskId));
        }
    }
  }

  /** A candidate is reported clean exactly when everything it cites is supported. */
  lemma CleanIffSupported(c: Candidate, anchor: Id, catalog: Catalog)
    ensures (forall p :: !Applies(p, c, anchor, catalog)) <==> Supported(c, anchor, catalog)
  {
    if forall p :: !Applies(p, c, anchor, catalog) {
      SlicesSound(c, anchor, catalog);
      AnchorSound(c, anchor, catalog);
      forall section ensures EvidenceSupported(EvidenceOf(c, section), catalog) {
        EvidenceSound(c, anchor, catalog, section);
      }
      var rules := ToSet(c.governingRules) - catalog.rules;
      assert !Applies(UnsupportedRules(rules), c, anchor, catalog);
      SomethingLeft(c.governingRules, catalog.rules);
      if c.revises.Some? {
        assert !Applies(UnsupportedRevision(c.revises.value), c, anchor, catalog);
      }
    }
    if Supported(c, anchor, catalog) {
      forall p ensures !Applies(p, c, anchor, catalog) {
        Complete(c, anchor, catalog, p);
      }
    }
  }

  // ----- turns claimed by two recipes

  /** One turn claimed by the recipe with this number, in reading order. */
  datatype Claim = Claim(number: nat, task: Id, turn: Id)

  function SliceClaims(number: nat, s: Slice): (r: seq<Claim>)
    ensures |r| == |s.turnIds| && forall i | 0 <= i < |r| :: r[i] == Claim(number, s.taskId, s.turnIds[i])
  {
    seq(|s.turnIds|, i requires 0 <= i < |s.turnIds| => Claim(number, s.taskId, s.turnIds[i]))
  }

  function SlicesClaims(number: nat, slices: seq<Slice>): seq<Claim> {
    if slices == [] then []
    else SlicesClaims(number, slices[..|slices| - 1]) + SliceClaims(number, slices[|slices| - 1])
  }

  function AllClaims(cs: seq<Candidate>): seq<Claim> {
    if cs == [] then [] else AllClaims(cs[..|cs| - 1]) + SlicesClaims(|cs|, cs[|cs| - 1].slices)
  }

  /** The recipe that claimed this turn first. */
  function Owner(claims: seq<Claim>, task: Id, turn: Id): Option<nat> {
    if claims == [] then None
    else if claims[0].task == task && claims[0].turn == turn then Some(claims[0].number)
    else Owner(claims[1..], task, turn)
  }

  function ClaimErrors(claims: seq<Claim>): seq<Problem> {
    if claims == [] then []
    else
      var n := |claims| - 1;
      var c := claims[n];
      var owner := Owner(claims, c.task, c.turn);
      ClaimErrors(claims[..n]) +
        if owner.Some? && owner.value != c.number then [TurnClaimedTwice(c.number, c.turn, owner.value)] else []
  }

  lemma {:induction false} OwnerAppend(claims: seq<Claim>, c: Claim, task: Id, turn: Id)
    ensures Owner(claims + [c], task, turn)
         == if Owner(claims, task, turn).Some? then Owner(claims, task, turn)
            else if c.task == task && c.turn == turn then Some(c.number) else None
  {
    if claims == [] {
      assert (claims + [c])[1..] == [];
    } else {
      OwnerAppend(claims[1..], c, task, turn);
      assert (claims + [c])[1..] == claims[1..] + [c];
    }
  }

  /** `claimed` remembers the first owner of every turn read so far. */
  ghost predicate Remembers(claimed: map<(Id, Id), nat>, claims: seq<Claim>) {
    forall task, turn :: Owner(claims, task, turn) == if (task, turn) in claimed then Some(claimed[(task, turn)]) else None
  }

  lemma RemembersOne(claimed: map<(Id, Id), nat>, claims: seq<Claim>, c: Claim)
    requires Remembers(claimed, claims)
    ensures Remembers(if (c.task, c.turn) in claimed then claimed else claimed[(c.task, c.turn) := c.number], claims + [c])
  {
    forall task, turn {
      OwnerAppend(claims, c, task, turn);
    }
  }

  lemma ErrorsAppend(claims: seq<Claim>, c: Claim, claimed: map<(Id, Id), nat>)
    requires Remembers(claimed, claims + [c]) && (c.task, c.turn) in claimed
    ensures ClaimErrors(claims + [c]) == ClaimErrors(claims) +
      if claimed[(c.task, c.turn)] != c.number then [TurnClaimedTwice(c.number, c.turn, claimed[(c.task, c.turn)])] else []
  {
  }

  /** One turn of one recipe: `setdefault` keeps the first owner, a different number is an error. */
  method ClaimTurn(c: Claim, claimed: map<(Id, Id), nat>, errors: seq<Problem>, ghost claims: seq<Claim>)
    returns (claimed': map<(Id, Id), nat>, errors': seq<Problem>)
    requires Remembers(claimed, claims) && errors == ClaimErrors(claims)
    ensures Remembers(claimed', claims + [c]) && errors' == ClaimErrors(claims + [c])
  {
    claimed', errors' := claimed, errors;
    RemembersOne(claimed, claims, c);
    if (c.task, c.turn) !in claimed' {
      claimed' := claimed'[(c.task, c.turn) := c.number];
    }
    hide Remembers;
    ErrorsAppend(claims, c, claimed');
    var owner := claimed'[(c.task, c.turn)];
    if owner != c.number {
      errors' := errors' + [TurnClaimedTwice(c.number, c.turn, owner)];
    }
  }

  method ClaimSlice(number: nat, s: Slice, claimed: map<(Id, Id), nat>, errors: seq<Problem>, ghost claims: seq<Claim>)
    returns (claimed': map<(Id, Id), nat>, errors': seq<Problem>)
    requires Remembers(claimed, claims) && errors == ClaimErrors(claims)
    ensures Remembers(claimed', claims + SliceClaims(number, s))
    ensures errors' == ClaimErrors(claims + SliceClaims(number, s))
  {
    hide Remembers, ClaimErrors;
    claimed', errors' := claimed, errors;
    ghost var all := SliceClaims(number, s);
    assert claims + all[..0] == claims;
    for k := 0 to |s.turnIds|
      invariant Remembers(claimed', claims + all[..k])
      invariant errors' == ClaimErrors(claims + all[..k])
    {
      assert claims + all[..k + 1] == claims + all[..k] + [all[k]];
      claimed', errors' := ClaimTurn(Claim(number, s.taskId, s.turnIds[k]), claimed', errors', claims + all[..k]);
    }
    assert all[..|all|] == all;
  }

  method ClaimRecipe(number: nat, slices: seq<Slice>, claimed: map<(Id, Id), nat>, errors: seq<Problem>, ghost claims: seq<Claim>)
    returns (claimed': map<(Id, Id), nat>, errors': seq<Problem>)
    requires Remembers(claimed, claims) && errors == ClaimErrors(claims)
    ensures Remembers(claimed', claims + SlicesClaims(number, slices))
    ensures errors' == ClaimErrors(claims + SlicesClaims(number, slices))
  {
    hide Remembers, ClaimErrors;
    claimed', errors' := claimed, errors;
    assert claims + [] == claims;
    for j := 0 to |slices|
      invariant Remembers(claimed', claims + SlicesClaims(number, slices[..j]))
      invariant errors' == ClaimErrors(claims + SlicesClaims(number, slices[..j]))
    {
      ghost var sofar := claims + SlicesClaims(number, slices[..j]);
      assert slices[..j + 1][..j] == slices[..j];
      assert claims + SlicesClaims(number, slices[..j + 1]) == sofar + SliceClaims(number, slices[j]);
      claimed', errors' := ClaimSlice(number, slices[j], claimed', errors', sofar);
    }
    assert slices[..|slices|] == slices;
  }

  method DuplicateTurnErrors(cs: seq<Candidate>) returns (errors: seq<Problem>)
    ensures errors == ClaimErrors(AllClaims(cs))
  {
    var claimed: map<(Id, Id), nat> := map[];
    errors := [];
    for k := 0 to |cs|
      invariant Remembers(claimed, AllClaims(cs[..k]))
      invariant errors == ClaimErrors(AllClaims(cs[..k]))
    {
      assert cs[..k + 1][..k] == cs[..k];
      claimed, errors := ClaimRecipe(k + 1, cs[k].slices, claimed, errors, AllClaims(cs[..k]));
    }
    assert cs[..|cs|] == cs;
  }

  lemma {:induction false} OwnerIsFirst(claims: seq<Claim>, k: nat)
    requires k < |claims|
    ensures Owner(claims, claims[k].task, claims[k].turn).Some?
    ensures exists i | 0 <= i <= k :: claims[i] == Claim(Owner(claims, claims[k].task, claims[k].turn).value, claims[k].task, claims[k].turn)
  {
    var c := claims[k];
    if claims[0].task == c.task && claims[0].turn == c.turn {
      assert claims[0] == Claim(claims[0].number, c.task, c.turn);
    } else {
      OwnerIsFirst(claims[1..], k - 1);
      var i :| 0 <= i <= k - 1 && claims[1..][i] == Claim(Owner(claims, c.task, c.turn).value, c.task, c.turn);
      assert claims[i + 1] == claims[1..][i];
    }
  }

  /** Two claims of one turn by different recipes. */
  ghost predicate Clash(claims: seq<Claim>, i: nat, j: nat) {
    i < |claims| && j < |claims|
    && claims[i].task == claims[j].task && claims[i].turn == claims[j].turn && claims[i].number != claims[j].number
  }

  ghost predicate Clashless(claims: seq<Claim>) {
    forall i: nat, j: nat :: !Clash(claims, i, j)
  }

  lemma {:induction false} ErrorsIffClash(claims: seq<Claim>)
    ensures ClaimErrors(claims) == [] <==> Clashless(claims)
  {
    if claims != [] {
      var n := |claims| - 1;
      var front, c := claims[..n], claims[n];
      ErrorsIffClash(front);
      OwnerIsFirst(claims, n);
      var first :| 0 <= first <= n && claims[first] == Claim(Owner(claims, c.task, c.turn).value, c.task, c.turn);
      if ClaimErrors(claims) != [] {
        if ClaimErrors(front) != [] {
          var i, j :| Clash(front, i, j);
          assert Clash(claims, i, j);
        } else {
          assert Clash(claims, first, n);
        }
      } else {
        StaysClashless(claims);
      }
    }
  }

  lemma StaysClashless(claims: seq<Claim>)
    requires claims != [] && ClaimErrors(claims) == [] && Clashless(claims[..|claims| - 1])
    ensures Clashless(claims)
  {
    hide ClaimErrors;
    var n := |claims| - 1;
    forall i: nat, j: nat ensures !Clash(claims, i, j) {
      assert i < n && j < n && Clash(claims, i, j) ==> Clash(claims[..n], i, j);
      if i < n && j == n {
        NoClashWithLast(claims, i);
      } else if i == n && j < n {
        NoClashWithLast(claims, j);
      }
    }
  }

  lemma LastIsOwner(claims: seq<Claim>)
    requires claims != [] && ClaimErrors(claims) == []
    ensures var c := claims[|claims| - 1]; Owner(claims, c.task, c.turn).Some? ==> Owner(claims, c.task, c.turn).value == c.number
  {
    hide Owner;
  }

  lemma NoClashWithLast(claims: seq<Claim>, other: nat)
    requires claims != [] && other < |claims| - 1
    requires ClaimErrors(claims) == [] && Clashless(claims[..|claims| - 1])
    ensures !Clash(claims, other, |claims| - 1)
  {
    hide ClaimErrors, Owner, Clashless;
    LastIsOwner(claims);
    var n := |claims| - 1;
    var c := claims[n];
    if claims[other].task == c.task && claims[other].turn == c.turn {
      var first := FirstOwner(claims, other);
      NoClashThere(claims[..n], other, first);
    }
  }

  lemma FirstOwner(claims: seq<Claim>, k: nat) returns (first: nat)
    requires k < |claims|
    ensures first <= k && Owner(claims, claims[k].task, claims[k].turn) == Some(claims[first].number)
    ensures claims[first].task == claims[k].task && claims[first].turn == claims[k].turn
  {
    hide Owner;
    OwnerIsFirst(claims, k);
    first :| 0 <= first <= k && claims[first] == Claim(Owner(claims, claims[k].task, claims[k].turn).value, claims[k].task, claims[k].turn);
  }

  lemma NoClashThere(claims: seq<Claim>, i: nat, j: nat)
    requires Clashless(claims) && i < |claims| && j < |claims|
    ensures claims[i].task == claims[j].task && claims[i].turn == claims[j].turn ==> claims[i].number == claims[j].number
  {
    assert !Clash(claims, i, j);
  }

  lemma {:induction false} SliceClaimed(number: nat, slices: seq<Slice>, c: Claim)
    ensures c in SlicesClaims(number, slices) <==>
      c.number == number && exists i :: 0 <= i < |slices| && slices[i].taskId == c.task && c.turn in slices[i].turnIds
  {
    if slices != [] {
      var n := |slices| - 1;
      SliceClaimed(number, slices[..n], c);
      var last := SliceClaims(number, slices[n]);
      if c in last {
        var k :| 0 <= k < |last| && last[k] == c;
      }
      if i :| 0 <= i < |slices| && slices[i].taskId == c.task && c.turn in slices[i].turnIds {
        if i == n {
          var k :| 0 <= k < |slices[n].turnIds| && slices[n].turnIds[k] == c.turn;
          assert last[k] == Claim(number, c.task, c.turn);
        } else {
          assert slices[..n][i] == slices[i];
        }
      }
    }
  }

  lemma {:induction false} Claimed(cs: seq<Candidate>, c: Claim)
    ensures c in AllClaims(cs) <==> 1 <= c.number <= |cs| && Claims(cs[c.number - 1], c.task, c.turn)
  {
    if cs != [] {
      var n := |cs| - 1;
      Claimed(cs[..n], c);
      SliceClaimed(|cs|, cs[n].slices, c);
    }
  }

  lemma ClaimedAt(cs: seq<Candidate>, i: nat, task: Id, turn: Id)
    requires i < |cs| && Claims(cs[i], task, turn)
    ensures Claim(i + 1, task, turn) in AllClaims(cs)
  {
    hide AllClaims, Claims;
    Claimed(cs, Claim(i + 1, task, turn));
  }

  lemma SharedTurnClashes(cs: seq<Candidate>, i: nat, j: nat, task: Id, turn: Id)
    requires i < j < |cs| && Claims(cs[i], task, turn) && Claims(cs[j], task, turn)
    ensures !Clashless(AllClaims(cs))
  {
    hide AllClaims, Claims, Clashless, Clash;
    ClaimedAt(cs, i, task, turn);
    ClaimedAt(cs, j, task, turn);
    ClashFrom(AllClaims(cs), Claim(i + 1, task, turn), Claim(j + 1, task, turn));
  }

  lemma ClashSharesTurn(cs: seq<Candidate>, i: nat, j: nat)
    requires Clash(AllClaims(cs), i, j)
    ensures !NoTurnClaimedTwice(cs)
  {
    var a, b := AllClaims(cs)[i], AllClaims(cs)[j];
    Claimed(cs, a);
    Claimed(cs, b);
    SharedTurn(cs, a.number - 1, b.number - 1, a.task, a.turn);
  }

  ghost predicate Rising(claims: seq<Claim>) {
    forall i, j | 0 <= i < j < |claims| :: claims[i].number <= claims[j].number
  }

  lemma {:induction false} ClaimsRise(cs: seq<Candidate>)
    ensures Rising(AllClaims(cs)) && forall k | 0 <= k < |AllClaims(cs)| :: AllClaims(cs)[k].number <= |cs|
  {
    if cs != [] {
      var n := |cs| - 1;
      ClaimsRise(cs[..n]);
      NumbersOfSlices(|cs|, cs[n].slices);
    }
  }

  lemma {:induction false} NumbersOfSlices(number: nat, slices: seq<Slice>)
    ensures forall k | 0 <= k < |SlicesClaims(number, slices)| :: SlicesClaims(number, slices)[k].number == number
  {
    if slices != [] {
      NumbersOfSlices(number, slices[..|slices| - 1]);
    }
  }

  /** The first claim of a turn has the least number that claims it. */
  lemma {:induction false} OwnerIsLeast(claims: seq<Claim>, task: Id, turn: Id)
    requires Rising(claims)
    ensures match Owner(claims, task, turn)
      case Some(first) => Claim(first, task, turn) in claims && forall m: nat | Claim(m, task, turn) in claims :: first <= m
      case None => forall m: nat :: Claim(m, task, turn) !in claims
  {
    if claims != [] {
      OwnerIsLeast(claims[1..], task, turn);
      assert claims == [claims[0]] + claims[1..];
    }
  }

  ghost predicate LaterClaim(claims: seq<Claim>, task: Id, turn: Id, number: nat, first: nat) {
    && Claim(number, task, turn) in claims && Claim(first, task, turn) in claims && first < number
    && forall m: nat | Claim(m, task, turn) in claims :: first <= m
  }

  ghost predicate ReportedAt(claims: seq<Claim>, k: nat, p: Problem) {
    k < |claims| && var owner := Owner(claims, claims[k].task, claims[k].turn);
      owner.Some? && owner.value != claims[k].number && p == TurnClaimedTwice(claims[k].number, claims[k].turn, owner.value)
  }

  lemma {:induction false} ReportedSomewhere(claims: seq<Claim>, p: Problem)
    ensures p in ClaimErrors(claims) <==> exists k: nat :: ReportedAt(claims, k, p)
  {
    hide Owner;
    if claims != [] {
      var n := |claims| - 1;
      ReportedSomewhere(claims[..n], p);
      forall k: nat | k < n ensures ReportedAt(claims, k, p) <==> ReportedAt(claims[..n], k, p) {
        OwnerIsFirst(claims[..n], k);
        OwnerAppend(claims[..n], claims[n], claims[k].task, claims[k].turn);
        assert claims == claims[..n] + [claims[n]];
      }
      assert p in ClaimErrors(claims) <==> p in ClaimErrors(claims[..n]) || ReportedAt(claims, n, p);
    }
  }

  lemma LaterIsReported(claims: seq<Claim>, task: Id, turn: Id, number: nat, first: nat)
    requires Rising(claims)
    ensures LaterClaim(claims, task, turn, number, first) <==>
      Claim(number, task, turn) in claims && Owner(claims, task, turn) == Some(first) && first != number
  {
    hide Owner, Rising;
    OwnerIsLeast(claims, task, turn);
  }

  /** A turn is reported for a recipe exactly if that recipe claims it after another did, with the first of those that claim it. */
  lemma DuplicatesMean(cs: seq<Candidate>, number: nat, turn: Id, first: nat)
    ensures TurnClaimedTwice(number, turn, first) in ClaimErrors(AllClaims(cs)) <==>
      1 <= first < number <= |cs| && exists task :: FirstTo(cs, task, turn, first, number)
  {
    hide ClaimErrors, AllClaims, Owner, Rising, FirstTo;
    var claims, p := AllClaims(cs), TurnClaimedTwice(number, turn, first);
    ClaimsRise(cs);
    ReportedSomewhere(claims, p);
    forall task ensures LaterClaim(claims, task, turn, number, first) <==> FirstTo(cs, task, turn, first, number)
      ensures FirstTo(cs, task, turn, first, number) ==> 1 <= first < number <= |cs|
    {
      LaterMeans(cs, task, turn, number, first);
    }
    if k: nat :| ReportedAt(claims, k, p) {
      LaterIsReported(claims, claims[k].task, turn, number, first);
      assert FirstTo(cs, claims[k].task, turn, first, number);
    }
    if task :| FirstTo(cs, task, turn, first, number) {
      LaterIsReported(claims, task, turn, number, first);
      var k :| 0 <= k < |claims| && claims[k] == Claim(number, task, turn);
      assert ReportedAt(claims, k, p);
    }
  }

  ghost predicate FirstTo(cs: seq<Candidate>, task: Id, turn: Id, first: nat, later: nat) {
    && 1 <= first < later <= |cs| && Claims(cs[first - 1], task, turn) && Claims(cs[later - 1], task, turn)
    && forall k | 0 <= k < first - 1 :: !Claims(cs[k], task, turn)
  }

  lemma LaterMeans(cs: seq<Candidate>, task: Id, turn: Id, number: nat, first: nat)
    ensures LaterClaim(AllClaims(cs), task, turn, number, first) <==> FirstTo(cs, task, turn, first, number)
    ensures FirstTo(cs, task, turn, first, number) ==> 1 <= first < number <= |cs|
  {
    hide AllClaims, Claims;
    forall m: nat ensures Claim(m, task, turn) in AllClaims(cs) <==> 1 <= m <= |cs| && Claims(cs[m - 1], task, turn) {
      Claimed(cs, Claim(m, task, turn));
    }
    if LaterClaim(AllClaims(cs), task, turn, number, first) {
      forall k | 0 <= k < first - 1 ensures !Claims(cs[k], task, turn) {
        assert Claim(k + 1, task, turn) in AllClaims(cs) ==> first <= k + 1;
      }
    }
  }

  /** The duplicate report is empty exactly when no turn is claimed by two recipes. */
  lemma DuplicatesIff(cs: seq<Candidate>)
    ensures ClaimErrors(AllClaims(cs)) == [] <==> NoTurnClaimedTwice(cs)
  {
    hide ClaimErrors, AllClaims, Claims, Clash;
    ErrorsIffClash(AllClaims(cs));
    forall i, j, task, turn | 0 <= i < j < |cs| && Claims(cs[i], task, turn) && Claims(cs[j], task, turn)
      ensures !Clashless(AllClaims(cs))
    {
      SharedTurnClashes(cs, i, j, task, turn);
    }
    forall i: nat, j: nat | Clash(AllClaims(cs), i, j)
      ensures !NoTurnClaimedTwice(cs)
    {
      ClashSharesTurn(cs, i, j);
    }
  }

  lemma ClashFrom(claims: seq<Claim>, a: Claim, b: Claim)
    requires a in claims && b in claims && a.task == b.task && a.turn == b.turn && a.number != b.number
    ensures !Clashless(claims)
  {
    var x :| 0 <= x < |claims| && claims[x] == a;
    var y :| 0 <= y < |claims| && claims[y] == b;
    assert Clash(claims, x, y);
  }

  lemma SharedTurn(cs: seq<Candidate>, x: nat, y: nat, task: Id, turn: Id)
    requires x < |cs| && y < |cs| && x != y && Claims(cs[x], task, turn) && Claims(cs[y], task, turn)
    ensures !NoTurnClaimedTwice(cs)
  {
  }

  // ----- a whole draft

  method ValidateRecipeCandidates(cs: seq<Candidate>, anchor: Id, catalog: Catalog, limit: nat) returns (errors: seq<Problem>)
    ensures errors == [] <==> cs == [] || Publishable(cs, anchor, catalog, limit)
    ensures |cs| > limit && cs != [] ==> errors == [TooManyCandidates]
    ensures |cs| <= limit ==> forall n: nat, p :: InRecipe(n, p) in errors <==> 1 <= n <= |cs| && Applies(p, cs[n - 1], anchor, catalog)
    ensures |cs| <= limit ==> forall p: Problem | !p.InRecipe? :: p in errors <==> p in ClaimErrors(AllClaims(cs))
  {
    if cs == [] {
      return [];
    }
    if |cs| > limit {
      return [TooManyCandidates];
    }
    errors := [];
    for k := 0 to |cs|
      invariant forall p | p in errors :: p.InRecipe?
      invariant forall n: nat, p :: InRecipe(n, p) in errors <==> 1 <= n <= k && Applies(p, cs[n - 1], anchor, catalog)
    {
      var found := ValidateRecipeCandidate(cs[k], anchor, catalog);
      var numbered := Numbered(k + 1, found);
      errors := errors + numbered;
    }
    ghost var own := errors;
    var duplicates := DuplicateTurnErrors(cs);
    OnlyDuplicates(AllClaims(cs));
    errors := errors + duplicates;
    forall i | 0 <= i < |cs| {
      CleanIffSupported(cs[i], anchor, catalog);
    }
    DuplicatesIff(cs);
    CleanDraft(cs, anchor, catalog, own);
  }

  function Numbered(n: nat, problems: seq<Problem>): (r: seq<Problem>)
    ensures forall p :: p in r <==> p.InRecipe? && p.number == n && p.problem in problems
  {
    var r := seq(|problems|, i requires 0 <= i < |problems| => InRecipe(n, problems[i]));
    assert forall p | p in problems :: InRecipe(n, p) in r by {
      forall p | p in problems ensures InRecipe(n, p) in r {
        var i :| 0 <= i < |problems| && problems[i] == p;
        assert r[i] == InRecipe(n, p);
      }
    }
    r
  }

  lemma {:induction false} OnlyDuplicates(claims: seq<Claim>)
    ensures forall p | p in ClaimErrors(claims) :: p.TurnClaimedTwice?
  {
    if claims != [] {
      OnlyDuplicates(claims[..|claims| - 1]);
    }
  }

  lemma CleanDraft(cs: seq<Candidate>, anchor: Id, catalog: Catalog, own: seq<Problem>)
    requires forall p | p in own :: p.InRecipe?
    requires forall n: nat, p :: InRecipe(n, p) in own <==> 1 <= n <= |cs| && Applies(p, cs[n - 1], anchor, catalog)
    ensures own == [] <==> forall i | 0 <= i < |cs| :: Supported(cs[i], anchor, catalog)
  {
    if own == [] {
      forall i | 0 <= i < |cs| ensures Supported(cs[i], anchor, catalog) {
        forall p ensures !Applies(p, cs[i], anchor, catalog) {
          assert InRecipe(i + 1, p) !in own;
        }
        CleanIffSupported(cs[i], anchor, catalog);
      }
    } else {
      var p := own[0];
      assert p in own;
      CleanIffSupported(cs[p.number - 1], anchor, catalog);
    }
  }

  // ----- catalogs gathered in parallel

  function UnionByTask(left: map<Id, set<Id>>, right: map<Id, set<Id>>): map<Id, set<Id>> {
    map task | task in left.Keys + right.Keys :: IdsOf(left, task) + IdsOf(right, task)
  }

  function MergedProvenance(left: Catalog, right: Catalog): Catalog {
    Catalog(
      UnionByTask(left.eventsByTask, right.eventsByTask),
      UnionByTask(left.turnsByTask, right.turnsByTask),
      left.rules + right.rules,
      left.recipeRevs + right.recipeRevs)
  }

  /** One thing a catalog can say: a task was read, or an event or a turn of it, or a rule or a recipe was. */
  datatype Fact = TaskRead(task: Id) | EventRead(task: Id, id: Id) | TurnsRead(task: Id) | TurnRead(task: Id, id: Id) | RuleRead(id: Id) | RecipeRead(id: Id)

  predicate Holds(c: Catalog, f: Fact) {
    match f
    case TaskRead(task) => task in c.eventsByTask
    case EventRead(task, id) => task in c.eventsByTask && id in c.eventsByTask[task]
    case TurnsRead(task) => task in c.turnsByTask
    case TurnRead(task, id) => task in c.turnsByTask && id in c.turnsByTask[task]
    case RuleRead(id) => id in c.rules
    case RecipeRead(id) => id in c.recipeRevs
  }

  /** The merged catalog holds what either side held and nothing else; of two versions of a recipe it keeps the later side's. */
  lemma MergeHoldsBoth(left: Catalog, right: Catalog, f: Fact)
    ensures Holds(MergedProvenance(left, right), f) <==> Holds(left, f) || Holds(right, f)
    ensures forall id | id in MergedProvenance(left, right).recipeRevs ::
      MergedProvenance(left, right).recipeRevs[id] == if id in right.recipeRevs then right.recipeRevs[id] else left.recipeRevs[id]
  {
  }

  /** Evidence gathered later never takes support away. */
  lemma MergeKeepsSupport(c: Candidate, anchor: Id, left: Catalog, right: Catalog)
    requires Supported(c, anchor, left) || Supported(c, anchor, right)
    ensures Supported(c, anchor, MergedProvenance(left, right))
  {
    var merged := MergedProvenance(left, right);
    var base := if Supported(c, anchor, left) then left else right;
    forall section ensures EvidenceSupported(EvidenceOf(c, section), merged) {
      assert EvidenceSupported(EvidenceOf(c, section), base);
      var lists := EvidenceOf(c, section);
      forall i, id | 0 <= i < |lists| && id in lists[i]
        ensures exists task :: task in merged.eventsByTask && id in merged.eventsByTask[task]
      {
        var task :| task in base.eventsByTask && id in base.eventsByTask[task];
        assert task in merged.eventsByTask && id in merged.eventsByTask[task];
      }
    }
    forall i | 0 <= i < |c.slices| ensures SliceSupported(c.slices[i], merged) {
      assert SliceSupported(c.slices[i], base);
    }
  }
}
