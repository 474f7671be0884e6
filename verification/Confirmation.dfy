/** One tool call waiting for its user's word: any number of approvals and rejections of it, interleaved statement by statement. */
module Confirmation {
  import opened Wrappers

  datatype Status = Pending | Approved | Rejected

  datatype Decision = Approve | Reject

  /** Why a request ends without an answer. */
  datatype Refusal = NotFound | AlreadyResolved | UpstreamFailed | NotRecorded

  /** Where a request is between its statements. `Holding`, `Calling`, `Reopening` and `Answered` own the claim. */
  datatype Stage =
    | Arrived(threadId: string)
    | Read
    | Holding
    | Calling
    | Reopening
    | Answered(content: string)
    | Done(answer: string)
    | Raised(refusal: Refusal)
    | Dead

  datatype Request = Request(decision: Decision, stage: Stage)

  /** The row's thread and tool; they never change. */
  datatype Config = Config(threadId: string, toolName: string)

  /** The row, the requests, and what has happened: calls started, calls that returned, effects upstream and
      those whose answer was lost, tool messages, follow-up turns. */
  datatype World = World(status: Status, requests: map<nat, Request>,
    started: nat, returned: nat, effects: nat, lost: nat, messages: seq<string>, followUps: nat)

  datatype Event =
    | Arrives(r: nat, decision: Decision, threadId: string)
    | Reads(r: nat)
    | Resolves(r: nat)
    | Starts(r: nat)
    | Returns(r: nat, result: string)
    | Fails(r: nat, acted: bool)
    | Reopens(r: nat, took: bool)
    | Records(r: nat, committed: bool, queued: bool)
    | Dies(r: nat, acted: bool)

  function RejectionNote(toolName: string): string {
    "User rejected the proposed " + toolName + ". It was not executed."
  }

  function Moved(w: World, r: nat, stage: Stage): World
    requires r in w.requests
  {
    w.(requests := w.requests[r := w.requests[r].(stage := stage)])
  }

  predicate Possible(w: World, e: Event) {
    if e.Arrives? then e.r !in w.requests
    else
      e.r in w.requests &&
      var request := w.requests[e.r];
      match e
      case Reads(_) => request.stage.Arrived?
      case Resolves(_) => request.stage.Read?
      case Starts(_) => request.stage.Holding? && request.decision.Approve?
      case Returns(_, _) => request.stage.Calling?
      case Fails(_, _) => request.stage.Calling?
      case Reopens(_, _) => request.stage.Reopening?
      case Records(_, _, _) => request.stage.Answered? || (request.stage.Holding? && request.decision.Reject?)
      case Dies(_, acted) => acted ==> request.stage.Calling?
  }

  function Next(cfg: Config, w: World, e: Event): World
    requires Possible(w, e)
  {
    match e
    case Arrives(r, decision, threadId) => w.(requests := w.requests[r := Request(decision, Arrived(threadId))])
    case Reads(r) =>
      Moved(w, r, if w.requests[r].stage.threadId != cfg.threadId then Raised(NotFound)
        else if w.status != Pending then Raised(AlreadyResolved) else Read)
    case Resolves(r) =>
      if w.status != Pending then Moved(w, r, Raised(AlreadyResolved))
      else Moved(w, r, Holding).(status := if w.requests[r].decision.Reject? then Rejected else Approved)
    case Starts(r) => Moved(w, r, Calling).(started := w.started + 1)
    case Returns(r, result) => Moved(w, r, Answered(result)).(returned := w.returned + 1, effects := w.effects + 1)
    case Fails(r, acted) => Moved(w, r, Reopening).(effects := w.effects + (if acted then 1 else 0), lost := w.lost + (if acted then 1 else 0))
    case Reopens(r, took) =>
      var raised := Moved(w, r, Raised(UpstreamFailed));
      if took then raised.(status := Pending) else raised
    case Records(r, committed, queued) =>
      if !committed then Moved(w, r, Raised(NotRecorded))
      else
        var content := if w.requests[r].decision.Reject? then RejectionNote(cfg.toolName) else w.requests[r].stage.content;
        Moved(w, r, Done(content)).(messages := w.messages + [content],
          followUps := w.followUps + (if w.requests[r].decision.Approve? && !queued then 1 else 0))
    case Dies(r, acted) => Moved(w, r, Dead).(effects := w.effects + (if acted then 1 else 0), lost := w.lost + (if acted then 1 else 0))
  }

  // ----- what every interleaving keeps

  predicate Owns(stage: Stage) { stage.Holding? || stage.Calling? || stage.Reopening? || stage.Answered? }

  /** A request that has claimed and not yet ended; its stage says how far it can have got. */
  predicate ClaimFits(w: World, request: Request) {
    Owns(request.stage) ==>
      && w.status == (if request.decision.Reject? then Rejected else Approved)
      && w.messages == []
      && (request.decision.Reject? ==> request.stage.Holding?)
      && w.returned == (if request.stage.Answered? then 1 else 0)
      && (request.stage.Calling? ==> w.started >= 1)
  }

  predicate Inv(w: World) {
    && (forall r, s | r in w.requests && s in w.requests && Owns(w.requests[r].stage) && Owns(w.requests[s].stage) :: r == s)
    && (forall r | r in w.requests :: ClaimFits(w, w.requests[r]))
    && w.returned <= 1 && |w.messages| <= 1 && w.followUps <= |w.messages|
    && w.returned <= w.started && w.effects == w.returned + w.lost
    && (w.returned == 1 || w.messages != [] ==> w.status != Pending)
    && (w.status == Rejected ==> w.returned == 0 && w.followUps == 0)
  }

  /** The request that owns the claim before a step is the only one that can own it after, unless the row was waiting. */
  lemma OwnerKept(cfg: Config, w: World, e: Event, r: nat)
    requires Possible(w, e) && r in Next(cfg, w, e).requests && Owns(Next(cfg, w, e).requests[r].stage)
    ensures r in w.requests && (Owns(w.requests[r].stage) || (r == e.r && e.Resolves? && w.status == Pending))
    ensures r != e.r ==> Next(cfg, w, e).requests[r] == w.requests[r]
  {
  }

  lemma NoOwnerWhileWaiting(w: World, r: nat)
    requires Inv(w) && w.status == Pending && r in w.requests
    ensures !Owns(w.requests[r].stage)
  {
  }

  lemma ClaimStillFits(cfg: Config, w: World, e: Event, r: nat)
    requires Inv(w) && Possible(w, e) && r in Next(cfg, w, e).requests
    ensures ClaimFits(Next(cfg, w, e), Next(cfg, w, e).requests[r])
  {
    if Owns(Next(cfg, w, e).requests[r].stage) {
      OwnerKept(cfg, w, e, r);
      assert ClaimFits(w, w.requests[r]);
      assert e.r in w.requests ==> ClaimFits(w, w.requests[e.r]);
      if w.status == Pending {
        NoOwnerWhileWaiting(w, r);
      }
    }
  }

  lemma StepKeeps(cfg: Config, w: World, e: Event)
    requires Inv(w) && Possible(w, e)
    ensures Inv(Next(cfg, w, e))
  {
    var after := Next(cfg, w, e);
    assert e.r in w.requests ==> ClaimFits(w, w.requests[e.r]);
    forall r | r in after.requests ensures ClaimFits(after, after.requests[r]) {
      ClaimStillFits(cfg, w, e, r);
    }
    hide ClaimFits;
    forall r, s | r in after.requests && s in after.requests && Owns(after.requests[r].stage) && Owns(after.requests[s].stage) ensures r == s {
      OwnerKept(cfg, w, e, r);
      OwnerKept(cfg, w, e, s);
      if w.status == Pending {
        NoOwnerWhileWaiting(w, r);
        NoOwnerWhileWaiting(w, s);
      }
    }
  }

  function Run(cfg: Config, w: World, events: seq<Event>): Option<World> {
    if events == [] then Some(w)
    else
      var before := Run(cfg, w, events[..|events| - 1]);
      if before.None? || !Possible(before.value, events[|events| - 1]) then None
      else Some(Next(cfg, before.value, events[|events| - 1]))
  }

  /** What never goes back: a rejection, a call that returned, a message, a turn. */
  predicate Final(before: World, after: World) {
    && (before.status == Rejected ==> after.status == Rejected && after.started == before.started && after.effects == before.effects)
    && (before.returned == 1 ==> after.returned == 1 && after.status == Approved && after.started == before.started && after.effects == before.effects)
    && before.messages <= after.messages && before.followUps <= after.followUps
    && (before.messages != [] ==> after == before.(requests := after.requests))
  }

  lemma StepIsFinal(cfg: Config, w: World, e: Event)
    requires Inv(w) && Possible(w, e)
    ensures Final(w, Next(cfg, w, e))
  {
  }

  /** Over every interleaving of approvals and rejections: one claim, one call that returns, one message, one turn; no call after a
      rejection; and nothing more once the message is there. */
  lemma {:induction false} RunKeeps(cfg: Config, w: World, events: seq<Event>)
    requires Inv(w) && Run(cfg, w, events).Some?
    ensures Inv(Run(cfg, w, events).value) && Final(w, Run(cfg, w, events).value)
  {
    if events != [] {
      var front, e := events[..|events| - 1], events[|events| - 1];
      RunKeeps(cfg, w, front);
      var before := Run(cfg, w, front).value;
      StepKeeps(cfg, before, e);
      StepIsFinal(cfg, before, e);
    }
  }

  /** The row goes back to waiting only from an approval, by the request that made it, after its call failed. */
  lemma ReopeningUndoesAnApproval(cfg: Config, w: World, e: Event)
    requires Inv(w) && Possible(w, e) && w.status != Pending && Next(cfg, w, e).status == Pending
    ensures w.status == Approved && e.Reopens? && w.requests[e.r].decision == Approve && w.returned == 0 && w.messages == []
    ensures forall s | s in w.requests && s != e.r :: !Owns(w.requests[s].stage)
  {
  }

  lemma FreshRowIsFine(w: World)
    requires w == World(Pending, map[], 0, 0, 0, 0, [], 0)
    ensures Inv(w) && CanActAgain(w)
  {
  }

  // ----- how often the tool can act

  /** A request that can still bring about a call: it has yet to start one, is in one, or is about to give its claim back. */
  predicate CanStillCall(request: Request) {
    request.decision.Approve? && (request.stage.Holding? || request.stage.Calling? || request.stage.Reopening?)
  }

  /** The row waits for a word, or some approval has not got its answer. */
  predicate CanActAgain(w: World) {
    w.status == Pending || exists r | r in w.requests :: CanStillCall(w.requests[r])
  }

  lemma CannotStaysCannot(cfg: Config, w: World, e: Event)
    requires Inv(w) && Possible(w, e) && !CanActAgain(w)
    ensures !CanActAgain(Next(cfg, w, e)) && Next(cfg, w, e).effects == w.effects
  {
    var after := Next(cfg, w, e);
    if e.r in w.requests {
      assert ClaimFits(w, w.requests[e.r]) && !CanStillCall(w.requests[e.r]);
    }
    forall r | r in after.requests ensures !CanStillCall(after.requests[r]) {
      assert r in w.requests && r != e.r ==> after.requests[r] == w.requests[r];
    }
  }

  lemma {:induction false} CannotForGood(cfg: Config, w: World, events: seq<Event>)
    requires Inv(w) && !CanActAgain(w) && Run(cfg, w, events).Some?
    ensures !CanActAgain(Run(cfg, w, events).value) && Run(cfg, w, events).value.effects == w.effects
  {
    if events != [] {
      var front := events[..|events| - 1];
      CannotForGood(cfg, w, front);
      RunKeeps(cfg, w, front);
      CannotStaysCannot(cfg, Run(cfg, w, front).value, events[|events| - 1]);
    }
  }

  predicate LosesAnAnswer(e: Event) { e.Fails? && e.acted }

  lemma OneEffectIsTheLast(cfg: Config, w: World, e: Event)
    requires Inv(w) && Possible(w, e) && !LosesAnAnswer(e)
    requires w.effects == 0 || (w.effects == 1 && !CanActAgain(w))
    ensures var after := Next(cfg, w, e); after.effects == 0 || (after.effects == 1 && !CanActAgain(after))
  {
    if !CanActAgain(w) {
      CannotStaysCannot(cfg, w, e);
    } else if e.r in w.requests {
      var after := Next(cfg, w, e);
      assert ClaimFits(w, w.requests[e.r]);
      if e.Returns? || (e.Dies? && e.acted) {
        forall r | r in after.requests ensures !CanStillCall(after.requests[r]) {
          assert r != e.r ==> !Owns(w.requests[r].stage);
        }
      }
    }
  }

  /** The tool acts at most once in every run in which no failed call had acted. */
  lemma {:induction false} ActsOnceUnlessAnAnswerIsLost(cfg: Config, w: World, events: seq<Event>)
    requires Inv(w) && w.effects == 0 && Run(cfg, w, events).Some?
    requires forall k | 0 <= k < |events| :: !LosesAnAnswer(events[k])
    ensures var after := Run(cfg, w, events).value; after.effects == 0 || (after.effects == 1 && !CanActAgain(after))
  {
    if events != [] {
      var front, e := events[..|events| - 1], events[|events| - 1];
      assert !LosesAnAnswer(e);
      ActsOnceUnlessAnAnswerIsLost(cfg, w, front);
      RunKeeps(cfg, w, front);
      OneEffectIsTheLast(cfg, Run(cfg, w, front).value, e);
    }
  }

  lemma {:induction false} RunJoins(cfg: Config, w: World, a: seq<Event>, b: seq<Event>)
    requires Run(cfg, w, a).Some?
    ensures Run(cfg, w, a + b) == Run(cfg, Run(cfg, w, a).value, b)
  {
    if b == [] {
      assert a + b == a;
    } else {
      RunJoins(cfg, w, a, b[..|b| - 1]);
      assert (a + b)[..|a + b| - 1] == a + b[..|b| - 1];
    }
  }

  lemma RunTwo(cfg: Config, w: World, a: Event, b: Event)
    requires Possible(w, a) && Possible(Next(cfg, w, a), b)
    ensures Run(cfg, w, [a, b]) == Some(Next(cfg, Next(cfg, w, a), b))
  {
    assert [a, b][..1] == [a] && [a][..0] == [];
    assert Run(cfg, w, [a]) == Some(Next(cfg, w, a));
  }

  /** Where a row waits, a new approval gets to call the tool. */
  lemma ApprovalStarts(cfg: Config, w: World, r: nat)
    requires w.status == Pending && r !in w.requests
    ensures Run(cfg, w, [Arrives(r, Approve, cfg.threadId), Reads(r)] + [Resolves(r), Starts(r)])
      == Some(w.(status := Approved, requests := w.requests[r := Request(Approve, Calling)], started := w.started + 1))
  {
    var read := w.(requests := w.requests[r := Request(Approve, Read)]);
    RunTwo(cfg, w, Arrives(r, Approve, cfg.threadId), Reads(r));
    assert w.requests[r := Request(Approve, Arrived(cfg.threadId))][r := Request(Approve, Read)] == w.requests[r := Request(Approve, Read)];
    assert Run(cfg, w, [Arrives(r, Approve, cfg.threadId), Reads(r)]) == Some(read);
    assert read.requests[r := Request(Approve, Holding)] == w.requests[r := Request(Approve, Holding)];
    RunTwo(cfg, read, Resolves(r), Starts(r));
    RunJoins(cfg, w, [Arrives(r, Approve, cfg.threadId), Reads(r)], [Resolves(r), Starts(r)]);
    assert read.requests[r := Request(Approve, Holding)][r := Request(Approve, Calling)] == w.requests[r := Request(Approve, Calling)];
  }

  lemma {:induction false} SomeNewNumber(used: set<nat>) returns (r: nat)
    ensures forall n | n in used :: n < r
  {
    if used == {} {
      r := 0;
    } else {
      var n :| n in used;
      var above := SomeNewNumber(used - {n});
      assert forall m | m in used :: m == n || m in used - {n};
      r := if above > n then above else n + 1;
    }
  }

  /** Where a row waits, a new approval can make the tool act. */
  lemma WaitingRowActs(cfg: Config, w: World, result: string) returns (events: seq<Event>)
    requires w.status == Pending
    ensures Run(cfg, w, events).Some? && Run(cfg, w, events).value.effects == w.effects + 1
  {
    var r := SomeNewNumber(w.requests.Keys);
    assert r !in w.requests;
    var start := [Arrives(r, Approve, cfg.threadId), Reads(r)] + [Resolves(r), Starts(r)];
    ApprovalStarts(cfg, w, r);
    RunStep(cfg, w, start, Returns(r, result));
    events := start + [Returns(r, result)];
  }

  lemma RunOne(cfg: Config, w: World, e: Event)
    requires Possible(w, e)
    ensures Run(cfg, w, [e]) == Some(Next(cfg, w, e))
  {
    assert [e][..0] == [];
  }

  /** And so can a request that has not got its answer. */
  lemma UnansweredRequestActs(cfg: Config, w: World, r: nat, result: string) returns (events: seq<Event>)
    requires r in w.requests && CanStillCall(w.requests[r])
    ensures Run(cfg, w, events).Some? && Run(cfg, w, events).value.effects == w.effects + 1
  {
    if w.requests[r].stage.Calling? {
      RunOne(cfg, w, Returns(r, result));
      events := [Returns(r, result)];
    } else if w.requests[r].stage.Holding? {
      RunTwo(cfg, w, Starts(r), Returns(r, result));
      events := [Starts(r), Returns(r, result)];
    } else {
      RunOne(cfg, w, Reopens(r, true));
      var rest := WaitingRowActs(cfg, Next(cfg, w, Reopens(r, true)), result);
      RunJoins(cfg, w, [Reopens(r, true)], rest);
      events := [Reopens(r, true)] + rest;
    }
  }

  /** Exactly when the tool can act again, however often it has acted: while the row waits or an approval has not got its answer. */
  lemma ActsAgainIff(cfg: Config, w: World)
    requires Inv(w)
    ensures (exists events :: Run(cfg, w, events).Some? && Run(cfg, w, events).value.effects > w.effects) <==> CanActAgain(w)
  {
    if CanActAgain(w) {
      if w.status == Pending {
        var events := WaitingRowActs(cfg, w, "");
        assert Run(cfg, w, events).Some? && Run(cfg, w, events).value.effects > w.effects;
      } else {
        var r :| r in w.requests && CanStillCall(w.requests[r]);
        var events := UnansweredRequestActs(cfg, w, r, "");
        assert Run(cfg, w, events).Some? && Run(cfg, w, events).value.effects > w.effects;
      }
    } else {
      forall events | Run(cfg, w, events).Some? ensures Run(cfg, w, events).value.effects == w.effects {
        CannotForGood(cfg, w, events);
      }
    }
  }

  /** So a failed call that did act lets the next approval act once more: from every world with such a call under way. */
  lemma LostAnswerActsTwice(cfg: Config, w: World, r: nat)
    requires Inv(w) && r in w.requests && w.requests[r].decision == Approve && w.requests[r].stage.Calling?
    ensures exists events ::
      && Run(cfg, w, [Fails(r, true), Reopens(r, true)] + events).Some?
      && Run(cfg, w, [Fails(r, true), Reopens(r, true)] + events).value.effects == w.effects + 2
  {
    RunTwo(cfg, w, Fails(r, true), Reopens(r, true));
    var w2 := Next(cfg, Next(cfg, w, Fails(r, true)), Reopens(r, true));
    var events := WaitingRowActs(cfg, w2, "");
    RunJoins(cfg, w, [Fails(r, true), Reopens(r, true)], events);
    assert Run(cfg, w, [Fails(r, true), Reopens(r, true)] + events).value.effects == w.effects + 2;
  }

  // ----- whether a confirmation can still be answered

  /** Decided, not answered, and nobody left who holds the claim. */
  predicate Abandoned(w: World) {
    w.status != Pending && w.messages == [] && forall r | r in w.requests :: !Owns(w.requests[r].stage)
  }

  /** A decision whose request died, or could not reopen or record, is never asked again and never answered. */
  lemma {:induction false} AbandonedForGood(cfg: Config, w: World, events: seq<Event>)
    requires Abandoned(w) && Run(cfg, w, events).Some?
    ensures var after := Run(cfg, w, events).value;
      Abandoned(after) && after.started == w.started && after.effects == w.effects && after.followUps == w.followUps
  {
    if events != [] {
      AbandonedForGood(cfg, w, events[..|events| - 1]);
      var before := Run(cfg, w, events[..|events| - 1]).value;
      var after := Next(cfg, before, events[|events| - 1]);
      assert forall r | r in after.requests :: !Owns(after.requests[r].stage);
    }
  }

  /** A waiting row is answered by a new rejection. */
  lemma WaitingRowAnswers(cfg: Config, w: World) returns (events: seq<Event>)
    requires w.status == Pending
    ensures Run(cfg, w, events).Some? && Run(cfg, w, events).value.messages == w.messages + [RejectionNote(cfg.toolName)]
  {
    var r := SomeNewNumber(w.requests.Keys);
    assert r !in w.requests;
    var arrived := w.(requests := w.requests[r := Request(Reject, Arrived(cfg.threadId))]);
    var read := w.(requests := w.requests[r := Request(Reject, Read)]);
    assert arrived.requests[r := Request(Reject, Read)] == read.requests;
    RunTwo(cfg, w, Arrives(r, Reject, cfg.threadId), Reads(r));
    RunTwo(cfg, read, Resolves(r), Records(r, true, false));
    RunJoins(cfg, w, [Arrives(r, Reject, cfg.threadId), Reads(r)], [Resolves(r), Records(r, true, false)]);
    events := [Arrives(r, Reject, cfg.threadId), Reads(r)] + [Resolves(r), Records(r, true, false)];
  }

  /** A request that holds the claim can finish, or hand the row back to be answered. */
  lemma OwnerAnswers(cfg: Config, w: World, r: nat) returns (events: seq<Event>)
    requires r in w.requests && Owns(w.requests[r].stage)
    ensures Run(cfg, w, events).Some? && |Run(cfg, w, events).value.messages| == |w.messages| + 1
  {
    var request := w.requests[r];
    if request.stage.Answered? || (request.stage.Holding? && request.decision.Reject?) {
      RunOne(cfg, w, Records(r, true, false));
      events := [Records(r, true, false)];
    } else if request.stage.Reopening? {
      RunOne(cfg, w, Reopens(r, true));
      var rest := WaitingRowAnswers(cfg, Next(cfg, w, Reopens(r, true)));
      RunJoins(cfg, w, [Reopens(r, true)], rest);
      events := [Reopens(r, true)] + rest;
    } else if request.stage.Calling? {
      RunTwo(cfg, w, Returns(r, ""), Records(r, true, false));
      events := [Returns(r, ""), Records(r, true, false)];
    } else {
      var started := Next(cfg, w, Starts(r));
      RunOne(cfg, w, Starts(r));
      RunTwo(cfg, started, Returns(r, ""), Records(r, true, false));
      RunJoins(cfg, w, [Starts(r)], [Returns(r, ""), Records(r, true, false)]);
      events := [Starts(r)] + [Returns(r, ""), Records(r, true, false)];
    }
  }

  /** An unanswered confirmation can still be answered if and only if it is not abandoned. */
  lemma AnswerableIff(cfg: Config, w: World)
    requires w.messages == []
    ensures (exists events :: Run(cfg, w, events).Some? && Run(cfg, w, events).value.messages != []) <==> !Abandoned(w)
  {
    if Abandoned(w) {
      forall events | Run(cfg, w, events).Some? ensures Run(cfg, w, events).value.messages == [] {
        AbandonedForGood(cfg, w, events);
      }
    } else if w.status == Pending {
      var events := WaitingRowAnswers(cfg, w);
      assert Run(cfg, w, events).value.messages != [];
    } else {
      var r :| r in w.requests && Owns(w.requests[r].stage);
      var events := OwnerAnswers(cfg, w, r);
      assert Run(cfg, w, events).value.messages != [];
    }
  }

  // ----- one request, statement by statement, among the others

  lemma RunStep(cfg: Config, w: World, events: seq<Event>, e: Event)
    requires Run(cfg, w, events).Some?
    ensures Run(cfg, w, events + [e]) == if Possible(Run(cfg, w, events).value, e) then Some(Next(cfg, Run(cfg, w, events).value, e)) else None
  {
  }

  /** The upstream's answer to a call. */
  datatype Upstream = Succeeds(result: string) | Refuses(acted: bool)

  /** What the ledger does to the statements of one request. */
  datatype Weather = Weather(upstream: Upstream, reopens: bool, records: bool, queued: bool)

  class Resolution {
    const cfg: Config
    var world: World
    ghost var past: seq<Event>
    ghost var start: World

    constructor (cfg: Config, world: World)
      ensures this.cfg == cfg && this.world == world && Valid() && start == world
    {
      this.cfg, this.world, past, start := cfg, world, [], world;
    }

    /** The world is where the events so far lead. */
    ghost predicate Valid()
      reads this
    {
      Run(cfg, start, past) == Some(world)
    }

    method Take(e: Event)
      requires Valid() && Possible(world, e)
      modifies this`world, this`past
      ensures Valid() && past == old(past) + [e] && world == Next(cfg, old(world), e)
    {
      RunStep(cfg, start, past, e);
      past := past + [e];
      world := Next(cfg, world, e);
    }

    /** Other requests move on; an event that cannot happen is skipped. */
    method OthersMove(r: nat, events: seq<Event>)
      requires Valid() && r in world.requests
      modifies this`world, this`past
      ensures Valid() && r in world.requests && world.requests[r] == old(world.requests[r]) && old(past) <= past
    {
      for k := 0 to |events|
        invariant Valid() && r in world.requests && world.requests[r] == old(world.requests[r]) && old(past) <= past
      {
        if events[k].r != r && Possible(world, events[k]) {
          Take(events[k]);
        }
      }
    }

    /** `_claim`: the row's own update decides, not the reading before it. */
    method Claim(r: nat, others: nat -> seq<Event>) returns (refused: Option<Refusal>)
      requires Valid() && r in world.requests && world.requests[r].stage.Arrived?
      modifies this`world, this`past
      ensures Valid() && r in world.requests && world.requests[r].decision == old(world.requests[r].decision) && old(past) <= past
      ensures refused == None ==> world.requests[r].stage == Holding
      ensures refused.Some? ==> world.requests[r].stage == Raised(refused.value)
    {
      OthersMove(r, others(0));
      Take(Reads(r));
      if world.requests[r].stage.Raised? {
        return Some(world.requests[r].stage.refusal);
      }
      OthersMove(r, others(1));
      Take(Resolves(r));
      if world.requests[r].stage.Raised? {
        return Some(AlreadyResolved);
      }
      return None;
    }

    /** `_decide`: call the tool unless rejected; a failed call gives the claim back. */
    method Decide(r: nat, others: nat -> seq<Event>, weather: Weather) returns (failed: bool)
      requires Valid() && r in world.requests && world.requests[r].stage == Holding
      modifies this`world, this`past
      ensures Valid() && r in world.requests && world.requests[r].decision == old(world.requests[r].decision) && old(past) <= past
      ensures failed ==> world.requests[r].stage == Raised(UpstreamFailed)
      ensures !failed && world.requests[r].decision == Approve ==>
        weather.upstream.Succeeds? && world.requests[r].stage == Answered(weather.upstream.result)
      ensures world.requests[r].decision == Reject ==> !failed && world == old(world)
    {
      if world.requests[r].decision == Reject {
        return false;
      }
      Take(Starts(r));
      OthersMove(r, others(3));
      if weather.upstream.Refuses? {
        Take(Fails(r, weather.upstream.acted));
        OthersMove(r, others(4));
        Take(Reopens(r, weather.reopens));
        return true;
      }
      Take(Returns(r, weather.upstream.result));
      return false;
    }

    /** `resolve`: claim, decide, record. */
    method Resolve(r: nat, others: nat -> seq<Event>, weather: Weather) returns (result: Result<string, Refusal>)
      requires Valid() && Inv(start) && r in world.requests && world.requests[r].stage.Arrived?
      modifies this`world, this`past
      ensures Valid() && Inv(world) && r in world.requests && old(past) <= past
      ensures match result
        case Ok(content) => world.requests[r].stage == Done(content) && content in world.messages
        case Err(refusal) => world.requests[r].stage == Raised(refusal)
      ensures result.Ok? && old(world.requests[r].decision) == Reject ==> result.value == RejectionNote(cfg.toolName)
      ensures result.Ok? && old(world.requests[r].decision) == Approve ==> weather.upstream == Succeeds(result.value)
    {
      hide Inv, Run;
      var refused := Claim(r, others);
      RunKeeps(cfg, start, past);
      if refused.Some? {
        return Err(refused.value);
      }
      OthersMove(r, others(2));
      var failed := Decide(r, others, weather);
      RunKeeps(cfg, start, past);
      if failed {
        return Err(UpstreamFailed);
      }
      OthersMove(r, others(5));
      Take(Records(r, weather.records, weather.queued));
      RunKeeps(cfg, start, past);
      if !weather.records {
        return Err(NotRecorded);
      }
      result := Ok(world.requests[r].stage.answer);
    }
  }
}
