/** What the requests on one confirmation leave in its row and in the conversation, said on what they did. */
module ConfirmationRecords {
  import opened Wrappers
  import opened Confirmation

  /** The word a request came with. */
  function WordOf(events: seq<Event>, r: nat): Option<Decision> {
    if events == [] then None
    else
      match events[|events| - 1]
      case Arrives(arrived, decision, _) => if arrived == r then Some(decision) else WordOf(events[..|events| - 1], r)
      case _ => WordOf(events[..|events| - 1], r)
  }

  /** What its call returned last. */
  function ReturnedTo(events: seq<Event>, r: nat): Option<string> {
    if events == [] then None
    else
      match events[|events| - 1]
      case Returns(called, result) => if called == r then Some(result) else ReturnedTo(events[..|events| - 1], r)
      case _ => ReturnedTo(events[..|events| - 1], r)
  }

  /** The tool's result, or the note that it was rejected. */
  function Says(cfg: Config, events: seq<Event>, r: nat): string {
    if WordOf(events, r) == Some(Reject) then "User rejected the proposed " + cfg.toolName + ". It was not executed."
    else if ReturnedTo(events, r).Some? then ReturnedTo(events, r).value else ""
  }

  function Messages(cfg: Config, events: seq<Event>): seq<string> {
    if events == [] then []
    else
      var front, e := events[..|events| - 1], events[|events| - 1];
      if e.Records? && e.committed then Messages(cfg, front) + [Says(cfg, front, e.r)] else Messages(cfg, front)
  }

  /** An approval that is recorded sets up one turn, unless a turn is waiting that has not read the conversation yet. */
  function TurnsSetUp(events: seq<Event>): nat {
    if events == [] then 0
    else
      var front, e := events[..|events| - 1], events[|events| - 1];
      TurnsSetUp(front) + if e.Records? && e.committed && !e.queued && WordOf(front, e.r) == Some(Approve) then 1 else 0
  }

  /** The row as the last claim or the last reopening left it. */
  function RowStatus(events: seq<Event>): Status {
    if events == [] then Pending
    else
      var front, e := events[..|events| - 1], events[|events| - 1];
      match e
      case Resolves(r) => if RowStatus(front) != Pending then RowStatus(front) else if WordOf(front, r) == Some(Reject) then Rejected else Approved
      case Reopens(_, took) => if took then Pending else RowStatus(front)
      case _ => RowStatus(front)
  }

  function Calls(events: seq<Event>): (nat, nat, nat) {
    if events == [] then (0, 0, 0)
    else
      var (started, returned, acted) := Calls(events[..|events| - 1]);
      match events[|events| - 1]
      case Starts(_) => (started + 1, returned, acted)
      case Returns(_, _) => (started, returned + 1, acted + 1)
      case Fails(_, did) => (started, returned, acted + if did then 1 else 0)
      case Dies(_, did) => (started, returned, acted + if did then 1 else 0)
      case _ => (started, returned, acted)
  }

  predicate Tells(cfg: Config, w: World, events: seq<Event>) {
    && w.messages == Messages(cfg, events) && w.followUps == TurnsSetUp(events) && w.status == RowStatus(events)
    && (w.started, w.returned, w.effects) == Calls(events)
    && forall r | r in w.requests :: RequestTold(w.requests[r], events, r)
  }

  predicate RequestTold(request: Request, events: seq<Event>, r: nat) {
    WordOf(events, r) == Some(request.decision) && (request.stage.Answered? ==> ReturnedTo(events, r) == Some(request.stage.content))
  }

  lemma StepTells(cfg: Config, w: World, front: seq<Event>, events: seq<Event>, e: Event)
    requires Inv(w) && Tells(cfg, w, front) && Possible(w, e)
    requires events != [] && events[..|events| - 1] == front && events[|events| - 1] == e
    ensures Tells(cfg, Next(cfg, w, e), events)
  {
    var after := Next(cfg, w, e);
    assert e.r in w.requests ==> RequestTold(w.requests[e.r], front, e.r) && ClaimFits(w, w.requests[e.r]);
    forall r | r in after.requests ensures RequestTold(after.requests[r], events, r) {
      assert r in w.requests ==> RequestTold(w.requests[r], front, r);
    }
    hide RequestTold;
  }

  lemma NothingTold(cfg: Config, w: World)
    requires w == World(Pending, map[], 0, 0, 0, 0, [], 0)
    ensures Tells(cfg, w, [])
  {
  }

  /** Over every run from a waiting row: messages, turns, the row and the calls are what the requests' own events say. */
  lemma {:induction false} ConversationTells(cfg: Config, w: World, events: seq<Event>)
    requires w == World(Pending, map[], 0, 0, 0, 0, [], 0) && Run(cfg, w, events).Some?
    ensures Tells(cfg, Run(cfg, w, events).value, events)
  {
    hide Tells, Next, Possible, Inv;
    FreshRowIsFine(w);
    if events == [] {
      NothingTold(cfg, w);
    } else {
      var front := events[..|events| - 1];
      ConversationTells(cfg, w, front);
      RunKeeps(cfg, w, front);
      StepTells(cfg, Run(cfg, w, front).value, front, events, events[|events| - 1]);
    }
  }

  /** A reading refuses another thread's request and one that comes too late; a claim is had if and only if the row still waits. */
  lemma ClaimMeans(cfg: Config, w: World, r: nat)
    requires r in w.requests
    ensures w.requests[r].stage.Arrived? ==>
      Next(cfg, w, Reads(r)).requests[r].stage ==
        if w.requests[r].stage.threadId != cfg.threadId then Raised(NotFound) else if w.status == Pending then Read else Raised(AlreadyResolved)
    ensures w.requests[r].stage.Read? ==>
      Next(cfg, w, Resolves(r)).requests[r].stage == if w.status == Pending then Holding else Raised(AlreadyResolved)
  {
  }
}
