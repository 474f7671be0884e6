/** What a publisher holds and sends, said on the calls it was given. */
module DraftTexts {
  import opened Wrappers
  import opened ChatLedger
  import opened Drafts
  import Redaction

  /** A call and when it was made. */
  type Timed = (Call, int)

  /** What a call adds to the answer; a tool's name stands in backticks on a line of its own, with an empty line on either side. */
  function Piece(call: Call): string {
    match call
    case Push(piece) => piece
    case PushTool(name) => ['\n', '\n', '`'] + name + ['`', '\n', '\n']
    case _ => ""
  }

  function TextOf(calls: seq<Timed>): string {
    if calls == [] then "" else TextOf(calls[..|calls| - 1]) + Piece(calls[|calls| - 1].0)
  }

  /** An answer that flows is not shown as thinking again. */
  function PhaseOf(calls: seq<Timed>): Phase {
    if calls == [] then Starting
    else
      var before := PhaseOf(calls[..|calls| - 1]);
      match calls[|calls| - 1].0
      case Push(piece) => if piece == "" then before else Responding
      case PushTool(_) => Tool
      case MarkPhase(phase) => if before == Responding && phase == Thinking then before else phase
      case Flush => before
  }

  /** The last call gets a number: it adds something, names a tool, or changes the phase. */
  predicate Counts(calls: seq<Timed>)
    requires calls != []
  {
    match calls[|calls| - 1].0
    case Push(piece) => piece != ""
    case PushTool(_) => true
    case MarkPhase(_) => PhaseOf(calls) != PhaseOf(calls[..|calls| - 1])
    case Flush => false
  }

  function NumberOf(calls: seq<Timed>): nat {
    if calls == [] then 0 else NumberOf(calls[..|calls| - 1]) + if Counts(calls) then 1 else 0
  }

  /** The answer when it had got so many numbers. */
  function TextAt(calls: seq<Timed>, n: nat): string {
    if calls == [] || NumberOf(calls) <= n then TextOf(calls) else TextAt(calls[..|calls| - 1], n)
  }

  predicate Started(calls: seq<Timed>) {
    exists k | 0 <= k < |calls| :: calls[k].0.Push? && calls[k].0.piece != ""
  }

  /** The last call sends the whole text: a piece does when it is the first or the interval is over, a flush when something is unsent. */
  predicate Sends(cfg: Config, calls: seq<Timed>)
    requires calls != []
    decreases |calls|, 0
  {
    var front := calls[..|calls| - 1];
    var (call, clock) := calls[|calls| - 1];
    match call
    case Push(piece) => piece != "" && (!Started(front) || clock - LastSent(cfg, front) >= cfg.interval)
    case Flush => Unsent(cfg, front)
    case _ => Counts(calls)
  }

  function LastSent(cfg: Config, calls: seq<Timed>): int
    decreases |calls|, 1
  {
    if calls == [] then 0 else if Sends(cfg, calls) then calls[|calls| - 1].1 else LastSent(cfg, calls[..|calls| - 1])
  }

  predicate Unsent(cfg: Config, calls: seq<Timed>)
    decreases |calls|, 1
  {
    calls != [] && !Sends(cfg, calls) && (Counts(calls) || Unsent(cfg, calls[..|calls| - 1]))
  }

  /** Everything sent, in order. */
  function Deliveries(cfg: Config, calls: seq<Timed>): seq<Delivery> {
    if calls == [] then []
    else
      Deliveries(cfg, calls[..|calls| - 1])
        + if Sends(cfg, calls) then [Delivery(NumberOf(calls), PhaseOf(calls), Redaction.CoveredText(cfg.rules, TextOf(calls)))] else []
  }

  predicate Says(p: Publisher, calls: seq<Timed>) {
    && p.text == TextOf(calls) && p.number == NumberOf(calls) && p.phase == PhaseOf(calls)
    && |p.history| == p.number + 1 && (forall n | 0 <= n <= p.number :: p.history[n] == TextAt(calls, n))
  }

  predicate HasSent(cfg: Config, p: Publisher, calls: seq<Timed>) {
    && p.started == Started(calls) && p.pending == Unsent(cfg, calls) && p.sentAt == LastSent(cfg, calls)
    && var all := Deliveries(cfg, calls); |p.queue| <= |all| && p.queue == all[|all| - |p.queue|..]
  }

  /** The publisher after these calls, some of its deliveries made. */
  predicate Follows(cfg: Config, p: Publisher, calls: seq<Timed>) {
    Says(p, calls) && HasSent(cfg, p, calls)
  }

  lemma Snoc(calls: seq<Timed>, last: Timed)
    ensures var more := calls + [last]; more != [] && more[..|more| - 1] == calls && more[|more| - 1] == last
  {
  }

  /** A call that takes leaves the publisher where the calls say. */
  lemma CallFollows(cfg: Config, p: Publisher, calls: seq<Timed>, call: Call, clock: int)
    requires Follows(cfg, p, calls) && Called(cfg, p, call, clock).Some?
    ensures Follows(cfg, Called(cfg, p, call, clock).value, calls + [(call, clock)])
  {
    hide *;
    BothParts(cfg, p, calls);
    CallSays(cfg, p, calls, call, clock);
    CallSends(cfg, p, calls, call, clock);
    BothParts(cfg, Called(cfg, p, call, clock).value, calls + [(call, clock)]);
  }

  lemma BothParts(cfg: Config, p: Publisher, calls: seq<Timed>)
    ensures Follows(cfg, p, calls) <==> Says(p, calls) && HasSent(cfg, p, calls)
  {
  }

  lemma CallSays(cfg: Config, p: Publisher, calls: seq<Timed>, call: Call, clock: int)
    requires Says(p, calls) && Called(cfg, p, call, clock).Some?
    ensures Says(Called(cfg, p, call, clock).value, calls + [(call, clock)])
  {
    hide Redaction.CoveredText, Sends;
    var more := calls + [(call, clock)];
    var after := Called(cfg, p, call, clock).value;
    Snoc(calls, (call, clock));
    PieceIs(call);
    TextAtEnd(calls);
    assert TextOf(more) == TextOf(calls) + Piece(call) && after.text == TextOf(more);
    assert NumberOf(more) == NumberOf(calls) + if Counts(more) then 1 else 0;
    assert after.phase == PhaseOf(more);
    assert after.number == NumberOf(more);
    assert !Counts(more) ==> TextOf(more) == TextOf(calls) && after.history == p.history;
    assert Counts(more) ==> after.history == p.history + [TextOf(more)];
  }

  lemma TextAtEnd(calls: seq<Timed>)
    ensures TextAt(calls, NumberOf(calls)) == TextOf(calls)
  {
  }

  lemma CallSends(cfg: Config, p: Publisher, calls: seq<Timed>, call: Call, clock: int)
    requires Says(p, calls) && HasSent(cfg, p, calls) && Called(cfg, p, call, clock).Some?
    ensures HasSent(cfg, Called(cfg, p, call, clock).value, calls + [(call, clock)])
  {
    var more := calls + [(call, clock)];
    var after := Called(cfg, p, call, clock).value;
    CallSays(cfg, p, calls, call, clock);
    SendsIs(cfg, p, calls, call, clock);
    Snoc(calls, (call, clock));
    StartedSnoc(calls, (call, clock));
    hide Called, Started, Redaction.CoveredText, Says;
    var next := Delivery(NumberOf(more), PhaseOf(more), Redaction.CoveredText(cfg.rules, TextOf(more)));
    if Sends(cfg, more) {
      SuffixGrows(Deliveries(cfg, calls), p.queue, next);
    } else {
      assert Deliveries(cfg, calls) + [] == Deliveries(cfg, calls);
    }
    hide Sends, NumberOf, PhaseOf, TextOf;
  }

  /** What a call does to the sending, in terms of the calls. */
  lemma SendsIs(cfg: Config, p: Publisher, calls: seq<Timed>, call: Call, clock: int)
    requires Says(p, calls) && HasSent(cfg, p, calls) && Called(cfg, p, call, clock).Some?
    ensures var more, after := calls + [(call, clock)], Called(cfg, p, call, clock).value;
      && after.started == (p.started || (call.Push? && call.piece != ""))
      && (Sends(cfg, more) ==>
            && !after.pending && after.sentAt == clock
            && after.queue == p.queue + [Delivery(after.number, after.phase, Redaction.CoveredText(cfg.rules, after.text))])
      && (!Sends(cfg, more) ==> after.pending == (Counts(more) || p.pending) && after.sentAt == p.sentAt && after.queue == p.queue)
  {
    hide Redaction.CoveredText, Deliveries, TextOf, TextAt, NumberOf;
    Snoc(calls, (call, clock));
  }

  lemma PieceIs(call: Call)
    ensures call.PushTool? ==> Piece(call) == ToolMarker(call.name)
  {
  }

  lemma StartedSnoc(calls: seq<Timed>, last: Timed)
    ensures Started(calls + [last]) <==> Started(calls) || (last.0.Push? && last.0.piece != "")
  {
    var more := calls + [last];
    assert more[|calls|] == last;
    assert forall k | 0 <= k < |calls| :: more[k] == calls[k];
  }

  lemma SuffixGrows(all: seq<Delivery>, queue: seq<Delivery>, next: Delivery)
    requires |queue| <= |all| && queue == all[|all| - |queue|..]
    ensures var more := all + [next]; queue + [next] == more[|more| - |queue + [next]|..]
  {
  }

  // ----- over whole runs

  /** Only an empty piece and what a flush does before it waits are taken by a publisher that has closed. */
  predicate Raises(p: Publisher, call: Call) {
    p.closed && match call
      case Push(piece) => piece != ""
      case Flush => false
      case _ => true
  }

  lemma RaisesIs(cfg: Config, p: Publisher, call: Call, clock: int)
    ensures Called(cfg, p, call, clock).None? <==> Raises(p, call)
  {
  }

  /** The calls of an attempt's publisher that did not raise. */
  function TakenCalls(cfg: Config, id: string, w: World, events: seq<Drafts.Event>, attempt: int): seq<Timed>
    requires Drafts.Run(cfg, id, w, events).Some?
  {
    if events == [] then []
    else
      var front := events[..|events| - 1];
      CallsAfter(Drafts.Run(cfg, id, w, front).value, events[|events| - 1], attempt, TakenCalls(cfg, id, w, front, attempt))
  }

  function CallsAfter(w: World, e: Drafts.Event, attempt: int, calls: seq<Timed>): seq<Timed> {
    match e
    case Opens(starting, _) => if starting == attempt then [] else calls
    case Calls(caller, call, clock) =>
      if caller == attempt && attempt in w.publishers && !Raises(w.publishers[attempt], call) then calls + [(call, clock)] else calls
    case _ => calls
  }

  lemma FreshFollows(cfg: Config)
    ensures Follows(cfg, Fresh(), [])
  {
  }

  lemma SentFollows(cfg: Config, db: Db, p: Publisher, calls: seq<Timed>, id: string, attempt: int, reached: bool, answered: bool, now: int)
    requires Follows(cfg, p, calls) && p.queue != []
    ensures Follows(cfg, Sent(db, p, id, attempt, reached, answered, now).1, calls)
  {
    SentEffect(db, p, id, attempt, reached, answered, now);
    hide Sent, TextOf, NumberOf, PhaseOf, TextAt, Started, Unsent, LastSent, Deliveries;
  }

  lemma StepFollows(cfg: Config, id: string, w: World, e: Drafts.Event, attempt: int, calls: seq<Timed>, more: seq<Timed>)
    requires Drafts.Possible(w, id, e)
    requires attempt in w.publishers ==> Follows(cfg, w.publishers[attempt], calls)
    requires more == CallsAfter(w, e, attempt, calls)
    ensures var after := Drafts.Next(cfg, id, w, e); attempt in after.publishers ==> Follows(cfg, after.publishers[attempt], more)
  {
    hide Follows, ChatLedger.Next, ChatLedger.Possible, Called, Sent, Raises;
    match e {
      case Opens(_, _) => FreshFollows(cfg);
      case Calls(caller, call, clock) =>
        if caller == attempt {
          RaisesIs(cfg, w.publishers[attempt], call, clock);
          if Called(cfg, w.publishers[attempt], call, clock).Some? {
            CallFollows(cfg, w.publishers[attempt], calls, call, clock);
          }
        }
      case Delivers(sender, reached, answered, now) =>
        if sender == attempt {
          SentFollows(cfg, w.db, w.publishers[attempt], calls, id, attempt, reached, answered, now);
        }
      case _ =>
    }
  }

  /** Over every run each publisher holds, and has sent, what its own calls said, in the order they were made. */
  lemma {:induction false} PublishersFollow(cfg: Config, id: string, w: World, events: seq<Drafts.Event>, attempt: int)
    requires w.publishers == map[] && Drafts.Run(cfg, id, w, events).Some?
    ensures var after := Drafts.Run(cfg, id, w, events).value;
      attempt in after.publishers ==> Follows(cfg, after.publishers[attempt], TakenCalls(cfg, id, w, events, attempt))
  {
    if events != [] {
      hide Follows, Drafts.Next, Drafts.Possible, Raises;
      var front := events[..|events| - 1];
      PublishersFollow(cfg, id, w, front, attempt);
      StepFollows(cfg, id, Drafts.Run(cfg, id, w, front).value, events[|events| - 1], attempt, TakenCalls(cfg, id, w, front, attempt),
        TakenCalls(cfg, id, w, events, attempt));
    }
  }

  /** So the stored draft is the covered answer as it stood at the stored number. */
  lemma StoredDraftIs(cfg: Config, id: string, w: World, events: seq<Drafts.Event>)
    requires Drafts.Inv(cfg, id, w) && w.publishers == map[] && Drafts.Run(cfg, id, w, events).Some?
    ensures var after := Drafts.Run(cfg, id, w, events).value;
      id in after.db.executions && after.db.executions[id].attempt in after.publishers && after.db.executions[id].draftSeq > 0 ==>
        var row := after.db.executions[id];
        var calls := TakenCalls(cfg, id, w, events, row.attempt);
        row.draftSeq <= NumberOf(calls) && row.draftText == Redaction.CoveredText(cfg.rules, TextAt(calls, row.draftSeq))
  {
    RunKeepsDrafts(cfg, id, w, events);
    var after := Drafts.Run(cfg, id, w, events).value;
    hide Drafts.Run, ChatLedger.Inv, Redaction.CoveredText, TextAt, TakenCalls, HasSent;
    if id in after.db.executions {
      PublishersFollow(cfg, id, w, events, after.db.executions[id].attempt);
    }
  }

  // ----- one delivery

  /** The ledger takes what a running execution's own attempt sends later than it has. */
  predicate Takes(db: Db, id: string, attempt: int, d: Delivery) {
    id in db.executions && db.executions[id].status == Running && db.executions[id].attempt == attempt && d.number > db.executions[id].draftSeq
  }

  predicate ClosedAlready(db: Db, id: string) {
    id in db.executions && db.executions[id].status in {Completed, Failed, Canceled}
  }

  /** A delivery that gets through stores its text, number and phase if it is taken; a publisher closes if and only if it hears that its
      delivery was not taken and that the execution is over. */
  lemma DeliveryMeans(db: Db, p: Publisher, id: string, attempt: int, reached: bool, answered: bool, now: int)
    requires p.queue != []
    ensures var (after, rest) := Sent(db, p, id, attempt, reached, answered, now);
      var d := p.queue[0];
      && rest == p.(queue := p.queue[1..], made := d.number, closed := rest.closed)
      && (rest.closed <==> p.closed || (reached && answered && !Takes(db, id, attempt, d) && ClosedAlready(db, id)))
      && after == if reached && Takes(db, id, attempt, d)
                  then db.(executions := db.executions[id := db.executions[id].(draftText := d.text, draftSeq := d.number, phase := d.phase, updatedAt := now)])
                  else db
  {
  }
}
