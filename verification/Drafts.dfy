/** The growing answer of a running turn: accumulated, covered, sent in order, and stored only where it belongs. */
module Drafts {
  import opened Wrappers
  import opened ChatLedger
  import Redaction

  /** Values are inspected and covered on the way out, at most once an interval. */
  datatype Config = Config(rules: Redaction.Rules, interval: int)

  datatype Delivery = Delivery(number: nat, phase: Phase, text: string)

  /** A publisher; `queue` is the chain of deliveries not yet made, `made` the number of the last one made, `history` the whole text at every number. */
  datatype Publisher = Publisher(text: string, number: nat, phase: Phase, pending: bool, started: bool, sentAt: int, closed: bool,
    queue: seq<Delivery>, made: nat, history: seq<string>)

  function ToolMarker(name: string): string { "\n\n`" + name + "`\n\n" }

  function Fresh(): Publisher { Publisher("", 0, Starting, false, false, 0, false, [], 0, [""]) }

  /** The whole text is covered, not the piece, so a credential cut by a piece's edge is still seen whole. */
  function Enqueued(cfg: Config, p: Publisher, clock: int): Publisher {
    p.(pending := false, sentAt := clock, queue := p.queue + [Delivery(p.number, p.phase, Redaction.CoveredText(cfg.rules, p.text))])
  }

  function Grown(p: Publisher, more: string, phase: Phase): Publisher {
    p.(text := p.text + more, number := p.number + 1, phase := phase, pending := true, history := p.history + [p.text + more])
  }

  /** `Flush` is what a flush does before it waits; the waiting and the raising after it are `DraftPublisher.Flush`. */
  datatype Call = Push(piece: string) | PushTool(name: string) | MarkPhase(phase: Phase) | Flush

  /** A call's effect, or none where it raises because the execution is already terminal. */
  function Called(cfg: Config, p: Publisher, call: Call, clock: int): Option<Publisher> {
    match call
    case Push(piece) =>
      if piece == "" then Some(p)
      else if p.closed then None
      else
        var grown := Grown(p, piece, Responding);
        if !p.started || clock - p.sentAt >= cfg.interval then Some(Enqueued(cfg, grown.(started := true), clock)) else Some(grown)
    case PushTool(name) => if p.closed then None else Some(Enqueued(cfg, Grown(p, ToolMarker(name), Tool), clock))
    case MarkPhase(phase) =>
      if p.closed then None
      else if phase == p.phase || (phase == Thinking && p.phase == Responding) then Some(p)
      else Some(Enqueued(cfg, Grown(p, "", phase), clock))
    case Flush => Some(if p.pending then Enqueued(cfg, p, clock) else p)
  }

  /** What the ledger answers to a delivery. */
  datatype Ack = Ack(stored: bool, terminal: bool)

  function Delivered(db: Db, id: string, attempt: int, d: Delivery, now: int): (Db, Ack) {
    var (after, stored) := Checkpointing(db, id, attempt, d.text, d.number, d.phase, now);
    (after, Ack(stored, !stored && id in after.executions && Closed(after.executions[id].status)))
  }

  /** The publisher and its delivery, over one ledger. */
  class DraftPublisher {
    const cfg: Config
    const ledger: Ledger
    const executionId: string
    const attempt: int
    var text: string
    var number: nat
    var phase: Phase
    var pending: bool
    var started: bool
    var sentAt: int
    var closed: bool
    var queue: seq<Delivery>
    ghost var made: nat
    ghost var history: seq<string>

    constructor (cfg: Config, ledger: Ledger, executionId: string, attempt: int)
      ensures Now() == Fresh()
      ensures this.cfg == cfg && this.ledger == ledger && this.executionId == executionId && this.attempt == attempt
    {
      this.cfg, this.ledger, this.executionId, this.attempt := cfg, ledger, executionId, attempt;
      text, number, phase, pending, started, sentAt, closed, queue := "", 0, Starting, false, false, 0, false, [];
      made, history := 0, [""];
    }

    ghost function Now(): Publisher
      reads this
    {
      Publisher(text, number, phase, pending, started, sentAt, closed, queue, made, history)
    }

    /** A call leaves the publisher as specified, or raises and leaves it as it was. */
    twostate predicate Did(call: Call, clock: int, raised: bool)
      reads this
    {
      match Called(cfg, old(Now()), call, clock)
      case Some(p) => !raised && Now() == p
      case None => raised && Now() == old(Now())
    }

    method Enqueue(clock: int)
      modifies this
      ensures Now() == Enqueued(cfg, old(Now()), clock)
    {
      pending := false;
      sentAt := clock;
      var covered := Redaction.CoverText(cfg.rules, text);
      queue := queue + [Delivery(number, phase, covered)];
    }

    method Push(piece: string, clock: int) returns (raised: bool)
      modifies this
      ensures Did(Call.Push(piece), clock, raised)
    {
      hide Redaction.CoveredText, ToolMarker;
      if piece == "" {
        return false;
      }
      if closed {
        return true;
      }
      text := text + piece;
      number := number + 1;
      history := history + [text];
      phase := Responding;
      pending := true;
      if !started || clock - sentAt >= cfg.interval {
        started := true;
        Enqueue(clock);
      }
      return false;
    }

    method PushTool(name: string, clock: int) returns (raised: bool)
      modifies this
      ensures Did(Call.PushTool(name), clock, raised)
    {
      hide Redaction.CoveredText, ToolMarker;
      if closed {
        return true;
      }
      text := text + ToolMarker(name);
      number := number + 1;
      history := history + [text];
      phase := Tool;
      pending := true;
      Enqueue(clock);
      return false;
    }

    method MarkPhase(to: Phase, clock: int) returns (raised: bool)
      modifies this
      ensures Did(Call.MarkPhase(to), clock, raised)
    {
      hide Redaction.CoveredText, ToolMarker;
      if closed {
        return true;
      }
      if to == phase || (to == Thinking && phase == Responding) {
        return false;
      }
      phase := to;
      number := number + 1;
      assert text + "" == text;
      history := history + [text];
      pending := true;
      Enqueue(clock);
      return false;
    }

    /** One delivery of the chain: it may not reach the ledger, and its answer may not come back. */
    method DeliverNext(reached: bool, answered: bool, now: int)
      requires queue != [] && (answered ==> reached)
      modifies this, ledger`executions
      ensures (ledger.Now(), Now()) == Sent(old(ledger.Now()), old(Now()), executionId, attempt, reached, answered, now)
    {
      var d := queue[0];
      queue := queue[1..];
      made := d.number;
      if !reached {
        return;
      }
      var stored := ledger.CheckpointRunning(executionId, attempt, d.text, d.number, d.phase, now);
      if answered && !stored && executionId in ledger.executions && Closed(ledger.executions[executionId].status) {
        closed := true;
      }
    }

    /** The head of the chain is delivered, and other workers' statements follow. */
    method DeliverAmongOthers(leg: Leg, others: seq<ChatLedger.Event>) returns (ghost done: seq<ChatLedger.Event>)
      requires queue != []
      modifies this, ledger
      ensures ChatLedger.Run(old(ledger.Now()), done) == Some(ledger.Now())
      ensures Now() == Sent(old(ledger.Now()), old(Now()), executionId, attempt, leg.reached, leg.answered, leg.now).1
      ensures Now() == old(Now()).(queue := old(queue)[1..], made := old(queue)[0].number, closed := closed) && (old(closed) ==> closed)
      ensures others == [] ==> ledger.Now() == Sent(old(ledger.Now()), old(Now()), executionId, attempt, leg.reached, leg.answered, leg.now).0
      ensures ChatLedger.Inv(old(ledger.Now())) && closed && !old(closed) ==> Over(ledger.Now(), executionId)
    {
      hide ChatLedger.Run, ChatLedger.Inv, Sent, Over;
      ghost var db, p := ledger.Now(), Now();
      DeliverNext(leg.reached, leg.answered, leg.now);
      SentEffect(db, p, executionId, attempt, leg.reached, leg.answered, leg.now);
      done := SentAsEvents(db, p, executionId, attempt, leg);
      ghost var more := ledger.OthersMove(others);
      StaysOver(db, done, more, executionId);
      done := BothDone(db, done, more);
    }

    /** What is pending joins the chain, every delivery of the chain is waited for while the ledger's other users go on, and only then a closed publisher raises. */
    method Flush(clock: int, legs: nat -> Leg, others: nat -> seq<ChatLedger.Event>) returns (raised: bool, ghost done: seq<ChatLedger.Event>)
      modifies this, ledger
      ensures raised == closed && Drained(old(Now()), Now()) && made == if old(pending) then number else LastEnqueued(old(Now()))
      ensures ChatLedger.Run(old(ledger.Now()), done) == Some(ledger.Now())
      ensures ChatLedger.Inv(old(ledger.Now())) && raised && !old(closed) ==> Over(ledger.Now(), executionId)
      ensures (forall k :: others(k) == []) ==>
        (ledger.Now(), Now()) == SentAll(old(ledger.Now()), Called(cfg, old(Now()), Call.Flush, clock).value, executionId, attempt, legs)
    {
      hide ChatLedger.Run, ChatLedger.Inv, Over, Sent, Redaction.CoveredText;
      ghost var db, p := ledger.Now(), Called(cfg, Now(), Call.Flush, clock).value;
      if pending {
        Enqueue(clock);
      }
      done := NothingDone(db);
      while queue != []
        invariant ChatLedger.Run(db, done) == Some(ledger.Now()) && Drained(p, Now().(queue := [], pending := false))
        invariant LastEnqueued(Now()) == LastEnqueued(p)
        invariant !pending && (ChatLedger.Inv(db) ==> ChatLedger.Inv(ledger.Now()))
        invariant (ChatLedger.Inv(db) && closed && !p.closed ==> Over(ledger.Now(), executionId))
        invariant (forall k :: others(k) == []) ==>
          SentAll(ledger.Now(), Now(), executionId, attempt, legs) == SentAll(db, p, executionId, attempt, legs)
        decreases |queue|
      {
        var left := |queue|;
        ghost var more := DeliverAmongOthers(legs(left), others(left));
        StaysOver(db, done, more, executionId);
        done := BothDone(db, done, more);
      }
      return closed, done;
    }
  }

  /** One delivery's way to the ledger and back. */
  datatype Path = Path(reached: bool, answered: bool, now: int)
  type Leg = l: Path | l.answered ==> l.reached witness Path(false, false, 0)

  lemma SentAsEvents(db: Db, p: Publisher, id: string, attempt: int, leg: Leg) returns (step: seq<ChatLedger.Event>)
    requires p.queue != []
    ensures ChatLedger.Run(db, step) == Some(Sent(db, p, id, attempt, leg.reached, leg.answered, leg.now).0)
    ensures var (after, rest) := Sent(db, p, id, attempt, leg.reached, leg.answered, leg.now);
      ChatLedger.Inv(db) && rest.closed && !p.closed ==> Over(after, id)
  {
    var d := p.queue[0];
    hide Over;
    SentIsOver(db, p, id, attempt, leg);
    SentIsAStep(db, p, id, attempt, leg.reached, leg.answered, leg.now);
    if Sent(db, p, id, attempt, leg.reached, leg.answered, leg.now).0 == db {
      step := NothingDone(db);
    } else {
      step := OneDone(db, Checkpoints(id, attempt, d.text, d.number, d.phase, leg.now));
    }
  }

  lemma SentIsOver(db: Db, p: Publisher, id: string, attempt: int, leg: Leg)
    requires p.queue != []
    ensures var (after, rest) := Sent(db, p, id, attempt, leg.reached, leg.answered, leg.now);
      db.executions.Keys <= db.issued && rest.closed && !p.closed ==> Over(after, id)
  {
  }

  /** The execution is closed, or deleted for good. */
  predicate Over(db: Db, id: string) {
    id in db.issued && (id in db.executions ==> Closed(db.executions[id].status))
  }

  lemma StaysOver(db: Db, done: seq<ChatLedger.Event>, more: seq<ChatLedger.Event>, id: string)
    requires ChatLedger.Run(db, done).Some? && ChatLedger.Run(ChatLedger.Run(db, done).value, more).Some?
    ensures var (a, b) := (ChatLedger.Run(db, done).value, ChatLedger.Run(ChatLedger.Run(db, done).value, more).value);
      ChatLedger.Inv(db) ==> ChatLedger.Inv(b) && (Over(a, id) ==> Over(b, id))
  {
    if ChatLedger.Inv(db) {
      RunKeeps(db, done);
      RunKeeps(ChatLedger.Run(db, done).value, more);
    }
  }

  /** The whole chain, one delivery after the other. */
  function SentAll(db: Db, p: Publisher, id: string, attempt: int, legs: nat -> Leg): (Db, Publisher)
    decreases |p.queue|
  {
    if p.queue == [] then (db, p)
    else
      var leg := legs(|p.queue|);
      var (after, rest) := Sent(db, p, id, attempt, leg.reached, leg.answered, leg.now);
      SentAll(after, rest, id, attempt, legs)
  }

  /** While the attempt runs, a flush whose last delivery gets through leaves the whole covered text in the ledger and does not raise,
      whatever became of the deliveries before it. */
  lemma {:induction false} FlushStoresTheWhole(cfg: Config, db: Db, p: Publisher, id: string, attempt: int, legs: nat -> Leg)
    requires Sound(cfg, p) && !p.pending && p.queue != [] && legs(1).reached
    requires id in db.executions && db.executions[id].status == Running && db.executions[id].attempt == attempt && db.executions[id].draftSeq <= p.made
    ensures var (after, rest) := SentAll(db, p, id, attempt, legs);
      && rest.closed == p.closed && rest.made == p.number
      && id in after.executions && after.executions[id].draftSeq == p.number
      && after.executions[id].draftText == Redaction.CoveredText(cfg.rules, p.text)
    decreases |p.queue|
  {
    hide Redaction.CoveredText;
    var leg := legs(|p.queue|);
    var (after, rest) := Sent(db, p, id, attempt, leg.reached, leg.answered, leg.now);
    PoppedKeeps(cfg, p);
    SoundWhenClosed(cfg, p.(queue := p.queue[1..], made := p.queue[0].number), rest.closed);
    if |p.queue| > 1 {
      FlushStoresTheWhole(cfg, after, rest, id, attempt, legs);
    } else {
      assert SentAll(after, rest, id, attempt, legs) == (after, rest);
    }
  }

  /** Nothing is left to send, and nothing that was to be sent has changed. */
  predicate Drained(before: Publisher, after: Publisher) {
    after == before.(queue := [], pending := false, made := after.made, sentAt := after.sentAt, closed := after.closed) && (before.closed ==> after.closed)
  }

  function Sent(db: Db, p: Publisher, id: string, attempt: int, reached: bool, answered: bool, now: int): (Db, Publisher)
    requires p.queue != []
  {
    var rest := p.(queue := p.queue[1..], made := p.queue[0].number);
    if !reached then (db, rest)
    else
      var (after, ack) := Delivered(db, id, attempt, p.queue[0], now);
      (after, rest.(closed := rest.closed || (answered && ack.terminal)))
  }

  // ----- one execution, its publishers, and everything else that happens to the ledger

  datatype World = World(db: Db, publishers: map<int, Publisher>)

  datatype Event =
    | Opens(attempt: int, now: int)
    | Calls(attempt: int, call: Call, clock: int)
    | Delivers(attempt: int, reached: bool, answered: bool, now: int)
    | Elsewhere(e: ChatLedger.Event)

  /** One publisher an attempt number; no one else begins an attempt of this execution or writes its draft. */
  predicate Possible(w: World, id: string, e: Event) {
    match e
    case Opens(attempt, _) => attempt !in w.publishers && attempt >= 1
    case Calls(attempt, call, clock) => attempt in w.publishers
    case Delivers(attempt, reached, answered, _) => attempt in w.publishers && w.publishers[attempt].queue != [] && (answered ==> reached)
    case Elsewhere(e) => ChatLedger.Possible(w.db, e) && !((e.Begins? || e.Checkpoints?) && e.id == id)
  }

  /** Beginning an attempt is what opens its publisher; a raised call changes nothing. */
  function Next(cfg: Config, id: string, w: World, e: Event): World
    requires Possible(w, id, e)
  {
    match e
    case Opens(attempt, now) =>
      var (db, begun) := Beginning(w.db, id, attempt, now);
      World(db, if begun then w.publishers[attempt := Fresh()] else w.publishers)
    case Calls(attempt, call, clock) =>
      var p := Called(cfg, w.publishers[attempt], call, clock);
      if p.Some? then w.(publishers := w.publishers[attempt := p.value]) else w
    case Delivers(attempt, reached, answered, now) =>
      var (db, p) := Sent(w.db, w.publishers[attempt], id, attempt, reached, answered, now);
      World(db, w.publishers[attempt := p])
    case Elsewhere(e) => w.(db := ChatLedger.Next(w.db, e))
  }

  /** Numbers rise along the chain, above everything made and up to the current one. */
  predicate Ordered(queue: seq<Delivery>, above: int, upTo: int) {
    && (forall k | 0 <= k < |queue| :: above < queue[k].number <= upTo)
    && (forall j, k | 0 <= j < k < |queue| :: queue[j].number < queue[k].number)
  }

  predicate TextsMatch(cfg: Config, p: Publisher) {
    forall k | 0 <= k < |p.queue| :: p.queue[k].number < |p.history| && p.queue[k].text == Redaction.CoveredText(cfg.rules, p.history[p.queue[k].number])
  }

  function LastEnqueued(p: Publisher): nat {
    if p.queue == [] then p.made else p.queue[|p.queue| - 1].number
  }

  /** Deliveries are made in rising order and each carries the covered whole text at its number. */
  predicate Sound(cfg: Config, p: Publisher) {
    && |p.history| == p.number + 1 && p.history[p.number] == p.text
    && Ordered(p.queue, p.made, p.number) && TextsMatch(cfg, p) && p.made <= p.number
    && (p.pending <==> LastEnqueued(p) < p.number)
  }

  /** The stored draft is the covered text of the attempt's own publisher at the stored number, and what is still to come is later. */
  predicate DraftMatches(cfg: Config, w: World, row: Execution) {
    if row.attempt in w.publishers then
      var p := w.publishers[row.attempt];
      && 0 <= row.draftSeq <= p.made && p.made < |p.history|
      && row.draftText == if row.draftSeq == 0 then "" else Redaction.CoveredText(cfg.rules, p.history[row.draftSeq])
    else row.draftSeq == 0 && row.draftText == ""
  }

  predicate Inv(cfg: Config, id: string, w: World) {
    && ChatLedger.Inv(w.db)
    && (forall a | a in w.publishers :: Sound(cfg, w.publishers[a]))
    && (id in w.db.executions ==>
          DraftMatches(cfg, w, w.db.executions[id]) && forall a | a in w.publishers :: a <= w.db.executions[id].attempt)
    && (w.publishers != map[] ==> id in w.db.issued)
  }

  // ----- every step keeps it

  lemma GrownKeeps(cfg: Config, p: Publisher, more: string, phase: Phase)
    requires Sound(cfg, p)
    ensures Sound(cfg, Grown(p, more, phase)) && p.history <= Grown(p, more, phase).history && Grown(p, more, phase).made == p.made
      && Grown(p, more, phase).pending
  {
  }

  lemma EnqueuedKeeps(cfg: Config, p: Publisher, clock: int)
    requires Sound(cfg, p) && p.pending
    ensures Sound(cfg, Enqueued(cfg, p, clock)) && Enqueued(cfg, p, clock).history == p.history && Enqueued(cfg, p, clock).made == p.made
  {
    hide Redaction.CoveredText;
  }

  lemma CallKeeps(cfg: Config, p: Publisher, call: Call, clock: int)
    requires Sound(cfg, p)
    ensures match Called(cfg, p, call, clock)
      case Some(after) => Sound(cfg, after) && after.made == p.made && p.history <= after.history
      case None => true
  {
    var (more, phase) := match call
      case Push(piece) => (piece, Responding)
      case PushTool(name) => (ToolMarker(name), Tool)
      case MarkPhase(phase) => ("", phase)
      case Flush => ("", p.phase);
    hide Sound, Enqueued, Grown, ToolMarker;
    GrownKeeps(cfg, p, more, phase);
    var grown := Grown(p, more, phase);
    SoundWhenStarted(cfg, grown);
    EnqueuedKeeps(cfg, grown, clock);
    EnqueuedKeeps(cfg, grown.(started := true), clock);
    if p.pending {
      EnqueuedKeeps(cfg, p, clock);
    }
  }

  lemma SoundWhenStarted(cfg: Config, p: Publisher)
    requires Sound(cfg, p)
    ensures Sound(cfg, p.(started := true))
  {
  }

  predicate SameDraft(before: Execution, after: Execution) {
    after.attempt == before.attempt && after.draftSeq == before.draftSeq && after.draftText == before.draftText
  }

  lemma FinalizingKeepsDrafts(db: Db, outcome: Outcome, now: int, id: string)
    requires id in ChatLedger.Next(db, Finalizes(outcome, now)).executions
    ensures id in db.executions && SameDraft(db.executions[id], ChatLedger.Next(db, Finalizes(outcome, now)).executions[id])
  {
    hide WithSteps, WithMessage, ObservedAs, Observed, Observing, ReportAllows;
    ObservingKeepsRows(db, outcome);
  }

  lemma ObservingKeepsRows(db: Db, outcome: Outcome)
    ensures var observed := Observing(db, outcome.executionId, outcome.userId, outcome.attempt, outcome.report);
      observed.Ok? ==> observed.value.executions == db.executions
  {
  }

  lemma OneRowKeepsDrafts(db: Db, e: ChatLedger.Event, id: string)
    requires OneRowEvent(e) && !((e.Begins? || e.Checkpoints?) && e.id == id)
    requires id in ChatLedger.Next(db, e).executions
    ensures id in db.executions && SameDraft(db.executions[id], ChatLedger.Next(db, e).executions[id])
  {
    hide ObservedAs, Observed, SeatTaken;
  }

  /** Only beginning an attempt and checkpointing write a draft; an accepted turn starts with an empty one. */
  lemma DraftsKept(db: Db, e: ChatLedger.Event, id: string)
    requires !((e.Begins? || e.Checkpoints?) && e.id == id)
    requires id in ChatLedger.Next(db, e).executions && !(e.Accepts? && e.id == id)
    ensures id in db.executions && SameDraft(db.executions[id], ChatLedger.Next(db, e).executions[id])
  {
    if e.Finalizes? {
      FinalizingKeepsDrafts(db, e.outcome, e.now, id);
    } else if OneRowEvent(e) {
      OneRowKeepsDrafts(db, e, id);
    } else {
      hide SameDraft;
      assert id in db.executions;
      assert ChatLedger.Next(db, e).executions[id] == db.executions[id] || e.Recovers?;
      hide ChatLedger.Next;
      RecoveredKeepsDraft(db, e, id);
    }
  }

  lemma RecoveredKeepsDraft(db: Db, e: ChatLedger.Event, id: string)
    requires id in db.executions && id in ChatLedger.Next(db, e).executions
    requires ChatLedger.Next(db, e).executions[id] == db.executions[id] || e.Recovers?
    ensures SameDraft(db.executions[id], ChatLedger.Next(db, e).executions[id])
  {
  }

  lemma ExecutionKept(db: Db, id: string, e: ChatLedger.Event)
    requires ChatLedger.Possible(db, e) && !((e.Begins? || e.Checkpoints?) && e.id == id)
    requires id in db.issued && id in ChatLedger.Next(db, e).executions
    ensures id in db.executions && SameDraft(db.executions[id], ChatLedger.Next(db, e).executions[id])
  {
    hide ChatLedger.Next;
    DraftsKept(db, e, id);
  }

  lemma NewExecution(db: Db, id: string, e: ChatLedger.Event)
    requires ChatLedger.Inv(db) && ChatLedger.Possible(db, e) && !((e.Begins? || e.Checkpoints?) && e.id == id)
    requires id !in db.issued && id in ChatLedger.Next(db, e).executions
    ensures var after := ChatLedger.Next(db, e).executions[id]; after.attempt == 0 && after.draftSeq == 0 && after.draftText == ""
  {
    assert id !in db.executions;
    hide ChatLedger.Inv;
    if e.Accepts? && e.id == id {
      AcceptedIsEmpty(db, e, id);
    } else {
      hide ChatLedger.Next;
      DraftsKept(db, e, id);
    }
  }

  lemma AcceptedIsEmpty(db: Db, e: ChatLedger.Event, id: string)
    requires e.Accepts? && e.id == id
    ensures id in ChatLedger.Next(db, e).executions
    ensures var after := ChatLedger.Next(db, e).executions[id]; after.attempt == 0 && after.draftSeq == 0 && after.draftText == ""
  {
  }

  lemma ElsewhereKeeps(cfg: Config, id: string, w: World, e: ChatLedger.Event)
    requires Inv(cfg, id, w) && Possible(w, id, Elsewhere(e))
    ensures Inv(cfg, id, Next(cfg, id, w, Elsewhere(e)))
  {
    hide ChatLedger.Next, ChatLedger.Inv, Sound;
    StepKeeps(w.db, e);
    ProgressKeepsIssued(w.db, ChatLedger.Next(w.db, e));
    if id in ChatLedger.Next(w.db, e).executions {
      if id in w.db.issued {
        ExecutionKept(w.db, id, e);
      } else {
        NewExecution(w.db, id, e);
      }
    }
  }

  lemma ProgressKeepsIssued(a: Db, b: Db)
    requires Progress(a, b)
    ensures a.issued <= b.issued
  {
  }

  lemma FreshIsSound(cfg: Config)
    ensures Sound(cfg, Fresh())
  {
  }

  /** What beginning an attempt leaves: an empty draft of the new attempt, or the row as it was. */
  lemma BeginEffect(db: Db, id: string, attempt: int, now: int)
    ensures var (after, begun) := Beginning(db, id, attempt, now);
      && after.issued == db.issued && (id in after.executions <==> id in db.executions)
      && (begun ==> (
            && id in db.executions && db.executions[id].attempt <= attempt
            && after.executions[id].attempt == attempt && after.executions[id].draftSeq == 0 && after.executions[id].draftText == ""))
      && (!begun ==> after == db)
  {
  }

  lemma OpenedMatches(cfg: Config, id: string, w: World, attempt: int, db: Db)
    requires Inv(cfg, id, w) && ChatLedger.Inv(db) && db.issued == w.db.issued && id in db.issued
    requires id in w.db.executions && w.db.executions[id].attempt <= attempt
    requires id in db.executions && db.executions[id].attempt == attempt && db.executions[id].draftSeq == 0 && db.executions[id].draftText == ""
    ensures Inv(cfg, id, World(db, w.publishers[attempt := Fresh()]))
  {
    FreshIsSound(cfg);
    hide ChatLedger.Inv, Sound, Redaction.CoveredText;
  }

  lemma OpenKeeps(cfg: Config, id: string, w: World, attempt: int, now: int)
    requires Inv(cfg, id, w) && Possible(w, id, Opens(attempt, now))
    ensures Inv(cfg, id, Next(cfg, id, w, Opens(attempt, now)))
  {
    var (db, begun) := Beginning(w.db, id, attempt, now);
    ChatInvKeys(w.db);
    BeginEffect(w.db, id, attempt, now);
    BeginIsAStep(w.db, id, attempt, now);
    hide ChatLedger.Inv, Progress, Sound, Beginning, ChatLedger.Next, DraftMatches;
    StepKeeps(w.db, Begins(id, attempt, now));
    if begun {
      OpenedMatches(cfg, id, w, attempt, db);
    } else {
      assert Next(cfg, id, w, Opens(attempt, now)) == w;
    }
  }

  lemma ChatInvKeys(db: Db)
    requires ChatLedger.Inv(db)
    ensures db.executions.Keys <= db.issued
  {
  }

  lemma PoppedKeeps(cfg: Config, p: Publisher)
    requires Sound(cfg, p) && p.queue != []
    ensures Sound(cfg, p.(queue := p.queue[1..], made := p.queue[0].number))
    ensures p.made < p.queue[0].number < |p.history| && p.queue[0].text == Redaction.CoveredText(cfg.rules, p.history[p.queue[0].number])
  {
  }

  lemma SoundWhenClosed(cfg: Config, p: Publisher, closed: bool)
    requires Sound(cfg, p)
    ensures Sound(cfg, p.(closed := closed))
  {
  }

  /** A delivery takes the head of the chain, and at most replaces the draft of its own attempt by what it carries. */
  lemma SentEffect(db: Db, p: Publisher, id: string, attempt: int, reached: bool, answered: bool, now: int)
    requires p.queue != []
    ensures var (after, rest) := Sent(db, p, id, attempt, reached, answered, now);
      && rest == p.(queue := p.queue[1..], made := p.queue[0].number).(closed := rest.closed) && (p.closed ==> rest.closed)
      && after.issued == db.issued
      && (id in after.executions <==> id in db.executions)
      && (id in db.executions ==>
            && after.executions[id].attempt == db.executions[id].attempt
            && (SameDraft(db.executions[id], after.executions[id])
                || (db.executions[id].attempt == attempt && after.executions[id].draftSeq == p.queue[0].number && after.executions[id].draftText == p.queue[0].text)))
  {
  }

  lemma DeliveredMatches(cfg: Config, id: string, w: World, attempt: int, db: Db, rest: Publisher)
    requires Inv(cfg, id, w) && attempt in w.publishers && w.publishers[attempt].queue != []
    requires var p := w.publishers[attempt];
      && rest == p.(queue := p.queue[1..], made := p.queue[0].number).(closed := rest.closed) && Sound(cfg, rest)
      && p.made < p.queue[0].number < |p.history| && p.queue[0].text == Redaction.CoveredText(cfg.rules, p.history[p.queue[0].number])
    requires ChatLedger.Inv(db) && db.issued == w.db.issued && (id in db.executions <==> id in w.db.executions)
    requires id in db.executions ==>
      && db.executions[id].attempt == w.db.executions[id].attempt
      && (SameDraft(w.db.executions[id], db.executions[id])
          || (db.executions[id].attempt == attempt && db.executions[id].draftSeq == w.publishers[attempt].queue[0].number
              && db.executions[id].draftText == w.publishers[attempt].queue[0].text))
    ensures Inv(cfg, id, World(db, w.publishers[attempt := rest]))
  {
    hide ChatLedger.Inv, Redaction.CoveredText, Sound;
  }

  lemma DeliverKeeps(cfg: Config, id: string, w: World, attempt: int, reached: bool, answered: bool, now: int)
    requires Inv(cfg, id, w) && Possible(w, id, Delivers(attempt, reached, answered, now))
    ensures Inv(cfg, id, Next(cfg, id, w, Delivers(attempt, reached, answered, now)))
  {
    var p := w.publishers[attempt];
    var d := p.queue[0];
    var (db, rest) := Sent(w.db, p, id, attempt, reached, answered, now);
    SentEffect(w.db, p, id, attempt, reached, answered, now);
    SentIsAStep(w.db, p, id, attempt, reached, answered, now);
    hide ChatLedger.Inv, Redaction.CoveredText, Sound, Sent, ChatLedger.Next, DraftMatches;
    StepKeeps(w.db, Checkpoints(id, attempt, d.text, d.number, d.phase, now));
    PoppedKeeps(cfg, p);
    SoundWhenClosed(cfg, p.(queue := p.queue[1..], made := d.number), rest.closed);
    DeliveredMatches(cfg, id, w, attempt, db, rest);
  }

  lemma SentIsAStep(db: Db, p: Publisher, id: string, attempt: int, reached: bool, answered: bool, now: int)
    requires p.queue != []
    ensures var after := Sent(db, p, id, attempt, reached, answered, now).0;
      var d := p.queue[0];
      after == db || after == ChatLedger.Next(db, Checkpoints(id, attempt, d.text, d.number, d.phase, now))
  {
  }

  lemma CallsKeep(cfg: Config, id: string, w: World, attempt: int, call: Call, clock: int)
    requires Inv(cfg, id, w) && Possible(w, id, Calls(attempt, call, clock))
    ensures Inv(cfg, id, Next(cfg, id, w, Calls(attempt, call, clock)))
  {
    hide ChatLedger.Inv, Redaction.CoveredText, Called, Sound;
    CallKeeps(cfg, w.publishers[attempt], call, clock);
  }

  lemma StepKeepsDrafts(cfg: Config, id: string, w: World, e: Event)
    requires Inv(cfg, id, w) && Possible(w, id, e)
    ensures Inv(cfg, id, Next(cfg, id, w, e))
  {
    hide Inv;
    match e {
      case Opens(attempt, now) => OpenKeeps(cfg, id, w, attempt, now);
      case Calls(attempt, call, clock) => CallsKeep(cfg, id, w, attempt, call, clock);
      case Delivers(attempt, reached, answered, now) => DeliverKeeps(cfg, id, w, attempt, reached, answered, now);
      case Elsewhere(e) => ElsewhereKeeps(cfg, id, w, e);
    }
  }

  function Run(cfg: Config, id: string, w: World, events: seq<Event>): Option<World> {
    if events == [] then Some(w)
    else
      var before := Run(cfg, id, w, events[..|events| - 1]);
      if before.None? || !Possible(before.value, id, events[|events| - 1]) then None
      else Some(Next(cfg, id, before.value, events[|events| - 1]))
  }

  lemma {:induction false} RunKeepsDrafts(cfg: Config, id: string, w: World, events: seq<Event>)
    requires Inv(cfg, id, w) && Run(cfg, id, w, events).Some?
    ensures Inv(cfg, id, Run(cfg, id, w, events).value)
  {
    if events != [] {
      RunKeepsDrafts(cfg, id, w, events[..|events| - 1]);
      StepKeepsDrafts(cfg, id, Run(cfg, id, w, events[..|events| - 1]).value, events[|events| - 1]);
    }
  }

  // ----- what reaches the ledger

  /** The stored draft is what the attempt's last delivery carried. */
  predicate Current(w: World, id: string, attempt: int) {
    id in w.db.executions && w.db.executions[id].attempt == attempt && attempt in w.publishers
    && w.db.executions[id].draftSeq == w.publishers[attempt].made
  }

  /** A delivery of the running attempt that reaches the ledger is never refused, whatever was lost before it. */
  lemma ReachingStores(cfg: Config, id: string, w: World, attempt: int, answered: bool, now: int)
    requires Inv(cfg, id, w) && Possible(w, id, Delivers(attempt, true, answered, now))
    requires id in w.db.executions && w.db.executions[id].status == Running && w.db.executions[id].attempt == attempt
    ensures var after := Next(cfg, id, w, Delivers(attempt, true, answered, now));
      && Current(after, id, attempt)
      && after.db.executions[id].draftText == w.publishers[attempt].queue[0].text
      && after.publishers[attempt].closed == w.publishers[attempt].closed
  {
    PoppedKeeps(cfg, w.publishers[attempt]);
  }

  lemma CurrentStays(cfg: Config, id: string, w: World, attempt: int, e: Event)
    requires Inv(cfg, id, w) && Possible(w, id, e) && Current(w, id, attempt)
    requires !(e.Delivers? && e.attempt == attempt)
    requires id in Next(cfg, id, w, e).db.executions && Next(cfg, id, w, e).db.executions[id].attempt == attempt
    ensures Current(Next(cfg, id, w, e), id, attempt)
  {
    hide Redaction.CoveredText, Sound, WithSteps, WithMessage;
    match e {
      case Elsewhere(e) => ExecutionKept(w.db, id, e);
      case Delivers(other, reached, answered, now) => SentEffect(w.db, w.publishers[other], id, other, reached, answered, now);
      case Calls(other, call, clock) =>
      case Opens(other, now) =>
    }
  }

  lemma {:induction false} CurrentLasts(cfg: Config, id: string, w: World, attempt: int, events: seq<Event>)
    requires Inv(cfg, id, w) && Run(cfg, id, w, events).Some? && Current(w, id, attempt)
    requires forall k | 0 <= k < |events| :: !(events[k].Delivers? && events[k].attempt == attempt)
    requires id in Run(cfg, id, w, events).value.db.executions && Run(cfg, id, w, events).value.db.executions[id].attempt == attempt
    ensures Current(Run(cfg, id, w, events).value, id, attempt)
  {
    if events != [] {
      assert ChatLedger.Inv(w.db);
      hide Next, Possible, Inv, Current, ChatLedger.Inv, Progress;
      var front, e := events[..|events| - 1], events[|events| - 1];
      var before := Run(cfg, id, w, front).value;
      RunKeepsDrafts(cfg, id, w, front);
      RunAdvances(cfg, id, w, front);
      StepAdvances(cfg, id, before, e);
      CurrentIsThere(w, id, attempt);
      AttemptBetween(w.db, before.db, Next(cfg, id, before, e).db, id);
      CurrentLasts(cfg, id, w, attempt, front);
      CurrentStays(cfg, id, before, attempt, e);
    }
  }

  lemma CurrentIsThere(w: World, id: string, attempt: int)
    requires Current(w, id, attempt)
    ensures id in w.db.executions && w.db.executions[id].attempt == attempt
  {
  }

  lemma AttemptBetween(a: Db, b: Db, c: Db, id: string)
    requires ChatLedger.Inv(a) && Progress(a, b) && Progress(b, c) && id in a.executions && id in c.executions
    ensures id in b.executions && a.executions[id].attempt <= b.executions[id].attempt <= c.executions[id].attempt
  {
  }

  lemma StepAdvances(cfg: Config, id: string, w: World, e: Event)
    requires Inv(cfg, id, w) && Possible(w, id, e)
    ensures Progress(w.db, Next(cfg, id, w, e).db)
  {
    hide ChatLedger.Next, Progress, ChatLedger.Inv, Sound, DraftMatches;
    Stutters(w.db);
    match e {
      case Opens(attempt, now) => BeginIsAStep(w.db, id, attempt, now); StepKeeps(w.db, Begins(id, attempt, now));
      case Calls(attempt, call, clock) =>
      case Delivers(attempt, reached, answered, now) =>
        var p := w.publishers[attempt];
        SentIsAStep(w.db, p, id, attempt, reached, answered, now);
        StepKeeps(w.db, Checkpoints(id, attempt, p.queue[0].text, p.queue[0].number, p.queue[0].phase, now));
      case Elsewhere(e) => StepKeeps(w.db, e);
    }
  }

  lemma BeginIsAStep(db: Db, id: string, attempt: int, now: int)
    ensures Beginning(db, id, attempt, now).0 == ChatLedger.Next(db, Begins(id, attempt, now))
  {
  }

  /** All of it only ever advances the ledger. */
  lemma {:induction false} RunAdvances(cfg: Config, id: string, w: World, events: seq<Event>)
    requires Inv(cfg, id, w) && Run(cfg, id, w, events).Some?
    ensures Progress(w.db, Run(cfg, id, w, events).value.db)
  {
    if events == [] {
      Stutters(w.db);
    } else {
      var front := events[..|events| - 1];
      RunAdvances(cfg, id, w, front);
      RunKeepsDrafts(cfg, id, w, front);
      var before := Run(cfg, id, w, front).value;
      StepAdvances(cfg, id, before, events[|events| - 1]);
      StepKeepsDrafts(cfg, id, before, events[|events| - 1]);
      ProgressInSteps(w.db, before.db, Next(cfg, id, before, events[|events| - 1]).db);
    }
  }

  /** Nothing is left to send. */
  predicate Flushed(w: World, attempt: int) {
    attempt in w.publishers && w.publishers[attempt].queue == [] && !w.publishers[attempt].pending
  }

  /** If the last delivery made was stored and the chain is flushed, the ledger holds the whole covered text, whatever was lost before. */
  lemma FlushedIsWhole(cfg: Config, id: string, w: World, attempt: int, events: seq<Event>)
    requires Inv(cfg, id, w) && Current(w, id, attempt) && Run(cfg, id, w, events).Some?
    requires forall k | 0 <= k < |events| :: !(events[k].Delivers? && events[k].attempt == attempt)
    ensures var end := Run(cfg, id, w, events).value;
      Flushed(end, attempt) && id in end.db.executions && end.db.executions[id].attempt == attempt ==>
        var p, row := end.publishers[attempt], end.db.executions[id];
        row.draftSeq == p.number && (p.number > 0 ==> row.draftText == Redaction.CoveredText(cfg.rules, p.text))
  {
    RunKeepsDrafts(cfg, id, w, events);
    var end := Run(cfg, id, w, events).value;
    hide Redaction.CoveredText, Run, ChatLedger.Inv;
    if id in end.db.executions && end.db.executions[id].attempt == attempt {
      CurrentLasts(cfg, id, w, attempt, events);
    }
  }

  /** Once a newer attempt has begun, an older one's deliveries change nothing in the ledger. */
  lemma OlderAttemptIsSilent(cfg: Config, id: string, w: World, events: seq<Event>, older: int, reached: bool, answered: bool, now: int)
    requires Inv(cfg, id, w) && Run(cfg, id, w, events).Some? && id in w.db.executions && older < w.db.executions[id].attempt
    requires Possible(Run(cfg, id, w, events).value, id, Delivers(older, reached, answered, now))
    ensures var end := Run(cfg, id, w, events).value;
      Next(cfg, id, end, Delivers(older, reached, answered, now)).db == end.db
  {
    RunAdvances(cfg, id, w, events);
  }

  /** With a marker that cleans, no stored draft ever carries a credential. */
  lemma StoredDraftIsClean(cfg: Config, id: string, w: World, events: seq<Event>)
    requires Redaction.CleanMarker(cfg.rules) && Inv(cfg, id, w) && Run(cfg, id, w, events).Some?
    ensures var end := Run(cfg, id, w, events).value;
      id in end.db.executions ==> !Redaction.SuspectText(cfg.rules, end.db.executions[id].draftText)
  {
    RunKeepsDrafts(cfg, id, w, events);
    var end := Run(cfg, id, w, events).value;
    hide Redaction.CoveredText, Redaction.SuspectText, Redaction.CleanMarker, ChatLedger.Inv, Run;
    Redaction.EmptyIsClean(cfg.rules);
    if id in end.db.executions && end.db.executions[id].draftSeq != 0 {
      var row := end.db.executions[id];
      Redaction.CoveredIsClean(cfg.rules, end.publishers[row.attempt].history[row.draftSeq]);
    }
  }

  /** A publisher gives up only once the ledger has closed the execution, or it is gone. */
  predicate GaveUpRightly(w: World, id: string) {
    forall a | a in w.publishers && w.publishers[a].closed && id in w.db.executions :: Closed(w.db.executions[id].status)
  }

  lemma {:induction false} GivesUpOnlyWhenClosed(cfg: Config, id: string, w: World, events: seq<Event>)
    requires Inv(cfg, id, w) && GaveUpRightly(w, id) && Run(cfg, id, w, events).Some?
    ensures GaveUpRightly(Run(cfg, id, w, events).value, id)
  {
    if events != [] {
      var front, e := events[..|events| - 1], events[|events| - 1];
      GivesUpOnlyWhenClosed(cfg, id, w, front);
      RunKeepsDrafts(cfg, id, w, front);
      var before := Run(cfg, id, w, front).value;
      StepAdvances(cfg, id, before, e);
      GivesUpStep(cfg, id, before, e);
    }
  }

  lemma GivesUpStep(cfg: Config, id: string, w: World, e: Event)
    requires Inv(cfg, id, w) && GaveUpRightly(w, id) && Possible(w, id, e) && Progress(w.db, Next(cfg, id, w, e).db)
    ensures GaveUpRightly(Next(cfg, id, w, e), id)
  {
    hide Redaction.CoveredText, ChatLedger.Next, Sound, DraftMatches;
  }

  /** The hypothesis of one publisher a number is needed: beginning the same number again opens the row to the old publisher's later
      deliveries, and shuts out the new one's until it catches up. */
  lemma ReusedNumberLetsTheOldTextIn(db: Db, id: string, attempt: int, stale: Delivery, newer: Delivery, now: int)
    requires id in db.executions && db.executions[id].status == Running && db.executions[id].attempt == attempt
    requires 0 < newer.number <= stale.number
    ensures var again := Beginning(db, id, attempt, now);
      && again.1
      && var (after, stored) := Checkpointing(again.0, id, attempt, stale.text, stale.number, stale.phase, now);
        && stored && after.executions[id].draftText == stale.text
        && !Checkpointing(after, id, attempt, newer.text, newer.number, newer.phase, now).1
  {
  }
}
