/** The ledger of chat executions: guarded one-statement updates, and the one transaction that closes a turn. */
module ChatLedger {
  import opened Wrappers

  datatype Status = Queued | Running | Completed | Failed | Canceled

  datatype Phase = Starting | Thinking | Responding | Tool | Done

  datatype Spend = Spend(modelUsed: string, costUsd: Option<real>, numTurns: Option<int>, stopReason: string, usage: string)

  datatype Execution = Execution(
    userId: string, threadId: string, status: Status, phase: Phase,
    draftText: string, draftSeq: int, attempt: int,
    assistant: Option<string>, spend: Option<Spend>, error: Option<string>,
    createdAt: int, updatedAt: int, startedAt: Option<int>, completedAt: Option<int>)

  datatype ObservedStatus = Succeeded | Failure | Cancelled

  /** A run's terminal report; `body` stands for every other column. */
  datatype Report = Report(executionId: string, attemptId: int, status: ObservedStatus, body: string, ttftMs: Option<nat>)

  datatype Observation = Observation(userId: string, report: Report)

  datatype Message = Message(threadId: string, content: string, toolCalls: string)

  datatype Thread = Thread(userId: string, backend: string, updatedAt: int)

  datatype Step = Step(number: int, content: string)

  datatype StepRow = StepRow(userId: string, step: Step)

  /** The tables; `issued` remembers every execution id ever accepted, since ids are never issued twice. */
  datatype Db = Db(
    executions: map<string, Execution>, observations: map<(string, int), Observation>,
    messages: map<string, Message>, steps: map<(string, int, int), StepRow>,
    threads: map<string, Thread>, issued: set<string>)

  datatype Claim = Claimed | Stale | ThreadBusy

  datatype Refusal = WrongIdentity | NotPersisted | ConflictingObservation | ThreadNotFound

  datatype Outcome = Outcome(executionId: string, userId: string, threadId: string, attempt: int, canceled: bool,
    text: string, toolCalls: string, spend: Spend, steps: seq<Step>, report: Report)

  // ----- the guarded updates, as functions on the tables

  predicate Closed(status: Status) { status == Completed || status == Failed || status == Canceled }

  predicate Holds(row: Execution, threadId: string) { row.threadId == threadId && row.status == Running }

  predicate SeatTaken(executions: map<string, Execution>, threadId: string) {
    exists id | id in executions :: Holds(executions[id], threadId)
  }

  predicate Observed(db: Db, id: string) {
    exists k | k in db.observations :: k.0 == id
  }

  predicate ObservedAs(db: Db, id: string, userId: string, status: ObservedStatus) {
    exists k | k in db.observations :: k.0 == id && db.observations[k].userId == userId && db.observations[k].report.status == status
  }

  /** A running row may be closed that way: its own user's report says so, or there is no report at all. */
  predicate ReportAllows(db: Db, id: string, status: ObservedStatus)
    requires id in db.executions
  {
    ObservedAs(db, id, db.executions[id].userId, status) || !Observed(db, id)
  }

  function Put(db: Db, id: string, row: Execution): Db { db.(executions := db.executions[id := row]) }

  function Claiming(db: Db, id: string, now: int): (Db, Claim) {
    if id !in db.executions || db.executions[id].status != Queued then (db, Stale)
    else if SeatTaken(db.executions, db.executions[id].threadId) then (db, ThreadBusy)
    else (Put(db, id, db.executions[id].(status := Running, startedAt := Some(now), updatedAt := now)), Claimed)
  }

  predicate Idle(row: Execution, before: int, thread: Option<string>) {
    row.status == Running && row.updatedAt < before && (thread.Some? ==> row.threadId == thread.value)
  }

  function IdleIds(executions: map<string, Execution>, before: int, thread: Option<string>): set<string> {
    set id | id in executions && Idle(executions[id], before, thread)
  }

  function Recovered(row: Execution, now: int): Execution {
    row.(status := Queued, phase := Starting, startedAt := None, updatedAt := now)
  }

  function Recovering(db: Db, before: int, now: int, thread: Option<string>): Db {
    db.(executions := map id | id in db.executions ::
      if Idle(db.executions[id], before, thread) then Recovered(db.executions[id], now) else db.executions[id])
  }

  function Beginning(db: Db, id: string, attempt: int, now: int): (Db, bool) {
    if id in db.executions && db.executions[id].status == Running && db.executions[id].attempt <= attempt
    then (Put(db, id, db.executions[id].(attempt := attempt, draftText := "", draftSeq := 0, phase := Starting, updatedAt := now)), true)
    else (db, false)
  }

  function Checkpointing(db: Db, id: string, attempt: int, text: string, seqNo: int, phase: Phase, now: int): (Db, bool) {
    if id in db.executions && db.executions[id].status == Running && db.executions[id].attempt == attempt && db.executions[id].draftSeq < seqNo
    then (Put(db, id, db.executions[id].(draftText := text, draftSeq := seqNo, phase := phase, updatedAt := now)), true)
    else (db, false)
  }

  function Completing(db: Db, id: string, message: string, spend: Spend, now: int): (Db, bool) {
    if id in db.executions && db.executions[id].status == Running && ReportAllows(db, id, Succeeded)
    then (Put(db, id, db.executions[id].(status := Completed, phase := Done, assistant := Some(message), spend := Some(spend),
                 completedAt := Some(now), updatedAt := now)), true)
    else (db, false)
  }

  function RecordingCanceled(db: Db, id: string, message: string, spend: Spend, now: int): (Db, bool) {
    if id in db.executions && db.executions[id].assistant == None &&
       (db.executions[id].status == Canceled
        || (db.executions[id].status == Running && ObservedAs(db, id, db.executions[id].userId, Cancelled)))
    then
      var row := db.executions[id];
      (Put(db, id, row.(status := Canceled, phase := Done, assistant := Some(message), spend := Some(spend),
                 completedAt := if row.completedAt.Some? then row.completedAt else Some(now), updatedAt := now)), true)
    else (db, false)
  }

  function Failing(db: Db, id: string, error: string, now: int): (Db, bool) {
    if id in db.executions && (db.executions[id].status == Queued || (db.executions[id].status == Running && ReportAllows(db, id, Failure)))
    then (Put(db, id, db.executions[id].(status := Failed, phase := Done, error := Some(error), completedAt := Some(now), updatedAt := now)), true)
    else (db, false)
  }

  function Canceling(db: Db, id: string, now: int): (Db, bool) {
    if id in db.executions && (db.executions[id].status == Queued || (db.executions[id].status == Running && ReportAllows(db, id, Cancelled)))
    then (Put(db, id, db.executions[id].(status := Canceled, phase := Done, completedAt := Some(now), updatedAt := now)), true)
    else (db, false)
  }

  // ----- the closing transaction

  /** A stored report comes back without its time to first token. */
  function Rebuilt(o: Observation): Report { o.report.(ttftMs := None) }

  function Observing(db: Db, id: string, userId: string, attempt: int, report: Report): Result<Db, Refusal> {
    if report.executionId != id || report.attemptId != attempt then Err(WrongIdentity)
    else if (id, attempt) !in db.observations then Ok(db.(observations := db.observations[(id, attempt) := Observation(userId, report)]))
    else
      var stored := db.observations[(id, attempt)];
      if stored.userId != userId then Err(NotPersisted)
      else if Rebuilt(stored) != report then Err(ConflictingObservation)
      else Ok(db)
  }

  function Settling(db: Db, outcome: Outcome, now: int): (Db, bool) {
    if outcome.canceled then RecordingCanceled(db, outcome.executionId, outcome.executionId, outcome.spend, now)
    else Completing(db, outcome.executionId, outcome.executionId, outcome.spend, now)
  }

  lemma RefusedSettlement(db: Db, outcome: Outcome, now: int)
    ensures !Settling(db, outcome, now).1 ==> Settling(db, outcome, now).0 == db
  {
  }

  /** A step already there for the same attempt and number stays. */
  function WithStep(steps: map<(string, int, int), StepRow>, outcome: Outcome, step: Step): map<(string, int, int), StepRow> {
    var key := (outcome.executionId, outcome.attempt, step.number);
    if key in steps then steps else steps[key := StepRow(outcome.userId, step)]
  }

  function WithSteps(steps: map<(string, int, int), StepRow>, outcome: Outcome, n: nat): map<(string, int, int), StepRow>
    requires n <= |outcome.steps|
  {
    if n == 0 then steps else WithStep(WithSteps(steps, outcome, n - 1), outcome, outcome.steps[n - 1])
  }

  function WithMessage(messages: map<string, Message>, outcome: Outcome): map<string, Message> {
    var id := outcome.executionId;
    messages[id := if id in messages then messages[id].(content := outcome.text, toolCalls := outcome.toolCalls)
                   else Message(outcome.threadId, outcome.text, outcome.toolCalls)]
  }

  predicate OwnThread(db: Db, outcome: Outcome) {
    outcome.threadId in db.threads && db.threads[outcome.threadId].userId == outcome.userId
  }

  /** The transaction's result: the new tables and whether the turn was accepted, or the exception that rolls it all back. */
  function Finalizing(db: Db, outcome: Outcome, now: int): Result<(Db, bool), Refusal> {
    var observed := Observing(db, outcome.executionId, outcome.userId, outcome.attempt, outcome.report);
    if observed.Err? then Err(observed.error)
    else
      var (settled, accepted) := Settling(observed.value, outcome, now);
      if !accepted then Ok((observed.value, false))
      else if !OwnThread(db, outcome) then Err(ThreadNotFound)
      else
        Ok((settled.(messages := WithMessage(settled.messages, outcome), steps := WithSteps(settled.steps, outcome, |outcome.steps|),
              threads := settled.threads[outcome.threadId := settled.threads[outcome.threadId].(backend := "python", updatedAt := now)]), true))
  }

  /** The ledger and its writer over one connection. */
  class Ledger {
    var executions: map<string, Execution>
    var observations: map<(string, int), Observation>
    var messages: map<string, Message>
    var steps: map<(string, int, int), StepRow>
    var threads: map<string, Thread>
    var issued: set<string>

    constructor (db: Db)
      ensures Now() == db
    {
      executions, observations, messages, steps, threads, issued := db.executions, db.observations, db.messages, db.steps, db.threads, db.issued;
    }

    function Now(): Db
      reads this
    {
      Db(executions, observations, messages, steps, threads, issued)
    }

    predicate HasReport(id: string)
      reads this
    {
      exists k | k in observations :: k.0 == id
    }

    predicate HasReportAs(id: string, userId: string, status: ObservedStatus)
      reads this
    {
      exists k | k in observations :: k.0 == id && observations[k].userId == userId && observations[k].report.status == status
    }

    method ClaimQueued(id: string, now: int) returns (claim: Claim)
      modifies this`executions
      ensures (Now(), claim) == Claiming(old(Now()), id, now)
    {
      if id !in executions || executions[id].status != Queued {
        return Stale;
      }
      if SeatTaken(executions, executions[id].threadId) {
        return ThreadBusy;
      }
      executions := executions[id := executions[id].(status := Running, startedAt := Some(now), updatedAt := now)];
      return Claimed;
    }

    method RecoverStaleRunning(before: int, now: int, thread: Option<string>) returns (count: nat)
      modifies this`executions
      ensures Now() == Recovering(old(Now()), before, now, thread)
      ensures count == |IdleIds(old(executions), before, thread)|
    {
      var idle := IdleIds(executions, before, thread);
      count := |idle|;
      executions := map id | id in executions :: if id in idle then Recovered(executions[id], now) else executions[id];
    }

    method BeginAttempt(id: string, attempt: int, now: int) returns (begun: bool)
      modifies this`executions
      ensures (Now(), begun) == Beginning(old(Now()), id, attempt, now)
    {
      if id !in executions || executions[id].status != Running || executions[id].attempt > attempt {
        return false;
      }
      executions := executions[id := executions[id].(attempt := attempt, draftText := "", draftSeq := 0, phase := Starting, updatedAt := now)];
      return true;
    }

    method CheckpointRunning(id: string, attempt: int, text: string, seqNo: int, phase: Phase, now: int) returns (stored: bool)
      modifies this`executions
      ensures (Now(), stored) == Checkpointing(old(Now()), id, attempt, text, seqNo, phase, now)
    {
      if id !in executions || executions[id].status != Running || executions[id].attempt != attempt || executions[id].draftSeq >= seqNo {
        return false;
      }
      executions := executions[id := executions[id].(draftText := text, draftSeq := seqNo, phase := phase, updatedAt := now)];
      return true;
    }

    method CompleteRunning(id: string, message: string, spend: Spend, now: int) returns (closed: bool)
      modifies this`executions
      ensures (Now(), closed) == Completing(old(Now()), id, message, spend, now)
    {
      if id !in executions || executions[id].status != Running {
        return false;
      }
      if !HasReportAs(id, executions[id].userId, Succeeded) && HasReport(id) {
        return false;
      }
      executions := executions[id := executions[id].(status := Completed, phase := Done, assistant := Some(message),
        spend := Some(spend), completedAt := Some(now), updatedAt := now)];
      return true;
    }

    method RecordCanceledOutcome(id: string, message: string, spend: Spend, now: int) returns (recorded: bool)
      modifies this`executions
      ensures (Now(), recorded) == RecordingCanceled(old(Now()), id, message, spend, now)
    {
      if id !in executions || executions[id].assistant.Some? {
        return false;
      }
      var row := executions[id];
      if row.status != Canceled && !(row.status == Running && HasReportAs(id, row.userId, Cancelled)) {
        return false;
      }
      executions := executions[id := row.(status := Canceled, phase := Done, assistant := Some(message), spend := Some(spend),
        completedAt := if row.completedAt.Some? then row.completedAt else Some(now), updatedAt := now)];
      return true;
    }

    method FailActive(id: string, error: string, now: int) returns (closed: bool)
      modifies this`executions
      ensures (Now(), closed) == Failing(old(Now()), id, error, now)
    {
      if id !in executions || Closed(executions[id].status) {
        return false;
      }
      if executions[id].status == Running && !HasReportAs(id, executions[id].userId, Failure) && HasReport(id) {
        return false;
      }
      executions := executions[id := executions[id].(status := Failed, phase := Done, error := Some(error), completedAt := Some(now), updatedAt := now)];
      return true;
    }

    method CancelActive(id: string, now: int) returns (closed: bool)
      modifies this`executions
      ensures (Now(), closed) == Canceling(old(Now()), id, now)
    {
      if id !in executions || Closed(executions[id].status) {
        return false;
      }
      if executions[id].status == Running && !HasReportAs(id, executions[id].userId, Cancelled) && HasReport(id) {
        return false;
      }
      executions := executions[id := executions[id].(status := Canceled, phase := Done, completedAt := Some(now), updatedAt := now)];
      return true;
    }

    method InsertObservationValues(id: string, userId: string, attempt: int, report: Report) returns (refused: Option<Refusal>)
      modifies this`observations
      ensures match Observing(old(Now()), id, userId, attempt, report)
        case Ok(db) => refused == None && Now() == db
        case Err(reason) => refused == Some(reason) && Now() == old(Now())
    {
      if report.executionId != id || report.attemptId != attempt {
        return Some(WrongIdentity);
      }
      if (id, attempt) !in observations {
        observations := observations[(id, attempt) := Observation(userId, report)];
        return None;
      }
      var stored := observations[(id, attempt)];
      if stored.userId != userId {
        return Some(NotPersisted);
      }
      if Rebuilt(stored) != report {
        return Some(ConflictingObservation);
      }
      return None;
    }

    method InsertSteps(outcome: Outcome)
      modifies this`steps
      ensures steps == WithSteps(old(steps), outcome, |outcome.steps|)
    {
      for k := 0 to |outcome.steps|
        invariant steps == WithSteps(old(steps), outcome, k)
      {
        var key := (outcome.executionId, outcome.attempt, outcome.steps[k].number);
        if key !in steps {
          steps := steps[key := StepRow(outcome.userId, outcome.steps[k])];
        }
      }
    }

    /** Every table is written, or only the report is, or the exception leaves all of them as they were. */
    method FinalizeTurn(outcome: Outcome, now: int) returns (result: Result<bool, Refusal>)
      modifies this`executions, this`observations, this`messages, this`steps, this`threads
      ensures match Finalizing(old(Now()), outcome, now)
        case Ok((db, accepted)) => result == Ok(accepted) && Now() == db
        case Err(reason) => result == Err(reason) && Now() == old(Now())
    {
      hide WithSteps, WithMessage, Observing, Completing, RecordingCanceled;
      var saved := (executions, observations, messages, steps);
      var refused := InsertObservationValues(outcome.executionId, outcome.userId, outcome.attempt, outcome.report);
      if refused.Some? {
        return Err(refused.value);
      }
      RefusedSettlement(Now(), outcome, now);
      var settled: bool;
      if outcome.canceled {
        settled := RecordCanceledOutcome(outcome.executionId, outcome.executionId, outcome.spend, now);
      } else {
        settled := CompleteRunning(outcome.executionId, outcome.executionId, outcome.spend, now);
      }
      if !settled {
        return Ok(false);
      }
      messages := WithMessage(messages, outcome);
      InsertSteps(outcome);
      if outcome.threadId !in threads || threads[outcome.threadId].userId != outcome.userId {
        executions, observations, messages, steps := saved.0, saved.1, saved.2, saved.3;
        return Err(ThreadNotFound);
      }
      threads := threads[outcome.threadId := threads[outcome.threadId].(backend := "python", updatedAt := now)];
      return Ok(true);
    }

    method Become(db: Db)
      modifies this
      ensures Now() == db
    {
      executions, observations, messages, steps, threads, issued := db.executions, db.observations, db.messages, db.steps, db.threads, db.issued;
    }

    /** Other workers' statements; one that cannot happen is skipped. */
    method OthersMove(events: seq<Event>) returns (ghost done: seq<Event>)
      modifies this
      ensures Run(old(Now()), done) == Some(Now())
      ensures events == [] ==> Now() == old(Now())
    {
      ghost var start := Now();
      done := [];
      for k := 0 to |events|
        invariant Run(start, done) == Some(Now())
        invariant k == 0 ==> Now() == start
      {
        if Possible(Now(), events[k]) {
          RunStep(start, done, events[k], Now());
          done := done + [events[k]];
          Become(Next(Now(), events[k]));
        }
      }
    }
  }

  // ----- any interleaving of the statements

  datatype Event =
    | Accepts(id: string, userId: string, threadId: string, now: int)
    | Says(id: string, message: Message)
    | Claims(id: string, now: int)
    | Recovers(before: int, now: int, thread: Option<string>)
    | Begins(id: string, attempt: int, now: int)
    | Checkpoints(id: string, attempt: int, text: string, number: int, phase: Phase, now: int)
    | Observes(id: string, userId: string, attempt: int, report: Report)
    | Finalizes(outcome: Outcome, now: int)
    | Fails(id: string, error: string, now: int)
    | Cancels(id: string, now: int)
    | DeletesThread(threadId: string)

  /** New ids are new, and a turn's outcome carries the user and the thread its preparation read from the row. */
  predicate Possible(db: Db, e: Event) {
    match e
    case Accepts(id, _, _, _) => id !in db.issued && id !in db.messages
    case Says(id, _) => id !in db.messages && id !in db.issued
    case Finalizes(outcome, _) =>
      outcome.executionId in db.executions ==>
        var row := db.executions[outcome.executionId]; row.userId == outcome.userId && row.threadId == outcome.threadId
    case _ => true
  }

  function Accepted(userId: string, threadId: string, now: int): Execution {
    Execution(userId, threadId, Queued, Starting, "", 0, 0, None, None, None, now, now, None, None)
  }

  function InThread(db: Db, id: string, threadId: string): bool {
    id in db.executions && db.executions[id].threadId == threadId
  }

  /** Steps, messages, executions and the thread itself, in one transaction; reports stay. */
  function ThreadDeleted(db: Db, threadId: string): Db {
    db.(steps := map k | k in db.steps && !InThread(db, k.0, threadId) :: db.steps[k],
        messages := map m | m in db.messages && db.messages[m].threadId != threadId :: db.messages[m],
        executions := map id | id in db.executions && !InThread(db, id, threadId) :: db.executions[id],
        threads := db.threads - {threadId})
  }

  /** The tables after an event; a refused statement or a rolled back transaction changes nothing. */
  function Next(db: Db, e: Event): Db {
    match e
    case Accepts(id, userId, threadId, now) => Put(db, id, Accepted(userId, threadId, now)).(issued := db.issued + {id})
    case Says(id, message) => db.(messages := db.messages[id := message])
    case Claims(id, now) => Claiming(db, id, now).0
    case Recovers(before, now, thread) => Recovering(db, before, now, thread)
    case Begins(id, attempt, now) => Beginning(db, id, attempt, now).0
    case Checkpoints(id, attempt, text, number, phase, now) => Checkpointing(db, id, attempt, text, number, phase, now).0
    case Observes(id, userId, attempt, report) =>
      var r := Observing(db, id, userId, attempt, report);
      if r.Ok? then r.value else db
    case Finalizes(outcome, now) =>
      var r := Finalizing(db, outcome, now);
      if r.Ok? then r.value.0 else db
    case Fails(id, error, now) => Failing(db, id, error, now).0
    case Cancels(id, now) => Canceling(db, id, now).0
    case DeletesThread(threadId) => ThreadDeleted(db, threadId)
  }

  /** The tables after each event in turn, or none once an event could not have happened. */
  function Run(db: Db, events: seq<Event>): Option<Db> {
    if events == [] then Some(db)
    else
      var before := Run(db, events[..|events| - 1]);
      if before.None? || !Possible(before.value, events[|events| - 1]) then None else Some(Next(before.value, events[|events| - 1]))
  }

  lemma RunStep(db: Db, events: seq<Event>, e: Event, before: Db)
    requires Run(db, events) == Some(before) && Possible(before, e)
    ensures Run(db, events + [e]) == Some(Next(before, e))
  {
    assert (events + [e])[..|events|] == events;
  }

  lemma {:induction false} RunJoins(db: Db, a: seq<Event>, b: seq<Event>)
    requires Run(db, a).Some?
    ensures Run(db, a + b) == Run(Run(db, a).value, b)
  {
    if b == [] {
      assert a + b == a;
    } else {
      RunJoins(db, a, b[..|b| - 1]);
      assert (a + b)[..|a + b| - 1] == a + b[..|b| - 1];
    }
  }

  // ----- what every state satisfies

  /** At most one running execution in a thread. */
  predicate OneSeat(executions: map<string, Execution>) {
    forall i, j | i in executions && j in executions && Holds(executions[i], executions[i].threadId) && Holds(executions[j], executions[i].threadId) :: i == j
  }

  /** An answer is there exactly when the execution points at it, and a completed execution has a report of its own user's success. */
  predicate Linked(db: Db, id: string)
    requires id in db.executions
  {
    var row := db.executions[id];
    && (row.assistant.Some? <==> id in db.messages)
    && (row.assistant.Some? ==> row.assistant.value == id && (row.status == Completed || row.status == Canceled) && db.messages[id].threadId == row.threadId)
    && (row.status == Completed ==> row.assistant.Some? && ObservedAs(db, id, row.userId, Succeeded))
  }

  predicate StepsOwned(db: Db) {
    && (forall k | k in db.steps :: k.0 in db.executions && db.executions[k.0].assistant.Some?)
    && (forall k: (string, int, int), l: (string, int, int) | k in db.steps && l in db.steps && k.0 == l.0 :: k.1 == l.1)
  }

  predicate Inv(db: Db) {
    && db.executions.Keys <= db.issued
    && OneSeat(db.executions)
    && (forall id | id in db.executions :: Linked(db, id))
    && (forall id | id in db.messages && id in db.issued :: id in db.executions)
    && StepsOwned(db)
  }

  /** What no statement may ever do to a row. */
  predicate Advances(before: Execution, after: Execution) {
    && after.userId == before.userId && after.threadId == before.threadId && after.createdAt == before.createdAt
    && (Closed(before.status) ==> after.status == before.status)
    && before.attempt <= after.attempt
    && (before.assistant.Some? ==> after == before)
  }

  ghost predicate RowsAdvance(a: Db, b: Db) {
    forall id | id in a.issued && id in b.executions :: id in a.executions && Advances(a.executions[id], b.executions[id])
  }

  ghost predicate ReportsStay(a: Db, b: Db) {
    forall k | k in a.observations :: k in b.observations && b.observations[k] == a.observations[k]
  }

  ghost predicate AnswersStay(a: Db, b: Db) {
    forall id | id in b.executions && Answered(a, id) :: id in a.messages && id in b.messages && b.messages[id] == a.messages[id]
  }

  ghost predicate StepsStay(a: Db, b: Db) {
    forall k: (string, int, int) | Answered(a, k.0) && k.0 in b.executions :: (k in b.steps <==> k in a.steps) && (k in a.steps ==> b.steps[k] == a.steps[k])
  }

  /** Rows only advance; reports, and the answers and steps of answered executions, are immutable. */
  ghost predicate Progress(a: Db, b: Db) {
    a.issued <= b.issued && RowsAdvance(a, b) && ReportsStay(a, b) && AnswersStay(a, b) && StepsStay(a, b)
  }

  predicate Answered(db: Db, id: string) { id in db.executions && db.executions[id].assistant.Some? }

  // ----- every step keeps it

  lemma Stutters(db: Db)
    requires Inv(db)
    ensures Progress(db, db)
  {
  }

  /** A guarded update of one unanswered row that neither answers it nor completes it. */
  lemma RowUpdated(db: Db, id: string, row: Execution)
    requires Inv(db) && id in db.executions && db.executions[id].assistant == None && row.assistant == None
    requires Advances(db.executions[id], row) && row.status != Completed
    requires row.status == Running ==> db.executions[id].status == Running || !SeatTaken(db.executions, row.threadId)
    ensures Inv(Put(db, id, row)) && Progress(db, Put(db, id, row))
  {
    var after := Put(db, id, row);
    assert row.threadId == db.executions[id].threadId;
    hide Linked, SeatTaken, Advances;
    forall j | j in after.executions ensures Linked(after, j) && Advances(db.executions[j], after.executions[j]) {
      assert Linked(db, j);
      if j == id {
        UnansweredLinked(db, after, id);
      } else {
        SameLinks(db, after, j);
        AdvancesItself(db.executions[j]);
      }
    }
    SeatKept(db.executions, id, row);
    RowsKeep(db, after);
  }

  lemma AdvancesItself(row: Execution)
    ensures Advances(row, row)
  {
  }

  lemma UnansweredLinked(db: Db, after: Db, id: string)
    requires id in db.executions && Linked(db, id) && db.executions[id].assistant == None && after.messages == db.messages
    requires id in after.executions && after.executions[id].assistant == None && after.executions[id].status != Completed
    ensures Linked(after, id)
  {
  }

  lemma SameLinks(db: Db, after: Db, id: string)
    requires id in db.executions && Linked(db, id)
    requires id in after.executions && after.executions[id] == db.executions[id] && after.observations == db.observations
    requires (id in after.messages <==> id in db.messages) && (id in db.messages ==> after.messages[id] == db.messages[id])
    ensures Linked(after, id)
  {
  }

  lemma LinkedAnswers(db: Db, id: string)
    requires id in db.executions && Linked(db, id)
    ensures db.executions[id].assistant.Some? <==> id in db.messages
  {
  }

  lemma SeatKept(executions: map<string, Execution>, id: string, row: Execution)
    requires OneSeat(executions) && id in executions && row.threadId == executions[id].threadId
    requires row.status == Running ==> executions[id].status == Running || !SeatTaken(executions, row.threadId)
    ensures OneSeat(executions[id := row])
  {
    var after := executions[id := row];
    forall i, j | i in after && j in after && Holds(after[i], after[i].threadId) && Holds(after[j], after[i].threadId) ensures i == j {
      if i != id {
        assert Holds(executions[i], after[i].threadId);
      }
      if j != id {
        assert Holds(executions[j], after[i].threadId);
      }
    }
  }

  /** Rows that only advance, with every seat and every link in order, are all there is to check where nothing else has changed. */
  lemma RowsKeep(db: Db, after: Db)
    requires Inv(db) && after == db.(executions := after.executions) && after.executions.Keys == db.executions.Keys
    requires OneSeat(after.executions)
    requires forall id | id in after.executions :: Linked(after, id) && Advances(db.executions[id], after.executions[id])
    ensures Inv(after) && Progress(db, after)
  {
    hide Linked, Advances, OneSeat;
    forall id | id in db.executions ensures db.executions[id].assistant.Some? <==> after.executions[id].assistant.Some?
      ensures db.executions[id].assistant.Some? <==> id in db.messages
    {
      assert Linked(db, id) && Linked(after, id);
      LinkedAnswers(db, id);
      LinkedAnswers(after, id);
    }
  }

  lemma UnansweredWhileActive(db: Db, id: string)
    requires Inv(db) && id in db.executions && !Closed(db.executions[id].status)
    ensures db.executions[id].assistant == None
  {
  }

  lemma NothingYetIsFine(db: Db)
    requires db == Db(map[], map[], map[], map[], map[], {})
    ensures Inv(db)
  {
  }

  predicate OneRowEvent(e: Event) { e.Claims? || e.Begins? || e.Checkpoints? || e.Fails? || e.Cancels? }

  /** A guarded statement on one row changes nothing, or replaces that row, still active, by one that answers nothing. */
  lemma OneRowEffect(db: Db, e: Event)
    requires OneRowEvent(e)
    ensures Next(db, e) == db || (
      && e.id in db.executions && !Closed(db.executions[e.id].status) && e.id in Next(db, e).executions
      && var before, row := db.executions[e.id], Next(db, e).executions[e.id];
        && Next(db, e) == Put(db, e.id, row) && row.assistant == before.assistant && row.status != Completed
        && (before.assistant == None ==> Advances(before, row))
        && (row.status == Running ==> before.status == Running || !SeatTaken(db.executions, row.threadId)))
  {
    hide SeatTaken, ReportAllows, Observed, ObservedAs;
  }

  lemma ActiveRowStep(db: Db, e: Event)
    requires Inv(db) && OneRowEvent(e)
    ensures Inv(Next(db, e)) && Progress(db, Next(db, e))
  {
    Stutters(db);
    OneRowEffect(db, e);
    hide Inv, Progress, Next, Put, SeatTaken, Advances;
    if Next(db, e) != db {
      UnansweredWhileActive(db, e.id);
      RowUpdated(db, e.id, Next(db, e).executions[e.id]);
    }
  }

  lemma RecoverLinks(db: Db, before: int, now: int, thread: Option<string>, id: string)
    requires id in db.executions && Linked(db, id)
    ensures var after := Recovering(db, before, now, thread);
      && id in after.executions && Linked(after, id) && Advances(db.executions[id], after.executions[id])
      && (after.executions[id].status == Running ==> after.executions[id] == db.executions[id])
  {
  }

  lemma RecoverStep(db: Db, before: int, now: int, thread: Option<string>)
    requires Inv(db)
    ensures Inv(Recovering(db, before, now, thread)) && Progress(db, Recovering(db, before, now, thread))
  {
    var after := Recovering(db, before, now, thread);
    assert after == db.(executions := after.executions) && after.executions.Keys == db.executions.Keys;
    hide Linked, Recovering, Advances;
    forall id | id in after.executions
      ensures Linked(after, id) && Advances(db.executions[id], after.executions[id])
      ensures after.executions[id].status == Running ==> after.executions[id] == db.executions[id]
    {
      assert Linked(db, id);
      RecoverLinks(db, before, now, thread, id);
    }
    assert OneSeat(after.executions);
    RowsKeep(db, after);
  }

  lemma AcceptStep(db: Db, e: Event)
    requires Inv(db) && (e.Accepts? || e.Says?) && Possible(db, e)
    ensures Inv(Next(db, e)) && Progress(db, Next(db, e))
  {
    var after := Next(db, e);
    assert e.Accepts? ==> after == db.(executions := db.executions[e.id := after.executions[e.id]], issued := db.issued + {e.id});
    assert e.Says? ==> after == db.(messages := db.messages[e.id := e.message]);
    assert e.Accepts? ==> after.executions[e.id].status == Queued && after.executions[e.id].assistant == None;
    hide Next, Linked;
    forall id | id in db.executions ensures Linked(db, id) && id in after.executions && Linked(after, id)
      ensures db.executions[id].assistant.Some? ==> id in db.messages
    {
      LinkedAnswers(db, id);
      SameLinks(db, after, id);
    }
    if e.Accepts? {
      NothingYetLinked(after, e.id);
    }
    NewIdKeepsInv(db, after, e.id);
    NewIdProgresses(db, after, e.id);
  }

  lemma NothingYetLinked(db: Db, id: string)
    requires id in db.executions && id !in db.messages && db.executions[id].status == Queued && db.executions[id].assistant == None
    ensures Linked(db, id)
  {
  }

  /** An id nobody has seen, given to a queued execution or to a message. */
  predicate AddsNewId(db: Db, after: Db, id: string) {
    && id !in db.issued && id !in db.messages
    && after == db.(executions := after.executions, messages := after.messages, issued := after.issued)
    && if id in after.executions
       then after.messages == db.messages && after.issued == db.issued + {id}
         && after.executions[id].status == Queued && after.executions == db.executions[id := after.executions[id]]
       else after.executions == db.executions && after.issued == db.issued && id in after.messages && after.messages == db.messages[id := after.messages[id]]
  }

  lemma NewIdKeepsInv(db: Db, after: Db, id: string)
    requires Inv(db) && AddsNewId(db, after, id)
    requires forall j | j in after.executions :: Linked(after, j)
    ensures Inv(after)
  {
    hide Linked;
  }

  lemma NewIdProgresses(db: Db, after: Db, id: string)
    requires db.executions.Keys <= db.issued && AddsNewId(db, after, id)
    requires forall j | j in db.executions && db.executions[j].assistant.Some? :: j in db.messages
    ensures Progress(db, after)
  {
  }

  lemma ObservedStays(a: Db, b: Db, id: string, userId: string, status: ObservedStatus)
    requires forall k | k in a.observations :: k in b.observations && b.observations[k] == a.observations[k]
    ensures ObservedAs(a, id, userId, status) ==> ObservedAs(b, id, userId, status)
  {
  }

  lemma ObservingAdds(db: Db, id: string, userId: string, attempt: int, report: Report)
    requires Observing(db, id, userId, attempt, report).Ok?
    ensures var after := Observing(db, id, userId, attempt, report).value;
      && after == db.(observations := after.observations) && (id, attempt) in after.observations
      && forall k | k in db.observations :: k in after.observations && after.observations[k] == db.observations[k]
  {
  }

  lemma ObserveStep(db: Db, id: string, userId: string, attempt: int, report: Report)
    requires Inv(db) && Observing(db, id, userId, attempt, report).Ok?
    ensures var after := Observing(db, id, userId, attempt, report).value;
      Inv(after) && Progress(db, after) && (id, attempt) in after.observations
  {
    var after := Observing(db, id, userId, attempt, report).value;
    ObservingAdds(db, id, userId, attempt, report);
    hide Observing;
    forall j | j in after.executions ensures Linked(after, j) {
      assert Linked(db, j);
      ObservedStays(db, after, j, db.executions[j].userId, Succeeded);
    }
  }

  /** Only steps of this execution and attempt are added; none is changed. */
  lemma {:induction false} StepsAdded(steps: map<(string, int, int), StepRow>, outcome: Outcome, n: nat)
    requires n <= |outcome.steps|
    ensures var after := WithSteps(steps, outcome, n);
      && (forall k | k in steps :: k in after && after[k] == steps[k])
      && (forall k | k in after && k !in steps :: k.0 == outcome.executionId && k.1 == outcome.attempt)
  {
    if n > 0 {
      StepsAdded(steps, outcome, n - 1);
    }
  }

  /** What an accepted settlement does to the row: closed, answered by its own id, and entitled to it. */
  lemma Settled(db: Db, outcome: Outcome, now: int)
    requires Inv(db) && Settling(db, outcome, now).1 && (outcome.executionId, outcome.attempt) in db.observations
    ensures var id := outcome.executionId;
      var after := Settling(db, outcome, now).0;
      && id in db.executions && id in after.executions && after == Put(db, id, after.executions[id])
      && db.executions[id].assistant == None && after.executions[id].assistant == Some(id)
      && Advances(db.executions[id], after.executions[id])
      && after.executions[id].status == (if outcome.canceled then Canceled else Completed)
      && (!outcome.canceled ==> ObservedAs(db, id, db.executions[id].userId, Succeeded))
  {
  }

  /** The closing transaction answers one execution: its row, its message and its steps come together. */
  predicate Answers(db: Db, after: Db, outcome: Outcome, row: Execution) {
    var id := outcome.executionId;
    && id in db.executions && db.executions[id].assistant == None && row.assistant == Some(id) && Advances(db.executions[id], row)
    && row.status == (if outcome.canceled then Canceled else Completed)
    && (!outcome.canceled ==> ObservedAs(db, id, db.executions[id].userId, Succeeded))
    && outcome.threadId == row.threadId
    && after.executions == db.executions[id := row] && after.observations == db.observations && after.issued == db.issued
    && after.messages == WithMessage(db.messages, outcome)
    && after.steps == WithSteps(db.steps, outcome, |outcome.steps|)
  }

  lemma AnswerLinks(db: Db, after: Db, outcome: Outcome, row: Execution, j: string)
    requires Inv(db) && Answers(db, after, outcome, row) && j in after.executions
    ensures Linked(after, j)
  {
  }

  lemma AnswerOwnsSteps(db: Db, after: Db, outcome: Outcome, row: Execution)
    requires Inv(db) && Answers(db, after, outcome, row)
    ensures StepsOwned(after)
  {
    hide OneSeat, Linked, WithMessage;
    StepsAdded(db.steps, outcome, |outcome.steps|);
    forall k | k in after.steps ensures k.0 in after.executions && after.executions[k.0].assistant.Some? {
      assert k in db.steps || k.0 == outcome.executionId;
    }
    forall k, l | k in after.steps && l in after.steps && k.0 == l.0 ensures k.1 == l.1 {
      assert k in db.steps ==> k.0 != outcome.executionId;
      assert l in db.steps ==> l.0 != outcome.executionId;
    }
  }

  lemma AnswerProgresses(db: Db, after: Db, outcome: Outcome, row: Execution)
    requires Inv(db) && Answers(db, after, outcome, row)
    ensures Progress(db, after)
  {
    hide OneSeat, StepsOwned;
    StepsAdded(db.steps, outcome, |outcome.steps|);
    forall id | id in after.executions && Answered(db, id) ensures id in db.messages && id in after.messages && after.messages[id] == db.messages[id] {
      assert Linked(db, id);
    }
  }

  lemma AnswerStep(db: Db, after: Db, outcome: Outcome, row: Execution)
    requires Inv(db) && Answers(db, after, outcome, row)
    ensures Inv(after) && Progress(db, after)
  {
    hide Linked, WithSteps, StepsOwned, Progress;
    forall j | j in after.executions ensures Linked(after, j) {
      AnswerLinks(db, after, outcome, row, j);
    }
    AnswerOwnsSteps(db, after, outcome, row);
    AnswerProgresses(db, after, outcome, row);
  }

  lemma FinalizeStep(db: Db, outcome: Outcome, now: int)
    requires Inv(db) && Possible(db, Finalizes(outcome, now))
    ensures Inv(Next(db, Finalizes(outcome, now))) && Progress(db, Next(db, Finalizes(outcome, now)))
  {
    Stutters(db);
    hide Inv, Progress, WithSteps, WithMessage;
    var observed := Observing(db, outcome.executionId, outcome.userId, outcome.attempt, outcome.report);
    if observed.Ok? {
      ObserveStep(db, outcome.executionId, outcome.userId, outcome.attempt, outcome.report);
      var r := Finalizing(db, outcome, now);
      var (settled, accepted) := Settling(observed.value, outcome, now);
      if r.Ok? && accepted {
        FinalizingAnswers(db, outcome, now);
        hide Finalizing, Settling, Observing, Answers;
        AnswerStep(observed.value, r.value.0, outcome, settled.executions[outcome.executionId]);
        ProgressInSteps(db, observed.value, r.value.0);
      }
    }
  }

  lemma FinalizingAnswers(db: Db, outcome: Outcome, now: int)
    requires Possible(db, Finalizes(outcome, now))
    requires Finalizing(db, outcome, now).Ok? && Finalizing(db, outcome, now).value.1
    requires var observed := Observing(db, outcome.executionId, outcome.userId, outcome.attempt, outcome.report);
      observed.Ok? && Inv(observed.value) && (outcome.executionId, outcome.attempt) in observed.value.observations
    ensures var observed := Observing(db, outcome.executionId, outcome.userId, outcome.attempt, outcome.report).value;
      var settled := Settling(observed, outcome, now).0;
      && outcome.executionId in settled.executions
      && Answers(observed, Finalizing(db, outcome, now).value.0, outcome, settled.executions[outcome.executionId])
  {
    var observed := Observing(db, outcome.executionId, outcome.userId, outcome.attempt, outcome.report).value;
    ObservingAdds(db, outcome.executionId, outcome.userId, outcome.attempt, outcome.report);
    Settled(observed, outcome, now);
    hide Inv, WithSteps, WithMessage, Settling, Observing;
  }

  lemma DeleteStep(db: Db, threadId: string)
    requires Inv(db)
    ensures Inv(ThreadDeleted(db, threadId)) && Progress(db, ThreadDeleted(db, threadId))
  {
    var after := ThreadDeleted(db, threadId);
    hide Linked;
    forall id | id in db.executions
      ensures id in db.messages <==> db.executions[id].assistant.Some?
      ensures id in db.messages ==> db.messages[id].threadId == db.executions[id].threadId
      ensures id in after.executions ==> Linked(after, id)
    {
      assert Linked(db, id);
      LinkedInThread(db, id);
      if id in after.executions {
        SameLinks(db, after, id);
      }
    }
    DeletedKeeps(db, threadId);
    DeletedProgresses(db, threadId);
  }

  lemma LinkedInThread(db: Db, id: string)
    requires id in db.executions && Linked(db, id)
    ensures id in db.messages <==> db.executions[id].assistant.Some?
    ensures id in db.messages ==> db.messages[id].threadId == db.executions[id].threadId
  {
  }

  lemma DeletedKeeps(db: Db, threadId: string)
    requires Inv(db)
    requires forall id | id in db.executions && id in db.messages :: db.messages[id].threadId == db.executions[id].threadId
    requires var after := ThreadDeleted(db, threadId); forall id | id in after.executions :: Linked(after, id)
    ensures Inv(ThreadDeleted(db, threadId))
  {
    hide Linked;
  }

  lemma DeletedProgresses(db: Db, threadId: string)
    requires db.executions.Keys <= db.issued
    requires forall id | id in db.executions :: id in db.messages <==> db.executions[id].assistant.Some?
    requires forall id | id in db.executions && id in db.messages :: db.messages[id].threadId == db.executions[id].threadId
    ensures Progress(db, ThreadDeleted(db, threadId))
  {
  }

  lemma ProgressInSteps(a: Db, b: Db, c: Db)
    requires Inv(a) && Inv(b) && Progress(a, b) && Progress(b, c)
    ensures Progress(a, c)
  {
  }

  lemma StepKeeps(db: Db, e: Event)
    requires Inv(db) && Possible(db, e)
    ensures Inv(Next(db, e)) && Progress(db, Next(db, e))
  {
    hide Inv, Progress;
    match e {
      case Recovers(before, now, thread) => RecoverStep(db, before, now, thread);
      case Observes(id, userId, attempt, report) =>
        Stutters(db);
        if Observing(db, id, userId, attempt, report).Ok? {
          ObserveStep(db, id, userId, attempt, report);
        }
      case Finalizes(outcome, now) => FinalizeStep(db, outcome, now);
      case DeletesThread(threadId) => DeleteStep(db, threadId);
      case Accepts(_, _, _, _) => AcceptStep(db, e);
      case Says(_, _) => AcceptStep(db, e);
      case _ => ActiveRowStep(db, e);
    }
  }

  /** Over every interleaving: one seat a thread, final ends, rising attempts, answers written once and whole. */
  lemma {:induction false} RunKeeps(db: Db, events: seq<Event>)
    requires Inv(db) && Run(db, events).Some?
    ensures Inv(Run(db, events).value) && Progress(db, Run(db, events).value)
  {
    if events == [] {
      Stutters(db);
    } else {
      RunKeeps(db, events[..|events| - 1]);
      var before := Run(db, events[..|events| - 1]).value;
      StepKeeps(before, events[|events| - 1]);
      ProgressInSteps(db, before, Next(before, events[|events| - 1]));
    }
  }

  // ----- what follows for one execution

  /** Once a turn is answered, no later finalization touches its row, its message, its steps or its thread, whoever sends it. */
  lemma AnsweredForGood(db: Db, events: seq<Event>, outcome: Outcome, now: int)
    requires Inv(db) && Run(db, events).Some? && Answered(db, outcome.executionId)
    ensures var after := Run(db, events).value;
      match Finalizing(after, outcome, now)
      case Ok((again, accepted)) => !accepted && again == after.(observations := again.observations)
      case Err(_) => true
  {
    RunKeeps(db, events);
    var after := Run(db, events).value;
    if outcome.executionId in after.executions {
      assert Linked(after, outcome.executionId) && outcome.executionId in db.issued;
      assert Answered(after, outcome.executionId);
    }
  }

  /** Delivering an accepted turn again is a no-op exactly when its report carries no time to first token; otherwise it is refused as a conflict. */
  lemma Redelivered(db: Db, outcome: Outcome, now: int, later: int)
    requires Inv(db) && Possible(db, Finalizes(outcome, now)) && Finalizing(db, outcome, now).Ok? && Finalizing(db, outcome, now).value.1
    ensures var after := Finalizing(db, outcome, now).value.0;
      Finalizing(after, outcome, later) == if outcome.report.ttftMs == None then Ok((after, false)) else Err(ConflictingObservation)
  {
    hide WithSteps, WithMessage, Inv, Linked;
    var after := Finalizing(db, outcome, now).value.0;
    assert (outcome.executionId, outcome.attempt) in after.observations;
  }

  predicate AcceptsAnswer(db: Db, e: Event, id: string) {
    e.Finalizes? && e.outcome.executionId == id && Finalizing(db, e.outcome, e.now).Ok? && Finalizing(db, e.outcome, e.now).value.1
  }

  /** How many finalizations of an execution a run accepts. */
  function AnswersAccepted(db: Db, events: seq<Event>, id: string): nat
    requires Run(db, events).Some?
  {
    if events == [] then 0
    else
      var front := events[..|events| - 1];
      AnswersAccepted(db, front, id) + if AcceptsAnswer(Run(db, front).value, events[|events| - 1], id) then 1 else 0
  }

  /** At most one answer is ever accepted, and none once the execution has one. */
  lemma {:induction false} AnsweredAtMostOnce(db: Db, events: seq<Event>, id: string)
    requires Inv(db) && Run(db, events).Some?
    ensures AnswersAccepted(db, events, id) <= if Answered(db, id) then 0 else 1
    ensures AnswersAccepted(db, events, id) == 1 ==>
      id in Run(db, events).value.issued && (id in Run(db, events).value.executions ==> Answered(Run(db, events).value, id))
  {
    if events != [] {
      var front, e := events[..|events| - 1], events[|events| - 1];
      AnsweredAtMostOnce(db, front, id);
      RunKeeps(db, front);
      var before := Run(db, front).value;
      StepKeeps(before, e);
      AcceptedNeedsNoAnswer(before, e, id);
      assert AnswersAccepted(db, events, id) == AnswersAccepted(db, front, id) + if AcceptsAnswer(before, e, id) then 1 else 0;
      hide Next, AcceptsAnswer;
      AnswerSurvives(db, before, id);
      AnswerSurvives(before, Next(before, e), id);
    }
  }

  lemma AnswerSurvives(a: Db, b: Db, id: string)
    requires Inv(a) && Progress(a, b)
    ensures Answered(a, id) && id in b.executions ==> Answered(b, id)
    ensures Answered(a, id) ==> id in b.issued
    ensures id in a.issued && id !in a.executions ==> id !in b.executions && id in b.issued
  {
  }

  lemma AcceptedNeedsNoAnswer(db: Db, e: Event, id: string)
    requires Inv(db) && Possible(db, e)
    ensures AcceptsAnswer(db, e, id) ==> id in db.executions && !Answered(db, id) && Answered(Next(db, e), id) && id in Next(db, e).issued
  {
    hide WithSteps, WithMessage, ReportAllows, ObservedAs, OneSeat, StepsOwned;
    if AcceptsAnswer(db, e, id) {
      assert Linked(db, id);
    }
  }

  /** A running execution can always be closed by reporting a new attempt of its own. */
  lemma NewAttemptAlwaysCloses(db: Db, outcome: Outcome, now: int)
    requires Inv(db) && Possible(db, Finalizes(outcome, now)) && OwnThread(db, outcome)
    requires outcome.executionId in db.executions && db.executions[outcome.executionId].status == Running
    requires outcome.report.executionId == outcome.executionId && outcome.report.attemptId == outcome.attempt
    requires (outcome.executionId, outcome.attempt) !in db.observations
    requires outcome.report.status == if outcome.canceled then Cancelled else Succeeded
    ensures Finalizing(db, outcome, now).Ok? && Finalizing(db, outcome, now).value.1
  {
  }

  /** Once any attempt has reported, cancelling the running execution takes only after a report that says cancelled; failing it, only after one that says failed. */
  lemma ReportedNeedsAReport(db: Db, events: seq<Event>, id: string, now: int, error: string)
    requires Inv(db) && Run(db, events).Some? && Observed(db, id)
    requires id in Run(db, events).value.executions && Run(db, events).value.executions[id].status == Running
    ensures var after := Run(db, events).value;
      var userId := after.executions[id].userId;
      && (Canceling(after, id, now).1 <==> ObservedAs(after, id, userId, Cancelled))
      && (Failing(after, id, error, now).1 <==> ObservedAs(after, id, userId, Failure))
  {
    RunKeeps(db, events);
    var after := Run(db, events).value;
    var k :| k in db.observations && k.0 == id;
    assert k in after.observations;
  }

  // ----- a worker takes the seat of its execution's thread, among other workers

  /** Why the seat is not had: another run holds it, or there is nothing to run. */
  datatype SeatRefusal = ThreadIsBusy | NotActive

  /** Claim; if the thread is busy put its stale holder back and claim once more; `true` when that raises. */
  function Seated(db: Db, id: string, threadId: string, lease: nat, now: int): (Db, bool) {
    var (first, claim) := Claiming(db, id, now);
    if claim != ThreadBusy then (first, false)
    else
      var recovered := Recovering(first, now - lease, now, Some(threadId));
      if IdleIds(first.executions, now - lease, Some(threadId)) == {} then (recovered, true)
      else
        var (second, again) := Claiming(recovered, id, now);
        (second, again != Claimed)
  }

  /** Undisturbed, a queued execution gets its seat if and only if every holder of it has gone stale. */
  lemma SeatedIff(db: Db, id: string, threadId: string, lease: nat, now: int)
    requires id in db.executions && db.executions[id].threadId == threadId && db.executions[id].status == Queued
    ensures var (after, raised) := Seated(db, id, threadId, lease, now);
      && id in after.executions && (!raised <==> after.executions[id].status == Running)
      && (!raised <==> forall k | k in db.executions && Holds(db.executions[k], threadId) :: Idle(db.executions[k], now - lease, Some(threadId)))
  {
    RecoveryFrees(db, id, threadId, now - lease, now);
    ClaimIs(db, id, now);
    ClaimIs(Recovering(db, now - lease, now, Some(threadId)), id, now);
    hide Recovering, IdleIds, Claiming, Holds, Idle;
  }

  lemma ClaimIs(db: Db, id: string, now: int)
    requires id in db.executions && db.executions[id].status == Queued
    ensures var (after, claim) := Claiming(db, id, now);
      var taken := SeatTaken(db.executions, db.executions[id].threadId);
      && claim == (if taken then ThreadBusy else Claimed) && (taken ==> after == db)
      && id in after.executions && (after.executions[id].status == Running <==> !taken)
  {
  }

  /** What a recovery leaves: the row itself, a seat held by whoever is not idle, and nothing to put back where every holder is not. */
  lemma RecoveryFrees(db: Db, id: string, threadId: string, before: int, now: int)
    requires id in db.executions && db.executions[id].threadId == threadId && db.executions[id].status == Queued
    ensures var after := Recovering(db, before, now, Some(threadId)).executions;
      && id in after && after[id] == db.executions[id]
      && (SeatTaken(after, threadId) <==> exists k | k in db.executions && Holds(db.executions[k], threadId) :: !Idle(db.executions[k], before, Some(threadId)))
    ensures IdleIds(db.executions, before, Some(threadId)) == {} <==> forall k | k in db.executions :: !Idle(db.executions[k], before, Some(threadId))
  {
    var rows, idle := db.executions, IdleIds(db.executions, before, Some(threadId));
    assert forall k | k in rows :: k in idle <==> Idle(rows[k], before, Some(threadId));
    var after := Recovering(db, before, now, Some(threadId)).executions;
    assert forall k | k in after && Holds(after[k], threadId) :: Holds(rows[k], threadId) && k !in idle;
    assert forall k | k in rows && Holds(rows[k], threadId) && k !in idle :: Holds(after[k], threadId);
  }

  /** A missing execution or one that is neither queued nor running is not active; a queued one takes its seat first. */
  function ClaimedFor(db: Db, id: string, threadId: string, lease: nat, now: int): (Db, Result<Execution, SeatRefusal>) {
    if id !in db.executions then (db, Err(NotActive))
    else
      var (after, raised) := if db.executions[id].status == Queued then Seated(db, id, threadId, lease, now) else (db, false);
      if raised then (after, Err(ThreadIsBusy))
      else if id !in after.executions || after.executions[id].status != Running then (after, Err(NotActive))
      else (after, Ok(after.executions[id]))
  }

  class Activities {
    const ledger: Ledger
    const lease: nat

    constructor (ledger: Ledger, lease: nat)
      ensures this.ledger == ledger && this.lease == lease
    {
      this.ledger, this.lease := ledger, lease;
    }

    /** `_take_running_seat`, with other workers' statements between its own. */
    method TakeRunningSeat(id: string, threadId: string, now: int, others: nat -> seq<Event>) returns (raised: bool, ghost done: seq<Event>)
      modifies ledger
      ensures Run(old(ledger.Now()), done) == Some(ledger.Now())
      ensures others(0) == [] && others(1) == [] ==> (ledger.Now(), raised) == Seated(old(ledger.Now()), id, threadId, lease, now)
    {
      hide Run;
      ghost var start := ledger.Now();
      var claim := ledger.ClaimQueued(id, now);
      done := OneDone(start, Claims(id, now));
      if claim != ThreadBusy {
        return false, done;
      }
      ghost var more := ledger.OthersMove(others(0));
      done := BothDone(start, done, more);
      ghost var before := ledger.Now();
      var recovered := ledger.RecoverStaleRunning(now - lease, now, Some(threadId));
      RunStep(start, done, Recovers(now - lease, now, Some(threadId)), before);
      done := done + [Recovers(now - lease, now, Some(threadId))];
      if recovered == 0 {
        return true, done;
      }
      more := ledger.OthersMove(others(1));
      done := BothDone(start, done, more);
      before := ledger.Now();
      claim := ledger.ClaimQueued(id, now);
      RunStep(start, done, Claims(id, now), before);
      done := done + [Claims(id, now)];
      return claim != Claimed, done;
    }

    /** `_claim`: whoever gets a row gets a running one, the only running one of its thread. */
    method Claim(id: string, threadId: string, now: int, others: nat -> seq<Event>) returns (result: Result<Execution, SeatRefusal>, ghost done: seq<Event>)
      requires Inv(ledger.Now())
      modifies ledger
      ensures Run(old(ledger.Now()), done) == Some(ledger.Now()) && Inv(ledger.Now()) && Progress(old(ledger.Now()), ledger.Now())
      ensures result.Ok? ==> id in ledger.executions && result.value == ledger.executions[id] && result.value.status == Running
      ensures result.Ok? ==> forall k | k in ledger.executions && Holds(ledger.executions[k], result.value.threadId) :: k == id
      ensures (forall k :: others(k) == []) ==> (ledger.Now(), result) == ClaimedFor(old(ledger.Now()), id, threadId, lease, now)
    {
      ghost var start := ledger.Now();
      done := NothingDone(start);
      Stutters(start);
      if id !in ledger.executions {
        return Err(NotActive), done;
      }
      if ledger.executions[id].status == Queued {
        ghost var more := ledger.OthersMove(others(0));
        done := BothDone(start, done, more);
        var raised, rest := TakeRunningSeat(id, threadId, now, (n: nat) => others(n + 1));
        done := BothDone(start, done, rest);
        RunKeeps(start, done);
        if raised {
          return Err(ThreadIsBusy), done;
        }
        more := ledger.OthersMove(others(3));
        done := BothDone(start, done, more);
        RunKeeps(start, done);
      }
      if id !in ledger.executions || ledger.executions[id].status != Running {
        return Err(NotActive), done;
      }
      return Ok(ledger.executions[id]), done;
    }
  }

  lemma NothingDone(db: Db) returns (done: seq<Event>)
    ensures done == [] && Run(db, done) == Some(db)
  {
    done := [];
  }

  lemma OneDone(db: Db, e: Event) returns (done: seq<Event>)
    requires Possible(db, e)
    ensures done == [e] && Run(db, done) == Some(Next(db, e))
  {
    done := [e];
    assert done[..0] == [];
  }

  lemma BothDone(db: Db, a: seq<Event>, b: seq<Event>) returns (done: seq<Event>)
    requires Run(db, a).Some?
    ensures done == a + b && Run(db, done) == Run(Run(db, a).value, b)
  {
    RunJoins(db, a, b);
    done := a + b;
  }
}
