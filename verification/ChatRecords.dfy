/** What the statements on chat executions write, column by column, and what a closed turn leaves for good. */
module ChatRecords {
  import opened Wrappers
  import opened ChatLedger

  // ----- who may be changed

  predicate SeatFree(db: Db, threadId: string) {
    forall k | k in db.executions && db.executions[k].threadId == threadId :: db.executions[k].status != Running
  }

  predicate ReportOf(db: Db, id: string, attempt: int, status: ObservedStatus)
    requires id in db.executions
  {
    && (id, attempt) in db.observations
    && db.observations[(id, attempt)].userId == db.executions[id].userId && db.observations[(id, attempt)].report.status == status
  }

  ghost predicate ReportedAs(db: Db, id: string, status: ObservedStatus) {
    id in db.executions && exists attempt :: ReportOf(db, id, attempt, status)
  }

  ghost predicate Unreported(db: Db, id: string) {
    forall attempt :: !AttemptReported(db, id, attempt)
  }

  predicate AttemptReported(db: Db, id: string, attempt: int) { (id, attempt) in db.observations }

  lemma ReportsAre(db: Db, id: string, status: ObservedStatus)
    requires id in db.executions
    ensures ObservedAs(db, id, db.executions[id].userId, status) <==> ReportedAs(db, id, status)
    ensures Observed(db, id) <==> !Unreported(db, id)
    ensures ReportAllows(db, id, status) <==> ReportedAs(db, id, status) || Unreported(db, id)
  {
    if ObservedAs(db, id, db.executions[id].userId, status) {
      var k :| k in db.observations && k.0 == id && db.observations[k].userId == db.executions[id].userId && db.observations[k].report.status == status;
      assert ReportOf(db, id, k.1, status);
    }
    if Observed(db, id) {
      var k :| k in db.observations && k.0 == id;
      assert AttemptReported(db, id, k.1);
    }
    if !Unreported(db, id) {
      var attempt :| AttemptReported(db, id, attempt);
      var k := (id, attempt);
      assert k in db.observations && k.0 == id;
    }
  }

  /** Only this row is written. */
  predicate OnlyRow(db: Db, after: Db, id: string) {
    id in db.executions && id in after.executions && after == db.(executions := db.executions[id := after.executions[id]])
  }

  // ----- what the statements write

  lemma ClaimMeans(db: Db, id: string, now: int)
    ensures var (after, claim) := Claiming(db, id, now);
      && (claim == Stale <==> id !in db.executions || db.executions[id].status != Queued)
      && (claim == ThreadBusy <==> claim != Stale && !SeatFree(db, db.executions[id].threadId))
      && (claim != Claimed ==> after == db)
      && (claim == Claimed ==> (OnlyRow(db, after, id)
            && after.executions[id] == db.executions[id].(status := Running, startedAt := Some(now), updatedAt := now)))
  {
  }

  /** An idle row is running and was written last before the given time; it goes back to the queue as it came. */
  lemma RecoverMeans(db: Db, before: int, now: int, thread: Option<string>, id: string)
    requires id in db.executions
    ensures var after, row := Recovering(db, before, now, thread), db.executions[id];
      && after == db.(executions := after.executions) && after.executions.Keys == db.executions.Keys
      && after.executions[id] ==
           if row.status == Running && row.updatedAt < before && (thread == None || thread == Some(row.threadId))
           then row.(status := Queued, phase := Starting, startedAt := None, updatedAt := now) else row
  {
  }

  lemma BeginMeans(db: Db, id: string, attempt: int, now: int)
    ensures var (after, begun) := Beginning(db, id, attempt, now);
      && (begun <==> id in db.executions && db.executions[id].status == Running && attempt >= db.executions[id].attempt)
      && (!begun ==> after == db)
      && (begun ==> (OnlyRow(db, after, id)
            && after.executions[id] == db.executions[id].(attempt := attempt, draftText := "", draftSeq := 0, phase := Starting, updatedAt := now)))
  {
  }

  lemma CheckpointMeans(db: Db, id: string, attempt: int, text: string, number: int, phase: Phase, now: int)
    ensures var (after, stored) := Checkpointing(db, id, attempt, text, number, phase, now);
      && (stored <==> id in db.executions && db.executions[id].status == Running && db.executions[id].attempt == attempt && number > db.executions[id].draftSeq)
      && (!stored ==> after == db)
      && (stored ==> (OnlyRow(db, after, id)
            && after.executions[id] == db.executions[id].(draftText := text, draftSeq := number, phase := phase, updatedAt := now)))
  {
  }

  lemma CompleteMeans(db: Db, id: string, message: string, spend: Spend, now: int)
    ensures var (after, closed) := Completing(db, id, message, spend, now);
      && (closed <==> id in db.executions && db.executions[id].status == Running && (ReportedAs(db, id, Succeeded) || Unreported(db, id)))
      && (!closed ==> after == db)
      && (closed ==> (OnlyRow(db, after, id)
            && after.executions[id] == db.executions[id].(status := Completed, phase := Done, assistant := Some(message), spend := Some(spend),
                 completedAt := Some(now), updatedAt := now)))
  {
    if id in db.executions {
      ReportsAre(db, id, Succeeded);
    }
    hide ReportAllows, ReportedAs, Unreported;
  }

  lemma RecordCanceledMeans(db: Db, id: string, message: string, spend: Spend, now: int)
    ensures var (after, recorded) := RecordingCanceled(db, id, message, spend, now);
      && (recorded <==> (
            && id in db.executions && db.executions[id].assistant == None
            && (db.executions[id].status == Canceled || (db.executions[id].status == Running && ReportedAs(db, id, Cancelled)))))
      && (!recorded ==> after == db)
      && (recorded ==> (OnlyRow(db, after, id)
            && after.executions[id] == db.executions[id].(status := Canceled, phase := Done, assistant := Some(message), spend := Some(spend),
                 completedAt := if db.executions[id].completedAt == None then Some(now) else db.executions[id].completedAt, updatedAt := now)))
  {
    if id in db.executions {
      ReportsAre(db, id, Cancelled);
    }
    hide ObservedAs, ReportedAs, Unreported;
  }

  lemma FailMeans(db: Db, id: string, error: string, now: int)
    ensures var (after, failed) := Failing(db, id, error, now);
      && (failed <==> (
            && id in db.executions
            && (db.executions[id].status == Queued
                || (db.executions[id].status == Running && (ReportedAs(db, id, Failure) || Unreported(db, id))))))
      && (!failed ==> after == db)
      && (failed ==> (OnlyRow(db, after, id)
            && after.executions[id] == db.executions[id].(status := Failed, phase := Done, error := Some(error), completedAt := Some(now), updatedAt := now)))
  {
    if id in db.executions {
      ReportsAre(db, id, Failure);
    }
    hide ReportAllows, ReportedAs, Unreported;
  }

  lemma CancelMeans(db: Db, id: string, now: int)
    ensures var (after, canceled) := Canceling(db, id, now);
      && (canceled <==> (
            && id in db.executions
            && (db.executions[id].status == Queued
                || (db.executions[id].status == Running && (ReportedAs(db, id, Cancelled) || Unreported(db, id))))))
      && (!canceled ==> after == db)
      && (canceled ==> (OnlyRow(db, after, id)
            && after.executions[id] == db.executions[id].(status := Canceled, phase := Done, completedAt := Some(now), updatedAt := now)))
  {
    if id in db.executions {
      ReportsAre(db, id, Cancelled);
    }
    hide ReportAllows, ReportedAs, Unreported;
  }

  /** A report is kept as it came, under its execution and attempt, for the user it came from. */
  lemma ObserveMeans(db: Db, id: string, userId: string, attempt: int, report: Report)
    ensures match Observing(db, id, userId, attempt, report)
      case Err(WrongIdentity) => report.executionId != id || report.attemptId != attempt
      case Err(NotPersisted) => (id, attempt) in db.observations && db.observations[(id, attempt)].userId != userId
      case Err(ConflictingObservation) =>
        (id, attempt) in db.observations && db.observations[(id, attempt)].userId == userId && report != db.observations[(id, attempt)].report.(ttftMs := None)
      case Err(ThreadNotFound) => false
      case Ok(after) =>
        && report.executionId == id && report.attemptId == attempt
        && if (id, attempt) in db.observations then after == db && db.observations[(id, attempt)].userId == userId
           else after == db.(observations := db.observations[(id, attempt) := Observation(userId, report)])
  {
  }

  /** A new turn waits in the queue with nothing of a run in it. */
  lemma AcceptMeans(db: Db, id: string, userId: string, threadId: string, now: int)
    ensures var after := ChatLedger.Next(db, Accepts(id, userId, threadId, now));
      && after == db.(executions := db.executions[id := after.executions[id]], issued := db.issued + {id})
      && var row := after.executions[id];
        && row.userId == userId && row.threadId == threadId && row.status == Queued && row.phase == Starting
        && row.draftText == "" && row.draftSeq == 0 && row.attempt == 0 && row.assistant == None && row.spend == None && row.error == None
        && row.createdAt == now && row.updatedAt == now && row.startedAt == None && row.completedAt == None
  {
  }

  /** Deleting a thread takes the thread, its messages, its executions and their steps, and nothing else; reports stay. */
  lemma DeleteMeans(db: Db, threadId: string)
    ensures var after := ThreadDeleted(db, threadId);
      && (forall t :: t in after.threads <==> t in db.threads && t != threadId) && (forall t | t in after.threads :: after.threads[t] == db.threads[t])
      && (forall id :: id in after.executions <==> id in db.executions && db.executions[id].threadId != threadId)
      && (forall id | id in after.executions :: after.executions[id] == db.executions[id])
      && (forall m :: m in after.messages <==> m in db.messages && db.messages[m].threadId != threadId)
      && (forall m | m in after.messages :: after.messages[m] == db.messages[m])
      && (forall k :: k in after.steps <==> k in db.steps && !(k.0 in db.executions && db.executions[k.0].threadId == threadId))
      && (forall k | k in after.steps :: after.steps[k] == db.steps[k])
      && after.observations == db.observations && after.issued == db.issued
  {
  }

  /** The answer's message holds its text and its tool calls, in the turn's thread if it is new; no other message moves. */
  lemma MessageMeans(messages: map<string, Message>, outcome: Outcome)
    ensures var id, after := outcome.executionId, WithMessage(messages, outcome);
      && after.Keys == messages.Keys + {id} && (forall m | m in messages && m != id :: after[m] == messages[m])
      && after[id].content == outcome.text && after[id].toolCalls == outcome.toolCalls
      && after[id].threadId == (if id in messages then messages[id].threadId else outcome.threadId)
  {
  }

  // ----- what a closed turn leaves

  function StepAt(steps: seq<Step>, number: int): Option<Step> {
    if steps == [] then None else if steps[0].number == number then Some(steps[0]) else StepAt(steps[1..], number)
  }

  lemma {:induction false} StepAtSnoc(steps: seq<Step>, last: Step, number: int)
    ensures StepAt(steps + [last], number) ==
      if StepAt(steps, number).Some? then StepAt(steps, number) else if last.number == number then Some(last) else None
  {
    if steps != [] {
      StepAtSnoc(steps[1..], last, number);
      assert (steps + [last])[1..] == steps[1..] + [last];
    } else {
      assert (steps + [last])[1..] == [];
    }
  }

  /** Where none were before, the steps of an execution are those of the outcome's attempt, the first of each number. */
  lemma {:induction false} StepsAre(steps: map<(string, int, int), StepRow>, outcome: Outcome, n: nat, attempt: int, number: int)
    requires n <= |outcome.steps| && forall k | k in steps :: k.0 != outcome.executionId
    ensures var after, key := WithSteps(steps, outcome, n), (outcome.executionId, attempt, number);
      var step := StepAt(outcome.steps[..n], number);
      if attempt == outcome.attempt && step.Some? then key in after && after[key] == StepRow(outcome.userId, step.value) else key !in after
  {
    if n > 0 {
      StepsAre(steps, outcome, n - 1, attempt, number);
      StepAtSnoc(outcome.steps[..n - 1], outcome.steps[n - 1], number);
      assert outcome.steps[..n] == outcome.steps[..n - 1] + [outcome.steps[n - 1]];
    }
  }

  /** What an accepted outcome leaves: the row closed with its spend, the message with its text and calls, and its steps. */
  ghost predicate Recorded(db: Db, outcome: Outcome) {
    var id := outcome.executionId;
    && id in db.executions && db.executions[id].assistant == Some(id) && db.executions[id].spend == Some(outcome.spend)
    && db.executions[id].status == (if outcome.canceled then Canceled else Completed) && db.executions[id].phase == Done
    && id in db.messages && db.messages[id] == Message(outcome.threadId, outcome.text, outcome.toolCalls)
    && forall attempt, number :: StepRecorded(db, outcome, attempt, number)
  }

  predicate StepRecorded(db: Db, outcome: Outcome, attempt: int, number: int) {
    var key, step := (outcome.executionId, attempt, number), StepAt(outcome.steps, number);
    if attempt == outcome.attempt && step.Some? then key in db.steps && db.steps[key] == StepRow(outcome.userId, step.value) else key !in db.steps
  }

  lemma AcceptedIsRecorded(db: Db, outcome: Outcome, now: int)
    requires ChatLedger.Inv(db) && ChatLedger.Possible(db, Finalizes(outcome, now))
    requires Finalizing(db, outcome, now).Ok? && Finalizing(db, outcome, now).value.1
    ensures Recorded(Finalizing(db, outcome, now).value.0, outcome)
    ensures var after := Finalizing(db, outcome, now).value.0;
      && outcome.threadId in db.threads && db.threads[outcome.threadId].userId == outcome.userId
      && after.threads == db.threads[outcome.threadId := Thread(outcome.userId, "python", now)]
      && after.executions == db.executions[outcome.executionId := after.executions[outcome.executionId]]
  {
    hide WithSteps, Observing, Settling, ChatLedger.Inv, Recorded;
    var id := outcome.executionId;
    var observed := Observing(db, id, outcome.userId, outcome.attempt, outcome.report).value;
    ObserveStep(db, id, outcome.userId, outcome.attempt, outcome.report);
    FinalizingAnswers(db, outcome, now);
    ObserveMeans(db, id, outcome.userId, outcome.attempt, outcome.report);
    SettlementMeans(observed, outcome, now);
    NothingOfItYet(observed, id);
    StepsRecorded(observed, Finalizing(db, outcome, now).value.0, outcome);
    IsRecorded(Finalizing(db, outcome, now).value.0, outcome);
  }

  lemma NothingOfItYet(db: Db, id: string)
    requires ChatLedger.Inv(db) && id in db.executions && db.executions[id].assistant == None
    ensures id !in db.messages && forall k | k in db.steps :: k.0 != id
  {
    assert Linked(db, id);
  }

  lemma StepsRecorded(db: Db, after: Db, outcome: Outcome)
    requires (forall k | k in db.steps :: k.0 != outcome.executionId) && after.steps == WithSteps(db.steps, outcome, |outcome.steps|)
    ensures forall attempt, number :: StepRecorded(after, outcome, attempt, number)
  {
    forall attempt, number ensures StepRecorded(after, outcome, attempt, number) {
      StepsAre(db.steps, outcome, |outcome.steps|, attempt, number);
      assert outcome.steps[..|outcome.steps|] == outcome.steps;
    }
  }

  lemma IsRecorded(db: Db, outcome: Outcome)
    requires forall attempt, number :: StepRecorded(db, outcome, attempt, number)
    requires var id := outcome.executionId;
      && id in db.executions && db.executions[id].assistant == Some(id) && db.executions[id].spend == Some(outcome.spend)
      && db.executions[id].status == (if outcome.canceled then Canceled else Completed) && db.executions[id].phase == Done
      && id in db.messages && db.messages[id] == Message(outcome.threadId, outcome.text, outcome.toolCalls)
    ensures Recorded(db, outcome)
  {
  }

  lemma SettlementMeans(db: Db, outcome: Outcome, now: int)
    requires Settling(db, outcome, now).1
    ensures var after, id := Settling(db, outcome, now).0, outcome.executionId;
      && OnlyRow(db, after, id) && after.executions[id].assistant == Some(id) && after.executions[id].spend == Some(outcome.spend)
      && after.executions[id].status == (if outcome.canceled then Canceled else Completed) && after.executions[id].phase == Done
  {
    hide ReportAllows, ObservedAs;
  }

  lemma RecordedStays(a: Db, b: Db, outcome: Outcome)
    requires Recorded(a, outcome) && ChatLedger.Inv(a) && Progress(a, b) && outcome.executionId in b.executions
    ensures Recorded(b, outcome)
  {
    hide StepAt;
    forall attempt, number ensures StepRecorded(b, outcome, attempt, number) {
      assert StepRecorded(a, outcome, attempt, number);
      assert Answered(a, outcome.executionId);
    }
    hide StepRecorded;
  }

  /** Over every run: once a turn's outcome is accepted, its row, its message and its steps are the outcome's as long as the row is there. */
  lemma OutcomeStaysRecorded(db: Db, outcome: Outcome, now: int, events: seq<ChatLedger.Event>)
    requires ChatLedger.Inv(db) && ChatLedger.Possible(db, Finalizes(outcome, now))
    requires Finalizing(db, outcome, now).Ok? && Finalizing(db, outcome, now).value.1
    requires ChatLedger.Run(Finalizing(db, outcome, now).value.0, events).Some?
    ensures var after := ChatLedger.Run(Finalizing(db, outcome, now).value.0, events).value;
      outcome.executionId in after.executions ==> Recorded(after, outcome)
  {
    var accepted := Finalizing(db, outcome, now).value.0;
    assert accepted == ChatLedger.Next(db, Finalizes(outcome, now));
    AcceptedIsRecorded(db, outcome, now);
    ChatLedger.FinalizeStep(db, outcome, now);
    hide Finalizing, ChatLedger.Inv, Recorded, Progress, ChatLedger.Run, ChatLedger.Next;
    ChatLedger.RunKeeps(accepted, events);
    var after := ChatLedger.Run(accepted, events).value;
    if outcome.executionId in after.executions {
      RecordedStays(accepted, after, outcome);
    }
  }
}
