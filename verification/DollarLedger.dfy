/**
 * The dollar ledger every model call of one execution is charged to, shared by parallel tool loops, and
 * the reservations taken from it before the fan-out.
 */
module DollarLedger {
  import opened Wrappers
  import opened Apportion

  /** How many peak calls a landed loop may still spend, and the factor no execution passes. */
  datatype Pacing = Pacing(reserveCalls: nat, backstop: real) {
    predicate Valid() { reserveCalls >= 1 && backstop >= 1.0 }
  }

  datatype Execution = Execution(max: real, spent: real, peak: real)

  datatype Loop = Loop(max: real, spent: real, peak: real, landed: bool)

  /** Every way a charge ends; all but `Kept` raise. */
  datatype Verdict = Kept | ExecutionOver | LoopOver | Unpriced

  function Max(a: real, b: real): real { if a >= b then a else b }

  function Min(a: real, b: real): real { if a <= b then a else b }

  /** A real product, named so that proofs can treat it as a whole. */
  function Scaled(x: real, factor: real): real { x * factor }

  /** The landing reserve: so many calls at the dearest price seen. */
  function Reserved(p: Pacing, peak: real): real { Scaled(peak, p.reserveCalls as real) }

  function Ceiling(p: Pacing, max: real, peak: real, landed: bool): real {
    if landed then max + Reserved(p, peak) else max
  }

  function ExecutionCeiling(p: Pacing, max: real, peak: real, landed: bool): real {
    Min(Ceiling(p, max, peak, landed), Scaled(max, p.backstop))
  }

  /** The ceilings are drawn from the peaks before the call, and the cost is booked whatever they say. */
  function ChargeExecution(p: Pacing, e: Execution, cost: real, loopSpent: real, loopMax: real, loopPeak: real, landed: bool)
    : (Execution, Verdict)
  {
    var booked := e.(spent := e.spent + cost, peak := Max(e.peak, cost));
    var verdict :=
      if booked.spent > ExecutionCeiling(p, e.max, e.peak, landed) then ExecutionOver
      else if loopSpent > Ceiling(p, loopMax, Max(loopPeak, e.peak), landed) then LoopOver
      else Kept;
    (booked, verdict)
  }

  /** A call of an unknown model has no price and is refused before anything is booked. */
  function ChargeLoop(p: Pacing, e: Execution, l: Loop, price: Option<real>): (Execution, Loop, Verdict) {
    match price
    case None => (e, l, Unpriced)
    case Some(cost) =>
      var l' := l.(spent := l.spent + cost, peak := Max(l.peak, cost));
      var (e', verdict) := ChargeExecution(p, e, cost, l'.spent, l.max, l.peak, l.landed);
      (e', l', verdict)
  }

  predicate Landing(p: Pacing, e: Execution, l: Loop) {
    || l.spent + Reserved(p, l.peak) >= l.max
    || e.spent + Reserved(p, e.peak) >= e.max
  }

  function OpenLoop(e: Execution, cap: Option<real>): Loop {
    Loop(if cap.None? then e.max else Min(cap.value, e.max), 0.0, 0.0, false)
  }

  // ----- reservations

  datatype ReserveError = NegativeTurns | ShareOutOfRange | NoTurnLedger

  /** What nobody has been given yet. */
  datatype Pool = Pool(turns: Option<int>, usd: real)

  function Reserve(pool: Pool, turns: int, share: real): Result<(Lease, Pool), ReserveError> {
    if turns < 0 then Err(NegativeTurns)
    else if !(0.0 <= share <= 1.0) then Err(ShareOutOfRange)
    else if pool.turns.None? then Err(NoTurnLedger)
    else
      var granted := if turns <= pool.turns.value then turns else pool.turns.value;
      var usd := Scaled(pool.usd, share);
      Ok((Lease(granted, usd), Pool(Some(pool.turns.value - granted), pool.usd - usd)))
  }

  class ExecutionBudget {
    const pacing: Pacing
    const max: real
    var spent: real
    var peak: real
    var remainingTurns: Option<int>
    var remainingBudgetUsd: real

    constructor (pacing: Pacing, maxCostUsd: real, maxTurns: Option<int>, spentUsd: real, turnsUsed: int)
      ensures this.pacing == pacing
      ensures Book() == Execution(maxCostUsd, spentUsd, 0.0)
      ensures Unreserved().usd == Max(maxCostUsd - spentUsd, 0.0)
      ensures maxTurns.None? ==> Unreserved().turns == None
      ensures maxTurns.Some? ==> Unreserved().turns.Some? && 0 <= Unreserved().turns.value
      ensures maxTurns.Some? && turnsUsed <= maxTurns.value ==> Unreserved().turns.value == maxTurns.value - turnsUsed
      ensures maxTurns.Some? && turnsUsed > maxTurns.value ==> Unreserved().turns.value == 0
    {
      this.pacing := pacing;
      max := maxCostUsd;
      spent := spentUsd;
      peak := 0.0;
      remainingTurns := match maxTurns
        case None => None
        case Some(turns) => Some(if turns >= turnsUsed then turns - turnsUsed else 0);
      remainingBudgetUsd := Max(maxCostUsd - spentUsd, 0.0);
    }

    function Book(): Execution
      reads this
    {
      Execution(max, spent, peak)
    }

    function Unreserved(): Pool
      reads this
    {
      Pool(remainingTurns, remainingBudgetUsd)
    }

    method TakeReserve(turns: int, budgetShare: real) returns (lease: Result<Lease, ReserveError>)
      modifies this`remainingTurns, this`remainingBudgetUsd
      ensures match Reserve(old(Unreserved()), turns, budgetShare)
        case Err(e) => lease == Err(e) && Unreserved() == old(Unreserved())
        case Ok(taken) => lease == Ok(taken.0) && Unreserved() == taken.1
    {
      if turns < 0 {
        return Err(NegativeTurns);
      }
      if !(0.0 <= budgetShare <= 1.0) {
        return Err(ShareOutOfRange);
      }
      if remainingTurns.None? {
        return Err(NoTurnLedger);
      }
      var grantedTurns := if turns <= remainingTurns.value then turns else remainingTurns.value;
      remainingTurns := Some(remainingTurns.value - grantedTurns);
      var grantedUsd := Scaled(remainingBudgetUsd, budgetShare);
      remainingBudgetUsd := remainingBudgetUsd - grantedUsd;
      return Ok(Lease(grantedTurns, grantedUsd));
    }

    method Charge(cost: real, loopSpent: real, loopMax: real, loopPeak: real, loopLanded: bool) returns (verdict: Verdict)
      modifies this`spent, this`peak
      ensures (Book(), verdict) == ChargeExecution(pacing, old(Book()), cost, loopSpent, loopMax, loopPeak, loopLanded)
    {
      var executionCeiling := ExecutionCeiling(pacing, max, peak, loopLanded);
      var loopCeiling := Ceiling(pacing, loopMax, Max(loopPeak, peak), loopLanded);
      spent := spent + cost;
      peak := Max(peak, cost);
      if spent > executionCeiling {
        return ExecutionOver;
      }
      if loopSpent > loopCeiling {
        return LoopOver;
      }
      return Kept;
    }

    method NewLoop(maxCostUsd: Option<real>) returns (loop: SharedToolLoopBudget)
      ensures fresh(loop) && loop.execution == this && loop.Book() == OpenLoop(Book(), maxCostUsd)
    {
      loop := new SharedToolLoopBudget(this, match maxCostUsd case None => max case Some(cap) => Min(cap, max));
    }
  }

  class SharedToolLoopBudget {
    const execution: ExecutionBudget
    const max: real
    var spent: real
    var peak: real
    var landed: bool

    constructor (execution: ExecutionBudget, maxCostUsd: real)
      ensures this.execution == execution && Book() == Loop(maxCostUsd, 0.0, 0.0, false)
    {
      this.execution := execution;
      max := maxCostUsd;
      spent := 0.0;
      peak := 0.0;
      landed := false;
    }

    function Book(): Loop
      reads this
    {
      Loop(max, spent, peak, landed)
    }

    method Land()
      modifies this`landed
      ensures Book() == old(Book()).(landed := true)
    {
      landed := true;
    }

    method Charge(price: Option<real>) returns (verdict: Verdict)
      modifies this`spent, this`peak, execution`spent, execution`peak
      ensures (execution.Book(), Book(), verdict)
           == ChargeLoop(execution.pacing, old(execution.Book()), old(Book()), price)
    {
      if price.None? {
        return Unpriced;
      }
      var peakBefore := peak;
      spent := spent + price.value;
      peak := Max(peak, price.value);
      verdict := execution.Charge(price.value, spent, max, peakBefore, landed);
    }
  }

  // ----- whole runs: loops open, land and charge in any interleaving

  datatype Ledger = Ledger(execution: Execution, loops: seq<Loop>)

  datatype Event = Open(cap: Option<real>) | Land(loop: nat) | Charge(loop: nat, price: Option<real>)

  /** Every event names a loop that was opened before it. */
  predicate Legal(loops: nat, events: seq<Event>)
    decreases |events|
  {
    events == [] ||
    match events[0]
    case Open(_) => Legal(loops + 1, events[1..])
    case Land(i) => i < loops && Legal(loops, events[1..])
    case Charge(i, _) => i < loops && Legal(loops, events[1..])
  }

  function Step(p: Pacing, s: Ledger, event: Event): (Ledger, Verdict)
    requires Legal(|s.loops|, [event])
  {
    match event
    case Open(cap) => (s.(loops := s.loops + [OpenLoop(s.execution, cap)]), Kept)
    case Land(i) => (s.(loops := s.loops[i := s.loops[i].(landed := true)]), Kept)
    case Charge(i, price) =>
      var (e, l, verdict) := ChargeLoop(p, s.execution, s.loops[i], price);
      (Ledger(e, s.loops[i := l]), verdict)
  }

  function Run(p: Pacing, s: Ledger, events: seq<Event>): Ledger
    requires Legal(|s.loops|, events)
    decreases |events|
  {
    if events == [] then s else Run(p, Step(p, s, events[0]).0, events[1..])
  }

  /** What the calls cost that were answered but raised. */
  function Refused(p: Pacing, s: Ledger, events: seq<Event>): real
    requires Legal(|s.loops|, events)
    decreases |events|
  {
    if events == [] then 0.0
    else
      var (s', verdict) := Step(p, s, events[0]);
      (if verdict == Kept then 0.0 else s'.execution.spent - s.execution.spent) + Refused(p, s', events[1..])
  }

  function Deltas(loops: seq<Loop>): real {
    if loops == [] then 0.0 else Deltas(loops[..|loops| - 1]) + loops[|loops| - 1].spent
  }

  lemma {:induction false} DeltasUpdate(loops: seq<Loop>, i: nat, l: Loop)
    requires i < |loops|
    ensures Deltas(loops[i := l]) == Deltas(loops) - loops[i].spent + l.spent
  {
    var n := |loops| - 1;
    if i == n {
      assert loops[i := l][..n] == loops[..n];
    } else {
      DeltasUpdate(loops[..n], i, l);
      assert loops[i := l][..n] == loops[..n][i := l];
    }
  }

  /** Whatever interleaves and whatever raises, the execution's spend moves by exactly what the loops' spends move. */
  lemma {:induction false} SpendIsConserved(p: Pacing, s: Ledger, events: seq<Event>)
    requires Legal(|s.loops|, events)
    ensures var t := Run(p, s, events);
      t.execution.spent - Deltas(t.loops) == s.execution.spent - Deltas(s.loops)
    decreases |events|
  {
    if events != [] {
      var s' := Step(p, s, events[0]).0;
      match events[0] {
        case Open(cap) => assert s'.loops[..|s.loops|] == s.loops;
        case Land(i) => DeltasUpdate(s.loops, i, s'.loops[i]);
        case Charge(i, price) => DeltasUpdate(s.loops, i, s'.loops[i]);
      }
      SpendIsConserved(p, s', events[1..]);
    }
  }

  predicate Dominated(s: Ledger) {
    0.0 <= s.execution.peak && forall i | 0 <= i < |s.loops| :: 0.0 <= s.loops[i].peak <= s.execution.peak
  }

  /** The execution has seen every loop's dearest call, so its peak is at least theirs throughout. */
  lemma {:induction false} PeakDominates(p: Pacing, s: Ledger, events: seq<Event>)
    requires Legal(|s.loops|, events) && Dominated(s)
    ensures Dominated(Run(p, s, events))
    decreases |events|
  {
    if events != [] {
      var s' := Step(p, s, events[0]).0;
      PeakDominates(p, s', events[1..]);
    }
  }

  /**
   * Over any run the provider is owed at most the backstop (or what was already spent before) plus the
   * answers that raised: no charge that returns normally can lift the spend past the backstop.
   */
  lemma {:induction false} SpendIsBounded(p: Pacing, s: Ledger, events: seq<Event>)
    requires Legal(|s.loops|, events)
    requires forall i | 0 <= i < |events| && events[i].Charge? && events[i].price.Some? :: events[i].price.value >= 0.0
    ensures Refused(p, s, events) >= 0.0
    ensures Run(p, s, events).execution.max == s.execution.max
    ensures Run(p, s, events).execution.spent
         <= Max(s.execution.spent, Scaled(s.execution.max, p.backstop)) + Refused(p, s, events)
    decreases |events|
  {
    hide Scaled;
    if events != [] {
      var (s', verdict) := Step(p, s, events[0]);
      assert s'.execution.spent >= s.execution.spent;
      assert s'.execution.max == s.execution.max;
      SpendIsBounded(p, s', events[1..]);
    }
  }

  /** What loop `i`'s calls cost that were answered but raised. */
  function LoopRefused(p: Pacing, s: Ledger, events: seq<Event>, i: nat): real
    requires Legal(|s.loops|, events)
    decreases |events|
  {
    if events == [] then 0.0
    else
      var (s', verdict) := Step(p, s, events[0]);
      (if verdict == Kept || !events[0].Charge? || events[0].loop != i then 0.0 else s'.execution.spent - s.execution.spent)
      + LoopRefused(p, s', events[1..], i)
  }

  /** Where no call costs more than `dear`, a loop's own spend stays within its limit, the landing reserve and its answers that raised. */
  lemma {:induction false} LoopSpendIsBounded(p: Pacing, s: Ledger, events: seq<Event>, i: nat, dear: real)
    requires Legal(|s.loops|, events) && i < |s.loops|
    requires 0.0 <= s.execution.peak <= dear && forall j | 0 <= j < |s.loops| :: 0.0 <= s.loops[j].peak <= dear
    requires forall k | 0 <= k < |events| && events[k].Charge? && events[k].price.Some? :: 0.0 <= events[k].price.value <= dear
    ensures i < |Run(p, s, events).loops| && LoopRefused(p, s, events, i) >= 0.0
    ensures Run(p, s, events).loops[i].max == s.loops[i].max
    ensures Run(p, s, events).loops[i].spent
         <= Max(s.loops[i].spent, s.loops[i].max + Reserved(p, dear)) + LoopRefused(p, s, events, i)
    decreases |events|
  {
    hide Scaled;
    if events != [] {
      var (s', verdict) := Step(p, s, events[0]);
      DearerReserves(p, s.execution.peak, dear);
      DearerReserves(p, s.loops[i].peak, dear);
      assert s'.loops[i].max == s.loops[i].max;
      LoopSpendIsBounded(p, s', events[1..], i, dear);
    }
  }

  predicate ChargesNoMore(events: seq<Event>, i: nat) {
    forall k | 0 <= k < |events| && events[k].Charge? :: events[k].loop != i
  }

  /** A loop ends with its first answer that raises. */
  predicate StopsAtRaise(p: Pacing, s: Ledger, events: seq<Event>, i: nat)
    requires Legal(|s.loops|, events)
    decreases |events|
  {
    events == [] ||
    var (s', verdict) := Step(p, s, events[0]);
    && (events[0].Charge? && events[0].loop == i && verdict != Kept ==> ChargesNoMore(events[1..], i))
    && StopsAtRaise(p, s', events[1..], i)
  }

  lemma {:induction false} NothingRefused(p: Pacing, s: Ledger, events: seq<Event>, i: nat)
    requires Legal(|s.loops|, events) && ChargesNoMore(events, i)
    ensures LoopRefused(p, s, events, i) == 0.0
    decreases |events|
  {
    if events != [] {
      hide Scaled;
      NothingRefused(p, Step(p, s, events[0]).0, events[1..], i);
    }
  }

  lemma {:induction false} RefusedOnce(p: Pacing, s: Ledger, events: seq<Event>, i: nat, dear: real)
    requires Legal(|s.loops|, events) && StopsAtRaise(p, s, events, i) && dear >= 0.0
    requires forall k | 0 <= k < |events| && events[k].Charge? && events[k].price.Some? :: 0.0 <= events[k].price.value <= dear
    ensures LoopRefused(p, s, events, i) <= dear
    decreases |events|
  {
    if events != [] {
      hide Scaled;
      var (s', verdict) := Step(p, s, events[0]);
      if events[0].Charge? && events[0].loop == i && verdict != Kept {
        NothingRefused(p, s', events[1..], i);
      } else {
        RefusedOnce(p, s', events[1..], i, dear);
      }
    }
  }

  /** What a call can cost beyond what it was given: the landing reserve at the dearest price, and one answer that raised. */
  function Overrun(p: Pacing, dear: real): real { Reserved(p, dear) + dear }

  /** A loop that ends with its first raise costs at most what it was given and that. */
  lemma LoopStaysNearItsCap(p: Pacing, s: Ledger, events: seq<Event>, i: nat, cap: real, dear: real)
    requires Legal(|s.loops|, events) && i < |s.loops| && StopsAtRaise(p, s, events, i)
    requires cap >= 0.0 && s.loops[i] == OpenLoop(s.execution, Some(cap))
    requires 0.0 <= s.execution.peak <= dear && forall j | 0 <= j < |s.loops| :: 0.0 <= s.loops[j].peak <= dear
    requires forall k | 0 <= k < |events| && events[k].Charge? && events[k].price.Some? :: 0.0 <= events[k].price.value <= dear
    ensures i < |Run(p, s, events).loops| && Run(p, s, events).loops[i].spent <= cap + Overrun(p, dear)
  {
    LoopSpendIsBounded(p, s, events, i, dear);
    RefusedOnce(p, s, events, i, dear);
    DearerReserves(p, 0.0, dear);
    hide Reserved, Run, LoopRefused;
  }

  lemma DearerReserves(p: Pacing, peak: real, dear: real)
    requires 0.0 <= peak <= dear
    ensures 0.0 <= Reserved(p, peak) <= Reserved(p, dear)
  {
  }

  /** Exactly which charges return normally, in terms of what was spent and the peak before the call. */
  lemma ChargeKeptIff(p: Pacing, e: Execution, l: Loop, cost: real)
    requires l.peak <= e.peak
    ensures ChargeLoop(p, e, l, Some(cost)).2 == Kept <==>
      var room := if l.landed then Reserved(p, e.peak) else 0.0;
      && e.spent + cost <= e.max + room
      && e.spent + cost <= Scaled(e.max, p.backstop)
      && l.spent + cost <= l.max + room
  {
  }

  /** A call started while not landing, no dearer than the loop's dearest so far, never raises. */
  lemma CheapCallNeverRaises(p: Pacing, e: Execution, l: Loop, cost: real)
    requires p.Valid() && e.max >= 0.0 && 0.0 <= l.peak <= e.peak
    requires !Landing(p, e, l)
    requires cost <= l.peak
    ensures ChargeLoop(p, e, l, Some(cost)).2 == Kept
  {
    ScaledUp(l.peak, p.reserveCalls as real);
    ScaledUp(e.peak, p.reserveCalls as real);
    ScaledUp(e.max, p.backstop);
    hide Scaled;
    ChargeKeptIff(p, e, l, cost);
  }

  lemma ScaledUp(x: real, factor: real)
    requires x >= 0.0 && factor >= 1.0
    ensures Scaled(x, factor) >= x
  {
  }

  /** A landed call that starts inside both limits raises only by costing more than the reserve, or by passing the backstop. */
  lemma LandedCallRaisesOnlyBeyondReserve(p: Pacing, e: Execution, l: Loop, cost: real)
    requires l.landed && 0.0 <= l.peak <= e.peak && e.spent <= e.max && l.spent <= l.max
    requires ChargeLoop(p, e, l, Some(cost)).2 != Kept
    ensures cost > Reserved(p, e.peak) || e.spent + cost > Scaled(e.max, p.backstop)
  {
  }

  // ----- loops in parallel: the reserve covers exactly as many concurrent calls as it counts

  /** One charge per listed loop, in order. */
  function Burst(loops: seq<nat>, costs: seq<real>): (events: seq<Event>)
    requires |loops| == |costs|
    ensures |events| == |loops|
    ensures forall k | 0 <= k < |events| :: events[k] == Charge(loops[k], Some(costs[k]))
  {
    seq(|loops|, k requires 0 <= k < |loops| => Charge(loops[k], Some(costs[k])))
  }

  predicate AllKept(p: Pacing, s: Ledger, events: seq<Event>)
    requires Legal(|s.loops|, events)
    decreases |events|
  {
    events == [] ||
    var (s', verdict) := Step(p, s, events[0]);
    verdict == Kept && AllKept(p, s', events[1..])
  }

  predicate DistinctLoops(s: Ledger, loops: seq<nat>) {
    && (forall k | 0 <= k < |loops| :: loops[k] < |s.loops|)
    && (forall a, b | 0 <= a < b < |loops| :: loops[a] != loops[b])
  }

  lemma {:induction false} BurstLegal(s: Ledger, loops: seq<nat>, costs: seq<real>)
    requires |loops| == |costs| && forall k | 0 <= k < |loops| :: loops[k] < |s.loops|
    ensures Legal(|s.loops|, Burst(loops, costs))
  {
    if loops != [] {
      BurstLegal(s, loops[1..], costs[1..]);
      assert Burst(loops, costs)[1..] == Burst(loops[1..], costs[1..]);
    }
  }

  /**
   * When no loop of the burst was landing as it started, up to `reserveCalls` concurrent calls, each no
   * dearer than its loop's dearest, all return normally, in any order.
   */
  lemma ReserveCoversABurst(p: Pacing, s: Ledger, loops: seq<nat>, costs: seq<real>)
    requires p.Valid() && s.execution.max >= 0.0 && Dominated(s)
    requires DistinctLoops(s, loops) && |loops| == |costs| <= p.reserveCalls
    requires forall k | 0 <= k < |loops| :: !Landing(p, s.execution, s.loops[loops[k]]) && costs[k] <= s.loops[loops[k]].peak
    ensures Legal(|s.loops|, Burst(loops, costs)) && AllKept(p, s, Burst(loops, costs))
  {
    BurstLegal(s, loops, costs);
    if loops != [] {
      assert !Landing(p, s.execution, s.loops[loops[0]]);
      BurstStep(p, s, s.execution.peak, loops, costs, |loops|);
    }
  }

  lemma {:induction false} BurstStep(p: Pacing, s: Ledger, peak: real, loops: seq<nat>, costs: seq<real>, left: nat)
    requires p.Valid() && s.execution.max >= 0.0 && s.execution.peak == peak && Dominated(s)
    requires DistinctLoops(s, loops) && |loops| == |costs| == left <= p.reserveCalls
    requires s.execution.spent + Scaled(peak, left as real) < s.execution.max || left == 0
    requires forall k | 0 <= k < |loops| ::
      var l := s.loops[loops[k]];
      costs[k] <= l.peak && l.spent + Reserved(p, l.peak) < l.max
    ensures Legal(|s.loops|, Burst(loops, costs)) && AllKept(p, s, Burst(loops, costs))
    decreases left
  {
    hide Scaled;
    BurstLegal(s, loops, costs);
    if left > 0 {
      var e, i, cost := s.execution, loops[0], costs[0];
      var l := s.loops[i];
      var s' := Step(p, s, Charge(i, Some(cost))).0;
      ScaledUp(l.peak, p.reserveCalls as real);
      ScaledUp(e.peak, p.reserveCalls as real);
      ScaledUp(e.max, p.backstop);
      OneLess(peak, left);
      ChargeKeptIff(p, e, l, cost);
      forall k | 0 <= k < |loops[1..]| ensures s'.loops[loops[1..][k]] == s.loops[loops[k + 1]] && loops[1..][k] < |s'.loops| {
      }
      BurstStep(p, s', peak, loops[1..], costs[1..], left - 1);
      assert Burst(loops, costs)[1..] == Burst(loops[1..], costs[1..]);
    }
  }

  lemma OneLess(peak: real, left: nat)
    requires peak >= 0.0 && left > 0
    ensures Scaled(peak, left as real) == Scaled(peak, (left - 1) as real) + peak
    ensures Scaled(peak, (left - 1) as real) >= 0.0
  {
  }

  // ----- and no more

  /** An execution nothing has been charged to yet, and a history of calls with prices. */
  predicate FromTheStart(e: Execution, history: seq<Event>) {
    && e.max >= 0.0 && e.spent >= 0.0 && e.peak == 0.0
    && Legal(0, history)
    && forall k | 0 <= k < |history| && history[k].Charge? && history[k].price.Some? :: history[k].price.value >= 0.0
  }

  /** Concurrent calls, one a loop, none of which was landing as they started, and none dearer than its loop's dearest. */
  predicate CheapBurst(p: Pacing, s: Ledger, loops: seq<nat>, costs: seq<real>) {
    && DistinctLoops(s, loops) && |loops| == |costs|
    && forall k | 0 <= k < |loops| :: !Landing(p, s.execution, s.loops[loops[k]]) && 0.0 <= costs[k] <= s.loops[loops[k]].peak
  }

  /** Whatever was charged before, a cheap burst of so many calls is kept. */
  ghost predicate BurstsAreKept(p: Pacing, n: nat) {
    forall e, history, loops, costs | FromTheStart(e, history) && |loops| == n && CheapBurst(p, Run(p, Ledger(e, []), history), loops, costs) ::
      Legal(|Run(p, Ledger(e, []), history).loops|, Burst(loops, costs)) && AllKept(p, Run(p, Ledger(e, []), history), Burst(loops, costs))
  }

  lemma {:induction false} MaxStays(p: Pacing, s: Ledger, events: seq<Event>)
    requires Legal(|s.loops|, events)
    ensures Run(p, s, events).execution.max == s.execution.max
    decreases |events|
  {
    if events != [] {
      MaxStays(p, Step(p, s, events[0]).0, events[1..]);
    }
  }

  lemma {:induction false} LegalJoins(loops: nat, more: nat, a: seq<Event>, b: seq<Event>)
    requires |a| == more && (forall k | 0 <= k < |a| :: a[k].Open?) && Legal(loops + more, b)
    ensures Legal(loops, a + b)
    decreases |a|
  {
    if a == [] {
      assert a + b == b;
    } else {
      assert (a + b)[1..] == a[1..] + b;
      LegalJoins(loops + 1, more - 1, a[1..], b);
    }
  }

  /** A ledger of `n` loops under one limit, the first `k` of them charged one dollar each. */
  function Warm(max: real, n: nat, k: nat): (s: Ledger)
    ensures |s.loops| == n
  {
    Ledger(Execution(max, k as real, if k == 0 then 0.0 else 1.0),
      seq(n, i requires 0 <= i < n => if i < k then Loop(max, 1.0, 1.0, false) else Loop(max, 0.0, 0.0, false)))
  }

  function Opens(n: nat): (events: seq<Event>)
    ensures |events| == n && forall k | 0 <= k < n :: events[k] == Open(None)
  {
    seq(n, _ => Open(None))
  }

  function Count(from: nat, to: nat): (loops: seq<nat>)
    requires from <= to
    ensures |loops| == to - from && forall k | 0 <= k < |loops| :: loops[k] == from + k
  {
    seq(to - from, i requires 0 <= i < to - from => from + i)
  }

  function Ones(n: nat): (costs: seq<real>)
    ensures |costs| == n && forall k | 0 <= k < n :: costs[k] == 1.0
  {
    seq(n, _ => 1.0)
  }

  /** One dollar charged to every loop from `k` on. */
  function OneEach(k: nat, n: nat): seq<Event>
    requires k <= n
  {
    Burst(Count(k, n), Ones(n - k))
  }

  lemma WarmStep(p: Pacing, max: real, k: nat, n: nat)
    requires p.Valid() && k < n && n as real <= max
    ensures Step(p, Warm(max, n, k), Charge(k, Some(1.0))) == (Warm(max, n, k + 1), Kept)
  {
    ScaledUp(max, p.backstop);
    hide Scaled;
    var s := Step(p, Warm(max, n, k), Charge(k, Some(1.0))).0;
    assert s.loops == Warm(max, n, k + 1).loops;
  }

  lemma {:induction false} WarmingUp(p: Pacing, max: real, k: nat, n: nat)
    requires p.Valid() && k <= n && n as real <= max
    ensures Legal(n, OneEach(k, n)) && AllKept(p, Warm(max, n, k), OneEach(k, n))
    ensures Run(p, Warm(max, n, k), OneEach(k, n)) == Warm(max, n, n)
    decreases n - k
  {
    if k < n {
      hide Step, Warm;
      var events := OneEach(k, n);
      assert events[0] == Charge(k, Some(1.0)) && events[1..] == OneEach(k + 1, n);
      WarmStep(p, max, k, n);
      WarmingUp(p, max, k + 1, n);
    }
  }

  lemma {:induction false} Opening(p: Pacing, max: real, k: nat, n: nat, rest: seq<Event>)
    requires p.Valid() && k <= n && Legal(n, rest)
    ensures Legal(k, Opens(n - k) + rest)
    ensures Run(p, Warm(max, k, 0), Opens(n - k) + rest) == Run(p, Warm(max, n, 0), rest)
    ensures AllKept(p, Warm(max, k, 0), Opens(n - k) + rest) <==> AllKept(p, Warm(max, n, 0), rest)
    decreases n - k
  {
    LegalJoins(k, n - k, Opens(n - k), rest);
    var events := Opens(n - k) + rest;
    if k == n {
      assert events == rest;
    } else {
      assert events[0] == Open(None) && events[1..] == Opens(n - (k + 1)) + rest;
      assert Step(p, Warm(max, k, 0), events[0]).0 == Warm(max, k + 1, 0);
      Opening(p, max, k + 1, n, rest);
    }
  }

  /** Kept calls of loops that have not landed leave the spend inside the limit. */
  lemma {:induction false} KeptStaysInside(p: Pacing, s: Ledger, loops: seq<nat>)
    requires loops != [] && (forall k | 0 <= k < |loops| :: loops[k] < |s.loops|)
    requires forall i | 0 <= i < |s.loops| :: !s.loops[i].landed
    requires Legal(|s.loops|, Burst(loops, Ones(|loops|))) && AllKept(p, s, Burst(loops, Ones(|loops|)))
    ensures s.execution.spent + |loops| as real <= s.execution.max
    decreases |loops|
  {
    var events := Burst(loops, Ones(|loops|));
    var s' := Step(p, s, events[0]).0;
    assert s'.execution.spent == s.execution.spent + 1.0;
    if |loops| > 1 {
      assert events[1..] == Burst(loops[1..], Ones(|loops[1..]|));
      KeptStaysInside(p, s', loops[1..]);
    }
  }

  /** For every reserve: a ledger reached by kept charges alone, where a cheap burst of more calls than the reserve counts raises. */
  lemma OneMoreThanReserveRaises(p: Pacing, n: nat)
    requires p.Valid() && n > p.reserveCalls
    ensures var e := Execution(n as real + p.reserveCalls as real + 0.5, 0.0, 0.0);
      var history := Opens(n) + OneEach(0, n);
      && FromTheStart(e, history) && AllKept(p, Ledger(e, []), history)
      && var s := Run(p, Ledger(e, []), history);
        CheapBurst(p, s, Count(0, n), Ones(n)) && Legal(|s.loops|, OneEach(0, n)) && !AllKept(p, s, OneEach(0, n))
  {
    var max := n as real + p.reserveCalls as real + 0.5;
    var history := Opens(n) + OneEach(0, n);
    WarmingUp(p, max, 0, n);
    Opening(p, max, 0, n, OneEach(0, n));
    assert Warm(max, 0, 0) == Ledger(Execution(max, 0.0, 0.0), []);
    var s := Warm(max, n, n);
    assert Reserved(p, 1.0) == p.reserveCalls as real;
    assert forall k | 0 <= k < n :: !Landing(p, s.execution, s.loops[k]);
    if AllKept(p, s, OneEach(0, n)) {
      KeptStaysInside(p, s, Count(0, n));
    }
  }

  /** The exact bound: every cheap burst of `n` concurrent calls is kept, whatever came before, if and only if the reserve counts `n`. */
  lemma BurstsAreKeptIff(p: Pacing, n: nat)
    requires p.Valid()
    ensures BurstsAreKept(p, n) <==> n <= p.reserveCalls
  {
    if n <= p.reserveCalls {
      forall e, history, loops, costs | FromTheStart(e, history) && |loops| == n && CheapBurst(p, Run(p, Ledger(e, []), history), loops, costs)
        ensures Legal(|Run(p, Ledger(e, []), history).loops|, Burst(loops, costs)) && AllKept(p, Run(p, Ledger(e, []), history), Burst(loops, costs))
      {
        PeakDominates(p, Ledger(e, []), history);
        MaxStays(p, Ledger(e, []), history);
        ReserveCoversABurst(p, Run(p, Ledger(e, []), history), loops, costs);
      }
    } else {
      OneMoreThanReserveRaises(p, n);
    }
  }

  // ----- reservations conserve

  /** Reservations in order; an error ends the sequence. */
  function ReserveAll(pool: Pool, asks: seq<(int, real)>): Result<(seq<Lease>, Pool), ReserveError> {
    if asks == [] then Ok(([], pool))
    else
      match ReserveAll(pool, asks[..|asks| - 1])
      case Err(e) => Err(e)
      case Ok(before) =>
        match Reserve(before.1, asks[|asks| - 1].0, asks[|asks| - 1].1)
        case Err(e) => Err(e)
        case Ok(taken) => Ok((before.0 + [taken.0], taken.1))
  }

  /**
   * Leases taken in any sequence and what is left over add up to what there was, nothing goes negative,
   * and a reservation that was granted is never touched by a later one.
   */
  lemma {:induction false} ReservationsConserve(pool: Pool, asks: seq<(int, real)>)
    requires pool.turns.Some? && pool.turns.value >= 0 && pool.usd >= 0.0
    requires ReserveAll(pool, asks).Ok?
    ensures var (leases, rest) := ReserveAll(pool, asks).value;
      var given := CombineLeases(leases);
      && |leases| == |asks| && rest.turns.Some? && rest.turns.value >= 0 && rest.usd >= 0.0
      && given.maxTurns + rest.turns.value == pool.turns.value
      && given.maxCostUsd + rest.usd == pool.usd
      && (forall k | 0 <= k < |leases| :: 0 <= leases[k].maxTurns <= asks[k].0 && leases[k].maxCostUsd >= 0.0)
      && (forall k | 0 <= k <= |asks| :: ReserveAll(pool, asks[..k]).Ok? && ReserveAll(pool, asks[..k]).value.0 == leases[..k])
  {
    hide ReserveAll, CombineLeases;
    LastReserve(pool, asks);
    var n := |asks| - 1;
    if n < 0 {
      assert asks[..0] == asks;
    } else {
      ReservationsConserve(pool, asks[..n]);
      var before := ReserveAll(pool, asks[..n]).value;
      var (leases, rest) := ReserveAll(pool, asks).value;
      assert leases[..n] == before.0;
      ReserveSplits(before.1, asks[n].0, asks[n].1);
      LastLease(before.0, leases[n]);
      forall k | 0 <= k <= |asks| ensures ReserveAll(pool, asks[..k]).Ok? && ReserveAll(pool, asks[..k]).value.0 == leases[..k] {
        if k <= n {
          assert asks[..k] == asks[..n][..k];
          assert leases[..k] == before.0[..k];
        } else {
          assert asks[..k] == asks;
        }
      }
    }
  }

  lemma {:induction false} ReservationsGranted(pool: Pool, asks: seq<(int, real)>)
    requires pool.turns.Some? && forall i | 0 <= i < |asks| :: asks[i].0 >= 0 && 0.0 <= asks[i].1 <= 1.0
    ensures ReserveAll(pool, asks).Ok? && ReserveAll(pool, asks).value.1.turns.Some?
  {
    if asks != [] {
      hide Scaled;
      ReservationsGranted(pool, asks[..|asks| - 1]);
    }
  }

  lemma LastReserve(pool: Pool, asks: seq<(int, real)>)
    requires ReserveAll(pool, asks).Ok?
    ensures asks == [] ==> ReserveAll(pool, asks).value == ([], pool) && CombineLeases([]) == Lease(0, 0.0)
    ensures asks != [] ==>
      var before, last := ReserveAll(pool, asks[..|asks| - 1]), asks[|asks| - 1];
      && before.Ok? && Reserve(before.value.1, last.0, last.1).Ok?
      && var (lease, rest) := Reserve(before.value.1, last.0, last.1).value;
        ReserveAll(pool, asks).value == (before.value.0 + [lease], rest)
  {
  }

  lemma LastLease(leases: seq<Lease>, last: Lease)
    ensures var front := CombineLeases(leases);
      CombineLeases(leases + [last]) == Lease(front.maxTurns + last.maxTurns, front.maxCostUsd + last.maxCostUsd)
  {
    assert (leases + [last])[..|leases|] == leases;
  }

  lemma ReserveSplits(pool: Pool, turns: int, share: real)
    requires pool.turns.Some? && pool.turns.value >= 0 && pool.usd >= 0.0 && Reserve(pool, turns, share).Ok?
    ensures var (lease, rest) := Reserve(pool, turns, share).value;
      && rest.turns.Some? && rest.turns.value >= 0 && rest.usd >= 0.0
      && 0 <= lease.maxTurns <= turns && lease.maxCostUsd >= 0.0
      && lease.maxTurns + rest.turns.value == pool.turns.value && lease.maxCostUsd + rest.usd == pool.usd
  {
    Fraction(pool.usd, share);
    hide Scaled;
  }

  lemma Fraction(x: real, share: real)
    requires x >= 0.0 && 0.0 <= share <= 1.0
    ensures 0.0 <= Scaled(x, share) <= x
  {
  }

  // ----- the books, the limits and the reservations, said plainly

  function Total(costs: seq<real>): real {
    if costs == [] then 0.0 else costs[0] + Total(costs[1..])
  }

  function Dearest(seen: real, costs: seq<real>): real
    decreases |costs|
  {
    if costs == [] then seen else Dearest(Max(seen, costs[0]), costs[1..])
  }

  /** What was charged, to one loop or to all, as far as it had a price. */
  function Charged(events: seq<Event>, only: Option<nat>): seq<real> {
    if events == [] then []
    else
      (match events[0]
       case Charge(i, Some(cost)) => if only.None? || only.value == i then [cost] else []
       case _ => []) + Charged(events[1..], only)
  }

  /** Whatever raises, a loop's book is the sum and the dearest of its own charges, and the execution's of all. */
  lemma {:induction false} BooksAreCharges(p: Pacing, s: Ledger, events: seq<Event>, i: nat)
    requires Legal(|s.loops|, events) && i < |s.loops|
    ensures var t := Run(p, s, events);
      && i < |t.loops| && t.loops[i].max == s.loops[i].max
      && t.loops[i].spent == s.loops[i].spent + Total(Charged(events, Some(i)))
      && t.loops[i].peak == Dearest(s.loops[i].peak, Charged(events, Some(i)))
      && t.execution.max == s.execution.max
      && t.execution.spent == s.execution.spent + Total(Charged(events, None))
      && t.execution.peak == Dearest(s.execution.peak, Charged(events, None))
    decreases |events|
  {
    if events != [] {
      var s' := Step(p, s, events[0]).0;
      BookStep(p, s, events[0], i);
      BooksAreCharges(p, s', events[1..], i);
      OneCharge(events, Some(i));
      OneCharge(events, None);
      hide Step, Charged;
      assert forall costs: seq<real> :: [] + costs == costs;
      TotalJoins(Charged([events[0]], Some(i)), Charged(events[1..], Some(i)), s.loops[i].peak);
      TotalJoins(Charged([events[0]], None), Charged(events[1..], None), s.execution.peak);
    }
  }

  lemma OneCharge(events: seq<Event>, only: Option<nat>)
    requires events != []
    ensures Charged(events, only) == Charged([events[0]], only) + Charged(events[1..], only)
  {
    assert [events[0]][1..] == [];
  }

  lemma {:induction false} TotalJoins(a: seq<real>, b: seq<real>, seen: real)
    ensures Total(a + b) == Total(a) + Total(b) && Dearest(seen, a + b) == Dearest(Dearest(seen, a), b)
    decreases |a|
  {
    if a == [] {
      assert a + b == b;
    } else {
      TotalJoins(a[1..], b, Max(seen, a[0]));
      assert (a + b)[1..] == a[1..] + b;
    }
  }

  lemma BookStep(p: Pacing, s: Ledger, event: Event, i: nat)
    requires Legal(|s.loops|, [event]) && i < |s.loops|
    ensures var t := Step(p, s, event).0;
      && i < |t.loops| && t.loops[i].max == s.loops[i].max && t.execution.max == s.execution.max
      && t.loops[i].spent == s.loops[i].spent + Total(Charged([event], Some(i))) && t.loops[i].peak == Dearest(s.loops[i].peak, Charged([event], Some(i)))
      && t.execution.spent == s.execution.spent + Total(Charged([event], None)) && t.execution.peak == Dearest(s.execution.peak, Charged([event], None))
  {
    assert [event][1..] == [] && Charged([], Some(i)) == [] && Charged([], None) == [];
    hide ChargeExecution;
    match event {
      case Charge(j, Some(cost)) =>
        assert [cost][1..] == [] && Total([cost]) == cost;
        ChargeBooks(p, s.execution, s.loops[j], cost);
      case _ =>
    }
  }

  lemma ChargeBooks(p: Pacing, e: Execution, l: Loop, cost: real)
    ensures var (e', l', verdict) := ChargeLoop(p, e, l, Some(cost));
      && e' == e.(spent := e.spent + cost, peak := Max(e.peak, cost)) && l' == l.(spent := l.spent + cost, peak := Max(l.peak, cost))
      && verdict != Unpriced
  {
  }

  /** A charge raises for the execution if its limits are passed, for the loop if only its own is, and for the price if there is none. */
  lemma ChargeRaisesFor(p: Pacing, e: Execution, l: Loop, cost: real)
    requires l.peak <= e.peak
    ensures var room := if l.landed then Reserved(p, e.peak) else 0.0;
      ChargeLoop(p, e, l, Some(cost)).2 ==
        if e.spent + cost > e.max + room || e.spent + cost > Scaled(e.max, p.backstop) then ExecutionOver
        else if l.spent + cost > l.max + room then LoopOver
        else Kept
    ensures ChargeLoop(p, e, l, None) == (e, l, Unpriced)
  {
    hide Scaled;
  }

  /** So many more calls, each at this price. */
  function AfterCalls(spent: real, price: real, n: nat): real {
    if n == 0 then spent else AfterCalls(spent, price, n - 1) + price
  }

  lemma {:induction false} ReserveIsSoManyCalls(spent: real, price: real, n: nat)
    ensures AfterCalls(spent, price, n) == spent + Scaled(price, n as real)
  {
    if n > 0 {
      ReserveIsSoManyCalls(spent, price, n - 1);
      assert (n - 1) as real + 1.0 == n as real;
      ScaledMore(price, (n - 1) as real);
    }
  }

  lemma ScaledMore(x: real, factor: real)
    ensures Scaled(x, factor + 1.0) == Scaled(x, factor) + x && Scaled(x, 0.0) == 0.0
  {
  }

  /** A loop is not landing if and only if as many calls as the reserve counts, each as dear as the dearest, would stay inside both limits. */
  lemma NotLandingMeans(p: Pacing, e: Execution, l: Loop)
    ensures !Landing(p, e, l) <==> AfterCalls(l.spent, l.peak, p.reserveCalls) < l.max && AfterCalls(e.spent, e.peak, p.reserveCalls) < e.max
  {
    ReserveIsSoManyCalls(l.spent, l.peak, p.reserveCalls);
    ReserveIsSoManyCalls(e.spent, e.peak, p.reserveCalls);
    hide Scaled;
  }

  /** A loop starts empty; its limit is the smaller of its own cap and the execution's. */
  lemma OpenLoopMeans(e: Execution, cap: Option<real>)
    ensures var l := OpenLoop(e, cap);
      && l.spent == 0.0 && l.peak == 0.0 && !l.landed
      && l.max <= e.max && (cap.Some? ==> l.max <= cap.value) && (l.max == e.max || cap == Some(l.max))
  {
  }

  /** A reservation is the turns asked for, as far as there are any, and the asked share of the dollars; it is refused for the first thing wrong. */
  lemma ReserveMeans(pool: Pool, turns: int, share: real)
    ensures Reserve(pool, turns, share) ==
      if turns < 0 then Err(NegativeTurns)
      else if share < 0.0 || share > 1.0 then Err(ShareOutOfRange)
      else match pool.turns
        case None => Err(NoTurnLedger)
        case Some(left) =>
          var granted := if turns > left then left else turns;
          Ok((Lease(granted, share * pool.usd), Pool(Some(left - granted), pool.usd - share * pool.usd)))
  {
    assert Scaled(pool.usd, share) == share * pool.usd;
    hide Scaled;
  }

  /** A loop has landed if and only if it was told to. */
  lemma {:induction false} LandedIff(p: Pacing, s: Ledger, events: seq<Event>, i: nat)
    requires Legal(|s.loops|, events) && i < |s.loops|
    ensures var t := Run(p, s, events); i < |t.loops| && (t.loops[i].landed <==> s.loops[i].landed || Land(i) in events)
    decreases |events|
  {
    if events != [] {
      hide ChargeExecution;
      LandedIff(p, Step(p, s, events[0]).0, events[1..], i);
      assert events == [events[0]] + events[1..];
    }
  }
}
