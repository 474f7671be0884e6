/** What a recipe scan records in dollars, over every run. */
module ScanCost {
  import opened Wrappers
  import opened Apportion
  import opened Provenance
  import opened ScanRun
  import L = DollarLedger

  /** Every call of this step costs at most its lease and `c` more. */
  ghost predicate WithinCost(cfg: Config, s: Scan, o: Outcome, c: real) {
    match o
    case SurveyReply(_, _, usd) => usd <= cfg.survey.maxCostUsd + c
    case ProbeReplies(replies) => s.node.Probes? && |replies| == |s.node.leases| &&
      forall i | 0 <= i < |replies| && s.node.leases[i].maxTurns > 0 :: replies[i].usd <= s.node.leases[i].maxCostUsd + c
    case Draft(_, _, _, _, usd) =>
      usd <= (if s.node.Repair? then cfg.repair.maxCostUsd else SynthesisLease(cfg, s.ch).maxCostUsd) + c
    case RepairExhausted(usd) => usd <= cfg.repair.maxCostUsd + c
    case _ => true
  }

  ghost predicate AllWithinCost(cfg: Config, s: Scan, os: seq<Outcome>, c: real)
    requires Possible(cfg, s, os)
    decreases |os|
  {
    os == [] || (WithinCost(cfg, s, os[0], c) && AllWithinCost(cfg, Next(cfg, s, os[0]), os[1..], c))
  }

  function ReservedUsdSoFar(cfg: Config, s: Scan): real {
    (if s.node == Survey then 0.0 else cfg.survey.maxCostUsd) + (if s.ch.repairAttempted then cfg.repair.maxCostUsd else 0.0)
  }

  /** Recorded dollars beyond the pool and beyond the reservations used so far. */
  function ExcessUsd(cfg: Config, s: Scan): real {
    NonNegativeUsd(s.ch.spend.poolUsd - cfg.maxCostUsd) + NonNegativeUsd(s.tally.reservedUsd - ReservedUsdSoFar(cfg, s))
  }

  predicate LeasedDollarsFit(cfg: Config, s: Scan) {
    s.node.Probes? ==>
      && (forall i | 0 <= i < |s.node.leases| :: s.node.leases[i].maxCostUsd >= 0.0)
      && CombineLeases(s.node.leases).maxCostUsd <= RemainingUsd(cfg, s.ch.spend)
  }

  predicate CostKept(cfg: Config, s: Scan, c: real) {
    ExcessUsd(cfg, s) <= L.Scaled(c, s.tally.calls as real) && LeasedDollarsFit(cfg, s)
  }

  lemma MoreCostlyCalls(c: real, before: nat, more: nat)
    ensures L.Scaled(c, (before + more) as real) == L.Scaled(c, before as real) + L.Scaled(c, more as real)
    ensures L.Scaled(c, 1.0) == c && L.Scaled(c, 0.0) == 0.0
    ensures c >= 0.0 ==> L.Scaled(c, more as real) >= 0.0
  {
  }

  lemma {:induction false} GatherWithinCost(leases: seq<Lease>, replies: seq<ProbeReply>, c: real)
    requires |leases| == |replies| && c >= 0.0
    requires forall i | 0 <= i < |leases| :: leases[i].maxCostUsd >= 0.0 && (leases[i].maxTurns > 0 ==> replies[i].usd <= leases[i].maxCostUsd + c)
    ensures var g := Gather(leases, replies);
      g.spend.poolUsd <= CombineLeases(leases).maxCostUsd + L.Scaled(c, g.calls as real)
  {
    if leases == [] {
      MoreCostlyCalls(c, 0, 0);
    } else {
      hide L.Scaled;
      var n := |leases| - 1;
      GatherWithinCost(leases[..n], replies[..n], c);
      MoreCostlyCalls(c, Gather(leases[..n], replies[..n]).calls, ProbeOne(leases[n], replies[n]).calls);
    }
  }

  lemma SynthesisLeaseUsd(cfg: Config, ch: Channels)
    ensures SynthesisLease(cfg, ch).maxCostUsd == FloorLease(ch.spend, cfg.floor).maxCostUsd + RemainingUsd(cfg, ch.spend)
  {
    var a, b := FloorLease(ch.spend, cfg.floor), Lease(RemainingTurns(cfg, ch.spend), RemainingUsd(cfg, ch.spend));
    assert [a, b][..1] == [a] && [a][..0] == [];
    assert CombineLeases([a]).maxCostUsd == a.maxCostUsd;
  }

  lemma SurveyCost(cfg: Config, s: Scan, o: Outcome, c: real)
    requires NoDebt(cfg) && c >= 0.0 && s.node == Survey && Allowed(cfg, s, o) && WithinCost(cfg, s, o, c)
    requires CostKept(cfg, s, c)
    ensures CostKept(cfg, Next(cfg, s, o), c)
  {
    hide FanOut, CombineLeases, Publishable, L.Scaled;
    MoreCostlyCalls(c, s.tally.calls, 1);
    if o.SurveyReply? {
      FanOutFits(o.plan, RemainingTurns(cfg, Next(cfg, s, o).ch.spend), RemainingUsd(cfg, Next(cfg, s, o).ch.spend));
    }
  }

  lemma ProbesCost(cfg: Config, s: Scan, o: Outcome, c: real)
    requires NoDebt(cfg) && c >= 0.0 && s.node.Probes? && Allowed(cfg, s, o) && WithinCost(cfg, s, o, c)
    requires CostKept(cfg, s, c)
    ensures CostKept(cfg, Next(cfg, s, o), c)
  {
    hide Gather, CombineLeases, Publishable, L.Scaled;
    if o.ProbeReplies? {
      GatherWithinCost(s.node.leases, o.replies, c);
      MoreCostlyCalls(c, s.tally.calls, Gather(s.node.leases, o.replies).calls);
    }
  }

  lemma InvestigateCost(cfg: Config, s: Scan, o: Outcome, c: real)
    requires NoDebt(cfg) && c >= 0.0 && s.node == Investigate && Allowed(cfg, s, o) && WithinCost(cfg, s, o, c)
    requires CostKept(cfg, s, c)
    ensures CostKept(cfg, Next(cfg, s, o), c)
  {
    hide FanOut, CombineLeases, Publishable, L.Scaled, SynthesisLease;
    MoreCostlyCalls(c, s.tally.calls, 1);
    SynthesisLeaseUsd(cfg, s.ch);
    var t := Next(cfg, s, o);
    if t.ch.redispatch.Some? && !o.Crash? {
      FanOutFits(t.ch.redispatch.value, RemainingTurns(cfg, t.ch.spend), RemainingUsd(cfg, t.ch.spend));
    }
  }

  lemma StepWithinCost(cfg: Config, s: Scan, o: Outcome, c: real)
    requires NoDebt(cfg) && c >= 0.0 && Inv(cfg, s) && Allowed(cfg, s, o) && WithinCost(cfg, s, o, c)
    requires CostKept(cfg, s, c)
    ensures CostKept(cfg, Next(cfg, s, o), c)
  {
    match s.node {
      case Survey => SurveyCost(cfg, s, o, c);
      case Probes(_) => ProbesCost(cfg, s, o, c);
      case Investigate => InvestigateCost(cfg, s, o, c);
      case Done =>
      case Crashed =>
      case _ => TailCost(cfg, s, o, c);
    }
  }

  lemma TailCost(cfg: Config, s: Scan, o: Outcome, c: real)
    requires NoDebt(cfg) && c >= 0.0 && Inv(cfg, s) && Allowed(cfg, s, o) && WithinCost(cfg, s, o, c)
    requires s.node.Validate? || s.node.Repair? || s.node.Finalize? || s.node.Empty?
    requires CostKept(cfg, s, c)
    ensures CostKept(cfg, Next(cfg, s, o), c)
  {
    if s.node.Repair? {
      RepairedOnce(cfg, s);
      RepairCost(cfg, s, o, c);
    } else {
      QuietCost(cfg, s, o, c);
    }
  }

  lemma RepairedOnce(cfg: Config, s: Scan)
    requires Inv(cfg, s) && s.node.Repair?
    ensures !s.ch.repairAttempted
  {
    hide Balanced, Bounded, LeasesFit, Clean;
  }

  lemma RepairCost(cfg: Config, s: Scan, o: Outcome, c: real)
    requires NoDebt(cfg) && c >= 0.0 && s.node.Repair? && !s.ch.repairAttempted && Allowed(cfg, s, o) && WithinCost(cfg, s, o, c)
    requires CostKept(cfg, s, c)
    ensures CostKept(cfg, Next(cfg, s, o), c)
  {
    hide Publishable, L.Scaled, CombineLeases, SynthesisLease, SurveyStep, ProbeStep, InvestigateStep;
    MoreCostlyCalls(c, s.tally.calls, 1);
  }

  lemma QuietCost(cfg: Config, s: Scan, o: Outcome, c: real)
    requires s.node.Validate? || s.node.Finalize? || s.node.Empty?
    requires CostKept(cfg, s, c)
    ensures CostKept(cfg, Next(cfg, s, o), c)
  {
    hide L.Scaled, CombineLeases, SurveyStep, ProbeStep, InvestigateStep, RepairStep;
  }

  lemma {:induction false} RunWithinCost(cfg: Config, s: Scan, os: seq<Outcome>, c: real)
    requires cfg.Valid() && NoDebt(cfg) && c >= 0.0 && Inv(cfg, s) && Possible(cfg, s, os) && AllWithinCost(cfg, s, os, c)
    requires CostKept(cfg, s, c)
    ensures CostKept(cfg, Run(cfg, s, os), c)
    decreases |os|
  {
    hide Next, WithinCost, CostKept, Inv, NoDebt, Rank;
    if os != [] {
      StepKeeps(cfg, s, os[0]);
      StepWithinCost(cfg, s, os[0], c);
      RunWithinCost(cfg, Next(cfg, s, os[0]), os[1..], c);
    }
  }

  lemma InitialCost(cfg: Config, c: real)
    requires NoDebt(cfg) && c >= 0.0
    ensures CostKept(cfg, Initial(cfg), c)
  {
  }

  lemma CostTotal(cfg: Config, s: Scan, c: real)
    requires NoDebt(cfg) && cfg.Valid() && Balanced(s) && Bounded(cfg, s) && CostKept(cfg, s, c)
    ensures s.ch.spend.modelUsd <= cfg.repair.maxCostUsd + cfg.survey.maxCostUsd + cfg.floor.maxCostUsd + cfg.maxCostUsd
      + L.Scaled(c, s.tally.calls as real)
  {
    hide L.Scaled;
  }

  /**
   * Over every run the recorded dollars are never more than the dollars the execution started with plus `c`
   * per model call, where no call costs more than its lease and `c`.
   */
  lemma ScanCostBound(cfg: Config, turns: int, usd: real, repair: (int, real), survey: (int, real), floor: (int, real),
    os: seq<Outcome>, c: real)
    requires turns >= 0 && usd >= 0.0 && c >= 0.0
    requires Compose(turns, usd, repair, survey, floor, cfg.rounds, cfg.anchor, cfg.limit) == Ok(cfg)
    requires Possible(cfg, Initial(cfg), os) && AllWithinCost(cfg, Initial(cfg), os, c)
    ensures var t := Run(cfg, Initial(cfg), os);
      t.ch.spend.modelUsd <= usd + L.Scaled(c, t.tally.calls as real)
  {
    ComposeSplits(turns, usd, repair, survey, floor, cfg.rounds, cfg.anchor, cfg.limit);
    InitialHolds(cfg);
    InitialCost(cfg, c);
    hide Possible, Run, Inv, Rank, Initial, Compose, AllWithinCost, CostKept;
    RunKeeps(cfg, Initial(cfg), os);
    WhatInvSays(cfg, Run(cfg, Initial(cfg), os));
    RunWithinCost(cfg, Initial(cfg), os, c);
    CostTotal(cfg, Run(cfg, Initial(cfg), os), c);
  }

  // ----- where the calls' dollars come from

  /** What a loop of the execution's ledger cost that was opened with this cap, whatever the other loops did meanwhile. */
  ghost predicate Charged(p: L.Pacing, dear: real, cap: real, usd: real) {
    exists s, events, i: nat :: LoopCost(p, dear, cap, s, events, i) && usd == L.Run(p, s, events).loops[i].spent
  }

  predicate LoopCost(p: L.Pacing, dear: real, cap: real, s: L.Ledger, events: seq<L.Event>, i: nat) {
    && L.Legal(|s.loops|, events) && i < |s.loops| && i < |L.Run(p, s, events).loops| && L.StopsAtRaise(p, s, events, i)
    && s.loops[i] == L.OpenLoop(s.execution, Some(cap))
    && 0.0 <= s.execution.peak <= dear && (forall j | 0 <= j < |s.loops| :: 0.0 <= s.loops[j].peak <= dear)
    && forall k | 0 <= k < |events| && events[k].Charge? && events[k].price.Some? :: 0.0 <= events[k].price.value <= dear
  }

  lemma ChargedNearItsCap(p: L.Pacing, dear: real, cap: real, usd: real)
    requires Charged(p, dear, cap, usd) && cap >= 0.0
    ensures usd <= cap + L.Overrun(p, dear)
  {
    var s, events, i: nat :| LoopCost(p, dear, cap, s, events, i) && usd == L.Run(p, s, events).loops[i].spent;
    L.LoopStaysNearItsCap(p, s, events, i, cap, dear);
  }

  /** Every call of this step ran in a loop opened with the dollars of its lease. */
  ghost predicate ChargedCalls(cfg: Config, s: Scan, o: Outcome, p: L.Pacing, dear: real) {
    match o
    case SurveyReply(_, _, usd) => Charged(p, dear, cfg.survey.maxCostUsd, usd)
    case ProbeReplies(replies) => s.node.Probes? && |replies| == |s.node.leases| &&
      forall i | 0 <= i < |replies| && s.node.leases[i].maxTurns > 0 :: Charged(p, dear, s.node.leases[i].maxCostUsd, replies[i].usd)
    case Draft(_, _, _, _, usd) =>
      Charged(p, dear, if s.node.Repair? then cfg.repair.maxCostUsd else SynthesisLease(cfg, s.ch).maxCostUsd, usd)
    case RepairExhausted(usd) => Charged(p, dear, cfg.repair.maxCostUsd, usd)
    case _ => true
  }

  ghost predicate AllCharged(cfg: Config, s: Scan, os: seq<Outcome>, p: L.Pacing, dear: real)
    requires Possible(cfg, s, os)
    decreases |os|
  {
    os == [] || (ChargedCalls(cfg, s, os[0], p, dear) && AllCharged(cfg, Next(cfg, s, os[0]), os[1..], p, dear))
  }

  lemma ChargedStep(cfg: Config, s: Scan, o: Outcome, p: L.Pacing, dear: real)
    requires NoDebt(cfg) && LeasedDollarsFit(cfg, s) && ChargedCalls(cfg, s, o, p, dear)
    ensures WithinCost(cfg, s, o, L.Overrun(p, dear))
  {
    SynthesisLeaseUsd(cfg, s.ch);
    hide L.Overrun, Charged, SynthesisLease, CombineLeases;
    match o {
      case SurveyReply(_, _, usd) => ChargedNearItsCap(p, dear, cfg.survey.maxCostUsd, usd);
      case ProbeReplies(replies) =>
        forall i | 0 <= i < |replies| && s.node.leases[i].maxTurns > 0
          ensures replies[i].usd <= s.node.leases[i].maxCostUsd + L.Overrun(p, dear)
        {
          ChargedNearItsCap(p, dear, s.node.leases[i].maxCostUsd, replies[i].usd);
        }
      case Draft(_, _, _, _, usd) =>
        ChargedNearItsCap(p, dear, if s.node.Repair? then cfg.repair.maxCostUsd else SynthesisLease(cfg, s.ch).maxCostUsd, usd);
      case RepairExhausted(usd) => ChargedNearItsCap(p, dear, cfg.repair.maxCostUsd, usd);
      case _ =>
    }
  }

  lemma {:induction false} ChargedRun(cfg: Config, s: Scan, os: seq<Outcome>, p: L.Pacing, dear: real)
    requires cfg.Valid() && NoDebt(cfg) && L.Overrun(p, dear) >= 0.0 && Inv(cfg, s) && CostKept(cfg, s, L.Overrun(p, dear))
    requires Possible(cfg, s, os) && AllCharged(cfg, s, os, p, dear)
    ensures AllWithinCost(cfg, s, os, L.Overrun(p, dear))
    decreases |os|
  {
    if os != [] {
      assert LeasedDollarsFit(cfg, s);
      hide Next, WithinCost, CostKept, Inv, NoDebt, Rank, ChargedCalls, L.Overrun, LeasedDollarsFit;
      ChargedStep(cfg, s, os[0], p, dear);
      StepKeeps(cfg, s, os[0]);
      StepWithinCost(cfg, s, os[0], L.Overrun(p, dear));
      ChargedRun(cfg, Next(cfg, s, os[0]), os[1..], p, dear);
    }
  }

  /**
   * So a scan whose calls run in loops of the ledger records, over every run, at most the dollars it started
   * with, and for each call the landing reserve and one answer that raised, at the dearest price of an answer.
   */
  lemma ScanSpendIsBounded(cfg: Config, turns: int, usd: real, repair: (int, real), survey: (int, real), floor: (int, real),
    os: seq<Outcome>, p: L.Pacing, dear: real)
    requires turns >= 0 && usd >= 0.0 && dear >= 0.0
    requires Compose(turns, usd, repair, survey, floor, cfg.rounds, cfg.anchor, cfg.limit) == Ok(cfg)
    requires Possible(cfg, Initial(cfg), os) && AllCharged(cfg, Initial(cfg), os, p, dear)
    ensures var t := Run(cfg, Initial(cfg), os);
      t.ch.spend.modelUsd <= usd + L.Scaled(L.Overrun(p, dear), t.tally.calls as real)
  {
    ComposeSplits(turns, usd, repair, survey, floor, cfg.rounds, cfg.anchor, cfg.limit);
    InitialHolds(cfg);
    L.DearerReserves(p, 0.0, dear);
    hide Possible, Run, Inv, Rank, Initial, Compose, AllCharged, AllWithinCost, CostKept, L.Reserved, L.Scaled;
    InitialCost(cfg, L.Overrun(p, dear));
    ChargedRun(cfg, Initial(cfg), os, p, dear);
    ScanCostBound(cfg, turns, usd, repair, survey, floor, os, L.Overrun(p, dear));
  }
}
