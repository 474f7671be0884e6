/**
 * One recipe scan: survey, parallel probes behind a barrier, synthesis with bounded re-dispatch, validation
 * with one repair, and one of two ends. Model calls answer with anything; what they spend is recorded in
 * additive channels.
 */
module ScanRun {
  import opened Wrappers
  import opened Apportion
  import opened Provenance
  import L = DollarLedger

  /** Shares come from the declared dispatch depths, which are at least one. */
  datatype Assignment = Assignment(probe: string, share: int)

  type Plan = seq<Assignment>

  function Shares(plan: Plan): (r: seq<int>)
    ensures |r| == |plan| && forall i | 0 <= i < |r| :: r[i] == plan[i].share
  {
    seq(|plan|, i requires 0 <= i < |plan| => plan[i].share)
  }

  datatype Reason = Degraded | InsufficientEvidence | NothingToSave

  /** The three reservations, what is left for the fan-out, and the declared limits. */
  datatype Config = Config(
    repair: Lease, survey: Lease, floor: Lease,
    maxTurns: int, maxCostUsd: real,
    rounds: nat, anchor: Id, limit: nat)
  {
    predicate Valid() {
      repair.maxTurns >= 0 && survey.maxTurns >= 0 && floor.maxTurns >= 0 && maxTurns >= 0
      && floor.maxCostUsd >= 0.0
    }
  }

  // ----- spend channels

  datatype Spend = Spend(modelUsd: real, modelTurns: int, poolUsd: real, poolTurns: int, floorUsd: real, floorTurns: int)

  const NO_SPEND := Spend(0.0, 0, 0.0, 0, 0.0, 0)

  function Add(a: Spend, b: Spend): Spend {
    Spend(a.modelUsd + b.modelUsd, a.modelTurns + b.modelTurns, a.poolUsd + b.poolUsd, a.poolTurns + b.poolTurns,
      a.floorUsd + b.floorUsd, a.floorTurns + b.floorTurns)
  }

  function ReservedSpend(usd: real, turns: int): Spend { Spend(usd, turns, 0.0, 0, 0.0, 0) }

  function PoolSpend(usd: real, turns: int): Spend { Spend(usd, turns, usd, turns, 0.0, 0) }

  /** The floor reservation is filled first, only the rest comes out of the pool. */
  function FloorThenPoolSpend(floor: Lease, usd: real, turns: int): Spend {
    var floorTurns := if turns <= floor.maxTurns then turns else floor.maxTurns;
    var floorUsd := if usd <= floor.maxCostUsd then usd else floor.maxCostUsd;
    Spend(usd, turns, usd - floorUsd, turns - floorTurns, floorUsd, floorTurns)
  }

  function NonNegative(x: int): int { if x < 0 then 0 else x }

  function NonNegativeUsd(x: real): real { if x < 0.0 then 0.0 else x }

  /** What is left of the floor reservation, granted once per execution. */
  function FloorLease(spent: Spend, reserved: Lease): Lease {
    Lease(NonNegative(reserved.maxTurns - spent.floorTurns), NonNegativeUsd(reserved.maxCostUsd - spent.floorUsd))
  }

  function RemainingTurns(cfg: Config, spent: Spend): int { NonNegative(cfg.maxTurns - spent.poolTurns) }

  function RemainingUsd(cfg: Config, spent: Spend): real { NonNegativeUsd(cfg.maxCostUsd - spent.poolUsd) }

  // ----- state

  datatype ScanResult = ScanResult(recipes: seq<Candidate>, provenance: Catalog)

  datatype Channels = Channels(
    spend: Spend,
    plan: Option<Plan>,
    redispatch: Option<Plan>,
    redispatchCount: nat,
    failedProbes: nat,
    exhausted: bool,
    provenance: Catalog,
    candidates: seq<Candidate>,
    errors: seq<Problem>,
    repairAttempted: bool,
    reason: Option<Reason>)

  datatype Node = Survey | Probes(leases: seq<Lease>) | Investigate | Validate | Repair | Finalize | Empty | Done | Crashed

  /** What a run adds up to: supersteps, calls, turns used beyond a lease, reserved spend, repairs, ends. */
  datatype Tally = Tally(
    steps: nat, calls: nat, poolOver: nat, reservedOver: nat,
    reservedTurns: int, reservedUsd: real, repairs: nat, ends: nat)

  datatype Scan = Scan(node: Node, ch: Channels, result: Option<ScanResult>, tally: Tally)

  function Initial(cfg: Config): Scan {
    Scan(Survey,
      Channels(NO_SPEND, None, None, 0, 0, false, EMPTY_CATALOG, [], [], false, None),
      None,
      Tally(0, 0, 0, 0, 0, 0.0, 0, 0))
  }

  // ----- what the calls answer

  datatype ProbeReply =
    | Reported(turns: nat, usd: real, catalog: Catalog, exhausted: bool)
    | Salvaged(usd: real, catalog: Catalog, exhausted: bool)
    | Died(usd: real, catalog: Catalog)

  datatype Outcome =
    | NoCall
    | SurveyReply(plan: Plan, turns: nat, usd: real)
    | SurveyFailed
    | ProbeReplies(replies: seq<ProbeReply>)
    | Draft(candidates: seq<Candidate>, redispatch: Plan, catalog: Catalog, turns: nat, usd: real)
    | Verdict(errors: seq<Problem>)
    | RepairExhausted(usd: real)
    | Crash

  ghost predicate GoodPlan(plan: Plan) { forall i | 0 <= i < |plan| :: plan[i].share >= 1 }

  function SynthesisLease(cfg: Config, ch: Channels): Lease {
    CombineLeases([FloorLease(ch.spend, cfg.floor), Lease(RemainingTurns(cfg, ch.spend), RemainingUsd(cfg, ch.spend))])
  }

  /** A draft carries recipes or a re-dispatch request, never both. */
  ghost predicate GoodDraft(o: Outcome) {
    o.Draft? && o.usd >= 0.0 && (o.candidates == [] || o.redispatch == []) && GoodPlan(o.redispatch)
  }

  /** What may happen next. A verdict is what the validator's contract says it is. */
  ghost predicate Allowed(cfg: Config, s: Scan, o: Outcome) {
    match s.node
    case Survey =>
      if cfg.survey.maxTurns <= 0 then o.NoCall?
      else o.SurveyFailed? || o.Crash? || (o.SurveyReply? && GoodPlan(o.plan) && o.usd >= 0.0)
    case Probes(leases) =>
      o.Crash? || (o.ProbeReplies? && |o.replies| == |leases| && forall i | 0 <= i < |leases| :: o.replies[i].usd >= 0.0)
    case Investigate =>
      if SynthesisLease(cfg, s.ch).maxTurns <= 0 then o.NoCall? else o.Crash? || GoodDraft(o)
    case Validate =>
      o.Verdict? && (o.errors == [] <==>
        s.ch.candidates == [] || Publishable(s.ch.candidates, cfg.anchor, s.ch.provenance, cfg.limit))
    case Repair =>
      if s.ch.candidates == [] || cfg.repair.maxTurns <= 0 then o.NoCall?
      else o.Crash? || GoodDraft(o) || (o.RepairExhausted? && o.usd >= 0.0)
    case Finalize => o.NoCall?
    case Empty => o.NoCall?
    case Done => false
    case Crashed => false
  }

  // ----- the nodes

  function FanOut(plan: Plan, turns: int, usd: real): seq<Lease> {
    if plan == [] || turns <= 0 || usd <= 0.0 then [] else QuoteShares(Shares(plan), turns, usd)
  }

  /** After the survey: fan out, or end empty when there is nobody to send or nothing to spend. */
  function DispatchSurvey(cfg: Config, ch: Channels): Node {
    if ch.plan.None? || ch.plan.value == [] then Empty
    else
      var leases := FanOut(ch.plan.value, RemainingTurns(cfg, ch.spend), RemainingUsd(cfg, ch.spend));
      if leases == [] then Empty else Probes(leases)
  }

  function AfterInvestigate(cfg: Config, ch: Channels): Node {
    if ch.redispatch.None? then Validate
    else
      var leases := FanOut(ch.redispatch.value, RemainingTurns(cfg, ch.spend), RemainingUsd(cfg, ch.spend));
      if leases == [] then Validate else Probes(leases)
  }

  function Route(ch: Channels): Node {
    if ch.errors == [] then Finalize else if !ch.repairAttempted then Repair else Empty
  }

  function Over(turns: int, lease: int): nat { if turns > lease then turns - lease else 0 }

  function SurveyStep(cfg: Config, s: Scan, o: Outcome): Scan {
    match o
    case SurveyReply(plan, turns, usd) =>
      var ch := s.ch.(plan := Some(plan), spend := Add(s.ch.spend, ReservedSpend(usd, turns)));
      Scan(DispatchSurvey(cfg, ch), ch, None, s.tally.(calls := s.tally.calls + 1,
        reservedTurns := s.tally.reservedTurns + turns, reservedUsd := s.tally.reservedUsd + usd,
        reservedOver := s.tally.reservedOver + Over(turns, cfg.survey.maxTurns)))
    case SurveyFailed => s.(node := Empty, ch := s.ch.(plan := None, reason := Some(Degraded)))
    case _ =>
      var ch := s.ch.(plan := Some([]));
      s.(node := DispatchSurvey(cfg, ch), ch := ch)
  }

  /** What a fan-out adds up to when the barrier lifts. */
  datatype Gathered = Gathered(spend: Spend, over: nat, calls: nat, failed: nat, exhausted: bool, catalog: Catalog)

  /** A probe without turns calls nobody; a probe that failed is charged its whole lease. */
  function ProbeOne(lease: Lease, reply: ProbeReply): Gathered {
    if lease.maxTurns <= 0 then Gathered(PoolSpend(0.0, 0), 0, 0, 0, true, EMPTY_CATALOG)
    else
      match reply
      case Reported(turns, usd, catalog, exhausted) =>
        Gathered(PoolSpend(usd, turns), Over(turns, lease.maxTurns), 1, 0, exhausted, catalog)
      case Salvaged(usd, catalog, exhausted) => Gathered(PoolSpend(usd, lease.maxTurns), 0, 1, 0, exhausted, catalog)
      case Died(usd, catalog) => Gathered(PoolSpend(usd, lease.maxTurns), 0, 1, 1, false, catalog)
  }

  function Gather(leases: seq<Lease>, replies: seq<ProbeReply>): Gathered
    requires |leases| == |replies|
  {
    if leases == [] then Gathered(NO_SPEND, 0, 0, 0, false, EMPTY_CATALOG)
    else
      var n := |leases| - 1;
      var before, last := Gather(leases[..n], replies[..n]), ProbeOne(leases[n], replies[n]);
      Gathered(Add(before.spend, last.spend), before.over + last.over, before.calls + last.calls,
        before.failed + last.failed, before.exhausted || last.exhausted, MergedProvenance(before.catalog, last.catalog))
  }

  function ProbeStep(s: Scan, o: Outcome): Scan
    requires s.node.Probes? && o.ProbeReplies? && |s.node.leases| == |o.replies|
  {
    var g := Gather(s.node.leases, o.replies);
    Scan(Investigate,
      s.ch.(spend := Add(s.ch.spend, g.spend), failedProbes := s.ch.failedProbes + g.failed,
        exhausted := s.ch.exhausted || g.exhausted, provenance := MergedProvenance(s.ch.provenance, g.catalog)),
      None,
      s.tally.(calls := s.tally.calls + g.calls, poolOver := s.tally.poolOver + g.over))
  }

  /** Ask for the specialists again, if the draft wants it, a round is left and the pool still holds something. */
  function PlanRedispatch(redispatch: Plan, count: nat, rounds: nat, usd: real, turns: int): Option<Plan> {
    if redispatch == [] || count >= rounds then None
    else if usd <= 0.0 || turns <= 0 then None
    else Some(redispatch)
  }

  function InvestigateStep(cfg: Config, s: Scan, o: Outcome): Scan {
    var floor := FloorLease(s.ch.spend, cfg.floor);
    var pool := Lease(RemainingTurns(cfg, s.ch.spend), RemainingUsd(cfg, s.ch.spend));
    var (candidates, redispatch, catalog, turns, usd, calls) :=
      match o
      case Draft(candidates, redispatch, catalog, turns, usd) => (candidates, redispatch, catalog, turns as int, usd, 1)
      case _ => ([], [], s.ch.provenance, 0, 0.0, 0);
    var spend := FloorThenPoolSpend(floor, usd, turns);
    var plan := PlanRedispatch(redispatch, s.ch.redispatchCount, cfg.rounds,
      pool.maxCostUsd - spend.poolUsd, pool.maxTurns - spend.poolTurns);
    var ch := s.ch.(
      candidates := candidates,
      provenance := MergedProvenance(s.ch.provenance, catalog),
      spend := Add(s.ch.spend, spend),
      redispatch := plan,
      redispatchCount := s.ch.redispatchCount + if plan.Some? then 1 else 0);
    Scan(AfterInvestigate(cfg, ch), ch, None,
      s.tally.(calls := s.tally.calls + calls, poolOver := s.tally.poolOver + Over(turns, floor.maxTurns + pool.maxTurns)))
  }

  function RepairStep(cfg: Config, s: Scan, o: Outcome): Scan {
    var (candidates, catalog, reason, turns, usd, calls) :=
      match o
      case Draft(candidates, redispatch, catalog, turns, usd) =>
        // a repair that only asks for more specialists keeps the candidates it was given
        (if redispatch != [] && candidates == [] then s.ch.candidates else candidates, catalog, s.ch.reason, turns as int, usd, 1)
      case RepairExhausted(usd) => ([], s.ch.provenance, Some(Degraded), cfg.repair.maxTurns, usd, 1)
      case _ => ([], s.ch.provenance, s.ch.reason, 0, 0.0, 0);
    Scan(Validate,
      s.ch.(candidates := candidates, provenance := MergedProvenance(s.ch.provenance, catalog), reason := reason,
        repairAttempted := true, spend := Add(s.ch.spend, ReservedSpend(usd, turns))),
      None,
      s.tally.(calls := s.tally.calls + calls, repairs := s.tally.repairs + 1,
        reservedTurns := s.tally.reservedTurns + turns, reservedUsd := s.tally.reservedUsd + usd,
        reservedOver := s.tally.reservedOver + Over(turns, cfg.repair.maxTurns)))
  }

  function Next(cfg: Config, s: Scan, o: Outcome): Scan
    requires s.node.Probes? && o.ProbeReplies? ==> |s.node.leases| == |o.replies|
  {
    var t := s.(tally := s.tally.(steps := s.tally.steps + 1));
    if o.Crash? then t.(node := Crashed)
    else
      match s.node
      case Survey => SurveyStep(cfg, t, o)
      case Probes(leases) => if o.ProbeReplies? then ProbeStep(t, o) else t
      case Investigate => InvestigateStep(cfg, t, o)
      case Validate => if o.Verdict? then var ch := t.ch.(errors := o.errors); t.(ch := ch, node := Route(ch)) else t
      case Repair => RepairStep(cfg, t, o)
      case Finalize =>
        t.(node := Done, result := Some(ScanResult(t.ch.candidates, t.ch.provenance)), tally := t.tally.(ends := t.tally.ends + 1))
      case Empty =>
        t.(node := Done, result := Some(ScanResult([], t.ch.provenance)), tally := t.tally.(ends := t.tally.ends + 1))
      case Done => t
      case Crashed => t
  }

  ghost predicate Possible(cfg: Config, s: Scan, os: seq<Outcome>)
    decreases |os|
  {
    os == [] || (Allowed(cfg, s, os[0]) && Possible(cfg, Next(cfg, s, os[0]), os[1..]))
  }

  ghost function Run(cfg: Config, s: Scan, os: seq<Outcome>): Scan
    requires Possible(cfg, s, os)
    decreases |os|
  {
    if os == [] then s else Run(cfg, Next(cfg, s, os[0]), os[1..])
  }

  /** `empty_result_reason`: why a run without candidates is empty. */
  function EmptyResultReason(ch: Channels): Reason {
    if ch.reason.Some? then ch.reason.value
    else if ch.errors != [] || ch.failedProbes > 0 then Degraded
    else if ch.exhausted then InsufficientEvidence
    else NothingToSave
  }

  // ----- the invariant

  /** What the reservations have allowed so far. */
  function ReservedSoFar(cfg: Config, s: Scan): int {
    (if s.node == Survey then 0 else cfg.survey.maxTurns) + (if s.ch.repairAttempted then cfg.repair.maxTurns else 0)
  }

  predicate Balanced(s: Scan) {
    && s.ch.spend.modelTurns == s.tally.reservedTurns + s.ch.spend.poolTurns + s.ch.spend.floorTurns
    && s.ch.spend.modelUsd == s.tally.reservedUsd + s.ch.spend.poolUsd + s.ch.spend.floorUsd
  }

  predicate Bounded(cfg: Config, s: Scan) {
    && 0 <= s.ch.spend.floorTurns <= cfg.floor.maxTurns
    && 0.0 <= s.ch.spend.floorUsd <= cfg.floor.maxCostUsd
    && 0 <= s.ch.spend.poolTurns <= cfg.maxTurns + s.tally.poolOver
    && 0.0 <= s.ch.spend.poolUsd
    && 0 <= s.tally.reservedTurns <= ReservedSoFar(cfg, s) + s.tally.reservedOver
  }

  predicate LeasesFit(cfg: Config, s: Scan) {
    s.node.Probes? ==>
      && (forall i | 0 <= i < |s.node.leases| :: s.node.leases[i].maxTurns >= 0)
      && CombineLeases(s.node.leases).maxTurns <= RemainingTurns(cfg, s.ch.spend)
  }

  ghost predicate Clean(cfg: Config, candidates: seq<Candidate>, provenance: Catalog) {
    candidates == [] || Publishable(candidates, cfg.anchor, provenance, cfg.limit)
  }

  ghost predicate Routed(cfg: Config, s: Scan) {
    && s.ch.redispatchCount <= cfg.rounds
    && s.tally.repairs == (if s.ch.repairAttempted then 1 else 0)
    && (s.node.Probes? || s.node.Investigate? || s.node.Survey? || s.node.Repair? ==> !s.ch.repairAttempted)
    && (s.node == Finalize ==> Clean(cfg, s.ch.candidates, s.ch.provenance))
    && s.tally.ends == (if s.node == Done then 1 else 0)
    && (s.node == Done <==> s.result.Some?)
    && (s.node == Done ==> Clean(cfg, s.result.value.recipes, s.result.value.provenance))
  }

  ghost predicate Inv(cfg: Config, s: Scan) {
    Balanced(s) && Bounded(cfg, s) && LeasesFit(cfg, s) && Routed(cfg, s)
  }

  /** Supersteps still possible. */
  function Rank(cfg: Config, s: Scan): int {
    var rounds := cfg.rounds - s.ch.redispatchCount;
    match s.node
    case Survey => 2 * rounds + 7
    case Probes(_) => 2 * rounds + 6
    case Investigate => 2 * rounds + 5
    case Validate => if s.ch.repairAttempted then 2 else 4
    case Repair => 3
    case Finalize => 1
    case Empty => 1
    case Done => 0
    case Crashed => 0
  }

  // ----- every step keeps it

  lemma SharesPositive(plan: Plan)
    requires GoodPlan(plan)
    ensures AllPositive(Shares(plan))
  {
  }

  /** A fan-out never hands out more turns or dollars than the pool holds. */
  lemma FanOutFits(plan: Plan, turns: int, usd: real)
    requires GoodPlan(plan)
    ensures var leases := FanOut(plan, turns, usd);
      && (forall i | 0 <= i < |leases| :: leases[i].maxTurns >= 0)
      && (forall i | 0 <= i < |leases| :: leases[i].maxCostUsd >= 0.0)
      && CombineLeases(leases).maxTurns <= NonNegative(turns) && CombineLeases(leases).maxCostUsd <= NonNegativeUsd(usd)
      && (leases == [] <==> plan == [] || turns <= 0 || usd <= 0.0)
  {
    if plan != [] && turns > 0 && usd > 0.0 {
      SharesPositive(plan);
      QuoteConserves(Shares(plan), turns, usd);
      forall i | 0 <= i < |plan| ensures FanOut(plan, turns, usd)[i].maxTurns >= 0 && FanOut(plan, turns, usd)[i].maxCostUsd >= 0.0 {
        QuoteProportional(Shares(plan), turns, usd, i, i);
      }
    }
  }

  lemma {:induction false} GatherFits(leases: seq<Lease>, replies: seq<ProbeReply>)
    requires |leases| == |replies|
    requires forall i | 0 <= i < |leases| :: leases[i].maxTurns >= 0 && replies[i].usd >= 0.0
    ensures var g := Gather(leases, replies);
      && g.spend.modelTurns == g.spend.poolTurns && g.spend.modelUsd == g.spend.poolUsd
      && g.spend.floorTurns == 0 && g.spend.floorUsd == 0.0
      && 0 <= g.spend.poolTurns <= CombineLeases(leases).maxTurns + g.over
      && 0.0 <= g.spend.poolUsd
      && g.calls <= |leases|
  {
    if leases != [] {
      var n := |leases| - 1;
      GatherFits(leases[..n], replies[..n]);
    }
  }

  lemma SurveyKeeps(cfg: Config, s: Scan, o: Outcome)
    requires cfg.Valid() && s.node == Survey && Inv(cfg, s) && Allowed(cfg, s, o)
    ensures Inv(cfg, Next(cfg, s, o)) && Rank(cfg, Next(cfg, s, o)) < Rank(cfg, s)
  {
    hide FanOut, CombineLeases, Publishable;
    if o.SurveyReply? {
      FanOutFits(o.plan, RemainingTurns(cfg, Next(cfg, s, o).ch.spend), RemainingUsd(cfg, Next(cfg, s, o).ch.spend));
    }
  }

  lemma ProbesKeep(cfg: Config, s: Scan, o: Outcome)
    requires cfg.Valid() && s.node.Probes? && Inv(cfg, s) && Allowed(cfg, s, o)
    ensures Inv(cfg, Next(cfg, s, o)) && Rank(cfg, Next(cfg, s, o)) < Rank(cfg, s)
  {
    if o.ProbeReplies? {
      GatherFits(s.node.leases, o.replies);
    }
  }

  /** A granted re-dispatch always finds leases: the plan's guard and the fan-out's guard see the same pool. */
  lemma RedispatchAlwaysFansOut(cfg: Config, s: Scan, o: Outcome)
    requires cfg.Valid() && s.node == Investigate && Inv(cfg, s) && Allowed(cfg, s, o) && !o.Crash?
    ensures var t := Next(cfg, s, o);
      && (t.node.Probes? <==> t.ch.redispatch.Some?)
      && (t.node == Validate <==> t.ch.redispatch.None?)
      && LeasesFit(cfg, t)
  {
    var t := Next(cfg, s, o);
    if t.ch.redispatch.Some? {
      FanOutFits(t.ch.redispatch.value, RemainingTurns(cfg, t.ch.spend), RemainingUsd(cfg, t.ch.spend));
    }
  }

  lemma InvestigateKeeps(cfg: Config, s: Scan, o: Outcome)
    requires cfg.Valid() && s.node == Investigate && Inv(cfg, s) && Allowed(cfg, s, o)
    ensures Inv(cfg, Next(cfg, s, o)) && Rank(cfg, Next(cfg, s, o)) < Rank(cfg, s)
  {
    if !o.Crash? {
      RedispatchAlwaysFansOut(cfg, s, o);
    }
  }

  lemma TailKeeps(cfg: Config, s: Scan, o: Outcome)
    requires cfg.Valid() && Inv(cfg, s) && Allowed(cfg, s, o)
    requires s.node.Validate? || s.node.Repair? || s.node.Finalize? || s.node.Empty?
    ensures Inv(cfg, Next(cfg, s, o)) && Rank(cfg, Next(cfg, s, o)) < Rank(cfg, s)
  {
    if s.node.Repair? {
      RepairKeeps(cfg, s, o);
    } else {
      hide Publishable, SurveyStep, ProbeStep, InvestigateStep, RepairStep, SynthesisLease;
    }
  }

  lemma RepairKeeps(cfg: Config, s: Scan, o: Outcome)
    requires cfg.Valid() && Inv(cfg, s) && Allowed(cfg, s, o) && s.node.Repair?
    ensures Inv(cfg, Next(cfg, s, o)) && Rank(cfg, Next(cfg, s, o)) < Rank(cfg, s)
  {
    hide Publishable, SurveyStep, ProbeStep, InvestigateStep, SynthesisLease, MergedProvenance, Clean;
  }

  lemma StepKeeps(cfg: Config, s: Scan, o: Outcome)
    requires cfg.Valid() && Inv(cfg, s) && Allowed(cfg, s, o)
    ensures Inv(cfg, Next(cfg, s, o)) && 0 <= Rank(cfg, Next(cfg, s, o)) < Rank(cfg, s)
    ensures Next(cfg, s, o).tally.steps == s.tally.steps + 1
  {
    match s.node {
      case Survey => SurveyKeeps(cfg, s, o);
      case Probes(_) => ProbesKeep(cfg, s, o);
      case Investigate => InvestigateKeeps(cfg, s, o);
      case _ => TailKeeps(cfg, s, o);
    }
  }

  lemma {:induction false} RunKeeps(cfg: Config, s: Scan, os: seq<Outcome>)
    requires cfg.Valid() && Inv(cfg, s) && Possible(cfg, s, os)
    ensures Inv(cfg, Run(cfg, s, os))
    ensures 0 <= Rank(cfg, Run(cfg, s, os)) <= Rank(cfg, s) - |os|
    ensures Run(cfg, s, os).tally.steps == s.tally.steps + |os|
    decreases |os|
  {
    hide Inv, Rank, Next;
    if os != [] {
      StepKeeps(cfg, s, os[0]);
      RunKeeps(cfg, Next(cfg, s, os[0]), os[1..]);
    } else {
      RankNatural(cfg, s);
    }
  }

  lemma RankNatural(cfg: Config, s: Scan)
    requires Inv(cfg, s)
    ensures Rank(cfg, s) >= 0
  {
  }

  lemma InitialBalance(cfg: Config)
    requires cfg.Valid()
    ensures Balanced(Initial(cfg)) && Bounded(cfg, Initial(cfg))
  {
  }

  lemma InitialRoute(cfg: Config)
    ensures LeasesFit(cfg, Initial(cfg)) && Routed(cfg, Initial(cfg))
  {
  }

  lemma InitialHolds(cfg: Config)
    requires cfg.Valid()
    ensures Inv(cfg, Initial(cfg)) && Rank(cfg, Initial(cfg)) == 2 * (cfg.rounds + 1) + 5
    ensures Initial(cfg).tally.steps == 0 && Initial(cfg).tally.calls == 0 && TotalOver(Initial(cfg)) == 0
  {
    InitialBalance(cfg);
    InitialRoute(cfg);
    hide Balanced, Bounded, LeasesFit, Routed;
  }

  lemma WhatInvSays(cfg: Config, s: Scan)
    requires Inv(cfg, s)
    ensures s.ch.redispatchCount <= cfg.rounds && s.tally.repairs <= 1
    ensures (s.node == Done <==> s.result.Some?) && s.tally.ends == (if s.node == Done then 1 else 0)
    ensures s.node == Done ==> Clean(cfg, s.result.value.recipes, s.result.value.provenance)
    ensures Balanced(s) && Bounded(cfg, s)
    ensures 0 <= s.tally.reservedTurns <= cfg.survey.maxTurns + cfg.repair.maxTurns + s.tally.reservedOver || !cfg.Valid()
  {
  }

  // ----- whole runs

  function TotalOver(s: Scan): nat { s.tally.poolOver + s.tally.reservedOver }

  /** The number of supersteps the graph is configured to stop at. */
  const RECURSION_LIMIT := 30

  /**
   * Every run is short: at most two supersteps per dispatch round and five more, at most the declared
   * re-dispatches and one repair, and a run that ended ended exactly once.
   */
  lemma ScanTerminates(cfg: Config, os: seq<Outcome>)
    requires cfg.Valid() && Possible(cfg, Initial(cfg), os)
    ensures |os| <= 2 * (cfg.rounds + 1) + 5
    ensures cfg.rounds <= 11 ==> |os| < RECURSION_LIMIT
    ensures var t := Run(cfg, Initial(cfg), os);
      && t.tally.steps == |os|
      && t.ch.redispatchCount <= cfg.rounds && t.tally.repairs <= 1
      && (t.node == Done <==> t.result.Some?) && t.tally.ends == (if t.node == Done then 1 else 0)
  {
    hide Possible, Run, Inv, Rank, Initial;
    InitialHolds(cfg);
    RunKeeps(cfg, Initial(cfg), os);
    WhatInvSays(cfg, Run(cfg, Initial(cfg), os));
  }

  /** A run stops only because it ended or a node raised: everywhere else some answer moves it on. */
  lemma ScanNeverStuck(cfg: Config, s: Scan)
    ensures (exists o :: Allowed(cfg, s, o)) <==> s.node != Done && s.node != Crashed
  {
    match s.node {
      case Survey => assert Allowed(cfg, s, if cfg.survey.maxTurns <= 0 then NoCall else SurveyFailed);
      case Probes(leases) => assert Allowed(cfg, s, Crash);
      case Investigate => assert Allowed(cfg, s, if SynthesisLease(cfg, s.ch).maxTurns <= 0 then NoCall else Crash);
      case Validate =>
        assert Allowed(cfg, s, Verdict(if Clean(cfg, s.ch.candidates, s.ch.provenance) then [] else [NothingCited]));
      case Repair => assert Allowed(cfg, s, if s.ch.candidates == [] || cfg.repair.maxTurns <= 0 then NoCall else Crash);
      case Finalize => assert Allowed(cfg, s, NoCall);
      case Empty => assert Allowed(cfg, s, NoCall);
      case Done =>
      case Crashed =>
    }
  }

  /** Whatever the models answered, a run's result is empty or satisfies the whole publication spec. */
  lemma PublishedRecipesAreSupported(cfg: Config, os: seq<Outcome>)
    requires cfg.Valid() && Possible(cfg, Initial(cfg), os)
    requires Run(cfg, Initial(cfg), os).node == Done
    ensures var result := Run(cfg, Initial(cfg), os).result;
      result.Some? && (result.value.recipes == [] || Publishable(result.value.recipes, cfg.anchor, result.value.provenance, cfg.limit))
  {
    hide Possible, Run, Inv, Rank, Initial;
    InitialHolds(cfg);
    RunKeeps(cfg, Initial(cfg), os);
    WhatInvSays(cfg, Run(cfg, Initial(cfg), os));
  }

  // ----- where the budgets come from

  /** `compose`: the reservations leave the ledger in this order, the rest is the fan-out's pool. */
  function Compose(turns: int, usd: real, repair: (int, real), survey: (int, real), floor: (int, real),
    rounds: nat, anchor: Id, limit: nat): Result<Config, L.ReserveError>
  {
    match L.ReserveAll(L.Pool(Some(turns), usd), [repair, survey, floor])
    case Err(e) => Err(e)
    case Ok((leases, rest)) =>
      if |leases| == 3 && rest.turns.Some?
      then Ok(Config(leases[0], leases[1], leases[2], rest.turns.value, rest.usd, rounds, anchor, limit))
      else Err(L.NoTurnLedger)
  }

  predicate NoDebt(cfg: Config) {
    cfg.repair.maxCostUsd >= 0.0 && cfg.survey.maxCostUsd >= 0.0 && cfg.maxCostUsd >= 0.0
  }

  lemma ComposeSplits(turns: int, usd: real, repair: (int, real), survey: (int, real), floor: (int, real),
    rounds: nat, anchor: Id, limit: nat)
    requires turns >= 0 && usd >= 0.0
    ensures var asks := [repair, survey, floor];
      (forall i | 0 <= i < 3 :: asks[i].0 >= 0 && 0.0 <= asks[i].1 <= 1.0)
      ==> Compose(turns, usd, repair, survey, floor, rounds, anchor, limit).Ok?
    ensures match Compose(turns, usd, repair, survey, floor, rounds, anchor, limit)
      case Err(_) => true
      case Ok(cfg) =>
        && cfg.Valid() && NoDebt(cfg)
        && cfg.repair.maxTurns + cfg.survey.maxTurns + cfg.floor.maxTurns + cfg.maxTurns == turns
        && cfg.repair.maxCostUsd + cfg.survey.maxCostUsd + cfg.floor.maxCostUsd + cfg.maxCostUsd == usd
  {
    hide L.ReserveAll, CombineLeases;
    var pool, asks := L.Pool(Some(turns), usd), [repair, survey, floor];
    if forall i | 0 <= i < 3 :: asks[i].0 >= 0 && 0.0 <= asks[i].1 <= 1.0 {
      L.ReservationsGranted(pool, asks);
    }
    if L.ReserveAll(pool, asks).Ok? {
      L.ReservationsConserve(pool, asks);
      CombineThree(L.ReserveAll(pool, asks).value.0);
    }
  }

  lemma CombineThree(leases: seq<Lease>)
    requires |leases| == 3
    ensures CombineLeases(leases)
      == Lease(leases[0].maxTurns + leases[1].maxTurns + leases[2].maxTurns, leases[0].maxCostUsd + leases[1].maxCostUsd + leases[2].maxCostUsd)
  {
    assert leases[..2][..1] == [leases[0]] && [leases[0]][..0] == [];
    assert CombineLeases(leases[..2][..1]) == Lease(leases[0].maxTurns, leases[0].maxCostUsd);
  }

  function Fewer(a: int, b: int): int { if a <= b then a else b }

  /** Repair is reserved first, the survey from what that leaves, the floor of the syntheses from what both leave; the rest is the pool. */
  lemma ReservedInOrder(turns: int, usd: real, repair: (int, real), survey: (int, real), floor: (int, real), rounds: nat, anchor: Id, limit: nat)
    requires Compose(turns, usd, repair, survey, floor, rounds, anchor, limit).Ok?
    ensures var cfg := Compose(turns, usd, repair, survey, floor, rounds, anchor, limit).value;
      && cfg.rounds == rounds && cfg.anchor == anchor && cfg.limit == limit
      && cfg.repair.maxTurns == Fewer(repair.0, turns) && cfg.repair.maxCostUsd == repair.1 * usd
      && var turns1, usd1 := turns - cfg.repair.maxTurns, usd - cfg.repair.maxCostUsd;
      && cfg.survey.maxTurns == Fewer(survey.0, turns1) && cfg.survey.maxCostUsd == survey.1 * usd1
      && var turns2, usd2 := turns1 - cfg.survey.maxTurns, usd1 - cfg.survey.maxCostUsd;
      && cfg.floor.maxTurns == Fewer(floor.0, turns2) && cfg.floor.maxCostUsd == floor.1 * usd2
      && cfg.maxTurns == turns2 - cfg.floor.maxTurns && cfg.maxCostUsd == usd2 - cfg.floor.maxCostUsd
  {
    var asks := [repair, survey, floor];
    var pool := L.Pool(Some(turns), usd);
    assert asks[..2] == [repair, survey] && asks[..2][..1] == [repair] && [repair][..0] == [];
    hide L.ReserveAll, L.Reserve;
    L.LastReserve(pool, asks);
    L.LastReserve(pool, [repair, survey]);
    L.LastReserve(pool, [repair]);
    L.LastReserve(pool, []);
    var one := L.Reserve(pool, repair.0, repair.1).value;
    var two := L.Reserve(one.1, survey.0, survey.1).value;
    L.ReserveMeans(pool, repair.0, repair.1);
    L.ReserveMeans(one.1, survey.0, survey.1);
    L.ReserveMeans(two.1, floor.0, floor.1);
    hide *;
  }
}
