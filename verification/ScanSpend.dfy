/** What the spend channels of a recipe scan say: what the calls took, all together and from where. */
module ScanSpend {
  import opened Wrappers
  import opened Apportion
  import opened Provenance
  import opened ScanRun

  // ----- what one answer takes

  /** A specialist takes what it reports; one that failed is taken to have used its whole lease, and one without turns nothing. */
  function ProbeTurns(lease: Lease, reply: ProbeReply): int {
    if lease.maxTurns <= 0 then 0 else if reply.Reported? then reply.turns else lease.maxTurns
  }

  function ProbeUsd(lease: Lease, reply: ProbeReply): real {
    if lease.maxTurns <= 0 then 0.0 else reply.usd
  }

  function AllTurns(leases: seq<Lease>, replies: seq<ProbeReply>): int
    requires |leases| == |replies|
  {
    if leases == [] then 0
    else AllTurns(leases[..|leases| - 1], replies[..|leases| - 1]) + ProbeTurns(leases[|leases| - 1], replies[|leases| - 1])
  }

  function AllUsd(leases: seq<Lease>, replies: seq<ProbeReply>): real
    requires |leases| == |replies|
  {
    if leases == [] then 0.0
    else AllUsd(leases[..|leases| - 1], replies[..|leases| - 1]) + ProbeUsd(leases[|leases| - 1], replies[|leases| - 1])
  }

  /** Turns and dollars: of the reserved calls, of the specialists, and of the syntheses. */
  datatype Taken = Taken(reservedTurns: int, reservedUsd: real, probeTurns: int, probeUsd: real, draftTurns: int, draftUsd: real)

  function TakenBy(cfg: Config, s: Scan, o: Outcome): Taken {
    match o
    case SurveyReply(_, turns, usd) => Taken(turns, usd, 0, 0.0, 0, 0.0)
    case ProbeReplies(replies) =>
      if s.node.Probes? && |s.node.leases| == |replies|
      then Taken(0, 0.0, AllTurns(s.node.leases, replies), AllUsd(s.node.leases, replies), 0, 0.0)
      else Taken(0, 0.0, 0, 0.0, 0, 0.0)
    case Draft(_, _, _, turns, usd) =>
      if s.node.Repair? then Taken(turns, usd, 0, 0.0, 0, 0.0) else Taken(0, 0.0, 0, 0.0, turns, usd)
    case RepairExhausted(usd) => Taken(cfg.repair.maxTurns, usd, 0, 0.0, 0, 0.0)
    case _ => Taken(0, 0.0, 0, 0.0, 0, 0.0)
  }

  function Both(a: Taken, b: Taken): Taken {
    Taken(a.reservedTurns + b.reservedTurns, a.reservedUsd + b.reservedUsd, a.probeTurns + b.probeTurns, a.probeUsd + b.probeUsd,
      a.draftTurns + b.draftTurns, a.draftUsd + b.draftUsd)
  }

  ghost function TakenFrom(cfg: Config, s: Scan, os: seq<Outcome>): Taken
    requires Possible(cfg, s, os)
    decreases |os|
  {
    if os == [] then Taken(0, 0.0, 0, 0.0, 0, 0.0) else Both(TakenBy(cfg, s, os[0]), TakenFrom(cfg, Next(cfg, s, os[0]), os[1..]))
  }

  // ----- what the channels say

  function Smaller(a: int, b: int): int { if a <= b then a else b }

  function SmallerUsd(a: real, b: real): real { if a <= b then a else b }

  /** The floor reservation pays for the syntheses until it is used up; the pool pays for the rest and for the specialists. */
  predicate Accounts(cfg: Config, t: Taken, spend: Spend) {
    && spend.modelTurns == t.reservedTurns + t.probeTurns + t.draftTurns
    && spend.modelUsd == t.reservedUsd + t.probeUsd + t.draftUsd
    && spend.floorTurns == Smaller(t.draftTurns, cfg.floor.maxTurns)
    && spend.floorUsd == SmallerUsd(t.draftUsd, cfg.floor.maxCostUsd)
    && spend.poolTurns == t.probeTurns + t.draftTurns - spend.floorTurns
    && spend.poolUsd == t.probeUsd + t.draftUsd - spend.floorUsd
  }

  lemma {:induction false} GatherSpends(leases: seq<Lease>, replies: seq<ProbeReply>)
    requires |leases| == |replies|
    ensures Gather(leases, replies).spend == PoolSpend(AllUsd(leases, replies), AllTurns(leases, replies))
  {
    hide MergedProvenance;
    if leases != [] {
      hide ProbeOne, ProbeTurns, ProbeUsd;
      var n := |leases| - 1;
      GatherSpends(leases[..n], replies[..n]);
      ProbeSpends(leases[n], replies[n]);
    }
  }

  lemma ProbeSpends(lease: Lease, reply: ProbeReply)
    ensures ProbeOne(lease, reply).spend == PoolSpend(ProbeUsd(lease, reply), ProbeTurns(lease, reply))
  {
  }

  lemma StepAccounts(cfg: Config, s: Scan, o: Outcome, t: Taken)
    requires cfg.Valid() && Allowed(cfg, s, o) && Accounts(cfg, t, s.ch.spend) && t.draftTurns >= 0 && t.draftUsd >= 0.0
    ensures var more := Both(t, TakenBy(cfg, s, o));
      Accounts(cfg, more, Next(cfg, s, o).ch.spend) && more.draftTurns >= 0 && more.draftUsd >= 0.0
  {
    hide Publishable, FanOut, SynthesisLease, MergedProvenance, Gather;
    match s.node {
      case Probes(_) => ProbesAccount(cfg, s, o, t);
      case Investigate => SynthesisAccounts(cfg, s, o, t);
      case Done =>
      case Crashed =>
      case _ => hide ProbeStep, InvestigateStep;
    }
  }

  lemma ProbesAccount(cfg: Config, s: Scan, o: Outcome, t: Taken)
    requires s.node.Probes? && Allowed(cfg, s, o) && Accounts(cfg, t, s.ch.spend)
    ensures Accounts(cfg, Both(t, TakenBy(cfg, s, o)), Next(cfg, s, o).ch.spend)
    ensures TakenBy(cfg, s, o).draftTurns == 0 && TakenBy(cfg, s, o).draftUsd == 0.0
  {
    hide Publishable, FanOut, SynthesisLease, MergedProvenance, Gather, AllTurns, AllUsd, SurveyStep, InvestigateStep, RepairStep;
    if o.ProbeReplies? {
      GatherSpends(s.node.leases, o.replies);
    }
  }

  lemma SynthesisAccounts(cfg: Config, s: Scan, o: Outcome, t: Taken)
    requires cfg.Valid() && s.node.Investigate? && Allowed(cfg, s, o) && Accounts(cfg, t, s.ch.spend) && t.draftTurns >= 0 && t.draftUsd >= 0.0
    ensures Accounts(cfg, Both(t, TakenBy(cfg, s, o)), Next(cfg, s, o).ch.spend)
    ensures TakenBy(cfg, s, o).draftTurns >= 0 && TakenBy(cfg, s, o).draftUsd >= 0.0
  {
    hide Publishable, FanOut, SynthesisLease, MergedProvenance, SurveyStep, ProbeStep, RepairStep;
  }

  lemma TakenNothing(t: Taken)
    ensures Both(t, Taken(0, 0.0, 0, 0.0, 0, 0.0)) == t
  {
  }

  lemma TakenJoins(a: Taken, b: Taken, c: Taken)
    ensures Both(Both(a, b), c) == Both(a, Both(b, c))
  {
  }

  lemma {:induction false} RunAccounts(cfg: Config, s: Scan, os: seq<Outcome>, t: Taken)
    requires cfg.Valid() && Possible(cfg, s, os) && Accounts(cfg, t, s.ch.spend) && t.draftTurns >= 0 && t.draftUsd >= 0.0
    ensures Accounts(cfg, Both(t, TakenFrom(cfg, s, os)), Run(cfg, s, os).ch.spend)
    decreases |os|
  {
    hide Next, Accounts, TakenBy, Publishable, SynthesisLease;
    if os == [] {
      TakenNothing(t);
    } else {
      StepAccounts(cfg, s, os[0], t);
      RunAccounts(cfg, Next(cfg, s, os[0]), os[1..], Both(t, TakenBy(cfg, s, os[0])));
      TakenJoins(t, TakenBy(cfg, s, os[0]), TakenFrom(cfg, Next(cfg, s, os[0]), os[1..]));
    }
  }

  /** Over every run the channels are exactly what the answers took, floor before pool. */
  lemma SpendIsWhatCallsTook(cfg: Config, os: seq<Outcome>)
    requires cfg.Valid() && Possible(cfg, Initial(cfg), os)
    ensures Accounts(cfg, TakenFrom(cfg, Initial(cfg), os), Run(cfg, Initial(cfg), os).ch.spend)
  {
    hide Accounts, Initial, Possible, Run, TakenFrom, Both;
    var none := Taken(0, 0.0, 0, 0.0, 0, 0.0);
    NothingTaken(cfg, none, TakenFrom(cfg, Initial(cfg), os));
    RunAccounts(cfg, Initial(cfg), os, none);
  }

  lemma NothingTaken(cfg: Config, none: Taken, t: Taken)
    requires cfg.Valid() && none == Taken(0, 0.0, 0, 0.0, 0, 0.0)
    ensures Accounts(cfg, none, Initial(cfg).ch.spend) && Both(none, t) == t
  {
  }
}
