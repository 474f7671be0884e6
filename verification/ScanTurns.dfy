/** What a recipe scan records in turns, over every run. */
module ScanTurns {
  import opened Wrappers
  import opened Apportion
  import opened Provenance
  import opened ScanRun

  /** Every call of this step uses at most its lease and `r` turns more. */
  ghost predicate WithinSlack(cfg: Config, s: Scan, o: Outcome, r: nat) {
    match o
    case SurveyReply(_, turns, _) => turns <= cfg.survey.maxTurns + r
    case ProbeReplies(replies) => s.node.Probes? && |replies| == |s.node.leases| &&
      forall i | 0 <= i < |replies| :: replies[i].Reported? ==> replies[i].turns <= s.node.leases[i].maxTurns + r
    case Draft(_, _, _, turns, _) =>
      turns <= (if s.node.Repair? then cfg.repair.maxTurns else SynthesisLease(cfg, s.ch).maxTurns) + r
    case _ => true
  }

  ghost predicate AllWithinSlack(cfg: Config, s: Scan, os: seq<Outcome>, r: nat)
    requires Possible(cfg, s, os)
    decreases |os|
  {
    os == [] || (WithinSlack(cfg, s, os[0], r) && AllWithinSlack(cfg, Next(cfg, s, os[0]), os[1..], r))
  }

  /** A product, named so that proofs can treat it as a whole. */
  function Slack(r: nat, calls: nat): nat { r * calls }

  lemma MoreCalls(r: nat, before: nat, more: nat)
    ensures Slack(r, before + more) == Slack(r, before) + Slack(r, more) && Slack(r, 0) == 0 && Slack(r, 1) == r
  {
  }

  lemma ProbeWithinSlack(lease: Lease, reply: ProbeReply, r: nat)
    requires reply.Reported? ==> reply.turns <= lease.maxTurns + r
    ensures ProbeOne(lease, reply).over <= Slack(r, ProbeOne(lease, reply).calls)
  {
    hide Slack;
    MoreCalls(r, 0, 0);
  }

  lemma {:induction false} GatherWithinSlack(leases: seq<Lease>, replies: seq<ProbeReply>, r: nat)
    requires |leases| == |replies|
    requires forall i | 0 <= i < |leases| :: replies[i].Reported? ==> replies[i].turns <= leases[i].maxTurns + r
    ensures Gather(leases, replies).over <= Slack(r, Gather(leases, replies).calls)
  {
    hide Slack, ProbeOne, MergedProvenance;
    MoreCalls(r, 0, 0);
    if leases != [] {
      var n := |leases| - 1;
      ProbeWithinSlack(leases[n], replies[n], r);
      GatherWithinSlack(leases[..n], replies[..n], r);
      MoreCalls(r, Gather(leases[..n], replies[..n]).calls, ProbeOne(leases[n], replies[n]).calls);
    }
  }

  lemma SynthesisLeaseTurns(cfg: Config, ch: Channels)
    ensures SynthesisLease(cfg, ch).maxTurns == FloorLease(ch.spend, cfg.floor).maxTurns + RemainingTurns(cfg, ch.spend)
  {
    var a, b := FloorLease(ch.spend, cfg.floor), Lease(RemainingTurns(cfg, ch.spend), RemainingUsd(cfg, ch.spend));
    assert [a, b][..1] == [a] && [a][..0] == [];
    assert CombineLeases([a]).maxTurns == a.maxTurns;
  }

  lemma StepWithinSlack(cfg: Config, s: Scan, o: Outcome, r: nat)
    requires cfg.Valid() && Allowed(cfg, s, o) && WithinSlack(cfg, s, o, r)
    requires TotalOver(s) <= Slack(r, s.tally.calls)
    ensures TotalOver(Next(cfg, s, o)) <= Slack(r, Next(cfg, s, o).tally.calls)
  {
    match s.node {
      case Probes(_) => ProbesWithinSlack(cfg, s, o, r);
      case Investigate => InvestigateWithinSlack(cfg, s, o, r);
      case Survey => CallWithinSlack(cfg, s, o, r);
      case Repair => CallWithinSlack(cfg, s, o, r);
      case Done =>
      case Crashed =>
      case _ => QuietWithinSlack(cfg, s, o, r);
    }
  }

  lemma QuietWithinSlack(cfg: Config, s: Scan, o: Outcome, r: nat)
    requires s.node.Validate? || s.node.Finalize? || s.node.Empty?
    requires TotalOver(s) <= Slack(r, s.tally.calls)
    ensures TotalOver(Next(cfg, s, o)) <= Slack(r, Next(cfg, s, o).tally.calls)
  {
    hide SurveyStep, ProbeStep, InvestigateStep, RepairStep, Slack;
  }

  lemma CallWithinSlack(cfg: Config, s: Scan, o: Outcome, r: nat)
    requires cfg.Valid() && (s.node.Survey? || s.node.Repair?) && Allowed(cfg, s, o) && WithinSlack(cfg, s, o, r)
    requires TotalOver(s) <= Slack(r, s.tally.calls)
    ensures TotalOver(Next(cfg, s, o)) <= Slack(r, Next(cfg, s, o).tally.calls)
  {
    hide Publishable, FanOut, SynthesisLease, ProbeStep, InvestigateStep, Slack;
    MoreCalls(r, s.tally.calls, 1);
  }

  lemma ProbesWithinSlack(cfg: Config, s: Scan, o: Outcome, r: nat)
    requires s.node.Probes? && Allowed(cfg, s, o) && WithinSlack(cfg, s, o, r)
    requires TotalOver(s) <= Slack(r, s.tally.calls)
    ensures TotalOver(Next(cfg, s, o)) <= Slack(r, Next(cfg, s, o).tally.calls)
  {
    hide Publishable, FanOut, SynthesisLease, Gather, Slack;
    if o.ProbeReplies? {
      GatherWithinSlack(s.node.leases, o.replies, r);
      MoreCalls(r, s.tally.calls, Gather(s.node.leases, o.replies).calls);
    }
  }

  lemma InvestigateWithinSlack(cfg: Config, s: Scan, o: Outcome, r: nat)
    requires s.node.Investigate? && Allowed(cfg, s, o) && WithinSlack(cfg, s, o, r)
    requires TotalOver(s) <= Slack(r, s.tally.calls)
    ensures TotalOver(Next(cfg, s, o)) <= Slack(r, Next(cfg, s, o).tally.calls)
  {
    hide Publishable, FanOut, SynthesisLease, Slack;
    SynthesisLeaseTurns(cfg, s.ch);
    MoreCalls(r, s.tally.calls, 1);
  }

  lemma {:induction false} RunWithinSlack(cfg: Config, s: Scan, os: seq<Outcome>, r: nat)
    requires cfg.Valid() && Possible(cfg, s, os) && AllWithinSlack(cfg, s, os, r)
    requires TotalOver(s) <= Slack(r, s.tally.calls)
    ensures TotalOver(Run(cfg, s, os)) <= Slack(r, Run(cfg, s, os).tally.calls)
    decreases |os|
  {
    hide Next, WithinSlack, TotalOver, Slack;
    if os != [] {
      StepWithinSlack(cfg, s, os[0], r);
      RunWithinSlack(cfg, Next(cfg, s, os[0]), os[1..], r);
    }
  }

  /**
   * Over every run, across fan-out, re-dispatch and repair, the recorded turns are exactly the reserved,
   * pool and floor turns, and never more than the turns the execution started with plus `r` per model call.
   */
  lemma ScanTurnBound(cfg: Config, turns: int, usd: real, repair: (int, real), survey: (int, real), floor: (int, real),
    os: seq<Outcome>, r: nat)
    requires turns >= 0 && usd >= 0.0
    requires Compose(turns, usd, repair, survey, floor, cfg.rounds, cfg.anchor, cfg.limit) == Ok(cfg)
    requires Possible(cfg, Initial(cfg), os) && AllWithinSlack(cfg, Initial(cfg), os, r)
    ensures var t := Run(cfg, Initial(cfg), os);
      && t.ch.spend.modelTurns == t.tally.reservedTurns + t.ch.spend.poolTurns + t.ch.spend.floorTurns
      && t.ch.spend.modelUsd == t.tally.reservedUsd + t.ch.spend.poolUsd + t.ch.spend.floorUsd
      && t.ch.spend.floorTurns <= cfg.floor.maxTurns && t.ch.spend.floorUsd <= cfg.floor.maxCostUsd
      && 0 <= t.ch.spend.modelTurns <= turns + r * t.tally.calls
  {
    ComposeSplits(turns, usd, repair, survey, floor, cfg.rounds, cfg.anchor, cfg.limit);
    InitialHolds(cfg);
    hide Possible, Run, Inv, Rank, Initial, Compose, AllWithinSlack;
    RunKeeps(cfg, Initial(cfg), os);
    WhatInvSays(cfg, Run(cfg, Initial(cfg), os));
    RunWithinSlack(cfg, Initial(cfg), os, r);
  }
}
