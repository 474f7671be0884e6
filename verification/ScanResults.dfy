/** What a recipe scan publishes, read off what its calls answered. */
module ScanResults {
  import opened Wrappers
  import opened Apportion
  import opened Provenance
  import opened ScanRun
  import ScanTurns
  import ScanSpend

  /** The last verdict found nothing wrong. */
  predicate Passed(os: seq<Outcome>) {
    os != [] && if os[|os| - 1].Verdict? then os[|os| - 1].errors == [] else Passed(os[..|os| - 1])
  }

  predicate AfterVerdict(os: seq<Outcome>) {
    os != [] && os[|os| - 1].Verdict?
  }

  /**
   * The candidates the last call left. A repair that only asks for specialists leaves the ones before it, one that
   * ran out of its reservation leaves none, and so does a synthesis that was not called.
   */
  function Drafted(os: seq<Outcome>): seq<Candidate> {
    if os == [] then []
    else
      var front, o := os[..|os| - 1], os[|os| - 1];
      match o
      case Draft(candidates, redispatch, _, _, _) =>
        if AfterVerdict(front) && redispatch != [] && candidates == [] then Drafted(front) else candidates
      case RepairExhausted(_) => []
      case NoCall => if Passed(front) then Drafted(front) else []
      case _ => Drafted(front)
  }

  function Verdicts(os: seq<Outcome>): nat {
    if os == [] then 0 else Verdicts(os[..|os| - 1]) + if os[|os| - 1].Verdict? then 1 else 0
  }

  /** How often specialists were sent. */
  function Dispatches(os: seq<Outcome>): nat {
    if os == [] then 0 else Dispatches(os[..|os| - 1]) + if os[|os| - 1].ProbeReplies? then 1 else 0
  }

  lemma {:induction false} RunSnoc(cfg: Config, s: Scan, os: seq<Outcome>)
    requires Possible(cfg, s, os) && os != []
    ensures var n := |os| - 1;
      && Possible(cfg, s, os[..n]) && Allowed(cfg, Run(cfg, s, os[..n]), os[n]) && Run(cfg, s, os) == Next(cfg, Run(cfg, s, os[..n]), os[n])
    decreases |os|
  {
    hide Next, Publishable;
    var n := |os| - 1;
    if n > 0 {
      RunSnoc(cfg, Next(cfg, s, os[0]), os[1..]);
      assert os[1..][..n - 1] == os[..n][1..];
    } else {
      assert os[1..] == [] && os[..0] == [];
    }
  }

  // ----- where a run is, and with what

  predicate Following(cfg: Config, s: Scan, os: seq<Outcome>) {
    && (s.node == Survey <==> os == []) && (s.node == Survey ==> s.ch.redispatchCount == 0)
    && (s.node.Probes? || s.node.Investigate? ==> Verdicts(os) == 0)
    && (s.node.Probes? ==> s.ch.redispatchCount == Dispatches(os))
    && (s.node.Investigate? ==> s.ch.redispatchCount + 1 == Dispatches(os))
    && (s.node.Validate? ==> !Passed(os) && Verdicts(os) == (if s.ch.repairAttempted then 1 else 0))
    && (s.node.Survey? || s.node.Probes? || s.node.Investigate? || s.node.Repair? ==> !s.ch.repairAttempted)
    && (s.node.Repair? ==> AfterVerdict(os) && !Passed(os) && Verdicts(os) == 1)
    && (s.node.Finalize? ==> AfterVerdict(os) && Passed(os))
    && (s.node.Empty? ==> !Passed(os))
    && (Verdicts(os) == 0 ==> !Passed(os))
    && (AfterVerdict(os) ==> s.node == (if Passed(os) then Finalize else if Verdicts(os) == 1 then Repair else Empty))
    && (s.node.Validate? || s.node.Repair? || s.node.Finalize? ==> s.ch.candidates == Drafted(os))
    && (s.node == Done ==> s.result == Some(ScanResult(if Passed(os) then Drafted(os) else [], s.ch.provenance)))
  }

  lemma FollowingStep(cfg: Config, s: Scan, os: seq<Outcome>, o: Outcome)
    requires Following(cfg, s, os) && Allowed(cfg, s, o)
    ensures Following(cfg, Next(cfg, s, o), os + [o])
  {
    hide Following, Next, Publishable, SynthesisLease;
    var more := os + [o];
    match s.node {
      case Survey => AfterSurvey(cfg, s, os, more, o);
      case Probes(_) => AfterProbes(cfg, s, os, more, o);
      case Investigate => AfterSynthesis(cfg, s, os, more, o);
      case Validate => AfterValidation(cfg, s, os, more, o);
      case Repair => AfterRepair(cfg, s, os, more, o);
      case Finalize => AfterEnd(cfg, s, os, more, o);
      case Empty => AfterEnd(cfg, s, os, more, o);
      case Done =>
      case Crashed =>
    }
  }

  lemma AfterSurvey(cfg: Config, s: Scan, os: seq<Outcome>, more: seq<Outcome>, o: Outcome)
    requires Following(cfg, s, os) && Allowed(cfg, s, o) && s.node.Survey?
    requires more != [] && more[..|more| - 1] == os && more[|more| - 1] == o
    ensures Following(cfg, Next(cfg, s, o), more)
  {
    hide FanOut, Publishable, SynthesisLease, Gather, MergedProvenance, FloorThenPoolSpend, Add, RemainingTurns, RemainingUsd;
    assert os == [] && Dispatches(os) == 0 && Verdicts(os) == 0 && !Passed(os);
    assert Dispatches(more) == 0 && Verdicts(more) == 0 && !Passed(more) && !AfterVerdict(more);
  }

  lemma AfterProbes(cfg: Config, s: Scan, os: seq<Outcome>, more: seq<Outcome>, o: Outcome)
    requires Following(cfg, s, os) && Allowed(cfg, s, o) && s.node.Probes?
    requires more != [] && more[..|more| - 1] == os && more[|more| - 1] == o
    ensures Following(cfg, Next(cfg, s, o), more)
  {
    hide FanOut, Publishable, SynthesisLease, Gather, MergedProvenance, FloorThenPoolSpend, Add, RemainingTurns, RemainingUsd;
  }

  lemma AfterSynthesis(cfg: Config, s: Scan, os: seq<Outcome>, more: seq<Outcome>, o: Outcome)
    requires Following(cfg, s, os) && Allowed(cfg, s, o) && s.node.Investigate?
    requires more != [] && more[..|more| - 1] == os && more[|more| - 1] == o
    ensures Following(cfg, Next(cfg, s, o), more)
  {
    hide FanOut, Publishable, SynthesisLease, Gather, MergedProvenance, FloorThenPoolSpend, Add, RemainingTurns, RemainingUsd;
  }

  lemma AfterValidation(cfg: Config, s: Scan, os: seq<Outcome>, more: seq<Outcome>, o: Outcome)
    requires Following(cfg, s, os) && Allowed(cfg, s, o) && s.node.Validate?
    requires more != [] && more[..|more| - 1] == os && more[|more| - 1] == o
    ensures Following(cfg, Next(cfg, s, o), more)
  {
    hide FanOut, Publishable, SynthesisLease, Gather, MergedProvenance, FloorThenPoolSpend, Add, RemainingTurns, RemainingUsd, SurveyStep, ProbeStep, InvestigateStep, RepairStep;
  }

  lemma AfterRepair(cfg: Config, s: Scan, os: seq<Outcome>, more: seq<Outcome>, o: Outcome)
    requires Following(cfg, s, os) && Allowed(cfg, s, o) && s.node.Repair?
    requires more != [] && more[..|more| - 1] == os && more[|more| - 1] == o
    ensures Following(cfg, Next(cfg, s, o), more)
  {
    hide FanOut, Publishable, SynthesisLease, Gather, MergedProvenance, FloorThenPoolSpend, Add, RemainingTurns, RemainingUsd, SurveyStep, ProbeStep, InvestigateStep;
  }

  lemma AfterEnd(cfg: Config, s: Scan, os: seq<Outcome>, more: seq<Outcome>, o: Outcome)
    requires Following(cfg, s, os) && Allowed(cfg, s, o) && (s.node.Finalize? || s.node.Empty?)
    requires more != [] && more[..|more| - 1] == os && more[|more| - 1] == o
    ensures Following(cfg, Next(cfg, s, o), more)
  {
    hide FanOut, Publishable, SynthesisLease, Gather, MergedProvenance, FloorThenPoolSpend, Add, RemainingTurns, RemainingUsd, SurveyStep, ProbeStep, InvestigateStep, RepairStep;
  }

  lemma {:induction false} RunFollows(cfg: Config, os: seq<Outcome>)
    requires Possible(cfg, Initial(cfg), os)
    ensures Following(cfg, Run(cfg, Initial(cfg), os), os)
  {
    if os != [] {
      hide Following, Next, Initial, Possible, Run;
      var n := |os| - 1;
      RunSnoc(cfg, Initial(cfg), os);
      RunFollows(cfg, os[..n]);
      FollowingStep(cfg, Run(cfg, Initial(cfg), os[..n]), os[..n], os[n]);
      assert os[..n] + [os[n]] == os;
    }
  }

  /** A run that ended publishes exactly what was drafted last if the last verdict found nothing wrong, and nothing otherwise. */
  lemma WhatIsPublished(cfg: Config, os: seq<Outcome>)
    requires Possible(cfg, Initial(cfg), os) && Run(cfg, Initial(cfg), os).node == Done
    ensures var result := Run(cfg, Initial(cfg), os).result;
      result.Some? && result.value.recipes == if Passed(os) then Drafted(os) else []
  {
    RunFollows(cfg, os);
  }

  /** After a verdict the run ends, repairs once, or ends empty. */
  lemma VerdictDecides(cfg: Config, os: seq<Outcome>)
    requires Possible(cfg, Initial(cfg), os) && AfterVerdict(os)
    ensures Run(cfg, Initial(cfg), os).node == if Passed(os) then Finalize else if Verdicts(os) == 1 then Repair else Empty
  {
    RunFollows(cfg, os);
  }

  /** Specialists are sent again if and only if the draft asks, a round is left, and turns and dollars are left after it. */
  lemma SentAgainIff(cfg: Config, os: seq<Outcome>, o: Outcome)
    requires cfg.Valid() && Possible(cfg, Initial(cfg), os) && Run(cfg, Initial(cfg), os).node == Investigate
    requires Allowed(cfg, Run(cfg, Initial(cfg), os), o)
    ensures var t := Next(cfg, Run(cfg, Initial(cfg), os), o);
      t.node.Probes? <==>
        && o.Draft? && o.redispatch != [] && Dispatches(os) <= cfg.rounds
        && t.ch.spend.poolTurns < cfg.maxTurns && t.ch.spend.poolUsd < cfg.maxCostUsd
  {
    hide Possible, Run, Initial, Inv, Publishable, SynthesisLease;
    RunFollows(cfg, os);
    InitialHolds(cfg);
    RunKeeps(cfg, Initial(cfg), os);
    var s := Run(cfg, Initial(cfg), os);
    WhatInvSays(cfg, s);
    if !o.Crash? {
      RedispatchAlwaysFansOut(cfg, s, o);
    }
    hide FanOut;
  }

  // ----- the catalog of the result

  /** What one answer brings: reports of specialists that had turns, and what a writing call read. */
  predicate Brings(s: Scan, o: Outcome, f: Fact) {
    match o
    case ProbeReplies(replies) =>
      s.node.Probes? && exists i | 0 <= i < |replies| && i < |s.node.leases| :: s.node.leases[i].maxTurns > 0 && Holds(replies[i].catalog, f)
    case Draft(_, _, catalog, _, _) => Holds(catalog, f)
    case _ => false
  }

  lemma {:induction false} GatherHolds(leases: seq<Lease>, replies: seq<ProbeReply>, f: Fact)
    requires |leases| == |replies|
    ensures Holds(Gather(leases, replies).catalog, f) <==>
      exists i | 0 <= i < |replies| :: leases[i].maxTurns > 0 && Holds(replies[i].catalog, f)
  {
    hide Holds, MergedProvenance, ProbeOne;
    if leases != [] {
      var n := |leases| - 1;
      GatherHolds(leases[..n], replies[..n], f);
      MergeHoldsBoth(Gather(leases[..n], replies[..n]).catalog, ProbeOne(leases[n], replies[n]).catalog, f);
      ProbeOneIs(leases[n], replies[n], f);
      assert forall i | 0 <= i < n :: replies[..n][i] == replies[i] && leases[..n][i] == leases[i];
    } else {
      NothingHeld(f);
    }
  }

  lemma ProbeOneIs(lease: Lease, reply: ProbeReply, f: Fact)
    ensures Holds(ProbeOne(lease, reply).catalog, f) <==> lease.maxTurns > 0 && Holds(reply.catalog, f)
    ensures ProbeOne(lease, reply).failed > 0 <==> lease.maxTurns > 0 && reply.Died?
    ensures ProbeOne(lease, reply).exhausted <==> lease.maxTurns <= 0 || (!reply.Died? && reply.exhausted)
  {
    NothingHeld(f);
  }

  lemma NothingHeld(f: Fact)
    ensures !Holds(EMPTY_CATALOG, f)
  {
  }

  lemma StepBrings(cfg: Config, s: Scan, o: Outcome, f: Fact)
    requires Allowed(cfg, s, o)
    ensures Holds(Next(cfg, s, o).ch.provenance, f) <==> Holds(s.ch.provenance, f) || Brings(s, o, f)
  {
    hide Holds, MergedProvenance, Publishable, FanOut, SynthesisLease, Gather;
    match o {
      case ProbeReplies(replies) =>
        if s.node.Probes? {
          GatherHolds(s.node.leases, replies, f);
          MergeHoldsBoth(s.ch.provenance, Gather(s.node.leases, replies).catalog, f);
        }
      case Draft(_, _, catalog, _, _) => MergeHoldsBoth(s.ch.provenance, catalog, f);
      case _ => MergeHoldsBoth(s.ch.provenance, s.ch.provenance, f);
    }
  }

  /** Some answer of the run, where it was given, is such. */
  ghost predicate Ever(cfg: Config, os: seq<Outcome>, such: (Scan, Outcome) -> bool)
    decreases |os|
  {
    os != [] && Possible(cfg, Initial(cfg), os[..|os| - 1])
    && (such(Run(cfg, Initial(cfg), os[..|os| - 1]), os[|os| - 1]) || Ever(cfg, os[..|os| - 1], such))
  }

  /** The catalog a run publishes with holds exactly what its answers brought. */
  lemma {:induction false} CatalogIs(cfg: Config, os: seq<Outcome>, f: Fact)
    requires Possible(cfg, Initial(cfg), os)
    ensures Holds(Run(cfg, Initial(cfg), os).ch.provenance, f) <==> Ever(cfg, os, (s, o) => Brings(s, o, f))
    ensures Run(cfg, Initial(cfg), os).node == Done ==>
      Run(cfg, Initial(cfg), os).result.Some? && Run(cfg, Initial(cfg), os).result.value.provenance == Run(cfg, Initial(cfg), os).ch.provenance
  {
    RunFollows(cfg, os);
    hide Following, Next, Possible, Run, Holds, Brings;
    if os == [] {
      NothingYet(cfg, f);
    } else {
      hide Initial;
      var n := |os| - 1;
      RunSnoc(cfg, Initial(cfg), os);
      CatalogIs(cfg, os[..n], f);
      StepBrings(cfg, Run(cfg, Initial(cfg), os[..n]), os[n], f);
    }
  }

  lemma NothingYet(cfg: Config, f: Fact)
    ensures Possible(cfg, Initial(cfg), []) && Run(cfg, Initial(cfg), []) == Initial(cfg) && !Holds(Initial(cfg).ch.provenance, f)
  {
  }

  // ----- why an empty result is empty

  predicate GaveUp(os: seq<Outcome>) {
    exists k | 0 <= k < |os| :: os[k].SurveyFailed? || os[k].RepairExhausted?
  }

  /** The last verdict found something wrong. */
  predicate Failed(os: seq<Outcome>) {
    os != [] && if os[|os| - 1].Verdict? then os[|os| - 1].errors != [] else Failed(os[..|os| - 1])
  }

  predicate SomeDied(s: Scan, o: Outcome) {
    s.node.Probes? && o.ProbeReplies? && exists i | 0 <= i < |o.replies| && i < |s.node.leases| :: s.node.leases[i].maxTurns > 0 && o.replies[i].Died?
  }

  predicate SomeExhausted(s: Scan, o: Outcome) {
    s.node.Probes? && o.ProbeReplies? && exists i | 0 <= i < |o.replies| && i < |s.node.leases| ::
      s.node.leases[i].maxTurns <= 0 || (!o.replies[i].Died? && o.replies[i].exhausted)
  }

  lemma {:induction false} GatherReports(leases: seq<Lease>, replies: seq<ProbeReply>)
    requires |leases| == |replies|
    ensures Gather(leases, replies).failed > 0 <==> exists i | 0 <= i < |replies| :: leases[i].maxTurns > 0 && replies[i].Died?
    ensures Gather(leases, replies).exhausted <==>
      exists i | 0 <= i < |replies| :: leases[i].maxTurns <= 0 || (!replies[i].Died? && replies[i].exhausted)
  {
    hide MergedProvenance, Add, ProbeOne, Holds;
    if leases != [] {
      var n := |leases| - 1;
      GatherReports(leases[..n], replies[..n]);
      ProbeOneIs(leases[n], replies[n], RuleRead(""));
      assert forall i | 0 <= i < n :: replies[..n][i] == replies[i] && leases[..n][i] == leases[i];
    }
  }

  lemma StepReasons(cfg: Config, s: Scan, o: Outcome)
    requires Allowed(cfg, s, o)
    ensures var t := Next(cfg, s, o);
      && (t.ch.failedProbes > 0 <==> s.ch.failedProbes > 0 || SomeDied(s, o))
      && (t.ch.exhausted <==> s.ch.exhausted || SomeExhausted(s, o))
      && t.ch.reason == (if o.SurveyFailed? || o.RepairExhausted? then Some(Degraded) else s.ch.reason)
      && t.ch.errors == (if o.Verdict? then o.errors else s.ch.errors)
  {
    hide MergedProvenance, Publishable, FanOut, SynthesisLease, Gather;
    if s.node.Probes? && o.ProbeReplies? {
      GatherReports(s.node.leases, o.replies);
    }
  }

  lemma NothingRun(cfg: Config)
    ensures Possible(cfg, Initial(cfg), []) && Run(cfg, Initial(cfg), []) == Initial(cfg)
  {
  }

  lemma {:induction false} ReasonsSoFar(cfg: Config, os: seq<Outcome>)
    requires Possible(cfg, Initial(cfg), os)
    ensures var ch := Run(cfg, Initial(cfg), os).ch;
      && (ch.failedProbes > 0 <==> Ever(cfg, os, SomeDied)) && (ch.exhausted <==> Ever(cfg, os, SomeExhausted))
      && ch.reason == (if GaveUp(os) then Some(Degraded) else None) && (ch.errors != [] <==> Failed(os))
  {
    hide Next, Run, Possible, SomeDied, SomeExhausted;
    if os == [] {
      NothingRun(cfg);
    } else {
      hide Initial;
      var n := |os| - 1;
      RunSnoc(cfg, Initial(cfg), os);
      ReasonsSoFar(cfg, os[..n]);
      StepReasons(cfg, Run(cfg, Initial(cfg), os[..n]), os[n]);
      assert GaveUp(os) <==> GaveUp(os[..n]) || os[n].SurveyFailed? || os[n].RepairExhausted?;
    }
  }

  /** Failed generation before thin evidence before nothing to save. */
  lemma ReasonIs(cfg: Config, os: seq<Outcome>)
    requires Possible(cfg, Initial(cfg), os)
    ensures EmptyResultReason(Run(cfg, Initial(cfg), os).ch) ==
      if GaveUp(os) || Failed(os) || Ever(cfg, os, SomeDied) then Degraded
      else if Ever(cfg, os, SomeExhausted) then InsufficientEvidence
      else NothingToSave
  {
    ReasonsSoFar(cfg, os);
    hide Run, Possible, Initial, Ever, GaveUp, Failed;
  }

  // ----- what can be published at all

  predicate CanSend(cfg: Config) { cfg.survey.maxTurns > 0 && cfg.maxTurns > 0 && cfg.maxCostUsd > 0.0 }

  lemma {:induction false} NobodySentNothingPublished(cfg: Config, os: seq<Outcome>)
    requires !CanSend(cfg) && Possible(cfg, Initial(cfg), os)
    ensures var t := Run(cfg, Initial(cfg), os);
      && (t.node.Survey? || t.node.Empty? || t.node.Done? || t.node.Crashed?)
      && (t.node.Survey? ==> t == Initial(cfg)) && (t.node.Done? ==> t.result.Some? && t.result.value.recipes == [])
  {
    if os != [] {
      hide Publishable, Possible, Run;
      var n := |os| - 1;
      RunSnoc(cfg, Initial(cfg), os);
      NobodySentNothingPublished(cfg, os[..n]);
      NothingToSend(cfg, Run(cfg, Initial(cfg), os[..n]), os[n]);
    } else {
      assert Run(cfg, Initial(cfg), os) == Initial(cfg);
    }
  }

  lemma NothingToSend(cfg: Config, s: Scan, o: Outcome)
    requires !CanSend(cfg) && Allowed(cfg, s, o)
    requires s == Initial(cfg) || s.node.Empty?
    ensures var t := Next(cfg, s, o);
      && (t.node.Empty? || t.node.Done? || t.node.Crashed?) && (t.node.Done? ==> t.result.Some? && t.result.value.recipes == [])
  {
    hide Publishable, SynthesisLease;
  }

  /** The shortest run that publishes. */
  function Publishing(cs: seq<Candidate>, catalog: Catalog): seq<Outcome> {
    [SurveyReply([Assignment("", 1)], 0, 0.0), ProbeReplies([Reported(0, 0.0, EMPTY_CATALOG, false)]),
      Draft(cs, [], catalog, 0, 0.0), Verdict([]), NoCall]
  }

  lemma OneStep(cfg: Config, s: Scan, o: Outcome, rest: seq<Outcome>)
    requires Allowed(cfg, s, o) && Possible(cfg, Next(cfg, s, o), rest)
    ensures Possible(cfg, s, [o] + rest) && Run(cfg, s, [o] + rest) == Run(cfg, Next(cfg, s, o), rest)
  {
    assert ([o] + rest)[1..] == rest;
  }

  /** Pool and floor are untouched. */
  predicate NoneSpent(spend: Spend) { spend.poolTurns == 0 && spend.poolUsd == 0.0 && spend.floorTurns == 0 && spend.floorUsd == 0.0 }

  lemma InitialIs(cfg: Config)
    ensures Initial(cfg).node.Survey? && NoneSpent(Initial(cfg).ch.spend)
  {
  }

  lemma SentOut(cfg: Config, s: Scan, o: Outcome)
    requires cfg.Valid() && CanSend(cfg) && s.node.Survey? && NoneSpent(s.ch.spend) && o == SurveyReply([Assignment("", 1)], 0, 0.0)
    ensures Allowed(cfg, s, o)
    ensures var t := Next(cfg, s, o); t.node.Probes? && |t.node.leases| == 1 && NoneSpent(t.ch.spend)
  {
    OneProbe(o.plan, cfg.maxTurns, cfg.maxCostUsd);
    hide FanOut, Publishable, SynthesisLease, ProbeStep, InvestigateStep, RepairStep;
  }

  lemma OneProbe(plan: Plan, turns: int, usd: real)
    requires plan == [Assignment("", 1)] && turns > 0 && usd > 0.0
    ensures GoodPlan(plan) && |FanOut(plan, turns, usd)| == 1
  {
    hide Clamp, Priced;
  }

  lemma Reported0(cfg: Config, s: Scan, o: Outcome)
    requires s.node.Probes? && |s.node.leases| == 1 && NoneSpent(s.ch.spend)
    requires o.ProbeReplies? && |o.replies| == 1 && o.replies[0].Reported? && o.replies[0].turns == 0 && o.replies[0].usd == 0.0
    ensures Allowed(cfg, s, o) && Next(cfg, s, o).node.Investigate? && NoneSpent(Next(cfg, s, o).ch.spend)
  {
    hide Gather, MergedProvenance, Publishable, SynthesisLease, SurveyStep, InvestigateStep, RepairStep, FanOut;
    GatherOne(s.node.leases, o.replies);
  }

  lemma GatherOne(leases: seq<Lease>, replies: seq<ProbeReply>)
    requires |leases| == |replies| == 1 && replies[0].Reported? && replies[0].turns == 0 && replies[0].usd == 0.0
    ensures NoneSpent(Gather(leases, replies).spend)
  {
    hide Gather;
    ScanSpend.GatherSpends(leases, replies);
    assert leases[..0] == [] && replies[..0] == [];
    assert ScanSpend.AllTurns(leases[..0], replies[..0]) == 0 && ScanSpend.AllUsd(leases[..0], replies[..0]) == 0.0;
  }

  lemma Written(cfg: Config, s: Scan, o: Outcome, cs: seq<Candidate>, catalog: Catalog)
    requires cfg.Valid() && CanSend(cfg) && s.node.Investigate? && NoneSpent(s.ch.spend) && o == Draft(cs, [], catalog, 0, 0.0)
    ensures Allowed(cfg, s, o) && Next(cfg, s, o).node.Validate? && Next(cfg, s, o).ch.candidates == cs
    ensures Next(cfg, s, o).ch.provenance == MergedProvenance(s.ch.provenance, catalog)
  {
    ScanTurns.SynthesisLeaseTurns(cfg, s.ch);
    hide SynthesisLease, Publishable, MergedProvenance, ProbeStep, SurveyStep, RepairStep, FanOut;
  }

  lemma PublishableAfterMerge(cs: seq<Candidate>, anchor: Id, before: Catalog, catalog: Catalog, limit: nat)
    requires Publishable(cs, anchor, catalog, limit)
    ensures Publishable(cs, anchor, MergedProvenance(before, catalog), limit)
  {
    hide Supported, MergedProvenance;
    forall i | 0 <= i < |cs| {
      MergeKeepsSupport(cs[i], anchor, before, catalog);
    }
  }

  /** Candidates are published by some run if and only if specialists can be sent and some catalog makes the candidates publishable. */
  lemma PublishedIff(cfg: Config, cs: seq<Candidate>)
    requires cfg.Valid() && cs != []
    ensures (exists os :: Publishes(cfg, os, cs)) <==> CanSend(cfg) && exists catalog :: Publishable(cs, cfg.anchor, catalog, cfg.limit)
  {
    hide Publishable;
    if os :| Publishes(cfg, os, cs) {
      PublishedRecipesAreSupported(cfg, os);
      if !CanSend(cfg) {
        NobodySentNothingPublished(cfg, os);
      }
    }
    if CanSend(cfg) {
      if catalog :| Publishable(cs, cfg.anchor, catalog, cfg.limit) {
        PublishingPublishes(cfg, cs, catalog);
      }
    }
  }

  ghost predicate Publishes(cfg: Config, os: seq<Outcome>, cs: seq<Candidate>) {
    Possible(cfg, Initial(cfg), os) && Run(cfg, Initial(cfg), os).node == Done
    && Run(cfg, Initial(cfg), os).result.Some? && Run(cfg, Initial(cfg), os).result.value.recipes == cs
  }

  lemma PublishingPublishes(cfg: Config, cs: seq<Candidate>, catalog: Catalog)
    requires cfg.Valid() && CanSend(cfg) && Publishable(cs, cfg.anchor, catalog, cfg.limit)
    ensures Publishes(cfg, Publishing(cs, catalog), cs)
  {
    hide Allowed, Next, Initial, Publishable, Possible, Run, Publishes;
    var a, b, c := SurveyReply([Assignment("", 1)], 0, 0.0), ProbeReplies([Reported(0, 0.0, EMPTY_CATALOG, false)]), Draft(cs, [], catalog, 0, 0.0);
    var s0 := Initial(cfg);
    InitialIs(cfg);
    SentOut(cfg, s0, a);
    var s1 := Next(cfg, s0, a);
    Reported0(cfg, s1, b);
    var s2 := Next(cfg, s1, b);
    Written(cfg, s2, c, cs, catalog);
    var s3 := Next(cfg, s2, c);
    PublishableAfterMerge(cs, cfg.anchor, s2.ch.provenance, catalog, cfg.limit);
    Ends(cfg, s3, Verdict([]), NoCall);
    OneStep(cfg, Next(cfg, s3, Verdict([])), NoCall, []);
    OneStep(cfg, s3, Verdict([]), [NoCall] + []);
    OneStep(cfg, s2, c, [Verdict([])] + ([NoCall] + []));
    OneStep(cfg, s1, b, [c] + ([Verdict([])] + ([NoCall] + [])));
    OneStep(cfg, s0, a, [b] + ([c] + ([Verdict([])] + ([NoCall] + []))));
    assert Publishing(cs, catalog) == [a] + ([b] + ([c] + ([Verdict([])] + ([NoCall] + []))));
    ShownToPublish(cfg, Publishing(cs, catalog), cs);
  }

  lemma ShownToPublish(cfg: Config, os: seq<Outcome>, cs: seq<Candidate>)
    requires Possible(cfg, Initial(cfg), os) && Run(cfg, Initial(cfg), os).node == Done
    requires Run(cfg, Initial(cfg), os).result.Some? && Run(cfg, Initial(cfg), os).result.value.recipes == cs
    ensures Publishes(cfg, os, cs)
  {
  }

  lemma Ends(cfg: Config, s: Scan, verdict: Outcome, end: Outcome)
    requires s.node.Validate? && Publishable(s.ch.candidates, cfg.anchor, s.ch.provenance, cfg.limit)
    requires verdict == Verdict([]) && end == NoCall
    ensures Allowed(cfg, s, verdict) && Allowed(cfg, Next(cfg, s, verdict), end)
    ensures var t := Next(cfg, Next(cfg, s, verdict), end);
      && Possible(cfg, t, []) && Run(cfg, t, []) == t && t.node == Done && t.result.Some? && t.result.value.recipes == s.ch.candidates
  {
    hide Publishable, ProbeStep, SurveyStep, RepairStep, InvestigateStep;
  }

  // ----- with what the specialists are sent

  /** Specialists are sent with the plan just made, and with leases on all that the pool holds at that moment. */
  lemma SentWith(cfg: Config, os: seq<Outcome>, o: Outcome)
    requires cfg.Valid() && Possible(cfg, Initial(cfg), os) && Allowed(cfg, Run(cfg, Initial(cfg), os), o)
    ensures var t := Next(cfg, Run(cfg, Initial(cfg), os), o);
      t.node.Probes? ==>
        && (o.SurveyReply? || o.Draft?)
        && var plan := if o.SurveyReply? then o.plan else o.redispatch;
          && cfg.maxTurns > t.ch.spend.poolTurns && cfg.maxCostUsd > t.ch.spend.poolUsd
          && t.node.leases == QuoteShares(seq(|plan|, i requires 0 <= i < |plan| => plan[i].share), cfg.maxTurns - t.ch.spend.poolTurns, cfg.maxCostUsd - t.ch.spend.poolUsd)
    ensures os == [] ==> (Next(cfg, Run(cfg, Initial(cfg), os), o).node.Probes? <==>
      o.SurveyReply? && o.plan != [] && cfg.maxTurns > 0 && cfg.maxCostUsd > 0.0)
  {
    hide Possible, Run, Initial, Publishable, SynthesisLease, QuoteShares, Gather, MergedProvenance;
    RunFollows(cfg, os);
    var s := Run(cfg, Initial(cfg), os);
    if os == [] {
      NothingRun(cfg);
      InitialIs(cfg);
    }
    SentStep(cfg, s, o);
    hide Next, FanOut, Allowed;
  }

  lemma SentStep(cfg: Config, s: Scan, o: Outcome)
    requires Allowed(cfg, s, o)
    ensures var t := Next(cfg, s, o);
      t.node.Probes? ==>
        && (o.SurveyReply? || o.Draft?)
        && var plan := if o.SurveyReply? then o.plan else o.redispatch;
          && cfg.maxTurns > t.ch.spend.poolTurns && cfg.maxCostUsd > t.ch.spend.poolUsd
          && t.node.leases == QuoteShares(seq(|plan|, i requires 0 <= i < |plan| => plan[i].share), cfg.maxTurns - t.ch.spend.poolTurns, cfg.maxCostUsd - t.ch.spend.poolUsd)
    ensures s.node.Survey? && NoneSpent(s.ch.spend) ==>
      (Next(cfg, s, o).node.Probes? <==> o.SurveyReply? && o.plan != [] && cfg.maxTurns > 0 && cfg.maxCostUsd > 0.0)
  {
    hide Publishable, SynthesisLease, QuoteShares, Gather, MergedProvenance;
    if o.SurveyReply? {
      SharesAre(o.plan);
      SomebodyIsSent(o.plan, cfg.maxTurns, cfg.maxCostUsd);
    }
    if o.Draft? {
      SharesAre(o.redispatch);
    }
  }

  lemma SharesAre(plan: Plan)
    ensures Shares(plan) == seq(|plan|, i requires 0 <= i < |plan| => plan[i].share)
  {
  }

  lemma SomebodyIsSent(plan: Plan, turns: int, usd: real)
    ensures FanOut(plan, turns, usd) == [] <==> plan == [] || turns <= 0 || usd <= 0.0
  {
    hide Clamp, Priced;
  }
}
