# Models and proofs for the tracer agent service

This project models, in Dafny, the parts of the agent service where several things move at once or where a number must come out
exactly, and proves what they promise. The constants the service reads from its contract files (marker, words, shares, limits,
batch size, keep count, ceiling, landing reserve, backstop) are parameters. `dafny verify dfyconfig.toml` checks everything.

| module | what it models |
|---|---|
| `Apportion`, `Shares` | splitting turns and dollars over parallel requests without losing one |
| `DollarLedger` | the dollar book every model call is charged to, its ceilings and landing reserve, and the reservations taken before the fan-out |
| `Provenance` | deterministic validation of recipe candidates against the evidence a run gathered |
| `ScanRun`, `ScanTurns`, `ScanCost`, `ScanSpend`, `ScanResults` | the recipe-scan graph: survey, parallel probes behind a barrier, bounded re-dispatch, one repair, two ends |
| `Redaction`, `Credentials`, `Payloads` | finding credential-shaped spans, covering them, and walking a payload in two modes |
| `Recipes`, `RecipeLedger` | a recipe's transitions, and the transactions that write recipes and their requests to re-index |
| `Transactions`, `JobOutput` | the same calls and scans as transactions that overlap, each committing what it found earlier |
| `Outbox` | the search index, any number of writers, one drainer behind a lock, failing index writes, aborted drains |
| `ChatLedger`, `ChatRecords` | chat executions as guarded one-statement updates, and the transaction that closes a turn |
| `Drafts`, `DraftTexts` | the growing answer of a running turn on its way into that ledger |
| `Confirmation`, `ConfirmationRecords` | one tool call waiting for its user's word, and any number of requests deciding it |
| `Replay`, `ReplayWindows` | what a turn gives back to the model: fold point, ceiling, paired tool calls |
| `Sorting`, `Wrappers` | stable sorting over an order, optional values and refusals |

Code that changes objects is a class whose methods are proved equal to a function of the old state; that function is then what
the theorems are about. What such a function means is said a second time without it: on the raw text in `Credentials`, on the
answers of a run in `ScanResults`, on the calls of a publisher in `DraftTexts`, on the rows in `ReplayWindows`, by counting who comes
first in `Shares`.

Protocols are machines over their statements: an event is one statement or one transaction, `Next` says what it does, `Run` chains
events, and the theorems quantify over every run. Where a class works among other writers (`Outbox`, `Confirmation`, the seat in
`ChatLedger`, a flush in `Drafts`) its methods are proved to be runs of the machine, so every theorem about runs applies to them.

## Findings

Where a promised property does not hold without a condition, the condition is proved exact or a run that breaks it is given.

- The landing reserve protects concurrent calls up to the number it counts and no further, for every reserve and over every
  history of charges (`BurstsAreKeptIff`); a single loop is always safe (`CheapCallNeverRaises`).
- The two redaction modes agree on values. On key names they differ: covering keeps the name, so a covered payload is refused by
  the other mode exactly when a suspect name is in it (`CoveredIsAccepted`).
- A commit from an old reading can leave a recipe and its revision both active (`StaleEditRevivesParent`). It does so exactly when
  it puts its row in use while something in use revises that row, or is revised by it and not taken out of use with it
  (`StaleCommitKeepsOneLiveVersionIff`, `StaleAcceptanceKeepsOneLiveVersionIff`, over every overlap `CommitsKeepOneLiveVersionIff`);
  retiring, dismissing and deleting never do. The index still follows, because such a commit announces itself too (`MoveAnnounces`).
- A job writes its candidates once when its attempts come one after the other (`JobWritesOnce`). An attempt adds a second set exactly
  when another wrote between its look and its write (`JobWritesAgainIff`, `OverlappingAttemptsWriteTwice`).
- A request is in the next batch exactly when fewer than a batch of others come before it (`FetchedForSureIff`, and
  `FetchedPerhapsIff` where times are equal). So a full batch of oldest requests that keep failing is fetched again and again, and
  what is behind it is never reached (`FailingHeadStarvesTheRest`); such a head comes about from nothing (`AHeadComesAbout`).
- A turn delivered twice is refused as a conflict, rather than ignored, when its report carries a time to first token, because
  the rebuilt report does not (`Redelivered`).
- Once an attempt has left a report, the ledger's own cancel of the running execution is refused until a report says cancelled
  (`ReportedNeedsAReport`); the row can always be closed by the report of a new attempt (`NewAttemptAlwaysCloses`).
- A tool acts at most once when no call fails after it acted (`ActsOnceUnlessAnAnswerIsLost`). However often it acted, it can act
  again exactly while the row waits or an approval is still under way (`ActsAgainIff`, `LostAnswerActsTwice`).
- A confirmation can still be answered exactly while it waits or somebody holds its claim (`AnswerableIff`); a decision whose
  request died stays decided and unanswered (`AbandonedForGood`).
- The fold point of a thread's summary only moves forward when projections do not overlap (`SerialFoldsMoveForward`). A write moves
  it back exactly when the last write since its projection's reading folded more (`FoldGoesBackIff`), and leaves it behind a point
  it had reached exactly when any write in between folded more (`FoldFallsBehindIff`).
- `truncated` is documented as the ceiling having cut (replay.py:29-32, executions.py:92-96); the code also says so after an
  ordinary fold (`TruncatedIff`, `OrdinaryFoldLooksTruncated`). The model follows the code.

## Model

| member | source | states |
|---|---|---|
| Apportion.ClampTurnsWithoutLeak | src/tracer_agent/worker/agents/runtime/llm/budget.py:99-121 | the loop form computes the specified grants, for every list of requests |
| Apportion.GrantOneEach | src/tracer_agent/worker/agents/runtime/llm/budget.py:109-113 | with fewer turns than requests, exactly the best ranked places get one turn |
| Apportion.ReturnLeftover | src/tracer_agent/worker/agents/runtime/llm/budget.py:118-121 | the leftover turns go one by one along the ranking |
| Apportion.RankFacts | src/tracer_agent/worker/agents/runtime/llm/budget.py:107 | the ranking lists every place once, larger requests first, ties by place |
| Apportion.FloorGrantIs | src/tracer_agent/worker/agents/runtime/llm/budget.py:117 | the floor share is one turn plus exact integer division of the spare turns |
| Apportion.LeftoverGoesAboveOne | src/tracer_agent/worker/agents/runtime/llm/budget.py:117-120 | what the floors leave over is never negative and goes only to places that asked for more than one |
| Apportion.ClampExact | src/tracer_agent/worker/agents/runtime/llm/budget.py:99-121 | for requests of at least one: grants sum to the smaller of total and available, lie between 0 and the request, and are at least 1 when there are enough turns |
| Apportion.ClampOrdered | src/tracer_agent/worker/agents/runtime/llm/budget.py:107-121 | a larger request, or an equal one that comes first, never gets less |
| Apportion.ClampProportional | src/tracer_agent/worker/agents/runtime/llm/budget.py:115-120 | short of the total but not of the count, every grant is within one turn of its exact proportional share |
| Apportion.QuoteConserves | src/tracer_agent/worker/agents/runtime/llm/budget.py:82-96 | quoted leases add up to the clamped turns, and to exactly the available dollars as soon as one turn is granted |
| Apportion.QuoteProportional | src/tracer_agent/worker/agents/runtime/llm/budget.py:90-96 | no lease is negative and the dollars of any two leases are in the proportion of their turns |
| Shares.ClampMeans | src/tracer_agent/worker/agents/runtime/llm/budget.py:99-121 | place by place, the grant: what was asked, or one turn for those with fewer than that many ahead of them, or one turn and the rounded share of the rest, with what that leaves going to the first, one each |
| Shares.LeaseMeans | src/tracer_agent/worker/agents/runtime/llm/budget.py:82-96 | each lease's turns are its grant, and its dollars its grant's share of what is available |
| DollarLedger.ExecutionBudget.constructor | src/tracer_agent/worker/agents/runtime/llm/budget.py:169-184 | a continued execution starts from what was spent and used before, never below zero left |
| DollarLedger.ExecutionBudget.TakeReserve | src/tracer_agent/worker/agents/runtime/llm/budget.py:208-219 | the lease and the new remainder are the specified reservation, and an error changes nothing |
| DollarLedger.ExecutionBudget.Charge | src/tracer_agent/worker/agents/runtime/llm/budget.py:236-257 | the cost is booked whatever the verdict; the ceilings come from the peaks before the call |
| DollarLedger.ExecutionBudget.NewLoop | src/tracer_agent/worker/agents/runtime/llm/budget.py:259-263 | a loop starts empty under its own cap, never above the execution's |
| DollarLedger.SharedToolLoopBudget.constructor | src/tracer_agent/worker/agents/runtime/llm/budget.py:269-278 | a loop's book starts at zero and not landed |
| DollarLedger.SharedToolLoopBudget.Land | src/tracer_agent/worker/agents/runtime/llm/budget.py:302-303 | landing changes the landed flag only |
| DollarLedger.SharedToolLoopBudget.Charge | src/tracer_agent/worker/agents/runtime/llm/budget.py:305-317 | a loop charge moves both books as specified, and a call without a price moves neither |
| DollarLedger.SpendIsConserved | src/tracer_agent/worker/agents/runtime/llm/budget.py:236-317 | over any interleaving of loops, execution spend moves by exactly the sum of the loops' deltas, also when charges raise |
| DollarLedger.BooksAreCharges | src/tracer_agent/worker/agents/runtime/llm/budget.py:236-317 | over every run, each loop's book is the sum and the dearest of its own charges, the execution's of all of them, also when they raise |
| DollarLedger.PeakDominates | src/tracer_agent/worker/agents/runtime/llm/budget.py:247-253 | the execution's peak is at least every loop's peak throughout |
| DollarLedger.SpendIsBounded | src/tracer_agent/worker/agents/runtime/llm/budget.py:131-136 | over any run, spend is at most the backstop (or what was spent before) plus the answers that raised |
| DollarLedger.LoopSpendIsBounded | src/tracer_agent/worker/agents/runtime/llm/budget.py:124-136 | where no call costs more than a given price, each loop's own spend stays within its limit, the landing reserve at that price and its answers that raised, over any interleaving |
| DollarLedger.LoopStaysNearItsCap | src/tracer_agent/worker/agents/runtime/llm/budget.py:124-136 | a loop that ends with its first raise costs at most its cap, the landing reserve at the dearest price, and one answer that raised |
| DollarLedger.ChargeKeptIff | src/tracer_agent/worker/agents/runtime/llm/budget.py:236-257 | exactly which charges return normally: within the execution's and the loop's ceilings, opened by the reserve when landed, and within the backstop |
| DollarLedger.ChargeRaisesFor | src/tracer_agent/worker/agents/runtime/llm/budget.py:236-257 | a charge raises for the execution if its limits are passed, for the loop if only its own is, for the price if there is none |
| DollarLedger.NotLandingMeans | src/tracer_agent/worker/agents/runtime/llm/budget.py:293-300 | a loop is not landing if and only if as many calls as the reserve counts, each as dear as the dearest, would stay inside both limits |
| DollarLedger.LandedIff | src/tracer_agent/worker/agents/runtime/llm/budget.py:302-303 | over every run, a loop has landed if and only if it was told to |
| DollarLedger.OpenLoopMeans | src/tracer_agent/worker/agents/runtime/llm/budget.py:259-263 | a loop's limit is the smaller of its own cap and the execution's |
| DollarLedger.CheapCallNeverRaises | src/tracer_agent/worker/agents/runtime/llm/budget.py:293-317 | a call started while not landing, no dearer than the loop's peak, never raises |
| DollarLedger.LandedCallRaisesOnlyBeyondReserve | src/tracer_agent/worker/agents/runtime/llm/budget.py:124-136 | a landed call inside both limits raises only by costing more than the reserve or passing the backstop |
| DollarLedger.ReserveCoversABurst | src/tracer_agent/worker/agents/runtime/llm/budget.py:293-317 | when no loop was landing, up to as many concurrent calls as the reserve counts all return normally, in any order |
| DollarLedger.OneMoreThanReserveRaises | src/tracer_agent/worker/agents/runtime/llm/budget.py:293-317 | for every reserve and every count above it: a ledger reached by kept charges alone where a cheap burst of so many calls raises, although no loop was landing |
| DollarLedger.BurstsAreKeptIff | src/tracer_agent/worker/agents/runtime/llm/budget.py:293-317 | over every history of charges: cheap bursts of n concurrent calls are always kept if and only if the reserve counts at least n |
| DollarLedger.ReservationsConserve | src/tracer_agent/worker/agents/runtime/llm/budget.py:208-219 | leases of any reservation sequence plus the remainder equal the start, nothing goes negative, earlier leases stay |
| DollarLedger.ReserveMeans | src/tracer_agent/worker/agents/runtime/llm/budget.py:208-219 | a reservation is the turns asked for as far as there are any, and the asked share of the dollars; it is refused for the first thing wrong |
| Provenance.EventsBySliceTask | src/tracer_agent/worker/agents/recipe_scan/policy.py:54-57 | per task, the union of the events of all its slices |
| Provenance.ErrorsOfSlice | src/tracer_agent/worker/agents/recipe_scan/policy.py:64-74 | the three errors of one slice, each exactly when it applies |
| Provenance.SliceErrors | src/tracer_agent/worker/agents/recipe_scan/policy.py:62-77 | the errors of all slices, and whether any event is cited at all |
| Provenance.EvidenceErrors | src/tracer_agent/worker/agents/recipe_scan/policy.py:78-102 | one numbered error for each claim whose evidence the catalog does not hold; no evidence is no error |
| Provenance.AnchorErrors | src/tracer_agent/worker/agents/recipe_scan/policy.py:58-61 | the anchor must be among the tasks, with at least one event |
| Provenance.TextErrors | src/tracer_agent/worker/agents/recipe_scan/policy.py:78-89 | corrections, pitfalls and recoveries are checked against all events |
| Provenance.SourceErrors | src/tracer_agent/worker/agents/recipe_scan/policy.py:90-95 | rules and the revised recipe must have been seen |
| Provenance.ValidateRecipeCandidate | src/tracer_agent/worker/agents/recipe_scan/policy.py:47-103 | an error is reported if and only if its declared condition holds |
| Provenance.CleanIffSupported | src/tracer_agent/worker/agents/recipe_scan/policy.py:47-103 | no error is reported if and only if every citation of the candidate is supported |
| Provenance.ClaimTurn | src/tracer_agent/worker/agents/recipe_scan/policy.py:40-43 | the first recipe to claim a turn keeps it; a different later one is an error |
| Provenance.DuplicateTurnErrors | src/tracer_agent/worker/agents/recipe_scan/policy.py:35-44 | the nested loops report exactly the specified errors, in order |
| Provenance.ErrorsIffClash | src/tracer_agent/worker/agents/recipe_scan/policy.py:35-44 | the report is empty if and only if no two claims of one turn come from different recipes |
| Provenance.DuplicatesIff | src/tracer_agent/worker/agents/recipe_scan/policy.py:35-44 | the report is empty if and only if no turn is claimed by two recipes |
| Provenance.DuplicatesMean | src/tracer_agent/worker/agents/recipe_scan/policy.py:35-44 | a turn is reported for a recipe if and only if another recipe before it claims it, and the report names the first that does |
| Provenance.ValidateRecipeCandidates | src/tracer_agent/worker/agents/recipe_scan/policy.py:14-32 | the list is accepted if and only if it is empty or publishable; too many candidates give that one error |
| Provenance.MergeKeepsSupport | src/tracer_agent/shared/agents/recipe_scan/models.py:350-359 | a candidate supported by either catalog is supported by the merged one |
| Provenance.MergeHoldsBoth | src/tracer_agent/shared/agents/recipe_scan/models.py:350-359 | the merged catalog holds what either side held and nothing else, and the later side's version of a recipe |
| ScanRun.FanOutFits | src/tracer_agent/worker/agents/recipe_scan/graph.py:60-76 | a fan-out never hands out more turns or dollars than the pool holds, no lease is negative, and it is empty exactly when there is nobody or nothing left |
| ScanRun.GatherFits | src/tracer_agent/worker/agents/recipe_scan/nodes/probe.py:66-138 | what a fan-out records is pool spend within its leases plus what calls used beyond them |
| ScanRun.SurveyKeeps | src/tracer_agent/worker/agents/recipe_scan/nodes/survey.py:30-66 | the survey step keeps the run's invariant and lowers its rank, with or without a call |
| ScanRun.ProbesKeep | src/tracer_agent/worker/agents/recipe_scan/nodes/probe.py:66-138 | the probe step keeps the invariant, failed probes charged their whole lease |
| ScanRun.RedispatchAlwaysFansOut | src/tracer_agent/worker/agents/recipe_scan/graph.py:88-93 | a granted re-dispatch always finds leases: the guard that grants it and the guard that fans out see the same pool |
| ScanRun.InvestigateKeeps | src/tracer_agent/worker/agents/recipe_scan/nodes/candidate.py:107-154 | synthesis keeps the invariant: the floor first, then the pool, at most the declared re-dispatches |
| ScanRun.TailKeeps | src/tracer_agent/worker/agents/recipe_scan/nodes/candidate.py:162-222 | validation, repair and the two ends keep the invariant |
| ScanRun.StepKeeps | src/tracer_agent/worker/agents/recipe_scan/graph.py:79-112 | every superstep keeps the invariant and strictly lowers the rank |
| ScanRun.ScanTerminates | src/tracer_agent/worker/agents/recipe_scan/graph.py:79-112 | every run ends within 2(R+1)+5 supersteps, with at most R re-dispatches and one repair, in at most one end |
| ScanRun.ScanNeverStuck | src/tracer_agent/worker/agents/recipe_scan/graph.py:96-112 | a state without a next step is an end or a crash |
| ScanRun.PublishedRecipesAreSupported | src/tracer_agent/worker/agents/runtime/routing.py:40-57 | whatever the models answer, a result is empty or satisfies the whole publication spec against the merged catalog |
| ScanResults.WhatIsPublished | src/tracer_agent/worker/agents/recipe_scan/nodes/result.py:51-73 | a run that ended publishes exactly the candidates its last writing call left, if the last verdict found nothing wrong, and none otherwise, read off the answers alone |
| ScanResults.PublishedIff | src/tracer_agent/worker/agents/recipe_scan/graph.py:79-112 | candidates are published by some run if and only if the survey has turns, the pool holds turns and dollars, and some catalog makes them publishable |
| ScanResults.VerdictDecides | src/tracer_agent/worker/agents/runtime/routing.py:40-57 | after a verdict the run ends, or repairs if that was the first, or ends empty |
| ScanResults.SentAgainIff | src/tracer_agent/worker/agents/recipe_scan/nodes/candidate.py:59-67 | specialists are sent again if and only if the draft asks for it, a round is left, and turns and dollars are left after it |
| ScanResults.SentWith | src/tracer_agent/worker/agents/recipe_scan/graph.py:60-93 | they are sent with the plan just made, and with leases on all that the pool holds at that moment |
| ScanResults.CatalogIs | src/tracer_agent/worker/agents/recipe_scan/nodes/result.py:51-73 | the catalog published with a result holds exactly what the answers of the run brought |
| ScanResults.ReasonIs | src/tracer_agent/worker/agents/recipe_scan/nodes/result.py:35-48 | an empty result is degraded if the survey or the repair gave up, the last verdict failed or a specialist died; else short of evidence if one was exhausted; else there was nothing to save |
| ScanSpend.SpendIsWhatCallsTook | src/tracer_agent/worker/agents/runtime/llm/budget.py:35-80 | over every run the spend channels are exactly what the answers took, the floor paying for the syntheses before the pool does |
| ScanTurns.SynthesisLeaseTurns | src/tracer_agent/worker/agents/recipe_scan/nodes/candidate.py:109-112 | synthesis gets what is left of its floor plus the whole pool |
| ScanRun.ComposeSplits | src/tracer_agent/worker/agents/recipe_scan/agent.py:83-96 | the three reservations and the initial pool are not negative and add up to the turns and dollars of the execution |
| ScanRun.ReservedInOrder | src/tracer_agent/worker/agents/recipe_scan/agent.py:83-96 | repair is reserved first, the survey from what that leaves, the floor from what both leave, each with the turns and the share asked for |
| ScanTurns.ScanTurnBound | src/tracer_agent/worker/agents/recipe_scan/nodes/candidate.py:107-213 | over every run, recorded turns are the reserved, pool and floor turns, and at most the available turns plus r a call when calls stay within their lease plus r |
| ScanCost.ScanCostBound | src/tracer_agent/worker/agents/runtime/llm/budget.py:35-76 | over every run, across fan-out, re-dispatch and repair, the recorded dollars are at most the execution's dollars plus c a call when calls stay within their lease plus c |
| ScanCost.ScanSpendIsBounded | src/tracer_agent/worker/agents/runtime/llm/budget.py:260-317 | where every call runs in a loop of the dollar ledger opened with its lease, among any other loops, the recorded dollars of every run are at most the execution's dollars and, for each call, the landing reserve and one answer that raised |
| Redaction.BodyBounds | src/tracer_agent/shared/agents/shared/redaction.py:143-152 | the two loops find the first place after skipped spaces and the end of the run of body characters |
| Redaction.CarriesBody | src/tracer_agent/shared/agents/shared/redaction.py:133-140 | found if and only if the word occurs somewhere with a long enough body behind it |
| Redaction.IsSuspectText | src/tracer_agent/shared/agents/shared/redaction.py:127-130 | suspect if and only if some word is followed by a credential body in the folded text |
| Redaction.SpansOfWord | src/tracer_agent/shared/agents/shared/redaction.py:159-165 | every occurrence is looked at, overlapping ones too |
| Redaction.SuspectSpans | src/tracer_agent/shared/agents/shared/redaction.py:155-172 | the loops collect, sort and merge the specified spans |
| Redaction.FoundMembers | src/tracer_agent/shared/agents/shared/redaction.py:155-165 | a span is found if and only if it is the span of a credential |
| Redaction.MergeKeeps | src/tracer_agent/shared/agents/shared/redaction.py:166-172 | merged spans are in order with gaps between them and cover exactly what the found spans cover |
| Redaction.SpansFacts | src/tracer_agent/shared/agents/shared/redaction.py:155-172 | the spans lie in the text, are apart, cover exactly the credentials, and exist if and only if the text is suspect |
| Redaction.CoverText | src/tracer_agent/shared/agents/shared/redaction.py:175-188 | the rebuilt text is the specified one |
| Redaction.Rebuild | src/tracer_agent/shared/agents/shared/redaction.py:181-188 | the cursor loop keeps the text outside the spans and puts one marker for each |
| Redaction.BreakAt | src/tracer_agent/shared/agents/shared/redaction.py:133-152 | no credential reaches across a character that is in no word, body or space set |
| Redaction.CoveredIsClean | src/tracer_agent/shared/agents/shared/redaction.py:175-188 | with a marker that cleans, a covered text is never suspect |
| Redaction.CoveringIsIdentityOnClean | src/tracer_agent/shared/agents/shared/redaction.py:175-188 | a text is unchanged if and only if it was not suspect, and covering twice is covering once |
| Redaction.MarkerNeedsSeparators | src/tracer_agent/shared/agents/shared/redaction.py:175-188 | without separators around the marker, covering one credential can complete another |
| Redaction.KeptVerbatim | src/tracer_agent/shared/agents/shared/redaction.py:181-188 | every character outside the spans is kept, in order, at its computed place |
| Redaction.OutsideIsKept | src/tracer_agent/shared/agents/shared/redaction.py:175-188 | two characters outside every credential are both in the covered text, in the same order |
| Redaction.NoOffenceIffClean | src/tracer_agent/shared/agents/shared/redaction.py:226-243 | the first offence in order of visits is none if and only if the payload is clean |
| Redaction.CoveredIsAccepted | src/tracer_agent/shared/agents/shared/redaction.py:208-243 | a covered payload is accepted if and only if key names are not inspected or none is suspect, since names are kept |
| Redaction.AcceptedIsUntouched | src/tracer_agent/shared/agents/shared/redaction.py:208-243 | covering is the identity on every payload the other mode accepts |
| Redaction.UntouchedIsAccepted | src/tracer_agent/shared/agents/shared/redaction.py:208-243 | where only values are inspected, a payload covering leaves alone is accepted |
| Redaction.CoveringKeepsShape | src/tracer_agent/shared/agents/shared/redaction.py:208-217 | where only values are inspected, covering keeps the tree's shape and names |
| Redaction.CoveringIsIdempotent | src/tracer_agent/shared/agents/shared/redaction.py:208-223 | covering twice is covering once, in every stage |
| Redaction.ModesAgree | src/tracer_agent/shared/agents/shared/redaction.py:191-196 | a discarding stage passes exactly the clean payloads, unchanged, and they are what a covering stage returns |
| Redaction.RedactText | src/tracer_agent/shared/agents/shared/redaction.py:199-205 | one text is returned, covered or refused by its stage's rule |
| Credentials.SuspectMeans | src/tracer_agent/shared/agents/shared/redaction.py:112-152 | a text is suspect if and only if it carries a credential, said on the text as it stands: a word in either case of its ASCII letters, then every skipped space there is, then every body character there is, and enough of them |
| Credentials.CoveredMeans | src/tracer_agent/shared/agents/shared/redaction.py:155-188 | the covered text is the text, character by character, with one marker where a stretch of credentials begins and nothing for the rest of it |
| Credentials.CaseDoesNotMatter | src/tracer_agent/shared/agents/shared/redaction.py:112-114 | texts that differ only in the case of ASCII letters are suspect alike and have the same spans |
| Credentials.NoCapitalsToFold | src/tracer_agent/shared/agents/shared/redaction.py:112-114 | a text without ASCII capitals is its own fold |
| Payloads.SuspectKeyMeans | src/tracer_agent/shared/agents/shared/redaction.py:121-124 | a key name is suspect if and only if its fold has a key word somewhere in it |
| Payloads.CoveredOutsideNames | src/tracer_agent/shared/agents/shared/redaction.py:208-217 | at every place of a payload outside found names: texts covered where values are inspected, what has no form replaced by the marker, all else as it was |
| Payloads.MarkerBehindNames | src/tracer_agent/shared/agents/shared/redaction.py:220-223 | behind a found name there is the marker, whatever was there |
| Payloads.FirstOffenceIsFirst | src/tracer_agent/shared/agents/shared/redaction.py:226-243 | the error is the first of everything that could be reported, in the order of the payload, with its place and its kind |
| Recipes.TouchedPaths | src/tracer_agent/shared/agents/recipe/document.py:11-20 | exactly the paths of the entries that have one |
| Recipes.PathsInOrder | src/tracer_agent/shared/agents/recipe/document.py:11-20 | the paths come in the order of their entries |
| Recipes.PathOf | src/tracer_agent/shared/agents/recipe/document.py:11-20 | an entry with a path gives that path and no other does |
| Recipes.Recipe.constructor | src/tracer_agent/shared/agents/recipe/store.py:117-150 | a recipe is its row |
| Recipes.Recipe.Accept | src/tracer_agent/shared/agents/recipe/models.py:90-96 | only a candidate is accepted; a refusal changes nothing |
| Recipes.Recipe.Dismiss | src/tracer_agent/shared/agents/recipe/models.py:98-104 | only a candidate is dismissed |
| Recipes.Recipe.Retire | src/tracer_agent/shared/agents/recipe/models.py:106-111 | only an active recipe retires, and its resolution time stays |
| Recipes.Recipe.Supersede | src/tracer_agent/shared/agents/recipe/models.py:113-117 | superseding looks at no state |
| Recipes.Recipe.Delete | src/tracer_agent/shared/agents/recipe/models.py:119-128 | only a dismissed or retired recipe is marked deleted |
| Recipes.Recipe.EditByUser | src/tracer_agent/shared/agents/recipe/models.py:130-141 | only the given columns of an active recipe change, and the version rises by one |
| Recipes.TransitionKeeps | src/tracer_agent/shared/agents/recipe/models.py:90-141 | the moves between states, and what every row keeps |
| Recipes.TransitionMeans | src/tracer_agent/shared/agents/recipe/models.py:90-141 | which state each action asks for, where it leads and which times it writes, column by column |
| Recipes.TextOfARow | src/tracer_agent/shared/agents/recipe/models.py:130-141 | over any life each text column holds what the last edit that took and named it gave, and the version counts the edits that took |
| Recipes.LifeOfARow | src/tracer_agent/shared/agents/recipe/models.py:55-141 | over any life: a candidate never comes back, superseded stays, a deleted row never changes, the version counts edits |
| RecipeLedger.Ledger.FindById | src/tracer_agent/shared/agents/recipe/store.py:176-179 | a deleted row is not found |
| RecipeLedger.Ledger.OwnedRecipe | src/tracer_agent/shared/agents/recipe/service.py:44-49 | another user's recipe is refused like a missing one |
| RecipeLedger.Ledger.Save | src/tracer_agent/shared/agents/recipe/store.py:191-280 | the upsert keeps owner and creation time; a request with a known id is dropped |
| RecipeLedger.Ledger.AcceptRecipe | src/tracer_agent/shared/agents/recipe/service.py:122-135 | the child is accepted and its owned parent superseded, each with its request, or nothing changes |
| RecipeLedger.Ledger.DismissRecipe | src/tracer_agent/shared/agents/recipe/service.py:146-154 | as specified, with its request, or refused without a trace |
| RecipeLedger.Ledger.RetireRecipe | src/tracer_agent/shared/agents/recipe/service.py:157-165 | as specified, with its request, or refused without a trace |
| RecipeLedger.Ledger.EditRecipe | src/tracer_agent/shared/agents/recipe/service.py:168-181 | as specified, with its request, or refused without a trace |
| RecipeLedger.Ledger.DeleteRecipe | src/tracer_agent/shared/agents/recipe/service.py:184-193 | as specified, with its request, or refused without a trace |
| RecipeLedger.Ledger.WriteRecipes | src/tracer_agent/worker/agents/recipe_scan/outputs.py:48-74 | a job's candidates are written in order with their requests, unless the job has output already |
| RecipeLedger.SaveAnnounces | src/tracer_agent/shared/agents/recipe/store.py:191-280 | a saved row, from however old a reading, has a new request in the same commit |
| RecipeLedger.SavedMeans | src/tracer_agent/shared/agents/recipe/store.py:191-280 | a saved row is written as given but for owner and creation time, nothing else is touched, and its request asks for it with no attempt yet |
| RecipeLedger.CandidateMeans | src/tracer_agent/worker/agents/recipe_scan/outputs.py:77-124 | a candidate has its draft's columns and its run's user, job and language; it has the recipe it revises as parent, and the next version, if and only if the run saw that recipe at the version it still has |
| RecipeLedger.DoneMeans | src/tracer_agent/shared/agents/recipe/service.py:146-193 | a call is refused as not found unless the recipe is live and the caller's, then by the state it is in; otherwise that row alone moves, with one request for it |
| RecipeLedger.AcceptedMeans | src/tracer_agent/shared/agents/recipe/service.py:122-143 | the child becomes active and a live parent of the same user, whatever its state, is superseded at the same moment, each with its own request; a parent of another user or deleted is left alone |
| RecipeLedger.ScanWritesEach | src/tracer_agent/worker/agents/recipe_scan/outputs.py:62-72 | after a scan's write every draft is there as its own candidate with its own request |
| RecipeLedger.CallAnnounces | src/tracer_agent/shared/agents/recipe/service.py:122-193 | no call changes a recipe without leaving a new request for it |
| RecipeLedger.ScanAnnounces | src/tracer_agent/worker/agents/recipe_scan/outputs.py:62-72 | the same for every candidate a scan writes |
| RecipeLedger.ParentFirst | src/tracer_agent/shared/agents/recipe/service.py:122-135 | acceptance ends with the child active and the parent superseded, all else unchanged |
| RecipeLedger.CallKeeps | src/tracer_agent/shared/agents/recipe/service.py:122-193 | every call touches only the caller's live rows and keeps the lineage |
| RecipeLedger.RunKeepsOneLiveVersion | src/tracer_agent/shared/agents/recipe/service.py:122-193 | over every serial run, an active recipe's parent is never active |
| RecipeLedger.StaleCommitKeepsOneLiveVersionIff | src/tracer_agent/shared/agents/recipe/service.py:146-193 | for every reading however old, every action and every tables at the commit: one live version is kept if and only if the action does not put the row in use, or no row in use revises it and it revises none |
| RecipeLedger.StaleAcceptanceKeepsOneLiveVersionIff | src/tracer_agent/shared/agents/recipe/service.py:122-135 | an acceptance that supersedes its parent keeps it if and only if nothing in use, other than the parent, revises the child |
| RecipeLedger.StaleEditRevivesParent | src/tracer_agent/shared/agents/recipe/service.py:168-181 | one such commit: an edit that read the parent before the acceptance and commits after it makes both active |
| RecipeLedger.JobWritesOnce | src/tracer_agent/worker/agents/recipe_scan/outputs.py:64-66 | one attempt after the other: a job that wrote never writes again, whatever happened to its candidates in between |
| Transactions.TablesInOrder | src/tracer_agent/shared/agents/recipe/service.py:122-193 | tables the calls keep in order are tables the overlapping transactions may start from |
| Transactions.InARowIsTheCall | src/tracer_agent/shared/agents/recipe/service.py:122-193 | moves with nothing in between are the call itself: possible if and only if it is not refused, and leaving exactly its tables |
| Transactions.MoveKeeps | src/tracer_agent/shared/agents/recipe/store.py:176-280 | whatever overlaps, what a transaction found stays a reading of a row that is there, with its parent and its job |
| Transactions.MoveAnnounces | src/tracer_agent/shared/agents/recipe/store.py:191-280 | however old its reading, no commit changes a recipe without leaving a new request for it |
| Transactions.CommitsKeepOneLiveVersionIff | src/tracer_agent/shared/agents/recipe/service.py:122-193 | over every overlap of calls and scans, acceptances writing child and parent included: one live version throughout if and only if every commit is harmless where it lands |
| JobOutput.JobWritesAgainIff | src/tracer_agent/worker/agents/recipe_scan/outputs.py:62-72 | over every overlap: an attempt adds to candidates already there if and only if it saw none when it looked and another attempt wrote between its look and its write |
| JobOutput.OverlappingAttemptsWriteTwice | src/tracer_agent/worker/agents/recipe_scan/outputs.py:62-72 | two attempts that both look before either writes leave two sets of candidates |
| Outbox.CommittedRecipe | src/tracer_agent/shared/agents/recipe/outbox.py:74-105 | after a commit a recipe is as it was or has a request nobody has fetched |
| Outbox.CommitKeeps | src/tracer_agent/shared/agents/recipe/store.py:268-280 | a writer's commit keeps the agreement |
| Outbox.WriteKeeps | src/tracer_agent/shared/agents/recipe/outbox.py:85-104 | so does an index write, taken or not, answered or not |
| Outbox.SettleKeeps | src/tracer_agent/shared/agents/recipe/outbox.py:78-82 | so does dropping or marking a row |
| Outbox.FinishKeeps | src/tracer_agent/shared/agents/recipe/outbox.py:44-49 | so does committing a drain |
| Outbox.AbortKeeps | src/tracer_agent/shared/agents/recipe/outbox.py:44-49 | so does rolling one back |
| Outbox.RunKeeps | src/tracer_agent/shared/agents/recipe/outbox.py:44-104 | in every reachable world each recipe's document is right or a request for it is pending |
| Outbox.NothingYetIsFine | src/tracer_agent/shared/agents/recipe/outbox.py:44-104 | empty tables and an empty index are in agreement |
| Outbox.EmptyOutboxMeansFresh | src/tracer_agent/shared/agents/recipe/outbox.py:44-104 | with an empty outbox the active documents are exactly the active, undeleted recipes |
| Outbox.AgreesMeans | src/tracer_agent/shared/agents/recipe/document.py:23-39 | a recipe is in agreement if and only if the index holds a document whose every field is the row's own column, or none once it is deleted |
| Outbox.SettledRecipesShow | src/tracer_agent/shared/agents/recipe/outbox.py:44-104 | over every run, a recipe without a request shows in the index column by column, and a deleted one not at all |
| Outbox.FinishedRows | src/tracer_agent/shared/agents/recipe/outbox.py:74-83 | what a pass leaves of its batch has one more attempt and is marked failed, and what was not in it is as it was |
| Outbox.CallIsACommit | src/tracer_agent/shared/agents/recipe/service.py:122-193 | every call of the service is such a commit |
| Outbox.StaleSaveIsACommit | src/tracer_agent/shared/agents/recipe/store.py:191-280 | and so is writing a row read long ago |
| Outbox.SearchOutboxDrain.WritersCommit | src/tracer_agent/shared/agents/recipe/service.py:122-193 | other writers' commits between statements are a run of the machine |
| Outbox.SearchOutboxDrain.FindBatch | src/tracer_agent/shared/agents/recipe/store.py:96-101 | the oldest rows, at most the limit |
| Outbox.SearchOutboxDrain.ApplyRow | src/tracer_agent/shared/agents/recipe/outbox.py:85-104 | one row's lookup, write and settlement among other writers is a run of the machine, and succeeds if and only if everything answered |
| Outbox.SearchOutboxDrain.DrainRows | src/tracer_agent/shared/agents/recipe/outbox.py:74-83 | every row is dropped or marked by its outcome, and the count is of the dropped ones |
| Outbox.CountIsOfTheDropped | src/tracer_agent/shared/agents/recipe/outbox.py:74-83 | the number a drain returns is how many requests it dropped |
| Outbox.SearchOutboxDrain.DrainBatch | src/tracer_agent/shared/agents/recipe/outbox.py:74-83 | the whole loop over the oldest rows is a run of the machine |
| Outbox.SearchOutboxDrain.RunOnce | src/tracer_agent/shared/agents/recipe/outbox.py:44-72 | without the lock nothing happens; otherwise the outcome is committed, or rolled back by a crash |
| Outbox.CleanPassShrinks | src/tracer_agent/shared/agents/recipe/outbox.py:74-83 | a pass the index takes shortens the outbox by a whole batch |
| Outbox.SearchOutboxDrainScheduler.Loop | src/tracer_agent/shared/agents/recipe/outbox.py:106-138 | any number of periods, crashed ones too, is a run of the machine; clean ones leave exactly what their batches have no room for, and an empty outbox means a right index |
| Outbox.PassesEmptyIff | src/tracer_agent/shared/agents/recipe/outbox.py:64-83 | clean passes empty the outbox if and only if their batches together have room for it |
| Outbox.HeadIsTheBatch | src/tracer_agent/shared/agents/recipe/store.py:96-101 | a full head of older requests is the whole of the next batch |
| Outbox.FailingHeadStarvesTheRest | src/tracer_agent/shared/agents/recipe/store.py:96-109 | while the index answers no write for a full head of older requests, nothing behind it is ever in a batch, over every run and whatever is answered elsewhere |
| Outbox.AHeadComesAbout | src/tracer_agent/shared/agents/recipe/store.py:96-109 | from an empty outbox scans of different jobs, one candidate each, make such a head with a later request waiting behind it |
| Outbox.FetchedForSureIff | src/tracer_agent/shared/agents/recipe/store.py:96-101 | a request is in every next batch if and only if fewer than a batch of others are at most as late |
| Outbox.FetchedPerhapsIff | src/tracer_agent/shared/agents/recipe/store.py:96-101 | it is in some next batch, as ties fall, if and only if fewer than a batch of others are earlier |
| Outbox.WithoutTheLockTheIndexGoesStale | src/tracer_agent/shared/agents/recipe/outbox.py:44-54 | without the lock two drainers can leave an empty outbox and a stale document |
| ChatLedger.Ledger.ClaimQueued | src/tracer_agent/shared/agents/chat/execution_ledger.py:202-209 | claimed, stale or busy, as the guarded update and the one-seat index say |
| ChatLedger.Ledger.RecoverStaleRunning | src/tracer_agent/shared/agents/chat/execution_ledger.py:190-200 | every idle running row of the thread goes back, and the count is theirs |
| ChatLedger.Ledger.BeginAttempt | src/tracer_agent/shared/agents/chat/execution_ledger.py:211-214 | the attempt is raised and the draft emptied, unless a later attempt has begun |
| ChatLedger.Ledger.CheckpointRunning | src/tracer_agent/shared/agents/chat/execution_ledger.py:216-229 | a draft is stored only for the current attempt and only forward |
| ChatLedger.Ledger.CompleteRunning | src/tracer_agent/shared/agents/chat/execution_ledger.py:231-238 | closed only from running, with a succeeded report of its own user or no report |
| ChatLedger.Ledger.RecordCanceledOutcome | src/tracer_agent/shared/agents/chat/execution_ledger.py:240-247 | an answer is recorded once on a canceled row, or cancels a running one that reported so |
| ChatLedger.Ledger.FailActive | src/tracer_agent/shared/agents/chat/execution_ledger.py:249-252 | failed only from queued, or from running as the reports allow |
| ChatLedger.Ledger.CancelActive | src/tracer_agent/shared/agents/chat/execution_ledger.py:254-257 | canceled only from queued, or from running as the reports allow |
| ChatLedger.Ledger.InsertObservationValues | src/tracer_agent/worker/agents/chat/execution_writer.py:145-167 | a report is stored once for an attempt; anything else is refused without a trace |
| ChatLedger.Ledger.InsertSteps | src/tracer_agent/worker/agents/chat/execution_writer.py:100-101 | steps already there for the same attempt and number stay |
| ChatLedger.Ledger.FinalizeTurn | src/tracer_agent/worker/agents/chat/execution_writer.py:92-138 | all tables are written, or only the report, or the exception leaves everything as it was |
| ChatLedger.Activities.TakeRunningSeat | src/tracer_agent/worker/workflows/chat_activities.py:198-209 | the two claims and the recovery among any other statements are a run of the machine, and undisturbed they do what is specified |
| ChatLedger.SeatedIff | src/tracer_agent/worker/workflows/chat_activities.py:198-209 | undisturbed, a queued row gets its seat if and only if every holder of its thread's seat has gone stale |
| ChatLedger.Activities.Claim | src/tracer_agent/worker/workflows/chat_activities.py:186-196 | whatever others do in between, who is given a row is given a running one, the only running one of its thread |
| ChatLedger.RowUpdated | src/tracer_agent/shared/agents/chat/execution_ledger.py:48-156 | a guarded update of an unanswered row keeps the invariant and advances the row |
| ChatLedger.FinalizeStep | src/tracer_agent/worker/agents/chat/execution_writer.py:92-138 | so does the closing transaction |
| ChatLedger.DeleteStep | src/tracer_agent/shared/agents/chat/surface/ledger.py:160-167 | so does deleting a thread |
| ChatLedger.StepKeeps | src/tracer_agent/shared/agents/chat/execution_ledger.py:34-156 | every statement keeps: one running execution a thread, an answer exactly when its message is there, a succeeded report for every completed row |
| ChatLedger.RunKeeps | src/tracer_agent/shared/agents/chat/execution_ledger.py:34-156 | over every interleaving: that, and final statuses never change, attempts never decrease, answers, steps and reports never change |
| ChatLedger.NothingYetIsFine | src/tracer_agent/shared/agents/chat/execution_ledger.py:34-156 | empty tables are in order |
| ChatRecords.ClaimMeans | src/tracer_agent/shared/agents/chat/execution_ledger.py:202-209 | when a claim is had, stale or busy, and the columns it writes |
| ChatRecords.RecoverMeans | src/tracer_agent/shared/agents/chat/execution_ledger.py:34-46 | which rows go back to the queue, and the columns that are written |
| ChatRecords.BeginMeans | src/tracer_agent/shared/agents/chat/execution_ledger.py:55-64 | when an attempt begins, and the columns it writes |
| ChatRecords.CheckpointMeans | src/tracer_agent/shared/agents/chat/execution_ledger.py:66-71 | when a draft is stored, and the columns it writes |
| ChatRecords.CompleteMeans | src/tracer_agent/shared/agents/chat/execution_ledger.py:73-96 | when a row completes, by its status and its reports, and the columns it writes |
| ChatRecords.RecordCanceledMeans | src/tracer_agent/shared/agents/chat/execution_ledger.py:98-120 | when a canceled outcome is recorded, and the columns it writes |
| ChatRecords.FailMeans | src/tracer_agent/shared/agents/chat/execution_ledger.py:122-138 | when a row fails, and the columns it writes |
| ChatRecords.CancelMeans | src/tracer_agent/shared/agents/chat/execution_ledger.py:140-156 | when a row is canceled, and the columns it writes |
| ChatRecords.ObserveMeans | src/tracer_agent/worker/agents/chat/execution_writer.py:145-167 | a report is kept as it came under its execution and attempt, or refused for the reason that holds |
| ChatRecords.AcceptMeans | src/tracer_agent/shared/agents/chat/intake/ledger.py:80-107 | a new turn waits in the queue with nothing of a run in it |
| ChatRecords.DeleteMeans | src/tracer_agent/shared/agents/chat/surface/ledger.py:160-167 | deleting a thread takes the thread, its messages, its executions and their steps, and nothing else |
| ChatRecords.MessageMeans | src/tracer_agent/worker/agents/chat/execution_writer.py:130-138 | the message holds the text and the tool calls of the answer, in its thread if it is new; no other message moves |
| ChatRecords.AcceptedIsRecorded | src/tracer_agent/worker/agents/chat/execution_writer.py:92-138 | an accepted outcome leaves the row closed with its spend, the message with its text and calls, the first of its steps of each number, and its thread stamped |
| ChatRecords.OutcomeStaysRecorded | src/tracer_agent/worker/agents/chat/execution_writer.py:92-138 | and over every later run all of that stays as long as the row is there |
| ChatLedger.AnsweredForGood | src/tracer_agent/worker/agents/chat/execution_writer.py:92-106 | once answered, no later finalization touches the row, its message, its steps or its thread |
| ChatLedger.AnsweredAtMostOnce | src/tracer_agent/worker/agents/chat/execution_writer.py:92-138 | no run accepts two answers for one execution |
| ChatLedger.Redelivered | src/tracer_agent/worker/agents/chat/execution_writer.py:145-167 | delivering an accepted turn again is a no-op if and only if its report has no time to first token; otherwise it is refused |
| ChatLedger.NewAttemptAlwaysCloses | src/tracer_agent/worker/agents/chat/execution_writer.py:92-138 | a running execution can always be closed by the report of a new attempt |
| ChatLedger.ReportedNeedsAReport | src/tracer_agent/shared/agents/chat/execution_ledger.py:122-156 | once any attempt has reported, cancelling or failing a running row takes if and only if a report of that kind is there |
| Drafts.DraftPublisher.constructor | src/tracer_agent/worker/agents/chat/drafts.py:89-103 | a publisher starts empty |
| Drafts.DraftPublisher.Enqueue | src/tracer_agent/worker/agents/chat/drafts.py:153-160 | the covered whole text joins the chain with its number |
| Drafts.DraftPublisher.Push | src/tracer_agent/worker/agents/chat/drafts.py:105-116 | a piece is accumulated, and sent once the interval has passed |
| Drafts.DraftPublisher.PushTool | src/tracer_agent/worker/agents/chat/drafts.py:118-125 | a tool's name is accumulated and sent at once |
| Drafts.DraftPublisher.MarkPhase | src/tracer_agent/worker/agents/chat/drafts.py:127-138 | a phase change is sent, but never from responding back to thinking |
| Drafts.DraftPublisher.DeliverNext | src/tracer_agent/worker/agents/chat/drafts.py:162-208 | one delivery reaches the ledger or not, and closes the publisher only when told the execution is over |
| Drafts.DraftPublisher.Flush | src/tracer_agent/worker/agents/chat/drafts.py:140-147 | the whole chain is sent among any other statements on the ledger, the text stays, and only then a closed publisher raises: it does if and only if it is closed, which means the execution is over |
| Drafts.FlushStoresTheWhole | src/tracer_agent/worker/agents/chat/drafts.py:140-147 | while the attempt runs and nothing else happens on the ledger, a flush whose last delivery gets through leaves the whole covered text and does not close, whatever became of the deliveries before |
| Drafts.CallKeeps | src/tracer_agent/worker/agents/chat/drafts.py:105-160 | every call, and what a flush adds before it waits, keeps numbers rising along the chain and texts covered |
| Drafts.RunKeepsDrafts | src/tracer_agent/worker/agents/chat/drafts.py:86-208 | over every interleaving the stored draft is the covered text of its own attempt's publisher at the stored number |
| Drafts.ReachingStores | src/tracer_agent/shared/agents/chat/execution_ledger.py:66-71 | a delivery of the running attempt that reaches the ledger is never refused, whatever was lost before |
| DraftTexts.PublishersFollow | src/tracer_agent/worker/agents/chat/drafts.py:105-160 | over every run each publisher holds the pieces and tool lines of its own calls in the order they were made, with their numbers and phase, and has sent exactly what those calls and their times call for |
| DraftTexts.StoredDraftIs | src/tracer_agent/worker/agents/chat/drafts.py:105-208 | the stored draft is the covered answer as it stood when it had the stored number |
| DraftTexts.DeliveryMeans | src/tracer_agent/worker/agents/chat/drafts.py:162-208 | when a delivery is stored and what it writes; a publisher closes if and only if it hears that its delivery was not taken and the execution is over |
| Drafts.FlushedIsWhole | src/tracer_agent/worker/agents/chat/drafts.py:140-147 | if the last delivery made was stored and the chain is flushed, the ledger holds the whole covered text, whatever was lost before |
| Drafts.OlderAttemptIsSilent | src/tracer_agent/shared/agents/chat/execution_ledger.py:55-71 | once a newer attempt has begun, an older one's deliveries change nothing |
| Drafts.StoredDraftIsClean | src/tracer_agent/worker/agents/chat/drafts.py:157-160 | with a marker that cleans, no stored draft carries a credential |
| Drafts.GivesUpOnlyWhenClosed | src/tracer_agent/worker/agents/chat/drafts.py:181-208 | a publisher gives up only once the ledger has closed the execution |
| Drafts.ReusedNumberLetsTheOldTextIn | src/tracer_agent/shared/agents/chat/execution_ledger.py:55-71 | with two publishers of one number, the older text can overwrite and shut out the newer |
| Confirmation.StepKeeps | src/tracer_agent/shared/agents/chat/surface/resolution.py:108-197 | every statement of every request keeps: one claim, one returned call, one message, one turn |
| Confirmation.RunKeeps | src/tracer_agent/shared/agents/chat/surface/resolution.py:85-197 | over every interleaving: that, no call starts after a rejection, and nothing moves once the message is there |
| ConfirmationRecords.ConversationTells | src/tracer_agent/shared/agents/chat/surface/resolution.py:85-197 | over every run from a waiting row: the messages are the results and rejection notes of the requests recorded, an approval recorded sets up a turn unless one waits, and the row is as the last claim or reopening left it |
| ConfirmationRecords.ClaimMeans | src/tracer_agent/shared/agents/chat/surface/resolution.py:108-130 | why a request is refused, and that a claim is had if and only if the row still waits |
| Confirmation.FreshRowIsFine | src/tracer_agent/shared/agents/chat/surface/resolution.py:85-106 | a waiting row nobody has decided is in order |
| Confirmation.ReopeningUndoesAnApproval | src/tracer_agent/shared/agents/chat/surface/resolution.py:144-148 | the row goes back to waiting only from an approval, by its own request, after its call failed |
| Confirmation.AbandonedForGood | src/tracer_agent/shared/agents/chat/surface/resolution.py:94-106 | a decision whose requests all died is never asked again and never answered |
| Confirmation.AnswerableIff | src/tracer_agent/shared/agents/chat/surface/resolution.py:85-106 | an unanswered confirmation can still be answered if and only if it waits or some request still holds the claim |
| Confirmation.ActsOnceUnlessAnAnswerIsLost | src/tracer_agent/shared/agents/chat/surface/resolution.py:141-148 | in every run in which no call fails after acting, though requests may die, the tool acts at most once, and having acted cannot act again |
| Confirmation.ActsAgainIff | src/tracer_agent/shared/agents/chat/surface/resolution.py:108-148 | from every reachable world, however often the tool has acted: some continuation makes it act again if and only if the row waits or some approval has yet to call, is calling or is about to reopen |
| Confirmation.LostAnswerActsTwice | src/tracer_agent/shared/agents/chat/surface/resolution.py:141-148 | from every world with an approved call under way: if it acts, fails and reopens, a further approval makes the tool act again |
| Confirmation.Resolution.Claim | src/tracer_agent/shared/agents/chat/surface/resolution.py:108-130 | the row's own update decides who holds the claim, not the reading before it |
| Confirmation.Resolution.Decide | src/tracer_agent/shared/agents/chat/surface/resolution.py:132-148 | a rejection calls nothing; a failed call gives the claim back |
| Confirmation.Resolution.Resolve | src/tracer_agent/shared/agents/chat/surface/resolution.py:85-106 | one request among any others is a run of the machine; an answer is the tool's result or the rejection note, and is in the conversation |
| Replay.FindPlace | src/tracer_agent/shared/agents/chat/surface/replay.py:84-89 | the first row with the id, or none |
| Replay.AnsweredCallIds | src/tracer_agent/shared/agents/chat/surface/replay.py:110-119 | exactly the declared ids answered before any other role |
| Replay.PairedCallIds | src/tracer_agent/shared/agents/chat/surface/replay.py:92-101 | exactly the ids of the rows whose every call is answered |
| Replay.BuildChatReplay | src/tracer_agent/shared/agents/chat/surface/replay.py:35-45 | the assembled replay is the specified one |
| ReplayWindows.ReplayIs | src/tracer_agent/shared/agents/chat/surface/replay.py:35-62 | there is a replay if and only if the anchor is there; it is made of the longest run of rows that ends with the anchor, lies after the fold point and keeps to the ceiling |
| ReplayWindows.AnchorIsLast | src/tracer_agent/shared/agents/chat/surface/replay.py:48-62 | with a ceiling and the fold point before the anchor, the anchor's own row comes last |
| ReplayWindows.RowSaysReplayed | src/tracer_agent/shared/agents/chat/surface/replay.py:104-135 | what each row says: an answer or a note, a request with its calls that are in a pair, a text, or nothing |
| ReplayWindows.FoldsIff | src/tracer_agent/shared/agents/chat/summary_spec.py:43-49 | something is folded if and only if the thread is past a threshold in messages or in text and has more turns than are kept |
| Replay.AllOrNothing | src/tracer_agent/shared/agents/chat/surface/replay.py:122-135 | a row's calls are replayed whole or not at all |
| Replay.ReplayIsWellPaired | src/tracer_agent/shared/agents/chat/surface/replay.py:35-142 | with call ids declared once and answered once, wherever anchor, summary and ceiling cut: every call list is followed at once by all its answers, every answer follows its list |
| Replay.TextIsKept | src/tracer_agent/shared/agents/chat/surface/replay.py:122-135 | no text of the window is lost, in order |
| Replay.SecondAnswerBreaksPairing | src/tracer_agent/shared/agents/chat/surface/replay.py:122-129 | a second answer further on is replayed as an answer nobody asked for there |
| Replay.SelectMessagesToKeep | src/tracer_agent/shared/agents/chat/surface/replay.py:65-75 | the countdown returns the specified suffix |
| Replay.SelectMessagesToFold | src/tracer_agent/shared/agents/chat/surface/replay.py:78-81 | and folding takes the rest |
| Replay.KeptIsLongest | src/tracer_agent/shared/agents/chat/surface/replay.py:65-75 | the kept suffix is the longest with at most so many rows that are not tool results |
| Replay.FoldedAndKept | src/tracer_agent/shared/agents/chat/surface/replay.py:78-81 | folded and kept are the history |
| Replay.FoldAndReplayMeet | src/tracer_agent/shared/agents/chat/surface/replay.py:48-62 | reading after the fold point gives the kept rows and whatever came later; a turn anchored before it reads everything |
| Replay.ChatThread.Project | src/tracer_agent/worker/agents/chat/summary.py:71-99 | a projection writes the summary and the last folded row's id together, or nothing, and the next reading continues there |
| Replay.NothingFallsBetween | src/tracer_agent/worker/agents/chat/summary.py:71-100 | over any interleaving the rows the stored summary was made from, and what reading after the stored id gives, are the history |
| Replay.FoldGoesBackIff | src/tracer_agent/worker/agents/chat/summary.py:71-100 | over any statements between a projection's reading and its write: the write moves the fold point back if and only if the last write in between folded more rows |
| Replay.FoldFallsBehindIff | src/tracer_agent/worker/agents/chat/summary.py:71-100 | and leaves it behind a point it had reached since the reading if and only if some write in between folded more rows |
| Replay.SerialFoldsMoveForward | src/tracer_agent/worker/agents/chat/summary.py:71-100 | one projection at a time, the fold point only moves forward |
| Replay.InterleavedFoldsGoBack | src/tracer_agent/worker/agents/chat/summary.py:71-100 | two projections at once can move it back |
| Replay.TruncatedIff | src/tracer_agent/shared/agents/chat/surface/replay.py:21-32 | `truncated` holds if and only if the ceiling or the summary cut something |
| Replay.OrdinaryFoldLooksTruncated | src/tracer_agent/shared/agents/chat/surface/replay.py:21-32 | so an ordinary fold within the ceiling is reported as truncated |

## Left out

- Drivers: HTTP, Kafka, Temporal, LangGraph, LangChain, Postgres, OpenSearch. Only their step semantics are kept: atomic commits, an exclusive lock, a barrier after the fan-out, deliveries in order.
- Model behaviour, prompts, token counting, pricing tables, telemetry and wall-clock timeouts: a call returns any turns, cost and draft.
- Floating point: dollars are reals, and the floor in the apportionment is exact integer division.
- Resuming a scan from a checkpoint, and node retries: the claims are about what the recorded channels hold.
- The wording of a scan's reasons, probe verdict texts and salvaging of rejected reports: which reason holds is modelled, its text is not.
- The sibling list of a probe and the check for duplicate slots in a plan: they change no budget and no route.
- Provenance.ValidateRecipeCandidate: says which errors are reported, not in which order, because routing asks only whether there are any.
- The other backend axis that shares the tables, and the filter on it. Generated ids are assumed new, as their callers make them.
- Index writes that take effect after their request has ended, and a lock lost while a write is under way.
- Reading the recipe inside a drain is one committed reading of one row; other isolation levels are not modelled.
- Recipe applications, outcome statistics, listing, searching and views: easy, and no other property needs them.
- RecipeLedger.RunKeepsOneLiveVersion: holds for transactions one after the other, because a stale edit breaks it (`StaleEditRevivesParent`); what commits of older readings keep is `Transactions.CommitsKeepOneLiveVersionIff`.
- RecipeLedger.JobWritesOnce: holds for attempts one after the other, because attempts that overlap can both write; when they do is `JobOutput.JobWritesAgainIff`.
- A scan's write looks its parents up at its commit; a parent found earlier in the same write would give the same lineage.
- ChatLedger.DeleteStep: deleting a thread is one step; a turn that closes between two statements of that transaction is not modelled.
- Rows of a conversation arrive in the order of their creation times, so a row never lands inside what was already read or folded.
- Idempotency keys of accepted turns, wake-ups and thread workflow timing: only the ledger's own guards are modelled.
- The fold of key names before comparison (case folding, alphanumerics) is a parameter of the redaction stage, and so is the path text of its errors beyond the sequence of keys and indices.
- The strip of a summary's text is part of the given summarizer function in `Replay.ChatThread.Project`.
- Confirmation proposals, tool argument planning and dispatch after a confirmation.
- Task-cleanup and title graphs: the same budget and tail, with some nodes not part of this model.
