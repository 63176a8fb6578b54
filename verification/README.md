# Verified models of the KuaiRand agent

Two cores of the repository are modelled and proved here. They meet at the official score.

**The crash-safe campaign protocol.** A training launch is reserved, gets an execution row, receives its process
receipt, is marked started, and only then is its candidate let go; afterwards the execution ends and the launch is
settled. The process may die between any two durable writes, a write may be refused, and a write may land without its
caller learning so. `CampaignProtocol` is the transition system of these steps, with the real releases of candidates
recorded beside the database; `CampaignInvariant` and `CampaignSafety` prove what holds over all runs.
`CampaignStore`, `CandidateJournal` and `Restart` are the imperative code: each object keeps a ghost trace, and its
validity says that this trace is a run of the transition system, so every theorem about runs is a theorem about the
methods, however they are called and wherever they are cut off. A second ghost field counts the writes that failed or
whose outcome was lost; where it has not moved, each method's outcome is fixed, so that none may give up for nothing.
`CandidateAdmission` says when a candidate may start in terms of its policy and the stored launches. `Reconciliation`
says on values what a restart has to leave behind, `RestartAccounting` and `ReportUniqueness` what becomes of its
reports when restarts are cut short. `Budgets`, `BudgetManifest` and `LedgerRebuild` are the launch ledger, its
manifest and its reconstruction from the store, `BudgetLaws` the ledger's operations in plain counts, and
`UnadmittedLaunches` says when launches reserved without admission keep it from being rebuilt; `Convergence`,
`Clock`, `DeadlineChain` and `CampaignLifecycle` are the machines that drive the campaign to its end.

**The ranking metric and what is built to match it.** `Auc`, `Ndcg` and `Evaluate` prove that the official loops
compute a plain count over pairs and per-user means, and which changes of the input they cannot see; `TieOrder` says
exactly when the order of the rows is one of them, and `MetricLaws` writes the three metrics out as sums over rows.
`Numpy`, `Blocks`, `Grouping`, `PairLayout`, `PairOrder`, `PairExpectation`, `PairSampler` and `WithinUserPairs` prove
that two separately written samplers draw exactly the pairs that GAUC measures, which pair each draw names, and that
their exact expectation is GAUC. `FactorizationMachine` and `DenseFactorization` prove the interaction identity and
that the hand-written gradients are exact differences, `FactorizationLaws` gives logits and gradients component by
component; `Encoding` proves that the column-wise encoder and the organizer's loop write the same matrix,
`EncodingLaws` computes every id from the rows, and `EncodedTraining` joins encoding and training. `EarlyStopping`
proves that the trusted training loop stops where the organizer's does.

Numbers that are floats in the source are real numbers here. Random draws are arbitrary in-range integers, or sums
over all of them. `log2(i + 2)` stands for any positive strictly increasing sequence. Digests are the values they
name. Calls into NumPy are functions with the documented result (stable `argsort`, `unique`, `searchsorted`,
`bincount`, `cumsum`, `flatnonzero`).

Five things the proofs bring out:

- The safety of NOT_STARTED does not rest on the runner's report being complete. A late interrupt may make the
  runner report "not released" for a candidate that was released; the launch is then STARTED already, so it ends
  FINISHED and stays charged. Only the converse, that a reported release did happen, is used.
- `reconstruct_budget_ledger` succeeds on a reachable store exactly while at most fifty iterations are closed and the
  screening launches fit under their ceiling (`CampaignSafety.ReachableLedgers`). The journal's own reservations
  always fit, but those of the research loop ask for no admission: a campaign has a run that overruns this ceiling,
  so that nothing new is admitted any more, if and only if its launch limit exceeds the ceiling by more than the six
  qualification launches (`UnadmittedLaunches.OverrunsExactly`). With the default ceiling of twenty and the default
  limit of fifty it does.
- The convergence rule itself has no cap of fifty iterations: it can close 9000 and no more
  (`Convergence.ResearchEnds`, `Convergence.BoundIsAttained`). The cap is enforced by the research loop.
- A restart that ends between the last write of a repair and its report loses that one report for good, and some
  run of every campaign does so (`ReportUniqueness.OneReportLost`). That is the only way to lose one: over any number
  of restarts the findings are exactly those reported, owed, still there to be found, and lost, at most one for each
  restart that is cut short (`RestartAccounting.RecoveryAccounts`), and the reports of a completed recovery are
  complete if and only if no restart ended at that point (`RestartAccounting.ReportsCompleteExactly`). Nothing is
  reported twice (`ReportUniqueness.NoRepairIsReportedTwice`), and the final store is the same
  (`Restart.InterruptedRestartsConverge`).
- The nDCG, and with it the primary score, depends on the order of the rows, but only through ties: the metrics are
  the same for every order if and only if no user has tied rows of both labels that begin within the first k ranked
  places (`TieOrder.RowOrderExactly`). GAUC never depends on it (`Evaluate.GaucPermutation`).

## Model

| member | source | states |
|---|---|---|
| CampaignInvariant.RunsKeepInv | src/kuairand_agent/campaign/candidate_journal.py:367-682 | in every reachable state of prepare, commit, release, finish, rehydrate, restart and crash: charged means not NOT_STARTED, a released candidate has a receipt and a launch at least started, NOT_STARTED belongs to a failed execution never released, launches are numbered 1..n with the six imported ones first, and the charges stay within the limit and, but for launches that the research loop reserves without admission, within every ceiling |
| CampaignInvariant.StepKeepsInv | src/kuairand_agent/campaign/candidate_journal.py:389-682 | each single step, one durable write at a time, keeps that invariant |
| CampaignSafety.ReleasedIsAlwaysCharged | src/kuairand_agent/campaign/candidate_journal.py:461-518 | a training candidate released at any time of a run owns, from then on, a launch that exists, is charged and has started; before the release the launch is charged from the moment it exists |
| CampaignSafety.ReleaseComesAfterStart | src/kuairand_agent/campaign/candidate_journal.py:489-518 | in the very step that releases a candidate its execution is RUNNING with a receipt and its launch is already durably STARTED, charged and carrying a receipt |
| CampaignSafety.NotStartedIsNeverReleased | src/kuairand_agent/campaign/candidate_journal.py:658-681 | a launch that is NOT_STARTED at any time belongs to a candidate that is released at no time of the run, earlier or later |
| CampaignSafety.NotStartedOnlyFromReserved | src/kuairand_agent/campaign/store.py:56-62 | NOT_STARTED is entered from RESERVED only |
| CampaignSafety.ReleasesStayWithinBudget | src/kuairand_agent/campaign/candidate_journal.py:389-454 | over any run with any crashes, at most the launch limit less six training candidates are ever released |
| CampaignSafety.StepProgress | src/kuairand_agent/campaign/store.py:1750-1828 | every launch move of every step is in the store's transition table, and no record is dropped, renamed or renumbered |
| CampaignSafety.TerminalRecordsStay | src/kuairand_agent/campaign/store.py:2285-2439 | settled launches and finished executions, with their results, never change again |
| CampaignSafety.RunsKeepEvidence | src/kuairand_agent/campaign/candidate_journal.py:529-582 | at no time of any run is a result recorded without exactly the artifact roles that its action and outcome demand, each of its kind, with the manifest and the two logs of that very result |
| CampaignSafety.LaunchNumbersAreForGood | src/kuairand_agent/campaign/store.py:1709-1716 | a launch number means the same launch at all times of a run |
| CampaignSafety.RebuiltLedgerIsValid | src/kuairand_agent/campaign/candidate_journal.py:141-207 | in a reachable state the ledger rebuilt from the store is valid exactly while at most fifty iterations are closed and the screening launches fit under their ceiling, which they do unless the research loop has reserved some without admission; its charges are the charged launches in order with the six qualification charges first |
| CampaignSafety.ReachableLedgers | src/kuairand_agent/campaign/candidate_journal.py:141-207 | the same at every point of every run, the research loop's unadmitted reservations included; the charges never pass the launch limit, nor any category's effective ceiling but that of screening launches, and that one only after such a reservation |
| UnadmittedLaunches.OverrunsExactly | src/kuairand_agent/research/loop.py:583-605 | a campaign has a run that closes at most fifty iterations and leaves a store from which the ledger cannot be rebuilt, if and only if its launch limit exceeds the screening ceiling by more than six |
| UnadmittedLaunches.BeginReservation | src/kuairand_agent/research/loop.py:583-605 | the research loop's reservation looks at the launch limit only: below it the launch is reserved and charged, under its own number, key, category and terms, whatever the ledger says; at it nothing changes; a retry is acknowledged only for the same key, source and terms; only a failing write can change this |
| CampaignSafety.ChargedLaunchIsCounted | src/kuairand_agent/campaign/candidate_journal.py:156-181 | every charged launch appears among the rebuilt charges, at the place that the charged launches before it determine |
| LedgerRebuild.Reconstruct | src/kuairand_agent/campaign/candidate_journal.py:141-207 | the loop over the charged records computes the ledger that the store denotes, or raises for a bad attribution or misplaced qualification charges |
| LedgerRebuild.RebuildsExactly | src/kuairand_agent/campaign/candidate_journal.py:141-207 | the rebuild succeeds if and only if every charged launch kept its category or is a repair that remembers another one, the imported charges are exactly the first six, and the ledger is valid |
| LedgerRebuild.ChargeOwner | src/kuairand_agent/campaign/candidate_journal.py:157-181 | the i-th rebuilt charge names a charged launch, preceded by exactly i charged launches: gaps are compacted, order kept |
| LedgerRebuild.RebuiltExactly | src/kuairand_agent/campaign/candidate_journal.py:141-207 | a rebuilt ledger has the store's iterations, transfers and limit, and each charge the number, purpose, categories, repair mark and origin of its launch |
| LedgerRebuild.ChargesDistinct | src/kuairand_agent/campaign/candidate_journal.py:171-181 | no launch is charged twice |
| LedgerRebuild.ChargesShrink | src/kuairand_agent/campaign/candidate_journal.py:144-148 | releasing charges never raises the total or any category's usage |
| CampaignStore.CampaignStore.ReserveLaunch | src/kuairand_agent/campaign/store.py:1632-1748 | a retry whose launch exists changes nothing; a new key reserves and charges the next number or changes nothing |
| CampaignStore.CampaignStore.TransitionLaunch | src/kuairand_agent/campaign/store.py:1750-1828 | a retry into the state already held appends nothing and is acknowledged exactly if it repeats receipt and metadata; an illegal move or STARTED without any receipt changes nothing; otherwise exactly one launch gets its new state and charge, or the call is refused, unacknowledged or the last of its process |
| CampaignStore.CampaignStore.ReceiptExecution | src/kuairand_agent/campaign/store.py:2285-2439 | RUNNING is entered only from STARTING, with the receipt |
| CampaignStore.CampaignStore.EndExecution | src/kuairand_agent/campaign/store.py:2285-2439 | a terminal status is entered only from the active status that the caller saw; a retry writes nothing and is acknowledged exactly if it repeats status, result and finish time |
| CandidateJournal.CandidateJournal.Prepare | src/kuairand_agent/campaign/candidate_journal.py:297-487 | success gives a fresh STARTING execution on a RESERVED charged launch with the policy's category and origin and the terms of policy and request; a start that needed admission has its p95 and cleanup time left, research the reserve besides; a refusal names the first limit that binds, deadline before reserve before caps; without a failing write the outcome is determined by the store and the times; an earlier reservation is reused without a second charge; no other record changes |
| CandidateJournal.CandidateJournal.ReserveFor | src/kuairand_agent/campaign/candidate_journal.py:391-454 | a missing reservation is made exactly when the request is well formed and admitted in the time left and by the rebuilt ledger, under the policy's own category, origin and terms; an existing one is reused only if it is this request's own, RESERVED and charged; only a failing write can prevent either |
| CandidateAdmission.StartExactly | src/kuairand_agent/campaign/candidate_journal.py:367-487 | when a candidate may start, in full: it is new and its request well formed, and either a stored launch is RESERVED and charged for just this request, or the request is admitted by the time left and the counts of charged launches |
| CandidateAdmission.AdmissionExactly | src/kuairand_agent/campaign/candidate_journal.py:391-454 | a well-formed new request is admitted if and only if its p95 and cleanup time are left, for research with the reserve left over, the ledger can be rebuilt, and for training the charged launches, counted in the store, are below the launch limit and below the ceiling of the category |
| CandidateAdmission.RefusalExactly | src/kuairand_agent/campaign/budgets.py:340-380 | each refusal reason occurs exactly when its own limit binds and none before it in the order deadline, reserve, launch cap, category cap |
| CandidateAdmission.RefusableExactly | src/kuairand_agent/campaign/candidate_journal.py:391-403 | a new request is refused, rather than failing, exactly if the ledger can be rebuilt and does not admit it |
| CandidateAdmission.RequestExactly | src/kuairand_agent/campaign/budgets.py:120-168 | which policies make well-formed requests, in the policy's own fields |
| CandidateAdmission.ChargesAtMostExactly | src/kuairand_agent/campaign/candidate_journal.py:389-454 | "at most n more charges" counts the charged launches of the store |
| CandidateAdmission.ReservationExactly | src/kuairand_agent/campaign/candidate_journal.py:414-446 | a stored launch is this request's reservation if and only if its state, charge, key, categories, purpose, experiment, iteration and seed are those of policy and request |
| CandidateJournal.CandidateJournal.Commit | src/kuairand_agent/campaign/candidate_journal.py:489-518 | returns normally only with the receipt and STARTED both durable, and does so unless a write fails; nothing is released meanwhile |
| CandidateJournal.CandidateJournal.Finish | src/kuairand_agent/campaign/candidate_journal.py:584-682 | artifacts outside the frozen closure of the action, or that no longer verify, are refused with nothing written; on success, which only a failing write can prevent, the execution has the status, result and artifacts of this run and its launch is settled; no other record changes; a repeated call resumes; none of the integrity errors can arise |
| CampaignDatabase.EvidenceExactly | src/kuairand_agent/campaign/candidate_journal.py:529-582 | the frozen closure role by role: manifest and both logs of this very result, the outputs of the action exactly if they were validated, a diagnostic only if not, perhaps a workspace receipt, each of its kind, and nothing else |
| CampaignDatabase.MovesExactly | src/kuairand_agent/campaign/store.py:56-62 | the launch transition table as a set of pairs |
| CampaignDatabase.CreatedExactly | src/kuairand_agent/campaign/store.py:48-55 | a created campaign holds the six imported launches, finished and charged, with the five official seeds and the clean retrain, and nothing else |
| CandidateJournal.CandidateJournal.RehydrateTerminal | src/kuairand_agent/campaign/candidate_journal.py:684-791 | restores a terminal execution whose artifacts are those of its own result, settles the launch that a crash left open and touches nothing else; apart from an artifact that no longer verifies, no integrity error can arise |
| CandidateJournal.CandidateJournal.SettleLaunch | src/kuairand_agent/campaign/candidate_journal.py:759-784 | one legal move at most brings the launch to its terminal state; a settled launch is left alone |
| CandidateJournal.TerminalMaySettle | src/kuairand_agent/campaign/candidate_journal.py:658-675 | in every reachable state a terminal training execution's launch is settled or one legal move away, and never RESERVED or NOT_STARTED after a reported release |
| CandidateJournal.EndedConsistent | src/kuairand_agent/campaign/candidate_journal.py:606-630 | in every reachable state the runner's verdict agrees with the durable receipt, result and launch ownership |
| CandidateJournal.Run | src/kuairand_agent/execution/runner.py:1571-1612 | a candidate is released only by a step of the history that starts where a normally returned commit callback leaves off; a reported release did happen; if no write fails, a process that is spawned and alive is released and its conduct reported |
| CandidateJournal.BuiltIsEvidence | src/kuairand_agent/execution/candidate_executor.py:510-582 | what the executor stores for a validated or a failed run is always what `finish` accepts |
| CandidateJournal.Execute | src/kuairand_agent/execution/candidate_executor.py:634-695 | prepare, run and finish in this order: a completed attempt is SUCCEEDED if and only if its run succeeded and its output was validated, else FAILED, with the output roles exactly then and the diagnostic exactly otherwise, and its launch is settled; if no write fails, the outcome and the launch's final state are determined by the conduct of the run; no record of any other candidate changes; an attempt that was not prepared releases nothing |
| Reconciliation.PassesReconcile | src/kuairand_agent/campaign/controller.py:1278-1456 | from every reachable state the three passes interrupt every active execution and close every open launch, and change no other field |
| Reconciliation.CleanIsFixed | src/kuairand_agent/campaign/controller.py:1278-1456 | a clean store is a fixed point, and nothing is reported about it |
| Reconciliation.ReconciledExactly | src/kuairand_agent/campaign/controller.py:1278-1456 | the reconciled store record by record: active executions INTERRUPTED without result, open launches FINISHED and charged, nothing else different |
| Reconciliation.FindingsExactly | src/kuairand_agent/campaign/controller.py:1278-1456 | what a restart finds: every active execution with its launch and every open launch with its owner, each with the launch state that its repair leaves, and nothing else |
| Reconciliation.ReconciledKeepsLedger | src/kuairand_agent/campaign/controller.py:1246-1269 | reconciling keeps every charge, the rebuilt ledger and the incumbent |
| Reconciliation.OpenNumbers | src/kuairand_agent/campaign/controller.py:1420-1427 | skipping the first six launch numbers in the third pass skips no open launch |
| Restart.FinishReconciledLaunch | src/kuairand_agent/campaign/controller.py:1246-1269 | RESERVED goes through START_UNCERTAIN to FINISHED, STARTED to FINISHED, settled launches stay; the charge is kept |
| Restart.PassOne | src/kuairand_agent/campaign/controller.py:1285-1374 | the first loop interrupts exactly the active executions, closes their launches, files one numbered report each, and reports unsafe if and only if the cleanup of some execution that was RUNNING failed; it is done unless a write fails |
| Restart.PassTwo | src/kuairand_agent/campaign/controller.py:1380-1411 | the second loop closes exactly the open launches of finished executions, one numbered report each |
| Restart.PassThree | src/kuairand_agent/campaign/controller.py:1415-1452 | the third loop closes exactly the open launches that no execution owns, one numbered report each |
| Restart.ReconcileUnfinished | src/kuairand_agent/campaign/controller.py:1278-1456 | from any state that a crash can leave, and however the call ends: the findings present at its start are exactly those newly reported, the one owed, the one lost with the process and those still present; the history stays inside the restart; it completes unless a write fails, and then the store is the reconciled one, each repair has its report under the next number, and unsafe means that the cleanup of some execution that was RUNNING failed |
| Restart.Recover | src/kuairand_agent/campaign/controller.py:1830-1872 | the same for a restart from a dead or idle campaign: whatever happens, each finding is newly reported, still present, or the one owed in the last moment of the restart; a completed one, and it completes unless a write fails, leaves every active execution INTERRUPTED, every open launch FINISHED, every other record as it was, one report for each finding, and the verdict on cleanup of the first pass |
| RestartAccounting.StepAccounts | src/kuairand_agent/campaign/controller.py:1321-1374 | one write or report of a restart moves each finding between found, owed and reported without losing it; a step out of the restart loses exactly what is owed |
| RestartAccounting.RecoveryAccounts | src/kuairand_agent/campaign/controller.py:1278-1456 | over any number of restarts cut short anywhere, reported, owed, still found and lost together are constant, and at most one report is lost for each restart cut short |
| RestartAccounting.ReportsCompleteExactly | src/kuairand_agent/campaign/controller.py:1278-1456 | once restarts, cut short or not, have left a clean store, the reports are those at the start and one for everything found then, if and only if no restart ended between the last store write of a repair and its report |
| RestartAccounting.CompletedRecoveryAccounts | src/kuairand_agent/campaign/controller.py:1278-1456 | once the store is clean, everything that was there to find is reported but for the lost reports |
| ReportUniqueness.NoRepairIsReportedTwice | src/kuairand_agent/campaign/controller.py:1350-1452 | at every point of every run no execution and no launch is named by two reports, and each report names an execution that is over with its launch settled, or a settled launch that no execution owns |
| ReportUniqueness.ReportsAreTrue | src/kuairand_agent/campaign/controller.py:1350-1452 | at every point of every run each report carries its place as its number, names an execution that is over together with the launch it owns, and the state in which that launch stays |
| ReportUniqueness.OneReportLost | src/kuairand_agent/campaign/controller.py:1321-1374 | every campaign has a run, through a prediction and two restarts, that ends clean with the one finding in no report |
| Restart.RecoveryIsIdempotent | src/kuairand_agent/campaign/controller.py:1278-1456 | after a completed recovery nothing is active or open, and a second one changes and reports nothing |
| Restart.InterruptedRestartsConverge | src/kuairand_agent/campaign/controller.py:1278-1456 | however many restarts are cut short, and wherever, the store that a completed one leaves is the same |
| Budgets.EffectiveCeilings | src/kuairand_agent/campaign/budgets.py:299-307 | the dictionary loop yields every category's ceiling after all transfers, and raises exactly when some transfer overdraws its source |
| Budgets.CeilingsSumToFifty | src/kuairand_agent/campaign/budgets.py:255-258 | transfers conserve the total of fifty, so the source's last check never fires |
| Budgets.ChargeSucceedsExactly | src/kuairand_agent/campaign/budgets.py:382-406 | a start is charged if and only if it was allowed, is not stale, is new and both caps still have room |
| Budgets.FreshAdmissionCharges | src/kuairand_agent/campaign/budgets.py:340-406 | an admission charged at once with a new id never fails and appends exactly the admitted start |
| Budgets.AdmittedExactlyWhenChargeable | src/kuairand_agent/campaign/budgets.py:340-406 | a new training request is admitted if and only if there is time for it and charging it at once would succeed |
| Budgets.ReallocationSucceedsExactly | src/kuairand_agent/campaign/budgets.py:317-326 | a transfer is approved if and only if it is well formed and moves unused ceiling only |
| Budgets.LedgerStaysValid | src/kuairand_agent/campaign/budgets.py:232-406 | no sequence of starts (stale, forged or fresh), transfers and iteration closes yields an invalid ledger; the six imported charges stay in front and charges are only appended |
| Budgets.ChargedAtMostOnce | src/kuairand_agent/campaign/budgets.py:382-406 | one training admission is charged at most once, whatever happens in between |
| Budgets.RunsStayWithinBudget | src/kuairand_agent/campaign/budgets.py:260-406 | from qualification on, at most fifty starts and at most its ceiling in every category |
| Budgets.QualificationIsValid | src/kuairand_agent/campaign/budgets.py:260-285 | the ledger after qualification exists exactly for limits in [6, 50] and [1, 50] |
| BudgetLaws.AdmissionExactly | src/kuairand_agent/campaign/budgets.py:340-380 | the verdict on every request in its own times and in counts of charges: each reason if and only if its limit binds and none before it |
| BudgetLaws.StartExactly | src/kuairand_agent/campaign/budgets.py:382-406 | a charged start appends one charge with the next number and the request's execution, family, categories and repair mark, and changes nothing else |
| BudgetLaws.OtherWorkIsFree | src/kuairand_agent/campaign/budgets.py:382-390 | work that trains nothing passes as it was admitted and changes nothing |
| BudgetLaws.CeilingsMove | src/kuairand_agent/campaign/budgets.py:299-307 | every category starts from its published ceiling, and each transfer moves its amount from its source to its target |
| BudgetLaws.TransferExactly | src/kuairand_agent/campaign/budgets.py:317-326 | a transfer is approved if and only if it names two categories, a positive amount and a reason and takes no more than the source has unused; it is appended and nothing else changes |
| BudgetLaws.CloseExactly | src/kuairand_agent/campaign/budgets.py:328-338 | an iteration can be closed exactly below the cap, and only the count moves |
| BudgetLaws.LedgersExactly | src/kuairand_agent/campaign/budgets.py:232-258 | which ledgers the constructor accepts: limits, numbers, distinct executions, and counts of charges against ceilings |
| BudgetLaws.QualificationExactly | src/kuairand_agent/campaign/budgets.py:260-285 | the ledger after qualification has the six imported charges under their own names, no transfer and no closed iteration |
| BudgetLaws.IdentifiersExactly | src/kuairand_agent/campaign/budgets.py:83-86 | identifiers are the texts without NUL that have some character which is not white space |
| BudgetManifest.FromManifest | src/kuairand_agent/campaign/budgets.py:440-555 | the reading loops compute the ledger that the manifest denotes, or raise |
| BudgetManifest.ManifestRoundTrip | src/kuairand_agent/campaign/budgets.py:408-555 | a valid ledger survives writing and reading exactly when its six qualification charges lead |
| BudgetManifest.ReadManifestIsExact | src/kuairand_agent/campaign/budgets.py:440-555 | a manifest is accepted only if writing its ledger gives it back field by field |
| BudgetManifest.ReachableLedgersRoundTrip | src/kuairand_agent/campaign/budgets.py:408-555 | every ledger that a campaign can reach survives the round trip |
| BudgetManifest.AcceptedExactly | src/kuairand_agent/campaign/budgets.py:440-555 | the accepted manifests are exactly those of valid ledgers led by the six qualification charges |
| BudgetManifest.ManifestExactly | src/kuairand_agent/campaign/budgets.py:408-435 | what stands under each of the five names of a manifest, its two lists in order |
| BudgetManifest.EntriesExactly | src/kuairand_agent/campaign/budgets.py:413-434 | what stands under each name of a charge and of a transfer |
| BudgetManifest.CategoriesByName | src/kuairand_agent/campaign/budgets.py:25-35 | the eight stored category names and the categories they are read as, and no others |
| Convergence.ResearchEnds | src/kuairand_agent/campaign/convergence.py:114-176 | no run closes more than 9000 iterations, with completions reserved and finished at any time |
| Convergence.EnoughAttemptsTerminate | src/kuairand_agent/campaign/convergence.py:80-160 | after 9000 attempts with valid observations the state is terminal |
| Convergence.BoundIsAttained | src/kuairand_agent/campaign/convergence.py:114-160 | some campaign does close 9000 iterations and only then converges |
| Convergence.StepUsesRank | src/kuairand_agent/campaign/convergence.py:138-160 | each closed iteration uses up the rank made of the material steps, measurements and rejections still possible |
| Convergence.TerminalAbsorbs | src/kuairand_agent/campaign/convergence.py:97-176 | a terminal state stays terminal with the same best score and iteration count |
| Convergence.BestIsMaximum | src/kuairand_agent/campaign/convergence.py:146-150 | the best score is at least every accepted observation and never falls |
| Convergence.BestIsAttained | src/kuairand_agent/campaign/convergence.py:146-150 | the best score is the start or one of the observations |
| Convergence.OperationsExactly | src/kuairand_agent/campaign/convergence.py:114-176 | on the fields of a state: when each of the three operations is refused, what it changes, and when the campaign stops |
| Convergence.RuleExactly | src/kuairand_agent/campaign/convergence.py:114-160 | over every run the four figures are those of what the closed iterations observed: their number, the largest measurement, the iterations since the last measurement, and the measurements since the last one more than 0.002 above all before it |
| Convergence.PendingExactly | src/kuairand_agent/campaign/convergence.py:122-176 | over every run a completion is pending if and only if the last operation that set the flag reserved it, or it was pending from the start and never finished |
| Clock.ObservationIsConservative | src/kuairand_agent/campaign/clock.py:249-289 | an observation gives no time back, splits the budget into elapsed and remaining, and counts at least the wall time and, on the same boot, the monotonic time since the start |
| Clock.ObservationIsExact | src/kuairand_agent/campaign/clock.py:257-275 | elapsed time is one of the times compared, and reaches the whole budget only if some comparable clock did; the reading's own times and boot are remembered |
| Clock.AcceptedExactly | src/kuairand_agent/campaign/clock.py:249-275 | after any history of readings, rejected ones included, a reading is accepted if and only if it can be read and neither clock is behind the start or any reading accepted since, monotonic clocks being compared on the first boot only |
| Clock.SeriesAcceptedExactly | src/kuairand_agent/campaign/clock.py:249-275 | a whole series of readings is accepted if and only if all can be read and are pairwise in order |
| Clock.StartedSeriesExactly | src/kuairand_agent/campaign/clock.py:225-289 | a deadline starts exactly from a readable clock with both limits in range, and then all readings are accepted if and only if they can be read and neither clock ever runs back, from the start on |
| Clock.ValidExactly | src/kuairand_agent/campaign/clock.py:180-222 | a state is valid if and only if some start fixes its budget, its clocks are not before that start and its elapsed time is within the budget |
| Clock.RemainingExactly | src/kuairand_agent/campaign/clock.py:249-289 | after any history, rejected readings included, x seconds are left if and only if they were left at the beginning and by every comparable clock of every reading accepted since |
| Clock.AdmittedExactly | src/kuairand_agent/campaign/clock.py:125-161 | after any history a completion is allowed if and only if all clocks leave some time that is enough for it, research if and only if they leave more than the reserve, and enough for it and the reserve |
| Clock.TimeNeverComesBack | src/kuairand_agent/campaign/clock.py:180-289 | over any readings and reboots the state stays valid, the budget fixed and elapsed time non-decreasing |
| Clock.ReserveAndExpiryLatch | src/kuairand_agent/campaign/clock.py:117-123 | the active reserve and the expired deadline, once seen, are seen by every later observation |
| Clock.AdmittedResearchLeavesReserve | src/kuairand_agent/campaign/clock.py:125-161 | research admitted now and over within p95 plus cleanup leaves the whole reserve, enough to admit a completion of that length |
| Clock.AdmissionsExactly | src/kuairand_agent/campaign/clock.py:125-161 | both gates at one observation: each verdict if and only if its inequality on the remaining time holds |
| Clock.LedgerAgreesWithClock | src/kuairand_agent/campaign/budgets.py:349-360 | the ledger's time gate gives the clock's verdict for every phase |
| DeadlineChain.LoadDeadline | src/kuairand_agent/campaign/controller.py:924-989 | loading succeeds exactly on an unbroken chain with a fixed budget and non-decreasing times, and returns its last checkpoint |
| DeadlineChain.AppendKeepsChain | src/kuairand_agent/campaign/controller.py:992-1008 | appending any observation of the last checkpoint keeps the chain loadable |
| DeadlineChain.DeadlineDirectory.Advance | src/kuairand_agent/campaign/controller.py:924-1008 | on a loadable directory the turn appends the observation, or is refused with nothing written when the clock fails closed, or breaks off and leaves the old checkpoints, the new one too, or a torn file; a directory that does not load refuses every turn |
| DeadlineChain.DeadlineDirectory.Replay | src/kuairand_agent/campaign/controller.py:1834-1870 | after any resumes the loaded state is the one that the readings lead to, and only a write that breaks off ends the replay; then it is the state with or without that reading, if the directory still loads |
| DeadlineChain.ChainIsMonotone | src/kuairand_agent/campaign/controller.py:973-983 | along a loadable chain the states are valid, the checkpoints numbered, all seven budget fields fixed, and elapsed time and wall time only grow |
| DeadlineChain.LastDigestFixesChain | src/kuairand_agent/campaign/controller.py:962-966 | two loadable chains with the same last digest are equal |
| CampaignLifecycle.EveryStepIsLegal | src/kuairand_agent/campaign/models.py:228-272 | every disposition and every move of research and finalization keeps the status or follows the transition table, although the store would take any status; only research moves launches and convergence, only a readable resume of an open campaign moves the deadline |
| CampaignLifecycle.NoWayBack | src/kuairand_agent/campaign/controller.py:1573-1613 | over every run terminal campaigns absorb, and FINALIZATION_REQUIRED never returns to RUNNING or any research state |
| CampaignLifecycle.ReserveEndsResearch | src/kuairand_agent/campaign/controller.py:1573-1613 | once the reserve is active, the next resume with a readable clock leaves the campaign in no research state, for good |
| CampaignLifecycle.StatusExactly | src/kuairand_agent/campaign/controller.py:1573-1613 | over every run and for each of the seven statuses: a campaign has it if and only if some event brought it there, or it had it at the start, and nothing has taken it away since; RUNNING comes from a readable resume that meets research with no call for an end by cleanup, time, launches, convergence or iteration cap, INCOMPLETE from an unsafe cleanup or an expired deadline alone |
| CampaignLifecycle.PhaseFollowsStatus | src/kuairand_agent/campaign/controller.py:1586-1613 | over every run the stored phase is the one of the status |
| CampaignLifecycle.TransitionsExactly | src/kuairand_agent/campaign/models.py:228-245 | the campaign transition table as a set of pairs |
| CampaignLifecycle.FailsExactly | src/kuairand_agent/campaign/controller.py:1573-1613 | over every run a campaign becomes INCOMPLETE if and only if one of its resumes, with a readable clock, met it open with an unsafe cleanup or an expired deadline; only one resume does, and the phase says which of the two it was |
| EarlyStopping.Fit | src/kuairand_agent/baselines/starter_fm.py:666-754 | the trusted loop stops at the one stopping epoch and returns the state of the best epoch with its own predictions and metrics, and a trace whose every line has the epoch's predictions, metrics, judgement and step count; none of its checks fails |
| EarlyStopping.FitExactly | src/kuairand_agent/baselines/starter_fm.py:666-754 | every run is determined by the scores in its own trace: an epoch improves if and only if it is the first or more than 0.00001 above the last that did, the run is over at the fourth bad epoch or after forty, and it keeps the last state that improved |
| EarlyStopping.RunFm | kuairand-starter-kit/baseline.py:80-96 | the organizer's loop stops at the same epoch and keeps the same state |
| EarlyStopping.LoopsAgree | kuairand-starter-kit/baseline.py:75-98 | for all score sequences the two loops agree |
| EarlyStopping.BestIsNearMaximal | src/kuairand_agent/baselines/starter_fm.py:702-715 | the kept score is within 1e-5 of every epoch's score |
| EarlyStopping.StopsFourAfterBest | src/kuairand_agent/baselines/starter_fm.py:702-730 | training ends at epoch 40 or exactly four epochs after the best one |
| EarlyStopping.AtLeastFiveEpochs | src/kuairand_agent/baselines/starter_fm.py:702-730 | and never before its fifth epoch |
| EarlyStopping.FitPassesItsChecks | src/kuairand_agent/baselines/starter_fm.py:362-405 | every such run passes the consistency checks that its evidence is constructed with, predictions and metrics of the best epoch included |
| Auc.ComputeAuc | kuairand-starter-kit/evaluate.py:15-33 | for all labels and scores the midrank computation returns the fraction of positive/negative pairs ranked correctly, ties half |
| MetricLaws.AucValue | kuairand-starter-kit/evaluate.py:15-33 | the AUC times the number of pairs of a positive and a negative row is the sum over all such pairs of one for a win and a half for a tie; it is one half without such a pair |
| Auc.Midranks | kuairand-starter-kit/evaluate.py:18-27 | the nested loops fill in, for every row, the scores below it plus half of its equals plus one half |
| Auc.RankSum | kuairand-starter-kit/evaluate.py:32-33 | the positives' midranks sum to their wins over the negatives plus a triangular number |
| Auc.AucInUnitInterval | kuairand-starter-kit/evaluate.py:15-33 | the value lies in [0, 1] |
| Auc.AucPermutation | kuairand-starter-kit/evaluate.py:15-33 | the order of the rows does not matter |
| Auc.AucNegation | kuairand-starter-kit/evaluate.py:15-33 | negating all scores gives one minus the value |
| Auc.AucMonotoneTransform | kuairand-starter-kit/evaluate.py:15-33 | a strictly increasing change of the scores changes nothing |
| Ndcg.NdcgCharacterised | kuairand-starter-kit/evaluate.py:35-41 | the value lies in [0, 1]; it is 0 without positives, and 1 exactly if there is a positive and the first min(k, npos) labels are all positive |
| MetricLaws.NdcgValue | kuairand-starter-kit/evaluate.py:35-41 | the nDCG times the sum of 1 / disc[i] over i < min(k, npos) is the sum of labels[i] / disc[i] over i < min(k, number of labels), and it is 0 without positives |
| Ndcg.NdcgSwap | kuairand-starter-kit/evaluate.py:35-41 | swapping an adjacent (0, 1) to (1, 0) never lowers it and raises it inside the first k places |
| Ndcg.IdealOrder | kuairand-starter-kit/evaluate.py:39-40 | the normaliser depends on the number of positives alone |
| Evaluate.ComputeMetrics | kuairand-starter-kit/evaluate.py:43-61 | the dictionary and list loops compute the positive-weighted mean AUC, the mean nDCG and their average |
| MetricLaws.MetricsValue | kuairand-starter-kit/evaluate.py:43-61 | over any listing of the users: GAUC is the mean of the AUCs of the users with both labels weighted by their positives, or one half without any, nDCG the plain mean over all users, and the primary score the middle of the two |
| MetricLaws.RankedExactly | kuairand-starter-kit/evaluate.py:51-57 | a row is ranked behind those of its user that score higher and those before it that score the same |
| MetricLaws.RowsOfExactly | kuairand-starter-kit/evaluate.py:45-49 | each row stands in its user's list behind as many as came before it |
| Evaluate.MonotoneInvariance | kuairand-starter-kit/evaluate.py:43-61 | strictly increasing score changes chosen separately per user leave every metric as it was |
| Evaluate.UserConstantsVanish | kuairand-starter-kit/README.md:122-124 | a term that is constant within each user contributes nothing |
| Evaluate.ReinterleavingInvariance | kuairand-starter-kit/evaluate.py:45-60 | re-interleaving users that keep their own row order changes no metric |
| Evaluate.GaucPermutation | kuairand-starter-kit/evaluate.py:50-58 | GAUC ignores the row order altogether |
| Evaluate.NdcgSeesTieOrder | kuairand-starter-kit/evaluate.py:51-57 | nDCG does not: two tied rows of one user, swapped, give a different value |
| TieOrder.TieOrderExactly | kuairand-starter-kit/evaluate.py:35-57 | one user's nDCG is the same for all orders of its rows if and only if no rows of both labels tie from one of the first k ranked places on |
| TieOrder.RowOrderExactly | kuairand-starter-kit/evaluate.py:43-61 | all metrics are the same for every order of the rows if and only if this holds for every user |
| TieOrder.UntiedRowOrder | kuairand-starter-kit/evaluate.py:43-61 | in particular when no user has two rows with one score and two labels |
| Evaluate.MetricsInUnitInterval | kuairand-starter-kit/evaluate.py:58-60 | every metric lies in [0, 1] |
| Grouping.StableUserGrouping | candidate_templates/lambdarank/candidate.py:327-352 | returns the rows user by user in first-appearance order and their sizes, and refuses only an empty set |
| Grouping.FirstSeenCodes | candidate_templates/lambdarank/candidate.py:330-340 | unique, argsort of first rows, scatter and gather give each row its user's rank by first appearance |
| Grouping.GroupingIsPermutation | candidate_templates/lambdarank/candidate.py:341-352 | the row order is a permutation of all rows |
| Grouping.GroupingSegments | candidate_templates/lambdarank/candidate.py:341-352 | the slice between consecutive cumulative sizes is exactly the list of the g-th user's rows, in their original order |
| Grouping.GroupingSizes | candidate_templates/lambdarank/candidate.py:345-352 | no size is zero and the sizes add up to the number of rows |
| Blocks.SearchFindsOwner | candidate_templates/pairwise_fm/candidate.py:203-206 | searching the cumulative counts from the right finds the block that owns a ticket |
| Blocks.RepeatFindsOwner | candidate_seed/model_impl.py:171-175 | so does the repeat table |
| PairLayout.DrawsAreLogged | candidate_templates/pairwise_fm/candidate.py:189-218 | every ticket and offset name a logged positive and negative row of one user; no index leaves its block |
| PairLayout.LoggedPairsAreDrawn | candidate_templates/pairwise_fm/candidate.py:189-218 | every logged same-user pair is some draw |
| PairLayout.DrawsAreDistinct | candidate_templates/pairwise_fm/candidate.py:189-218 | no two draws name the same pair |
| PairOrder.DrawCounts | candidate_templates/pairwise_fm/candidate.py:189-218 | whatever the order of the users: which positive and which negative row a draw names, as counts of rows before them |
| PairOrder.CountsAreDrawn | candidate_templates/pairwise_fm/candidate.py:189-218 | and every positive and negative row of one user are drawn by their counts |
| PairExpectation.PairSpaceCountsPairs | candidate_templates/pairwise_fm/candidate.py:176-187 | the announced pair-space size is the number of logged same-user pairs |
| PairExpectation.ExpectationIsGauc | kuairand-starter-kit/evaluate.py:50-58 | averaging the draw outcomes, ties half, over all tickets and all offsets gives exactly GAUC |
| PairSampler.BuildSampler | candidate_templates/pairwise_fm/candidate.py:105-187 | construction succeeds exactly on aligned binary targets with a positive and a negative row of one user, holds the layout of the eligible users in first-seen order, and announces the numbers of eligible users, of their positives, of their rows and of their pairs |
| PairSampler.GAUCPairSampler.Sample | candidate_templates/pairwise_fm/candidate.py:189-218 | for all tickets and offsets in the generator's ranges each place of the batch holds a positive and a negative row of one user: the ticket counts the eligible positives before the one, by first appearance of the user and then by row, the offset the user's negatives before the other, and the group number the eligible users before it |
| PairSampler.GAUCPairSampler.RangeIsDraw | candidate_templates/pairwise_fm/candidate.py:200-212 | a ticket below the positive count with an offset below the count of its group is a valid draw of the layout |
| PairSampler.GAUCPairSampler.RangesExactly | candidate_templates/pairwise_fm/candidate.py:200-212 | a ticket and an offset are in the generator's ranges if and only if they are these counts for some positive and negative row of one user |
| PairSampler.SamplerFollowsGauc | candidate_templates/pairwise_fm/candidate.py:102-187 | the sampler's exact expectation is the official GAUC, whatever the scores |
| WithinUserPairs.SamplePairs | candidate_seed/model_impl.py:128-177 | for all tickets and offsets in the generator's ranges each place holds a positive and a negative row of one user, the ticket counting the eligible positives before the one, by user code and then by row, and the offset the user's negatives before the other; it refuses exactly when there is no such pair, no draw is asked for or the columns differ in length |
| WithinUserPairs.RangesExactly | candidate_seed/model_impl.py:168-175 | the ranges of its generator are exactly these counts |
| WithinUserPairs.CollectBlocks | candidate_seed/model_impl.py:149-165 | the loop over sorted segments collects the blocks of exactly the mixed-label users |
| WithinUserPairs.LookupsAgree | candidate_seed/model_impl.py:171-177 | its repeat table and the other sampler's search name the same user |
| WithinUserPairs.PairsFollowGauc | candidate_seed/model_impl.py:149-177 | its exact expectation is GAUC too |
| FactorizationMachine.InteractionIsPairSum | kuairand-starter-kit/baseline.py:49-53 | half of square of sum minus sum of squares is the sum of dot products over all field pairs |
| FactorizationMachine.InteractionShift | kuairand-starter-kit/baseline.py:49-62 | replacing E_f by E_f + h moves the interaction by exactly <h, S - E_f> |
| FactorizationLaws.LogitExactly | kuairand-starter-kit/baseline.py:49-53 | the logit of every row is the bias, plus the weights of its ids, plus for every two fields the sum of the products of their embeddings' components |
| FactorizationMachine.StepGradients | kuairand-starter-kit/baseline.py:55-62 | the scatter loops accumulate, for every id, the weighted slots of the batch plus decay |
| FactorizationMachine.StepEmbeddingGradient | kuairand-starter-kit/baseline.py:55-62 | in every direction the embedding gradient is the exact change of the residual-weighted logits plus the decay term |
| FactorizationMachine.StepWeightGradient | kuairand-starter-kit/baseline.py:55-62 | so is the weight gradient |
| FactorizationMachine.StepBiasGradient | kuairand-starter-kit/baseline.py:69 | and the bias gradient |
| FactorizationLaws.EmbeddingGradientExactly | kuairand-starter-kit/baseline.py:55-62 | every component of the embedding gradient is the sum over rows of the residual times, for each field with the id, the row's component sum without the field's own, plus the decay |
| FactorizationLaws.WeightGradientExactly | kuairand-starter-kit/baseline.py:55-62 | every weight gradient is the sum over rows of the residual times the number of fields with the id, plus the decay |
| FactorizationLaws.BiasGradientExactly | kuairand-starter-kit/baseline.py:69 | the bias gradient is the sum of the residuals |
| DenseFactorization.DenseScoreIsPairSum | candidate_templates/pairwise_fm/candidate.py:495-502 | the dense score is the linear part plus the pairwise products over all feature pairs |
| DenseFactorization.DenseShift | candidate_templates/pairwise_fm/candidate.py:495-533 | moving one factor row changes the score by exactly its slope, with no second-order term |
| DenseFactorization.FactorGradientExact | candidate_templates/pairwise_fm/candidate.py:505-533 | the factor gradient is the exact change of the weighted margins, plus decay |
| DenseFactorization.LinearGradientExact | candidate_templates/pairwise_fm/candidate.py:505-533 | so is the linear gradient |
| DenseFactorization.FmInteractionScores | candidate_seed/model_impl.py:102-125 | the in-place accumulators give every row the sum of dot products over all pairs of tables, or the shape error |
| DenseFactorization.SpareRow | candidate_seed/model_impl.py:92-99 | every training code keeps its own row and all larger codes share the spare last row |
| Encoding.OrganizerEncode | kuairand-starter-kit/data.py:35-64 | the row-major loops write, for every row and field, the field's offset plus the first-seen position of the value, or the block's last slot |
| Encoding.Fit | src/kuairand_agent/baselines/encoding.py:178-214 | fitting succeeds exactly on non-empty canonical columns and nine ordered edges and yields the first-seen vocabularies |
| Encoding.Transform | src/kuairand_agent/baselines/encoding.py:245-268 | the column-wise loop writes the same cells |
| Encoding.EncodersAgree | src/kuairand_agent/baselines/encoding.py:178-268 | the two encoders give the same matrix and dimension |
| Encoding.MatrixShowsFields | kuairand-starter-kit/data.py:41-60 | in the matrix of either encoder two training rows agree in columns 0 to 3 if and only if they agree in user, video, author and tab, and in column 4 if and only if no edge separates their durations; a text that training does not show has a larger id than all that it shows |
| EncodingLaws.TextIdsExactly | kuairand-starter-kit/data.py:44-60 | the id of a text is where its block starts plus the number of distinct texts that training shows before it, or all of them if it never does |
| EncodingLaws.BucketIdExactly | kuairand-starter-kit/data.py:41-60 | the same for the duration, by the number of edges below it |
| EncodingLaws.BlocksExactly | src/kuairand_agent/baselines/encoding.py:216-231 | each block is one wider than the number of distinct values that training shows in its column |
| Encoding.IdInBlock | src/kuairand_agent/baselines/encoding.py:216-231 | every id lies in its own field's block |
| Encoding.BlocksCover | src/kuairand_agent/baselines/encoding.py:224-231 | the blocks fill the whole id range |
| Encoding.BlocksDisjoint | src/kuairand_agent/baselines/encoding.py:224-231 | and do not overlap |
| Encoding.DecodeRoundTrip | src/kuairand_agent/baselines/encoding.py:263-267 | known values decode back; unseen values, and only they, land on the block's last slot |
| Encoding.RowIdsDistinct | kuairand-starter-kit/data.py:49-60 | the ids of one row are pairwise distinct and below the total dimension |
| EncodedTraining.EncodedRowsMoveExactly | kuairand-starter-kit/baseline.py:49-62 | on every encoded row the scatter into a field's slot is S - E_f, and moving that embedding moves the logit by exactly its product with it |
| EncodedTraining.OtherIdsDoNotMatter | kuairand-starter-kit/baseline.py:49-62 | moving the embedding of an id that the row does not use leaves its logit alone |

## Left out

- Files, fsync, renames, link checks, canonical JSON bytes and SHA-256: a digest is the value it names, a manifest a map of fields.
- SQLite itself, revision numbers and event sequences: a transaction lands whole or not at all; a stale revision is one of the reasons a write may be refused.
- `research/loop.py` beyond its reservation: its start and finish make the journal's writes in the journal's order, but it finishes with other artifact roles, and it may create an execution on a reservation that a restart has already closed; such an execution is never started.
- `record_reallocation` has no caller in the source, so a campaign's transfers are fixed at its start; any valid transfers that leave the six qualification launches their ceiling may be in force.
- Recording a new incumbent and closing iterations are one step with arbitrary values, taken while no candidate is active.
- Candidate subprocesses and resource limits: whether a process is spawned, still alive at its release, heard of and successful, and what it logs, are parameters; so is whether a stored artifact still verifies.
- The manifest artifact that a restart attaches to an execution it interrupts, and the incumbent and runner evidence inside the reports.
- CampaignStore.CampaignStore.WriteReport: a report is written whole or not at all; the source creates the final name first and writes into it (controller.py:244-274), so that a crash in between leaves a file which every later load refuses.
- The candidate that outlives its crashed supervisor, and how the runner kills it: only the outcome of that cleanup is a parameter.
- EarlyStopping.Fit: float32 rounding of the epoch scores is not modelled; both loops compare real numbers.
- EarlyStopping.FitPassesItsChecks: of starter_fm.py:362-405 the form of the six digests, their equality with the checkpoint's, and the comparison of the resources' row count, dimension, epoch count and steps are not modelled; `fit` fills both sides of each comparison from the same arguments and the same loop.
- Encoding.Fit: the nine duration edges are a parameter, so the quantile computation and the checks on digests are not modelled.
- FactorizationMachine.StepGradients: the Adam moments and the update itself are not modelled; the sigmoid is any function.
- RuntimeHistory, RuntimeEstimate and ExperimentLifecycle: rolling windows and a second transition table would add easy members only.
- `categorical_codes`, training loops of the candidate templates, LightGBM, providers and the command line.
- Convergence manifests: field-by-field checks like those of the ledger's manifest.
