# Cloudeo: a verified model of the control and trust layer

Cloudeo lets executors change a candidate workspace, lets auditors judge it, and lets only a proven
state become accepted. This project models the parts that decide what is accepted, and proves
properties of whole runs of them, in Dafny 4.11. `dafny verify dfyconfig.toml` checks everything.

- **Control machine** (`Control*.dfy`). The 13 WorkOrder and 10 block transitions are functions that hold
  guards and an update only (`ControlMachine`). The record validators (`ControlModel`) and the relation
  between consecutive stored versions (`ControlEvolution`) are separate definitions. The main results say
  that the three agree: which steps are legal successors, which steps pass the validators, what every
  reachable record satisfies, that execution terminates, how many attempts can be spent, what a promotion
  proves, when exactly each step is refused, asks the user or goes through (`ControlGuards`,
  `ControlAdmission`), and that every recorded fact was handed over by a step. `ControlStore` and `ControlLog` model
  the compare-and-swap store and its event log under any interleaving of writers.
- **Workspace bridge** (`Bridge*.dfy`, `Canonical.dfy`, `Text.dfy`). The remote scan, diff and unpack; the
  local staging and checking of the untrusted delta; a mutable file tree whose system calls may fail at
  any point; the undo journal and its rollback; the whole exchange from diff to patch.
- **Broker and gate** (`BrokerRefs.dfy`, `Broker.dfy`, `Gate.dfy`, `BlobBatch.dfy`,
  `CommitContent.dfy`). Refs are a log of
  atomic transactions over commits that are acyclic by construction. Every read of a broker is a separate
  step, with other clients' transactions and worktree edits in between. What an undisturbed client achieves
  is stated for a repository that nobody else uses (`alone`) and a Git that works (`reliable`).
- **Propagation and budget** (`EventStream.dfy`, `LiveReader.dfy`, `ComparisonBudget.dfy`). The resumable
  event stream (Server-Sent Events, section 9.2 of the WHATWG HTML Standard), the coalescing reader, and
  the budgeted comparison loop.

## Results about the code that a reader may not expect

- `approve_plan` with an independence gap moves PLAN_PROPOSED to USER_ATTENTION_REQUIRED in one call. The
  status table forbids that step, so the store refuses the result: `ControlSteps.EvolutionTheorem` says
  exactly when, `ControlWitness.ApprovalGapReachable` reaches such a record from every new WorkOrder whose coder
  and code auditor share a model family (`ControlWitness.OneFamilyExists`), `ControlSteps.ApprovalGapIsTwoSteps`
  shows the two legal steps it is made of, and `ControlLog.MachineStepsAreStored` shows the store's answer.
- `approve_plan(plan_version=0)` on a WorkOrder that was sent back to planning before any plan existed ends
  in an IndexError instead of a refusal. It is the only reachable exception of that kind, and three steps
  away from every new WorkOrder (`ControlLimits.OnlyEmptyApprovalCrashes`, `ControlLimits.EmptyApprovalReachable`).
- Nothing clears a recorded final audit. Work, a riskier plan or a stricter policy that comes later can
  contradict it, and then a validator fails inside a transition whose guards passed.
  `ControlJudged.GuardsImplyValidators` gives the exact condition, and `ControlWitness.SpoiledAuditReachable` a run
  from creation: a finished block, a final audit, a refused promotion, another coder of the auditor's family, a
  replan that keeps the block, and the next attempt.
- `initialize` also returns without an error when Git failed to create the accepted ref and nobody else created
  it: it raises only when it reads another commit there (`Broker.Client.Initialize`, `Broker.SilentInitialization`).
- The evolution rule compares a changed budget with the budget field of the added amendments, and an agent amendment
  has none. So the store accepts a version that drops the budget altogether next to an agent amendment
  (`ControlLog.BudgetMayBeDropped`); no run ever loses its budget (`ControlRuns.RunKeepsHistory`).
- A deferred WorkOrder resumes without its blocking reasons being answered: deferring closes the request as it
  stands, and resuming checks the baseline only. `ControlRuns.WorkIsReentered` gives every way back to work of every
  run, `ControlRuns.DeferredGoesBack` says exactly when a deferred WorkOrder takes it,
  `ControlDeferral.DeferralBypassesAnswers` shows the two steps that go round an answer from every record in
  attention, and `ControlDeferral.UnansweredWorkReachable` a run from every new WorkOrder.
- The module documentation of `compare.py` says the weekly cap is checked before anything runs; during the
  run only the run cap is. `ComparisonBudget.HonestRunFits` states how far the weekly cap can be exceeded, and
  `ComparisonBudget.WeekCapIsNotEnforced` exceeds it with one trial.

## How the model reads the source

- A profile fingerprint, a SHA-256 digest and a commit name are injective: the model uses the thing they
  are computed from. `BridgeSnapshot.ManifestIdentifiesFiles` shows that a canonical manifest names one set of files.
- Money is in whole micro-dollars, the unit to which the source rounds.
- Ids that a caller passes to `record_deviation` and `raise_attention` are assumed unused, and not of the form that
  the machine numbers itself (`ControlInvariant.WellFormed`). The source checks neither (`ControlLimits.AnyIdIsRecorded`):
  after a caller's unused `dev-3`, the deviation that `finish_memory_curation` numbers `dev-3` fails validation.
  `ControlLimits.NumberedIdCollides` says exactly when.
- Tuples whose order no rule reads (waived codes, resolved codes, approved deviations) are sets.
- Timestamps, actor names, messages and evidence text are opaque values, kept only where a rule compares them.
- `Good` (`ControlInvariant`) is the structural validators together with the facts about reachable records that
  no validator states. A run (`ControlRuns.IsRun`) starts at creation and takes accepted steps: transition, then validators.

## Model

| member | source | states |
|---|---|---|
| ControlSteps.EvolutionTheorem | src/cloudeo/control/model.py:1034-1085 | For every reachable-state record and every one of the 23 steps, the result is one legal successor of its input if and only if the step is not an approval whose bound auditors have an independence gap |
| ControlSteps.ApprovalGapIsTwoSteps | src/cloudeo/control/machine.py:155-180 | The escalating approval is the plain approval followed by an escalation, each a legal successor of the one before |
| ControlWitness.ApprovalGapReachable | src/cloudeo/control/machine.py:173-180 | From every new WorkOrder whose bound coder and code auditor share a model family, proposing any first plan of medium or high risk reaches a record on which approving it passes the guards and is not a legal step |
| ControlDecide.DecideFollows | src/cloudeo/control/machine.py:337-392 | Every user decision gives a good record whose history extends the old one by one legal status step; replan, defer, abort and a resume on the planned baseline close the request and lead where they say, a drifted resume and an amendment stay in attention |
| ControlDecide.AmendedFollows | src/cloudeo/control/machine.py:395-441 | An envelope amendment keeps the record good, keeps finished blocks and explains every change of profile or budget by an added amendment |
| ControlRaise.RaiseKeeps | src/cloudeo/control/machine.py:290-326 | Raising attention appends exactly one open request, or extends exactly the open one by the merged reasons and takes back their resolution; every other request and field stays, and no waiver is lost |
| ControlRaise.MergeReasonsKeeps | src/cloudeo/control/machine.py:294-311 | Merging reasons keeps one reason per code and loses no evidence of the reasons that were there |
| ControlRaise.MergeTakesIn | src/cloudeo/control/machine.py:294-311 | Merging takes in every piece of evidence of the added reasons under its own code |
| ControlApproval.PlannedInOrder | src/cloudeo/control/machine.py:138-152 | A replan that keeps all finished blocks lays out finished blocks first, at their old positions, then pending ones |
| ControlApproval.PlannedKeepsDone | src/cloudeo/control/machine.py:138-152 | Every finished block survives a replan unchanged |
| ControlApproval.SupersededAll | src/cloudeo/control/machine.py:153-170 | A replan drops no block that left attempts or tests: it is kept aside as evidence |
| ControlMoves.MoveMoves | src/cloudeo/control/machine.py:612-875 | Each of the ten block steps changes at most one unfinished block, by one edge of the block state machine with its exact effect on attempts and counters, or escalates |
| ControlGuards.MoveDecided | src/cloudeo/control/machine.py:594-875 | For every block of every reachable-state record and every move: it is accepted if and only if the block, the bound profile, the audit, the changes and their claimed deviation allow it; it asks the user exactly when attempts run out, a bound auditor may not judge the producer, an audit is not independent, memory changes leave the memory paths or a checkpoint is not of the approved state; otherwise it moves its block alone, with what it carried; and every refusal says something that is so |
| ControlGuards.NoMoveElsewhere | src/cloudeo/control/machine.py:594-605 | No move is accepted on a block the record does not have, or while the record is not at work |
| ControlGuards.BoundMeans | src/cloudeo/control/machine.py:495-520 | The profile check passes if and only if the role is bound to the profile as its primary, or to it as a fallback under an agreed condition that is shown to hold |
| ControlGuards.ProducerJudgeable | src/cloudeo/control/machine.py:572-583 | A producer opens no gap if and only if every auditor bound to judge its role meets every requirement of the approved risk against it, or the user waived it |
| ControlAdmission.PlanGapsMean | src/cloudeo/control/machine.py:155-180 | A plan opens no gap if and only if every bound auditor may judge every bound producer that the plan puts to work |
| ControlAdmission.StepAdmitted | src/cloudeo/control/machine.py:104-490 | For every other step except decisions: accepted if and only if the state and what it carries allow it; it asks the user exactly on drift, on an auditor who may not judge, on a refused promotion or a material deviation; otherwise it leads to its state with what it carried on record; every refusal says something that is so, and the one exception is the approval of no plan |
| ControlAdmission.DecisionAdmitted | src/cloudeo/control/machine.py:337-441 | A decision is accepted if and only if it waives active reasons, approves recorded deviations, carries exactly the amendment it announces and, to resume, leaves no blocking reason unanswered and has observed the baseline; every refusal says something that is so |
| ControlAdmission.DecisionTakesEffect | src/cloudeo/control/machine.py:395-456 | Exactly the named deviations are approved by the actor, and an amendment takes effect and resolves exactly the active reasons of its kind: unavailable agents and independence for a profile, exhausted budgets and attempts for a budget |
| ControlIndependence.NoGapsMeansIndependent | src/cloudeo/control/model.py:571-586 | The machine's gap list is empty if and only if the validator finds the audit independent |
| ControlIndependence.IndependentOfBoth | src/cloudeo/control/model.py:326-347 | An audit is independent of two groups of producers if and only if it is independent of each |
| ControlIndependence.ReplanKeepsWriters | src/cloudeo/control/machine.py:138-170 | A replan neither forgets nor invents a write-capable producer |
| ControlIndependence.NewProfileJudged | src/cloudeo/control/model.py:957-996 | After an agent change every recorded audit is still valid if and only if it meets the requirements the new policy adds |
| ControlIndependence.BlockStepJudged | src/cloudeo/control/model.py:957-996 | After a block step all recorded audits still hold if and only if the recorded final audit, if any, tolerates the new producer |
| ControlJudged.GuardsImplyValidators | src/cloudeo/control/machine.py:104-875 | From a valid record, a step whose guards pass fails a validator if and only if it spoils a recorded audit, by a condition checkable before the step |
| ControlJudged.BeforeFinalAudit | src/cloudeo/control/machine.py:612-875 | With no final audit on record and no added requirement, the guards alone imply every validator, so re-validation never fires |
| ControlWitness.SpoiledAuditReachable | src/cloudeo/control/machine.py:612-655 | For all texts, commits and evidence, nineteen accepted steps from creation reach a record with a recorded final audit on which the next attempt passes every guard and then fails a validator |
| ControlWitness.SceneExists | src/cloudeo/control/model.py:809-831 | Such a run exists for every objective, memory paths, goal, scope, baseline and state |
| ControlLimits.OnlyEmptyApprovalCrashes | src/cloudeo/control/machine.py:123-137 | A transition ends in an exception that is not a refusal if and only if it approves plan 0 of a WorkOrder with no plan |
| ControlLimits.EmptyApprovalReachable | src/cloudeo/control/machine.py:123-137 | From every new WorkOrder that exception is three accepted steps away |
| ControlLimits.NumberedIdCollides | src/cloudeo/control/machine.py:783-806 | The deviation that the end of a curation draws up fails validation if and only if a caller has already recorded the number it gets |
| ControlRuns.ReachableGood | src/cloudeo/control/model.py:912-955 | Every record of every run is valid and satisfies the whole invariant |
| ControlRuns.RunKeepsHistory | src/cloudeo/control/model.py:1034-1101 | In a run every later record keeps the identity, logs, closed requests and finished blocks of every earlier one |
| ControlRuns.ReachableShape | src/cloudeo/control/machine.py:621-627 | In every reachable record the blocks are finished ones, then at most one in progress, then pending ones only |
| ControlRuns.TerminalIsLast | src/cloudeo/control/model.py:53-58 | A promoted or aborted record is the last of its run |
| ControlRuns.AttemptsWithinBudgets | src/cloudeo/control/machine.py:424-430 | Over any run, with retries, replans and budget amendments, no block runs more executor attempts than the sum of all limits that were in force, nor more curations than that sum plus one |
| ControlBudget.StepCharged | src/cloudeo/control/machine.py:608-655 | Every step keeps all attempts covered when a budget that enters adds its limit to the total |
| ControlBudget.StepDecreases | src/cloudeo/control/machine.py:718-738 | A block step that stays in EXECUTING strictly decreases the measure of remaining attempts, remaining curations and ranks |
| ControlRuns.ExecutionTerminates | src/cloudeo/control/machine.py:594-875 | While a run stays in EXECUTING its block steps are bounded by the measure it started with, despite the retry and the curation loop |
| ControlRuns.EntryOnPlannedBaseline | src/cloudeo/control/machine.py:188-238 | Every entry into EXECUTING or FINAL_VERIFICATION was given an accepted baseline equal to the planned one |
| ControlRuns.AttentionIsAnswered | src/cloudeo/control/machine.py:337-378 | A WorkOrder leaves attention for work only by a resume decision after which every blocking reason is resolved or waived, and only to the state it was raised from |
| ControlRuns.WorkIsReentered | src/cloudeo/control/machine.py:337-378 | In every run work is re-entered in two ways only: from attention by an answered resume decision, and from deferral by a resumption, which changes the status and nothing else |
| ControlRuns.DeferredGoesBack | src/cloudeo/control/machine.py:459-468 | A deferred WorkOrder goes back to work if and only if the state it left is not bound to the baseline or the planned baseline is still accepted, whatever its closed request asks |
| ControlDeferral.DeferralBypassesAnswers | src/cloudeo/control/machine.py:374-376 | From every valid record in attention a deferral and a resumption, both accepted, lead back to the interrupted work with exactly the same reasons answered as before |
| ControlDeferral.UnansweredWorkReachable | src/cloudeo/control/machine.py:374-376 | From every new WorkOrder four accepted steps lead to work under a closed request with a blocking reason that nobody answered |
| ControlPromotion.PromotedIsProven | src/cloudeo/control/machine.py:262-284 | Every reachable promoted record has a promoted outcome, the final verifier's own complete verdict, a candidate on the planned baseline, and every block with passing tests and the auditor's own verdict on one state, a checkpoint of exactly the approved state, and no changed path outside its scope, or outside the memory paths, unless a decision of this run approved a deviation of that block; every audit it rests on was given in an evidenced fresh session by a reader, apart in model family and provider from everyone whose work it judges as the risk demands, unless the user waived that very gap |
| ControlPromotion.IndependentMeans | src/cloudeo/control/model.py:571-596 | Under a valid policy an independent audit is fresh, read-only and apart from each producer, or waived by a decision on a request that named the gap |
| ControlPromotion.ReachableClaims | src/cloudeo/control/machine.py:701-715 | In every reachable record, every recorded change of code or memory that names a deviation names one recorded for that block and approved by the user, and memory was curated in the memory paths of the record |
| ControlPromotion.CodeClaimChecked | src/cloudeo/control/machine.py:668-715 | Code is approved only if the deviation it names is an approved one of that block, and such a one is never refused |
| ControlPromotion.MemoryClaimChecked | src/cloudeo/control/machine.py:783-806 | The same for curated memory |
| ControlPromotion.WithinMeans | src/cloudeo/control/model.py:599-614 | A prefix covers a path if and only if its components, without trailing slashes, begin the components of the path |
| ControlProvenance.StepSourced | src/cloudeo/control/machine.py:104-875 | Every step adds to the plans, approvals, amendments, candidate, baseline, outcome, final audit, evidence log, deviations, used profiles, superseded blocks and the records of each block only what it carries, and alters none of them |
| ControlProvenance.EverythingHasASource | src/cloudeo/control/machine.py:104-875 | In every run each recorded test, audit, change record, accepted or refused checkpoint and attempt of every block, superseded ones included, and each plan, approval, amendment, candidate, baseline, outcome, evidence entry, used profile, deviation and its approval was handed over, word for word, by an earlier step |
| ControlStore.Store.RegisterProfile | src/cloudeo/control/store.py:138-171 | Commits exactly the specified registration, whose next version is one more than the highest recorded, or changes nothing |
| ControlStore.Store.SaveProfile | src/cloudeo/control/store.py:199-232 | Commits exactly the specified profile version, all of whose profiles are registered, or changes nothing |
| ControlStore.Store.CreateOrder | src/cloudeo/control/store.py:268-287 | Writes the row and its event together at version 1, or changes nothing |
| ControlStore.Store.UpdateOrder | src/cloudeo/control/store.py:299-331 | Compare-and-swap: writes the legal successor and its event together, or changes nothing and says why |
| ControlStore.MaxVersion | src/cloudeo/control/store.py:154-157 | The highest recorded version of an id, or zero |
| ControlLog.AlwaysSound | src/cloudeo/control/store.py:268-343 | After any interleaving of requests each log has versions 1 to n with no gap, ends in the stored record, and holds valid records that are legal successors of one another, with registered profiles |
| ControlLog.NothingIsLost | src/cloudeo/control/store.py:92-114 | Registry entries, profile versions and event rows are never changed or removed by later requests |
| ControlLog.OneUpdatePerVersion | src/cloudeo/control/store.py:299-331 | Of several updates that name one version, after one has succeeded every other one is refused as stale |
| ControlLog.NoDuplicateEvents | src/cloudeo/control/store.py:333-343 | No request ever meets an event row that already exists |
| ControlLog.OnlyNewProfilesNeedChecking | src/cloudeo/control/store.py:316-317 | Checking the profiles used since the stored version is enough |
| ControlLog.LogPreserves | src/cloudeo/control/model.py:1034-1101 | Every later stored version keeps the identity, the set baseline and candidate, all histories, every deviation up to a missing approval, every finished block and every terminal record |
| ControlLog.LogAdvances | src/cloudeo/control/model.py:1034-1085 | Every stored version enters its state only from a predecessor of it, changes the profile or a budget only by an amendment added with it, and changes no closed request |
| ControlLog.TerminalStaysAsItIs | src/cloudeo/control/model.py:1038-1039 | The store accepts an update of a terminal record if and only if it changes nothing but the version |
| ControlLog.BudgetMayBeDropped | src/cloudeo/control/model.py:1066-1069 | From every record with a budget and distinct ids there is a legal successor without one, explained by an agent amendment alone |
| ControlLog.DoneBlockForever | src/cloudeo/control/model.py:1078-1085 | A finished block of a stored version is a block of every later version |
| ControlLog.UsedProfilesAgree | src/cloudeo/control/store.py:183-197 | A used profile version means one definition in all stored versions of all WorkOrders, the registered one |
| ControlLog.ProfilesAreOnRecord | src/cloudeo/control/store.py:268-340 | In every history every stored version names registered definitions of all profiles it used, and a saved version of the project profile it runs under |
| ControlLog.StepsCanBeStored | src/cloudeo/control/store.py:299-331 | Storing the result of an accepted step at its own version succeeds, except exactly for the approval that finds a gap, which is refused |
| ControlLog.MachineStoreIsGood | src/cloudeo/control/store.py:268-331 | A store written only by clients that store new drafts and accepted steps from versions they read holds, under any interleaving, only records that satisfy the whole invariant |
| ControlLog.MachineStepsAreStored | src/cloudeo/control/store.py:299-331 | In such a store every accepted step from the stored record is stored, except exactly the approval that finds a gap |
| BridgePaths.NoFileAboveMeans | src/cloudeo/bridge/bundle.py:421-426 | The test on joined prefixes accepts a set of paths if and only if no path is below another |
| BridgePaths.SplitJoin | src/cloudeo/bridge/remote_helper.py:61-74 | Splitting on slashes undoes joining |
| BridgePaths.JoinSplit | src/cloudeo/bridge/remote_helper.py:61-74 | Joining with slashes undoes splitting, so paths with equal components are equal |
| BridgePaths.ExclusionIsHereditary | src/cloudeo/bridge/remote_helper.py:81-85 | Everything below an excluded directory is excluded, so skipping it in the walk loses nothing else |
| BridgePaths.CheckedStaysBelow | src/cloudeo/bridge/remote_helper.py:61-74 | A path is accepted if and only if it resolves below every root to exactly its own components, none of them Git's directory in any letter case, with no NUL, backslash or drive prefix |
| BridgePaths.ExcludedMeans | src/cloudeo/bridge/remote_helper.py:77-85 | Excluded is exactly what lies in the harness's directories, begins with a reserved name, or has a component that is compiled Python's or Git's |
| BridgeDelta.Scan | src/cloudeo/bridge/remote_helper.py:245-313 | Succeeds if and only if every project file is safe and no limit is exceeded, and then returns exactly the non-excluded files; each refusal names a limit that the workspace exceeds, or an unsafe path in it |
| BridgeDelta.Pack | src/cloudeo/bridge/remote_helper.py:350-375 | Returns exactly the added, changed and deleted paths of the current files against the snapshot, sorted, with the current contents |
| BridgeStage.Stage | src/cloudeo/bridge/bundle.py:286-330 | Accepts an untrusted archive if and only if every member is named once, acceptable and within the limits, stages each file exactly under its own path, which resolves below every root to its own components, and blames only what the archive has |
| BridgeCheck.AcceptedIsTrustworthy | src/cloudeo/bridge/bundle.py:399-426 | The path check accepts a delta if and only if paths are safe and distinct, changed and deleted ones were sent and added ones were not, contents match, and no resulting file lies inside another |
| BridgeCheck.AcceptedPathsStay | src/cloudeo/bridge/bundle.py:399-412 | Every path of an accepted delta resolves below every root to exactly its own components and is not excluded |
| BridgeCheck.ProblemIsTrue | src/cloudeo/bridge/bundle.py:399-426 | Every reported problem names a path of the delta of which it is true |
| BridgeCheck.PackedDeltaIsAccepted | src/cloudeo/bridge/remote_helper.py:350-375 | For any snapshot and any scanned remote tree the packed delta passes the local check |
| BridgeCheck.FinalIsRemote | src/cloudeo/bridge/bundle.py:421-421 | Applying an honest delta to the sent paths leaves exactly the remote project paths |
| BridgeTree.FileTree.Replace | src/cloudeo/bridge/bundle.py:591-599 | Puts a file in place or changes nothing, whichever call fails, and leaves no temporary file behind |
| BridgeJournal.Journal.constructor | src/cloudeo/bridge/bundle.py:537-542 | A new journal remembers the tree it starts from |
| BridgeJournal.Journal.MakeParents | src/cloudeo/bridge/bundle.py:550-557 | Makes only missing ancestors, parents first, and can be undone wherever it stops |
| BridgeJournal.Journal.Write | src/cloudeo/bridge/bundle.py:559-565 | Puts exactly the given content and mode at the path or leaves every file as it was, and can be undone wherever it stops |
| BridgeJournal.Journal.Delete | src/cloudeo/bridge/bundle.py:567-576 | Removes exactly the file and then exactly the directories above it that this empties, and can be undone wherever it stops |
| BridgeJournal.Journal.Rollback | src/cloudeo/bridge/bundle.py:578-588 | Restores every file's content and mode and the exact set of directories, from any point at which a write or delete stopped |
| BridgeApply.ApplyDelta | src/cloudeo/bridge/bundle.py:440-486 | A refused plan or a failure anywhere leaves the tree exactly as it was; success leaves exactly the old files with the declared changes; without faults a clear plan succeeds |
| BridgeApply.FirstTarget | src/cloudeo/bridge/bundle.py:497-521 | Finds no problem if and only if no path leads into .git or through a file |
| BridgeApply.PlanProblemIsTrue | src/cloudeo/bridge/bundle.py:440-521 | A refused plan is unsafe only for a path into Git's directory, and in conflict only with a file in its way or a candidate that changed |
| BridgeApply.ModeDigits | src/cloudeo/bridge/bundle.py:524-532 | A mode counts as executable if and only if one of its three digits allows execution |
| BridgeApply.WrittenAt | src/cloudeo/bridge/bundle.py:463-467 | A written path holds its own staged content and mode |
| BridgeRoundTrip.HonestPlan | src/cloudeo/bridge/bundle.py:440-462 | An honest delta against an unchanged candidate with nothing in the way has no plan problem |
| BridgeRoundTrip.PatchedExactly | src/cloudeo/bridge/bundle.py:440-486 | For every accepted delta, honest or not, patching leaves the staged content at each changed or non-ignored added path, nothing at each deleted one, and every other path as it was |
| BridgeRoundTrip.PatchAgrees | src/cloudeo/bridge/bundle.py:463-486 | Patching an unchanged candidate makes it agree with the remote workspace on all sent and non-ignored paths and leaves every other path alone |
| BridgeSnapshot.ManifestIdentifiesFiles | src/cloudeo/bridge/bundle.py:182-186 | Two sets of files have one manifest if and only if they are the same files |
| BridgeSnapshot.CommitRouteIsCanonical | src/cloudeo/longhorizon/promotion_gate.py:362-389 | Reading the files from a commit gives the same manifest as reading them from a worktree |
| BridgeSnapshot.SameManifestUnchanged | src/cloudeo/bridge/bundle.py:215-237 | A rebuilt manifest equal to the sent one means every sent file is still there as it was sent |
| BridgeSnapshot.Exchange | src/cloudeo/bridge/bundle.py:440-486 | One whole exchange: without faults the candidate ends up agreeing with the remote workspace, and with a fault it is untouched |
| BridgeUnpack.Workspace.ReconcileBootstrapDocs | src/cloudeo/bridge/remote_helper.py:177-211 | Succeeds if and only if every present document is marked or the candidate's own, removes exactly the marked ones the snapshot lacks, and says of each present one whether it is replaced, dropped or identical; refusing removes no other file |
| BridgeUnpack.MarkerMeans | src/cloudeo/bridge/remote_helper.py:198-198 | A document is marked if and only if the marker stands somewhere in it |
| BridgeUnpack.Workspace.Unpack | src/cloudeo/bridge/remote_helper.py:149-174 | Succeeds if and only if every document is known and every path has directories above it and in its place nothing, an equal file or a marked document; then leaves exactly the old files without the removed documents, overlaid by the snapshot; wherever it stops, every file is an old one or one of the snapshot and only marked documents are gone; every refusal names what is in the way |
| BridgeUnpack.UnpackThenPack | src/cloudeo/bridge/remote_helper.py:149-174 | Packing right after unpacking changes and deletes nothing, and is empty if and only if the workspace was clean |
| BrokerRefs.AncestorIsLower | src/cloudeo/workspace/git.py:365-369 | A strict ancestor has a strictly shorter history, so no commit descends from its own descendant |
| BrokerRefs.DecidedOnce | src/cloudeo/workspace/git.py:210-258 | In any interleaving of any number of clients no candidate is both promoted and rejected |
| BrokerRefs.DecisionsKept | src/cloudeo/workspace/git.py:210-258 | A decision stays, with the same commit |
| BrokerRefs.AcceptedDescends | src/cloudeo/workspace/git.py:195-229 | Accepted state moves only to descendants of what was accepted before |
| BrokerRefs.PromotionMovesForward | src/cloudeo/workspace/git.py:206-216 | A promotion replaces its base by a strict descendant, a recorded checkpoint of the candidate, in one step |
| BrokerRefs.OnePromotionPerBase | src/cloudeo/workspace/git.py:195-229 | At most one promotion ever succeeds from one accepted commit: accepted state never comes back to it |
| BrokerRefs.OnePromotionPerCandidate | src/cloudeo/workspace/git.py:213-217 | A candidate is promoted at most once |
| BrokerRefs.BasesAreReached | src/cloudeo/workspace/git.py:122-150 | In every interleaving accepted state has reached the base of every registered candidate |
| BrokerRefs.BaseStays | src/cloudeo/workspace/git.py:122-150 | In every interleaving a candidate keeps the base it was registered with until that very registration is undone |
| BrokerRefs.LogLater | src/cloudeo/workspace/git.py:195-267 | Between any two points of any interleaving no recorded checkpoint and no decision is undone, and accepted state only moves to descendants |
| BrokerRefs.StaleForever | src/cloudeo/workspace/git.py:199-204 | Once accepted state has moved past a base, no promotion from that base ever succeeds, so a stale refusal is final |
| Broker.Repository.Interfere | src/cloudeo/workspace/git.py:350-353 | Whatever other clients do keeps the log legal and commits nothing in this client's name |
| Broker.Repository.Transact | src/cloudeo/workspace/git.py:350-353 | A ref transaction commits as a whole and is visible, or changes nothing, with anything happening just before; with nobody else at work and Git working it commits if and only if its checks pass |
| Broker.Client.Initialize | src/cloudeo/workspace/git.py:89-106 | Makes the first acceptance or nothing; a conflict means the workspace accepts another commit, and success that it accepts this one or, when Git itself failed, still none |
| Broker.Client.CreateCandidate | src/cloudeo/workspace/git.py:122-150 | A created candidate was registered at the accepted commit that was read; a stale refusal means another commit was accepted during the call, a stale or uninitialized refusal registers nothing, and a failed creation nothing more than it may unregister; undisturbed, it succeeds if and only if the commit is the accepted one and the id is unused |
| Broker.Client.CheckpointCandidate | src/cloudeo/workspace/git.py:163-193 | A returned checkpoint strictly descends from the base, was recorded by this call's only transaction and is on record; any error means this call committed nothing and is true of the HEAD that was read: nothing to checkpoint means the base or a clean recorded commit, foreign means unregistered or no descendant; undisturbed, it succeeds if and only if an open candidate has an unrecorded state past its base, and records the committed worktree |
| Broker.Client.Promote | src/cloudeo/workspace/git.py:195-229 | Success is exactly one promotion transaction of this client, of a strict descendant; any error means this call committed nothing and is true: stale means accepted state is past the base for good, decided means decided for good, foreign means not a known checkpoint of a descendant, and Git is blamed only if the transaction's own checks would have passed; undisturbed, it succeeds if and only if an open candidate's known checkpoint goes on from the accepted state |
| Broker.Client.ExplainFailure | src/cloudeo/workspace/git.py:215-222 | What is read after a failed transaction names its true cause, because nothing that can stop a promotion is ever undone |
| Broker.Client.RequireOpen | src/cloudeo/workspace/git.py:421-424 | Refuses only a candidate that is decided for good; otherwise it was not promoted before the call and is not rejected at its end |
| Broker.Client.RequireCheckpoint | src/cloudeo/workspace/git.py:411-419 | Passes only a recorded checkpoint whose base accepted state has reached; refuses only one that was unknown at some moment of the call |
| Broker.Client.Reject | src/cloudeo/workspace/git.py:231-267 | Success is exactly one rejection transaction, which marks the judged checkpoint or else the base; any error means this call committed nothing and is true: decided means decided for good, foreign means an unregistered candidate or an unknown or another candidate's checkpoint, and Git is blamed only if the transaction's own checks would have passed; undisturbed, it succeeds if and only if the candidate is open and the checkpoint its own |
| Gate.PromotionGate.Evaluate | src/cloudeo/longhorizon/promotion_gate.py:126-205 | Commits nothing; an allowed decision means the verification has full authority for this very candidate and base, the HEAD that was read is the audited one and the files are the audited content; every other decision says what is wrong with the evidence, the identity, the HEAD, the content, the candidate or the accepted state, and it is |
| Gate.PromotionGate.CheckpointAndPromote | src/cloudeo/longhorizon/promotion_gate.py:208-270 | Under any interleaving a promoted result means this call moved accepted state from the audited base to a commit with exactly the audited tree that is the audited HEAD or its direct child; any other result means it did not move accepted state, and its reason is true; undisturbed and with Git working, every honest candidate is promoted |
| Gate.RefusalIsTrue | src/cloudeo/longhorizon/promotion_gate.py:273-325 | A verification is refused on its evidence if and only if it lacks authority or does not identify what was inspected, and each refusal names what it lacks |
| Gate.ContentIdentifiesTree | src/cloudeo/longhorizon/promotion_gate.py:362-389 | Content names exactly one tree of regular files, and a tree has none if and only if an entry is not a regular file |
| Gate.PromotionGate.HonestIsReady | src/cloudeo/longhorizon/promotion_gate.py:208-270 | An honest candidate's state can be recorded and then promoted, or was recorded as its audited HEAD and can be promoted |
| Gate.MovedInOneStep | src/cloudeo/workspace/git.py:209-214 | A promotion that ends the log replaced its base by its recorded commit in that one step, and that commit is now accepted |
| Text.ParsePrinted | src/cloudeo/longhorizon/promotion_gate.py:401-405 | Reading a printed decimal number gives the number back |
| BlobBatch.HeaderParses | src/cloudeo/longhorizon/promotion_gate.py:400-403 | A header line ends where it should and splits into its three fields, whatever content follows |
| BlobBatch.ReadBlobs | src/cloudeo/longhorizon/promotion_gate.py:392-407 | Parsing the output for any objects returns exactly their contents, whatever bytes they hold, and never accepts an absent object or one that is not a blob; the first object that is no blob decides the refusal |
| CommitContent.CommitManifest | src/cloudeo/longhorizon/promotion_gate.py:362-407 | From the printed objects and the sorted listing of a commit the result is the canonical manifest of the files, the same as their worktree's, whatever bytes they hold |
| EventStream.ReadOn | src/cloudeo/mission_control/query.py:84-92 | Reading on from the last event of a prefix gives exactly the rest |
| EventStream.EventStore.EventsAfter | src/cloudeo/mission_control/query.py:84-92 | At most the limit of rows after the cursor, in strictly increasing order, leaving out none before the last and falling short of the limit only when there are no more |
| EventStream.OneAnswer | src/cloudeo/mission_control/query.py:84-92 | That describes exactly one list: the start of all rows after the cursor |
| EventStream.ControlEvents | src/cloudeo/mission_control/stream.py:40-71 | With appends between any two reads, a subscription emits in order and without gap a prefix of the events after its start cursor; a client with no cursor, or one ahead of the store, is first told to start at the head of some moment of the call and sees nothing that was there before; a client that stays for as many rounds as there were events has received all after its start, unless told that the store is unavailable |
| EventStream.Poll | src/cloudeo/mission_control/stream.py:56-68 | One round sends exactly the next events up to the limit, or a ping if there are none and one is due, or that the store is unavailable, and keeps the cursor at the last id |
| EventStream.Reconnecting | src/cloudeo/mission_control/stream.py:40-71 | A chain of reconnects that resume at the last received id receives each event exactly once, all of them when the last id is the head, and everything that was there at the call once one connection was neither cut nor lossy |
| EventStream.DeliveredOnce | src/cloudeo/mission_control/stream.py:56-62 | What was delivered is exactly the appended events up to the last id, strictly in order |
| LiveReader.NoLostChange | mission-control/src/data/v2-provider.tsx:63-82 | For any interleaving, whenever no read is in flight the shown result comes from a read that started no earlier than the last request |
| LiveReader.OneReadAtATime | mission-control/src/data/v2-provider.tsx:63-82 | At most one read of a key is in flight, counted over the whole interleaving |
| LiveReader.SettlesAfterTwo | mission-control/src/data/v2-provider.tsx:72-79 | Once requests stop, at most two completions bring the key to rest |
| LiveReader.Provider.Load | mission-control/src/data/v2-provider.tsx:63-71 | A request starts a read if and only if none is in flight, and otherwise marks the key |
| LiveReader.Provider.Complete | mission-control/src/data/v2-provider.tsx:72-80 | A completion shows its result and is followed by another read if and only if the key was marked |
| ComparisonBudget.Plan | src/cloudeo/evaluation/compare.py:123-137 | The plan holds every case on both sides in every repetition and nothing else, in whatever order the sides were drawn, and costs exactly that many reserves |
| ComparisonBudget.RunComparison | src/cloudeo/evaluation/compare.py:159-205 | Starts if and only if the plan fits both caps; runs the plan in order while each reserve fits, stops only when the next one does not, and records what was counted |
| ComparisonBudget.UnknownCostIsFull | src/cloudeo/evaluation/compare.py:117-120 | Counted spending is what was reported plus the whole reserve of every trial that reported nothing |
| ComparisonBudget.OvershootIsLastExcess | src/cloudeo/evaluation/compare.py:184-199 | The run cap is exceeded by at most the excess of the last trial over its own reserve |
| ComparisonBudget.HonestRunFits | src/cloudeo/evaluation/compare.py:159-199 | If no trial exceeds its reserve nothing is skipped and the total is within the plan and both caps; in general the weekly cap is exceeded by at most the total excess |
| ComparisonBudget.WeekCapIsNotEnforced | src/cloudeo/evaluation/compare.py:184-199 | One trial beyond its reserve exceeds the weekly cap of a comparison that was allowed to start |
| ComparisonBudget.Ledger.Record | src/cloudeo/evaluation/compare.py:103-114 | Recording a run adds its counted cost to every window that contains it and changes no other sum |

## Left out

- BridgeJournal.Journal.Rollback: the calls that the rollback itself makes are taken to succeed; a failure inside it is not modelled.
- BridgeTree.FileTree.Replace: removing the temporary file afterwards is taken to succeed, and the random temporary name is modelled as some unused name.
- Broker.Client.RequireCandidate: one workspace is modelled, so the workspace id and the local path that a candidate carries are not compared; blank messages and reasons, which the source refuses first, are not modelled.
- BlobBatch.ReadBlobs: bytes are characters and the size field is read as plain decimal digits, so other spellings that Python's `int` accepts are refused; the model of the process prints none.
- LiveReader.NoLostChange: the query source answers every read, with an error value if need be, as the control source does; a read that throws is not modelled.
- ControlRuns.ReachableGood: a run does not change the version number, which only the store assigns; `ControlLog.VersionIsFree` shows that no rule reads it.
- ComparisonBudget.RunComparison: a trial that raises, and the recording of the reserves of trials interrupted by it, are not modelled.
- EventStream.ControlEvents: when the heartbeat is due and when the store cannot be read is chosen freely; real time is not modelled.
- BridgeUnpack.Workspace.Unpack: the workspace is its set of files; empty directories are not modelled.
- Minimum lengths and patterns of text fields: no rule here reads them, and the runs of `ControlWitness` are for all texts.
- Symbolic links, special files, directory permission bits and path resolution on disk.
- Ignore rules of Git: which added paths are ignored is an arbitrary set.
- The encodings themselves: SHA-256, JSON, gzip and tar, and the bound on the decompressed stream.
- The commit listing of `git ls-tree` is taken parsed; only the object batch is parsed here.
- Billing policies, runtime limits and permissions of execution profiles, which no transition reads.
- The LongHorizon library, whose normalized verification is an input record.
- HTTP routes, the UHP, Treg and Jev clients, subprocess handling, React components and command availability tables.
- Graders, bootstrap statistics, medians, threshold verdicts and report rendering of the evaluation layer.
- Cleanup of candidate worktrees, which touches no ref.
