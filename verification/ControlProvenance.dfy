/**
 Where recorded facts come from: every plan, approval, amendment, candidate, attempt, test, audit,
 change record, checkpoint, deviation, outcome and used profile, and every entry of the evidence log,
 was handed over by a step of the run, word for word. No transition invents, swaps or alters one.
 */
module ControlProvenance {
  import opened Prelude
  import opened ControlModel
  import opened ControlEvolution
  import opened ControlMachine
  import opened ControlInvariant
  import opened ControlMoves
  import opened ControlApproval
  import opened ControlJudged
  import opened ControlRuns

  // --- What one step may bring ---

  /** One entry was added at the end. */
  predicate Appends<T(==)>(before: seq<T>, after: seq<T>) {
    |after| == |before| + 1 && before <= after
  }

  function Last<T>(s: seq<T>): T
    requires s != []
  {
    s[|s| - 1]
  }

  /** An attempt is the one the step asked for. */
  predicate AttemptFrom(a: AttemptRecord, id: Identifier, step: Step) {
    || (a.role == PrimaryCodeExecutor && step == DoBlock(id, Begin(a.profile, a.condition, a.evidence)))
    || (a.role == MemoryCurator && step == DoBlock(id, BeginCuration(a.profile, a.condition, a.evidence)))
  }

  /** Block c is block b, with some evidence dropped or with exactly what the step carried. */
  predicate BlockFrom(b: Block, c: Block, step: Step) {
    var id := b.spec.blockId;
    && c.spec == b.spec
    && (c.tests in {None, b.tests} || (c.tests.Some? && step == DoBlock(id, Tests(c.tests.value))))
    && ((c.codeAudit == b.codeAudit && c.codeChanges == b.codeChanges) || (c.codeAudit.None? && c.codeChanges.None?) ||
        (c.codeAudit.Some? && c.codeChanges.Some? &&
         step == DoBlock(id, Approve(c.codeAudit.value, c.codeChanges.value, c.codeAudit.value.auditedState))))
    && (c.memoryAudit in {None, b.memoryAudit} ||
        (c.memoryAudit.Some? && step == DoBlock(id,
                                                ApproveCuration(c.memoryAudit.value,
                                                                c.memoryAudit.value.auditedState))))
    && (c.memoryChanges in {None, b.memoryChanges} ||
        (c.memoryChanges.Some? && step == DoBlock(id, FinishCuration(c.memoryChanges.value))))
    && (c.checkpoint == b.checkpoint
        || (c.checkpoint.Some? && step == DoBlock(id, ProveCheckpoint(c.checkpoint.value))))
    && (c.rejectedCheckpoints == b.rejectedCheckpoints ||
        (Appends(b.rejectedCheckpoints, c.rejectedCheckpoints)
         && step == DoBlock(id, ProveCheckpoint(Last(c.rejectedCheckpoints)))))
    && (c.attempts == b.attempts || (Appends(b.attempts, c.attempts) && AttemptFrom(Last(c.attempts), id, step)))
  }

  predicate BlocksFrom(before: seq<Block>, after: seq<Block>, step: Step) {
    forall c :: c in after ==> c == NewBlock(c.spec) || exists b :: b in before && BlockFrom(b, c, step)
  }

  /** The single fields a step may set, each from its own argument. */
  predicate FieldsFrom(w: WorkOrder, step: Step, next: WorkOrder) {
    && (next.plannedBaseline == w.plannedBaseline
        || (step.DoStartIntake? && next.plannedBaseline == Some(step.baseline)))
    && (next.candidate == w.candidate ||
        (step.DoAttachCandidate? && next.candidate == Some(step.attached)
         && Some(step.attached.baseCommit) == Some(step.baseline) == w.plannedBaseline))
    && (next.planVersions == w.planVersions
        || (step.DoProposePlan? && next.planVersions == w.planVersions + [step.plan]))
    && (next.approvals == w.approvals ||
        (step.DoApprovePlan? &&
         next.approvals == w.approvals + [PlanApproval(step.planVersion, w.executionProfile.version, step.approvedBy)]))
    && (next.finalAudit == w.finalAudit || (next.finalAudit.Some? && step == DoRecordFinalAudit(next.finalAudit.value)))
    && (next.outcome == w.outcome || (next.outcome.Some? && step == DoRecordKernelOutcome(next.outcome.value)))
    && (next.amendments == w.amendments ||
        (step.DoDecide? && step.amendment.Some? && next.amendments == w.amendments + [step.amendment.value]))
  }

  /** A piece of evidence the step hands over for the log. */
  predicate Logs(step: Step, e: EvidenceRef) {
    (step.DoRecordKernelOutcome? && step.outcome.evidence == e) || (step.DoBlock? && step.move == Fail(e))
  }

  /** The profile that the step runs, or whose audit it hands over. */
  predicate Names(step: Step, p: Profile) {
    match step
    case DoRecordFinalAudit(audit) => audit.auditor.fingerprint == p
    case DoBlock(_, Begin(profile, _, _)) => profile.fingerprint == p
    case DoBlock(_, BeginCuration(profile, _, _)) => profile.fingerprint == p
    case DoBlock(_, Approve(audit, _, _)) => audit.auditor.fingerprint == p
    case DoBlock(_, ApproveCuration(audit, _)) => audit.auditor.fingerprint == p
    case _ => false
  }

  /** The step hands over the deviation, or the change record from which it is drawn up. */
  predicate Reports(step: Step, d: Deviation) {
    || step == DoRecordDeviation(d)
    || (step.DoBlock? && step.move.FinishCuration? && step.move.changes.Outside() && d.id.AutoDeviation? && d.material
        && d.blockId == Some(step.block) && d.evidence == step.move.changes.evidence)
  }

  /** A decision that approves the deviation. */
  predicate ApprovesDeviation(step: Step, d: Deviation) {
    step.DoDecide? && d.id in step.decision.approvedDeviations && d.approvedBy == Some(step.decision.actor)
  }

  /** The logs grow by at most one entry, which the step hands over, or deviations are approved by its decision. */
  predicate LogsFrom(w: WorkOrder, step: Step, next: WorkOrder) {
    && (next.evidence == w.evidence || (Appends(w.evidence, next.evidence) && Logs(step, Last(next.evidence))))
    && (next.usedProfiles == w.usedProfiles
        || (Appends(w.usedProfiles, next.usedProfiles) && Names(step, Last(next.usedProfiles))))
    && (next.deviations == w.deviations
        || (Appends(w.deviations, next.deviations) && Last(next.deviations).approvedBy.None?
            && Reports(step, Last(next.deviations)))
        || DeviationsApprovedBy(w.deviations, next.deviations, step))
    && (next.supersededBlocks == w.supersededBlocks
        || (step.DoApprovePlan? && next.supersededBlocks == w.supersededBlocks + Superseded(w.blocks)))
  }

  predicate DeviationsApprovedBy(before: seq<Deviation>, after: seq<Deviation>, step: Step) {
    && |after| == |before|
    && forall i :: 0 <= i < |before| ==>
         after[i] == before[i] || (after[i] == before[i].(approvedBy := after[i].approvedBy)
                                   && ApprovesDeviation(step, after[i]))
  }

  predicate Sourced(w: WorkOrder, step: Step, next: WorkOrder) {
    FieldsFrom(w, step, next) && LogsFrom(w, step, next) && BlocksFrom(w.blocks, next.blocks, step)
  }

  // --- Steps that touch no block ---

  lemma SameBlocksFrom(blocks: seq<Block>, step: Step)
    ensures BlocksFrom(blocks, blocks, step)
  {
    forall c | c in blocks
      ensures BlockFrom(c, c, step)
    {
    }
  }

  /** Raising attention changes the status and the requests only. */
  lemma RaisingLeavesRest()
    ensures forall w, reasons, id :: RaiseAttention(w, reasons, id).Ok? ==>
              var next := RaiseAttention(w, reasons, id).value;
              next == w.(status := next.status, attention := next.attention)
  {
  }

  lemma PlainSteps(w: WorkOrder, step: Step)
    requires Take(w, step).Ok? && !step.DoBlock? && !step.DoApprovePlan? && !step.DoDecide?
    ensures Sourced(w, step, Take(w, step).value)
  {
    hide RaiseAttention, BlocksFrom, RecordFinalAudit, RecordKernelOutcome, ResumeDeferred, RecordDeviation,
      AttachCandidate;
    SameBlocksFrom(w.blocks, step);
    match step {
      case DoRecordFinalAudit(audit) => FinalAuditSourced(w, audit);
      case DoRecordKernelOutcome(outcome) => OutcomeSourced(w, outcome);
      case DoResumeDeferred(baseline) => ResumeSourced(w, baseline);
      case DoRecordDeviation(deviation) => DeviationSourced(w, deviation);
      case DoAttachCandidate(candidate, baseline) => AttachSourced(w, candidate, baseline);
      case _ => RaisingLeavesRest();
    }
  }

  lemma FinalAuditSourced(w: WorkOrder, audit: AuditRecord)
    requires RecordFinalAudit(w, audit).Ok?
    ensures FieldsFrom(w, DoRecordFinalAudit(audit), RecordFinalAudit(w, audit).value)
            && LogsFrom(w, DoRecordFinalAudit(audit), RecordFinalAudit(w, audit).value)
    ensures RecordFinalAudit(w, audit).value.blocks == w.blocks
  {
    hide RaiseAttention, RecordedGaps, CheckProfile, Writers, GapEvidence, Logs, Reports, ApprovesDeviation,
      DeviationsApprovedBy, Superseded;
    RaisingLeavesRest();
  }

  lemma OutcomeSourced(w: WorkOrder, outcome: KernelOutcome)
    requires RecordKernelOutcome(w, outcome).Ok?
    ensures FieldsFrom(w, DoRecordKernelOutcome(outcome), RecordKernelOutcome(w, outcome).value)
    ensures LogsFrom(w, DoRecordKernelOutcome(outcome), RecordKernelOutcome(w, outcome).value)
    ensures RecordKernelOutcome(w, outcome).value.blocks == w.blocks
  {
    hide RaiseAttention;
    RaisingLeavesRest();
  }

  lemma ResumeSourced(w: WorkOrder, baseline: CommitSha)
    requires ResumeDeferred(w, baseline).Ok?
    ensures FieldsFrom(w, DoResumeDeferred(baseline), ResumeDeferred(w, baseline).value)
    ensures LogsFrom(w, DoResumeDeferred(baseline), ResumeDeferred(w, baseline).value)
    ensures ResumeDeferred(w, baseline).value.blocks == w.blocks
  {
    hide RaiseAttention;
    RaisingLeavesRest();
  }

  lemma DeviationSourced(w: WorkOrder, d: Deviation)
    requires RecordDeviation(w, d).Ok?
    ensures FieldsFrom(w, DoRecordDeviation(d), RecordDeviation(w, d).value)
            && LogsFrom(w, DoRecordDeviation(d), RecordDeviation(w, d).value)
    ensures RecordDeviation(w, d).value.blocks == w.blocks
  {
    hide RaiseAttention;
    RaisingLeavesRest();
  }

  lemma AttachSourced(w: WorkOrder, candidate: Candidate, baseline: CommitSha)
    requires AttachCandidate(w, candidate, baseline).Ok?
    ensures FieldsFrom(w, DoAttachCandidate(candidate, baseline), AttachCandidate(w, candidate, baseline).value)
    ensures LogsFrom(w, DoAttachCandidate(candidate, baseline), AttachCandidate(w, candidate, baseline).value)
    ensures AttachCandidate(w, candidate, baseline).value.blocks == w.blocks
  {
    hide RaiseAttention;
    RaisingLeavesRest();
  }

  // --- Decisions ---

  /** Answering, closing and resuming change the status, the requests and the deferral only. */
  predicate OnlyAnswered(w: WorkOrder, next: WorkOrder) {
    next == w.(status := next.status, attention := next.attention, deferredFrom := next.deferredFrom)
  }

  lemma DeviationsRest(w: WorkOrder, decision: UserDecision)
    requires ApproveDeviations(w, decision).Ok?
    ensures var next := ApproveDeviations(w, decision).value; next == w.(deviations := next.deviations)
    ensures forall amendment, observed ::
              DeviationsApprovedBy(w.deviations, ApproveDeviations(w, decision).value.deviations,
                                   DoDecide(decision, amendment, observed))
  {
  }

  lemma ResumeRest(w: WorkOrder, request: AttentionRequest, observed: Option<CommitSha>)
    requires ResumeDecision(w, request, observed).Ok?
    ensures OnlyAnswered(w, ResumeDecision(w, request, observed).value)
  {
    hide RaiseAttention, ReplaceRequest, AttentionRequest.Unblocked;
    RaisingLeavesRest();
  }

  lemma AmendRest(w: WorkOrder, request: AttentionRequest, decision: UserDecision, amendment: Option<Amendment>)
    requires Amend(w, request, decision, amendment).Ok?
    ensures var next := Amend(w, request, decision, amendment).value;
            && amendment.Some? && next.amendments == w.amendments + [amendment.value]
            && next.blocks in {w.blocks, ResetCounters(w.blocks)}
            && next == w.(executionProfile := next.executionProfile, budget := next.budget,
                          amendments := next.amendments,
                          blocks := next.blocks, attention := next.attention)
  {
    hide ReplaceRequest, ResetCounters;
  }

  lemma DecideSourced(w: WorkOrder, decision: UserDecision, amendment: Option<Amendment>, observed: Option<CommitSha>)
    requires Decide(w, decision, amendment, observed).Ok?
    ensures Sourced(w, DoDecide(decision, amendment, observed), Decide(w, decision, amendment, observed).value)
  {
    hide BlocksFrom, ApproveDeviations, ResumeDecision, Amend, ReplaceRequest, OpenRequest, ResetCounters;
    var approved := ApproveDeviations(w, decision).value;
    var request := OpenRequest(w.attention).value.(decisions := OpenRequest(w.attention).value.decisions + [decision]);
    DeviationsRest(w, decision);
    SameBlocksFrom(w.blocks, DoDecide(decision, amendment, observed));
    ResetFrom(w.blocks, DoDecide(decision, amendment, observed));
    if decision.action in {ChangeAgentAction, ChangeBudgetAction} {
      AmendRest(approved, request, decision, amendment);
    } else if decision.action == Resume {
      ResumeRest(approved, request, observed);
    }
  }

  lemma ResetFrom(blocks: seq<Block>, step: Step)
    ensures BlocksFrom(blocks, ResetCounters(blocks), step)
  {
    var reset := ResetCounters(blocks);
    forall c | c in reset
      ensures exists b :: b in blocks && BlockFrom(b, c, step)
    {
      var i :| 0 <= i < |reset| && reset[i] == c;
      assert blocks[i] in blocks && BlockFrom(blocks[i], c, step);
    }
  }

  // --- Plan approval ---

  lemma ApprovalSourced(w: WorkOrder, planVersion: nat, approvedBy: string)
    requires ApprovePlan(w, planVersion, approvedBy).Ok?
    ensures Sourced(w, DoApprovePlan(planVersion, approvedBy), ApprovePlan(w, planVersion, approvedBy).value)
  {
    hide RaiseAttention, BlocksFrom, PlanGaps, PlannedBlocks, Superseded, DoneBlocksIn, GapEvidence, Logs, Names,
      Reports,
      ApprovesDeviation, DeviationsApprovedBy;
    RaisingLeavesRest();
    PlannedFrom(w.blocks, w.planVersions[planVersion - 1].blocks, DoApprovePlan(planVersion, approvedBy));
  }

  lemma PlannedFrom(blocks: seq<Block>, specs: seq<BlockSpec>, step: Step)
    ensures BlocksFrom(blocks, PlannedBlocks(blocks, specs), step)
  {
    var planned := PlannedBlocks(blocks, specs);
    forall c | c in planned
      ensures c == NewBlock(c.spec) || exists b :: b in blocks && BlockFrom(b, c, step)
    {
      var i :| 0 <= i < |planned| && planned[i] == c;
      PlannedBlockIs(blocks, specs[i]);
      if c in blocks {
        assert BlockFrom(c, c, step);
      }
    }
  }

  // --- Block steps ---

  /** Only these parts of a record change in a block step. */
  predicate OnlyBlocks(w: WorkOrder, next: WorkOrder) {
    next == w.(blocks := next.blocks, status := next.status, attention := next.attention, evidence := next.evidence,
               usedProfiles := next.usedProfiles, deviations := next.deviations)
  }

  /**
   A move leaves the blocks alone, or changes its own block into one that holds what it held and what
   the move carries.
   */
  ghost predicate MoveResult(w: WorkOrder, id: Identifier, move: BlockMove, next: WorkOrder) {
    var step := DoBlock(id, move);
    && OnlyBlocks(w, next) && LogsFrom(w, step, next)
    && (next.blocks == w.blocks ||
        (FindBlock(w.blocks, id).Some? &&
         exists c :: BlockFrom(FindBlock(w.blocks, id).value, c, step) && next.blocks == UpdateBlock(w.blocks, c)))
  }

  /** A move that uses a profile and changes its block. */
  lemma ChangedResult(w: WorkOrder, id: Identifier, move: BlockMove, b: Block, c: Block, p: Profile)
    requires FindBlock(w.blocks, id) == Some(b) && BlockFrom(b, c, DoBlock(id, move)) && Names(DoBlock(id, move), p)
    ensures MoveResult(w, id, move, Use(w, p).(blocks := UpdateBlock(w.blocks, c)))
  {
    hide BlockFrom, Names, FindBlock, UpdateBlock;
  }

  /** A move that only asks the user. */
  lemma AskedResult(w: WorkOrder, id: Identifier, move: BlockMove, reason: AttentionReason)
    requires RaiseAttention(w, [reason], None).Ok?
    ensures MoveResult(w, id, move, RaiseAttention(w, [reason], None).value)
  {
    hide RaiseAttention, BlockFrom, FindBlock;
    RaisingLeavesRest();
  }

  lemma OneMore<T>(s: seq<T>, x: T)
    ensures Appends(s, s + [x]) && Last(s + [x]) == x
  {
  }

  lemma RunResult(w: WorkOrder, id: Identifier, move: BlockMove)
    requires Move(w, id, move).Ok? && (move.Finish? || move.Tests? || move.EnterCheckpoint?)
    ensures MoveResult(w, id, move, Move(w, id, move).value)
  {
    hide UpdateBlock, FindBlock, Block.ApprovingAudit;
  }

  lemma FailResult(w: WorkOrder, id: Identifier, failure: EvidenceRef)
    requires FailAttempt(w, id, failure).Ok?
    ensures MoveResult(w, id, Fail(failure), FailAttempt(w, id, failure).value)
  {
    hide RaiseAttention, UpdateBlock, FindBlock;
    RaisingLeavesRest();
  }

  lemma BeginResult(w: WorkOrder, id: Identifier, profile: ProfileRef, condition: Option<FallbackCondition>,
                    proof: Option<EvidenceRef>)
    requires BeginAttempt(w, id, profile, condition, proof).Ok?
    ensures MoveResult(w, id, Begin(profile, condition, proof), BeginAttempt(w, id, profile, condition, proof).value)
  {
    hide RaiseAttention, UpdateBlock, CheckProfile, ProducerGaps, FindBlock, GapEvidence, MoveResult, Use, Appends,
      Last;
    var move, b := Begin(profile, condition, proof), BlockIn(w, id, {Pending}).value;
    var gaps := ProducerGaps(w, PrimaryCodeExecutor, profile.fingerprint);
    var attempt := AttemptRecord(PrimaryCodeExecutor, profile, condition, proof);
    if !AttemptsLeft(w.budget, b.failedAttempts) {
      AskedResult(w, id, move, Exhausted("block attempts", Reference("block", id)));
    } else if gaps != [] {
      AskedResult(w, id, move,
                  AttentionReason(IndependenceUnavailable, Blocking, "auditor independence cannot be met",
                                  GapEvidence(gaps), []));
    } else {
      OneMore(b.attempts, attempt);
      ChangedResult(w, id, move, b,
                    b.(status := Running, attempts := b.attempts + [attempt], tests := None, codeAudit := None,
                       codeChanges := None),
                    profile.fingerprint);
    }
  }

  lemma CurationResult(w: WorkOrder, id: Identifier, profile: ProfileRef, condition: Option<FallbackCondition>,
                       proof: Option<EvidenceRef>)
    requires BeginMemoryCuration(w, id, profile, condition, proof).Ok?
    ensures MoveResult(w, id, BeginCuration(profile, condition, proof),
                       BeginMemoryCuration(w, id, profile, condition, proof).value)
  {
    hide RaiseAttention, UpdateBlock, CheckProfile, ProducerGaps, BeginMemoryCuration, FindBlock, GapEvidence,
      MoveResult, Use, Appends, Last;
    var move := BeginCuration(profile, condition, proof);
    var i := CurationOutcome(w, id, profile, condition, proof);
    var gaps := ProducerGaps(w, MemoryCurator, profile.fingerprint);
    if !AttemptsLeft(w.budget, w.blocks[i].curationAttempts) {
      AskedResult(w, id, move, Exhausted("memory curation", Reference("block", id)));
    } else if gaps != [] {
      AskedResult(w, id, move,
                  AttentionReason(IndependenceUnavailable, Blocking, "auditor independence cannot be met",
                                  GapEvidence(gaps), []));
    } else {
      var attempt := AttemptRecord(MemoryCurator, profile, condition, proof);
      OneMore(w.blocks[i].attempts, attempt);
      ChangedResult(w, id, move, w.blocks[i], CuratedBlock(w.blocks[i], attempt), profile.fingerprint);
    }
  }

  lemma ApproveResult(w: WorkOrder, id: Identifier, audit: AuditRecord, changes: ChangeRecord, current: StateIdentity)
    requires ApproveCode(w, id, audit, changes, current).Ok?
    ensures MoveResult(w, id, Approve(audit, changes, current), ApproveCode(w, id, audit, changes, current).value)
  {
    hide RaiseAttention, UpdateBlock, CheckProfile, RecordedGaps, Block.CodeApprovalHolds, FindBlock, ProducersOf,
      GapEvidence, MoveResult, Use, Appends, Last;
    var move, b, risk := Approve(audit, changes, current), BlockIn(w, id, {BlockResult}).value, ApprovedRisk(w);
    var gaps := RecordedGaps(w, risk, audit, ProducersOf(b.attempts, {PrimaryCodeExecutor}));
    if gaps != [] {
      AskedResult(w, id, move,
                  AttentionReason(IndependenceUnavailable, Blocking, "auditor independence cannot be met",
                                  GapEvidence(gaps), []));
    } else {
      ChangedResult(w, id, move, b,
                    b.(codeAudit := Some(audit), codeChanges := Some(changes), riskClass := Some(risk),
                       status := CodeApproved),
                    audit.auditor.fingerprint);
    }
  }

  lemma FinishCurationResult(w: WorkOrder, id: Identifier, changes: ChangeRecord)
    requires FinishMemoryCuration(w, id, changes).Ok?
    ensures MoveResult(w, id, FinishCuration(changes), FinishMemoryCuration(w, id, changes).value)
  {
    hide RaiseAttention, UpdateBlock, ChangeRecord.Outside, RecordDeviation, FindBlock;
    var found := BlockIn(w, id, {MemoryCuration}).value;
    var audited := w.(blocks := UpdateBlock(w.blocks, found.(status := MemoryAudit, memoryChanges := Some(changes))));
    var d := Deviation(AutoDeviation(|w.deviations| + 1), Some(id), true,
                       "memory curation changed paths outside memory_paths", changes.evidence, None);
    if RecordDeviation(audited, d).Ok? {
      DeviationLeavesRest(audited, d);
    }
  }

  lemma DeviationLeavesRest(w: WorkOrder, d: Deviation)
    requires RecordDeviation(w, d).Ok?
    ensures var next := RecordDeviation(w, d).value;
            next == w.(deviations := w.deviations + [d], status := next.status, attention := next.attention)
    ensures d.approvedBy.None?
  {
    hide RaiseAttention;
    RaisingLeavesRest();
  }

  /** An approval of curated memory either asks the user about gaps or completes the block. */
  lemma MemoryOutcome(w: WorkOrder, id: Identifier, audit: AuditRecord, current: StateIdentity)
    returns (b: Block, gaps: seq<Gap>)
    requires ApproveMemory(w, id, audit, current).Ok?
    ensures FindBlock(w.blocks, id) == Some(b) && audit.auditedState == current
    ensures ApproveMemory(w, id, audit, current) ==
            if gaps != [] then IndependenceAttention(w, gaps)
            else Ok(Use(w, audit.auditor.fingerprint).(blocks := UpdateBlock(w.blocks,
                b.(memoryAudit := Some(audit), status := BlockCheckpoint))))
  {
    hide IndependenceAttention, UpdateBlock, CheckProfile, RecordedGaps, Block.MemoryApprovalHolds, FindBlock,
      ProducersOf, Use;
    b := BlockIn(w, id, {MemoryAudit}).value;
    gaps := RecordedGaps(w, b.riskClass.value, audit, ProducersOf(b.attempts, {MemoryCurator}));
  }

  lemma ApproveCurationResult(w: WorkOrder, id: Identifier, audit: AuditRecord, current: StateIdentity)
    requires ApproveMemory(w, id, audit, current).Ok?
    ensures MoveResult(w, id, ApproveCuration(audit, current), ApproveMemory(w, id, audit, current).value)
  {
    hide ApproveMemory, RaiseAttention, UpdateBlock, FindBlock, GapEvidence, MoveResult, Use, Appends, Last;
    var move := ApproveCuration(audit, current);
    var b, gaps := MemoryOutcome(w, id, audit, current);
    if gaps != [] {
      AskedResult(w, id, move,
                  AttentionReason(IndependenceUnavailable, Blocking, "auditor independence cannot be met",
                                  GapEvidence(gaps), []));
    } else {
      ChangedResult(w, id, move, b, b.(memoryAudit := Some(audit), status := BlockCheckpoint),
                    audit.auditor.fingerprint);
    }
  }

  lemma ProveResult(w: WorkOrder, id: Identifier, proof: CheckpointProof)
    requires ProveBlockCheckpoint(w, id, proof).Ok?
    ensures MoveResult(w, id, ProveCheckpoint(proof), ProveBlockCheckpoint(w, id, proof).value)
  {
    hide RaiseAttention, UpdateBlock, CheckpointProof.Proves, Block.ApprovingAudit, FindBlock;
    var found := BlockIn(w, id, {BlockCheckpoint}).value;
    if !proof.Proves(found.ApprovingAudit().value.auditedState) {
      var kept := w.(blocks :=
                     UpdateBlock(w.blocks, found.(rejectedCheckpoints := found.rejectedCheckpoints + [proof])));
      RaiseLeavesRest(kept, [AttentionReason(BlockCheckpointMismatch, Blocking, "not the audited block state",
                                             [proof.evidence], [])], None);
    }
  }

  lemma MoveHasResult(w: WorkOrder, id: Identifier, move: BlockMove)
    requires Move(w, id, move).Ok?
    ensures MoveResult(w, id, move, Move(w, id, move).value)
  {
    hide MoveResult;
    match move
    case Begin(profile, condition, proof) => BeginResult(w, id, profile, condition, proof);
    case BeginCuration(profile, condition, proof) => CurationResult(w, id, profile, condition, proof);
    case Approve(audit, changes, current) => ApproveResult(w, id, audit, changes, current);
    case FinishCuration(changes) => FinishCurationResult(w, id, changes);
    case ApproveCuration(audit, current) => ApproveCurationResult(w, id, audit, current);
    case ProveCheckpoint(checkpoint) => ProveResult(w, id, checkpoint);
    case Fail(failure) => FailResult(w, id, failure);
    case _ => RunResult(w, id, move);
  }

  lemma UpdateFrom(blocks: seq<Block>, b: Block, c: Block, step: Step)
    requires b in blocks && BlockFrom(b, c, step)
    ensures BlocksFrom(blocks, UpdateBlock(blocks, c), step)
  {
    var after := UpdateBlock(blocks, c);
    forall x | x in after
      ensures exists y :: y in blocks && BlockFrom(y, x, step)
    {
      var i :| 0 <= i < |after| && after[i] == x;
      if x != c {
        assert blocks[i] in blocks && BlockFrom(x, x, step);
      }
    }
  }

  lemma MoveSourced(w: WorkOrder, id: Identifier, move: BlockMove)
    requires Move(w, id, move).Ok?
    ensures Sourced(w, DoBlock(id, move), Move(w, id, move).value)
  {
    hide BlocksFrom, BlockFrom, UpdateBlock, Move, LogsFrom;
    MoveHasResult(w, id, move);
    SameBlocksFrom(w.blocks, DoBlock(id, move));
    if Move(w, id, move).value.blocks != w.blocks {
      var b := FindBlock(w.blocks, id).value;
      var c :| BlockFrom(b, c, DoBlock(id, move)) && Move(w, id, move).value.blocks == UpdateBlock(w.blocks, c);
      UpdateFrom(w.blocks, b, c, DoBlock(id, move));
    }
  }

  /** Every step brings only what it carries. */
  lemma StepSourced(w: WorkOrder, step: Step)
    requires Take(w, step).Ok?
    ensures Sourced(w, step, Take(w, step).value)
  {
    hide Sourced, Move, Decide, ApprovePlan;
    match step {
      case DoBlock(id, move) => MoveSourced(w, id, move);
      case DoDecide(decision, amendment, observed) => DecideSourced(w, decision, amendment, observed);
      case DoApprovePlan(n, approvedBy) => ApprovalSourced(w, n, approvedBy);
      case _ => PlainSteps(w, step);
    }
  }

  // --- Whole runs ---

  predicate ApprovedIn(steps: seq<Step>, id: Identifier, audit: AuditRecord, changes: ChangeRecord) {
    DoBlock(id, Approve(audit, changes, audit.auditedState)) in steps
  }

  predicate AttemptIn(steps: seq<Step>, id: Identifier, a: AttemptRecord) {
    exists s :: s in steps && AttemptFrom(a, id, s)
  }

  /** Everything a block holds was carried by a step for that block. */
  predicate BlockSourced(steps: seq<Step>, c: Block) {
    var id := c.spec.blockId;
    && (c.tests.Some? ==> DoBlock(id, Tests(c.tests.value)) in steps)
    && (c.codeAudit.Some? <==> c.codeChanges.Some?)
    && (c.codeAudit.Some? ==> ApprovedIn(steps, id, c.codeAudit.value, c.codeChanges.value))
    && (c.memoryChanges.Some? ==> DoBlock(id, FinishCuration(c.memoryChanges.value)) in steps)
    && (c.memoryAudit.Some? ==>
        DoBlock(id, ApproveCuration(c.memoryAudit.value, c.memoryAudit.value.auditedState)) in steps)
    && (c.checkpoint.Some? ==> DoBlock(id, ProveCheckpoint(c.checkpoint.value)) in steps)
    && (forall p :: p in c.rejectedCheckpoints ==> DoBlock(id, ProveCheckpoint(p)) in steps)
    && (forall a :: a in c.attempts ==> AttemptIn(steps, id, a))
  }

  predicate AttachedIn(steps: seq<Step>, c: Candidate) {
    DoAttachCandidate(c, c.baseCommit) in steps
  }

  predicate ApprovalIn(steps: seq<Step>, a: PlanApproval) {
    DoApprovePlan(a.planVersion, a.approvedBy) in steps
  }

  predicate AmendedIn(steps: seq<Step>, a: Amendment) {
    exists s :: s in steps && s.DoDecide? && s.amendment == Some(a)
  }

  predicate LoggedIn(steps: seq<Step>, e: EvidenceRef) {
    exists s :: s in steps && Logs(s, e)
  }

  predicate NamedIn(steps: seq<Step>, p: Profile) {
    exists s :: s in steps && Names(s, p)
  }

  /** The deviation was reported unapproved, and its approval, if any, is a decision's. */
  predicate DeviationIn(steps: seq<Step>, d: Deviation) {
    && (exists s :: s in steps && Reports(s, d.(approvedBy := None)))
    && (d.approvedBy.Some? ==> exists s :: s in steps && ApprovesDeviation(s, d))
  }

  /** Everything a record holds was carried by an earlier step. */
  predicate RecordSourced(steps: seq<Step>, w: WorkOrder) {
    && (w.plannedBaseline.Some? ==> DoStartIntake(w.plannedBaseline.value) in steps)
    && (w.candidate.Some? ==> AttachedIn(steps, w.candidate.value))
    && (forall p :: p in w.planVersions ==> DoProposePlan(p) in steps)
    && (forall a :: a in w.approvals ==> ApprovalIn(steps, a))
    && (forall a :: a in w.amendments ==> AmendedIn(steps, a))
    && (w.finalAudit.Some? ==> DoRecordFinalAudit(w.finalAudit.value) in steps)
    && (w.outcome.Some? ==> DoRecordKernelOutcome(w.outcome.value) in steps)
    && (forall e :: e in w.evidence ==> LoggedIn(steps, e))
    && (forall p :: p in w.usedProfiles ==> NamedIn(steps, p))
    && (forall d :: d in w.deviations ==> DeviationIn(steps, d))
    && (forall b :: b in w.blocks + w.supersededBlocks ==> BlockSourced(steps, b))
  }

  lemma InMore(steps: seq<Step>, step: Step)
    ensures step in steps + [step] && forall s :: s in steps ==> s in steps + [step]
  {
  }

  lemma AppendedMember<T>(before: seq<T>, after: seq<T>, x: T)
    requires Appends(before, after) && x in after
    ensures x in before || x == Last(after)
  {
    assert after == before + [Last(after)];
  }

  lemma BlockSourcedStep(steps: seq<Step>, step: Step, b: Block, c: Block)
    requires BlockSourced(steps, b) && BlockFrom(b, c, step)
    ensures BlockSourced(steps + [step], c)
  {
    hide Appends;
    var more, id := steps + [step], c.spec.blockId;
    InMore(steps, step);
    forall p | p in c.rejectedCheckpoints
      ensures DoBlock(id, ProveCheckpoint(p)) in more
    {
      if p !in b.rejectedCheckpoints {
        AppendedMember(b.rejectedCheckpoints, c.rejectedCheckpoints, p);
      }
    }
    forall a | a in c.attempts
      ensures AttemptIn(more, id, a)
    {
      AttemptSourced(steps, step, b, c, a);
    }
  }

  lemma AttemptSourced(steps: seq<Step>, step: Step, b: Block, c: Block, a: AttemptRecord)
    requires BlockSourced(steps, b) && BlockFrom(b, c, step) && a in c.attempts
    ensures AttemptIn(steps + [step], c.spec.blockId, a)
  {
    hide Appends;
    InMore(steps, step);
    if a in b.attempts {
      var s :| s in steps && AttemptFrom(a, b.spec.blockId, s);
      assert s in steps + [step];
    } else {
      AppendedMember(b.attempts, c.attempts, a);
    }
  }

  /** What is sourced stays sourced when the run goes on. */
  lemma BlockStaysSourced(steps: seq<Step>, step: Step, b: Block)
    requires BlockSourced(steps, b)
    ensures BlockSourced(steps + [step], b)
  {
    BlockSourcedStep(steps, step, b, b);
  }

  lemma FieldsSourcedStep(steps: seq<Step>, w: WorkOrder, step: Step, next: WorkOrder)
    requires RecordSourced(steps, w) && FieldsFrom(w, step, next)
    requires var more := steps + [step];
             && (forall e :: e in next.evidence ==> LoggedIn(more, e))
             && (forall p :: p in next.usedProfiles ==> NamedIn(more, p))
             && (forall d :: d in next.deviations ==> DeviationIn(more, d))
             && (forall b :: b in next.blocks + next.supersededBlocks ==> BlockSourced(more, b))
    ensures RecordSourced(steps + [step], next)
  {
    hide BlockSourced, LoggedIn, NamedIn, DeviationIn;
    var more := steps + [step];
    InMore(steps, step);
    forall a | a in next.amendments
      ensures AmendedIn(more, a)
    {
      if a in w.amendments {
        var s :| s in steps && s.DoDecide? && s.amendment == Some(a);
        assert s in more;
      }
    }
  }

  lemma LogsSourcedStep(steps: seq<Step>, w: WorkOrder, step: Step, next: WorkOrder)
    requires RecordSourced(steps, w) && LogsFrom(w, step, next)
    ensures forall e :: e in next.evidence ==> LoggedIn(steps + [step], e)
    ensures forall p :: p in next.usedProfiles ==> NamedIn(steps + [step], p)
  {
    hide BlockSourced, BlocksFrom, DeviationIn, Appends, Logs, Names, DeviationsApprovedBy, Superseded;
    var more := steps + [step];
    InMore(steps, step);
    forall e | e in next.evidence
      ensures LoggedIn(more, e)
    {
      if e in w.evidence {
        var s :| s in steps && Logs(s, e);
        assert s in more;
      } else {
        AppendedMember(w.evidence, next.evidence, e);
      }
    }
    forall p | p in next.usedProfiles
      ensures NamedIn(more, p)
    {
      if p in w.usedProfiles {
        var s :| s in steps && Names(s, p);
        assert s in more;
      } else {
        AppendedMember(w.usedProfiles, next.usedProfiles, p);
      }
    }
  }

  lemma DeviationsSourcedStep(steps: seq<Step>, w: WorkOrder, step: Step, next: WorkOrder, d: Deviation)
    requires RecordSourced(steps, w) && LogsFrom(w, step, next) && d in next.deviations
    ensures DeviationIn(steps + [step], d)
  {
    hide BlockSourced, BlocksFrom, Appends, Logs, Names, LoggedIn, NamedIn, Superseded, Reports, ApprovesDeviation;
    InMore(steps, step);
    if d in w.deviations {
      DeviationStays(steps, step, d);
    } else if DeviationsApprovedBy(w.deviations, next.deviations, step) {
      var i :| 0 <= i < |next.deviations| && next.deviations[i] == d;
      assert w.deviations[i] in w.deviations;
      var s :| s in steps && Reports(s, w.deviations[i].(approvedBy := None));
      assert s in steps + [step] && Reports(s, d.(approvedBy := None));
    } else {
      AppendedMember(w.deviations, next.deviations, d);
      assert d.(approvedBy := None) == d;
    }
  }

  lemma DeviationStays(steps: seq<Step>, step: Step, d: Deviation)
    requires DeviationIn(steps, d)
    ensures DeviationIn(steps + [step], d)
  {
    hide Reports, ApprovesDeviation;
    var s :| s in steps && Reports(s, d.(approvedBy := None));
    assert s in steps + [step];
    if d.approvedBy.Some? {
      var a :| a in steps && ApprovesDeviation(a, d);
      assert a in steps + [step];
    }
  }

  lemma BlocksSourcedStep(steps: seq<Step>, w: WorkOrder, step: Step, next: WorkOrder, c: Block)
    requires RecordSourced(steps, w) && BlocksFrom(w.blocks, next.blocks, step) && LogsFrom(w, step, next)
    requires c in next.blocks + next.supersededBlocks
    ensures BlockSourced(steps + [step], c)
  {
    hide BlockSourced, BlockFrom, LoggedIn, NamedIn, DeviationIn, Logs, Names, DeviationsApprovedBy, Reports,
      Superseded;
    SupersededAreBlocks(w.blocks);
    if c in w.blocks + w.supersededBlocks {
      BlockStaysSourced(steps, step, c);
    } else if c == NewBlock(c.spec) {
      NewBlockSourced(steps + [step], c.spec);
    } else {
      var b :| b in w.blocks && BlockFrom(b, c, step);
      BlockSourcedStep(steps, step, b, c);
    }
  }

  lemma {:induction false} SupersededAreBlocks(blocks: seq<Block>)
    ensures forall b :: b in Superseded(blocks) ==> b in blocks
  {
    if blocks != [] {
      SupersededAreBlocks(blocks[..|blocks| - 1]);
    }
  }

  lemma RecordSourcedStep(steps: seq<Step>, w: WorkOrder, step: Step, next: WorkOrder)
    requires RecordSourced(steps, w) && Sourced(w, step, next)
    ensures RecordSourced(steps + [step], next)
  {
    hide BlockSourced, FieldsFrom, BlocksFrom, RecordSourced, LogsFrom, LoggedIn, NamedIn, DeviationIn;
    LogsSourcedStep(steps, w, step, next);
    forall d | d in next.deviations
      ensures DeviationIn(steps + [step], d)
    {
      DeviationsSourcedStep(steps, w, step, next, d);
    }
    forall c | c in next.blocks + next.supersededBlocks
      ensures BlockSourced(steps + [step], c)
    {
      BlocksSourcedStep(steps, w, step, next, c);
    }
    FieldsSourcedStep(steps, w, step, next);
  }

  lemma NewBlockSourced(steps: seq<Step>, spec: BlockSpec)
    ensures BlockSourced(steps, NewBlock(spec))
  {
  }

  /** In every run, every recorded fact was handed over, exactly as recorded, by an earlier step. */
  lemma {:induction false} EverythingHasASource(ws: seq<WorkOrder>, steps: seq<Step>, i: nat)
    requires IsRun(ws, steps) && i < |ws|
    ensures i <= |steps| && RecordSourced(steps[..i], ws[i])
  {
    hide IsRun, RecordSourced, Sourced, Take, Good, HistoryKept;
    RunLength(ws, steps);
    if i == 0 {
      CreatedSourced(ws, steps);
    } else {
      EverythingHasASource(ws, steps, i - 1);
      RunStep(ws, steps, i - 1);
      StepSourced(ws[i - 1], steps[i - 1]);
      assert steps[..i] == steps[..i - 1] + [steps[i - 1]];
      RecordSourcedStep(steps[..i - 1], ws[i - 1], steps[i - 1], ws[i]);
    }
  }

  lemma CreatedSourced(ws: seq<WorkOrder>, steps: seq<Step>)
    requires IsRun(ws, steps)
    ensures RecordSourced([], ws[0]) && steps[..0] == []
  {
  }
}
