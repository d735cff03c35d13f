/** The guards of every step imply the validators, and exactly where they do not. */
module ControlJudged {
  import opened Prelude
  import opened ControlModel
  import opened ControlEvolution
  import opened ControlMachine
  import opened ControlInvariant
  import opened ControlBlocks
  import opened ControlMoves
  import opened ControlSteps
  import opened ControlIndependence

  // --- The block a step leaves behind ---

  /** An unfinished block before its code approval holds no audit. */
  lemma NoAuditYet(b: Block)
    requires Staged(b) && b.status !in CODE_APPROVED_OR_LATER
    ensures b.codeAudit.None? && b.memoryAudit.None?
  {
  }

  lemma CodeAuditJudged(b: Block, c: Block, audit: AuditRecord, risk: RiskClass, policy: IndependencePolicy,
                        waived: set<Gap>)
    requires Staged(b) && b.status == BlockResult && audit.role == CodeAuditor
    requires c.codeAudit == Some(audit) && c.riskClass == Some(risk) && c.memoryAudit == b.memoryAudit
             && c.attempts == b.attempts
    requires Independent(audit, policy.Required(risk), ProducersOf(b.attempts, {PrimaryCodeExecutor}), waived)
    ensures BlockIndependent(c, policy, waived)
  {
    hide Independent;
  }

  lemma MemoryAuditJudged(b: Block, c: Block, audit: AuditRecord, policy: IndependencePolicy, waived: set<Gap>)
    requires BlockIndependent(b, policy, waived) && b.riskClass.Some? && audit.role == MemoryAuditor
    requires c.memoryAudit == Some(audit) && c.codeAudit == b.codeAudit && c.riskClass == b.riskClass
             && c.attempts == b.attempts
    requires Independent(audit, policy.Required(b.riskClass.value), ProducersOf(b.attempts, {MemoryCurator}), waived)
    ensures BlockIndependent(c, policy, waived)
  {
    hide Independent;
  }

  lemma SameAuditsJudged(b: Block, c: Block, policy: IndependencePolicy, waived: set<Gap>)
    requires BlockIndependent(b, policy, waived)
    requires c.codeAudit in {None, b.codeAudit} && c.memoryAudit in {None, b.memoryAudit}
    requires c.riskClass == b.riskClass && c.attempts == b.attempts
    ensures BlockIndependent(c, policy, waived)
  {
    hide Independent;
  }

  /** A curator is not a producer of code: the code audit is unaffected by a curation attempt. */
  lemma CurationJudged(b: Block, c: Block, attempt: AttemptRecord, policy: IndependencePolicy, waived: set<Gap>)
    requires BlockIndependent(b, policy, waived) && b.CodeApprovalHolds() && attempt.role == MemoryCurator
    requires c.codeAudit == b.codeAudit && c.memoryAudit.None? && c.riskClass == b.riskClass
             && c.attempts == b.attempts + [attempt]
    ensures BlockIndependent(c, policy, waived)
  {
    hide Independent;
    assert ProducersOf(c.attempts, {PrimaryCodeExecutor}) == ProducersOf(b.attempts, {PrimaryCodeExecutor});
  }

  lemma JudgedBlock(w: WorkOrder, i: nat)
    requires Good(w) && w.AuditsIndependent() && i < |w.blocks|
    ensures BlockIndependent(w.blocks[i], w.executionProfile.policy, WaivedIndependence(w.attention))
    ensures Staged(w.blocks[i]) && w.blocks[i].Valid() && DistinctBlocks(w.blocks)
  {
    BlocksLaidOut(w);
  }

  lemma RaiseLeavesRest(w: WorkOrder, reasons: seq<AttentionReason>, id: Option<AttentionId>)
    requires RaiseAttention(w, reasons, id).Ok?
    ensures var next := RaiseAttention(w, reasons, id).value;
            next == w.(status := next.status, attention := next.attention)
  {
  }

  /** The audits survive a step that changed block i to c and ran nobody. */
  lemma UnproductiveJudged(w: WorkOrder, next: WorkOrder, i: nat, c: Block)
    requires Good(w) && w.AuditsIndependent() && MoveEffect(w, next) && i < |w.blocks|
    requires next.blocks == w.blocks[i := c] && c.attempts == w.blocks[i].attempts
    requires BlockIndependent(c, w.executionProfile.policy, WaivedIndependence(w.attention))
    ensures next.AuditsIndependent()
  {
    hide Good, WorkOrder.AuditsIndependent, BlockIndependent, HistoryKept, Stepped;
    BlockStepJudged(w, next, i, None);
  }

  lemma ProductiveJudged(w: WorkOrder, next: WorkOrder, i: nat, c: Block, attempt: AttemptRecord)
    requires Good(w) && w.AuditsIndependent() && MoveEffect(w, next) && i < |w.blocks| && next.attention == w.attention
    requires next.blocks == w.blocks[i := c] && c.attempts == w.blocks[i].attempts + [attempt]
             && attempt.role in WRITE_CAPABLE_ROLES
    requires BlockIndependent(c, w.executionProfile.policy, WaivedIndependence(w.attention))
    ensures next.AuditsIndependent() <==> FinalAuditMeets(w, ApprovedRisk(w), {attempt.profile.fingerprint})
  {
    hide Good, WorkOrder.AuditsIndependent, BlockIndependent, HistoryKept, Stepped, FinalAuditMeets;
    BlockStepJudged(w, next, i, Some(attempt));
  }

  lemma EscalationJudged(w: WorkOrder, reason: AttentionReason)
    requires Good(w) && w.AuditsIndependent() && reason.evidence != [] && RaiseAttention(w, [reason], None).Ok?
    ensures RaiseAttention(w, [reason], None).value.AuditsIndependent()
  {
    hide Good, RaiseAttention, WorkOrder.AuditsIndependent;
    RaiseQuiet(w, w, [reason], None);
    QuietKeepsAudits(w, RaiseAttention(w, [reason], None).value);
  }

  // --- Each block step ---

  lemma BeginJudged(w: WorkOrder, id: Identifier, profile: ProfileRef, condition: Option<FallbackCondition>,
                    proof: Option<EvidenceRef>)
    requires Good(w) && w.AuditsIndependent() && BeginAttempt(w, id, profile, condition, proof).Ok?
    ensures BeginAttempt(w, id, profile, condition, proof).value.AuditsIndependent() <==>
              (Runs(w, id, PrimaryCodeExecutor, profile.fingerprint) ==>
               FinalAuditMeets(w, ApprovedRisk(w), {profile.fingerprint}))
  {
    hide Good, MoveEffect, CheckProfile, RaiseAttention, ProducerGaps, WithProfile, WorkOrder.AuditsIndependent,
      FinalAuditMeets,
      BlockIndependent, WaivedIndependence;
    var i := FoundBlock(w, id, {Pending});
    var block := w.blocks[i];
    var gaps := ProducerGaps(w, PrimaryCodeExecutor, profile.fingerprint);
    if !AttemptsLeft(w.budget, block.failedAttempts) {
      EscalationJudged(w, Exhausted("block attempts", Reference("block", id)));
    } else if gaps != [] {
      EscalationJudged(w, AttentionReason(IndependenceUnavailable, Blocking, "auditor independence cannot be met",
                                          GapEvidence(gaps), []));
    } else {
      BeginMoves(w, id, profile, condition, proof);
      StartedJudged(w, i, AttemptRecord(PrimaryCodeExecutor, profile, condition, proof),
                    BeginAttempt(w, id, profile, condition, proof).value);
    }
  }

  /** A code attempt starts on a block that holds no audit. */
  lemma StartedJudged(w: WorkOrder, i: nat, attempt: AttemptRecord, next: WorkOrder)
    requires Good(w) && w.AuditsIndependent() && MoveEffect(w, next) && i < |w.blocks| && w.blocks[i].status == Pending
    requires attempt.role == PrimaryCodeExecutor && next.attention == w.attention
    requires next.blocks ==
             UpdateBlock(w.blocks, w.blocks[i].(status := Running, attempts := w.blocks[i].attempts + [attempt],
                                                                tests := None, codeAudit := None, codeChanges := None))
    ensures next.AuditsIndependent() <==> FinalAuditMeets(w, ApprovedRisk(w), {attempt.profile.fingerprint})
  {
    hide Good, MoveEffect, WorkOrder.AuditsIndependent, FinalAuditMeets, BlockIndependent, WaivedIndependence;
    var c := w.blocks[i].(status := Running, attempts := w.blocks[i].attempts + [attempt], tests := None,
                          codeAudit := None, codeChanges := None);
    JudgedBlock(w, i);
    NoAuditYet(w.blocks[i]);
    UpdateBlockIs(w.blocks, i, c);
    NoAudits(c, w.executionProfile.policy, WaivedIndependence(w.attention));
    ProductiveJudged(w, next, i, c, attempt);
  }

  lemma NoAudits(b: Block, policy: IndependencePolicy, waived: set<Gap>)
    requires b.codeAudit.None? && b.memoryAudit.None?
    ensures BlockIndependent(b, policy, waived)
  {
  }

  lemma CurateJudged(w: WorkOrder, id: Identifier, profile: ProfileRef, condition: Option<FallbackCondition>,
                     proof: Option<EvidenceRef>)
    requires Good(w) && w.AuditsIndependent() && BeginMemoryCuration(w, id, profile, condition, proof).Ok?
    ensures BeginMemoryCuration(w, id, profile, condition, proof).value.AuditsIndependent() <==>
              (Runs(w, id, MemoryCurator, profile.fingerprint) ==>
               FinalAuditMeets(w, ApprovedRisk(w), {profile.fingerprint}))
  {
    hide Good, MoveEffect, CheckProfile, RaiseAttention, ProducerGaps, WorkOrder.AuditsIndependent, FinalAuditMeets,
      BeginMemoryCuration,
      UpdateBlock, WithProfile;
    var i := CurationOutcome(w, id, profile, condition, proof);
    var gaps := ProducerGaps(w, MemoryCurator, profile.fingerprint);
    if !AttemptsLeft(w.budget, w.blocks[i].curationAttempts) {
      EscalationJudged(w, Exhausted("memory curation", Reference("block", id)));
    } else if gaps != [] {
      EscalationJudged(w, AttentionReason(IndependenceUnavailable, Blocking, "auditor independence cannot be met",
                                          GapEvidence(gaps), []));
    } else {
      BeginCurationMoves(w, id, profile, condition, proof);
      CurationStartedJudged(w, i, AttemptRecord(MemoryCurator, profile, condition, proof));
    }
  }

  lemma CurationStartedJudged(w: WorkOrder, i: nat, attempt: AttemptRecord)
    requires Good(w) && w.AuditsIndependent() && i < |w.blocks| && w.blocks[i].status in {CodeApproved, MemoryAudit}
    requires attempt.role == MemoryCurator && MoveEffect(w, Curating(w, i, attempt))
    ensures Curating(w, i, attempt).AuditsIndependent() <==>
            FinalAuditMeets(w, ApprovedRisk(w), {attempt.profile.fingerprint})
  {
    hide Good, MoveEffect, WorkOrder.AuditsIndependent, FinalAuditMeets, BlockIndependent, WaivedIndependence,
      Block.CodeApprovalHolds;
    var c := CuratedBlock(w.blocks[i], attempt);
    JudgedBlock(w, i);
    UpdateBlockIs(w.blocks, i, c);
    CurationJudged(w.blocks[i], c, attempt, w.executionProfile.policy, WaivedIndependence(w.attention));
    ProductiveJudged(w, Curating(w, i, attempt), i, c, attempt);
  }

  lemma ApproveJudged(w: WorkOrder, id: Identifier, audit: AuditRecord, changes: ChangeRecord, current: StateIdentity)
    requires Good(w) && w.AuditsIndependent() && ApproveCode(w, id, audit, changes, current).Ok?
    ensures ApproveCode(w, id, audit, changes, current).value.AuditsIndependent()
  {
    hide Good, MoveEffect, CheckProfile, RaiseAttention, WithProfile, WorkOrder.AuditsIndependent, BlockIndependent,
      WaivedIndependence, Independent;
    var i := FoundBlock(w, id, {BlockResult});
    var block := w.blocks[i];
    var risk := ApprovedRisk(w);
    var producers := ProducersOf(block.attempts, {PrimaryCodeExecutor});
    var gaps := RecordedGaps(w, risk, audit, producers);
    NoGapsMeansIndependent(w.executionProfile.policy.Required(risk), audit, producers, WaivedIndependence(w.attention));
    if gaps != [] {
      EscalationJudged(w, AttentionReason(IndependenceUnavailable, Blocking, "auditor independence cannot be met",
                                          GapEvidence(gaps), []));
    } else {
      ApproveMoves(w, id, audit, changes, current);
      JudgedBlock(w, i);
      var c := block.(codeAudit := Some(audit), codeChanges := Some(changes), riskClass := Some(risk),
                      status := CodeApproved);
      UpdateBlockIs(w.blocks, i, c);
      CodeAuditJudged(block, c, audit, risk, w.executionProfile.policy, WaivedIndependence(w.attention));
      UnproductiveJudged(w, ApproveCode(w, id, audit, changes, current).value, i, c);
    }
  }

  lemma ApproveCurationJudged(w: WorkOrder, id: Identifier, audit: AuditRecord, current: StateIdentity)
    requires Good(w) && w.AuditsIndependent() && ApproveMemory(w, id, audit, current).Ok?
    ensures ApproveMemory(w, id, audit, current).value.AuditsIndependent()
  {
    hide Good, MoveEffect, CheckProfile, RaiseAttention, WithProfile, WorkOrder.AuditsIndependent, BlockIndependent,
      WaivedIndependence,
      Independent, Block.CodeApprovalHolds;
    var i := FoundBlock(w, id, {MemoryAudit});
    var block := w.blocks[i];
    var producers := ProducersOf(block.attempts, {MemoryCurator});
    var gaps := RecordedGaps(w, block.riskClass.value, audit, producers);
    NoGapsMeansIndependent(w.executionProfile.policy.Required(block.riskClass.value), audit, producers,
                           WaivedIndependence(w.attention));
    if gaps != [] {
      EscalationJudged(w, AttentionReason(IndependenceUnavailable, Blocking, "auditor independence cannot be met",
                                          GapEvidence(gaps), []));
    } else {
      ApproveCurationMoves(w, id, audit, current);
      JudgedBlock(w, i);
      var c := block.(memoryAudit := Some(audit), status := BlockCheckpoint);
      assert w.blocks[i].spec.memoryImpact;
      UpdateBlockIs(w.blocks, i, c);
      MemoryAuditJudged(block, c, audit, w.executionProfile.policy, WaivedIndependence(w.attention));
      UnproductiveJudged(w, ApproveMemory(w, id, audit, current).value, i, c);
    }
  }

  /** The step changed block i to c, which carries no audit that block i did not. */
  lemma CarriedOver(w: WorkOrder, next: WorkOrder, i: nat, c: Block)
    requires Good(w) && w.AuditsIndependent() && MoveEffect(w, next) && i < |w.blocks|
             && next.blocks == UpdateBlock(w.blocks, c)
    requires c.spec == w.blocks[i].spec && c.attempts == w.blocks[i].attempts && c.riskClass == w.blocks[i].riskClass
    requires c.codeAudit in {None, w.blocks[i].codeAudit} && c.memoryAudit in {None, w.blocks[i].memoryAudit}
    ensures next.AuditsIndependent()
  {
    hide Good, MoveEffect, WorkOrder.AuditsIndependent, BlockIndependent, WaivedIndependence;
    JudgedBlock(w, i);
    UpdateBlockIs(w.blocks, i, c);
    SameAuditsJudged(w.blocks[i], c, w.executionProfile.policy, WaivedIndependence(w.attention));
    UnproductiveJudged(w, next, i, c);
  }

  lemma RunJudged(w: WorkOrder, id: Identifier, move: BlockMove)
    requires Good(w) && w.AuditsIndependent() && Move(w, id, move).Ok?
    requires move.Finish? || move.Tests? || move.EnterCheckpoint?
    ensures Move(w, id, move).value.AuditsIndependent()
  {
    hide Good, MoveEffect, WorkOrder.AuditsIndependent;
    MoveMoves(w, id, move);
    var next := Move(w, id, move).value;
    match move
    case Finish =>
      var i := FoundBlock(w, id, {Running});
      CarriedOver(w, next, i, w.blocks[i].(status := Testing));
    case Tests(tests) =>
      var i := FoundBlock(w, id, {Testing});
      CarriedOver(w, next, i, w.blocks[i].(status := BlockResult, tests := Some(tests)));
    case EnterCheckpoint(current) =>
      var i := FoundBlock(w, id, {CodeApproved});
      CarriedOver(w, next, i, w.blocks[i].(status := BlockCheckpoint));
  }

  lemma FailJudged(w: WorkOrder, id: Identifier, failure: EvidenceRef)
    requires Good(w) && w.AuditsIndependent() && FailAttempt(w, id, failure).Ok?
    ensures FailAttempt(w, id, failure).value.AuditsIndependent()
  {
    hide Good, MoveEffect, WorkOrder.AuditsIndependent, RaiseAttention;
    FailMoves(w, id, failure);
    var i := FoundBlock(w, id, {Running, Testing, BlockResult});
    var block := w.blocks[i];
    var c := block.(status := Pending, failedAttempts := block.failedAttempts + 1, tests := None, codeAudit := None,
                    codeChanges := None);
    if !AttemptsLeft(w.budget, c.failedAttempts) {
      var updated := w.(evidence := w.evidence + [failure], blocks := UpdateBlock(w.blocks, c));
      RaiseLeavesRest(updated, [Exhausted("block attempts", failure)], None);
    }
    CarriedOver(w, FailAttempt(w, id, failure).value, i, c);
  }

  lemma FinishCurationJudged(w: WorkOrder, id: Identifier, changes: ChangeRecord)
    requires Good(w) && w.AuditsIndependent() && FinishMemoryCuration(w, id, changes).Ok?
    ensures FinishMemoryCuration(w, id, changes).value.AuditsIndependent()
  {
    hide Good, MoveEffect, WorkOrder.AuditsIndependent, RaiseAttention;
    FinishCurationMoves(w, id, changes);
    var i := FoundBlock(w, id, {MemoryCuration});
    var c := w.blocks[i].(status := MemoryAudit, memoryChanges := Some(changes));
    if changes.Outside() && changes.approvedDeviation.None? {
      var d := Deviation(AutoDeviation(|w.deviations| + 1), Some(id), true,
                         "memory curation changed paths outside memory_paths", changes.evidence, None);
      var recorded := w.(blocks := UpdateBlock(w.blocks, c), deviations := w.deviations + [d]);
      RaiseLeavesRest(recorded, [AttentionReason(MaterialDeviation, Blocking, d.summary, [d.evidence], [])], None);
    }
    CarriedOver(w, FinishMemoryCuration(w, id, changes).value, i, c);
  }

  lemma ProveJudged(w: WorkOrder, id: Identifier, proof: CheckpointProof)
    requires Good(w) && w.AuditsIndependent() && ProveBlockCheckpoint(w, id, proof).Ok?
    ensures ProveBlockCheckpoint(w, id, proof).value.AuditsIndependent()
  {
    hide Good, MoveEffect, WorkOrder.AuditsIndependent, RaiseAttention, CheckpointProof.Proves;
    ProveCheckpointMoves(w, id, proof);
    var i := FoundBlock(w, id, {BlockCheckpoint});
    var block := w.blocks[i];
    var next := ProveBlockCheckpoint(w, id, proof).value;
    if proof.Proves(block.ApprovingAudit().value.auditedState) {
      CarriedOver(w, next, i, block.(status := BlockDone, checkpoint := Some(proof)));
    } else {
      var c := block.(rejectedCheckpoints := block.rejectedCheckpoints + [proof]);
      RaiseLeavesRest(w.(blocks := UpdateBlock(w.blocks, c)),
                      [AttentionReason(BlockCheckpointMismatch, Blocking, "not the audited block state",
                                       [proof.evidence], [])], None);
      CarriedOver(w, next, i, c);
    }
  }

  lemma MoveJudged(w: WorkOrder, id: Identifier, move: BlockMove)
    requires Good(w) && w.AuditsIndependent() && Move(w, id, move).Ok?
    ensures Move(w, id, move).value.AuditsIndependent() <==> Unspoiled(w, DoBlock(id, move))
  {
    hide Good, WorkOrder.AuditsIndependent, FinalAuditMeets, Runs;
    match move
    case Begin(profile, condition, proof) => BeginJudged(w, id, profile, condition, proof);
    case BeginCuration(profile, condition, proof) => CurateJudged(w, id, profile, condition, proof);
    case Approve(audit, changes, current) => ApproveJudged(w, id, audit, changes, current);
    case ApproveCuration(audit, current) => ApproveCurationJudged(w, id, audit, current);
    case Fail(failure) => FailJudged(w, id, failure);
    case FinishCuration(changes) => FinishCurationJudged(w, id, changes);
    case ProveCheckpoint(checkpoint) => ProveJudged(w, id, checkpoint);
    case _ => RunJudged(w, id, move);
  }

  // --- The theorem ---

  /** From a valid record, a step whose guards pass fails a validator exactly when it spoils a recorded audit. */
  lemma GuardsImplyValidators(w: WorkOrder, step: Step)
    requires Good(w) && w.Valid() && WellFormed(w, step) && Take(w, step).Ok?
    ensures Apply(w, step).Ok? <==> Unspoiled(w, step)
    ensures Apply(w, step).Ok? ==> Apply(w, step) == Take(w, step)
  {
    hide WorkOrder.Structural, Kept, WorkOrder.AuditsIndependent, HistoryKept, Decide, ApprovePlan, RecordFinalAudit,
      Move, Quiet,
      FinalAuditMeets, AddedRequirementsMet, Runs;
    StepFollows(w, step);
    match step {
      case DoApprovePlan(n, approvedBy) => ApprovalJudged(w, n, approvedBy);
      case DoRecordFinalAudit(audit) => FinalAuditJudged(w, audit);
      case DoBlock(id, move) => MoveJudged(w, id, move);
      case DoDecide(decision, Some(amendment), observed) => AmendJudged(w, decision, amendment, observed);
      case _ =>
        QuietSteps(w, step);
        QuietKeepsAudits(w, Take(w, step).value);
    }
  }

  /** With no final audit on record and no added requirement, no validator ever fires on a step. */
  lemma BeforeFinalAudit(w: WorkOrder, step: Step)
    requires Good(w) && w.Valid() && WellFormed(w, step) && Take(w, step).Ok?
    requires w.finalAudit.None?
    requires step.DoDecide? && step.amendment.Some? && step.amendment.value.ChangeAgent? ==>
               forall risk: RiskClass, r :: r in step.amendment.value.profile.policy.Required(risk) ==>
                 r in w.executionProfile.policy.Required(risk)
    ensures Apply(w, step) == Take(w, step)
  {
    hide Good, Take, WorkOrder.Valid, IndependencePolicy.Required;
    GuardsImplyValidators(w, step);
  }
}
