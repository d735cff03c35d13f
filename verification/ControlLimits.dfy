/**
 Where the machine stops short of its own promises: the one exception that is not a refusal, from
 which records it is raised, and how it is reached.
 */
module ControlLimits {
  import opened Prelude
  import opened ControlModel
  import opened ControlEvolution
  import opened ControlMachine
  import opened ControlInvariant
  import opened ControlApproval
  import opened ControlLifecycle
  import opened ControlSteps
  import opened ControlIndependence
  import opened ControlJudged
  import opened ControlRuns

  predicate Crashes(t: Transition) {
    t.Err? && t.error.Unhandled?
  }

  /** The approval of plan 0 of a WorkOrder that has no plan. */
  predicate ApprovesNothing(w: WorkOrder, step: Step) {
    step.DoApprovePlan? && step.planVersion == 0 && w.status == PlanProposed && w.planVersions == []
  }

  /** No transition from a good record ends in anything but a record or a refusal, except exactly that approval. */
  lemma OnlyEmptyApprovalCrashes(w: WorkOrder, step: Step)
    requires Good(w)
    ensures Crashes(Take(w, step)) <==> ApprovesNothing(w, step)
  {
    hide Good, RaiseAttention, CheckProfile, RecordedGaps, ApprovePlan, Decide, Move, RecordFinalAudit, RecordDeviation;
    match step {
      case DoApprovePlan(n, approvedBy) => ApprovalCrash(w, n, approvedBy);
      case DoDecide(decision, amendment, observed) => DecideNeverCrashes(w, decision, amendment, observed);
      case DoBlock(id, move) => MoveNeverCrashes(w, id, move);
      case DoResumeDeferred(baseline) =>
        RefusedOrDone();
        if w.status == Deferred { DeferredKnown(w); }
      case DoRecordDeviation(deviation) => DeviationRefuses(w, deviation);
      case DoRecordFinalAudit(audit) => FinalAuditRefuses(w, audit);
      case _ => RefusedOrDone();
    }
  }

  /** Raising attention and checking a profile only ever refuse. */
  lemma RefusedOrDone()
    ensures forall w, reasons, id :: RaiseAttention(w, reasons, id).Err? ==>
            RaiseAttention(w, reasons, id).error.Rejected?
    ensures forall w, role, profile, condition, evidence ::
              CheckProfile(w, role, profile, condition, evidence).Fails? ==>
                CheckProfile(w, role, profile, condition, evidence).rejection.Rejected?
  {
  }

  lemma FinalAuditRefuses(w: WorkOrder, audit: AuditRecord)
    ensures !Crashes(RecordFinalAudit(w, audit))
  {
    hide RaiseAttention, CheckProfile, RecordedGaps, WithProfile, Writers;
    RefusedOrDone();
  }

  lemma DeferredKnown(w: WorkOrder)
    requires Good(w) && w.status == Deferred
    ensures w.deferredFrom.Some?
  {
  }

  lemma ApprovalCrash(w: WorkOrder, n: nat, approvedBy: string)
    requires Good(w)
    ensures Crashes(ApprovePlan(w, n, approvedBy)) <==> n == 0 && w.status == PlanProposed && w.planVersions == []
  {
    hide RaiseAttention, PlanGaps, Kept, WorkOrder.PartsValid, WorkOrder.ProfilesRecorded;
    RefusedOrDone();
    if w.approvals != [] {
      assert w.approvals[|w.approvals| - 1] in w.approvals;
    }
  }

  lemma DecideNeverCrashes(w: WorkOrder, decision: UserDecision, amendment: Option<Amendment>,
                           observed: Option<CommitSha>)
    requires Good(w)
    ensures !Crashes(Decide(w, decision, amendment, observed))
  {
    hide Good, RaiseAttention, Close, AttentionRequest.Unblocked;
    RefusedOrDone();
    if w.status == UserAttentionRequired {
      OpenKnown(w);
    }
  }

  lemma OpenKnown(w: WorkOrder)
    requires Good(w) && w.status == UserAttentionRequired
    ensures OpenRequest(w.attention).Some?
  {
  }

  lemma MoveNeverCrashes(w: WorkOrder, id: Identifier, move: BlockMove)
    requires Good(w)
    ensures !Crashes(Move(w, id, move))
  {
    hide Good, RaiseAttention, BeginAttempt, BeginMemoryCuration, ApproveCode, ApproveMemory, ProveBlockCheckpoint,
      EnterBlockCheckpoint, FailAttempt, FinishMemoryCuration, FinishRun, RecordTests, Crashes;
    match move {
      case Begin(profile, condition, proof) => BeginRefuses(w, id, profile, condition, proof);
      case BeginCuration(profile, condition, proof) => CurationRefuses(w, id, profile, condition, proof);
      case Approve(audit, changes, current) => ApproveRefuses(w, id, audit, changes, current);
      case ApproveCuration(audit, current) => ApproveMemoryRefuses(w, id, audit, current);
      case EnterCheckpoint(current) => CheckpointRefuses(w, id, current);
      case ProveCheckpoint(checkpoint) => ProofRefuses(w, id, checkpoint);
      case Fail(failure) => FailRefuses(w, id, failure);
      case FinishCuration(changes) => FinishCurationRefuses(w, id, changes);
      case _ => RunRefuses(w, id, move);
    }
  }

  lemma RunRefuses(w: WorkOrder, id: Identifier, move: BlockMove)
    requires move.Finish? || move.Tests?
    ensures !Crashes(Move(w, id, move))
  {
    hide UpdateBlock;
  }

  lemma FailRefuses(w: WorkOrder, id: Identifier, failure: EvidenceRef)
    ensures !Crashes(FailAttempt(w, id, failure))
  {
    hide RaiseAttention, UpdateBlock;
    RefusedOrDone();
  }

  lemma FinishCurationRefuses(w: WorkOrder, id: Identifier, changes: ChangeRecord)
    ensures !Crashes(FinishMemoryCuration(w, id, changes))
  {
    hide RecordDeviation, UpdateBlock, ChangeRecord.Outside;
    var block := BlockIn(w, id, {MemoryCuration});
    if block.Ok? {
      var audited := w.(blocks := UpdateBlock(w.blocks,
                                              block.value.(status := MemoryAudit, memoryChanges := Some(changes))));
      DeviationRefuses(audited, Deviation(AutoDeviation(|w.deviations| + 1), Some(id), true,
                                          "memory curation changed paths outside memory_paths", changes.evidence,
                                            None));
    }
  }

  lemma DeviationRefuses(w: WorkOrder, d: Deviation)
    ensures !Crashes(RecordDeviation(w, d))
  {
    hide RaiseAttention;
    RefusedOrDone();
  }

  lemma BeginRefuses(w: WorkOrder, id: Identifier, profile: ProfileRef, condition: Option<FallbackCondition>,
                     proof: Option<EvidenceRef>)
    ensures !Crashes(BeginAttempt(w, id, profile, condition, proof))
  {
    hide RaiseAttention, CheckProfile, ProducerGaps, WithProfile, UpdateBlock;
    RefusedOrDone();
  }

  lemma CurationRefuses(w: WorkOrder, id: Identifier, profile: ProfileRef, condition: Option<FallbackCondition>,
                        proof: Option<EvidenceRef>)
    ensures !Crashes(BeginMemoryCuration(w, id, profile, condition, proof))
  {
    hide RaiseAttention, CheckProfile, ProducerGaps, WithProfile, UpdateBlock;
    RefusedOrDone();
  }

  lemma ApproveRefuses(w: WorkOrder, id: Identifier, audit: AuditRecord, changes: ChangeRecord, current: StateIdentity)
    ensures !Crashes(ApproveCode(w, id, audit, changes, current))
  {
    hide RaiseAttention, CheckProfile, RecordedGaps, WithProfile, Block.CodeApprovalHolds;
    RefusedOrDone();
  }

  lemma ApproveMemoryRefuses(w: WorkOrder, id: Identifier, audit: AuditRecord, current: StateIdentity)
    requires Good(w)
    ensures !Crashes(ApproveMemory(w, id, audit, current))
  {
    hide Good, RaiseAttention, CheckProfile, RecordedGaps, WithProfile, UpdateBlock, Block.MemoryApprovalHolds,
      Block.CodeApprovalHolds, ProducersOf, FindBlock, GapEvidence, Use;
    RefusedOrDone();
    var block := BlockIn(w, id, {MemoryAudit});
    if block.Ok? {
      ApprovedBlock(w, block.value);
    }
  }

  lemma CheckpointRefuses(w: WorkOrder, id: Identifier, current: StateIdentity)
    requires Good(w)
    ensures !Crashes(EnterBlockCheckpoint(w, id, current))
  {
    hide Good;
    if FindBlock(w.blocks, id).Some? {
      ApprovedBlock(w, FindBlock(w.blocks, id).value);
    }
  }

  lemma ProofRefuses(w: WorkOrder, id: Identifier, proof: CheckpointProof)
    requires Good(w)
    ensures !Crashes(ProveBlockCheckpoint(w, id, proof))
  {
    hide Good, RaiseAttention, UpdateBlock, CheckpointProof.Proves, CheckProfile, FindBlock, Block.ApprovingAudit;
    RefusedOrDone();
    if FindBlock(w.blocks, id).Some? {
      ApprovedBlock(w, FindBlock(w.blocks, id).value);
    }
  }

  lemma ApprovedBlock(w: WorkOrder, b: Block)
    requires Good(w) && b in w.blocks
    ensures b.status == MemoryAudit ==> b.riskClass.Some?
    ensures b.status == CodeApproved && !b.spec.memoryImpact ==> b.ApprovingAudit().Some?
    ensures b.status == BlockCheckpoint ==> b.ApprovingAudit().Some?
  {
    assert b.Valid();
  }

  /** From every new WorkOrder the exception is three accepted steps away. */
  lemma EmptyApprovalReachable(w: WorkOrder, base: CommitSha, reason: AttentionReason, replan: UserDecision)
    returns (ws: seq<WorkOrder>, steps: seq<Step>)
    requires Created(w) && reason.evidence != []
    requires replan.action == Replan && replan.waived == {} && replan.approvedDeviations == {}
    ensures IsRun(ws, steps) && |steps| == 3 && ws[0] == w
    ensures forall approvedBy :: Take(ws[3], DoApprovePlan(0, approvedBy)) == Err(Unhandled("IndexError"))
  {
    hide Created, StepsTo, Good, WorkOrder.Valid, RaiseAttention, Decide;
    ws, steps := AskedAtIntake(w, base, reason);
    var asked := ws[2];
    ReplanFromIntake(asked, replan);
    ws, steps := Extend(ws, steps, DoDecide(replan, None, None), Decide(asked, replan, None, None).value);
  }

  /** A reason raised during context intake, two steps from every new WorkOrder. */
  lemma AskedAtIntake(w: WorkOrder, base: CommitSha, reason: AttentionReason)
    returns (ws: seq<WorkOrder>, steps: seq<Step>)
    requires Created(w) && reason.evidence != []
    ensures IsRun(ws, steps) && |steps| == 2 && ws[0] == w
    ensures ws[2].status == UserAttentionRequired && ws[2].plannedBaseline == Some(base)
    ensures ws[2].planVersions == [] && ws[2].approvals == []
    ensures ws[2].attention == [AttentionRequest(AutoAttention(1), ContextIntake, [reason], {}, [], false)]
  {
    hide Created, StepsTo, Good, WorkOrder.Valid, RaiseAttention;
    var intake := w.(status := ContextIntake, plannedBaseline := Some(base));
    NewRecord(w);
    RaisedFirst(intake, reason);
    ws, steps := [w], [];
    assert IsRun(ws, steps);
    ws, steps := Extend(ws, steps, DoStartIntake(base), intake);
    ws, steps := Extend(ws, steps, DoRaiseAttention([reason], None), RaiseAttention(intake, [reason], None).value);
  }

  /** The first request of a WorkOrder. */
  lemma RaisedFirst(w: WorkOrder, reason: AttentionReason)
    requires w.status in ATTENTION_SOURCES && w.attention == []
    ensures RaiseAttention(w, [reason], None) ==
              Ok(w.(status := UserAttentionRequired,
                    attention := [AttentionRequest(AutoAttention(1), w.status, [reason], {}, [], false)]))
  {
    var request := AttentionRequest(AutoAttention(1), w.status, [reason], {}, [], false);
    assert [reason][..0] == [];
    assert LastByCode([reason][..0]) == [];
    assert LastByCode([reason]) == [reason];
    assert w.attention + [request] == [request];
  }

  lemma ReplanFromIntake(w: WorkOrder, decision: UserDecision)
    requires w.status == UserAttentionRequired && OpenRequest(w.attention).Some?
    requires decision.action == Replan && decision.waived == {} && decision.approvedDeviations == {}
    ensures var next := Decide(w, decision, None, None);
            next.Ok? && next.value == w.(status := PlanProposed, attention := next.value.attention)
  {
  }

  lemma NewRecord(w: WorkOrder)
    requires Created(w)
    ensures w.status == Draft && w.finalAudit.None? && w.attention == [] && w.deviations == [] && w.planVersions == []
            && w.approvals == []
    ensures w.deferredFrom.None? && w.blocks == [] && w.supersededBlocks == [] && w.candidate.None? && w.budget.None?
    ensures w.amendments == [] && w.usedProfiles == [] && w.evidence == [] && w.outcome.None?
  {
  }

  /** A step whose guards pass, and that spoils no recorded audit, extends a run. */
  lemma Extend(ws: seq<WorkOrder>, steps: seq<Step>, step: Step, next: WorkOrder)
    returns (ws': seq<WorkOrder>, steps': seq<Step>)
    requires IsRun(ws, steps)
    requires var last := ws[|ws| - 1]; WellFormed(last, step) && Take(last, step) == Ok(next) && Unspoiled(last, step)
    ensures ws' == ws + [next] && steps' == steps + [step]
    ensures IsRun(ws', steps') && ws'[0] == ws[0] && ws'[|ws'| - 1] == next
  {
    hide Created, Good, WorkOrder.Valid, Take, WellFormed, Unspoiled;
    ReachableGood(ws, steps, |steps|);
    GuardsImplyValidators(ws[|steps|], step);
    ws', steps' := ExtendRun(ws, steps, step, next);
  }

  lemma ExtendRun(ws: seq<WorkOrder>, steps: seq<Step>, step: Step, next: WorkOrder)
    returns (ws': seq<WorkOrder>, steps': seq<Step>)
    requires IsRun(ws, steps) && StepsTo(ws[|ws| - 1], step, next)
    ensures ws' == ws + [next] && steps' == steps + [step]
    ensures IsRun(ws', steps') && ws'[0] == ws[0] && ws'[|ws'| - 1] == next
  {
    hide Created, StepsTo;
    ws', steps' := ws + [next], steps + [step];
    var n := |steps|;
    forall i | 0 <= i < |steps'|
      ensures StepsTo(ws'[i], steps'[i], ws'[i + 1])
    {
      if i < n {
        assert StepsTo(ws[i], steps[i], ws[i + 1]);
      }
    }
  }

  // --- Ids of the machine's own form ---

  /**
   A deviation that the machine draws up collides exactly when its caller used the next number before;
   recording such an id passes every guard.
   */
  lemma NumberedIdCollides(w: WorkOrder, id: Identifier, changes: ChangeRecord)
    requires UniqueDeviations(w.deviations) && FinishMemoryCuration(w, id, changes).Ok?
    requires changes.Outside() && changes.approvedDeviation.None?
    ensures var next := FinishMemoryCuration(w, id, changes).value;
            var used := exists d :: d in w.deviations && d.id == AutoDeviation(|w.deviations| + 1);
            && (UniqueDeviations(next.deviations) <==> !used)
            && (used ==> !next.Valid())
            && (used ==> Apply(w, DoBlock(id, FinishCuration(changes))) == Err(Unhandled("ValidationError")))
  {
    hide FinishMemoryCuration, ChangeRecord.Outside, UniqueDeviations, WorkOrder.PartsValid, WorkOrder.ProfilesRecorded,
      WorkOrder.AuditsIndependent, PlansOk, BlocksMatchPlan, OpenCountOk, AllDone, Crashes;
    var d := DeviationDrawnUp(w, id, changes);
    OneMoreDeviation(w.deviations, d);
  }

  lemma DeviationDrawnUp(w: WorkOrder, id: Identifier, changes: ChangeRecord) returns (d: Deviation)
    requires FinishMemoryCuration(w, id, changes).Ok? && changes.Outside() && changes.approvedDeviation.None?
    ensures d.id == AutoDeviation(|w.deviations| + 1)
    ensures FinishMemoryCuration(w, id, changes).value.deviations == w.deviations + [d]
  {
    hide RaiseAttention, ChangeRecord.Outside, UpdateBlock, FindBlock;
    var block := BlockIn(w, id, {MemoryCuration}).value;
    var audited := w.(blocks := UpdateBlock(w.blocks, block.(status := MemoryAudit, memoryChanges := Some(changes))));
    d := Deviation(AutoDeviation(|w.deviations| + 1), Some(id), true,
                   "memory curation changed paths outside memory_paths", changes.evidence, None);
    assert FinishMemoryCuration(w, id, changes) == RecordDeviation(audited, d);
    var recorded := audited.(deviations := audited.deviations + [d]);
    var reason := AttentionReason(MaterialDeviation, Blocking, d.summary, [d.evidence], []);
    assert RecordDeviation(audited, d) == RaiseAttention(recorded, [reason], None);
    RaisingKeepsDeviations(recorded, [reason]);
  }

  lemma RaisingKeepsDeviations(w: WorkOrder, reasons: seq<AttentionReason>)
    ensures RaiseAttention(w, reasons, None).Ok? ==> RaiseAttention(w, reasons, None).value.deviations == w.deviations
  {
  }

  lemma OneMoreDeviation(deviations: seq<Deviation>, d: Deviation)
    requires UniqueDeviations(deviations)
    ensures UniqueDeviations(deviations + [d]) <==> !exists x :: x in deviations && x.id == d.id
  {
    var more := deviations + [d];
    if x :| x in deviations && x.id == d.id {
      var i :| 0 <= i < |deviations| && deviations[i] == x;
      assert more[i].id == more[|deviations|].id;
    }
  }

  /** Recording a deviation asks nothing of its id, not even that it is unused. */
  lemma AnyIdIsRecorded(w: WorkOrder, d: Deviation)
    requires w.status !in TERMINAL && d.approvedBy.None? && !d.material
    ensures RecordDeviation(w, d) == Ok(w.(deviations := w.deviations + [d]))
  {
  }
}
