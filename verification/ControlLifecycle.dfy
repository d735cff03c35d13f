/**
 Every transition, from every good record and for every argument, gives a good record that is a
 legal successor of its input. The one exception is a plan approval that finds an independence
 gap: it is two legal steps in one call, and never a single legal step.
 */
module ControlLifecycle {
  import opened Prelude
  import opened ControlModel
  import opened ControlEvolution
  import opened ControlMachine
  import opened ControlInvariant
  import opened ControlRaise
  import opened ControlBlocks
  import opened ControlMoves
  import opened ControlApproval

  /** A good result whose history is legal. */
  ghost predicate Follows(w: WorkOrder, next: WorkOrder) {
    Good(next) && HistoryKept(w, next)
  }

  /** Attention and blocks untouched: only the logs, the identity and the envelope need an argument. */
  lemma HistoryPlain(w: WorkOrder, next: WorkOrder)
    requires Good(w) && next.attention == w.attention && next.blocks == w.blocks
    requires IdentityKept(w, next) && LogsKept(w, next) && EnvelopeKept(w, next)
    ensures HistoryKept(w, next)
  {
    hide Block.Valid, BlockRecorded;
    BlocksLaidOut(w);
    HistoryKeptReflexive(w);
  }

  lemma StartIntakeFollows(w: WorkOrder, baseline: CommitSha)
    requires Good(w) && StartIntake(w, baseline).Ok?
    ensures Follows(w, StartIntake(w, baseline).value)
  {
    hide Block.Valid, BlockRecorded, InOrder, AllStaged;
    HistoryPlain(w, StartIntake(w, baseline).value);
  }

  lemma ProposePlanFollows(w: WorkOrder, plan: PlanVersion)
    requires Good(w) && plan.Valid() && ProposePlan(w, plan).Ok?
    ensures Follows(w, ProposePlan(w, plan).value)
  {
    hide WorkOrder.Structural, Kept, HistoryKept;
    ProposedStructural(w, plan);
    ProposedKept(w, plan);
    ProposedHistory(w, plan);
  }

  lemma ProposedStructural(w: WorkOrder, plan: PlanVersion)
    requires Good(w) && plan.Valid() && ProposePlan(w, plan).Ok?
    ensures ProposePlan(w, plan).value.Structural()
  {
    hide Kept, Block.Valid, BlockRecorded, AttentionRequest.Valid, ProjectExecutionProfile.Valid;
    var next := ProposePlan(w, plan).value;
    assert w.approvals != [] ==>
      PlanAt(next.planVersions, w.approvals[|w.approvals| - 1].planVersion)
      == PlanAt(w.planVersions, w.approvals[|w.approvals| - 1].planVersion);
    assert next.PartsValid() && next.ProfilesRecorded();
  }

  lemma ProposedKept(w: WorkOrder, plan: PlanVersion)
    requires Good(w) && ProposePlan(w, plan).Ok?
    ensures Kept(ProposePlan(w, plan).value)
  {
    hide WorkOrder.Structural, InOrder, AllStaged;
  }

  lemma ProposedHistory(w: WorkOrder, plan: PlanVersion)
    requires Good(w) && ProposePlan(w, plan).Ok?
    ensures HistoryKept(w, ProposePlan(w, plan).value)
  {
    hide Good, Block.Valid, BlockRecorded, InOrder, AllStaged;
    HistoryPlain(w, ProposePlan(w, plan).value);
  }

  lemma RejectPlanFollows(w: WorkOrder)
    requires Good(w) && RejectPlan(w).Ok?
    ensures Follows(w, RejectPlan(w).value)
  {
    hide Block.Valid, BlockRecorded, InOrder, AllStaged;
    HistoryPlain(w, RejectPlan(w).value);
  }

  /** Escalating a working record, for any reason. */
  lemma EscalateFollows(w: WorkOrder, reason: AttentionReason)
    requires Good(w) && w.status in ATTENTION_SOURCES && reason.evidence != []
    ensures RaiseAttention(w, [reason], None).Ok?
    ensures Follows(w, RaiseAttention(w, [reason], None).value)
    ensures RaiseAttention(w, [reason], None).value.status == UserAttentionRequired
  {
    hide Good, RaiseAttention;
    RaiseFromWork(w, reason);
    RaiseKeeps(w, [reason], None);
    SelfHistory(w);
    HistoryThenAttention(w, w, RaiseAttention(w, [reason], None).value);
  }

  lemma SelfHistory(w: WorkOrder)
    requires Good(w)
    ensures HistoryKept(w, w)
  {
    HistoryPlain(w, w);
  }

  lemma AttachCandidateFollows(w: WorkOrder, candidate: Candidate, baseline: CommitSha)
    requires Good(w) && AttachCandidate(w, candidate, baseline).Ok?
    ensures Follows(w, AttachCandidate(w, candidate, baseline).value)
  {
    hide Block.Valid, BlockRecorded, InOrder, AllStaged, RaiseAttention;
    if Drifted(w, baseline) {
      EscalateFollows(w, DriftReason(baseline));
    } else {
      HistoryPlain(w, AttachCandidate(w, candidate, baseline).value);
    }
  }

  lemma StartExecutionFollows(w: WorkOrder, baseline: CommitSha)
    requires Good(w) && StartExecution(w, baseline).Ok?
    ensures Follows(w, StartExecution(w, baseline).value)
  {
    hide Block.Valid, BlockRecorded, InOrder, AllStaged, RaiseAttention;
    if Drifted(w, baseline) {
      EscalateFollows(w, DriftReason(baseline));
    } else {
      HistoryPlain(w, StartExecution(w, baseline).value);
    }
  }

  lemma EnterFinalFollows(w: WorkOrder, baseline: CommitSha)
    requires Good(w) && EnterFinalVerification(w, baseline).Ok?
    ensures Follows(w, EnterFinalVerification(w, baseline).value)
  {
    hide Block.Valid, BlockRecorded, InOrder, AllStaged, RaiseAttention;
    if Drifted(w, baseline) {
      EscalateFollows(w, DriftReason(baseline));
    } else {
      HistoryPlain(w, EnterFinalVerification(w, baseline).value);
    }
  }

  lemma FinalAuditFollows(w: WorkOrder, audit: AuditRecord)
    requires Good(w) && RecordFinalAudit(w, audit).Ok?
    ensures Follows(w, RecordFinalAudit(w, audit).value)
  {
    hide Good, HistoryKept, RaiseAttention, RecordedGaps, CheckProfile, WithProfile;
    var gaps := RecordedGaps(w, ApprovedRisk(w), audit, Writers(w.blocks + w.supersededBlocks));
    if gaps != [] {
      EscalateFollows(w, AttentionReason(IndependenceUnavailable, Blocking, "auditor independence cannot be met",
                                         GapEvidence(gaps), []));
    } else {
      CheckedProfile(w, audit.role, audit.auditor, None, None);
      FinalAuditRecorded(w, audit);
    }
  }

  lemma FinalAuditRecorded(w: WorkOrder, audit: AuditRecord)
    requires Good(w) && w.status == FinalVerification && audit.role == FinalVerifier
    requires audit.auditor.fingerprint.Ref() == audit.auditor
    ensures Follows(w, Use(w, audit.auditor.fingerprint).(finalAudit := Some(audit)))
  {
    hide Block.Valid, InOrder, AllStaged, BlockRecorded, AttentionRequest.Valid;
    var next := Use(w, audit.auditor.fingerprint).(finalAudit := Some(audit));
    WithProfileOk(w.usedProfiles, audit.auditor.fingerprint);
    AllRecordedGrow(w.usedProfiles, next.usedProfiles, w.blocks);
    AllRecordedGrow(w.usedProfiles, next.usedProfiles, w.supersededBlocks);
    HistoryPlain(w, next);
    assert next.ProfilesRecorded();
  }

  lemma KernelOutcomeFollows(w: WorkOrder, outcome: KernelOutcome)
    requires Good(w) && RecordKernelOutcome(w, outcome).Ok?
    ensures Follows(w, RecordKernelOutcome(w, outcome).value)
  {
    hide Good, HistoryKept, RaiseAttention, KernelOutcome.IsPromoted;
    if outcome.IsPromoted() {
      PromotionFollows(w, outcome);
    } else {
      var reason := AttentionReason(PromotionRefused, Blocking, outcome.reason, [outcome.evidence], []);
      EscalateFollows(w, reason);
      OutcomeNoted(w, RaiseAttention(w, [reason], None).value, outcome);
    }
  }

  lemma PromotionFollows(w: WorkOrder, outcome: KernelOutcome)
    requires Good(w) && w.status == FinalVerification && outcome.IsPromoted()
    requires w.finalAudit.Some? && w.finalAudit.value.Authoritative()
    ensures Follows(w, w.(status := Promoted, outcome := Some(outcome), evidence := w.evidence + [outcome.evidence]))
  {
    var next := w.(status := Promoted, outcome := Some(outcome), evidence := w.evidence + [outcome.evidence]);
    hide Block.Valid, BlockRecorded, InOrder, AllStaged, AttentionRequest.Valid;
    HistoryPlain(w, next);
    assert next.Structural() by {
      hide Kept, HistoryKept;
      GoodIs(w);
    }
    assert Kept(next) by {
      hide WorkOrder.Structural, HistoryKept;
      GoodIs(w);
    }
  }

  lemma GoodIs(w: WorkOrder)
    requires Good(w)
    ensures w.Structural() && Kept(w)
  {
  }

  lemma OutcomeNoted(w: WorkOrder, escalated: WorkOrder, outcome: KernelOutcome)
    requires Follows(w, escalated) && escalated.status == UserAttentionRequired && !outcome.IsPromoted()
    ensures Follows(w, escalated.(outcome := Some(outcome), evidence := escalated.evidence + [outcome.evidence]))
  {
    hide Block.Valid, BlockRecorded, InOrder, AllStaged, AttentionKept, DoneBlocksKept;
  }

  lemma RaiseFollows(w: WorkOrder, reasons: seq<AttentionReason>, id: Option<AttentionId>)
    requires Good(w) && ReasonsValid(reasons) && FreshAttentionId(w, id) && RaiseAttention(w, reasons, id).Ok?
    ensures Follows(w, RaiseAttention(w, reasons, id).value)
    ensures RaiseAttention(w, reasons, id).value.status == UserAttentionRequired
    ensures w.status in ATTENTION_SOURCES + {UserAttentionRequired}
  {
    hide Good;
    RaiseKeeps(w, reasons, id);
    SelfHistory(w);
    HistoryThenAttention(w, w, RaiseAttention(w, reasons, id).value);
    if w.status != UserAttentionRequired {
      NoOpenRequest(w);
    }
  }

  lemma NoOpenRequest(w: WorkOrder)
    requires Good(w) && w.status != UserAttentionRequired
    ensures OpenRequest(w.attention).None?
  {
    NoneOpen(w);
  }

  lemma ResumeDeferredFollows(w: WorkOrder, baseline: CommitSha)
    requires Good(w) && ResumeDeferred(w, baseline).Ok?
    ensures Follows(w, ResumeDeferred(w, baseline).value)
    ensures ResumeDeferred(w, baseline).value.status in ATTENTION_SOURCES + {UserAttentionRequired}
  {
    hide Block.Valid, BlockRecorded, InOrder, AllStaged, RaiseAttention;
    var resumed := w.(status := w.deferredFrom.value, deferredFrom := None);
    ResumedGood(w);
    HistoryPlain(w, resumed);
    if w.deferredFrom.value in BASELINE_BOUND && Drifted(w, baseline) {
      EscalateLater(w, resumed, DriftReason(baseline));
    }
  }

  lemma ResumedGood(w: WorkOrder)
    requires Good(w) && w.status == Deferred && w.deferredFrom.Some?
    ensures Good(w.(status := w.deferredFrom.value, deferredFrom := None))
  {
    hide Block.Valid, BlockRecorded, InOrder, AllStaged;
  }

  /** Escalating from a record that already follows w without touching attention. */
  lemma EscalateLater(w: WorkOrder, mid: WorkOrder, reason: AttentionReason)
    requires Follows(w, mid) && mid.attention == w.attention && mid.status in ATTENTION_SOURCES && reason.evidence != []
    ensures RaiseAttention(mid, [reason], None).Ok?
    ensures Follows(w, RaiseAttention(mid, [reason], None).value)
    ensures RaiseAttention(mid, [reason], None).value.status == UserAttentionRequired
  {
    hide Good, RaiseAttention;
    RaiseFromWork(mid, reason);
    RaiseKeeps(mid, [reason], None);
    HistoryThenAttention(w, mid, RaiseAttention(mid, [reason], None).value);
  }

  lemma RecordDeviationFollows(w: WorkOrder, d: Deviation)
    requires Good(w) && RecordDeviation(w, d).Ok?
    requires d.id.NamedDeviation? && forall x :: x in w.deviations ==> x.id != d.id
    ensures Follows(w, RecordDeviation(w, d).value)
    ensures RecordDeviation(w, d).value.status == w.status || w.status in ATTENTION_SOURCES
    ensures RecordDeviation(w, d).value.status in {w.status, UserAttentionRequired}
  {
    hide Good, RaiseAttention;
    var recorded := w.(deviations := w.deviations + [d]);
    DeviationAdded(w, d);
    HistoryPlain(w, recorded);
    if d.material {
      var reason := AttentionReason(MaterialDeviation, Blocking, d.summary, [d.evidence], []);
      RaiseFollows(recorded, [reason], None);
      RaiseKeeps(recorded, [reason], None);
      HistoryThenAttention(w, recorded, RaiseAttention(recorded, [reason], None).value);
    }
  }

  /** The result of a step is good, keeps history, and is one legal status step unless it is the approval gap. */
  ghost predicate LegalStep(w: WorkOrder, step: Step, next: WorkOrder) {
    && !w.IsTerminal()
    && Follows(w, next)
    && (StatusStep(w.status, next.status) || ApprovalGap(w, step, next))
  }

  /** The plan approval that escalates at once. */
  predicate ApprovalGap(w: WorkOrder, step: Step, next: WorkOrder) {
    step.DoApprovePlan? && w.status == PlanProposed && next.status == UserAttentionRequired
  }

  lemma ApprovePlanFollows(w: WorkOrder, planVersion: nat, approvedBy: string)
    requires Good(w) && ApprovePlan(w, planVersion, approvedBy).Ok?
    ensures Follows(w, ApprovePlan(w, planVersion, approvedBy).value)
    ensures w.status == PlanProposed
    ensures ApprovePlan(w, planVersion, approvedBy).value.status in {PlanApproved, UserAttentionRequired}
  {
    hide Good, RaiseAttention, PlanGaps;
    ApproveOnlyKeeps(w, planVersion, approvedBy);
    var mid := ApprovePlanOnly(w, planVersion, approvedBy).value;
    var gaps := PlanGaps(mid, w.planVersions[planVersion - 1]);
    if gaps != [] {
      EscalateLater(w, mid, AttentionReason(IndependenceUnavailable, Blocking, "auditor independence cannot be met",
                                            GapEvidence(gaps), []));
    }
  }
}
