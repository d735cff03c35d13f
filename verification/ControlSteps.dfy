/** The evolution theorem: one statement over every step of the machine. */
module ControlSteps {
  import opened ControlModel
  import opened ControlEvolution
  import opened ControlMachine
  import opened ControlInvariant
  import opened ControlMoves
  import opened ControlApproval
  import opened ControlLifecycle
  import opened ControlDecide

  /** Every step taken from a good record gives a good record and a legal step. */
  lemma StepFollows(w: WorkOrder, step: Step)
    requires Good(w) && WellFormed(w, step) && Take(w, step).Ok?
    ensures LegalStep(w, step, Take(w, step).value)
  {
    hide Good, HistoryKept, RaiseAttention, ApprovePlan, Decide, RecordFinalAudit, RecordKernelOutcome, ResumeDeferred,
      AttachCandidate, RecordDeviation, Move;
    match step
    case DoStartIntake(baseline) => StartIntakeFollows(w, baseline);
    case DoProposePlan(plan) => ProposePlanFollows(w, plan);
    case DoApprovePlan(planVersion, approvedBy) => ApprovePlanFollows(w, planVersion, approvedBy);
    case DoRejectPlan => RejectPlanFollows(w);
    case DoAttachCandidate(candidate, baseline) => AttachLegal(w, candidate, baseline);
    case DoStartExecution(baseline) => StartLegal(w, baseline);
    case DoEnterFinalVerification(baseline) => EnterLegal(w, baseline);
    case DoRecordFinalAudit(audit) => FinalAuditLegal(w, audit);
    case DoRecordKernelOutcome(outcome) => OutcomeLegal(w, outcome);
    case DoRaiseAttention(reasons, id) => RaiseFollows(w, reasons, id);
    case DoDecide(decision, amendment, observed) => DecideFollows(w, decision, amendment, observed);
    case DoResumeDeferred(baseline) => ResumeLegal(w, baseline);
    case DoRecordDeviation(deviation) => DeviationLegal(w, deviation);
    case DoBlock(id, move) =>
      MoveMoves(w, id, move);
  }

  lemma AttachLegal(w: WorkOrder, candidate: Candidate, baseline: CommitSha)
    requires Good(w) && AttachCandidate(w, candidate, baseline).Ok?
    ensures var next := AttachCandidate(w, candidate, baseline).value;
            w.status == PlanApproved && Follows(w, next) && next.status in {PlanApproved, UserAttentionRequired}
  {
    hide Good, HistoryKept, RaiseAttention;
    AttachCandidateFollows(w, candidate, baseline);
    if Drifted(w, baseline) {
      EscalateFollows(w, DriftReason(baseline));
    }
  }

  lemma StartLegal(w: WorkOrder, baseline: CommitSha)
    requires Good(w) && StartExecution(w, baseline).Ok?
    ensures var next := StartExecution(w, baseline).value;
            w.status == PlanApproved && Follows(w, next) && next.status in {Executing, UserAttentionRequired}
  {
    hide Good, HistoryKept, RaiseAttention;
    StartExecutionFollows(w, baseline);
    if Drifted(w, baseline) {
      EscalateFollows(w, DriftReason(baseline));
    }
  }

  lemma EnterLegal(w: WorkOrder, baseline: CommitSha)
    requires Good(w) && EnterFinalVerification(w, baseline).Ok?
    ensures var next := EnterFinalVerification(w, baseline).value;
            w.status == Executing && Follows(w, next) && next.status in {FinalVerification, UserAttentionRequired}
  {
    hide Good, HistoryKept, RaiseAttention;
    EnterFinalFollows(w, baseline);
    if Drifted(w, baseline) {
      EscalateFollows(w, DriftReason(baseline));
    }
  }

  lemma FinalAuditLegal(w: WorkOrder, audit: AuditRecord)
    requires Good(w) && RecordFinalAudit(w, audit).Ok?
    ensures var next := RecordFinalAudit(w, audit).value;
            w.status == FinalVerification && Follows(w, next)
              && next.status in {FinalVerification, UserAttentionRequired}
  {
    hide Good, HistoryKept, RaiseAttention, RecordedGaps, CheckProfile, WithProfile;
    FinalAuditFollows(w, audit);
    var gaps := RecordedGaps(w, ApprovedRisk(w), audit, Writers(w.blocks + w.supersededBlocks));
    if gaps != [] {
      EscalateFollows(w, AttentionReason(IndependenceUnavailable, Blocking, "auditor independence cannot be met",
                                         GapEvidence(gaps), []));
    }
  }

  lemma OutcomeLegal(w: WorkOrder, outcome: KernelOutcome)
    requires Good(w) && RecordKernelOutcome(w, outcome).Ok?
    ensures var next := RecordKernelOutcome(w, outcome).value;
            w.status == FinalVerification && Follows(w, next) && next.status in {Promoted, UserAttentionRequired}
  {
    hide Good, HistoryKept, RaiseAttention;
    KernelOutcomeFollows(w, outcome);
    if !outcome.IsPromoted() {
      EscalateFollows(w, AttentionReason(PromotionRefused, Blocking, outcome.reason, [outcome.evidence], []));
    }
  }

  lemma ResumeLegal(w: WorkOrder, baseline: CommitSha)
    requires Good(w) && ResumeDeferred(w, baseline).Ok?
    ensures w.status == Deferred && Follows(w, ResumeDeferred(w, baseline).value)
    ensures StatusStep(Deferred, ResumeDeferred(w, baseline).value.status)
  {
    hide Good, HistoryKept, ResumeDeferred;
    ResumeDeferredFollows(w, baseline);
    WasDeferred(w, baseline);
  }

  lemma WasDeferred(w: WorkOrder, baseline: CommitSha)
    requires ResumeDeferred(w, baseline).Ok?
    ensures w.status == Deferred
  {
    hide RaiseAttention;
  }

  lemma DeviationLegal(w: WorkOrder, d: Deviation)
    requires Good(w) && RecordDeviation(w, d).Ok?
    requires d.id.NamedDeviation? && forall x :: x in w.deviations ==> x.id != d.id
    ensures var next := RecordDeviation(w, d).value;
            !w.IsTerminal() && Follows(w, next) && StatusStep(w.status, next.status)
  {
    hide Good, HistoryKept, RaiseAttention;
    RecordDeviationFollows(w, d);
  }

  /** The step approves a plan whose bound auditors cannot be independent of its bound producers. */
  predicate ApprovesGap(w: WorkOrder, step: Step) {
    step.DoApprovePlan? && PlanGaps(w, PlanAt(w.planVersions, step.planVersion)) != []
  }

  lemma GapEscalates(w: WorkOrder, planVersion: nat, approvedBy: string)
    requires Good(w) && ApprovePlan(w, planVersion, approvedBy).Ok?
    ensures ApprovePlan(w, planVersion, approvedBy).value.status == UserAttentionRequired <==>
              ApprovesGap(w, DoApprovePlan(planVersion, approvedBy))
  {
    hide Good, RaiseAttention, PlanGaps, LegalSuccessor;
    ApproveOnlyKeeps(w, planVersion, approvedBy);
    var mid := ApprovePlanOnly(w, planVersion, approvedBy).value;
    SameGaps(w, mid, w.planVersions[planVersion - 1]);
    var gaps := PlanGaps(mid, w.planVersions[planVersion - 1]);
    if gaps != [] {
      EscalateFollows(mid, AttentionReason(IndependenceUnavailable, Blocking, "auditor independence cannot be met",
                                           GapEvidence(gaps), []));
    }
  }

  /** The gaps of the bound roles depend on the profile and the waivers only. */
  lemma SameGaps(w: WorkOrder, mid: WorkOrder, plan: PlanVersion)
    requires mid.executionProfile == w.executionProfile && mid.attention == w.attention
    ensures PlanGaps(mid, plan) == PlanGaps(w, plan)
  {
    assert forall risk, role, memory :: PlanRoleGaps(mid, risk, role, memory) == PlanRoleGaps(w, risk, role, memory);
  }

  /** The result of a step is one legal successor of its input, except exactly when an approval finds a gap. */
  lemma EvolutionTheorem(w: WorkOrder, step: Step)
    requires Good(w) && WellFormed(w, step) && Take(w, step).Ok?
    ensures Good(Take(w, step).value)
    ensures LegalSuccessor(w, Take(w, step).value) <==> !ApprovesGap(w, step)
  {
    hide Good, HistoryKept, ApprovePlan, PlanGaps, Decide, Move, RaiseAttention, RecordFinalAudit, RecordKernelOutcome,
      RecordDeviation, ResumeDeferred;
    StepFollows(w, step);
    if step.DoApprovePlan? {
      ApprovePlanFollows(w, step.planVersion, step.approvedBy);
      GapEscalates(w, step.planVersion, step.approvedBy);
    }
  }

  /** The escalating approval is two legal steps: the approval alone, and then the escalation. */
  lemma ApprovalGapIsTwoSteps(w: WorkOrder, planVersion: nat, approvedBy: string)
    requires Good(w) && ApprovePlan(w, planVersion, approvedBy).Ok?
    requires ApprovesGap(w, DoApprovePlan(planVersion, approvedBy))
    ensures ApprovePlanOnly(w, planVersion, approvedBy).Ok?
    ensures var mid := ApprovePlanOnly(w, planVersion, approvedBy).value;
            && LegalSuccessor(w, mid)
            && LegalSuccessor(mid, ApprovePlan(w, planVersion, approvedBy).value)
            && mid.status == PlanApproved
  {
    hide Good, HistoryKept, RaiseAttention, PlanGaps;
    GapEscalates(w, planVersion, approvedBy);
    ApproveOnlyKeeps(w, planVersion, approvedBy);
    var mid := ApprovePlanOnly(w, planVersion, approvedBy).value;
    var gaps := PlanGaps(mid, w.planVersions[planVersion - 1]);
    EscalateFollows(mid, AttentionReason(IndependenceUnavailable, Blocking, "auditor independence cannot be met",
                                         GapEvidence(gaps), []));
  }
}
