/**
 When a step of the whole record is accepted, what it asks the user and where it leads, and what a
 decision of the user does: one exact condition each.
 */
module ControlAdmission {
  import opened Prelude
  import opened ControlModel
  import opened ControlEvolution
  import opened ControlMachine
  import opened ControlInvariant
  import opened ControlRaise
  import opened ControlDecide
  import opened ControlIndependence
  import opened ControlPromotion
  import opened ControlGuards

  // --- Steps of the whole record ---

  /** The producing roles a plan puts to work. */
  predicate Produces(role: Role, plan: PlanVersion) {
    role == PrimaryCodeExecutor || (role == MemoryCurator && exists s :: s in plan.blocks && s.memoryImpact)
  }

  /** Every bound auditor may judge every bound producer the plan puts to work. */
  ghost predicate PlanJudgeable(w: WorkOrder, plan: PlanVersion) {
    forall a, p :: a in w.executionProfile.bindings && p in w.executionProfile.bindings ==>
      Judges(a.role, p.role) && Produces(p.role, plan) ==>
        forall r :: r in w.executionProfile.policy.Required(plan.riskClass) ==> MayJudge(w, a, r, p.primary.fingerprint)
  }

  /** An auditor meets a requirement against several producers exactly when it meets it against each. */
  lemma MeetsEach(r: Requirement, auditor: Profile, producers: set<Profile>)
    requires producers != {}
    ensures Meets(r, auditor, producers) <==> forall p :: p in producers ==> Meets(r, auditor, {p})
  {
    var q :| q in producers;
    assert Meets(r, auditor, {q}) ==> r == FreshSession || r == ReadOnlyWorkspace ==> Meets(r, auditor, producers);
  }

  /** The bound profiles whose work an auditing role will judge under a plan. */
  function PlanProducers(w: WorkOrder, auditor: Role, plan: PlanVersion): set<Profile> {
    set b | b in w.executionProfile.bindings && Judges(auditor, b.role) && Produces(b.role, plan) ::
      b.primary.fingerprint
  }

  lemma PlanProducersAre(w: WorkOrder, auditor: Role, plan: PlanVersion, memory: bool)
    requires memory <==> exists s :: s in plan.blocks && s.memoryImpact
    requires w.executionProfile.Valid()
    ensures PlanProducers(w, auditor, plan) ==
            set r | r in AuditedProducers(auditor)
                    && (r != MemoryCurator || memory)
                    && BoundPrimary(w.executionProfile, r).Some? :: BoundPrimary(w.executionProfile, r).value
  {
    hide ProjectExecutionProfile.Valid, ProjectExecutionProfile.Binding;
    var roles := set r | r in AuditedProducers(auditor)
                         && (r != MemoryCurator || memory)
                         && BoundPrimary(w.executionProfile, r).Some?;
    forall b | b in w.executionProfile.bindings
      ensures w.executionProfile.Binding(b.role) == Some(b)
      ensures b.role in roles <==> Judges(auditor, b.role) && Produces(b.role, plan)
    {
      OneBinding(w.executionProfile, b);
    }
    forall r | r in roles
      ensures BoundPrimary(w.executionProfile, r).value in PlanProducers(w, auditor, plan)
    {
      assert w.executionProfile.Binding(r).value in w.executionProfile.bindings;
    }
    forall x | x in PlanProducers(w, auditor, plan)
      ensures exists r :: r in roles && BoundPrimary(w.executionProfile, r).value == x
    {
      var b :| b in w.executionProfile.bindings && Judges(auditor, b.role) && Produces(b.role, plan)
               && b.primary.fingerprint == x;
      assert b.role in roles;
    }
  }

  /** The bound auditor may judge every producer the plan puts to work for it. */
  ghost predicate AuditorFits(w: WorkOrder, a: RoleBinding, plan: PlanVersion) {
    forall p :: p in w.executionProfile.bindings ==>
      Judges(a.role, p.role) && Produces(p.role, plan) ==>
        forall r :: r in w.executionProfile.policy.Required(plan.riskClass) ==> MayJudge(w, a, r, p.primary.fingerprint)
  }

  lemma AuditorFitsMeans(w: WorkOrder, a: RoleBinding, plan: PlanVersion)
    ensures var producers := PlanProducers(w, a.role, plan);
            AuditorFits(w, a, plan) <==>
              producers == {} ||
              UnmetGaps(w.executionProfile.policy.Required(plan.riskClass), a.role, a.primary.fingerprint, producers,
                        WaivedIndependence(w.attention)) == []
  {
    hide Meets, WaivedIndependence, Produces, Judges;
    var required, waived := w.executionProfile.policy.Required(plan.riskClass), WaivedIndependence(w.attention);
    var producers := PlanProducers(w, a.role, plan);
    UnmetMeans(required, a.role, a.primary.fingerprint, producers, waived);
    if producers != {} {
      forall r {
        MeetsEach(r, a.primary.fingerprint, producers);
      }
    }
    if AuditorFits(w, a, plan) {
      forall r, x | r in required && x in producers
        ensures Meets(r, a.primary.fingerprint, {x}) || Gap(a.role, r) in waived
      {
        var p :| p in w.executionProfile.bindings && Judges(a.role, p.role) && Produces(p.role, plan)
                 && p.primary.fingerprint == x;
        assert MayJudge(w, a, r, p.primary.fingerprint);
      }
    } else {
      var p, r :| p in w.executionProfile.bindings && Judges(a.role, p.role) && Produces(p.role, plan)
                  && r in required && !MayJudge(w, a, r, p.primary.fingerprint);
      assert p.primary.fingerprint in producers;
    }
  }

  /** The auditor bound to the role, if there is one, fits the plan. */
  ghost predicate RoleFits(w: WorkOrder, auditor: Role, plan: PlanVersion) {
    forall a :: a in w.executionProfile.bindings && a.role == auditor ==> AuditorFits(w, a, plan)
  }

  lemma PlanRoleJudgeable(w: WorkOrder, auditor: Role, plan: PlanVersion, memory: bool)
    requires memory <==> exists s :: s in plan.blocks && s.memoryImpact
    requires w.executionProfile.Valid()
    ensures PlanRoleGaps(w, plan.riskClass, auditor, memory) == [] <==> RoleFits(w, auditor, plan)
  {
    hide Meets, WaivedIndependence, ProjectExecutionProfile.Valid, ProjectExecutionProfile.Binding, Produces,
      AuditorFits, UnmetGaps, PlanProducers;
    PlanProducersAre(w, auditor, plan, memory);
    forall a | a in w.executionProfile.bindings && a.role == auditor
      ensures w.executionProfile.Binding(auditor) == Some(a)
    {
      OneBinding(w.executionProfile, a);
    }
    var bound := w.executionProfile.Binding(auditor);
    if bound.Some? {
      AuditorFitsMeans(w, bound.value, plan);
    }
  }

  lemma PlanGapsMean(w: WorkOrder, plan: PlanVersion)
    requires w.executionProfile.Valid()
    ensures PlanGaps(w, plan) == [] <==> PlanJudgeable(w, plan)
  {
    hide MayJudge, ProjectExecutionProfile.Valid, PlanRoleGaps, Produces;
    assert forall a, p: RoleBinding :: Judges(a, p.role) ==> a in {CodeAuditor, MemoryAuditor, FinalVerifier};
    var memory := exists s :: s in plan.blocks && s.memoryImpact;
    PlanRoleJudgeable(w, CodeAuditor, plan, memory);
    PlanRoleJudgeable(w, MemoryAuditor, plan, memory);
    PlanRoleJudgeable(w, FinalVerifier, plan, memory);
  }

  /** What a step of the whole record needs; decisions are treated below. */
  ghost predicate Admits(w: WorkOrder, step: Step) {
    match step
    case DoStartIntake(_) => w.status == Draft
    case DoProposePlan(plan) =>
      (w.status == ContextIntake || w.status == PlanProposed) && plan.version == |w.planVersions| + 1
    case DoApprovePlan(n, _) =>
      && w.status == PlanProposed && 1 <= n == |w.planVersions|
      && (forall a :: a in w.approvals ==> a.planVersion < n)
      && (forall b :: b in w.blocks && b.status == BlockDone ==> b.spec in w.planVersions[n - 1].blocks)
    case DoRejectPlan => w.status == PlanProposed
    case DoAttachCandidate(candidate, baseline) =>
      && w.status == PlanApproved && w.candidate.None?
      && (w.plannedBaseline == Some(baseline) ==> candidate.baseCommit == baseline)
    case DoStartExecution(_) => w.status == PlanApproved && w.candidate.Some?
    case DoEnterFinalVerification(_) => w.status == Executing && forall b :: b in w.blocks ==> b.status == BlockDone
    case DoRecordFinalAudit(audit) =>
      w.status == FinalVerification && audit.role == FinalVerifier
      && Bound(w, FinalVerifier, audit.auditor, None, None)
    case DoRecordKernelOutcome(outcome) =>
      && w.status == FinalVerification
      && (Successful(outcome) ==> w.finalAudit.Some? && OwnVerdict(w.finalAudit.value, FinalVerifier))
    case DoRaiseAttention(reasons, _) => reasons != [] && MayAsk(w)
    case DoResumeDeferred(_) => w.status == Deferred
    case DoRecordDeviation(d) =>
      d.approvedBy.None? && w.status != Promoted && w.status != Aborted && (d.material ==> MayAsk(w))
    case _ => false
  }

  /** The user is being asked already, or can be from here. */
  predicate MayAsk(w: WorkOrder) {
    || w.status == UserAttentionRequired || w.status == ContextIntake || w.status == PlanApproved
    || w.status == Executing || w.status == FinalVerification
  }

  predicate Successful(outcome: KernelOutcome) {
    outcome.attempted && outcome.stage == Some(PromotedStage) && outcome.checkpoint.Some?
  }

  /** What an admitted step asks the user, and otherwise where it leads. */
  ghost function Raised(w: WorkOrder, step: Step): Option<AttentionCode>
    requires Admits(w, step)
  {
    match step
    case DoApprovePlan(n, _) =>
      if PlanJudgeable(w, w.planVersions[n - 1]) then None else Some(IndependenceUnavailable)
    case DoAttachCandidate(_, baseline) => if w.plannedBaseline == Some(baseline) then None else Some(BaselineDrift)
    case DoStartExecution(baseline) => if w.plannedBaseline == Some(baseline) then None else Some(BaselineDrift)
    case DoEnterFinalVerification(baseline) =>
      if w.plannedBaseline == Some(baseline) then None else Some(BaselineDrift)
    case DoRecordFinalAudit(audit) =>
      if Independent(audit, w.executionProfile.policy.Required(ApprovedRisk(w)), Writers(w.blocks + w.supersededBlocks),
                     WaivedIndependence(w.attention)) then None
      else Some(IndependenceUnavailable)
    case DoRecordKernelOutcome(outcome) => if Successful(outcome) then None else Some(PromotionRefused)
    case DoResumeDeferred(baseline) =>
      if w.deferredFrom.Some? && w.deferredFrom.value != ContextIntake && w.plannedBaseline != Some(baseline)
      then Some(BaselineDrift) else None
    case DoRecordDeviation(d) => if d.material then Some(MaterialDeviation) else None
    case _ => None
  }

  function LeadsTo(w: WorkOrder, step: Step): WorkOrderStatus {
    match step
    case DoStartIntake(_) => ContextIntake
    case DoProposePlan(_) => PlanProposed
    case DoApprovePlan(_, _) => PlanApproved
    case DoRejectPlan => Aborted
    case DoStartExecution(_) => Executing
    case DoEnterFinalVerification(_) => FinalVerification
    case DoRecordKernelOutcome(_) => Promoted
    case DoRaiseAttention(_, _) => UserAttentionRequired
    case DoResumeDeferred(_) => if w.deferredFrom.Some? then w.deferredFrom.value else Deferred
    case _ => w.status
  }

  /** Somebody is asked about this, in the one request that is open. */
  ghost predicate Open(next: WorkOrder, code: AttentionCode) {
    next.status == UserAttentionRequired &&
    exists a, r :: a in next.attention && !a.closed && r in a.reasons && r.code == code
  }

  /** What the step hands over is in the record afterwards, and is only left out where the user is asked instead. */
  ghost predicate Enters(w: WorkOrder, step: Step, next: WorkOrder)
    requires Admits(w, step)
  {
    match step
    case DoStartIntake(baseline) => next.plannedBaseline == Some(baseline)
    case DoProposePlan(plan) => next.planVersions == w.planVersions + [plan]
    case DoApprovePlan(n, approvedBy) =>
      && next.approvals == w.approvals + [PlanApproval(n, w.executionProfile.version, approvedBy)]
      && next.budget == Some(if w.budget.Some? then w.budget.value else w.planVersions[n - 1].budget)
    case DoAttachCandidate(candidate, _) =>
      next.candidate == if Raised(w, step).None? then Some(candidate) else w.candidate
    case DoRecordFinalAudit(audit) =>
      && next.finalAudit == (if Raised(w, step).None? then Some(audit) else w.finalAudit)
      && (Raised(w, step).None? ==> audit.auditor.fingerprint in next.usedProfiles)
    case DoRecordKernelOutcome(outcome) =>
      next.outcome == Some(outcome) && next.evidence == w.evidence + [outcome.evidence]
    case DoRecordDeviation(d) => next.deviations == w.deviations + [d]
    case _ => true
  }

  /** What each refusal of a step says; none says anything that is not so. */
  ghost predicate Denied(w: WorkOrder, step: Step, code: string) {
    match step
    case DoStartIntake(_) => code == "illegal_state" && w.status != Draft
    case DoProposePlan(plan) =>
      || (code == "illegal_state" && w.status != ContextIntake && w.status != PlanProposed)
      || (code == "plan_version" && plan.version != |w.planVersions| + 1)
    case DoApprovePlan(n, _) =>
      || (code == "illegal_state" && w.status != PlanProposed)
      || (code == "plan_version" && (n != |w.planVersions| || exists a :: a in w.approvals && a.planVersion >= n))
      || (code == "replan_changes_done_block" && 1 <= n <= |w.planVersions| &&
          exists b :: b in w.blocks && b.status == BlockDone && b.spec !in w.planVersions[n - 1].blocks)
    case DoRejectPlan => code == "illegal_state" && w.status != PlanProposed
    case DoAttachCandidate(candidate, _) =>
      || (code == "illegal_state" && w.status != PlanApproved)
      || (code == "candidate" && w.candidate.Some?)
      || (code == "candidate_base" && Some(candidate.baseCommit) != w.plannedBaseline)
    case DoStartExecution(_) =>
      (code == "illegal_state" && w.status != PlanApproved) || (code == "candidate" && w.candidate.None?)
    case DoEnterFinalVerification(_) =>
      || (code == "illegal_state" && w.status != Executing)
      || (code == "blocks_not_done" && exists b :: b in w.blocks && b.status != BlockDone)
    case DoRecordFinalAudit(audit) =>
      || (code == "illegal_state" && w.status != FinalVerification)
      || (code == "role" && audit.role != FinalVerifier)
      || ProfileRefused(w, audit.role, audit.auditor, None, None, code)
    case DoRecordKernelOutcome(outcome) =>
      || (code == "illegal_state" && w.status != FinalVerification)
      || (code == "final_audit" && Successful(outcome)
          && !(w.finalAudit.Some? && OwnVerdict(w.finalAudit.value, FinalVerifier)))
    case DoRaiseAttention(reasons, _) => (code == "reasons" && reasons == []) || (code == "illegal_state" && !MayAsk(w))
    case DoResumeDeferred(_) => code == "illegal_state" && w.status != Deferred
    case DoRecordDeviation(d) =>
      || (code == "deviation" && d.approvedBy.Some?)
      || (code == "illegal_state" && (w.status in TERMINAL || (d.material && !MayAsk(w))))
    case _ => false
  }

  /** The only exception that is not a refusal: the approval of no plan at all. */
  predicate Crashes(w: WorkOrder, step: Step) {
    step.DoApprovePlan? && step.planVersion == 0 && w.planVersions == []
  }

  /**
   The step is accepted exactly when it is admitted, and then asks the user or leads on; else the
   refusal says why.
   */
  ghost predicate Admitted(w: WorkOrder, step: Step) {
    match Take(w, step)
    case Ok(next) =>
      Admits(w, step) && Enters(w, step, next) && (
        match Raised(w, step)
        case None => next.status == LeadsTo(w, step) && (!step.DoRaiseAttention? ==> next.attention == w.attention)
        case Some(code) => Open(next, code))
    case Err(Rejected(code)) => !Admits(w, step) && Denied(w, step, code)
    case Err(Unhandled(_)) => !Admits(w, step) && Crashes(w, step)
  }

  lemma AskedIsOpen(w: WorkOrder, next: WorkOrder, code: AttentionCode)
    requires Asked(w, next, code)
    ensures Open(next, code)
  {
    var asked := next.attention[|w.attention|];
    assert asked in next.attention && asked.reasons[0] in asked.reasons;
  }

  lemma PlainAdmitted(w: WorkOrder, step: Step)
    requires Good(w) && (step.DoStartIntake? || step.DoProposePlan? || step.DoRejectPlan?)
    ensures Admitted(w, step)
  {
    hide Good, Bound, PlanJudgeable, OwnVerdict, Open, ApprovePlan, AttachCandidate, Decide,
      EnterFinalVerification, Move, RecordDeviation, RecordFinalAudit, RecordKernelOutcome, ResumeDeferred,
      StartExecution;
  }

  lemma RaiseAdmitted(w: WorkOrder, step: Step)
    requires Good(w) && step.DoRaiseAttention?
    ensures Admitted(w, step)
  {
    hide Good, Bound, PlanJudgeable, OwnVerdict, Open, MergeReasons, LastByCode, ReplaceRequest, ApprovePlan,
      AttachCandidate, Decide, EnterFinalVerification, Move, ProposePlan, RecordDeviation, RecordFinalAudit,
      RecordKernelOutcome, RejectPlan, ResumeDeferred, StartExecution, StartIntake;
    OpenMeansAsking(w);
  }

  lemma OpenMeansAsking(w: WorkOrder)
    requires Good(w)
    ensures OpenRequest(w.attention).Some? <==> w.status == UserAttentionRequired
  {
    hide InOrder, AllStaged, WorkOrder.PartsValid, WorkOrder.ProfilesRecorded;
  }

  /** Every way of asking about one reason opens a request with it. */
  lemma RaisingIsOpen(w: WorkOrder, reason: AttentionReason)
    requires w.status in ATTENTION_SOURCES && reason.severity == Blocking && forall a :: a in w.attention ==> a.closed
    ensures forall mid: WorkOrder :: mid.status == w.status && mid.attention == w.attention ==>
              Raises(w, mid, reason) && Open(RaiseAttention(mid, [reason], None).value, reason.code)
  {
    hide RaiseAttention, Asked, Open;
    RaisingOpens(w, reason);
    forall mid: WorkOrder | mid.status == w.status && mid.attention == w.attention
      ensures Raises(w, mid, reason) && Open(RaiseAttention(mid, [reason], None).value, reason.code)
    {
      AskedIsOpen(w, RaiseAttention(mid, [reason], None).value, reason.code);
    }
  }

  lemma DriftAdmitted(w: WorkOrder, step: Step)
    requires Good(w) && (step.DoAttachCandidate? || step.DoStartExecution? || step.DoEnterFinalVerification?)
    ensures Admitted(w, step)
  {
    hide Good, RaiseAttention, Asked, Open, Bound, PlanJudgeable, OwnVerdict, ApprovePlan, Decide, Move,
      ProposePlan, RecordDeviation, RecordFinalAudit, RecordKernelOutcome, RejectPlan, ResumeDeferred,
      StartIntake;
    if w.status in ATTENTION_SOURCES {
      NothingOpen(w);
      RaisingIsOpen(w, DriftReason(step.baseline));
      assert Raises(w, w, DriftReason(step.baseline));
    }
  }

  lemma ResumeAdmitted(w: WorkOrder, baseline: CommitSha)
    requires Good(w)
    ensures Admitted(w, DoResumeDeferred(baseline))
  {
    hide Good, RaiseAttention, Asked, Open, Bound, PlanJudgeable, OwnVerdict, ApprovePlan, AttachCandidate,
      Decide, EnterFinalVerification, Move, ProposePlan, RecordDeviation, RecordFinalAudit, RecordKernelOutcome,
      RejectPlan, StartExecution, StartIntake;
    if w.status == Deferred {
      DeferredFacts(w);
      NothingOpen(w);
      var resumed := w.(status := w.deferredFrom.value, deferredFrom := None);
      RaisingIsOpen(resumed, DriftReason(baseline));
      assert Raises(resumed, resumed, DriftReason(baseline));
    }
  }

  lemma ApprovalAdmitted(w: WorkOrder, n: nat, approvedBy: string)
    requires Good(w)
    ensures Admitted(w, DoApprovePlan(n, approvedBy))
  {
    hide Good, RaiseAttention, Asked, Open, Bound, PlanJudgeable, OwnVerdict, PlanGaps, GapEvidence,
      ApprovePlanOnly, AttachCandidate, Decide, EnterFinalVerification, Move, ProposePlan, RecordDeviation,
      RecordFinalAudit, RecordKernelOutcome, RejectPlan, ResumeDeferred, StartExecution, StartIntake;
    ApprovalGuards(w, n, approvedBy);
    NothingOpenUnlessAsking(w);
    if ApprovePlanOnly(w, n, approvedBy).Ok? {
      var approved, plan := ApprovePlanOnly(w, n, approvedBy).value, w.planVersions[n - 1];
      PlanGapsMean(approved, plan);
      SamePlanJudgeable(w, approved, plan);
      var reason := AttentionReason(IndependenceUnavailable, Blocking, "auditor independence cannot be met",
                                    GapEvidence(PlanGaps(approved, plan)), []);
      RaisingIsOpen(approved, reason);
      assert Raises(approved, approved, reason);
    }
  }

  lemma ApprovalGuards(w: WorkOrder, n: nat, approvedBy: string)
    requires Good(w)
    ensures ApprovePlanOnly(w, n, approvedBy).Ok? <==> Admits(w, DoApprovePlan(n, approvedBy))
    ensures ApprovePlanOnly(w, n, approvedBy).Err? ==>
            match ApprovePlanOnly(w, n, approvedBy).error
            case Rejected(code) => Denied(w, DoApprovePlan(n, approvedBy), code)
            case Unhandled(_) => Crashes(w, DoApprovePlan(n, approvedBy))
    ensures ApprovePlanOnly(w, n, approvedBy).Ok? ==>
            var next := ApprovePlanOnly(w, n, approvedBy).value;
            && next.status == PlanApproved && next.attention == w.attention
            && next.executionProfile == w.executionProfile
            && next.approvals == w.approvals + [PlanApproval(n, w.executionProfile.version, approvedBy)]
            && next.budget == Some(if w.budget.Some? then w.budget.value else w.planVersions[n - 1].budget)
  {
    hide Good, PlannedBlocks, Superseded, Bound, OwnVerdict;
    ApprovalsInOrder(w, n);
  }

  lemma NothingOpenUnlessAsking(w: WorkOrder)
    requires Good(w)
    ensures w.status != UserAttentionRequired ==> forall a :: a in w.attention ==> a.closed
    ensures w.executionProfile.Valid()
  {
    if w.status != UserAttentionRequired {
      NothingOpen(w);
    }
  }

  /** Approvals name ever later plans, so the last one is the latest. */
  lemma ApprovalsInOrder(w: WorkOrder, n: nat)
    requires Good(w)
    ensures w.approvals == [] || n > w.approvals[|w.approvals| - 1].planVersion <==>
              forall a :: a in w.approvals ==> a.planVersion < n
  {
    hide InOrder, AllStaged, WorkOrder.PartsValid, WorkOrder.ProfilesRecorded;
    if w.approvals != [] {
      assert w.approvals[|w.approvals| - 1] in w.approvals;
    }
  }

  lemma SamePlanJudgeable(w: WorkOrder, approved: WorkOrder, plan: PlanVersion)
    requires approved.executionProfile == w.executionProfile && approved.attention == w.attention
    ensures PlanJudgeable(approved, plan) <==> PlanJudgeable(w, plan)
  {
    hide Meets, Judges, Produces, WaivedIndependence;
    assert forall a, r, p :: MayJudge(approved, a, r, p) <==> MayJudge(w, a, r, p);
  }

  lemma FinalAuditAdmitted(w: WorkOrder, audit: AuditRecord)
    requires Good(w)
    ensures Admitted(w, DoRecordFinalAudit(audit))
  {
    hide Good, RaiseAttention, Asked, Open, Bound, PlanJudgeable, OwnVerdict, GapEvidence, CheckProfile,
      Independent, UnmetRecordedGaps, Writers, ApprovePlan, AttachCandidate, Decide, EnterFinalVerification,
      Move, ProposePlan, RecordDeviation, RecordKernelOutcome, RejectPlan, ResumeDeferred, StartExecution,
      StartIntake;
    NothingOpenUnlessAsking(w);
    BoundMeans(w, audit.role, audit.auditor, None, None);
    ProfileRefusalIsTrue(w, audit.role, audit.auditor, None, None);
    var required, waived := w.executionProfile.policy.Required(ApprovedRisk(w)), WaivedIndependence(w.attention);
    NoGapsMeansIndependent(required, audit, Writers(w.blocks + w.supersededBlocks), waived);
    if w.status == FinalVerification {
      var reason := AttentionReason(IndependenceUnavailable, Blocking, "auditor independence cannot be met",
                                    GapEvidence(RecordedGaps(w, ApprovedRisk(w), audit,
                                                             Writers(w.blocks + w.supersededBlocks))),
                                    []);
      RaisingIsOpen(w, reason);
      assert Raises(w, w, reason);
    }
  }

  lemma OutcomeAdmitted(w: WorkOrder, outcome: KernelOutcome)
    requires Good(w)
    ensures Admitted(w, DoRecordKernelOutcome(outcome))
  {
    hide Good, RaiseAttention, Asked, Bound, PlanJudgeable, ApprovePlan, AttachCandidate, Decide,
      EnterFinalVerification, Move, ProposePlan, RecordDeviation, RecordFinalAudit, RejectPlan, ResumeDeferred,
      StartExecution, StartIntake;
    NothingOpenUnlessAsking(w);
    FinalAuditRole(w);
    if w.status == FinalVerification {
      var reason := AttentionReason(PromotionRefused, Blocking, outcome.reason, [outcome.evidence], []);
      RaisingIsOpen(w, reason);
      assert Raises(w, w, reason);
    }
  }

  lemma FinalAuditRole(w: WorkOrder)
    requires Good(w)
    ensures w.finalAudit.Some? ==> w.finalAudit.value.role == FinalVerifier
  {
  }

  lemma DeviationAdmitted(w: WorkOrder, d: Deviation)
    requires Good(w)
    ensures Admitted(w, DoRecordDeviation(d))
  {
    hide Good, Asked, Bound, PlanJudgeable, OwnVerdict, MergeReasons, LastByCode, ReplaceRequest, Open,
      RaiseAttention, ApprovePlan, AttachCandidate, Decide, EnterFinalVerification, Move, ProposePlan,
      RecordFinalAudit, RecordKernelOutcome, RejectPlan, ResumeDeferred, StartExecution, StartIntake;
    NothingOpenUnlessAsking(w);
    OpenMeansAsking(w);
    var recorded := w.(deviations := w.deviations + [d]);
    var reason := AttentionReason(MaterialDeviation, Blocking, d.summary, [d.evidence], []);
    if w.status in ATTENTION_SOURCES {
      RaisingIsOpen(w, reason);
      assert Raises(w, recorded, reason);
    } else if w.status == UserAttentionRequired {
      WidensOpen(recorded, reason);
    } else {
      NotFromHere(recorded, reason);
    }
  }

  /** Elsewhere nothing can be asked. */
  lemma NotFromHere(w: WorkOrder, reason: AttentionReason)
    requires w.status !in ATTENTION_SOURCES && OpenRequest(w.attention).None?
    ensures RaiseAttention(w, [reason], None) == Err(Rejected("illegal_state"))
  {
    hide LastByCode;
  }

  /** While the user is being asked, a further reason joins the open request. */
  lemma WidensOpen(w: WorkOrder, reason: AttentionReason)
    requires w.status == UserAttentionRequired && OpenRequest(w.attention).Some?
    ensures RaiseAttention(w, [reason], None).Ok?
    ensures Open(RaiseAttention(w, [reason], None).value, reason.code)
    ensures RaiseAttention(w, [reason], None).value.deviations == w.deviations
  {
    var open := OpenRequest(w.attention).value;
    var merged := MergeReasons(open.reasons, [reason]);
    var one := MergeReason(open.reasons, reason);
    assert [reason][1..] == [] && MergeReasons(one, []) == one;
    assert merged == MergeReasons(one, [reason][1..]);
    var k := CodeIndex(open.reasons, reason.code);
    assert merged[k] in merged && merged[k].code == reason.code;
    var next := RaiseAttention(w, [reason], None).value;
    var i :| 0 <= i < |w.attention| && w.attention[i] == open;
    assert next.attention[i] in next.attention;
  }

  /** Every step of a whole record, except decisions and moves: accepted exactly when admitted. */
  lemma StepAdmitted(w: WorkOrder, step: Step)
    requires Good(w) && !step.DoDecide? && !step.DoBlock?
    ensures Admitted(w, step)
  {
    hide Admitted, Good;
    match step
    case DoApprovePlan(n, approvedBy) => ApprovalAdmitted(w, n, approvedBy);
    case DoRecordFinalAudit(audit) => FinalAuditAdmitted(w, audit);
    case DoRecordKernelOutcome(outcome) => OutcomeAdmitted(w, outcome);
    case DoResumeDeferred(baseline) => ResumeAdmitted(w, baseline);
    case DoRecordDeviation(d) => DeviationAdmitted(w, d);
    case DoRaiseAttention(_, _) => RaiseAdmitted(w, step);
    case DoStartIntake(_) => PlainAdmitted(w, step);
    case DoProposePlan(_) => PlainAdmitted(w, step);
    case DoRejectPlan => PlainAdmitted(w, step);
    case _ => DriftAdmitted(w, step);
  }

  lemma DeferredFacts(w: WorkOrder)
    requires Good(w) && w.status == Deferred
    ensures w.deferredFrom.Some? && w.deferredFrom.value in ATTENTION_SOURCES
  {
  }

  // --- Decisions ---

  /** Every blocking reason was resolved by an amendment, or waived by this decision or an earlier one. */
  ghost predicate Settled(asked: AttentionRequest, decision: UserDecision) {
    forall r :: r in asked.reasons && r.severity == Blocking ==>
      r.code in asked.resolved || r.code in decision.waived || exists d :: d in asked.decisions && r.code in d.waived
  }

  /** What a decision on the open request needs. */
  ghost predicate Decidable(w: WorkOrder, asked: AttentionRequest, decision: UserDecision, amendment: Option<Amendment>,
                            observed: Option<CommitSha>)
  {
    && (forall code :: code in decision.waived ==> exists r :: r in asked.reasons && r.code == code)
    && (forall id :: id in decision.approvedDeviations ==> exists d :: d in w.deviations && d.id == id)
    && match decision.action
       case ChangeAgentAction =>
         && amendment.Some? && amendment.value.ChangeAgent? && amendment.value.attentionId == asked.id
         && amendment.value.profile.projectId == w.projectId
         && amendment.value.profile.version > w.executionProfile.version
       case ChangeBudgetAction =>
         amendment.Some? && amendment.value.ChangeBudget? && amendment.value.attentionId == asked.id
       case Resume =>
         amendment.None? && Settled(asked, decision) && (asked.raisedFrom != ContextIntake ==> observed.Some?)
       case _ => amendment.None?
  }

  /** The amendment is of the kind that the decision announces, and answers this request. */
  predicate Announced(asked: AttentionRequest, decision: UserDecision, amendment: Option<Amendment>) {
    match decision.action
    case ChangeAgentAction => amendment.Some? && amendment.value.ChangeAgent? && amendment.value.attentionId == asked.id
    case ChangeBudgetAction =>
      amendment.Some? && amendment.value.ChangeBudget? && amendment.value.attentionId == asked.id
    case _ => amendment.None?
  }

  /** What each refusal of a decision says; none says anything that is not so. */
  ghost predicate DecisionRefused(w: WorkOrder, asked: AttentionRequest, decision: UserDecision,
                                  amendment: Option<Amendment>, observed: Option<CommitSha>, code: string)
  {
    match code
    case "waiver" => exists c :: c in decision.waived && forall r :: r in asked.reasons ==> r.code != c
    case "deviation" => exists id :: id in decision.approvedDeviations && forall d :: d in w.deviations ==> d.id != id
    case "amendment" => !Announced(asked, decision, amendment)
    case "profile_version" =>
      amendment.Some? && amendment.value.ChangeAgent? &&
      (amendment.value.profile.projectId != w.projectId
       || amendment.value.profile.version <= w.executionProfile.version)
    case "unresolved_reasons" => decision.action == Resume && !Settled(asked, decision)
    case "baseline" => decision.action == Resume && asked.raisedFrom != ContextIntake && observed.None?
    case _ => false
  }

  /** A decision is accepted exactly when it is decidable; else the refusal says why. */
  lemma DecisionAdmitted(w: WorkOrder, asked: AttentionRequest, decision: UserDecision, amendment: Option<Amendment>,
                         observed: Option<CommitSha>)
    requires Good(w) && w.status == UserAttentionRequired && asked in w.attention && !asked.closed
    ensures match Decide(w, decision, amendment, observed)
            case Ok(_) => Decidable(w, asked, decision, amendment, observed)
            case Err(Rejected(code)) =>
              !Decidable(w, asked, decision, amendment, observed)
              && DecisionRefused(w, asked, decision, amendment, observed, code)
            case Err(Unhandled(_)) => false
  {
    hide Good, Settled, AttentionRequest.Unblocked, ApproveDeviations, Amend, ResumeDecision, Close;
    var k := OpenPosition(w);
    var request := asked.(decisions := asked.decisions + [decision]);
    ApprovalsKnown(w, decision);
    if ApproveDeviations(w, decision).Ok? {
      var approved := ApproveDeviations(w, decision).value;
      AskedFromWork(w, asked);
      AmendGuards(approved, request, decision, amendment);
      ResumeGuards(approved, request, observed);
      SettledMeans(asked, decision);
    }
  }

  lemma AskedFromWork(w: WorkOrder, asked: AttentionRequest)
    requires Good(w) && asked in w.attention
    ensures asked.raisedFrom in ATTENTION_SOURCES
  {
  }

  lemma ApprovalsKnown(w: WorkOrder, decision: UserDecision)
    ensures ApproveDeviations(w, decision).Ok? <==>
              forall id :: id in decision.approvedDeviations ==> exists d :: d in w.deviations && d.id == id
    ensures ApproveDeviations(w, decision).Err? ==> ApproveDeviations(w, decision) == Err(Rejected("deviation"))
    ensures ApproveDeviations(w, decision).Ok? ==>
            var next := ApproveDeviations(w, decision).value;
            next == w.(deviations := next.deviations) && ApprovedBy(w.deviations, next.deviations, decision)
  {
  }

  /** The deviations the decision names are approved by its actor, unless they were approved before. */
  predicate ApprovedBy(before: seq<Deviation>, after: seq<Deviation>, decision: UserDecision) {
    && |after| == |before|
    && forall i :: 0 <= i < |before| ==>
         after[i] == if before[i].id in decision.approvedDeviations && before[i].approvedBy.None?
                     then before[i].(approvedBy := Some(decision.actor)) else before[i]
  }

  lemma SettledMeans(asked: AttentionRequest, decision: UserDecision)
    ensures asked.(decisions := asked.decisions + [decision]).Unblocked() <==> Settled(asked, decision)
  {
    assert forall d :: d in asked.decisions + [decision] <==> d in asked.decisions || d == decision;
  }

  lemma AmendGuards(w: WorkOrder, request: AttentionRequest, decision: UserDecision, amendment: Option<Amendment>)
    ensures Amend(w, request, decision, amendment).Ok? <==>
              && amendment.Some? && (amendment.value.ChangeAgent? <==> decision.action == ChangeAgentAction)
              && amendment.value.attentionId == request.id
              && (amendment.value.ChangeAgent? ==>
                    amendment.value.profile.projectId == w.projectId
                    && amendment.value.profile.version > w.executionProfile.version)
    ensures Amend(w, request, decision, amendment).Err? ==>
              Amend(w, request, decision, amendment).error ==
              Rejected(if amendment.None? || (amendment.value.ChangeAgent? <==> decision.action != ChangeAgentAction)
                         || amendment.value.attentionId != request.id
                       then "amendment" else "profile_version")
  {
    hide ResetCounters, ReplaceRequest;
  }

  lemma ResumeGuards(w: WorkOrder, request: AttentionRequest, observed: Option<CommitSha>)
    requires OpenRequest(w.attention).Some? && OpenRequest(w.attention).value.id == request.id && !request.closed
    requires request.raisedFrom in ATTENTION_SOURCES
    ensures ResumeDecision(w, request, observed).Ok? <==>
              request.Unblocked() && (request.raisedFrom != ContextIntake ==> observed.Some?)
    ensures ResumeDecision(w, request, observed).Err? ==>
              ResumeDecision(w, request, observed).error ==
              Rejected(if request.Unblocked() then "baseline" else "unresolved_reasons")
  {
    hide AttentionRequest.Unblocked, MergeReasons, LastByCode;
    var replaced := ReplaceRequest(w.attention, request);
    var open := OpenRequest(w.attention).value;
    var i :| 0 <= i < |w.attention| && w.attention[i] == open;
    assert replaced[i] == request && request in replaced;
    assert OpenRequest(replaced).Some?;
  }

  /** The reasons that an amendment can answer. */
  predicate Cures(amendment: Amendment, code: AttentionCode) {
    match amendment
    case ChangeAgent(_, _, _) => code == AgentUnavailable || code == IndependenceUnavailable
    case ChangeBudget(_, _, _) => code == BudgetExhausted || code == AttemptsExhausted
  }

  /** An unfinished block may be tried again as often as the new budget says. */
  predicate StartsCountingAgain(before: seq<Block>, after: seq<Block>) {
    && |after| == |before|
    && forall i :: 0 <= i < |before| ==>
         after[i] == if before[i].status == BlockDone then before[i]
                     else before[i].(failedAttempts := 0, curationAttempts := 0)
  }

  /** The decision is noted, and of the reasons asked about those that the amendment cures are resolved. */
  ghost predicate AnsweredBy(asked: AttentionRequest, answered: AttentionRequest, decision: UserDecision,
                             amendment: Amendment)
  {
    && answered == asked.(decisions := asked.decisions + [decision], resolved := answered.resolved)
    && forall code :: code in answered.resolved <==>
         code in asked.resolved || (Cures(amendment, code) && exists r :: r in asked.reasons && r.code == code)
  }

  /** The amendment takes effect, and the request stays open with the reasons it cures resolved. */
  ghost predicate Amends(w: WorkOrder, k: nat, decision: UserDecision, amendment: Amendment, next: WorkOrder)
    requires k < |w.attention|
  {
    && next.status == w.status && |next.attention| == |w.attention|
    && next.amendments == w.amendments + [amendment]
    && next.attention == w.attention[k := next.attention[k]]
    && AnsweredBy(w.attention[k], next.attention[k], decision, amendment)
    && match amendment
       case ChangeAgent(_, profile, _) =>
         next.executionProfile == profile && next.budget == w.budget && next.blocks == w.blocks
       case ChangeBudget(_, newBudget, _) =>
         next.executionProfile == w.executionProfile && next.budget == Some(newBudget)
         && StartsCountingAgain(w.blocks, next.blocks)
  }

  /** What every decision does: it approves the deviations it names, and its amendment takes effect. */
  lemma DecisionTakesEffect(w: WorkOrder, decision: UserDecision, amendment: Option<Amendment>,
                            observed: Option<CommitSha>)
    requires Good(w) && Decide(w, decision, amendment, observed).Ok?
    ensures ApprovedBy(w.deviations, Decide(w, decision, amendment, observed).value.deviations, decision)
    ensures amendment.Some? ==>
              exists k: nat :: k < |w.attention| && OnlyOpen(w.attention, k)
                && Amends(w, k, decision, amendment.value, Decide(w, decision, amendment, observed).value)
  {
    hide Good, ApproveDeviations, Amend, ResumeDecision, ApprovedBy, Amends;
    var k := OpenPosition(w);
    var request := w.attention[k].(decisions := w.attention[k].decisions + [decision]);
    ApprovalsKnown(w, decision);
    var approved := ApproveDeviations(w, decision).value;
    AmendGuards(approved, request, decision, amendment);
    if amendment.Some? {
      DistinctRequests(w);
      AmendmentTakesEffect(approved, k, decision, amendment.value);
      SameButDeviations(w, approved, k, decision, amendment.value, Decide(w, decision, amendment, observed).value);
    } else if decision.action == Resume {
      ResumeKeepsDeviations(approved, request, observed);
    }
  }

  lemma DistinctRequests(w: WorkOrder)
    requires Good(w)
    ensures DistinctAttention(w.attention)
  {
  }

  lemma SameButDeviations(w: WorkOrder, approved: WorkOrder, k: nat, decision: UserDecision, amendment: Amendment,
                          next: WorkOrder)
    requires approved == w.(deviations := approved.deviations) && k < |w.attention|
    requires Amends(approved, k, decision, amendment, next)
    ensures Amends(w, k, decision, amendment, next)
  {
    hide StartsCountingAgain, Cures;
  }

  lemma AmendmentTakesEffect(w: WorkOrder, k: nat, decision: UserDecision, amendment: Amendment)
    requires DistinctAttention(w.attention) && k < |w.attention|
    requires var request := w.attention[k].(decisions := w.attention[k].decisions + [decision]);
             Amend(w, request, decision, Some(amendment)).Ok?
    ensures var request := w.attention[k].(decisions := w.attention[k].decisions + [decision]);
            var next := Amend(w, request, decision, Some(amendment)).value;
            Amends(w, k, decision, amendment, next) && next.deviations == w.deviations
  {
    var request := w.attention[k].(decisions := w.attention[k].decisions + [decision]);
    var active := set r | r in request.reasons :: r.code;
    ReplaceIs(w.attention, k, request.(resolved := request.resolved + ResolvedBy(amendment) * active));
  }

  lemma ResumeKeepsDeviations(w: WorkOrder, request: AttentionRequest, observed: Option<CommitSha>)
    requires ResumeDecision(w, request, observed).Ok?
    ensures ResumeDecision(w, request, observed).value.deviations == w.deviations
  {
    hide AttentionRequest.Unblocked, MergeReasons, LastByCode, ReplaceRequest;
  }
}
