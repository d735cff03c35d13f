/**
 Runs on which two promises fail: a plan approval that is not one legal step, and work after a final
 audit that the validators then refuse.
 */
module ControlWitness {
  import opened Prelude
  import opened ControlModel
  import opened ControlEvolution
  import opened ControlMachine
  import opened ControlInvariant
  import opened ControlSteps
  import opened ControlIndependence
  import opened ControlJudged
  import opened ControlRuns
  import opened ControlLimits

  // --- Which gaps there are ---

  lemma {:induction false} UnmetFound(required: seq<Requirement>, role: Role, auditor: Profile,
                                      producers: set<Profile>, waived: set<Gap>, r: Requirement)
    requires r in required && !Meets(r, auditor, producers) && Gap(role, r) !in waived
    ensures UnmetGaps(required, role, auditor, producers, waived) != []
  {
    if required[0] != r {
      UnmetFound(required[1..], role, auditor, producers, waived, r);
    }
  }

  lemma {:induction false} AllMet(required: seq<Requirement>, role: Role, auditor: Profile, producers: set<Profile>,
                                  waived: set<Gap>)
    requires forall r :: r in required ==> Meets(r, auditor, producers)
    ensures UnmetGaps(required, role, auditor, producers, waived) == []
  {
    if required != [] {
      AllMet(required[1..], role, auditor, producers, waived);
    }
  }

  // --- The approval that escalates at once ---

  /** The bound code auditor is of the model family of the bound coder. */
  predicate OneFamily(p: ProjectExecutionProfile) {
    var coder, auditor := BoundPrimary(p, PrimaryCodeExecutor), BoundPrimary(p, CodeAuditor);
    coder.Some? && auditor.Some? && coder.value.Agent? && auditor.value.Agent?
      && coder.value.family == auditor.value.family
  }

  lemma FamilyGap(w: WorkOrder, plan: PlanVersion)
    requires OneFamily(w.executionProfile) && w.executionProfile.policy.Valid() && plan.riskClass != Low
             && WaivedIndependence(w.attention) == {}
    ensures PlanGaps(w, plan) != []
  {
    hide BoundPrimary, UnmetGaps, WaivedIndependence;
    var p := w.executionProfile;
    var memory := exists s :: s in plan.blocks && s.memoryImpact;
    var coder, auditor := BoundPrimary(p, PrimaryCodeExecutor).value, BoundPrimary(p, CodeAuditor).value;
    var producers := set r | r in AuditedProducers(CodeAuditor) && (r != MemoryCurator || memory)
      && BoundPrimary(p, r).Some? :: BoundPrimary(p, r).value;
    assert PrimaryCodeExecutor in AuditedProducers(CodeAuditor) && coder in producers;
    assert DifferentModelFamily in ContractIndependence(plan.riskClass);
    UnmetFound(p.policy.Required(plan.riskClass), CodeAuditor, auditor, producers, {}, DifferentModelFamily);
    assert PlanRoleGaps(w, plan.riskClass, CodeAuditor, memory) != [];
  }

  /** From every new WorkOrder of one family, approving its first plan of medium or high risk is not a legal step. */
  lemma ApprovalGapReachable(w: WorkOrder, base: CommitSha, plan: PlanVersion, approvedBy: string)
    returns (ws: seq<WorkOrder>, steps: seq<Step>)
    requires Created(w) && OneFamily(w.executionProfile)
    requires plan.Valid() && plan.version == 1 && plan.riskClass != Low
    ensures IsRun(ws, steps) && |steps| == 2 && ws[0] == w && ws[2].planVersions == [plan]
    ensures ApprovePlan(ws[2], 1, approvedBy).Ok? && !LegalSuccessor(ws[2], ApprovePlan(ws[2], 1, approvedBy).value)
  {
    hide Created, StepsTo, Good, WorkOrder.Valid, PlanVersion.Valid, PlanGaps, LegalSuccessor, ApprovePlan, OneFamily;
    NewRecord(w);
    var intake := w.(status := ContextIntake, plannedBaseline := Some(base));
    var proposed := intake.(status := PlanProposed, planVersions := [plan]);
    ws, steps := [w], [];
    assert IsRun(ws, steps);
    ws, steps := Extend(ws, steps, DoStartIntake(base), intake);
    assert intake.planVersions + [plan] == [plan];
    ws, steps := Extend(ws, steps, DoProposePlan(plan), proposed);
    ReachableGood(ws, steps, 2);
    PolicyIsValid(proposed);
    FamilyGap(proposed, plan);
    ApprovalTaken(proposed, plan, approvedBy);
    EvolutionTheorem(proposed, DoApprovePlan(1, approvedBy));
  }

  lemma PolicyIsValid(w: WorkOrder)
    requires w.Valid()
    ensures w.executionProfile.policy.Valid()
  {
  }

  lemma ApprovalTaken(w: WorkOrder, plan: PlanVersion, approvedBy: string)
    requires w.status == PlanProposed && w.planVersions == [plan] && w.approvals == [] && w.blocks == []
             && w.attention == []
    ensures ApprovePlan(w, 1, approvedBy).Ok?
  {
    hide PlanGaps, PlannedBlocks, GapEvidence;
  }

  function FamilyAuditor(): Profile {
    BETA.(family := GAMMA_CODER.family)
  }

  function FamilyProfile(projectId: Identifier): ProjectExecutionProfile {
    ProjectExecutionProfile(projectId, 1, [Bind(PrimaryCodeExecutor, GAMMA_CODER), Bind(CodeAuditor, FamilyAuditor())],
                            [GAMMA_CODER, FamilyAuditor()], CONTRACT, "user")
  }

  lemma FamilyProfileValid(projectId: Identifier)
    ensures FamilyProfile(projectId).Valid()
  {
    ContractSuffices();
    hide CONTRACT;
    var profile := FamilyProfile(projectId);
    assert profile.BindingDefined(Bind(PrimaryCodeExecutor, GAMMA_CODER));
    assert profile.BindingDefined(Bind(CodeAuditor, FamilyAuditor()));
  }

  lemma FamilyBound(projectId: Identifier)
    ensures OneFamily(FamilyProfile(projectId))
  {
    hide CONTRACT;
    var bindings := FamilyProfile(projectId).bindings;
    assert bindings[1..][0] == bindings[1];
  }

  /** Such new WorkOrders exist, for all texts. */
  lemma OneFamilyExists(id: Identifier, projectId: Identifier, objective: string, memoryPaths: seq<string>)
    returns (w: WorkOrder)
    ensures Created(w) && OneFamily(w.executionProfile) && w.objective == objective && w.memoryPaths == memoryPaths
  {
    hide OneFamily, Created, ProjectExecutionProfile.Valid;
    w := CreateWorkOrder(id, projectId, objective, memoryPaths, FamilyProfile(projectId));
    FamilyProfileValid(projectId);
    FamilyBound(projectId);
    NewIsCreated(w);
  }

  lemma NewIsCreated(w: WorkOrder)
    requires w == CreateWorkOrder(w.workOrderId, w.projectId, w.objective, w.memoryPaths, w.executionProfile)
    requires w.executionProfile.Valid() && w.executionProfile.projectId == w.projectId
    ensures Created(w)
  {
    hide ProjectExecutionProfile.Valid;
  }

  // --- Three families, and the second profile that binds the coder to the old verifier's ---

  const ALPHA := Agent("alpha-coder", 1, ReadWrite, {PrimaryCodeExecutor}, Fresh, "alpha", "first", "writes code")
  const BETA := Agent("beta-auditor", 1, ReadOnly, {CodeAuditor}, Fresh, "beta", "second", "audits code")
  const GAMMA := Agent("gamma-verifier", 1, ReadOnly, {FinalVerifier}, Fresh, "gamma", "third", "verifies")
  const GAMMA_CODER := Agent("gamma-coder", 1, ReadWrite, {PrimaryCodeExecutor}, Fresh, "gamma", "third", "writes code")
  const CONTRACT := IndependencePolicy(ContractIndependence(Low), ContractIndependence(Medium),
                                       ContractIndependence(High))

  function Bind(role: Role, profile: Profile): RoleBinding {
    RoleBinding(role, profile.Ref(), [], {})
  }

  function FirstProfile(projectId: Identifier): ProjectExecutionProfile {
    ProjectExecutionProfile(projectId, 1,
                            [Bind(PrimaryCodeExecutor, ALPHA), Bind(CodeAuditor, BETA), Bind(FinalVerifier, GAMMA)],
                            [ALPHA, BETA, GAMMA], CONTRACT, "user")
  }

  /** No final verifier is bound any more, and the new coder shares the family of the old one. */
  function SecondProfile(projectId: Identifier): ProjectExecutionProfile {
    ProjectExecutionProfile(projectId, 2, [Bind(PrimaryCodeExecutor, GAMMA_CODER), Bind(CodeAuditor, BETA)],
                            [GAMMA_CODER, BETA], CONTRACT, "user")
  }

  lemma ContractSuffices()
    ensures CONTRACT.Valid()
  {
    forall risk: RiskClass
      ensures CONTRACT.Required(risk) == ContractIndependence(risk)
    {
    }
  }

  lemma ProfilesValid(projectId: Identifier)
    ensures FirstProfile(projectId).Valid() && SecondProfile(projectId).Valid()
  {
    FirstValid(projectId);
    SecondValid(projectId);
  }

  lemma FirstValid(projectId: Identifier)
    ensures FirstProfile(projectId).Valid()
  {
    ContractSuffices();
    hide CONTRACT;
    var first := FirstProfile(projectId);
    assert first.BindingDefined(Bind(PrimaryCodeExecutor, ALPHA));
    assert first.BindingDefined(Bind(CodeAuditor, BETA));
    assert first.BindingDefined(Bind(FinalVerifier, GAMMA));
  }

  lemma SecondValid(projectId: Identifier)
    ensures SecondProfile(projectId).Valid()
  {
    ContractSuffices();
    hide CONTRACT;
    var second := SecondProfile(projectId);
    assert second.BindingDefined(Bind(PrimaryCodeExecutor, GAMMA_CODER));
    assert second.BindingDefined(Bind(CodeAuditor, BETA));
  }

  lemma FirstBound(projectId: Identifier)
    ensures var p := FirstProfile(projectId);
            && p.Binding(PrimaryCodeExecutor) == Some(Bind(PrimaryCodeExecutor, ALPHA))
            && p.Binding(CodeAuditor) == Some(Bind(CodeAuditor, BETA))
            && p.Binding(FinalVerifier) == Some(Bind(FinalVerifier, GAMMA))
            && p.Binding(MemoryAuditor).None? && p.Binding(MemoryCurator).None?
  {
    hide ALPHA, BETA, GAMMA, CONTRACT;
    var bindings := FirstProfile(projectId).bindings;
    assert bindings[1..][0] == bindings[1] && bindings[1..][1..][0] == bindings[2] && bindings[1..][1..][1..] == [];
  }

  lemma SecondBound(projectId: Identifier)
    ensures var p := SecondProfile(projectId);
            && p.Binding(PrimaryCodeExecutor) == Some(Bind(PrimaryCodeExecutor, GAMMA_CODER))
            && p.Binding(CodeAuditor) == Some(Bind(CodeAuditor, BETA))
            && p.Binding(FinalVerifier).None? && p.Binding(MemoryAuditor).None? && p.Binding(MemoryCurator).None?
  {
    var bindings := SecondProfile(projectId).bindings;
    assert bindings[1..][0] == bindings[1] && bindings[1..][1..] == [];
  }

  /** A fresh, read-only agent that shares neither family nor provider with any producer. */
  predicate Apart(auditor: Profile, producers: set<Profile>) {
    && auditor.Agent? && auditor.session == Fresh && auditor.workspace == ReadOnly
    && forall p :: p in producers && p.Agent? ==>
       p.family != auditor.family && p.inferenceProvider != auditor.inferenceProvider
  }

  lemma ApartHasNoGaps(w: WorkOrder, risk: RiskClass, role: Role, auditor: Profile, producers: set<Profile>)
    requires Apart(auditor, producers)
    ensures Gaps(w, risk, role, auditor, producers) == []
  {
    AllMet(w.executionProfile.policy.Required(risk), role, auditor, producers, WaivedIndependence(w.attention));
  }

  /** The same for an audit whose session is in evidence. */
  lemma ApartIsIndependent(w: WorkOrder, risk: RiskClass, audit: AuditRecord, producers: set<Profile>)
    requires Apart(audit.auditor.fingerprint, producers) && audit.session.Some? && audit.session.value.isFresh
    ensures RecordedGaps(w, risk, audit, producers) == []
    ensures Independent(audit, w.executionProfile.policy.Required(risk), producers, WaivedIndependence(w.attention))
  {
    NoGapsMeansIndependent(w.executionProfile.policy.Required(risk), audit, producers, WaivedIndependence(w.attention));
  }

  /** Neither profile has a gap when it is approved with a plan. */
  lemma PlanWithoutGaps(w: WorkOrder, plan: PlanVersion)
    requires w.executionProfile in {FirstProfile(w.projectId), SecondProfile(w.projectId)}
    ensures PlanGaps(w, plan) == []
  {
    FirstBound(w.projectId);
    SecondBound(w.projectId);
    hide FirstProfile, SecondProfile, Gaps, ProjectExecutionProfile.Binding;
    var coder := BoundPrimary(w.executionProfile, PrimaryCodeExecutor).value;
    forall producers | producers <= {coder}
      ensures Gaps(w, plan.riskClass, CodeAuditor, BETA, producers) == []
      ensures BoundPrimary(w.executionProfile, FinalVerifier).Some? ==>
              Gaps(w, plan.riskClass, FinalVerifier, GAMMA, producers) == []
    {
      ApartHasNoGaps(w, plan.riskClass, CodeAuditor, BETA, producers);
      if BoundPrimary(w.executionProfile, FinalVerifier).Some? {
        ApartHasNoGaps(w, plan.riskClass, FinalVerifier, GAMMA, producers);
      }
    }
  }

  /** Nor does the coder of either profile when it starts. */
  lemma CoderWithoutGaps(w: WorkOrder)
    requires w.executionProfile in {FirstProfile(w.projectId), SecondProfile(w.projectId)}
    ensures var coder := if w.executionProfile == FirstProfile(w.projectId) then ALPHA else GAMMA_CODER;
            && ProducerGaps(w, PrimaryCodeExecutor, coder) == []
            && CheckProfile(w, PrimaryCodeExecutor, coder.Ref(), None, None) == Holds
  {
    FirstBound(w.projectId);
    SecondBound(w.projectId);
    hide FirstProfile, SecondProfile, Gaps, ProjectExecutionProfile.Binding;
    var coder := if w.executionProfile == FirstProfile(w.projectId) then ALPHA else GAMMA_CODER;
    ApartHasNoGaps(w, ApprovedRisk(w), CodeAuditor, BETA, {coder});
    if BoundPrimary(w.executionProfile, FinalVerifier).Some? {
      ApartHasNoGaps(w, ApprovedRisk(w), FinalVerifier, GAMMA, {coder});
    }
  }

  // --- The run ---

  /** Everything the caller of the run hands over; all texts, commits and evidence are arbitrary. */
  datatype Scene = Scene(order: WorkOrder, base: CommitSha, candidate: Candidate, first: BlockSpec, second: BlockSpec,
                         plan: PlanVersion,
                         replan: PlanVersion, user: string, tests: TestRecord, codeAudit: AuditRecord,
                           changes: ChangeRecord,
                         proof: CheckpointProof, finalAudit: AuditRecord, refusal: KernelOutcome,
                           amending: UserDecision,
                         replanning: UserDecision)
  {
    ghost predicate Fits() {
      && Created(order) && order.executionProfile == FirstProfile(order.projectId)
      && candidate.baseCommit == base
      && !first.memoryImpact && first.blockId != second.blockId
      && plan.Valid() && plan.version == 1 && plan.blocks == [first] && plan.riskClass == Medium
      && replan.Valid() && replan.version == 2 && replan.blocks == [first, second] && replan.riskClass == Medium
      && Audits(codeAudit, CodeAuditor, BETA) && codeAudit.Authoritative()
      && tests.passed && tests.state == codeAudit.auditedState
      && changes.allowed == first.scope && !changes.Outside() && changes.approvedDeviation.None?
      && proof.Proves(codeAudit.auditedState)
      && Audits(finalAudit, FinalVerifier, GAMMA)
      && !refusal.IsPromoted()
      && amending.action == ChangeAgentAction && amending.waived == {} && amending.approvedDeviations == {}
      && replanning.action == Replan && replanning.waived == {} && replanning.approvedDeviations == {}
    }
  }

  /** An audit by this auditor whose fresh session is in evidence. */
  predicate Audits(audit: AuditRecord, role: Role, auditor: Profile) {
    audit.role == role && audit.auditor == auditor.Ref() && audit.session.Some? && audit.session.value.isFresh
  }

  /** There is such a scene for all texts, commits and evidence. */
  lemma SceneExists(id: Identifier, projectId: Identifier, objective: string, memoryPaths: seq<string>, goal: string,
                    scope: seq<string>,
                    base: CommitSha, state: StateIdentity, user: string, e: EvidenceRef) returns (s: Scene)
    ensures s.Fits() && s.order.objective == objective && s.order.memoryPaths == memoryPaths
    ensures s.first.goal == goal == s.second.goal && s.first.scope == scope == s.second.scope && s.base == base
  {
    var order := CreateWorkOrder(id, projectId, objective, memoryPaths, FirstProfile(projectId));
    var first, second := BlockSpec("first", 1, goal, scope, false), BlockSpec("second", 2, goal, scope, false);
    var session := Some(SessionEvidence("session", true, e));
    s := Scene(order, base, Candidate("workspace", "candidate", base), first, second,
               PlanVersion(1, [first], Medium, Budget(1, user), user),
               PlanVersion(2, [first, second], Medium, Budget(1, user), user), user, TestRecord(true, state, e),
               AuditRecord(CodeAuditor, BETA.Ref(), Verified, "report_complete", NotNeeded, state, e, session),
               ChangeRecord([], scope, e, None), CheckpointProof(state.headCommit, None, state.content, e),
               AuditRecord(FinalVerifier, GAMMA.Ref(), Verified, "report_complete", NotNeeded, state, e, session),
               KernelOutcome(false, None, None, user, e), UserDecision(ChangeAgentAction, user, "", {}, {}),
               UserDecision(Replan, user, "", {}, {}));
    FirstValid(projectId);
    hide FirstProfile, ALPHA, BETA, GAMMA, ProjectExecutionProfile.Valid;
    NewIsCreated(order);
  }

  lemma PlannedTaken(w: WorkOrder, plan: PlanVersion, user: string)
    requires w.status == PlanProposed && |w.planVersions| >= 1 && w.planVersions[|w.planVersions| - 1] == plan
    requires w.approvals == [] || w.approvals[|w.approvals| - 1].planVersion < |w.planVersions|
    requires w.executionProfile in {FirstProfile(w.projectId), SecondProfile(w.projectId)}
             && DoneBlocksIn(w.blocks, plan.blocks)
    ensures ApprovePlan(w, |w.planVersions|, user) ==
              Ok(w.(status := PlanApproved,
                    approvals := w.approvals + [PlanApproval(|w.planVersions|, w.executionProfile.version, user)],
                    budget := if w.budget.Some? then w.budget else Some(plan.budget),
                    blocks := PlannedBlocks(w.blocks, plan.blocks),
                    supersededBlocks := w.supersededBlocks + Superseded(w.blocks)))
  {
    hide PlanGaps, PlannedBlocks, Superseded, FirstProfile, SecondProfile, IndependenceAttention;
    PlanWithoutGaps(ApprovePlanOnly(w, |w.planVersions|, user).value, plan);
  }

  /** A pending block starts with the bound coder. */
  lemma CoderStarts(w: WorkOrder, i: nat, coder: Profile)
    requires w.executionProfile in {FirstProfile(w.projectId), SecondProfile(w.projectId)}
    requires coder == if w.executionProfile == FirstProfile(w.projectId) then ALPHA else GAMMA_CODER
    requires w.status == Executing && i < |w.blocks| && w.blocks[i].status == Pending
             && FindBlock(w.blocks, w.blocks[i].spec.blockId) == Some(w.blocks[i])
    requires forall b :: b in w.blocks && b.spec.order < w.blocks[i].spec.order ==> b.IsDone()
    requires AttemptsLeft(w.budget, w.blocks[i].failedAttempts)
    ensures var b := w.blocks[i];
            var attempt := AttemptRecord(PrimaryCodeExecutor, coder.Ref(), None, None);
            BeginAttempt(w, b.spec.blockId, coder.Ref(), None, None) ==
              Ok(w.(usedProfiles := WithProfile(w.usedProfiles, coder),
                    blocks := UpdateBlock(w.blocks,
                                          b.(status := Running, attempts := b.attempts + [attempt], tests := None,
                                             codeAudit := None,
                                                       codeChanges := None))))
    ensures Runs(w, w.blocks[i].spec.blockId, PrimaryCodeExecutor, coder)
  {
    hide ProducerGaps, CheckProfile, FirstProfile, SecondProfile, UpdateBlock, WithProfile, FindBlock, ALPHA,
      GAMMA_CODER;
    CoderWithoutGaps(w);
  }

  /** The first plan in execution: one pending block. */
  function Working(s: Scene): WorkOrder {
    s.order.(status := Executing, plannedBaseline := Some(s.base), planVersions := [s.plan],
             approvals := [PlanApproval(1, 1, s.user)],
             budget := Some(s.plan.budget), blocks := [NewBlock(s.first)], candidate := Some(s.candidate))
  }

  lemma RunToWork(s: Scene) returns (ws: seq<WorkOrder>, steps: seq<Step>)
    requires s.Fits()
    ensures IsRun(ws, steps) && ws[0] == s.order && |steps| == 5 && ws[5] == Working(s)
  {
    hide Created, StepsTo, Good, WorkOrder.Valid, PlanVersion.Valid, ApprovePlan, FirstProfile, SecondProfile, Audits;
    NewRecord(s.order);
    var w := s.order;
    ws, steps := [w], [];
    assert IsRun(ws, steps);
    var intake := w.(status := ContextIntake, plannedBaseline := Some(s.base));
    ws, steps := Extend(ws, steps, DoStartIntake(s.base), intake);
    var proposed := intake.(status := PlanProposed, planVersions := [s.plan]);
    assert intake.planVersions + [s.plan] == [s.plan];
    ws, steps := Extend(ws, steps, DoProposePlan(s.plan), proposed);
    var approved := proposed.(status := PlanApproved, approvals := [PlanApproval(1, 1, s.user)],
                              budget := Some(s.plan.budget),
                              blocks := [NewBlock(s.first)]);
    FirstApproval(proposed, s.plan, s.user);
    ws, steps := Extend(ws, steps, DoApprovePlan(1, s.user), approved);
    var attached := approved.(candidate := Some(s.candidate));
    ws, steps := Extend(ws, steps, DoAttachCandidate(s.candidate, s.base), attached);
    ws, steps := Extend(ws, steps, DoStartExecution(s.base), Working(s));
  }

  lemma FirstApproval(w: WorkOrder, plan: PlanVersion, user: string)
    requires w.status == PlanProposed && w.planVersions == [plan] && w.approvals == [] && w.budget.None?
             && w.blocks == [] && w.supersededBlocks == []
    requires w.executionProfile == FirstProfile(w.projectId) && |plan.blocks| == 1
    ensures ApprovePlan(w, 1, user) ==
              Ok(w.(status := PlanApproved, approvals := [PlanApproval(1, 1, user)], budget := Some(plan.budget),
                    blocks := [NewBlock(plan.blocks[0])]))
  {
    hide ApprovePlan;
    PlannedTaken(w, plan, user);
    assert PlannedBlocks([], plan.blocks) == [NewBlock(plan.blocks[0])];
    assert w.approvals + [PlanApproval(1, 1, user)] == [PlanApproval(1, 1, user)];
    assert w.supersededBlocks + Superseded(w.blocks) == [];
  }

  /** The first block at the stages of its one attempt. */
  function Attempted(s: Scene): Block {
    NewBlock(s.first).(status := Running, attempts := [AttemptRecord(PrimaryCodeExecutor, ALPHA.Ref(), None, None)])
  }

  function Approved(s: Scene): Block {
    Attempted(s).(status := CodeApproved, tests := Some(s.tests), codeAudit := Some(s.codeAudit),
                  codeChanges := Some(s.changes),
                  riskClass := Some(Medium))
  }

  function Finished(s: Scene): Block {
    Approved(s).(status := BlockDone, checkpoint := Some(s.proof))
  }

  /** The record while its one block is b. */
  function With(s: Scene, b: Block, used: seq<Profile>): WorkOrder {
    Working(s).(blocks := [b], usedProfiles := used)
  }

  lemma OneBlock(b: Block, c: Block)
    requires b.spec.blockId == c.spec.blockId
    ensures UpdateBlock([b], c) == [c] && FindBlock([b], b.spec.blockId) == Some(b)
  {
  }

  lemma ThreeFamilies()
    ensures Apart(BETA, {ALPHA}) && Apart(GAMMA, {ALPHA})
    ensures ALPHA.Ref().fingerprint == ALPHA && BETA.Ref().fingerprint == BETA && GAMMA.Ref().fingerprint == GAMMA
  {
  }

  /** The audit of the one attempt's code is accepted as it was given. */
  lemma CodeIsApproved(s: Scene, used: seq<Profile>)
    requires s.Fits()
    ensures ApproveCode(With(s, Tested(s), used), s.first.blockId, s.codeAudit, s.changes, s.codeAudit.auditedState)
            == Ok(With(s, Approved(s), WithProfile(used, BETA)))
  {
    hide Created, PlanVersion.Valid, FirstProfile, UpdateBlock, RaiseAttention, RecordedGaps, WithProfile,
      ChangeRecord.Outside, FindBlock, ALPHA,
      BETA, GAMMA, Profile.Ref, Apart, Independent, ProducersOf, CheckProfile, CheckpointProof.Proves;
    var tested, w := Tested(s), With(s, Tested(s), used);
    ThreeFamilies();
    AuditorBound(s, w, s.codeAudit);
    OneBlock(tested, Approved(s));
    ApartIsIndependent(w, Medium, s.codeAudit, {ALPHA});
    OneProducer(tested);
  }

  lemma OneProducer(b: Block)
    requires |b.attempts| == 1 && b.attempts[0].role == PrimaryCodeExecutor
    ensures ProducersOf(b.attempts, {PrimaryCodeExecutor}) == {b.attempts[0].profile.fingerprint}
    ensures Writers([b]) == {b.attempts[0].profile.fingerprint}
  {
    assert b.attempts[0] in b.attempts && b in [b];
  }

  lemma AuditorBound(s: Scene, w: WorkOrder, audit: AuditRecord)
    requires s.Fits() && w.executionProfile == FirstProfile(w.projectId) && audit in {s.codeAudit, s.finalAudit}
    ensures CheckProfile(w, audit.role, audit.auditor, None, None) == Holds
    ensures audit.auditor.fingerprint == if audit.role == CodeAuditor then BETA else GAMMA
  {
    hide FirstProfile, Created, PlanVersion.Valid, ProjectExecutionProfile.Binding;
    FirstBound(w.projectId);
  }

  function Tested(s: Scene): Block {
    Attempted(s).(status := BlockResult, tests := Some(s.tests))
  }

  /** A step of the one block, before anything was finally audited. */
  lemma ExtendBlock(s: Scene, ws: seq<WorkOrder>, steps: seq<Step>, b: Block, used: seq<Profile>, move: BlockMove,
                    c: Block, more: seq<Profile>)
    returns (ws': seq<WorkOrder>, steps': seq<Step>)
    requires s.Fits() && IsRun(ws, steps) && ws[|ws| - 1] == With(s, b, used)
    requires Move(With(s, b, used), s.first.blockId, move) == Ok(With(s, c, more))
    ensures IsRun(ws', steps') && |steps'| == |steps| + 1 && ws'[0] == ws[0] && ws'[|ws'| - 1] == With(s, c, more)
  {
    hide Created, StepsTo, Move, Runs, Scene.Fits;
    SceneIs(s);
    NewRecord(s.order);
    ws', steps' := Extend(ws, steps, DoBlock(s.first.blockId, move), With(s, c, more));
  }

  lemma AttemptTaken(s: Scene)
    requires s.Fits()
    ensures Move(Working(s), s.first.blockId, Begin(ALPHA.Ref(), None, None)) == Ok(With(s, Attempted(s), [ALPHA]))
  {
    hide Created, FirstProfile, SecondProfile, ALPHA, GAMMA_CODER, BeginAttempt, Scene.Fits, UpdateBlock, FindBlock;
    SceneIs(s);
    NewRecord(s.order);
    NewlyUsed();
    OneBlock(NewBlock(s.first), Attempted(s));
    CoderStarts(Working(s), 0, ALPHA);
    assert [] + [AttemptRecord(PrimaryCodeExecutor, ALPHA.Ref(), None, None)] ==
      [AttemptRecord(PrimaryCodeExecutor, ALPHA.Ref(), None, None)];
  }

  lemma RunTaken(s: Scene, used: seq<Profile>)
    ensures var ran := Attempted(s).(status := Testing);
            && Move(With(s, Attempted(s), used), s.first.blockId, Finish) == Ok(With(s, ran, used))
            && Move(With(s, ran, used), s.first.blockId, Tests(s.tests)) == Ok(With(s, Tested(s), used))
  {
    hide UpdateBlock, FindBlock, ALPHA;
    var ran := Attempted(s).(status := Testing);
    OneBlock(Attempted(s), ran);
    OneBlock(ran, Tested(s));
  }

  lemma CheckpointTaken(s: Scene, used: seq<Profile>)
    requires s.Fits()
    ensures var checked := Approved(s).(status := BlockCheckpoint);
            && Move(With(s, Approved(s), used), s.first.blockId, EnterCheckpoint(s.codeAudit.auditedState)) ==
               Ok(With(s, checked, used))
            && Move(With(s, checked, used), s.first.blockId, ProveCheckpoint(s.proof)) == Ok(With(s, Finished(s), used))
  {
    hide UpdateBlock, FindBlock, ALPHA, Scene.Fits, Created, FirstProfile, CheckpointProof.Proves;
    SceneIs(s);
    var checked := Approved(s).(status := BlockCheckpoint);
    OneBlock(Approved(s), checked);
    OneBlock(checked, Finished(s));
  }

  /** The six steps that finish the one block. */
  lemma RunToFinished(s: Scene) returns (ws: seq<WorkOrder>, steps: seq<Step>)
    requires s.Fits()
    ensures IsRun(ws, steps) && ws[0] == s.order && |steps| == 11 && ws[11] == With(s, Finished(s), [ALPHA, BETA])
  {
    hide IsRun, Move, With, Attempted, Approved, Finished, Tested, ALPHA, BETA, Scene.Fits;
    ws, steps := RunToWork(s);
    WorkingIs(s);
    RunLength(ws, steps);
    var state, running := s.codeAudit.auditedState, [ALPHA];
    AttemptTaken(s);
    ws, steps := ExtendBlock(s, ws, steps, NewBlock(s.first), [], Begin(ALPHA.Ref(), None, None), Attempted(s),
                             running);
    RunTaken(s, running);
    ws, steps := ExtendBlock(s, ws, steps, Attempted(s), running, Finish, Attempted(s).(status := Testing), running);
    ws, steps := ExtendBlock(s, ws, steps, Attempted(s).(status := Testing), running, Tests(s.tests), Tested(s),
                             running);
    ApprovalOfCode(s);
    ws, steps := ExtendBlock(s, ws, steps, Tested(s), running, Approve(s.codeAudit, s.changes, state), Approved(s),
                             [ALPHA, BETA]);
    CheckpointTaken(s, [ALPHA, BETA]);
    var checked := Approved(s).(status := BlockCheckpoint);
    ws, steps := ExtendBlock(s, ws, steps, Approved(s), [ALPHA, BETA], EnterCheckpoint(state), checked, [ALPHA, BETA]);
    ws, steps := ExtendBlock(s, ws, steps, checked, [ALPHA, BETA], ProveCheckpoint(s.proof), Finished(s),
                             [ALPHA, BETA]);
    RunLength(ws, steps);
  }

  lemma WorkingIs(s: Scene)
    requires s.Fits()
    ensures Working(s) == With(s, NewBlock(s.first), [])
  {
    hide Scene.Fits, Created;
    SceneIs(s);
    NewRecord(s.order);
  }

  lemma ApprovalOfCode(s: Scene)
    requires s.Fits()
    ensures Move(With(s, Tested(s), [ALPHA]), s.first.blockId,
                 Approve(s.codeAudit, s.changes, s.codeAudit.auditedState))
            == Ok(With(s, Approved(s), [ALPHA, BETA]))
  {
    hide With, Scene.Fits, ApproveCode, ALPHA, BETA;
    NewlyUsed();
    CodeIsApproved(s, [ALPHA]);
  }

  lemma SceneIs(s: Scene)
    requires s.Fits()
    ensures s.order.executionProfile == FirstProfile(s.order.projectId) && Created(s.order) && !s.first.memoryImpact
    ensures s.proof.Proves(s.codeAudit.auditedState) && s.plan.budget.maxAttemptsPerBlock >= 1
    ensures s.replan.Valid() && s.replan.version == 2 && s.replan.blocks == [s.first, s.second]
            && s.replan.riskClass == Medium
    ensures s.first.blockId != s.second.blockId && s.plan.version == 1 && s.plan.riskClass == Medium
  {
    hide Created, FirstProfile;
  }

  lemma NewlyUsed()
    ensures WithProfile([], ALPHA) == [ALPHA] && WithProfile([ALPHA], BETA) == [ALPHA, BETA]
            && WithProfile([ALPHA, BETA], GAMMA) == [ALPHA, BETA, GAMMA]
  {
  }

  /** The request that a refused promotion opens. */
  function Refused(s: Scene): AttentionRequest {
    AttentionRequest(AutoAttention(1), FinalVerification,
                     [AttentionReason(PromotionRefused, Blocking, s.refusal.reason, [s.refusal.evidence], [])], {}, [],
                       false)
  }

  /** The finished, finally audited record after its promotion was refused. */
  function Audited(s: Scene): WorkOrder {
    With(s, Finished(s), [ALPHA, BETA, GAMMA]).(status := UserAttentionRequired, finalAudit := Some(s.finalAudit),
                                                outcome := Some(s.refusal),
                                               attention := [Refused(s)], evidence := [s.refusal.evidence])
  }

  /** The record in final verification, before and after its audit. */
  function Verifying(s: Scene): WorkOrder {
    With(s, Finished(s), [ALPHA, BETA]).(status := FinalVerification)
  }

  function Judged(s: Scene): WorkOrder {
    Verifying(s).(finalAudit := Some(s.finalAudit), usedProfiles := [ALPHA, BETA, GAMMA])
  }

  lemma VerificationTaken(s: Scene)
    requires s.Fits()
    ensures EnterFinalVerification(With(s, Finished(s), [ALPHA, BETA]), s.base) == Ok(Verifying(s))
    ensures RecordFinalAudit(Verifying(s), s.finalAudit) == Ok(Judged(s))
  {
    hide Created, FirstProfile, ALPHA, BETA, GAMMA, RecordFinalAudit, Scene.Fits;
    SceneIs(s);
    NewRecord(s.order);
    NewlyUsed();
    FinalAuditTaken(s, Verifying(s));
  }

  lemma RefusalRecorded(s: Scene)
    requires s.Fits()
    ensures RecordKernelOutcome(Judged(s), s.refusal) == Ok(Audited(s))
  {
    hide Created, RecordKernelOutcome, Scene.Fits, Finished, ALPHA, BETA, GAMMA, KernelOutcome.IsPromoted;
    SceneIs(s);
    NewRecord(s.order);
    NotPromoted(s);
    RefusalTaken(Judged(s), s.refusal);
    assert Judged(s).evidence + [s.refusal.evidence] == [s.refusal.evidence];
  }

  lemma RunToAudited(s: Scene) returns (ws: seq<WorkOrder>, steps: seq<Step>)
    requires s.Fits()
    ensures IsRun(ws, steps) && ws[0] == s.order && |steps| == 14 && ws[14] == Audited(s)
  {
    hide IsRun, With, Verifying, Judged, Audited, Finished, ALPHA, BETA, Scene.Fits, EnterFinalVerification,
      RecordFinalAudit, RecordKernelOutcome;
    ws, steps := RunToFinished(s);
    RunLength(ws, steps);
    VerificationTaken(s);
    ws, steps := Extend(ws, steps, DoEnterFinalVerification(s.base), Verifying(s));
    ws, steps := Extend(ws, steps, DoRecordFinalAudit(s.finalAudit), Judged(s));
    RefusalRecorded(s);
    ws, steps := Extend(ws, steps, DoRecordKernelOutcome(s.refusal), Audited(s));
    RunLength(ws, steps);
  }

  lemma NotPromoted(s: Scene)
    requires s.Fits()
    ensures !s.refusal.IsPromoted()
  {
  }

  lemma FinalAuditTaken(s: Scene, w: WorkOrder)
    requires s.Fits() && w.status == FinalVerification && w.executionProfile == FirstProfile(w.projectId)
             && w.blocks == [Finished(s)]
    requires w.supersededBlocks == []
    ensures RecordFinalAudit(w, s.finalAudit) ==
            Ok(w.(usedProfiles := WithProfile(w.usedProfiles, GAMMA), finalAudit := Some(s.finalAudit)))
  {
    hide Created, PlanVersion.Valid, FirstProfile, RaiseAttention, RecordedGaps, WithProfile, ALPHA, BETA, GAMMA,
      Profile.Ref, Apart, Writers,
      CheckProfile, Independent;
    ThreeFamilies();
    AuditorBound(s, w, s.finalAudit);
    OneProducer(Finished(s));
    assert w.blocks + w.supersededBlocks == [Finished(s)];
    ApartIsIndependent(w, ApprovedRisk(w), s.finalAudit, {ALPHA});
  }

  lemma RefusalTaken(w: WorkOrder, refusal: KernelOutcome)
    requires w.status == FinalVerification && w.attention == [] && !refusal.IsPromoted()
    ensures RecordKernelOutcome(w, refusal) ==
              Ok(w.(status := UserAttentionRequired, outcome := Some(refusal),
                    evidence := w.evidence + [refusal.evidence],
                    attention := [AttentionRequest(AutoAttention(1), FinalVerification,
                                                   [AttentionReason(PromotionRefused, Blocking, refusal.reason,
                                                                    [refusal.evidence], [])], {}, [], false)]))
  {
    hide KernelOutcome.IsPromoted, RaiseAttention;
    var reason := AttentionReason(PromotionRefused, Blocking, refusal.reason, [refusal.evidence], []);
    RaisedFirst(w, reason);
  }

  // --- The last part: another coder, another plan ---

  function Amending(s: Scene): Amendment {
    ChangeAgent(AutoAttention(1), SecondProfile(s.order.projectId), s.user)
  }

  function Rebound(s: Scene): WorkOrder {
    Audited(s).(amendments := [Amending(s)], executionProfile := SecondProfile(s.order.projectId),
                attention := [Refused(s).(decisions := [s.amending])])
  }

  function Planning(s: Scene): WorkOrder {
    Rebound(s).(status := PlanProposed,
                attention := [Refused(s).(decisions := [s.amending, s.replanning], closed := true)])
  }

  function Proposed(s: Scene): WorkOrder {
    Planning(s).(planVersions := [s.plan, s.replan])
  }

  function Reapproved(s: Scene): WorkOrder {
    Proposed(s).(status := PlanApproved, approvals := [PlanApproval(1, 1, s.user), PlanApproval(2, 2, s.user)],
                 blocks := [Finished(s), NewBlock(s.second)])
  }

  function Resumed(s: Scene): WorkOrder {
    Reapproved(s).(status := Executing)
  }

  /** The only request of a WorkOrder is answered by another agent, or by another plan. */
  lemma AgentChanged(w: WorkOrder, request: AttentionRequest, decision: UserDecision, amendment: Amendment)
    requires w.status == UserAttentionRequired && w.attention == [request] && !request.closed && request.resolved == {}
    requires |request.reasons| == 1 && request.reasons[0].code == PromotionRefused
    requires decision.action == ChangeAgentAction && decision.waived == {} && decision.approvedDeviations == {}
    requires amendment.ChangeAgent? && amendment.attentionId == request.id && amendment.profile.projectId == w.projectId
    requires amendment.profile.version > w.executionProfile.version
    ensures Decide(w, decision, Some(amendment), None) ==
              Ok(w.(amendments := w.amendments + [amendment], executionProfile := amendment.profile,
                    attention := [request.(decisions := request.decisions + [decision])]))
  {
    var noted := request.(decisions := request.decisions + [decision]);
    var active := set r | r in noted.reasons :: r.code;
    assert forall r :: r in noted.reasons ==> r.code == PromotionRefused;
    assert noted.resolved + ResolvedBy(amendment) * active == {};
    assert ReplaceRequest([request], noted) == [noted];
  }

  lemma ReplanChosen(w: WorkOrder, request: AttentionRequest, decision: UserDecision)
    requires w.status == UserAttentionRequired && w.attention == [request] && !request.closed
    requires decision.action == Replan && decision.waived == {} && decision.approvedDeviations == {}
    ensures Decide(w, decision, None, None) ==
              Ok(w.(status := PlanProposed,
                    attention := [request.(decisions := request.decisions + [decision], closed := true)]))
  {
    var closed := request.(decisions := request.decisions + [decision], closed := true);
    assert ReplaceRequest([request], closed) == [closed];
  }

  /** The same requirements add none. */
  lemma SamePolicyAddsNothing(w: WorkOrder, policy: IndependencePolicy)
    requires policy == w.executionProfile.policy
    ensures AddedRequirementsMet(w, policy)
  {
    hide IndependencePolicy.Required, MeetsRecorded, Writers, WaivedIndependence, ProducersOf;
  }

  lemma AmendmentTaken(s: Scene)
    requires s.Fits()
    ensures Decide(Audited(s), s.amending, Some(Amending(s)), None) == Ok(Rebound(s))
    ensures Unspoiled(Audited(s), DoDecide(s.amending, Some(Amending(s)), None))
  {
    hide Scene.Fits, Created, Finished, ALPHA, BETA, GAMMA, GAMMA_CODER, AddedRequirementsMet, Decide;
    SceneIs(s);
    AnswersAre(s);
    NewRecord(s.order);
    AgentChanged(Audited(s), Refused(s), s.amending, Amending(s));
    SamePolicyAddsNothing(Audited(s), SecondProfile(s.order.projectId).policy);
    assert Audited(s).amendments + [Amending(s)] == [Amending(s)];
    assert [] + [s.amending] == [s.amending];
  }

  lemma AnswersAre(s: Scene)
    requires s.Fits()
    ensures s.amending.action == ChangeAgentAction && s.amending.waived == {} && s.amending.approvedDeviations == {}
    ensures s.replanning.action == Replan && s.replanning.waived == {} && s.replanning.approvedDeviations == {}
  {
  }

  lemma ReplanTaken(s: Scene)
    requires s.Fits()
    ensures Decide(Rebound(s), s.replanning, None, None) == Ok(Planning(s))
    ensures ProposePlan(Planning(s), s.replan) == Ok(Proposed(s))
  {
    hide Scene.Fits, Created, Finished, ALPHA, BETA, GAMMA, SecondProfile, Decide;
    SceneIs(s);
    AnswersAre(s);
    ReplanChosen(Rebound(s), Refused(s).(decisions := [s.amending]), s.replanning);
    assert [s.amending] + [s.replanning] == [s.amending, s.replanning];
    assert [s.plan] + [s.replan] == [s.plan, s.replan];
  }

  lemma ReapprovalTaken(s: Scene)
    requires s.Fits()
    ensures ApprovePlan(Proposed(s), 2, s.user) == Ok(Reapproved(s))
  {
    hide Created, ALPHA, BETA, GAMMA, GAMMA_CODER, ApprovePlan, Scene.Fits, FirstProfile, Superseded, PlannedBlocks,
      DoneBlocksIn, Finished, Refused;
    SceneIs(s);
    NewRecord(s.order);
    ReplannedBlocks(s);
    assert Proposed(s).supersededBlocks + Superseded([Finished(s)]) == [];
    assert [PlanApproval(1, 1, s.user)] + [PlanApproval(2, 2, s.user)]
        == [PlanApproval(1, 1, s.user), PlanApproval(2, 2, s.user)];
    PlannedTaken(Proposed(s), s.replan, s.user);
  }

  lemma RestartTaken(s: Scene)
    requires s.Fits()
    ensures StartExecution(Reapproved(s), s.base) == Ok(Resumed(s))
  {
    hide Created, ALPHA, BETA, GAMMA, GAMMA_CODER, Finished, Refused, FirstProfile, SecondProfile;
  }

  lemma ReplannedBlocks(s: Scene)
    requires s.Fits()
    ensures PlannedBlocks([Finished(s)], s.replan.blocks) == [Finished(s), NewBlock(s.second)]
    ensures Superseded([Finished(s)]) == [] && DoneBlocksIn([Finished(s)], s.replan.blocks)
  {
    hide Created, ALPHA, Scene.Fits, FirstProfile;
    SceneIs(s);
    var done := Finished(s);
    assert [done][..0] == [];
    assert PlannedBlock([done], s.first) == done && PlannedBlock([done], s.second) == NewBlock(s.second);
  }

  /** The recorded final audit still fits when the second plan is approved, but not when its coder starts. */
  lemma AuditStillFits(s: Scene)
    requires s.Fits()
    ensures Unspoiled(Proposed(s), DoApprovePlan(2, s.user))
  {
    hide Created, FirstProfile, ALPHA, BETA, GAMMA, Profile.Ref, Apart, Writers, Independent, Scene.Fits;
    SceneIs(s);
    NewRecord(s.order);
    ThreeFamilies();
    OneProducer(Finished(s));
    FinalAuditIs(s);
    assert Proposed(s).blocks + Proposed(s).supersededBlocks == [Finished(s)];
    ApartIsIndependent(Proposed(s), Medium, s.finalAudit, {ALPHA});
  }

  lemma FinalAuditIs(s: Scene)
    requires s.Fits()
    ensures s.finalAudit.role == FinalVerifier && s.finalAudit.auditor.fingerprint == GAMMA
    ensures s.finalAudit.session.Some? && s.finalAudit.session.value.isFresh
  {
  }

  const STARTING := Begin(GAMMA_CODER.Ref(), None, None)

  lemma StartTaken(s: Scene)
    requires s.Fits()
    ensures Take(Resumed(s), DoBlock(s.second.blockId, STARTING)).Ok?
    ensures Runs(Resumed(s), s.second.blockId, PrimaryCodeExecutor, GAMMA_CODER)
  {
    hide Created, ALPHA, BETA, GAMMA, GAMMA_CODER, BeginAttempt, Scene.Fits, Finished, Runs, FirstProfile,
      SecondProfile, UpdateBlock, FindBlock;
    SceneIs(s);
    NewRecord(s.order);
    LayOut(s);
    TwoProfiles(s.order.projectId);
    CoderStarts(Resumed(s), 1, GAMMA_CODER);
  }

  lemma TwoProfiles(projectId: Identifier)
    ensures FirstProfile(projectId) != SecondProfile(projectId)
    ensures SecondProfile(projectId).policy == CONTRACT
  {
  }

  lemma StartSpoils(s: Scene)
    requires s.Fits()
    ensures !Unspoiled(Resumed(s), DoBlock(s.second.blockId, STARTING))
  {
    hide Created, ALPHA, BETA, GAMMA, Scene.Fits, Finished, Runs, FirstProfile, SecondProfile, Independent, CONTRACT,
      WaivedIndependence;
    SceneIs(s);
    FinalAuditIs(s);
    StartTaken(s);
    TwoProfiles(s.order.projectId);
    NothingWaived(s);
    FamilyShared(s.finalAudit, WaivedIndependence(Resumed(s).attention));
  }

  lemma LayOut(s: Scene)
    requires s.Fits()
    ensures var blocks := [Finished(s), NewBlock(s.second)];
            && FindBlock(blocks, s.second.blockId) == Some(NewBlock(s.second))
            && Finished(s).IsDone() && s.second.order == 2 && s.first.order == 1
  {
    hide Created, FirstProfile, ALPHA;
    assert s.replan.blocks[0].order == 1 && s.replan.blocks[1].order == 2;
    assert [Finished(s), NewBlock(s.second)][1..] == [NewBlock(s.second)];
  }

  lemma NothingWaived(s: Scene)
    requires s.Fits()
    ensures WaivedIndependence(Resumed(s).attention) == {}
  {
    AnswersAre(s);
  }

  lemma FamilyShared(audit: AuditRecord, waived: set<Gap>)
    requires audit.auditor.fingerprint == GAMMA && audit.role == FinalVerifier && waived == {}
    ensures !Independent(audit, CONTRACT.Required(Medium), {GAMMA_CODER}, waived)
  {
    assert DifferentModelFamily in CONTRACT.Required(Medium);
    assert !MeetsRecorded(DifferentModelFamily, audit, GAMMA, {GAMMA_CODER});
  }

  /**
   Work after a final audit. In every such scene nineteen accepted steps lead to a record on which the
   next attempt passes every guard of its transition and then fails a validator.
   */
  lemma SpoiledAuditReachable(s: Scene) returns (ws: seq<WorkOrder>, steps: seq<Step>)
    requires s.Fits()
    ensures IsRun(ws, steps) && |steps| == 19 && ws[0] == s.order
    ensures var step := DoBlock(s.second.blockId, STARTING);
            Take(ws[19], step).Ok? && Apply(ws[19], step) == Err(Unhandled("ValidationError"))
  {
    hide IsRun, Good, WorkOrder.Valid, Scene.Fits, Audited, Rebound, Planning, Proposed, Reapproved, Resumed, Amending,
      STARTING, Unspoiled, Take;
    ws, steps := RunToAudited(s);
    RunLength(ws, steps);
    var secondProfile := SecondProfile(s.order.projectId);
    ProfilesValid(s.order.projectId);
    SceneIs(s);
    StepsTaken(s);
    ws, steps := Extend(ws, steps, DoDecide(s.amending, Some(Amending(s)), None), Rebound(s));
    ws, steps := Extend(ws, steps, DoDecide(s.replanning, None, None), Planning(s));
    ws, steps := Extend(ws, steps, DoProposePlan(s.replan), Proposed(s));
    ws, steps := Extend(ws, steps, DoApprovePlan(2, s.user), Reapproved(s));
    ws, steps := Extend(ws, steps, DoStartExecution(s.base), Resumed(s));
    RunLength(ws, steps);
    ReachableGood(ws, steps, 19);
    GuardsImplyValidators(Resumed(s), DoBlock(s.second.blockId, STARTING));
  }

  lemma StepsTaken(s: Scene)
    requires s.Fits()
    ensures Extends(Audited(s), DoDecide(s.amending, Some(Amending(s)), None), Rebound(s))
    ensures Extends(Rebound(s), DoDecide(s.replanning, None, None), Planning(s))
    ensures Extends(Planning(s), DoProposePlan(s.replan), Proposed(s))
    ensures Extends(Proposed(s), DoApprovePlan(2, s.user), Reapproved(s))
    ensures Extends(Reapproved(s), DoStartExecution(s.base), Resumed(s))
    ensures Take(Resumed(s), DoBlock(s.second.blockId, STARTING)).Ok?
            && !Unspoiled(Resumed(s), DoBlock(s.second.blockId, STARTING))
  {
    hide Scene.Fits, Audited, Rebound, Planning, Proposed, Reapproved, Resumed, Decide, ProposePlan, ApprovePlan,
      StartExecution, Move,
      AddedRequirementsMet, FinalAuditMeets, Runs, STARTING;
    ProfilesValid(s.order.projectId);
    SceneIs(s);
    AmendmentTaken(s);
    ReplanTaken(s);
    AuditStillFits(s);
    ReapprovalTaken(s);
    RestartTaken(s);
    StartTaken(s);
    StartSpoils(s);
  }

  /** A step that extends a run. */
  ghost predicate Extends(w: WorkOrder, step: Step, next: WorkOrder) {
    WellFormed(w, step) && Take(w, step) == Ok(next) && Unspoiled(w, step)
  }
}
