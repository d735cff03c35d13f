/**
 The records of the WorkOrder control layer and the validators that hold of every stored record.

 A profile reference carries a fingerprint that is the injective hash of the profile definition.
 The model identifies the fingerprint with the definition it names, so two references with equal
 fingerprints name equal definitions.
 */
module ControlModel {
  import opened Prelude

  type Identifier = string
  type CommitSha = string
  type Digest = string

  // --- Vocabulary ---

  datatype WorkOrderStatus =
    | Draft
    | ContextIntake
    | PlanProposed
    | PlanApproved
    | Executing
    | FinalVerification
    | Promoted
    | UserAttentionRequired
    | Deferred
    | Aborted

  const TERMINAL := {Promoted, Aborted}

  /** States from which attention may be raised. */
  const ATTENTION_SOURCES := {ContextIntake, PlanApproved, Executing, FinalVerification}

  /** The legal successors of each WorkOrder status. */
  function Successors(status: WorkOrderStatus): set<WorkOrderStatus> {
    match status
    case Draft => {ContextIntake}
    case ContextIntake => {PlanProposed, UserAttentionRequired}
    case PlanProposed => {PlanApproved, Aborted}
    case PlanApproved => {Executing, UserAttentionRequired}
    case Executing => {FinalVerification, UserAttentionRequired}
    case FinalVerification => {Promoted, UserAttentionRequired}
    case UserAttentionRequired => ATTENTION_SOURCES + {PlanProposed, Deferred, Aborted}
    case Deferred => ATTENTION_SOURCES + {UserAttentionRequired}
    case Promoted => {}
    case Aborted => {}
  }

  datatype BlockStatus =
    | Pending
    | Running
    | Testing
    | BlockResult
    | CodeApproved
    | MemoryCuration
    | MemoryAudit
    | BlockCheckpoint
    | BlockDone

  const CODE_APPROVED_OR_LATER := {CodeApproved, MemoryCuration, MemoryAudit, BlockCheckpoint, BlockDone}

  datatype Role =
    | ContextAnalyst
    | ArchitecturePlanner
    | ImplementationPlanner
    | RecoveryPlanner
    | EpisodeManager
    | PrimaryCodeExecutor
    | CodeAuditor
    | FormatRepairer
    | MemoryCurator
    | MemoryAuditor
    | FinalVerifier
    | UserReporter

  const WRITE_CAPABLE_ROLES := {PrimaryCodeExecutor, MemoryCurator}

  /** The producing roles an auditing role must be independent from. */
  function AuditedProducers(role: Role): set<Role> {
    match role
    case CodeAuditor => {PrimaryCodeExecutor}
    case MemoryAuditor => {MemoryCurator}
    case FinalVerifier => {PrimaryCodeExecutor, MemoryCurator}
    case _ => {}
  }

  datatype RiskClass = Low | Medium | High

  datatype Requirement = FreshSession | ReadOnlyWorkspace | DifferentModelFamily | DifferentInferenceProvider

  function ContractIndependence(risk: RiskClass): seq<Requirement> {
    match risk
    case Low => [FreshSession, ReadOnlyWorkspace]
    case Medium => [FreshSession, ReadOnlyWorkspace, DifferentModelFamily]
    case High => [FreshSession, ReadOnlyWorkspace, DifferentModelFamily, DifferentInferenceProvider]
  }

  datatype FallbackCondition =
    | RuntimeUnavailable
    | ModelUnavailable
    | ProviderFailurePersistent
    | PolicyForbidsPrimary

  datatype AttentionCode =
    | BudgetExhausted
    | AttemptsExhausted
    | MaterialDeviation
    | AgentUnavailable
    | IndependenceUnavailable
    | AuditorError
    | AuditNotVerified
    | MemoryConflict
    | BlockCheckpointMismatch
    | BaselineDrift
    | PromotionRefused
    | RiskRequiresHuman
    | PlanAmbiguity

  datatype UserAction = Resume | Replan | ChangeAgentAction | ChangeBudgetAction | Defer | Abort

  // --- Profiles ---

  datatype WorkspaceAccess = NoAccess | ReadOnly | ReadWrite

  datatype Session = Fresh | Persistent

  /** `definition` stands for every attribute no rule here reads. */
  datatype Profile =
    | Agent(profileId: Identifier, version: nat, workspace: WorkspaceAccess, eligibleRoles: set<Role>,
            session: Session, family: string, inferenceProvider: string, definition: string)
    | DirectTool(profileId: Identifier, version: nat, workspace: WorkspaceAccess, eligibleRoles: set<Role>,
                 definition: string)
  {
    function Ref(): ProfileRef {
      ProfileRef(profileId, version, this)
    }
  }

  datatype ProfileRef = ProfileRef(profileId: Identifier, version: nat, fingerprint: Profile)

  /** The listed profile that a reference names, if there is one. */
  function Lookup(profiles: seq<Profile>, ref: ProfileRef): Option<Profile> {
    if ref.fingerprint in profiles && ref.fingerprint.Ref() == ref then Some(ref.fingerprint) else None
  }

  predicate Recorded(profiles: seq<Profile>, ref: ProfileRef) {
    Lookup(profiles, ref).Some?
  }

  /** One unmet independence requirement of an auditing role. */
  datatype Gap = Gap(role: Role, requirement: Requirement)

  datatype EvidenceRef = IndependenceGap(gap: Gap) | Reference(kind: string, ref: string)

  datatype IndependencePolicy =
    IndependencePolicy(low: seq<Requirement>, medium: seq<Requirement>, high: seq<Requirement>)
  {
    function Required(risk: RiskClass): seq<Requirement> {
      match risk
      case Low => low
      case Medium => medium
      case High => high
    }

    predicate Valid() {
      forall risk: RiskClass, r: Requirement :: r in ContractIndependence(risk) ==> r in Required(risk)
    }
  }

  datatype RoleBinding = RoleBinding(role: Role, primary: ProfileRef, fallbacks: seq<ProfileRef>,
                                     conditions: set<FallbackCondition>)

  datatype ProjectExecutionProfile =
    ProjectExecutionProfile(projectId: Identifier, version: nat, bindings: seq<RoleBinding>,
                            profiles: seq<Profile>, policy: IndependencePolicy, approval: string)
  {
    predicate Valid() {
      && (forall i, j :: 0 <= i < j < |bindings| ==> bindings[i].role != bindings[j].role)
      && (forall b :: b in bindings ==> BindingDefined(b))
      && policy.Valid()
    }

    predicate BindingDefined(b: RoleBinding) {
      forall ref :: ref in [b.primary] + b.fallbacks ==>
        && Recorded(profiles, ref)
        && b.role in ref.fingerprint.eligibleRoles
        && (b.role in WRITE_CAPABLE_ROLES ==> ref.fingerprint.workspace == ReadWrite)
    }

    /** The one binding of a role. */
    function Binding(role: Role): (b: Option<RoleBinding>)
      ensures b.Some? ==> b.value in bindings && b.value.role == role
    {
      FirstBinding(bindings, role)
    }
  }

  function FirstBinding(bindings: seq<RoleBinding>, role: Role): (b: Option<RoleBinding>)
    ensures b.Some? ==> b.value in bindings && b.value.role == role
    ensures b.None? ==> forall x :: x in bindings ==> x.role != role
  {
    if bindings == [] then None
    else if bindings[0].role == role then Some(bindings[0])
    else FirstBinding(bindings[1..], role)
  }

  // --- Evidence ---

  /** A commit together with the digest of the files in its worktree. */
  datatype StateIdentity = StateIdentity(headCommit: CommitSha, content: Digest)

  datatype SessionEvidence = SessionEvidence(sessionId: string, isFresh: bool, evidence: EvidenceRef)

  datatype AuditStatus = Verified | NotVerified | Blocked | AuditFailed

  datatype FormatRepair = NotNeeded | NotProvided | Accepted | Refused

  datatype AuditRecord = AuditRecord(role: Role, auditor: ProfileRef, status: AuditStatus, reason: string,
                                     formatRepair: FormatRepair, auditedState: StateIdentity,
                                     evidence: EvidenceRef, session: Option<SessionEvidence>)
  {
    /** The auditor's own complete verdict, whose format nobody had to repair. */
    predicate Authoritative() {
      status == Verified && reason == "report_complete" && formatRepair != Accepted
    }
  }

  datatype TestRecord = TestRecord(passed: bool, state: StateIdentity, evidence: EvidenceRef)

  function RightStrip(path: string): string {
    if path != [] && path[|path| - 1] == '/' then RightStrip(path[..|path| - 1]) else path
  }

  predicate Within(path: string, prefixes: seq<string>) {
    exists p :: p in prefixes && (path == RightStrip(p) || RightStrip(p) + "/" <= path)
  }

  datatype DeviationId = AutoDeviation(n: nat) | NamedDeviation(name: Identifier)

  /** What a run changed, against the prefixes it was allowed to change. */
  datatype ChangeRecord = ChangeRecord(changedPaths: seq<string>, allowed: seq<string>, evidence: EvidenceRef,
                                       approvedDeviation: Option<DeviationId>)
  {
    /** Some changed path is outside the allowed prefixes. */
    predicate Outside() {
      exists p :: p in changedPaths && !Within(p, allowed)
    }
  }

  datatype CheckpointProof = CheckpointProof(commit: CommitSha, parent: Option<CommitSha>, content: Digest,
                                             evidence: EvidenceRef)
  {
    predicate Proves(state: StateIdentity) {
      && (commit == state.headCommit || parent == Some(state.headCommit))
      && content == state.content
    }
  }

  datatype AttemptRecord = AttemptRecord(role: Role, profile: ProfileRef, condition: Option<FallbackCondition>,
                                         evidence: Option<EvidenceRef>)

  datatype KernelStage = RefusedBeforeCheckpoint | RefusedAfterCheckpoint | PromotedStage

  datatype KernelOutcome = KernelOutcome(attempted: bool, stage: Option<KernelStage>,
                                         checkpoint: Option<CommitSha>, reason: string, evidence: EvidenceRef)
  {
    predicate IsPromoted() {
      attempted && stage == Some(PromotedStage) && checkpoint.Some?
    }
  }

  // --- Plan and envelope ---

  datatype Budget = Budget(maxAttemptsPerBlock: nat, limits: string) {
    predicate Valid() {
      maxAttemptsPerBlock >= 1
    }
  }

  datatype BlockSpec = BlockSpec(blockId: Identifier, order: nat, goal: string, scope: seq<string>,
                                 memoryImpact: bool)

  datatype PlanVersion = PlanVersion(version: nat, blocks: seq<BlockSpec>, riskClass: RiskClass, budget: Budget,
                                     summary: string)
  {
    predicate Valid() {
      && blocks != []
      && (forall i :: 0 <= i < |blocks| ==> blocks[i].order == i + 1)
      && (forall i, j :: 0 <= i < j < |blocks| ==> blocks[i].blockId != blocks[j].blockId)
      && budget.Valid()
    }
  }

  datatype PlanApproval = PlanApproval(planVersion: nat, profileVersion: nat, approvedBy: string)

  datatype AttentionId = AutoAttention(n: nat) | NamedAttention(name: Identifier)

  datatype Amendment =
    | ChangeAgent(attentionId: AttentionId, profile: ProjectExecutionProfile, approvedBy: string)
    | ChangeBudget(attentionId: AttentionId, newBudget: Budget, approvedBy: string)
  {
    predicate Valid() {
      match this
      case ChangeAgent(_, profile, _) => profile.Valid()
      case ChangeBudget(_, newBudget, _) => newBudget.Valid()
    }

    function NewProfile(): Option<ProjectExecutionProfile> {
      if ChangeAgent? then Some(profile) else None
    }

    function NewBudget(): Option<Budget> {
      if ChangeBudget? then Some(newBudget) else None
    }
  }

  datatype Candidate = Candidate(workspaceId: Identifier, candidateId: Identifier, baseCommit: CommitSha)

  // --- Human decisions ---

  datatype Severity = Blocking | Warning

  datatype AttentionReason = AttentionReason(code: AttentionCode, severity: Severity, summary: string,
                                             evidence: seq<EvidenceRef>, suggestions: seq<string>)

  datatype UserDecision = UserDecision(action: UserAction, actor: string, message: string,
                                       waived: set<AttentionCode>, approvedDeviations: set<DeviationId>)

  datatype AttentionRequest = AttentionRequest(id: AttentionId, raisedFrom: WorkOrderStatus,
                                               reasons: seq<AttentionReason>, resolved: set<AttentionCode>,
                                               decisions: seq<UserDecision>, closed: bool)
  {
    predicate Valid() {
      && reasons != []
      && (forall r :: r in reasons ==> r.evidence != [])
      && raisedFrom in ATTENTION_SOURCES
      && UniqueCodes(reasons)
    }

    /** No blocking reason is left unresolved and unwaived. */
    predicate Unblocked() {
      forall r :: r in reasons && r.severity == Blocking ==>
        r.code in resolved || exists d :: d in decisions && r.code in d.waived
    }

    /** The independence gaps this request's decisions waive. */
    function WaivedGaps(): set<Gap> {
      if exists d :: d in decisions && IndependenceUnavailable in d.waived then
        set r, e | r in reasons && r.code == IndependenceUnavailable && e in r.evidence && e.IndependenceGap? ::
          e.gap
      else {}
    }
  }

  predicate UniqueCodes(reasons: seq<AttentionReason>) {
    forall i, j :: 0 <= i < j < |reasons| ==> reasons[i].code != reasons[j].code
  }

  datatype Deviation = Deviation(id: DeviationId, blockId: Option<Identifier>, material: bool, summary: string,
                                 evidence: EvidenceRef, approvedBy: Option<string>)

  // --- Independence ---

  /** One requirement, held against an auditor and the profiles whose work it judges. */
  predicate Meets(r: Requirement, auditor: Profile, producers: set<Profile>) {
    match r
    case FreshSession => auditor.Agent? && auditor.session == Fresh
    case ReadOnlyWorkspace => auditor.workspace == ReadOnly
    case DifferentModelFamily =>
      auditor.Agent? && forall p :: p in producers && p.Agent? ==> p.family != auditor.family
    case DifferentInferenceProvider =>
      auditor.Agent? && forall p :: p in producers && p.Agent? ==> p.inferenceProvider != auditor.inferenceProvider
  }

  /** As Meets, but freshness must also be in the evidence of the session that ran. */
  predicate MeetsRecorded(r: Requirement, audit: AuditRecord, auditor: Profile, producers: set<Profile>) {
    && Meets(r, auditor, producers)
    && (r == FreshSession ==> audit.session.Some? && audit.session.value.isFresh)
  }

  // --- Blocks ---

  datatype Block = Block(spec: BlockSpec, status: BlockStatus, attempts: seq<AttemptRecord>, failedAttempts: nat,
                         tests: Option<TestRecord>, codeAudit: Option<AuditRecord>,
                         codeChanges: Option<ChangeRecord>, curationAttempts: nat,
                         memoryChanges: Option<ChangeRecord>, memoryAudit: Option<AuditRecord>,
                         checkpoint: Option<CheckpointProof>, rejectedCheckpoints: seq<CheckpointProof>,
                         riskClass: Option<RiskClass>)
  {
    predicate Valid() {
      && (codeAudit.Some? || memoryAudit.Some? ==> riskClass.Some?)
      && (status in CODE_APPROVED_OR_LATER ==> CodeApprovalHolds())
      && (status in {MemoryCuration, MemoryAudit} ==> spec.memoryImpact)
      && (status in {BlockCheckpoint, BlockDone} ==> MemoryApprovalHolds())
      && (status == BlockDone ==>
            checkpoint.Some? && ApprovingAudit().Some? && checkpoint.value.Proves(ApprovingAudit().value.auditedState))
      && (status != BlockDone ==> checkpoint.None?)
    }

    /** The audit whose state a checkpoint must hold. */
    function ApprovingAudit(): Option<AuditRecord> {
      if spec.memoryImpact then memoryAudit else codeAudit
    }

    predicate CodeApprovalHolds() {
      && codeAudit.Some? && tests.Some? && codeChanges.Some?
      && codeAudit.value.role == CodeAuditor
      && codeAudit.value.Authoritative()
      && tests.value.passed
      && tests.value.state == codeAudit.value.auditedState
      && codeChanges.value.allowed == spec.scope
      && (codeChanges.value.Outside() ==> codeChanges.value.approvedDeviation.Some?)
    }

    predicate MemoryApprovalHolds() {
      if !spec.memoryImpact then memoryAudit.None? && memoryChanges.None?
      else
        && memoryAudit.Some? && memoryChanges.Some?
        && memoryAudit.value.role == MemoryAuditor
        && memoryAudit.value.Authoritative()
        && (memoryChanges.value.Outside() ==> memoryChanges.value.approvedDeviation.Some?)
    }

    predicate IsDone() {
      status == BlockDone
    }
  }

  function NewBlock(spec: BlockSpec): Block {
    Block(spec, Pending, [], 0, None, None, None, 0, None, None, None, [], None)
  }

  /** The profiles that ran one of the given roles for a block. */
  function ProducersOf(attempts: seq<AttemptRecord>, roles: set<Role>): set<Profile> {
    set a | a in attempts && a.role in roles :: a.profile.fingerprint
  }

  // --- WorkOrder ---

  datatype WorkOrder = WorkOrder(
    workOrderId: Identifier, version: nat, projectId: Identifier, objective: string, memoryPaths: seq<string>,
    executionProfile: ProjectExecutionProfile, status: WorkOrderStatus, plannedBaseline: Option<CommitSha>,
    candidate: Option<Candidate>, planVersions: seq<PlanVersion>, approvals: seq<PlanApproval>,
    budget: Option<Budget>, amendments: seq<Amendment>, blocks: seq<Block>, supersededBlocks: seq<Block>,
    attention: seq<AttentionRequest>, deferredFrom: Option<WorkOrderStatus>, deviations: seq<Deviation>,
    finalAudit: Option<AuditRecord>, outcome: Option<KernelOutcome>, evidence: seq<EvidenceRef>,
    usedProfiles: seq<Profile>)
  {
    /** Every validator that runs when a record is built or reloaded. */
    predicate Valid() {
      Structural() && AuditsIndependent()
    }

    /** Every validator except auditor independence. */
    predicate Structural() {
      && PartsValid()
      && executionProfile.projectId == projectId
      && PlansOk(planVersions, approvals)
      && (candidate.Some? || blocks != [] ==> approvals != [])
      && BlocksMatchPlan(blocks, planVersions, approvals)
      && (status in {Executing, FinalVerification} ==> candidate.Some? && blocks != [])
      && (status in {FinalVerification, Promoted} ==> AllDone(blocks))
      && (status == Promoted <==> outcome.Some? && outcome.value.IsPromoted())
      && UniqueDeviations(deviations)
      && OpenCountOk(attention, status == UserAttentionRequired)
      && (status == Deferred <==> deferredFrom.Some?)
      && ProfilesRecorded()
    }

    /** The validators of the nested records. */
    predicate PartsValid() {
      && executionProfile.Valid()
      && (forall p :: p in planVersions ==> p.Valid())
      && (budget.Some? ==> budget.value.Valid())
      && (forall a :: a in amendments ==> a.Valid())
      && (forall b :: b in blocks ==> b.Valid())
      && (forall b :: b in supersededBlocks ==> b.Valid())
      && (forall a :: a in attention ==> a.Valid())
    }

    /** Whatever ran or judged is listed among the used profiles. */
    predicate ProfilesRecorded() {
      && (forall i, j :: 0 <= i < j < |usedProfiles| ==> usedProfiles[i] != usedProfiles[j])
      && (forall b :: b in blocks ==> BlockRecorded(b, usedProfiles))
      && (forall b :: b in supersededBlocks ==> BlockRecorded(b, usedProfiles))
      && (finalAudit.Some? ==> Recorded(usedProfiles, finalAudit.value.auditor))
    }

    /** No recorded audit has a gap that the user did not waive. */
    predicate AuditsIndependent() {
      && (forall b :: b in blocks ==>
            BlockIndependent(b, executionProfile.policy, WaivedIndependence(attention)))
      && (finalAudit.Some? && approvals != [] ==>
            Independent(finalAudit.value, executionProfile.policy.Required(ApprovedPlan().riskClass),
                        Writers(blocks + supersededBlocks), WaivedIndependence(attention)))
      && (finalAudit.Some? ==> approvals != [])
    }

    function ApprovedPlan(): PlanVersion
      requires approvals != []
    {
      PlanAt(planVersions, approvals[|approvals| - 1].planVersion)
    }

    predicate IsTerminal() {
      status in TERMINAL
    }
  }

  /** Plan version n, which is recorded at position n - 1. */
  function PlanAt(plans: seq<PlanVersion>, n: nat): PlanVersion {
    if 1 <= n <= |plans| then plans[n - 1] else PlanVersion(0, [], Low, Budget(0, ""), "")
  }

  predicate PlansOk(plans: seq<PlanVersion>, approvals: seq<PlanApproval>) {
    && (forall i :: 0 <= i < |plans| ==> plans[i].version == i + 1)
    && (forall a :: a in approvals ==> 1 <= a.planVersion <= |plans|)
    && (forall i, j :: 0 <= i < j < |approvals| ==> approvals[i].planVersion < approvals[j].planVersion)
  }

  predicate BlocksMatchPlan(blocks: seq<Block>, plans: seq<PlanVersion>, approvals: seq<PlanApproval>) {
    blocks != [] && approvals != [] ==>
      var plan := PlanAt(plans, approvals[|approvals| - 1].planVersion);
      && |blocks| == |plan.blocks|
      && forall i :: 0 <= i < |blocks| ==> blocks[i].spec == plan.blocks[i]
  }

  predicate AllDone(blocks: seq<Block>) {
    forall b :: b in blocks ==> b.status == BlockDone
  }

  predicate UniqueDeviations(deviations: seq<Deviation>) {
    forall i, j :: 0 <= i < j < |deviations| ==> deviations[i].id != deviations[j].id
  }

  /** Exactly one request is open while attention is required, and none otherwise. */
  predicate OpenCountOk(attention: seq<AttentionRequest>, required: bool) {
    if required then exists k: nat :: k < |attention| && OnlyOpen(attention, k)
    else forall a :: a in attention ==> a.closed
  }

  predicate OnlyOpen(attention: seq<AttentionRequest>, k: nat) {
    && k < |attention|
    && !attention[k].closed
    && forall i :: 0 <= i < |attention| && i != k ==> attention[i].closed
  }

  predicate BlockRecorded(b: Block, used: seq<Profile>) {
    && (forall a :: a in b.attempts ==> Recorded(used, a.profile))
    && (b.codeAudit.Some? ==> Recorded(used, b.codeAudit.value.auditor))
    && (b.memoryAudit.Some? ==> Recorded(used, b.memoryAudit.value.auditor))
  }

  predicate BlockIndependent(b: Block, policy: IndependencePolicy, waived: set<Gap>) {
    && (b.codeAudit.Some? ==> b.riskClass.Some? && AuditIndependent(b, b.codeAudit.value, policy, waived))
    && (b.memoryAudit.Some? ==> b.riskClass.Some? && AuditIndependent(b, b.memoryAudit.value, policy, waived))
  }

  predicate AuditIndependent(b: Block, audit: AuditRecord, policy: IndependencePolicy, waived: set<Gap>)
    requires b.riskClass.Some?
  {
    Independent(audit, policy.Required(b.riskClass.value), ProducersOf(b.attempts, AuditedProducers(audit.role)),
                waived)
  }

  /** An audit has no unwaived gap. */
  predicate Independent(audit: AuditRecord, required: seq<Requirement>, producers: set<Profile>, waived: set<Gap>) {
    forall r :: r in required ==>
      MeetsRecorded(r, audit, audit.auditor.fingerprint, producers) || Gap(audit.role, r) in waived
  }

  /** The profiles of every write-capable attempt. */
  function Writers(blocks: seq<Block>): set<Profile> {
    set b, a | b in blocks && a in b.attempts && a.role in WRITE_CAPABLE_ROLES :: a.profile.fingerprint
  }

  function WaivedIndependence(attention: seq<AttentionRequest>): set<Gap> {
    set a, g | a in attention && g in a.WaivedGaps() :: g
  }
}
