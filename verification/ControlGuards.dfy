/**
 When a block step is refused, when it stops for the user, and when it goes through: one exact
 condition each, in terms of what the record holds and who is bound to which role.
 */
module ControlGuards {
  import opened Prelude
  import opened ControlModel
  import opened ControlMachine
  import opened ControlInvariant
  import opened ControlIndependence
  import opened ControlPromotion

  // --- Profiles and auditors ---

  /**
   The role's primary profile as it is, or one of its other profiles under an agreed condition that is
   shown to hold.
   */
  ghost predicate Bound(w: WorkOrder, role: Role, profile: ProfileRef, condition: Option<FallbackCondition>,
                        proof: Option<EvidenceRef>)
  {
    exists b :: b in w.executionProfile.bindings && b.role == role &&
      if profile == b.primary then condition.None?
      else profile in b.fallbacks && condition.Some? && condition.value in b.conditions && proof.Some?
  }

  lemma BoundMeans(w: WorkOrder, role: Role, profile: ProfileRef, condition: Option<FallbackCondition>,
                   proof: Option<EvidenceRef>)
    requires w.executionProfile.Valid()
    ensures CheckProfile(w, role, profile, condition, proof) == Holds <==> Bound(w, role, profile, condition, proof)
    ensures CheckProfile(w, role, profile, condition, proof).IsFailure() <==>
              !Bound(w, role, profile, condition, proof)
  {
    forall b | b in w.executionProfile.bindings && b.role == role
      ensures w.executionProfile.Binding(role) == Some(b)
    {
      OneBinding(w.executionProfile, b);
    }
  }

  /** What each refusal of a profile says. */
  ghost predicate ProfileRefused(w: WorkOrder, role: Role, profile: ProfileRef, condition: Option<FallbackCondition>,
                                 proof: Option<EvidenceRef>, code: string)
  {
    if code == "role_unbound" then forall b :: b in w.executionProfile.bindings ==> b.role != role
    else
      exists b :: b in w.executionProfile.bindings && b.role == role &&
        match code
        case "fallback" => profile == b.primary && condition.Some?
        case "profile_not_bound" => profile !in [b.primary] + b.fallbacks
        case "fallback_condition" =>
          profile in b.fallbacks && !(condition.Some? && condition.value in b.conditions && proof.Some?)
        case _ => false
  }

  lemma ProfileRefusalIsTrue(w: WorkOrder, role: Role, profile: ProfileRef, condition: Option<FallbackCondition>,
                             proof: Option<EvidenceRef>)
    ensures var g := CheckProfile(w, role, profile, condition, proof);
            g.IsFailure() ==>
              g.rejection.Rejected? && ProfileRefused(w, role, profile, condition, proof, g.rejection.code)
  {
  }

  lemma OneBinding(p: ProjectExecutionProfile, b: RoleBinding)
    requires p.Valid() && b in p.bindings
    ensures p.Binding(b.role) == Some(b)
  {
    hide ProjectExecutionProfile.BindingDefined, IndependencePolicy.Valid;
    var found := p.Binding(b.role).value;
    var i, j :| 0 <= i < |p.bindings| && 0 <= j < |p.bindings| && p.bindings[i] == b && p.bindings[j] == found;
  }

  /** The auditing role judges what the producing role makes. */
  predicate Judges(auditor: Role, producer: Role) {
    || (auditor == CodeAuditor && producer == PrimaryCodeExecutor)
    || (auditor == MemoryAuditor && producer == MemoryCurator)
    || (auditor == FinalVerifier && producer in {PrimaryCodeExecutor, MemoryCurator})
  }

  /** The bound auditor meets the requirement against this producer, or the user waived it. */
  predicate MayJudge(w: WorkOrder, auditor: RoleBinding, r: Requirement, producer: Profile) {
    Meets(r, auditor.primary.fingerprint, {producer}) || Gap(auditor.role, r) in WaivedIndependence(w.attention)
  }

  /** Every auditor that is bound to judge this producer's work may do so at the approved risk. */
  ghost predicate Judgeable(w: WorkOrder, role: Role, producer: Profile) {
    forall a, r :: a in w.executionProfile.bindings && r in w.executionProfile.policy.Required(ApprovedRisk(w)) ==>
      Judges(a.role, role) ==> MayJudge(w, a, r, producer)
  }

  lemma {:induction false} UnmetMeans(required: seq<Requirement>, role: Role, auditor: Profile, producers: set<Profile>,
                                      waived: set<Gap>)
    ensures UnmetGaps(required, role, auditor, producers, waived) == [] <==>
              forall r :: r in required ==> Meets(r, auditor, producers) || Gap(role, r) in waived
  {
    if required != [] {
      UnmetMeans(required[1..], role, auditor, producers, waived);
      assert forall r :: r in required <==> r == required[0] || r in required[1..];
    }
  }

  /** No auditor bound to this role finds a gap. */
  lemma RoleJudgeable(w: WorkOrder, auditor: Role, role: Role, producer: Profile)
    requires w.executionProfile.Valid() && auditor in {CodeAuditor, MemoryAuditor, FinalVerifier}
    ensures ProducerRoleGaps(w, auditor, role, producer) == [] <==>
              forall a, r ::
                a in w.executionProfile.bindings && r in w.executionProfile.policy.Required(ApprovedRisk(w)) ==>
                a.role == auditor && Judges(auditor, role) ==> MayJudge(w, a, r, producer)
  {
    hide Meets, ApprovedRisk, WaivedIndependence, ProjectExecutionProfile.Valid, ProjectExecutionProfile.Binding;
    forall a | a in w.executionProfile.bindings && a.role == auditor
      ensures w.executionProfile.Binding(auditor) == Some(a)
    {
      OneBinding(w.executionProfile, a);
    }
    var bound := w.executionProfile.Binding(auditor);
    if bound.Some? {
      UnmetMeans(w.executionProfile.policy.Required(ApprovedRisk(w)), auditor, bound.value.primary.fingerprint,
                 {producer}, WaivedIndependence(w.attention));
    }
  }

  lemma ProducerJudgeable(w: WorkOrder, role: Role, producer: Profile)
    requires w.executionProfile.Valid()
    ensures ProducerGaps(w, role, producer) == [] <==> Judgeable(w, role, producer)
  {
    hide MayJudge, ApprovedRisk, ProjectExecutionProfile.Valid, ProducerRoleGaps;
    RoleJudgeable(w, CodeAuditor, role, producer);
    RoleJudgeable(w, MemoryAuditor, role, producer);
    RoleJudgeable(w, FinalVerifier, role, producer);
  }

  // --- Asking the user ---

  /** The step opened one request, with one blocking reason of this code. */
  predicate Asked(w: WorkOrder, next: WorkOrder, code: AttentionCode) {
    && next.status == UserAttentionRequired
    && |next.attention| == |w.attention| + 1 && w.attention <= next.attention
    && var asked := next.attention[|w.attention|];
       && !asked.closed && asked.raisedFrom == w.status && asked.decisions == [] && asked.resolved == {}
       && |asked.reasons| == 1 && asked.reasons[0].code == code && asked.reasons[0].severity == Blocking
  }

  lemma RaisingAsks(w: WorkOrder, reason: AttentionReason)
    requires Good(w) && w.status in ATTENTION_SOURCES
    ensures OpenRequest(w.attention).None?
    ensures forall mid: WorkOrder :: mid.status == w.status && mid.attention == w.attention ==>
              Raises(w, mid, reason)
  {
    NothingOpen(w);
    RaisingOpens(w, reason);
  }

  /** Raising the reason on a changed record asks the user and changes nothing else. */
  ghost predicate Raises(w: WorkOrder, mid: WorkOrder, reason: AttentionReason) {
    && RaiseAttention(mid, [reason], None).Ok?
    && var next := RaiseAttention(mid, [reason], None).value;
       && next == mid.(status := next.status, attention := next.attention)
       && (reason.severity == Blocking ==> Asked(w, next, reason.code))
  }

  lemma NothingOpen(w: WorkOrder)
    requires Good(w) && w.status != UserAttentionRequired
    ensures forall a :: a in w.attention ==> a.closed
  {
  }

  lemma RaisingOpens(w: WorkOrder, reason: AttentionReason)
    requires w.status in ATTENTION_SOURCES && forall a :: a in w.attention ==> a.closed
    ensures OpenRequest(w.attention).None?
    ensures forall mid: WorkOrder :: mid.status == w.status && mid.attention == w.attention ==>
              Raises(w, mid, reason)
  {
    OneByCode(reason);
  }

  lemma OneByCode(reason: AttentionReason)
    ensures LastByCode([reason]) == [reason]
  {
    assert LastByCode([reason][..0]) == [];
  }

  // --- Block steps ---

  predicate Remains(w: WorkOrder, used: nat) {
    w.budget.Some? && w.budget.value.maxAttemptsPerBlock >= used + 1
  }

  /** The changes stay in these directories, or claim a deviation. */
  ghost predicate StaysOrClaims(dirs: seq<string>, changes: ChangeRecord) {
    changes.approvedDeviation.Some? ||
    forall p :: p in changes.changedPaths ==> exists dir :: dir in dirs && Inside(p, dir)
  }

  /** What a move needs of its block and of what it carries. */
  ghost predicate Allows(w: WorkOrder, b: Block, move: BlockMove) {
    match move
    case Begin(profile, condition, proof) =>
      && b.status == Pending
      && (forall x :: x in w.blocks && x.spec.order < b.spec.order ==> x.status == BlockDone)
      && (Remains(w, b.failedAttempts) ==> Bound(w, PrimaryCodeExecutor, profile, condition, proof))
    case Finish => b.status == Running
    case Tests(_) => b.status == Testing
    case Approve(audit, changes, current) =>
      && b.status == BlockResult && Bound(w, audit.role, audit.auditor, None, None)
      && OwnVerdict(audit, CodeAuditor) && audit.auditedState == current
      && b.tests.Some? && b.tests.value.passed && b.tests.value.state == current
      && changes.allowed == b.spec.scope && StaysOrClaims(b.spec.scope, changes)
      && ClaimTrue(w.deviations, b.spec.blockId, changes)
    case Fail(_) => b.status == Running || b.status == Testing || b.status == BlockResult
    case BeginCuration(profile, condition, proof) =>
      && (b.status == CodeApproved || b.status == MemoryAudit) && b.spec.memoryImpact
      && (Remains(w, b.curationAttempts) ==> Bound(w, MemoryCurator, profile, condition, proof))
    case FinishCuration(changes) =>
      && b.status == MemoryCuration && changes.allowed == w.memoryPaths
      && ClaimTrue(w.deviations, b.spec.blockId, changes)
    case ApproveCuration(audit, current) =>
      && b.status == MemoryAudit && Bound(w, audit.role, audit.auditor, None, None)
      && OwnVerdict(audit, MemoryAuditor) && audit.auditedState == current
      && b.memoryChanges.Some? && StaysOrClaims(b.memoryChanges.value.allowed, b.memoryChanges.value)
    case EnterCheckpoint(current) =>
      b.status == CodeApproved && !b.spec.memoryImpact && b.codeAudit.Some? && b.codeAudit.value.auditedState == current
    case ProveCheckpoint(_) => b.status == BlockCheckpoint
  }

  /** What a move that is allowed asks the user instead of, or besides, moving its block. */
  ghost function Question(w: WorkOrder, b: Block, move: BlockMove): Option<AttentionCode> {
    match move
    case Begin(profile, _, _) =>
      if !Remains(w, b.failedAttempts) then Some(AttemptsExhausted)
      else if !Judgeable(w, PrimaryCodeExecutor, profile.fingerprint) then Some(IndependenceUnavailable)
      else None
    case BeginCuration(profile, _, _) =>
      if !Remains(w, b.curationAttempts) then Some(AttemptsExhausted)
      else if !Judgeable(w, MemoryCurator, profile.fingerprint) then Some(IndependenceUnavailable)
      else None
    case Approve(audit, _, _) =>
      if Independent(audit, w.executionProfile.policy.Required(ApprovedRisk(w)),
                     ProducersOf(b.attempts, {PrimaryCodeExecutor}), WaivedIndependence(w.attention)) then None
      else Some(IndependenceUnavailable)
    case ApproveCuration(audit, _) =>
      if b.riskClass.Some? && Independent(audit, w.executionProfile.policy.Required(b.riskClass.value),
                                          ProducersOf(b.attempts, {MemoryCurator}),
                                          WaivedIndependence(w.attention)) then None
      else Some(IndependenceUnavailable)
    case Fail(_) => if Remains(w, b.failedAttempts + 1) then None else Some(AttemptsExhausted)
    case FinishCuration(changes) =>
      if StaysOrClaims(w.memoryPaths, changes) then None else Some(MaterialDeviation)
    case ProveCheckpoint(proof) =>
      if CheckpointOf(proof, if b.spec.memoryImpact && b.memoryAudit.Some? then b.memoryAudit.value.auditedState
                             else if b.codeAudit.Some? then b.codeAudit.value.auditedState else StateIdentity("", ""))
      then None else Some(BlockCheckpointMismatch)
    case _ => None
  }

  function Target(move: BlockMove): BlockStatus {
    match move
    case Begin(_, _, _) => Running
    case Finish => Testing
    case Tests(_) => BlockResult
    case Approve(_, _, _) => CodeApproved
    case Fail(_) => Pending
    case BeginCuration(_, _, _) => MemoryCuration
    case FinishCuration(_) => MemoryAudit
    case ApproveCuration(_, _) => BlockCheckpoint
    case EnterCheckpoint(_) => BlockCheckpoint
    case ProveCheckpoint(_) => BlockDone
  }

  /** What the block holds afterwards of what the move carried, and what it no longer holds. */
  predicate Holding(b: Block, move: BlockMove, risk: RiskClass, c: Block) {
    match move
    case Begin(profile, condition, proof) =>
      && c.attempts == b.attempts + [AttemptRecord(PrimaryCodeExecutor, profile, condition, proof)]
      && c.tests.None? && c.codeAudit.None? && c.codeChanges.None?
    case Finish => c == b.(status := c.status)
    case Tests(tests) => c.tests == Some(tests)
    case Approve(audit, changes, _) =>
      c.codeAudit == Some(audit) && c.codeChanges == Some(changes) && c.riskClass == Some(risk)
    case Fail(_) =>
      c.failedAttempts == b.failedAttempts + 1 && c.tests.None? && c.codeAudit.None? && c.codeChanges.None?
    case BeginCuration(profile, condition, proof) =>
      && c.attempts == b.attempts + [AttemptRecord(MemoryCurator, profile, condition, proof)]
      && c.curationAttempts == b.curationAttempts + (if b.status == MemoryAudit then 1 else 0)
      && c.memoryChanges.None? && c.memoryAudit.None?
    case FinishCuration(changes) => c.memoryChanges == Some(changes)
    case ApproveCuration(audit, _) => c.memoryAudit == Some(audit)
    case EnterCheckpoint(_) => c == b.(status := c.status)
    case ProveCheckpoint(proof) =>
      if c.status == BlockDone then c.checkpoint == Some(proof)
      else c.rejectedCheckpoints == b.rejectedCheckpoints + [proof]
  }

  /** The block reached the status with what the move carried, and no other block changed. */
  ghost predicate Reaches(w: WorkOrder, b: Block, move: BlockMove, next: WorkOrder, status: BlockStatus) {
    exists c: Block ::
      && c.spec == b.spec && c.status == status && Holding(b, move, ApprovedRisk(w), c)
      && next.blocks == UpdateBlock(w.blocks, c)
  }

  /** The move went through, or stopped for the user with its block as it was or as far as it could be taken. */
  ghost predicate Fate(w: WorkOrder, b: Block, move: BlockMove, next: WorkOrder) {
    match Question(w, b, move)
    case None => next.status == w.status && next.attention == w.attention && Reaches(w, b, move, next, Target(move))
    case Some(code) =>
      && Asked(w, next, code)
      && if move.Fail? || move.FinishCuration? then Reaches(w, b, move, next, Target(move))
         else if move.ProveCheckpoint? then Reaches(w, b, move, next, BlockCheckpoint) else next.blocks == w.blocks
  }

  /** What each refusal of a move says; none says anything that is not so. */
  ghost predicate Refused(w: WorkOrder, b: Block, move: BlockMove, code: string) {
    match move
    case Begin(profile, condition, proof) =>
      || (code == "illegal_block_state" && b.status != Pending)
      || (code == "block_order" && exists x :: x in w.blocks && x.spec.order < b.spec.order && x.status != BlockDone)
      || ProfileRefused(w, PrimaryCodeExecutor, profile, condition, proof, code)
    case Finish => code == "illegal_block_state" && b.status != Running
    case Tests(_) => code == "illegal_block_state" && b.status != Testing
    case Approve(audit, changes, current) =>
      || (code == "illegal_block_state" && b.status != BlockResult)
      || (code == "state_changed_since_audit" && audit.auditedState != current)
      || (code == "deviation" && !ClaimTrue(w.deviations, b.spec.blockId, changes))
      || (code == "code_not_approved" &&
          !(&& OwnVerdict(audit, CodeAuditor)
            && b.tests.Some? && b.tests.value.passed && b.tests.value.state == audit.auditedState
            && changes.allowed == b.spec.scope && StaysOrClaims(b.spec.scope, changes)))
      || ProfileRefused(w, audit.role, audit.auditor, None, None, code)
    case Fail(_) => code == "illegal_block_state" && b.status !in {Running, Testing, BlockResult}
    case BeginCuration(profile, condition, proof) =>
      || (code == "illegal_block_state" && b.status != CodeApproved && b.status != MemoryAudit)
      || (code == "no_memory_impact" && !b.spec.memoryImpact)
      || ProfileRefused(w, MemoryCurator, profile, condition, proof, code)
    case FinishCuration(changes) =>
      || (code == "illegal_block_state" && b.status != MemoryCuration)
      || (code == "memory_paths" && changes.allowed != w.memoryPaths)
      || (code == "deviation" && !ClaimTrue(w.deviations, b.spec.blockId, changes))
    case ApproveCuration(audit, current) =>
      || (code == "illegal_block_state" && b.status != MemoryAudit)
      || (code == "state_changed_since_audit" && audit.auditedState != current)
      || (code == "memory_not_approved" &&
          !(OwnVerdict(audit, MemoryAuditor) && b.memoryChanges.Some?
            && StaysOrClaims(b.memoryChanges.value.allowed, b.memoryChanges.value)))
      || ProfileRefused(w, audit.role, audit.auditor, None, None, code)
    case EnterCheckpoint(current) =>
      || (code == "illegal_block_state" && b.status != CodeApproved)
      || (code == "memory_impact" && b.spec.memoryImpact)
      || (code == "state_changed_since_audit" && b.codeAudit.Some? && b.codeAudit.value.auditedState != current)
    case ProveCheckpoint(_) => code == "illegal_block_state" && b.status != BlockCheckpoint
  }

  /** The move is accepted exactly when it is allowed, and then meets its fate; else the refusal says why. */
  ghost predicate Decided(w: WorkOrder, b: Block, move: BlockMove) {
    match Move(w, b.spec.blockId, move)
    case Ok(next) => Allows(w, b, move) && Fate(w, b, move, next)
    case Err(e) => !Allows(w, b, move) && e.Rejected? && Refused(w, b, move, e.code)
  }

  lemma BlockIs(w: WorkOrder, b: Block)
    requires Good(w) && b in w.blocks
    ensures FindBlock(w.blocks, b.spec.blockId) == Some(b)
    ensures w.executionProfile.Valid()
  {
    hide Block.Valid, BlockRecorded, InOrder, AllStaged;
    BlocksLaidOut(w);
    var found := FindBlock(w.blocks, b.spec.blockId).value;
    var i, j :| 0 <= i < |w.blocks| && 0 <= j < |w.blocks| && w.blocks[i] == b && w.blocks[j] == found;
  }

  lemma BeginDecided(w: WorkOrder, b: Block, profile: ProfileRef, condition: Option<FallbackCondition>,
                     proof: Option<EvidenceRef>)
    requires Good(w) && w.status == Executing && b in w.blocks
    ensures Decided(w, b, Begin(profile, condition, proof))
  {
    hide ProfileRefused, Good, CheckProfile, ProducerGaps, Judgeable, Bound, RaiseAttention, UpdateBlock,
      FindBlock, Asked, GapEvidence, WithProfile, ApproveCode, ApproveMemory, BeginMemoryCuration,
      EnterBlockCheckpoint, FailAttempt, FinishMemoryCuration, FinishRun, ProveBlockCheckpoint, RecordTests;
    BlockIs(w, b);
    ProfileRefusalIsTrue(w, PrimaryCodeExecutor, profile, condition, proof);
    BoundMeans(w, PrimaryCodeExecutor, profile, condition, proof);
    ProducerJudgeable(w, PrimaryCodeExecutor, profile.fingerprint);
    RaisingAsks(w, Exhausted("block attempts", Reference("block", b.spec.blockId)));
    var gaps := ProducerGaps(w, PrimaryCodeExecutor, profile.fingerprint);
    RaisingAsks(w, AttentionReason(IndependenceUnavailable, Blocking, "auditor independence cannot be met",
                                   GapEvidence(gaps), []));
  }

  lemma CurationDecided(w: WorkOrder, b: Block, profile: ProfileRef, condition: Option<FallbackCondition>,
                        proof: Option<EvidenceRef>)
    requires Good(w) && w.status == Executing && b in w.blocks
    ensures Decided(w, b, BeginCuration(profile, condition, proof))
  {
    hide ProfileRefused, Good, CheckProfile, ProducerGaps, Judgeable, Bound, RaiseAttention, UpdateBlock,
      FindBlock, Asked, GapEvidence, WithProfile, ApproveCode, ApproveMemory, BeginAttempt,
      EnterBlockCheckpoint, FailAttempt, FinishMemoryCuration, FinishRun, ProveBlockCheckpoint, RecordTests;
    BlockIs(w, b);
    ProfileRefusalIsTrue(w, MemoryCurator, profile, condition, proof);
    BoundMeans(w, MemoryCurator, profile, condition, proof);
    ProducerJudgeable(w, MemoryCurator, profile.fingerprint);
    RaisingAsks(w, Exhausted("memory curation", Reference("block", b.spec.blockId)));
    var gaps := ProducerGaps(w, MemoryCurator, profile.fingerprint);
    RaisingAsks(w, AttentionReason(IndependenceUnavailable, Blocking, "auditor independence cannot be met",
                                   GapEvidence(gaps), []));
  }

  lemma RunDecided(w: WorkOrder, b: Block, move: BlockMove)
    requires Good(w) && w.status == Executing && b in w.blocks
    requires move.Finish? || move.Tests? || move.EnterCheckpoint?
    ensures Decided(w, b, move)
  {
    hide Good, UpdateBlock, FindBlock, ApproveCode, ApproveMemory, BeginAttempt, BeginMemoryCuration,
      FailAttempt, FinishMemoryCuration, ProveBlockCheckpoint;
    ApprovalFacts(w, b);
    BlockIs(w, b);
  }

  lemma FailDecided(w: WorkOrder, b: Block, failure: EvidenceRef)
    requires Good(w) && w.status == Executing && b in w.blocks
    ensures Decided(w, b, Fail(failure))
  {
    hide Good, RaiseAttention, UpdateBlock, FindBlock, Asked, ApproveCode, ApproveMemory, BeginAttempt,
      BeginMemoryCuration, EnterBlockCheckpoint, FinishMemoryCuration, FinishRun, ProveBlockCheckpoint,
      RecordTests;
    BlockIs(w, b);
    RaisingAsks(w, Exhausted("block attempts", failure));
  }

  /** Staying inside, by components, is what the two change checks ask for. */
  lemma OutsideMeans(changes: ChangeRecord)
    ensures StaysOrClaims(changes.allowed, changes) <==>
              (changes.Outside() ==> changes.approvedDeviation.Some?)
  {
    hide Inside, Within;
    forall p | p in changes.changedPaths
      ensures Within(p, changes.allowed) <==> exists dir :: dir in changes.allowed && Inside(p, dir)
    {
      WithinMeans(p, changes.allowed);
    }
  }

  lemma CodeApprovalMeans(b: Block, audit: AuditRecord, changes: ChangeRecord, risk: RiskClass)
    ensures b.(codeAudit := Some(audit), codeChanges := Some(changes), riskClass := Some(risk)).CodeApprovalHolds() <==>
              && OwnVerdict(audit, CodeAuditor)
              && b.tests.Some? && b.tests.value.passed && b.tests.value.state == audit.auditedState
              && changes.allowed == b.spec.scope && StaysOrClaims(b.spec.scope, changes)
  {
    hide ChangeRecord.Outside, StaysOrClaims;
    OutsideMeans(changes);
  }

  lemma ApproveDecided(w: WorkOrder, b: Block, audit: AuditRecord, changes: ChangeRecord, current: StateIdentity)
    requires Good(w) && w.status == Executing && b in w.blocks
    ensures Decided(w, b, Approve(audit, changes, current))
  {
    hide ProfileRefused, Good, CheckProfile, Bound, RaiseAttention, UpdateBlock, FindBlock, Asked, GapEvidence,
      WithProfile, Block.CodeApprovalHolds, OwnVerdict, StaysOrClaims, Independent, UnmetRecordedGaps,
      ProducersOf, ApprovedRisk, ApproveMemory, BeginAttempt, BeginMemoryCuration, EnterBlockCheckpoint,
      FailAttempt, FinishMemoryCuration, FinishRun, ProveBlockCheckpoint, RecordTests;
    BlockIs(w, b);
    ProfileRefusalIsTrue(w, audit.role, audit.auditor, None, None);
    BoundMeans(w, audit.role, audit.auditor, None, None);
    CodeApprovalMeans(b, audit, changes, ApprovedRisk(w));
    var producers := ProducersOf(b.attempts, {PrimaryCodeExecutor});
    NoGapsMeansIndependent(w.executionProfile.policy.Required(ApprovedRisk(w)), audit, producers,
                           WaivedIndependence(w.attention));
    var gaps := RecordedGaps(w, ApprovedRisk(w), audit, producers);
    RaisingAsks(w, AttentionReason(IndependenceUnavailable, Blocking, "auditor independence cannot be met",
                                   GapEvidence(gaps), []));
  }

  lemma FinishCurationDecided(w: WorkOrder, b: Block, changes: ChangeRecord)
    requires Good(w) && w.status == Executing && b in w.blocks
    ensures Decided(w, b, FinishCuration(changes))
  {
    hide Good, RaiseAttention, UpdateBlock, FindBlock, Asked, ChangeRecord.Outside, StaysOrClaims, ClaimTrue,
      RecordDeviation, ApproveCode, ApproveMemory, BeginAttempt, BeginMemoryCuration, EnterBlockCheckpoint,
      FailAttempt, FinishRun, ProveBlockCheckpoint, RecordTests;
    BlockIs(w, b);
    OutsideMeans(changes);
    var c := b.(status := MemoryAudit, memoryChanges := Some(changes));
    var d := Deviation(AutoDeviation(|w.deviations| + 1), Some(b.spec.blockId), true,
                       "memory curation changed paths outside memory_paths", changes.evidence, None);
    assert RequireApprovedDeviation(w, b.spec.blockId, changes) == Holds <==>
           ClaimTrue(w.deviations, b.spec.blockId, changes) by {
      ClaimIsGuard(w, b.spec.blockId, changes);
    }
    DeviationAsks(w, w.(blocks := UpdateBlock(w.blocks, c)), d);
    assert c.spec == b.spec && c.status == MemoryAudit && Holding(b, FinishCuration(changes), ApprovedRisk(w), c);
  }

  lemma ClaimIsGuard(w: WorkOrder, id: Identifier, changes: ChangeRecord)
    ensures RequireApprovedDeviation(w, id, changes) == Holds <==> ClaimTrue(w.deviations, id, changes)
  {
  }

  /** A material deviation is recorded and asked about, whatever else the step changed. */
  lemma DeviationAsks(w: WorkOrder, mid: WorkOrder, d: Deviation)
    requires Good(w) && w.status in ATTENTION_SOURCES && mid.status == w.status && mid.attention == w.attention
    requires d.approvedBy.None? && d.material
    ensures RecordDeviation(mid, d).Ok?
    ensures var next := RecordDeviation(mid, d).value;
            && next == mid.(deviations := mid.deviations + [d], status := next.status, attention := next.attention)
            && Asked(w, next, MaterialDeviation)
  {
    hide Good, RaiseAttention, Asked;
    RaisingAsks(w, AttentionReason(MaterialDeviation, Blocking, d.summary, [d.evidence], []));
  }

  lemma MemoryApprovalMeans(b: Block, audit: AuditRecord)
    requires b.spec.memoryImpact
    ensures b.(memoryAudit := Some(audit)).MemoryApprovalHolds() <==>
              OwnVerdict(audit, MemoryAuditor) && b.memoryChanges.Some?
                && StaysOrClaims(b.memoryChanges.value.allowed, b.memoryChanges.value)
  {
    hide ChangeRecord.Outside, StaysOrClaims;
    if b.memoryChanges.Some? {
      OutsideMeans(b.memoryChanges.value);
    }
  }

  /** What the states of a good record's block imply for its approval. */
  lemma ApprovalFacts(w: WorkOrder, b: Block)
    requires Good(w) && b in w.blocks
    ensures b.status == CodeApproved ==> b.codeAudit.Some?
    ensures b.status == MemoryAudit ==> b.spec.memoryImpact && b.riskClass.Some?
    ensures b.status == BlockCheckpoint ==> b.codeAudit.Some? && (b.spec.memoryImpact ==> b.memoryAudit.Some?)
  {
    hide InOrder, BlockRecorded;
  }

  lemma ApproveCurationDecided(w: WorkOrder, b: Block, audit: AuditRecord, current: StateIdentity)
    requires Good(w) && w.status == Executing && b in w.blocks
    ensures Decided(w, b, ApproveCuration(audit, current))
  {
    hide ProfileRefused, Good, CheckProfile, Bound, RaiseAttention, UpdateBlock, FindBlock, Asked, GapEvidence,
      WithProfile, Block.MemoryApprovalHolds, OwnVerdict, StaysOrClaims, Independent, UnmetRecordedGaps,
      ProducersOf, ApproveCode, BeginAttempt, BeginMemoryCuration, EnterBlockCheckpoint, FailAttempt,
      FinishMemoryCuration, FinishRun, ProveBlockCheckpoint, RecordTests;
    BlockIs(w, b);
    ApprovalFacts(w, b);
    ProfileRefusalIsTrue(w, audit.role, audit.auditor, None, None);
    BoundMeans(w, audit.role, audit.auditor, None, None);
    if b.status == MemoryAudit {
      MemoryApprovalMeans(b, audit);
      var risk, producers := b.riskClass.value, ProducersOf(b.attempts, {MemoryCurator});
      NoGapsMeansIndependent(w.executionProfile.policy.Required(risk), audit, producers,
                             WaivedIndependence(w.attention));
      var gaps := RecordedGaps(w, risk, audit, producers);
      RaisingAsks(w, AttentionReason(IndependenceUnavailable, Blocking, "auditor independence cannot be met",
                                     GapEvidence(gaps), []));
    }
  }

  lemma ProveDecided(w: WorkOrder, b: Block, proof: CheckpointProof)
    requires Good(w) && w.status == Executing && b in w.blocks
    ensures Decided(w, b, ProveCheckpoint(proof))
  {
    hide Good, RaiseAttention, UpdateBlock, FindBlock, Asked, ApproveCode, ApproveMemory, BeginAttempt,
      BeginMemoryCuration, EnterBlockCheckpoint, FailAttempt, FinishMemoryCuration, FinishRun, RecordTests;
    BlockIs(w, b);
    ApprovalFacts(w, b);
    RaisingAsks(w, AttentionReason(BlockCheckpointMismatch, Blocking, "not the audited block state", [proof.evidence],
                                   []));
  }

  /** Every move on a block of a record at work: refused, asked about or carried out, exactly when it should be. */
  lemma MoveDecided(w: WorkOrder, b: Block, move: BlockMove)
    requires Good(w) && w.status == Executing && b in w.blocks
    ensures Decided(w, b, move)
  {
    hide Decided, Good;
    match move
    case Begin(profile, condition, proof) => BeginDecided(w, b, profile, condition, proof);
    case BeginCuration(profile, condition, proof) => CurationDecided(w, b, profile, condition, proof);
    case Approve(audit, changes, current) => ApproveDecided(w, b, audit, changes, current);
    case FinishCuration(changes) => FinishCurationDecided(w, b, changes);
    case ApproveCuration(audit, current) => ApproveCurationDecided(w, b, audit, current);
    case ProveCheckpoint(proof) => ProveDecided(w, b, proof);
    case Fail(failure) => FailDecided(w, b, failure);
    case _ => RunDecided(w, b, move);
  }

  /** No move is accepted on a block the record does not have, or in another state of the record. */
  lemma NoMoveElsewhere(w: WorkOrder, id: Identifier, move: BlockMove)
    requires w.status != Executing || forall b :: b in w.blocks ==> b.spec.blockId != id
    ensures Move(w, id, move).Err? && Move(w, id, move).error in {Rejected("illegal_state"), Rejected("unknown_block")}
  {
    hide UpdateBlock;
  }
}
