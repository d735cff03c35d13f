/**
 The WorkOrder and ImplementationBlock transitions.

 Each function takes a record and observations made elsewhere, and returns the new record or the
 rejection. A transition is its guards and its update only: the validators of ControlModel are not
 run here, so that what the guards alone establish can be stated and proved.
 */
module ControlMachine {
  import opened Prelude
  import opened ControlModel

  /** A refusal with its code, or an exception the source does not turn into a refusal. */
  datatype Rejection = Rejected(code: string) | Unhandled(kind: string)

  type Transition = Result<WorkOrder, Rejection>

  datatype Guard = Holds | Fails(rejection: Rejection) {
    predicate IsFailure() {
      Fails?
    }

    function PropagateFailure<T>(): Result<T, Rejection>
      requires Fails?
    {
      Err(rejection)
    }
  }

  function Require(condition: bool, code: string): Guard {
    if condition then Holds else Fails(Rejected(code))
  }

  function RequireStatus(w: WorkOrder, allowed: set<WorkOrderStatus>): Guard {
    Require(w.status in allowed, "illegal_state")
  }

  // --- WorkOrder lifecycle ---

  /** A draft that carries the given profile for good, unless it is amended. */
  function CreateWorkOrder(workOrderId: Identifier, projectId: Identifier, objective: string,
                           memoryPaths: seq<string>, executionProfile: ProjectExecutionProfile): WorkOrder
  {
    WorkOrder(workOrderId, 0, projectId, objective, memoryPaths, executionProfile, Draft, None, None, [], [], None,
              [], [], [], [], None, [], None, None, [], [])
  }

  function StartIntake(w: WorkOrder, acceptedBaseline: CommitSha): Transition {
    var started := w.(status := ContextIntake, plannedBaseline := Some(acceptedBaseline));
    :- RequireStatus(w, {Draft});
    Ok(started)
  }

  function ProposePlan(w: WorkOrder, plan: PlanVersion): Transition {
    var proposed := w.(status := PlanProposed, planVersions := w.planVersions + [plan]);
    :- RequireStatus(w, {ContextIntake, PlanProposed});
    :- Require(plan.version == |w.planVersions| + 1, "plan_version");
    Ok(proposed)
  }

  /**
   The approval itself, before the bound auditors are judged: finished blocks stay, other blocks
   start over, and blocks that left evidence are kept aside.
   */
  function ApprovePlanOnly(w: WorkOrder, planVersion: nat, approvedBy: string): Transition {
    var latest := |w.planVersions|;
    :- RequireStatus(w, {PlanProposed});
    :- Require(planVersion == latest, "plan_version");
    :- Require(w.approvals == [] || planVersion > w.approvals[|w.approvals| - 1].planVersion, "plan_version");
    if planVersion == 0 then Err(Unhandled("IndexError"))
    else
      var plan := w.planVersions[planVersion - 1];
      :- Require(DoneBlocksIn(w.blocks, plan.blocks), "replan_changes_done_block");
      Ok(w.(status := PlanApproved,
            approvals := w.approvals + [PlanApproval(planVersion, w.executionProfile.version, approvedBy)],
            budget := if w.budget.Some? then w.budget else Some(plan.budget),
            blocks := PlannedBlocks(w.blocks, plan.blocks),
            supersededBlocks := w.supersededBlocks + Superseded(w.blocks)))
  }

  predicate DoneBlocksIn(blocks: seq<Block>, specs: seq<BlockSpec>) {
    forall b :: b in blocks && b.IsDone() ==> b.spec in specs
  }

  function PlannedBlocks(blocks: seq<Block>, specs: seq<BlockSpec>): (planned: seq<Block>)
    ensures |planned| == |specs|
  {
    seq(|specs|, i requires 0 <= i < |specs| => PlannedBlock(blocks, specs[i]))
  }

  /** The finished block with this specification, or a new pending one. */
  function PlannedBlock(blocks: seq<Block>, spec: BlockSpec): Block {
    if blocks == [] then NewBlock(spec)
    else if blocks[|blocks| - 1].IsDone() && blocks[|blocks| - 1].spec == spec then blocks[|blocks| - 1]
    else PlannedBlock(blocks[..|blocks| - 1], spec)
  }

  function Superseded(blocks: seq<Block>): seq<Block> {
    if blocks == [] then []
    else
      var b := blocks[|blocks| - 1];
      Superseded(blocks[..|blocks| - 1]) + if !b.IsDone() && (b.attempts != [] || b.tests.Some?) then [b] else []
  }

  /** The user approves the latest plan; a gap of the bound auditors goes to the user. */
  function ApprovePlan(w: WorkOrder, planVersion: nat, approvedBy: string): Transition {
    var approved :- ApprovePlanOnly(w, planVersion, approvedBy);
    var gaps := PlanGaps(approved, w.planVersions[planVersion - 1]);
    if gaps == [] then Ok(approved) else IndependenceAttention(approved, gaps)
  }

  function PlanGaps(approved: WorkOrder, plan: PlanVersion): seq<Gap> {
    var memory := exists s :: s in plan.blocks && s.memoryImpact;
    PlanRoleGaps(approved, plan.riskClass, CodeAuditor, memory)
    + PlanRoleGaps(approved, plan.riskClass, MemoryAuditor, memory)
    + PlanRoleGaps(approved, plan.riskClass, FinalVerifier, memory)
  }

  function PlanRoleGaps(w: WorkOrder, risk: RiskClass, role: Role, memory: bool): seq<Gap> {
    var auditor := BoundPrimary(w.executionProfile, role);
    var producers := set r | r in AuditedProducers(role) && (r != MemoryCurator || memory)
                             && BoundPrimary(w.executionProfile, r).Some? :: BoundPrimary(w.executionProfile, r).value;
    if auditor.Some? && producers != {} then Gaps(w, risk, role, auditor.value, producers) else []
  }

  function RejectPlan(w: WorkOrder): Transition {
    var rejected := w.(status := Aborted);
    :- RequireStatus(w, {PlanProposed});
    Ok(rejected)
  }

  predicate Drifted(w: WorkOrder, acceptedBaseline: CommitSha) {
    Some(acceptedBaseline) != w.plannedBaseline
  }

  function DriftReason(acceptedBaseline: CommitSha): AttentionReason {
    AttentionReason(BaselineDrift, Blocking, "accepted state moved",
                    [Reference("broker_accepted_state", acceptedBaseline)], [])
  }

  function AttachCandidate(w: WorkOrder, candidate: Candidate, acceptedBaseline: CommitSha): Transition {
    var drifted := Drifted(w, acceptedBaseline);
    :- RequireStatus(w, {PlanApproved});
    :- Require(w.candidate.None?, "candidate");
    if drifted then RaiseAttention(w, [DriftReason(acceptedBaseline)], None)
    else
      :- Require(Some(candidate.baseCommit) == w.plannedBaseline, "candidate_base");
      Ok(w.(candidate := Some(candidate)))
  }

  function StartExecution(w: WorkOrder, acceptedBaseline: CommitSha): Transition {
    var drifted := Drifted(w, acceptedBaseline);
    :- RequireStatus(w, {PlanApproved});
    :- Require(w.candidate.Some?, "candidate");
    if drifted then RaiseAttention(w, [DriftReason(acceptedBaseline)], None)
    else Ok(w.(status := Executing))
  }

  function EnterFinalVerification(w: WorkOrder, acceptedBaseline: CommitSha): Transition {
    var drifted := Drifted(w, acceptedBaseline);
    :- RequireStatus(w, {Executing});
    :- Require(forall b :: b in w.blocks ==> b.IsDone(), "blocks_not_done");
    if drifted then RaiseAttention(w, [DriftReason(acceptedBaseline)], None)
    else Ok(w.(status := FinalVerification))
  }

  function RecordFinalAudit(w: WorkOrder, audit: AuditRecord): Transition {
    var writers := Writers(w.blocks + w.supersededBlocks);
    :- RequireStatus(w, {FinalVerification});
    :- Require(audit.role == FinalVerifier, "role");
    :- CheckProfile(w, audit.role, audit.auditor, None, None);
    var gaps := RecordedGaps(w, ApprovedRisk(w), audit, writers);
    if gaps != [] then IndependenceAttention(w, gaps)
    else Ok(Use(w, audit.auditor.fingerprint).(finalAudit := Some(audit)))
  }

  /** The risk class of the approved plan. */
  function ApprovedRisk(w: WorkOrder): RiskClass {
    if w.approvals == [] then Low else PlanAt(w.planVersions, w.approvals[|w.approvals| - 1].planVersion).riskClass
  }

  function RecordKernelOutcome(w: WorkOrder, outcome: KernelOutcome): Transition {
    var evidence := w.evidence + [outcome.evidence];
    :- RequireStatus(w, {FinalVerification});
    if outcome.IsPromoted() then
      :- Require(w.finalAudit.Some? && w.finalAudit.value.Authoritative(), "final_audit");
      Ok(w.(status := Promoted, outcome := Some(outcome), evidence := evidence))
    else
      var reason := AttentionReason(PromotionRefused, Blocking, outcome.reason, [outcome.evidence], []);
      var escalated :- RaiseAttention(w, [reason], None);
      Ok(escalated.(outcome := Some(outcome), evidence := escalated.evidence + [outcome.evidence]))
  }

  // --- Attention and user decisions ---

  function OpenRequest(attention: seq<AttentionRequest>): (r: Option<AttentionRequest>)
    ensures r.Some? ==> r.value in attention && !r.value.closed
    ensures r.None? ==> forall a :: a in attention ==> a.closed
  {
    if attention == [] then None
    else if !attention[0].closed then Some(attention[0])
    else OpenRequest(attention[1..])
  }

  /** Open a request and stop for the user, or widen the request that is already open. */
  function RaiseAttention(w: WorkOrder, reasons: seq<AttentionReason>, id: Option<AttentionId>): Transition {
    var current := OpenRequest(w.attention);
    :- Require(reasons != [], "reasons");
    if current.Some? then
      var codes := set r | r in reasons :: r.code;
      var updated := current.value.(reasons := MergeReasons(current.value.reasons, reasons),
                                    resolved := current.value.resolved - codes);
      Ok(w.(attention := ReplaceRequest(w.attention, updated)))
    else
      :- Require(w.status in ATTENTION_SOURCES, "illegal_state");
      var request := AttentionRequest(if id.Some? then id.value else AutoAttention(|w.attention| + 1), w.status,
                                      LastByCode(reasons), {}, [], false);
      Ok(w.(status := UserAttentionRequired, attention := w.attention + [request]))
  }

  /** The position of the reason with this code, or the length if there is none. */
  function CodeIndex(reasons: seq<AttentionReason>, code: AttentionCode): (k: nat)
    ensures k <= |reasons|
    ensures k < |reasons| ==> reasons[k].code == code
    ensures k == |reasons| ==> forall r :: r in reasons ==> r.code != code
  {
    if reasons == [] then 0
    else if reasons[0].code == code then 0
    else CodeIndex(reasons[1..], code) + 1
  }

  /** A reason with a known code only adds its evidence and suggestions to the one there. */
  function MergeReason(reasons: seq<AttentionReason>, r: AttentionReason): seq<AttentionReason> {
    var k := CodeIndex(reasons, r.code);
    if k == |reasons| then reasons + [r]
    else
      reasons[k := reasons[k].(evidence := reasons[k].evidence + r.evidence,
                               suggestions := reasons[k].suggestions + r.suggestions)]
  }

  function MergeReasons(reasons: seq<AttentionReason>, added: seq<AttentionReason>): seq<AttentionReason>
    decreases |added|
  {
    if added == [] then reasons else MergeReasons(MergeReason(reasons, added[0]), added[1..])
  }

  /** A dictionary of the reasons by code: each stands where its code came first and says what came last. */
  function LastByCode(reasons: seq<AttentionReason>): seq<AttentionReason> {
    if reasons == [] then []
    else
      var n := |reasons| - 1;
      var kept := LastByCode(reasons[..n]);
      var k := CodeIndex(kept, reasons[n].code);
      if k == |kept| then kept + [reasons[n]] else kept[k := reasons[n]]
  }

  function ReplaceRequest(attention: seq<AttentionRequest>, request: AttentionRequest): (result: seq<AttentionRequest>)
    ensures |result| == |attention|
    ensures forall i :: 0 <= i < |result| ==>
              result[i] == if attention[i].id == request.id then request else attention[i]
  {
    seq(|attention|, i requires 0 <= i < |attention| =>
      if attention[i].id == request.id then request else attention[i])
  }

  /** One answer of the user: it is noted on the open request, and its action is carried out. */
  function Decide(w: WorkOrder, decision: UserDecision, amendment: Option<Amendment>,
                  acceptedBaseline: Option<CommitSha>): Transition
  {
    var open := OpenRequest(w.attention);
    :- RequireStatus(w, {UserAttentionRequired});
    if open.None? then Err(Unhandled("AssertionError"))
    else
      var known := set r | r in open.value.reasons :: r.code;
      :- Require(decision.waived <= known, "waiver");
      var request := open.value.(decisions := open.value.decisions + [decision]);
      var approved :- ApproveDeviations(w, decision);
      if decision.action in {ChangeAgentAction, ChangeBudgetAction} then Amend(approved, request, decision, amendment)
      else
        :- Require(amendment.None?, "amendment");
        match decision.action
        case Resume => ResumeDecision(approved, request, acceptedBaseline)
        case Replan => Ok(Close(approved, request, PlanProposed, None))
        case Defer => Ok(Close(approved, request, Deferred, Some(request.raisedFrom)))
        case _ => Ok(Close(approved, request, Aborted, None))
  }

  /** The states whose re-entry rechecks the accepted baseline. */
  const BASELINE_BOUND := {PlanApproved, Executing, FinalVerification}

  function ResumeDecision(w: WorkOrder, request: AttentionRequest, acceptedBaseline: Option<CommitSha>): Transition {
    var target := request.raisedFrom;
    :- Require(request.Unblocked(), "unresolved_reasons");
    if target in BASELINE_BOUND then
      :- Require(acceptedBaseline.Some?, "baseline");
      if Drifted(w, acceptedBaseline.value) then
        RaiseAttention(w.(attention := ReplaceRequest(w.attention, request)), [DriftReason(acceptedBaseline.value)],
                       None)
      else Ok(Close(w, request, target, None))
    else Ok(Close(w, request, target, None))
  }

  /** The request is closed and the status leaves attention together. */
  function Close(w: WorkOrder, request: AttentionRequest, target: WorkOrderStatus,
                 deferredFrom: Option<WorkOrderStatus>): WorkOrder
  {
    w.(status := target, attention := ReplaceRequest(w.attention, request.(closed := true)),
       deferredFrom := if target == Deferred then deferredFrom else w.deferredFrom)
  }

  /** The answer that replaces the profile or the budget; the request stays open. */
  function Amend(w: WorkOrder, request: AttentionRequest, decision: UserDecision,
                 amendment: Option<Amendment>): Transition
  {
    var active := set r | r in request.reasons :: r.code;
    :- Require(amendment.Some?
               && (amendment.value.ChangeAgent? <==> decision.action == ChangeAgentAction), "amendment");
    :- Require(amendment.value.attentionId == request.id, "amendment");
    var amended :- Amended(w, amendment.value);
    var answered := request.(resolved := request.resolved + ResolvedBy(amendment.value) * active);
    Ok(amended.(attention := ReplaceRequest(amended.attention, answered)))
  }

  /** The envelope change, before the request is updated. */
  function Amended(w: WorkOrder, amendment: Amendment): Transition {
    match amendment
    case ChangeAgent(_, profile, _) =>
      :- Require(profile.projectId == w.projectId && profile.version > w.executionProfile.version, "profile_version");
      Ok(w.(amendments := w.amendments + [amendment], executionProfile := profile))
    case ChangeBudget(_, newBudget, _) =>
      Ok(w.(amendments := w.amendments + [amendment], budget := Some(newBudget), blocks := ResetCounters(w.blocks)))
  }

  function ResolvedBy(amendment: Amendment): set<AttentionCode> {
    if amendment.ChangeAgent? then {AgentUnavailable, IndependenceUnavailable} else {BudgetExhausted, AttemptsExhausted}
  }

  /** Every unfinished block counts its attempts from zero again. */
  function ResetCounters(blocks: seq<Block>): (reset: seq<Block>)
    ensures |reset| == |blocks|
    ensures forall i :: 0 <= i < |blocks| ==>
              reset[i] == if blocks[i].IsDone() then blocks[i]
                else blocks[i].(failedAttempts := 0, curationAttempts := 0)
  {
    seq(|blocks|, i requires 0 <= i < |blocks| =>
      if blocks[i].IsDone() then blocks[i] else blocks[i].(failedAttempts := 0, curationAttempts := 0))
  }

  function ApproveDeviations(w: WorkOrder, decision: UserDecision): Transition {
    if decision.approvedDeviations == {} then Ok(w)
    else
      var ids := set d | d in w.deviations :: d.id;
      :- Require(decision.approvedDeviations <= ids, "deviation");
      Ok(w.(deviations := WithApprovals(w.deviations, decision)))
  }

  function WithApprovals(deviations: seq<Deviation>, decision: UserDecision): (result: seq<Deviation>)
    ensures |result| == |deviations|
  {
    seq(|deviations|, i requires 0 <= i < |deviations| =>
      if deviations[i].id in decision.approvedDeviations && deviations[i].approvedBy.None? then
        deviations[i].(approvedBy := Some(decision.actor))
      else deviations[i])
  }

  function ResumeDeferred(w: WorkOrder, acceptedBaseline: CommitSha): Transition {
    var deferredFrom := w.deferredFrom;
    :- RequireStatus(w, {Deferred});
    if deferredFrom.None? then Err(Unhandled("ValidationError"))
    else
      var target := deferredFrom.value;
      var resumed := w.(status := target, deferredFrom := None);
      if target in BASELINE_BOUND && Drifted(w, acceptedBaseline) then
        RaiseAttention(resumed, [DriftReason(acceptedBaseline)], None)
      else Ok(resumed)
  }

  function RecordDeviation(w: WorkOrder, deviation: Deviation): Transition {
    var recorded := w.(deviations := w.deviations + [deviation]);
    :- Require(w.status !in TERMINAL, "illegal_state");
    :- Require(deviation.approvedBy.None?, "deviation");
    if !deviation.material then Ok(recorded)
    else
      RaiseAttention(recorded,
                     [AttentionReason(MaterialDeviation, Blocking, deviation.summary, [deviation.evidence], [])], None)
  }

  // --- Profiles ---

  function CheckProfile(w: WorkOrder, role: Role, profile: ProfileRef, condition: Option<FallbackCondition>,
                        evidence: Option<EvidenceRef>): Guard
  {
    var binding := w.executionProfile.Binding(role);
    if binding.None? then Fails(Rejected("role_unbound"))
    else if profile == binding.value.primary then Require(condition.None?, "fallback")
    else if profile !in binding.value.fallbacks then Fails(Rejected("profile_not_bound"))
    else
      Require(condition.Some? && condition.value in binding.value.conditions && evidence.Some?, "fallback_condition")
  }

  /** Note a profile as used, once. */
  function Use(w: WorkOrder, profile: Profile): WorkOrder {
    w.(usedProfiles := WithProfile(w.usedProfiles, profile))
  }

  function WithProfile(used: seq<Profile>, profile: Profile): seq<Profile> {
    if profile in used then used else used + [profile]
  }

  // --- Auditor independence ---

  function BoundPrimary(p: ProjectExecutionProfile, role: Role): Option<Profile> {
    var binding := p.Binding(role);
    if binding.None? then None else Some(binding.value.primary.fingerprint)
  }

  /** The requirements an auditor does not meet and the user has not waived. */
  function Gaps(w: WorkOrder, risk: RiskClass, role: Role, auditor: Profile, producers: set<Profile>): seq<Gap> {
    UnmetGaps(w.executionProfile.policy.Required(risk), role, auditor, producers, WaivedIndependence(w.attention))
  }

  function UnmetGaps(required: seq<Requirement>, role: Role, auditor: Profile, producers: set<Profile>,
                     waived: set<Gap>): seq<Gap>
  {
    if required == [] then []
    else
      var rest := UnmetGaps(required[1..], role, auditor, producers, waived);
      if Meets(required[0], auditor, producers) || Gap(role, required[0]) in waived then rest
      else [Gap(role, required[0])] + rest
  }

  /** As Gaps, for a recorded audit. */
  function RecordedGaps(w: WorkOrder, risk: RiskClass, audit: AuditRecord, producers: set<Profile>): seq<Gap> {
    UnmetRecordedGaps(w.executionProfile.policy.Required(risk), audit, producers, WaivedIndependence(w.attention))
  }

  function UnmetRecordedGaps(required: seq<Requirement>, audit: AuditRecord, producers: set<Profile>,
                             waived: set<Gap>): seq<Gap>
  {
    if required == [] then []
    else
      var rest := UnmetRecordedGaps(required[1..], audit, producers, waived);
      if MeetsRecorded(required[0], audit, audit.auditor.fingerprint, producers)
        || Gap(audit.role, required[0]) in waived then rest
      else [Gap(audit.role, required[0])] + rest
  }

  function IndependenceAttention(w: WorkOrder, gaps: seq<Gap>): Transition {
    RaiseAttention(w, [AttentionReason(IndependenceUnavailable, Blocking, "auditor independence cannot be met",
                                       GapEvidence(gaps), [])], None)
  }

  function GapEvidence(gaps: seq<Gap>): (evidence: seq<EvidenceRef>)
    ensures |evidence| == |gaps|
  {
    seq(|gaps|, i requires 0 <= i < |gaps| => IndependenceGap(gaps[i]))
  }

  /** The gaps that a producer would open for the auditors now bound to judge its output. */
  function ProducerGaps(w: WorkOrder, producerRole: Role, producer: Profile): seq<Gap> {
    ProducerRoleGaps(w, CodeAuditor, producerRole, producer)
    + ProducerRoleGaps(w, MemoryAuditor, producerRole, producer)
    + ProducerRoleGaps(w, FinalVerifier, producerRole, producer)
  }

  function ProducerRoleGaps(w: WorkOrder, role: Role, producerRole: Role, producer: Profile): seq<Gap> {
    var auditor := BoundPrimary(w.executionProfile, role);
    if producerRole in AuditedProducers(role) && auditor.Some? then
      Gaps(w, ApprovedRisk(w), role, auditor.value, {producer})
    else []
  }

  // --- Blocks ---

  function UpdateBlock(blocks: seq<Block>, block: Block): (result: seq<Block>)
    ensures |result| == |blocks|
    ensures forall i :: 0 <= i < |blocks| ==>
              result[i] == if blocks[i].spec.blockId == block.spec.blockId then block else blocks[i]
  {
    seq(|blocks|, i requires 0 <= i < |blocks| =>
      if blocks[i].spec.blockId == block.spec.blockId then block else blocks[i])
  }

  function FindBlock(blocks: seq<Block>, id: Identifier): (b: Option<Block>)
    ensures b.Some? ==> b.value in blocks && b.value.spec.blockId == id
    ensures b.None? ==> forall x :: x in blocks ==> x.spec.blockId != id
  {
    if blocks == [] then None
    else if blocks[0].spec.blockId == id then Some(blocks[0])
    else FindBlock(blocks[1..], id)
  }

  function BlockIn(w: WorkOrder, id: Identifier, allowed: set<BlockStatus>): Result<Block, Rejection> {
    var block := FindBlock(w.blocks, id);
    :- RequireStatus(w, {Executing});
    :- Require(block.Some?, "unknown_block");
    :- Require(block.value.status in allowed, "illegal_block_state");
    Ok(block.value)
  }

  predicate AttemptsLeft(budget: Option<Budget>, used: nat) {
    budget.Some? && used < budget.value.maxAttemptsPerBlock
  }

  function Exhausted(summary: string, evidence: EvidenceRef): AttentionReason {
    AttentionReason(AttemptsExhausted, Blocking, summary, [evidence], [])
  }

  /** A code attempt on the first unfinished block, if attempts are left and no auditor is in the way. */
  function BeginAttempt(w: WorkOrder, id: Identifier, profile: ProfileRef, condition: Option<FallbackCondition>,
                        evidence: Option<EvidenceRef>): Transition
  {
    var block :- BlockIn(w, id, {Pending});
    :- Require(forall b :: b in w.blocks && b.spec.order < block.spec.order ==> b.IsDone(), "block_order");
    if !AttemptsLeft(w.budget, block.failedAttempts) then
      RaiseAttention(w, [Exhausted("block attempts", Reference("block", id))], None)
    else
      :- CheckProfile(w, PrimaryCodeExecutor, profile, condition, evidence);
      var gaps := ProducerGaps(w, PrimaryCodeExecutor, profile.fingerprint);
      if gaps != [] then IndependenceAttention(w, gaps)
      else
        var attempt := AttemptRecord(PrimaryCodeExecutor, profile, condition, evidence);
        var started := block.(status := Running, attempts := block.attempts + [attempt], tests := None,
                              codeAudit := None, codeChanges := None);
        Ok(Use(w, profile.fingerprint).(blocks := UpdateBlock(w.blocks, started)))
  }

  function FinishRun(w: WorkOrder, id: Identifier): Transition {
    var block :- BlockIn(w, id, {Running});
    Ok(w.(blocks := UpdateBlock(w.blocks, block.(status := Testing))))
  }

  function RecordTests(w: WorkOrder, id: Identifier, tests: TestRecord): Transition {
    var block :- BlockIn(w, id, {Testing});
    Ok(w.(blocks := UpdateBlock(w.blocks, block.(status := BlockResult, tests := Some(tests)))))
  }

  /** An audit, a change record and the tests together approve the code they all describe. */
  function ApproveCode(w: WorkOrder, id: Identifier, audit: AuditRecord, changes: ChangeRecord,
                       currentState: StateIdentity): Transition
  {
    var block :- BlockIn(w, id, {BlockResult});
    :- CheckProfile(w, audit.role, audit.auditor, None, None);
    :- Require(audit.auditedState == currentState, "state_changed_since_audit");
    :- RequireApprovedDeviation(w, id, changes);
    var risk := ApprovedRisk(w);
    var candidate := block.(codeAudit := Some(audit), codeChanges := Some(changes), riskClass := Some(risk));
    :- Require(candidate.CodeApprovalHolds(), "code_not_approved");
    var gaps := RecordedGaps(w, risk, audit, ProducersOf(block.attempts, {PrimaryCodeExecutor}));
    if gaps != [] then IndependenceAttention(w, gaps)
    else Ok(Use(w, audit.auditor.fingerprint).(blocks := UpdateBlock(w.blocks, candidate.(status := CodeApproved))))
  }

  function RequireApprovedDeviation(w: WorkOrder, id: Identifier, changes: ChangeRecord): Guard {
    Require(changes.approvedDeviation.None? ||
            exists d :: d in w.deviations && Some(d.id) == changes.approvedDeviation && d.blockId == Some(id)
              && d.approvedBy.Some?,
            "deviation")
  }

  /** The block starts over, and the user is asked when no attempt is left. */
  function FailAttempt(w: WorkOrder, id: Identifier, evidence: EvidenceRef): Transition {
    var block :- BlockIn(w, id, {Running, Testing, BlockResult});
    var failed := block.(status := Pending, failedAttempts := block.failedAttempts + 1, tests := None,
                         codeAudit := None, codeChanges := None);
    var updated := w.(evidence := w.evidence + [evidence], blocks := UpdateBlock(w.blocks, failed));
    if AttemptsLeft(w.budget, failed.failedAttempts) then Ok(updated)
    else RaiseAttention(updated, [Exhausted("block attempts", evidence)], None)
  }

  function BeginMemoryCuration(w: WorkOrder, id: Identifier, profile: ProfileRef, condition: Option<FallbackCondition>,
                               evidence: Option<EvidenceRef>): Transition
  {
    var block :- BlockIn(w, id, {CodeApproved, MemoryAudit});
    :- Require(block.spec.memoryImpact, "no_memory_impact");
    if !AttemptsLeft(w.budget, block.curationAttempts) then
      RaiseAttention(w, [Exhausted("memory curation", Reference("block", id))], None)
    else
      :- CheckProfile(w, MemoryCurator, profile, condition, evidence);
      var gaps := ProducerGaps(w, MemoryCurator, profile.fingerprint);
      if gaps != [] then IndependenceAttention(w, gaps)
      else
        var attempt := AttemptRecord(MemoryCurator, profile, condition, evidence);
        var again := if block.status == MemoryAudit then 1 else 0;
        var curating := block.(status := MemoryCuration, attempts := block.attempts + [attempt],
                               curationAttempts := block.curationAttempts + again, memoryChanges := None,
                               memoryAudit := None);
        Ok(Use(w, profile.fingerprint).(blocks := UpdateBlock(w.blocks, curating)))
  }

  /** The end of a curation; a change outside the memory paths becomes a deviation that stops for the user. */
  function FinishMemoryCuration(w: WorkOrder, id: Identifier, changes: ChangeRecord): Transition {
    var block :- BlockIn(w, id, {MemoryCuration});
    :- Require(changes.allowed == w.memoryPaths, "memory_paths");
    :- RequireApprovedDeviation(w, id, changes);
    var audited := w.(blocks := UpdateBlock(w.blocks, block.(status := MemoryAudit, memoryChanges := Some(changes))));
    if changes.Outside() && changes.approvedDeviation.None? then
      RecordDeviation(audited, Deviation(AutoDeviation(|w.deviations| + 1), Some(id), true,
                                         "memory curation changed paths outside memory_paths", changes.evidence, None))
    else Ok(audited)
  }

  function ApproveMemory(w: WorkOrder, id: Identifier, audit: AuditRecord, currentState: StateIdentity): Transition {
    var block :- BlockIn(w, id, {MemoryAudit});
    :- CheckProfile(w, audit.role, audit.auditor, None, None);
    :- Require(audit.auditedState == currentState, "state_changed_since_audit");
    var candidate := block.(memoryAudit := Some(audit));
    :- Require(candidate.MemoryApprovalHolds(), "memory_not_approved");
    if block.riskClass.None? then Err(Unhandled("TypeError"))
    else
      var gaps := RecordedGaps(w, block.riskClass.value, audit, ProducersOf(block.attempts, {MemoryCurator}));
      if gaps != [] then IndependenceAttention(w, gaps)
      else Ok(Use(w, audit.auditor.fingerprint).(blocks := UpdateBlock(w.blocks,
          candidate.(status := BlockCheckpoint))))
  }

  function EnterBlockCheckpoint(w: WorkOrder, id: Identifier, currentState: StateIdentity): Transition {
    var block :- BlockIn(w, id, {CodeApproved});
    :- Require(!block.spec.memoryImpact, "memory_impact");
    if block.ApprovingAudit().None? then Err(Unhandled("ValueError"))
    else
      :- Require(block.ApprovingAudit().value.auditedState == currentState, "state_changed_since_audit");
      Ok(w.(blocks := UpdateBlock(w.blocks, block.(status := BlockCheckpoint))))
  }

  /** A checkpoint either proves the approved state and finishes the block, or is kept as refused evidence. */
  function ProveBlockCheckpoint(w: WorkOrder, id: Identifier, proof: CheckpointProof): Transition {
    var block :- BlockIn(w, id, {BlockCheckpoint});
    if block.ApprovingAudit().None? then Err(Unhandled("ValueError"))
    else if proof.Proves(block.ApprovingAudit().value.auditedState) then
      Ok(w.(blocks := UpdateBlock(w.blocks, block.(status := BlockDone, checkpoint := Some(proof)))))
    else
      var kept := w.(blocks :=
                     UpdateBlock(w.blocks, block.(rejectedCheckpoints := block.rejectedCheckpoints + [proof])));
      RaiseAttention(kept, [AttentionReason(BlockCheckpointMismatch, Blocking, "not the audited block state",
                                            [proof.evidence], [])], None)
  }

  // --- One step of the machine ---

  datatype Step =
    | DoStartIntake(baseline: CommitSha)
    | DoProposePlan(plan: PlanVersion)
    | DoApprovePlan(planVersion: nat, approvedBy: string)
    | DoRejectPlan
    | DoAttachCandidate(attached: Candidate, baseline: CommitSha)
    | DoStartExecution(baseline: CommitSha)
    | DoEnterFinalVerification(baseline: CommitSha)
    | DoRecordFinalAudit(audit: AuditRecord)
    | DoRecordKernelOutcome(outcome: KernelOutcome)
    | DoRaiseAttention(reasons: seq<AttentionReason>, attentionId: Option<AttentionId>)
    | DoDecide(decision: UserDecision, amendment: Option<Amendment>, observed: Option<CommitSha>)
    | DoResumeDeferred(baseline: CommitSha)
    | DoRecordDeviation(deviation: Deviation)
    | DoBlock(block: Identifier, move: BlockMove)

  datatype BlockMove =
    | Begin(profile: ProfileRef, condition: Option<FallbackCondition>, proof: Option<EvidenceRef>)
    | Finish
    | Tests(tests: TestRecord)
    | Approve(audit: AuditRecord, changes: ChangeRecord, current: StateIdentity)
    | Fail(failure: EvidenceRef)
    | BeginCuration(profile: ProfileRef, condition: Option<FallbackCondition>, proof: Option<EvidenceRef>)
    | FinishCuration(changes: ChangeRecord)
    | ApproveCuration(audit: AuditRecord, current: StateIdentity)
    | EnterCheckpoint(current: StateIdentity)
    | ProveCheckpoint(checkpoint: CheckpointProof)

  function Take(w: WorkOrder, step: Step): Transition {
    match step
    case DoStartIntake(baseline) => StartIntake(w, baseline)
    case DoProposePlan(plan) => ProposePlan(w, plan)
    case DoApprovePlan(planVersion, approvedBy) => ApprovePlan(w, planVersion, approvedBy)
    case DoRejectPlan => RejectPlan(w)
    case DoAttachCandidate(candidate, baseline) => AttachCandidate(w, candidate, baseline)
    case DoStartExecution(baseline) => StartExecution(w, baseline)
    case DoEnterFinalVerification(baseline) => EnterFinalVerification(w, baseline)
    case DoRecordFinalAudit(audit) => RecordFinalAudit(w, audit)
    case DoRecordKernelOutcome(outcome) => RecordKernelOutcome(w, outcome)
    case DoRaiseAttention(reasons, id) => RaiseAttention(w, reasons, id)
    case DoDecide(decision, amendment, observed) => Decide(w, decision, amendment, observed)
    case DoResumeDeferred(baseline) => ResumeDeferred(w, baseline)
    case DoRecordDeviation(deviation) => RecordDeviation(w, deviation)
    case DoBlock(block, move) => Move(w, block, move)
  }

  function Move(w: WorkOrder, id: Identifier, move: BlockMove): Transition {
    match move
    case Begin(profile, condition, proof) => BeginAttempt(w, id, profile, condition, proof)
    case Finish => FinishRun(w, id)
    case Tests(tests) => RecordTests(w, id, tests)
    case Approve(audit, changes, current) => ApproveCode(w, id, audit, changes, current)
    case Fail(failure) => FailAttempt(w, id, failure)
    case BeginCuration(profile, condition, proof) => BeginMemoryCuration(w, id, profile, condition, proof)
    case FinishCuration(changes) => FinishMemoryCuration(w, id, changes)
    case ApproveCuration(audit, current) => ApproveMemory(w, id, audit, current)
    case EnterCheckpoint(current) => EnterBlockCheckpoint(w, id, current)
    case ProveCheckpoint(checkpoint) => ProveBlockCheckpoint(w, id, checkpoint)
  }
}
