/**
 Auditor independence. Transitions judge an audit against the producers known when it is recorded;
 the validators judge every recorded audit again on every write. The two agree on every step,
 except on work or policy that arrives after an audit it concerns, and there exactly when the new
 producer or the added requirement contradicts that audit.
 */
module ControlIndependence {
  import opened Prelude
  import opened ControlModel
  import opened ControlEvolution
  import opened ControlMachine
  import opened ControlInvariant
  import opened ControlRaise
  import opened ControlBlocks
  import opened ControlMoves
  import opened ControlApproval
  import opened ControlLifecycle
  import opened ControlDecide

  // --- The machine with its validators ---

  /** A step as its caller sees it: the transition, then every validator on what it built. */
  function Apply(w: WorkOrder, step: Step): Transition {
    var next :- Take(w, step);
    if AmendmentValid(w, step) && next.Valid() then Ok(next) else Err(Unhandled("ValidationError"))
  }

  /** An amended record is validated once before the request it answers is updated. */
  predicate AmendmentValid(w: WorkOrder, step: Step) {
    match step
    case DoDecide(decision, Some(amendment), _) =>
      var approved := ApproveDeviations(w, decision);
      approved.Ok? && Amended(approved.value, amendment).Ok? ==> Amended(approved.value, amendment).value.Valid()
    case _ => true
  }

  /** The recorded final audit, if any, is independent of these producers at this risk. */
  predicate FinalAuditMeets(w: WorkOrder, risk: RiskClass, producers: set<Profile>) {
    w.finalAudit.Some? ==>
      Independent(w.finalAudit.value, w.executionProfile.policy.Required(risk), producers,
                  WaivedIndependence(w.attention))
  }

  /** The step will start a run of this profile rather than escalate. */
  predicate Runs(w: WorkOrder, id: Identifier, role: Role, profile: Profile) {
    var block := FindBlock(w.blocks, id);
    && block.Some?
    && AttemptsLeft(w.budget, if role == PrimaryCodeExecutor then block.value.failedAttempts
                    else block.value.curationAttempts)
    && ProducerGaps(w, role, profile) == []
  }

  /** An audit meets the requirements that a new policy adds. */
  predicate MeetsAdded(audit: AuditRecord, before: seq<Requirement>, after: seq<Requirement>, producers: set<Profile>,
                       waived: set<Gap>)
  {
    forall r :: r in after && r !in before ==>
      MeetsRecorded(r, audit, audit.auditor.fingerprint, producers) || Gap(audit.role, r) in waived
  }

  predicate BlockMeetsAdded(b: Block, before: IndependencePolicy, after: IndependencePolicy, waived: set<Gap>) {
    b.riskClass.Some? ==>
      forall audit :: audit in ToSeq(b.codeAudit) + ToSeq(b.memoryAudit) ==>
        MeetsAdded(audit, before.Required(b.riskClass.value), after.Required(b.riskClass.value),
                   ProducersOf(b.attempts, AuditedProducers(audit.role)), waived)
  }

  /** Every recorded audit meets what a new policy adds to the old one. */
  predicate AddedRequirementsMet(w: WorkOrder, policy: IndependencePolicy) {
    && (forall b :: b in w.blocks ==>
        BlockMeetsAdded(b, w.executionProfile.policy, policy, WaivedIndependence(w.attention)))
    && (w.finalAudit.Some? ==>
          MeetsAdded(w.finalAudit.value, w.executionProfile.policy.Required(ApprovedRisk(w)),
                     policy.Required(ApprovedRisk(w)),
                     Writers(w.blocks + w.supersededBlocks), WaivedIndependence(w.attention)))
  }

  /** What a caller checks before a step so that no recorded audit is contradicted by it. */
  predicate Unspoiled(w: WorkOrder, step: Step) {
    match step
    case DoApprovePlan(n, _) =>
      FinalAuditMeets(w, PlanAt(w.planVersions, n).riskClass, Writers(w.blocks + w.supersededBlocks))
    case DoBlock(id, Begin(profile, _, _)) =>
      Runs(w, id, PrimaryCodeExecutor, profile.fingerprint) ==>
        FinalAuditMeets(w, ApprovedRisk(w), {profile.fingerprint})
    case DoBlock(id, BeginCuration(profile, _, _)) =>
      Runs(w, id, MemoryCurator, profile.fingerprint) ==> FinalAuditMeets(w, ApprovedRisk(w), {profile.fingerprint})
    case DoDecide(_, Some(ChangeAgent(_, profile, _)), _) => AddedRequirementsMet(w, profile.policy)
    case _ => true
  }

  // --- Independence as a property of sets of producers ---

  /** The machine's gap list is empty exactly when the validator finds the audit independent. */
  lemma {:induction false} NoGapsMeansIndependent(required: seq<Requirement>, audit: AuditRecord,
                                                  producers: set<Profile>, waived: set<Gap>)
    ensures UnmetRecordedGaps(required, audit, producers, waived) == [] <==>
            Independent(audit, required, producers, waived)
  {
    if required != [] {
      NoGapsMeansIndependent(required[1..], audit, producers, waived);
      assert forall r :: r in required <==> r == required[0] || r in required[1..];
    }
  }

  /** An audit is independent of two groups exactly when it is independent of each. */
  lemma IndependentOfBoth(audit: AuditRecord, required: seq<Requirement>, p: set<Profile>, q: set<Profile>,
                          waived: set<Gap>)
    ensures Independent(audit, required, p + q, waived) <==>
              Independent(audit, required, p, waived) && Independent(audit, required, q, waived)
  {
    forall r
      ensures MeetsRecorded(r, audit, audit.auditor.fingerprint, p + q) <==>
                MeetsRecorded(r, audit, audit.auditor.fingerprint, p)
                  && MeetsRecorded(r, audit, audit.auditor.fingerprint, q)
    {
    }
  }

  lemma MoreWaived(b: Block, policy: IndependencePolicy, waived: set<Gap>, more: set<Gap>)
    requires waived <= more && BlockIndependent(b, policy, waived)
    ensures BlockIndependent(b, policy, more)
  {
  }

  lemma BlocksMoreWaived(blocks: seq<Block>, policy: IndependencePolicy, waived: set<Gap>, more: set<Gap>)
    requires waived <= more && forall b :: b in blocks ==> BlockIndependent(b, policy, waived)
    ensures forall b :: b in blocks ==> BlockIndependent(b, policy, more)
  {
    forall b | b in blocks
      ensures BlockIndependent(b, policy, more)
    {
      MoreWaived(b, policy, waived, more);
    }
  }

  // --- Steps that touch no audit and no producer ---

  predicate Quiet(w: WorkOrder, next: WorkOrder) {
    && next.blocks == w.blocks
    && next.supersededBlocks == w.supersededBlocks
    && next.budget == w.budget
    && next.amendments == w.amendments
    && next.executionProfile == w.executionProfile
    && next.finalAudit == w.finalAudit
    && next.approvals == w.approvals
    && w.planVersions <= next.planVersions
    && WaivedIndependence(w.attention) <= WaivedIndependence(next.attention)
  }

  lemma QuietKeepsAudits(w: WorkOrder, next: WorkOrder)
    requires Good(w) && w.AuditsIndependent() && Quiet(w, next)
    ensures next.AuditsIndependent()
  {
    hide BlockIndependent, BlockRecorded, Block.Valid, InOrder, AllStaged;
    BlocksMoreWaived(w.blocks, w.executionProfile.policy, WaivedIndependence(w.attention),
                     WaivedIndependence(next.attention));
    if w.approvals != [] {
      assert w.approvals[|w.approvals| - 1] in w.approvals;
      assert next.ApprovedPlan() == w.ApprovedPlan();
    }
  }

  /** Raising attention is quiet. */
  lemma RaiseQuiet(w: WorkOrder, mid: WorkOrder, reasons: seq<AttentionReason>, id: Option<AttentionId>)
    requires Good(mid) && ReasonsValid(reasons) && FreshAttentionId(mid, id) && RaiseAttention(mid, reasons, id).Ok?
    requires Quiet(w, mid)
    ensures Quiet(w, RaiseAttention(mid, reasons, id).value)
  {
    hide Good, RaiseAttention;
    RaiseKeeps(mid, reasons, id);
  }

  predicate Judging(step: Step) {
    step.DoApprovePlan? || step.DoRecordFinalAudit? || step.DoBlock? || (step.DoDecide? && step.amendment.Some?)
  }

  lemma QuietSteps(w: WorkOrder, step: Step)
    requires Good(w) && WellFormed(w, step) && Take(w, step).Ok? && !Judging(step)
    ensures Quiet(w, Take(w, step).value)
  {
    hide Good, RaiseAttention, Decide, ResumeDeferred, RecordDeviation, RecordKernelOutcome, WaivedIndependence;
    match step
    case DoStartIntake(baseline) =>
    case DoProposePlan(plan) =>
    case DoRejectPlan =>
    case DoAttachCandidate(candidate, baseline) =>
      if Drifted(w, baseline) { RaiseQuiet(w, w, [DriftReason(baseline)], None); }
    case DoStartExecution(baseline) =>
      if Drifted(w, baseline) { RaiseQuiet(w, w, [DriftReason(baseline)], None); }
    case DoEnterFinalVerification(baseline) =>
      if Drifted(w, baseline) { RaiseQuiet(w, w, [DriftReason(baseline)], None); }
    case DoRecordKernelOutcome(outcome) => OutcomeQuiet(w, outcome);
    case DoRaiseAttention(reasons, id) => RaiseQuiet(w, w, reasons, id);
    case DoDecide(decision, amendment, observed) => DecideQuiet(w, decision, observed);
    case DoResumeDeferred(baseline) => ResumeQuiet(w, baseline);
    case DoRecordDeviation(deviation) => DeviationQuiet(w, deviation);
  }

  lemma OutcomeQuiet(w: WorkOrder, outcome: KernelOutcome)
    requires Good(w) && RecordKernelOutcome(w, outcome).Ok?
    ensures Quiet(w, RecordKernelOutcome(w, outcome).value)
  {
    hide Good, RaiseAttention, WaivedIndependence;
    if !outcome.IsPromoted() {
      RaiseQuiet(w, w, [AttentionReason(PromotionRefused, Blocking, outcome.reason, [outcome.evidence], [])], None);
    }
  }

  lemma ResumeQuiet(w: WorkOrder, baseline: CommitSha)
    requires Good(w) && ResumeDeferred(w, baseline).Ok?
    ensures Quiet(w, ResumeDeferred(w, baseline).value)
  {
    hide Good, RaiseAttention, WaivedIndependence;
    var resumed := w.(status := w.deferredFrom.value, deferredFrom := None);
    ResumedGood(w);
    if w.deferredFrom.value in BASELINE_BOUND && Drifted(w, baseline) {
      RaiseQuiet(w, resumed, [DriftReason(baseline)], None);
    }
  }

  lemma DeviationQuiet(w: WorkOrder, d: Deviation)
    requires Good(w) && RecordDeviation(w, d).Ok?
    requires d.id.NamedDeviation? && forall x :: x in w.deviations ==> x.id != d.id
    ensures Quiet(w, RecordDeviation(w, d).value)
  {
    hide Good, RaiseAttention, WaivedIndependence;
    DeviationAdded(w, d);
    if d.material {
      RaiseQuiet(w, w.(deviations := w.deviations + [d]),
                 [AttentionReason(MaterialDeviation, Blocking, d.summary, [d.evidence], [])], None);
    }
  }

  /** Closing the open request after a decision keeps every waiver. */
  lemma CloseQuiet(w: WorkOrder, k: nat, decision: UserDecision, target: WorkOrderStatus,
                   deferredFrom: Option<WorkOrderStatus>)
    requires Good(w) && OnlyOpen(w.attention, k)
    ensures var request := w.attention[k].(decisions := w.attention[k].decisions + [decision]);
            Quiet(w, Close(w, request, target, deferredFrom))
  {
    hide WorkOrder.Structural, Kept, WaivedIndependence, AttentionRequest.WaivedGaps;
    var asked := w.attention[k];
    var closed := asked.(decisions := asked.decisions + [decision], closed := true);
    IdsOf(w);
    ReplaceIs(w.attention, k, closed);
    WaivedGapsGrow(asked, closed);
    WaivedGrowsByReplacing(w.attention, k, closed);
  }

  lemma AnswerQuiet(w: WorkOrder, k: nat, decision: UserDecision, resolved: set<AttentionCode>)
    requires Good(w) && w.status == UserAttentionRequired && OnlyOpen(w.attention, k)
    ensures var answered := w.attention[k].(decisions := w.attention[k].decisions + [decision], resolved := resolved);
            var next := w.(attention := ReplaceRequest(w.attention, answered));
            Quiet(w, next) && Good(next)
  {
    hide Good, WaivedIndependence, AttentionRequest.WaivedGaps, AttentionRequest.Valid;
    var asked := w.attention[k];
    var answered := asked.(decisions := asked.decisions + [decision], resolved := resolved);
    OpenIsValid(w, k);
    DecisionAdded(asked, decision, resolved);
    IdsOf(w);
    ReplaceIs(w.attention, k, answered);
    AnswerKeeps(w, k, answered);
  }

  lemma DecideQuiet(w: WorkOrder, decision: UserDecision, observed: Option<CommitSha>)
    requires Good(w) && Decide(w, decision, None, observed).Ok?
    ensures Quiet(w, Decide(w, decision, None, observed).value)
  {
    hide Good, RaiseAttention, WaivedIndependence, ApproveDeviations, Close, AttentionRequest.Unblocked;
    var k := OpenPosition(w);
    var asked := w.attention[k];
    DeviationsApproved(w, decision);
    var approved := ApproveDeviations(w, decision).value;
    var request := asked.(decisions := asked.decisions + [decision]);
    match decision.action {
      case Resume =>
        if request.raisedFrom in BASELINE_BOUND && Drifted(approved, observed.value) {
          AnswerQuiet(approved, k, decision, asked.resolved);
          assert request == asked.(decisions := asked.decisions + [decision], resolved := asked.resolved);
          var answered := approved.(attention := ReplaceRequest(approved.attention, request));
          RaiseQuiet(approved, answered, [DriftReason(observed.value)], None);
        } else {
          CloseQuiet(approved, k, decision, request.raisedFrom, None);
        }
      case Replan => CloseQuiet(approved, k, decision, PlanProposed, None);
      case Defer => CloseQuiet(approved, k, decision, Deferred, Some(request.raisedFrom));
      case Abort => CloseQuiet(approved, k, decision, Aborted, None);
      case _ => assert false;
    }
  }

  // --- Amendments ---

  lemma PolicyAdds(audit: AuditRecord, before: seq<Requirement>, after: seq<Requirement>, producers: set<Profile>,
                   waived: set<Gap>)
    requires Independent(audit, before, producers, waived)
    ensures Independent(audit, after, producers, waived) <==> MeetsAdded(audit, before, after, producers, waived)
  {
  }

  lemma BlockPolicyAdds(b: Block, before: IndependencePolicy, after: IndependencePolicy, waived: set<Gap>)
    requires b.Valid() && BlockIndependent(b, before, waived)
    ensures BlockIndependent(b, after, waived) <==> BlockMeetsAdded(b, before, after, waived)
  {
    hide Independent, MeetsAdded, Block.CodeApprovalHolds, Block.MemoryApprovalHolds, AuditedProducers, ProducersOf,
      IndependencePolicy.Required;
    if b.codeAudit.Some? {
      var audit := b.codeAudit.value;
      PolicyAdds(audit, before.Required(b.riskClass.value), after.Required(b.riskClass.value),
                 ProducersOf(b.attempts, AuditedProducers(audit.role)), waived);
    }
    if b.memoryAudit.Some? {
      var audit := b.memoryAudit.value;
      PolicyAdds(audit, before.Required(b.riskClass.value), after.Required(b.riskClass.value),
                 ProducersOf(b.attempts, AuditedProducers(audit.role)), waived);
    }
  }

  /** The approved risk class is that of the validated approved plan. */
  lemma RiskIsApproved(w: WorkOrder)
    requires w.approvals != []
    ensures ApprovedRisk(w) == w.ApprovedPlan().riskClass
  {
  }

  lemma NewProfileJudged(w: WorkOrder, profile: ProjectExecutionProfile, amendments: seq<Amendment>)
    requires Good(w) && w.AuditsIndependent()
    ensures w.(amendments := amendments, executionProfile := profile).AuditsIndependent() <==>
            AddedRequirementsMet(w, profile.policy)
  {
    hide BlockIndependent, BlockMeetsAdded, MeetsAdded, Independent, Writers, WaivedIndependence, Kept,
      IndependencePolicy.Required;
    var waived := WaivedIndependence(w.attention);
    forall b | b in w.blocks
      ensures BlockIndependent(b, profile.policy, waived) <==>
              BlockMeetsAdded(b, w.executionProfile.policy, profile.policy, waived)
    {
      BlockPolicyAdds(b, w.executionProfile.policy, profile.policy, waived);
    }
    if w.finalAudit.Some? {
      RiskIsApproved(w);
      PolicyAdds(w.finalAudit.value, w.executionProfile.policy.Required(ApprovedRisk(w)),
                 profile.policy.Required(ApprovedRisk(w)),
                 Writers(w.blocks + w.supersededBlocks), waived);
    }
  }

  /** Writers of two records agree when each position ran the same attempts. */
  lemma SameAttemptsSameWriters(before: seq<Block>, after: seq<Block>)
    requires |before| == |after| && forall i :: 0 <= i < |before| ==> before[i].attempts == after[i].attempts
    ensures Writers(before) == Writers(after)
  {
    WritersWithin(before, after);
    WritersWithin(after, before);
  }

  lemma WritersWithin(before: seq<Block>, after: seq<Block>)
    requires |before| <= |after| && forall i :: 0 <= i < |before| ==> before[i].attempts <= after[i].attempts
    ensures Writers(before) <= Writers(after)
  {
    forall p | p in Writers(before)
      ensures p in Writers(after)
    {
      var b, a :| b in before && a in b.attempts && a.role in WRITE_CAPABLE_ROLES && a.profile.fingerprint == p;
      var i :| 0 <= i < |before| && before[i] == b;
      assert a in after[i].attempts && after[i] in after;
    }
  }

  lemma NewBudgetJudged(w: WorkOrder, budget: Budget, amendments: seq<Amendment>)
    requires Good(w) && w.AuditsIndependent()
    ensures w.(amendments := amendments, budget := Some(budget), blocks := ResetCounters(w.blocks)).AuditsIndependent()
  {
    hide Writers, WaivedIndependence, Good, Independent;
    var reset := ResetCounters(w.blocks);
    forall c | c in reset
      ensures BlockIndependent(c, w.executionProfile.policy, WaivedIndependence(w.attention))
    {
      var i :| 0 <= i < |reset| && reset[i] == c;
      assert w.blocks[i] in w.blocks;
    }
    SameAttemptsSameWriters(w.blocks + w.supersededBlocks, reset + w.supersededBlocks);
  }

  lemma AmendedJudged(w: WorkOrder, amendment: Amendment)
    requires Good(w) && w.AuditsIndependent() && Amended(w, amendment).Ok?
    ensures Amended(w, amendment).value.AuditsIndependent() <==>
              (amendment.ChangeAgent? ==> AddedRequirementsMet(w, amendment.profile.policy))
  {
    hide Good, WorkOrder.AuditsIndependent, AddedRequirementsMet, ResetCounters;
    match amendment
    case ChangeAgent(_, profile, _) => NewProfileJudged(w, profile, w.amendments + [amendment]);
    case ChangeBudget(_, newBudget, _) => NewBudgetJudged(w, newBudget, w.amendments + [amendment]);
  }

  /** A deviation approval changes nothing that auditors are judged by. */
  lemma DeviationsQuiet(w: WorkOrder, mid: WorkOrder)
    requires mid == w.(deviations := mid.deviations) && w.AuditsIndependent()
    ensures mid.AuditsIndependent()
    ensures forall policy :: AddedRequirementsMet(mid, policy) <==> AddedRequirementsMet(w, policy)
  {
  }

  lemma AmendJudged(w: WorkOrder, decision: UserDecision, amendment: Amendment, observed: Option<CommitSha>)
    requires Good(w) && w.Valid() && amendment.Valid() && Decide(w, decision, Some(amendment), observed).Ok?
    ensures AmendmentValid(w, DoDecide(decision, Some(amendment), observed)) <==>
              (amendment.ChangeAgent? ==> AddedRequirementsMet(w, amendment.profile.policy))
    ensures AmendmentValid(w, DoDecide(decision, Some(amendment), observed)) ==>
              Decide(w, decision, Some(amendment), observed).value.AuditsIndependent()
  {
    hide Good, HistoryKept, Amended, WorkOrder.AuditsIndependent, AddedRequirementsMet, ApproveDeviations, Quiet,
      WorkOrder.Structural;
    var k := OpenPosition(w);
    var asked := w.attention[k];
    DeviationsApproved(w, decision);
    var approved := ApproveDeviations(w, decision).value;
    DeviationsQuiet(w, approved);
    AmendedFollows(approved, amendment);
    AmendedJudged(approved, amendment);
    var amended := Amended(approved, amendment).value;
    GoodIsStructural(amended);
    var resolved := asked.resolved + ResolvedBy(amendment) * (set r | r in asked.reasons :: r.code);
    AnswerQuiet(amended, k, decision, resolved);
    var next := Decide(w, decision, Some(amendment), observed).value;
    assert next == amended.(attention := ReplaceRequest(amended.attention,
                                                        asked.(decisions := asked.decisions + [decision],
                                                               resolved := resolved)));
    if amended.AuditsIndependent() {
      QuietKeepsAudits(amended, next);
    }
  }

  lemma GoodIsStructural(w: WorkOrder)
    requires Good(w)
    ensures w.Structural()
  {
  }

  // --- The final audit ---

  lemma FinalAuditJudged(w: WorkOrder, audit: AuditRecord)
    requires Good(w) && w.AuditsIndependent() && RecordFinalAudit(w, audit).Ok?
    ensures RecordFinalAudit(w, audit).value.AuditsIndependent()
  {
    hide WorkOrder.Structural, RaiseAttention, WaivedIndependence, CheckProfile, BlockIndependent, Independent;
    var writers := Writers(w.blocks + w.supersededBlocks);
    var required := w.executionProfile.policy.Required(ApprovedRisk(w));
    var gaps := RecordedGaps(w, ApprovedRisk(w), audit, writers);
    if gaps != [] {
      IndependenceQuiet(w, w, gaps);
      QuietKeepsAudits(w, IndependenceAttention(w, gaps).value);
    } else {
      NoGapsMeansIndependent(required, audit, writers, WaivedIndependence(w.attention));
      RiskIsApproved(w);
    }
  }

  lemma IndependenceQuiet(w: WorkOrder, mid: WorkOrder, gaps: seq<Gap>)
    requires Good(mid) && gaps != [] && IndependenceAttention(mid, gaps).Ok? && Quiet(w, mid)
    ensures Quiet(w, IndependenceAttention(mid, gaps).value)
  {
    hide Good, RaiseAttention;
    RaiseQuiet(w, mid, [AttentionReason(IndependenceUnavailable, Blocking, "auditor independence cannot be met",
                                        GapEvidence(gaps), [])], None);
  }

  // --- A new plan ---

  /** A replan neither forgets nor invents a producer. */
  lemma ReplanKeepsWriters(blocks: seq<Block>, specs: seq<BlockSpec>, aside: seq<Block>)
    requires DistinctBlocks(blocks) && DoneBlocksIn(blocks, specs)
    ensures Writers(PlannedBlocks(blocks, specs) + (aside + Superseded(blocks))) == Writers(blocks + aside)
  {
    var planned := PlannedBlocks(blocks, specs);
    var after := planned + (aside + Superseded(blocks));
    forall p | p in Writers(after)
      ensures p in Writers(blocks + aside)
    {
      var b, a :| b in after && a in b.attempts && a.role in WRITE_CAPABLE_ROLES && a.profile.fingerprint == p;
      if b in planned {
        var i :| 0 <= i < |planned| && planned[i] == b;
        PlannedBlockIs(blocks, specs[i]);
      }
      SupersededFrom(blocks);
      assert b in blocks + aside;
    }
    forall p | p in Writers(blocks + aside)
      ensures p in Writers(after)
    {
      var b, a :| b in blocks + aside && a in b.attempts && a.role in WRITE_CAPABLE_ROLES && a.profile.fingerprint == p;
      AttemptedBlockKept(blocks, specs, aside, b);
    }
  }

  lemma AttemptedBlockKept(blocks: seq<Block>, specs: seq<BlockSpec>, aside: seq<Block>, b: Block)
    requires DistinctBlocks(blocks) && DoneBlocksIn(blocks, specs) && b in blocks + aside && b.attempts != []
    ensures b in PlannedBlocks(blocks, specs) + (aside + Superseded(blocks))
  {
    var planned := PlannedBlocks(blocks, specs);
    if b in aside {
    } else if b.IsDone() {
      var k :| 0 <= k < |specs| && specs[k] == b.spec;
      DoneStays(blocks, b);
      assert planned[k] == b;
    } else {
      SupersededAll(blocks, b);
    }
  }

  lemma PlannedIndependent(blocks: seq<Block>, specs: seq<BlockSpec>, policy: IndependencePolicy, waived: set<Gap>)
    requires forall b :: b in blocks ==> BlockIndependent(b, policy, waived)
    ensures forall b :: b in PlannedBlocks(blocks, specs) ==> BlockIndependent(b, policy, waived)
  {
    var planned := PlannedBlocks(blocks, specs);
    forall b | b in planned
      ensures BlockIndependent(b, policy, waived)
    {
      var i :| 0 <= i < |planned| && planned[i] == b;
      PlannedBlockIs(blocks, specs[i]);
    }
  }

  lemma ApproveOnlyJudged(w: WorkOrder, planVersion: nat, approvedBy: string)
    requires Good(w) && w.AuditsIndependent() && ApprovePlanOnly(w, planVersion, approvedBy).Ok?
    ensures ApprovePlanOnly(w, planVersion, approvedBy).value.AuditsIndependent() <==>
              FinalAuditMeets(w, PlanAt(w.planVersions, planVersion).riskClass, Writers(w.blocks + w.supersededBlocks))
  {
    hide BlockIndependent, Independent, Writers, WaivedIndependence, PlannedBlocks, Superseded, BlockRecorded,
      Block.Valid,
      InOrder, AllStaged, AttentionRequest.Valid, IndependencePolicy.Required;
    var plan := w.planVersions[planVersion - 1];
    BlocksLaidOut(w);
    ReplanKeepsWriters(w.blocks, plan.blocks, w.supersededBlocks);
    PlannedIndependent(w.blocks, plan.blocks, w.executionProfile.policy, WaivedIndependence(w.attention));
    assert ApprovePlanOnly(w, planVersion, approvedBy).value.ApprovedPlan() == plan;
  }

  lemma ApprovalJudged(w: WorkOrder, planVersion: nat, approvedBy: string)
    requires Good(w) && w.AuditsIndependent() && ApprovePlan(w, planVersion, approvedBy).Ok?
    ensures ApprovePlan(w, planVersion, approvedBy).value.AuditsIndependent() <==>
              FinalAuditMeets(w, PlanAt(w.planVersions, planVersion).riskClass, Writers(w.blocks + w.supersededBlocks))
  {
    hide Good, RaiseAttention, PlanGaps, WorkOrder.AuditsIndependent, FinalAuditMeets, LegalSuccessor;
    ApproveOnlyKeeps(w, planVersion, approvedBy);
    ApproveOnlyJudged(w, planVersion, approvedBy);
    var mid := ApprovePlanOnly(w, planVersion, approvedBy).value;
    var gaps := PlanGaps(mid, w.planVersions[planVersion - 1]);
    if gaps != [] {
      var next := IndependenceAttention(mid, gaps).value;
      NoneOpenIn(mid);
      SameWaivers(mid, gaps);
      SameAudits(mid, next);
    }
  }

  lemma NoneOpenIn(w: WorkOrder)
    requires Good(w) && w.status != UserAttentionRequired
    ensures OpenRequest(w.attention).None?
  {
    NoneOpen(w);
  }

  /** A newly opened request waives nothing yet. */
  lemma SameWaivers(w: WorkOrder, gaps: seq<Gap>)
    requires OpenRequest(w.attention).None? && IndependenceAttention(w, gaps).Ok?
    ensures var next := IndependenceAttention(w, gaps).value;
            next == w.(status := next.status, attention := next.attention)
            && WaivedIndependence(next.attention) == WaivedIndependence(w.attention)
  {
    var next := IndependenceAttention(w, gaps).value;
    var request := next.attention[|w.attention|];
    assert request.WaivedGaps() == {};
    assert forall a :: a in next.attention <==> a in w.attention || a == request;
  }

  lemma SameAudits(w: WorkOrder, next: WorkOrder)
    requires next == w.(status := next.status, attention := next.attention)
    requires WaivedIndependence(next.attention) == WaivedIndependence(w.attention)
    ensures next.AuditsIndependent() <==> w.AuditsIndependent()
  {
    hide BlockIndependent, Independent, Writers, WaivedIndependence;
  }

  // --- Block steps ---

  /** What a block step does to one block as auditors are concerned: at most one more write-capable attempt. */
  predicate JudgedChange(w: WorkOrder, next: WorkOrder, i: nat, ran: Option<AttemptRecord>) {
    && i < |w.blocks| == |next.blocks|
    && next.blocks == w.blocks[i := next.blocks[i]]
    && BlockIndependent(next.blocks[i], w.executionProfile.policy, WaivedIndependence(w.attention))
    && next.blocks[i].attempts == w.blocks[i].attempts + ToSeq(ran)
    && (ran.Some? ==> ran.value.role in WRITE_CAPABLE_ROLES && next.attention == w.attention)
  }

  lemma WritersAppend(blocks: seq<Block>, i: nat, c: Block, attempt: AttemptRecord)
    requires i < |blocks| && c.attempts == blocks[i].attempts + [attempt] && attempt.role in WRITE_CAPABLE_ROLES
    ensures Writers(blocks[i := c]) == Writers(blocks) + {attempt.profile.fingerprint}
  {
    WritersWithin(blocks, blocks[i := c]);
    assert blocks[i := c][i] in blocks[i := c] && attempt in c.attempts;
    forall p | p in Writers(blocks[i := c])
      ensures p in Writers(blocks) + {attempt.profile.fingerprint}
    {
      var b, a :| b in blocks[i := c] && a in b.attempts && a.role in WRITE_CAPABLE_ROLES && a.profile.fingerprint == p;
      assert b in blocks || b == c;
      assert a in blocks[i].attempts || a == attempt || b in blocks;
    }
  }

  /** After a block step the audits still hold exactly when the final audit tolerates the new producer. */
  lemma BlockStepJudged(w: WorkOrder, next: WorkOrder, i: nat, ran: Option<AttemptRecord>)
    requires Good(w) && w.AuditsIndependent() && EnvelopeUntouched(w, next) && JudgedChange(w, next, i, ran)
    ensures next.AuditsIndependent() <==>
              (ran.Some? ==> FinalAuditMeets(w, ApprovedRisk(w), {ran.value.profile.fingerprint}))
  {
    hide BlockIndependent, Independent, Writers, WaivedIndependence, BlockRecorded, Block.Valid, WorkOrder.Structural,
      InOrder, AllStaged;
    var policy, before, after := w.executionProfile.policy, WaivedIndependence(w.attention),
      WaivedIndependence(next.attention);
    assert forall b :: b in next.blocks ==> BlockIndependent(b, policy, before);
    BlocksMoreWaived(next.blocks, policy, before, after);
    var all := w.blocks + w.supersededBlocks;
    assert next.blocks + next.supersededBlocks == all[i := next.blocks[i]];
    if w.finalAudit.Some? {
      RiskIsApproved(w);
      var audit, required := w.finalAudit.value, policy.Required(ApprovedRisk(w));
      if ran.Some? {
        WritersAppend(all, i, next.blocks[i], ran.value);
        IndependentOfBoth(audit, required, Writers(all), {ran.value.profile.fingerprint}, before);
      } else {
        SameAttemptsSameWriters(all, all[i := next.blocks[i]]);
        MoreWaivedAudit(audit, required, Writers(all), before, after);
      }
    }
  }

  lemma MoreWaivedAudit(audit: AuditRecord, required: seq<Requirement>, producers: set<Profile>, waived: set<Gap>,
                        more: set<Gap>)
    requires waived <= more && Independent(audit, required, producers, waived)
    ensures Independent(audit, required, producers, more)
  {
  }
}
