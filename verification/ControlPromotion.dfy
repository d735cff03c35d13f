/**
 What a promoted record is proof of: every block tested, audited and checkpointed on one state, and no
 change outside a block's scope, or outside the memory paths, that the user did not approve.
 */
module ControlPromotion {
  import opened Prelude
  import opened Text
  import opened ControlModel
  import opened ControlEvolution
  import opened ControlMachine
  import opened ControlInvariant
  import opened ControlProvenance
  import opened ControlRuns

  // --- The paths a prefix covers ---

  /** The components of a directory, with the slashes at its end dropped. */
  function Trimmed(parts: seq<string>): seq<string>
    requires parts != []
  {
    if |parts| > 1 && parts[|parts| - 1] == "" then Trimmed(parts[..|parts| - 1]) else parts
  }

  /** The path is the directory or lies below it, component by component. */
  predicate Inside(path: string, dir: string) {
    Trimmed(SplitOn(dir, '/')) <= SplitOn(path, '/')
  }

  /** A prefix covers a path by whole components: "src" and "src/" cover "src/a" but not "srcs". */
  lemma WithinMeans(path: string, prefixes: seq<string>)
    ensures Within(path, prefixes) <==> exists dir :: dir in prefixes && Inside(path, dir)
  {
    hide SplitOn, Trimmed, RightStrip;
    forall dir: string
      ensures Inside(path, dir) <==> path == RightStrip(dir) || RightStrip(dir) + "/" <= path
    {
      StrippedParts(dir);
      SplitPrefix(RightStrip(dir), path);
    }
  }

  lemma {:induction false} JoinBoth(a: seq<string>, b: seq<string>)
    requires a != [] && b != []
    ensures JoinWith(a + b, '/') == JoinWith(a, '/') + "/" + JoinWith(b, '/')
  {
    if |a| == 1 {
      assert (a + b)[1..] == b;
    } else {
      JoinBoth(a[1..], b);
      assert (a + b)[1..] == a[1..] + b;
    }
  }

  lemma SplitBoth(s: string, t: string)
    ensures SplitOn(s + "/" + t, '/') == SplitOn(s, '/') + SplitOn(t, '/')
  {
    hide SplitOn, JoinWith;
    var a, b := SplitOn(s, '/'), SplitOn(t, '/');
    JoinBoth(a, b);
    JoinSplitOn(s, '/');
    JoinSplitOn(t, '/');
    SplitJoinOn(a + b, '/');
  }

  lemma SplitPrefix(s: string, path: string)
    ensures SplitOn(s, '/') <= SplitOn(path, '/') <==> path == s || s + "/" <= path
  {
    hide SplitOn, JoinWith;
    var a, b := SplitOn(s, '/'), SplitOn(path, '/');
    if a <= b && |a| < |b| {
      JoinSplitOn(s, '/');
      JoinSplitOn(path, '/');
      JoinBoth(a, b[|a|..]);
      assert b == a + b[|a|..];
    } else if a <= b {
      JoinSplitOn(s, '/');
      JoinSplitOn(path, '/');
      assert a == b;
    }
    if s + "/" <= path {
      SplitBoth(s, path[|s| + 1..]);
      assert path == s + "/" + path[|s| + 1..];
    }
  }

  lemma {:induction false} StrippedParts(dir: string)
    ensures SplitOn(RightStrip(dir), '/') == Trimmed(SplitOn(dir, '/'))
    decreases |dir|
  {
    hide SplitOn, JoinWith;
    var n, parts := |dir| - 1, SplitOn(dir, '/');
    if dir != [] && dir[n] == '/' {
      StrippedParts(dir[..n]);
      SplitBoth(dir[..n], "");
      SplitsOnce("", '/');
      assert dir == dir[..n] + "/" + "";
      assert SplitOn("", '/') == [""];
      assert parts[..|parts| - 1] == SplitOn(dir[..n], '/');
    } else if |parts| > 1 && parts[|parts| - 1] == "" {
      assert parts == parts[..|parts| - 1] + [""];
      JoinsOne("", '/');
      JoinSplitOn(dir, '/');
      JoinBoth(parts[..|parts| - 1], [""]);
    }
  }

  // --- Changes that go outside ---

  /** The user approved the deviation, which was recorded for this block. */
  ghost predicate UserApproved(deviations: seq<Deviation>, block: Identifier, id: DeviationId) {
    exists d :: d in deviations && d.id == id && d.blockId == Some(block) && d.approvedBy.Some?
  }

  /** A change record that claims a deviation claims an approved one. */
  ghost predicate ClaimTrue(deviations: seq<Deviation>, block: Identifier, changes: ChangeRecord) {
    changes.approvedDeviation.Some? ==> UserApproved(deviations, block, changes.approvedDeviation.value)
  }

  /** Code is approved only with a claim that is true, and a claim that is true is never refused as a deviation. */
  lemma CodeClaimChecked(w: WorkOrder, id: Identifier, audit: AuditRecord, changes: ChangeRecord,
                         current: StateIdentity)
    ensures ApproveCode(w, id, audit, changes, current).Ok? ==> ClaimTrue(w.deviations, id, changes)
    ensures ApproveCode(w, id, audit, changes, current) == Err(Rejected("deviation")) ==>
              !ClaimTrue(w.deviations, id, changes)
  {
    hide ChangeRecord.Outside, UpdateBlock, FindBlock, Block.CodeApprovalHolds, RecordedGaps, ProducersOf, GapEvidence,
      MergeReasons, LastByCode, ReplaceRequest;
  }

  /** The same for curated memory, which is also held against the record's own memory paths. */
  lemma MemoryClaimChecked(w: WorkOrder, id: Identifier, changes: ChangeRecord)
    ensures FinishMemoryCuration(w, id, changes).Ok? ==>
              ClaimTrue(w.deviations, id, changes) && changes.allowed == w.memoryPaths
    ensures FinishMemoryCuration(w, id, changes) == Err(Rejected("deviation")) ==>
              !ClaimTrue(w.deviations, id, changes)
  {
    hide ChangeRecord.Outside, UpdateBlock, FindBlock, MergeReasons, LastByCode, ReplaceRequest;
  }

  /** What a block recorded as changed was claimed truly; memory was curated in the record's memory paths. */
  ghost predicate BlockClaims(w: WorkOrder, b: Block) {
    && (b.codeChanges.Some? ==> ClaimTrue(w.deviations, b.spec.blockId, b.codeChanges.value))
    && (b.memoryChanges.Some? ==>
          && b.memoryChanges.value.allowed == w.memoryPaths
          && ClaimTrue(w.deviations, b.spec.blockId, b.memoryChanges.value))
  }

  ghost predicate AllClaims(w: WorkOrder) {
    forall b :: b in w.blocks + w.supersededBlocks ==> BlockClaims(w, b)
  }

  /** A recorded approval is never lost. */
  lemma ApprovalsStay(before: seq<Deviation>, after: seq<Deviation>, block: Identifier, id: DeviationId)
    requires DeviationsKept(before, after) && UserApproved(before, block, id)
    ensures UserApproved(after, block, id)
  {
    var d :| d in before && d.id == id && d.blockId == Some(block) && d.approvedBy.Some?;
    var i :| 0 <= i < |before| && before[i] == d;
    assert DeviationKept(before[i], after[i]);
    assert after[i] == d;
  }

  lemma ClaimsStay(w: WorkOrder, next: WorkOrder, b: Block)
    requires HistoryKept(w, next) && BlockClaims(w, b)
    ensures BlockClaims(next, b)
  {
    hide EnvelopeKept, AttentionKept, DoneBlocksKept, DeviationsKept, UserApproved;
    if b.codeChanges.Some? && b.codeChanges.value.approvedDeviation.Some? {
      ApprovalsStay(w.deviations, next.deviations, b.spec.blockId, b.codeChanges.value.approvedDeviation.value);
    }
    if b.memoryChanges.Some? && b.memoryChanges.value.approvedDeviation.Some? {
      ApprovalsStay(w.deviations, next.deviations, b.spec.blockId, b.memoryChanges.value.approvedDeviation.value);
    }
  }

  /** What a step records as changed passed the check of its claim. */
  lemma NewClaims(w: WorkOrder, step: Step, b: Block, c: Block)
    requires Take(w, step).Ok? && BlockFrom(b, c, step) && BlockClaims(w, b)
    ensures BlockClaims(w, c)
  {
    hide ClaimTrue, ApproveCode, FinishMemoryCuration;
    if step.DoBlock? {
      match step.move {
        case Approve(audit, changes, current) => CodeClaimChecked(w, step.block, audit, changes, current);
        case FinishCuration(changes) => MemoryClaimChecked(w, step.block, changes);
        case _ =>
      }
    }
  }

  lemma ClaimsKept(w: WorkOrder, step: Step, next: WorkOrder)
    requires AllClaims(w) && HistoryKept(w, next) && Take(w, step) == Ok(next) && Sourced(w, step, next)
    ensures AllClaims(next)
  {
    hide BlockClaims, HistoryKept, Take, FieldsFrom, BlockFrom;
    SupersededAreBlocks(w.blocks);
    forall c | c in next.blocks + next.supersededBlocks
      ensures BlockClaims(next, c)
    {
      if c in w.blocks + w.supersededBlocks {
        ClaimsStay(w, next, c);
      } else if c == NewBlock(c.spec) {
        NothingClaimed(next, c.spec);
      } else {
        var b :| b in w.blocks && BlockFrom(b, c, step);
        NewClaims(w, step, b, c);
        ClaimsStay(w, next, c);
      }
    }
  }

  lemma NothingClaimed(w: WorkOrder, spec: BlockSpec)
    ensures BlockClaims(w, NewBlock(spec))
  {
  }

  /** In every run, every recorded change that claims a deviation names one the user approved for that block. */
  lemma {:induction false} ReachableClaims(ws: seq<WorkOrder>, steps: seq<Step>, i: nat)
    requires IsRun(ws, steps) && i < |ws|
    ensures AllClaims(ws[i])
  {
    hide IsRun, AllClaims, Sourced, Take, Good, HistoryKept;
    RunLength(ws, steps);
    if i == 0 {
      CreatedClaims(ws, steps);
    } else {
      ReachableClaims(ws, steps, i - 1);
      RunStep(ws, steps, i - 1);
      StepSourced(ws[i - 1], steps[i - 1]);
      ClaimsKept(ws[i - 1], steps[i - 1], ws[i]);
    }
  }

  lemma CreatedClaims(ws: seq<WorkOrder>, steps: seq<Step>)
    requires IsRun(ws, steps)
    ensures AllClaims(ws[0])
  {
  }

  // --- What a promotion proves ---

  /** A verdict that the auditor gave itself, in full, and in a format nobody repaired. */
  ghost predicate OwnVerdict(audit: AuditRecord, role: Role) {
    audit.role == role && audit.status == Verified && audit.reason == "report_complete"
    && audit.formatRepair in {NotNeeded, NotProvided, Refused}
  }

  /** Each changed path lies in one of the directories, or a decision of this run approved going outside. */
  ghost predicate StaysInside(steps: seq<Step>, w: WorkOrder, block: Identifier, dirs: seq<string>,
                              changes: ChangeRecord)
  {
    forall p :: p in changes.changedPaths ==>
      || (exists dir :: dir in dirs && Inside(p, dir))
      || (changes.approvedDeviation.Some? && UserApproved(w.deviations, block, changes.approvedDeviation.value)
          && DecidedIn(steps, changes.approvedDeviation.value))
  }

  ghost predicate DecidedIn(steps: seq<Step>, id: DeviationId) {
    exists s :: s in steps && s.DoDecide? && id in s.decision.approvedDeviations
  }

  /** The checkpoint is of the audited state: its commit, or the child of it, with the same content. */
  ghost predicate CheckpointOf(proof: CheckpointProof, audited: StateIdentity) {
    && proof.content == audited.content
    && (proof.commit == audited.headCommit || proof.parent == Some(audited.headCommit))
  }

  /** A decision waived independence on a request that named this very gap. */
  ghost predicate UserWaived(w: WorkOrder, gap: Gap) {
    exists a, d, r :: a in w.attention && d in a.decisions && r in a.reasons
      && IndependenceUnavailable in d.waived && r.code == IndependenceUnavailable && IndependenceGap(gap) in r.evidence
  }

  lemma WaivedMeans(w: WorkOrder, gap: Gap)
    ensures gap in WaivedIndependence(w.attention) <==> UserWaived(w, gap)
  {
    if gap in WaivedIndependence(w.attention) {
      var a :| a in w.attention && gap in a.WaivedGaps();
      var d :| d in a.decisions && IndependenceUnavailable in d.waived;
      var r :| r in a.reasons && r.code == IndependenceUnavailable && IndependenceGap(gap) in r.evidence;
    }
    if a, d, r :| a in w.attention && d in a.decisions && r in a.reasons && IndependenceUnavailable in d.waived
                  && r.code == IndependenceUnavailable && IndependenceGap(gap) in r.evidence
    {
      assert gap in a.WaivedGaps();
    }
  }

  /** Judged in a session that was fresh, as its evidence says, by an auditor who could not write; or waived. */
  ghost predicate FreshReader(w: WorkOrder, audit: AuditRecord) {
    var auditor := audit.auditor.fingerprint;
    && ((auditor.Agent? && auditor.session == Fresh && audit.session.Some? && audit.session.value.isFresh)
        || UserWaived(w, Gap(audit.role, FreshSession)))
    && (auditor.workspace == ReadOnly || UserWaived(w, Gap(audit.role, ReadOnlyWorkspace)))
  }

  /** Beyond low risk another model family than the producer's, at high risk another provider too; or waived. */
  ghost predicate Apart(w: WorkOrder, audit: AuditRecord, risk: RiskClass, producer: Profile) {
    var auditor := audit.auditor.fingerprint;
    && (risk != Low ==>
          || (auditor.Agent? && (producer.Agent? ==> producer.family != auditor.family))
          || UserWaived(w, Gap(audit.role, DifferentModelFamily)))
    && (risk == High ==>
          || (auditor.Agent? && (producer.Agent? ==> producer.inferenceProvider != auditor.inferenceProvider))
          || UserWaived(w, Gap(audit.role, DifferentInferenceProvider)))
  }

  /** The audit is fresh, and apart from every profile that ran one of the roles in these blocks. */
  ghost predicate FreelyJudged(w: WorkOrder, audit: AuditRecord, risk: RiskClass, blocks: seq<Block>, roles: set<Role>)
  {
    && FreshReader(w, audit)
    && forall b, a :: b in blocks && a in b.attempts && a.role in roles ==>
         Apart(w, audit, risk, a.profile.fingerprint)
  }

  /** What an independent audit means under a valid policy, which holds at least the contract's requirements. */
  lemma IndependentMeans(w: WorkOrder, audit: AuditRecord, risk: RiskClass, producers: set<Profile>)
    requires w.executionProfile.Valid()
    requires Independent(audit, w.executionProfile.policy.Required(risk), producers, WaivedIndependence(w.attention))
    ensures FreshReader(w, audit) && forall p :: p in producers ==> Apart(w, audit, risk, p)
  {
    hide WaivedIndependence, UserWaived, ProjectExecutionProfile.BindingDefined;
    assert forall r :: r in ContractIndependence(risk) ==> r in w.executionProfile.policy.Required(risk);
    assert ContractIndependence(risk)[0] == FreshSession && ContractIndependence(risk)[1] == ReadOnlyWorkspace;
    assert risk != Low ==> ContractIndependence(risk)[2] == DifferentModelFamily;
    assert risk == High ==> ContractIndependence(risk)[3] == DifferentInferenceProvider;
    forall gap
      ensures gap in WaivedIndependence(w.attention) <==> UserWaived(w, gap)
    {
      WaivedMeans(w, gap);
    }
  }

  /** Both audits of a block are free of those who made what they judge. */
  ghost predicate BlockJudged(w: WorkOrder, b: Block) {
    b.riskClass.Some?
    && (b.codeAudit.Some? ==> FreelyJudged(w, b.codeAudit.value, b.riskClass.value, [b], {PrimaryCodeExecutor}))
    && (b.memoryAudit.Some? ==> FreelyJudged(w, b.memoryAudit.value, b.riskClass.value, [b], {MemoryCurator}))
  }

  lemma BlockIsJudged(w: WorkOrder, b: Block)
    requires w.executionProfile.Valid() && b.Valid() && b.codeAudit.Some? && b.codeAudit.value.role == CodeAuditor
    requires b.memoryAudit.Some? ==> b.memoryAudit.value.role == MemoryAuditor
    requires BlockIndependent(b, w.executionProfile.policy, WaivedIndependence(w.attention))
    ensures BlockJudged(w, b)
  {
    hide FreshReader, Apart, Independent, WaivedIndependence, ProjectExecutionProfile.Valid, Block.CodeApprovalHolds,
      Block.MemoryApprovalHolds;
    IndependentMeans(w, b.codeAudit.value, b.riskClass.value, ProducersOf(b.attempts, {PrimaryCodeExecutor}));
    if b.memoryAudit.Some? {
      IndependentMeans(w, b.memoryAudit.value, b.riskClass.value, ProducersOf(b.attempts, {MemoryCurator}));
    }
  }

  lemma FinalIsJudged(w: WorkOrder, audit: AuditRecord, risk: RiskClass)
    requires w.executionProfile.Valid()
    requires Independent(audit, w.executionProfile.policy.Required(risk), Writers(w.blocks + w.supersededBlocks),
                         WaivedIndependence(w.attention))
    ensures FreelyJudged(w, audit, risk, w.blocks + w.supersededBlocks, {PrimaryCodeExecutor, MemoryCurator})
  {
    hide FreshReader, Apart, Independent, WaivedIndependence, ProjectExecutionProfile.Valid;
    IndependentMeans(w, audit, risk, Writers(w.blocks + w.supersededBlocks));
  }

  ghost predicate BlockProven(steps: seq<Step>, w: WorkOrder, b: Block) {
    && b.status == BlockDone && b.tests.Some? && b.codeAudit.Some? && b.codeChanges.Some? && b.checkpoint.Some?
    && b.tests.value.passed && b.tests.value.state == b.codeAudit.value.auditedState
    && OwnVerdict(b.codeAudit.value, CodeAuditor) && BlockJudged(w, b)
    && StaysInside(steps, w, b.spec.blockId, b.spec.scope, b.codeChanges.value)
    && if b.spec.memoryImpact then
      && b.memoryAudit.Some? && b.memoryChanges.Some?
      && OwnVerdict(b.memoryAudit.value, MemoryAuditor)
      && StaysInside(steps, w, b.spec.blockId, w.memoryPaths, b.memoryChanges.value)
      && CheckpointOf(b.checkpoint.value, b.memoryAudit.value.auditedState)
    else CheckpointOf(b.checkpoint.value, b.codeAudit.value.auditedState)
  }

  ghost predicate PromotionProven(steps: seq<Step>, w: WorkOrder) {
    && w.outcome.Some? && w.outcome.value.attempted && w.outcome.value.stage == Some(PromotedStage)
    && w.outcome.value.checkpoint.Some?
    && w.finalAudit.Some? && OwnVerdict(w.finalAudit.value, FinalVerifier)
    && w.candidate.Some? && Some(w.candidate.value.baseCommit) == w.plannedBaseline
    && w.approvals != [] && w.blocks != []
    && FreelyJudged(w, w.finalAudit.value, w.ApprovedPlan().riskClass, w.blocks + w.supersededBlocks,
                    {PrimaryCodeExecutor, MemoryCurator})
    && forall b :: b in w.blocks ==> BlockProven(steps, w, b)
  }

  /** Everything a promoted record of a run is proof of, and each approval it rests on was decided in the run. */
  lemma PromotedIsProven(ws: seq<WorkOrder>, steps: seq<Step>, i: nat)
    requires IsRun(ws, steps) && i < |ws| && ws[i].status == Promoted
    ensures i <= |steps| && PromotionProven(steps[..i], ws[i])
  {
    hide IsRun, Good, AllClaims, BlockProven, RecordSourced, FreelyJudged, Independent, WorkOrder.Valid, Block.Valid,
      Writers, WaivedIndependence, ProjectExecutionProfile.Valid, BlockIndependent;
    ReachableGood(ws, steps, i);
    EverythingHasASource(ws, steps, i);
    ReachableClaims(ws, steps, i);
    PromotionHolds(ws[i]);
    FinalIsJudged(ws[i], ws[i].finalAudit.value, ws[i].ApprovedPlan().riskClass);
    forall b | b in ws[i].blocks
      ensures BlockProven(steps[..i], ws[i], b)
    {
      BlockIsProven(steps[..i], ws[i], b);
    }
  }

  lemma PromotionHolds(w: WorkOrder)
    requires Good(w) && w.Valid() && w.status == Promoted
    ensures w.outcome.Some? && w.outcome.value.IsPromoted()
    ensures w.finalAudit.Some? && w.finalAudit.value.role == FinalVerifier && w.finalAudit.value.Authoritative()
    ensures w.candidate.Some? && Some(w.candidate.value.baseCommit) == w.plannedBaseline
    ensures w.approvals != [] && w.blocks != []
    ensures Independent(w.finalAudit.value, w.executionProfile.policy.Required(w.ApprovedPlan().riskClass),
                        Writers(w.blocks + w.supersededBlocks), WaivedIndependence(w.attention))
    ensures forall b :: b in w.blocks ==>
              b.Valid() && b.IsDone() && BlockIndependent(b, w.executionProfile.policy, WaivedIndependence(w.attention))
    ensures w.executionProfile.Valid()
  {
    hide InOrder, AllStaged, BlockRecorded, BlockIndependent, Independent, Writers, WaivedIndependence, HistoryKept;
  }

  lemma BlockIsProven(steps: seq<Step>, w: WorkOrder, b: Block)
    requires b in w.blocks && b.Valid() && b.IsDone() && AllClaims(w) && RecordSourced(steps, w)
    requires w.executionProfile.Valid()
    requires BlockIndependent(b, w.executionProfile.policy, WaivedIndependence(w.attention))
    ensures BlockProven(steps, w, b)
  {
    hide StaysInside, RecordSourced, BlockClaims, ClaimTrue, ChangeRecord.Outside, BlockJudged, BlockIndependent,
      WaivedIndependence, ProjectExecutionProfile.Valid;
    BlockIsJudged(w, b);
    BlockClaimsTrue(w, b);
    ClaimKeepsInside(steps, w, b.spec.blockId, b.codeChanges.value);
    if b.spec.memoryImpact {
      ClaimKeepsInside(steps, w, b.spec.blockId, b.memoryChanges.value);
    }
  }

  lemma BlockClaimsTrue(w: WorkOrder, b: Block)
    requires AllClaims(w) && b in w.blocks
    ensures b.codeChanges.Some? ==> ClaimTrue(w.deviations, b.spec.blockId, b.codeChanges.value)
    ensures b.memoryChanges.Some? ==>
              && b.memoryChanges.value.allowed == w.memoryPaths
              && ClaimTrue(w.deviations, b.spec.blockId, b.memoryChanges.value)
  {
    hide ClaimTrue;
    assert b in w.blocks + w.supersededBlocks;
  }

  lemma ClaimKeepsInside(steps: seq<Step>, w: WorkOrder, block: Identifier, changes: ChangeRecord)
    requires ClaimTrue(w.deviations, block, changes) && RecordSourced(steps, w)
    requires changes.Outside() ==> changes.approvedDeviation.Some?
    ensures StaysInside(steps, w, block, changes.allowed, changes)
  {
    hide Inside, Within, BlockSourced, LoggedIn, NamedIn, AmendedIn, ApprovalIn, AttachedIn;
    forall p | p in changes.changedPaths && Within(p, changes.allowed)
      ensures exists dir :: dir in changes.allowed && Inside(p, dir)
    {
      WithinMeans(p, changes.allowed);
    }
    if changes.Outside() {
      var d :| d in w.deviations && d.id == changes.approvedDeviation.value && d.blockId == Some(block)
               && d.approvedBy.Some?;
      var s :| s in steps && ApprovesDeviation(s, d);
    }
  }
}
