/** Each block step has the effect ControlBlocks allows; no validator is consulted on the way. */
module ControlMoves {
  import opened Prelude
  import opened ControlModel
  import opened ControlEvolution
  import opened ControlMachine
  import opened ControlInvariant
  import opened ControlRaise
  import opened ControlBlocks

  // --- One block, on its own ---

  /** What the validators and the invariant say of one block. */
  ghost predicate Sound(b: Block, used: seq<Profile>) {
    && b.Valid()
    && BlockRecorded(b, used)
    && Staged(b)
  }

  /** A legal change of an unfinished block into a sound one. */
  ghost predicate LocalChange(b: Block, c: Block, used: seq<Profile>, limit: nat) {
    !b.IsDone() && Sound(c, used) && BlockStep(b, c, limit)
  }

  ghost predicate NoRepeats(used: seq<Profile>) {
    forall x, y :: 0 <= x < y < |used| ==> used[x] != used[y]
  }

  lemma WithProfileOk(used: seq<Profile>, p: Profile)
    requires NoRepeats(used)
    ensures used <= WithProfile(used, p) && p in WithProfile(used, p) && NoRepeats(WithProfile(used, p))
  {
  }

  lemma CountRoleAppend(attempts: seq<AttemptRecord>, a: AttemptRecord, role: Role)
    ensures CountRole(attempts + [a], role) == CountRole(attempts, role) + if a.role == role then 1 else 0
  {
    assert (attempts + [a])[..|attempts|] == attempts;
  }

  /** One more attempt of a defined profile leaves every profile recorded, whatever audits are dropped. */
  lemma AttemptRecorded(b: Block, c: Block, used: seq<Profile>, attempt: AttemptRecord)
    requires BlockRecorded(b, used) && attempt.profile.fingerprint.Ref() == attempt.profile
    requires c.attempts == b.attempts + [attempt]
    requires c.codeAudit.Some? ==> c.codeAudit == b.codeAudit
    requires c.memoryAudit.Some? ==> c.memoryAudit == b.memoryAudit
    ensures BlockRecorded(c, WithProfile(used, attempt.profile.fingerprint))
  {
    RecordedGrows(used, WithProfile(used, attempt.profile.fingerprint), b);
  }

  lemma BeginLocal(b: Block, used: seq<Profile>, attempt: AttemptRecord, limit: nat)
    requires Sound(b, used) && b.status == Pending && NoRepeats(used) && b.failedAttempts < limit
    requires attempt.role == PrimaryCodeExecutor && attempt.profile.fingerprint.Ref() == attempt.profile
    ensures LocalChange(b,
                        b.(status := Running, attempts := b.attempts + [attempt], tests := None, codeAudit := None,
                           codeChanges := None),
                        WithProfile(used, attempt.profile.fingerprint), limit)
  {
    hide BlockRecorded;
    var c := b.(status := Running, attempts := b.attempts + [attempt], tests := None, codeAudit := None,
                codeChanges := None);
    AttemptRecorded(b, c, used, attempt);
    CountRoleAppend(b.attempts, attempt, PrimaryCodeExecutor);
    CountRoleAppend(b.attempts, attempt, MemoryCurator);
  }

  lemma RunLocal(b: Block, used: seq<Profile>, tests: TestRecord, limit: nat)
    requires Sound(b, used)
    ensures b.status == Running ==> LocalChange(b, b.(status := Testing), used, limit)
    ensures b.status == Testing ==> LocalChange(b, b.(status := BlockResult, tests := Some(tests)), used, limit)
  {
  }

  lemma ApproveLocal(b: Block, used: seq<Profile>, audit: AuditRecord, changes: ChangeRecord, risk: RiskClass,
                     limit: nat)
    requires Sound(b, used) && b.status == BlockResult && NoRepeats(used)
             && audit.auditor.fingerprint.Ref() == audit.auditor
    requires b.(codeAudit := Some(audit), codeChanges := Some(changes), riskClass := Some(risk)).CodeApprovalHolds()
    ensures LocalChange(b,
                        b.(codeAudit := Some(audit), codeChanges := Some(changes), riskClass := Some(risk),
                           status := CodeApproved),
                        WithProfile(used, audit.auditor.fingerprint), limit)
  {
    WithProfileOk(used, audit.auditor.fingerprint);
    RecordedGrows(used, WithProfile(used, audit.auditor.fingerprint), b);
    var c := b.(codeAudit := Some(audit), codeChanges := Some(changes), riskClass := Some(risk),
                status := CodeApproved);
    assert c.CodeApprovalHolds();
  }

  lemma FailLocal(b: Block, used: seq<Profile>, limit: nat)
    requires Sound(b, used) && b.status in {Running, Testing, BlockResult}
    ensures LocalChange(b,
                        b.(status := Pending, failedAttempts := b.failedAttempts + 1, tests := None, codeAudit := None,
                           codeChanges := None),
                        used, limit)
  {
  }

  /** A block while its memory is curated. */
  function CuratedBlock(b: Block, attempt: AttemptRecord): Block {
    b.(status := MemoryCuration, attempts := b.attempts + [attempt],
       curationAttempts := b.curationAttempts + (if b.status == MemoryAudit then 1 else 0), memoryChanges := None,
         memoryAudit := None)
  }

  lemma CurationLocal(b: Block, used: seq<Profile>, attempt: AttemptRecord, limit: nat)
    requires Sound(b, used) && b.status in {CodeApproved, MemoryAudit} && b.spec.memoryImpact && NoRepeats(used)
    requires b.curationAttempts < limit
    requires attempt.role == MemoryCurator && attempt.profile.fingerprint.Ref() == attempt.profile
    ensures LocalChange(b, CuratedBlock(b, attempt), WithProfile(used, attempt.profile.fingerprint), limit)
  {
    hide Block.CodeApprovalHolds, BlockRecorded;
    var c := CuratedBlock(b, attempt);
    CodeApprovalStays(b, c);
    AttemptRecorded(b, c, used, attempt);
    CountRoleAppend(b.attempts, attempt, PrimaryCodeExecutor);
    CountRoleAppend(b.attempts, attempt, MemoryCurator);
  }

  /** A code approval depends on nothing that memory curation changes. */
  lemma CodeApprovalStays(b: Block, c: Block)
    requires b.CodeApprovalHolds()
    requires c.spec == b.spec && c.codeAudit == b.codeAudit && c.tests == b.tests && c.codeChanges == b.codeChanges
    ensures c.CodeApprovalHolds()
  {
  }

  lemma FinishCurationLocal(b: Block, used: seq<Profile>, changes: ChangeRecord, limit: nat)
    requires Sound(b, used) && b.status == MemoryCuration
    ensures LocalChange(b, b.(status := MemoryAudit, memoryChanges := Some(changes)), used, limit)
  {
    hide Block.CodeApprovalHolds;
    CodeApprovalStays(b, b.(status := MemoryAudit, memoryChanges := Some(changes)));
  }

  lemma ApproveCurationLocal(b: Block, used: seq<Profile>, audit: AuditRecord, limit: nat)
    requires Sound(b, used) && b.status == MemoryAudit && NoRepeats(used)
             && audit.auditor.fingerprint.Ref() == audit.auditor
    requires b.(memoryAudit := Some(audit)).MemoryApprovalHolds() && b.riskClass.Some?
    ensures LocalChange(b, b.(memoryAudit := Some(audit), status := BlockCheckpoint),
                        WithProfile(used, audit.auditor.fingerprint), limit)
  {
    hide Block.CodeApprovalHolds;
    WithProfileOk(used, audit.auditor.fingerprint);
    RecordedGrows(used, WithProfile(used, audit.auditor.fingerprint), b);
    var c := b.(memoryAudit := Some(audit), status := BlockCheckpoint);
    CodeApprovalStays(b, c);
    assert c.MemoryApprovalHolds();
  }

  lemma EnterCheckpointLocal(b: Block, used: seq<Profile>, limit: nat)
    requires Sound(b, used) && b.status == CodeApproved && !b.spec.memoryImpact
    ensures LocalChange(b, b.(status := BlockCheckpoint), used, limit)
  {
    hide Block.CodeApprovalHolds;
    CodeApprovalStays(b, b.(status := BlockCheckpoint));
  }

  lemma ProveLocal(b: Block, used: seq<Profile>, proof: CheckpointProof, limit: nat)
    requires Sound(b, used) && b.status == BlockCheckpoint && b.ApprovingAudit().Some?
    ensures proof.Proves(b.ApprovingAudit().value.auditedState) ==>
              LocalChange(b, b.(status := BlockDone, checkpoint := Some(proof)), used, limit)
    ensures LocalChange(b, b.(rejectedCheckpoints := b.rejectedCheckpoints + [proof]), used, limit)
  {
    hide Block.CodeApprovalHolds;
    CodeApprovalStays(b, b.(status := BlockDone, checkpoint := Some(proof)));
    CodeApprovalStays(b, b.(rejectedCheckpoints := b.rejectedCheckpoints + [proof]));
  }

  // --- The block inside its record ---

  lemma BlockFacts(w: WorkOrder, i: nat)
    requires Good(w) && i < |w.blocks|
    ensures Sound(w.blocks[i], w.usedProfiles) && NoRepeats(w.usedProfiles)
  {
    assert w.blocks[i] in w.blocks;
  }

  lemma LaidOut(w: WorkOrder)
    requires Good(w)
    ensures DistinctBlocks(w.blocks)
    ensures forall i :: 0 <= i < |w.blocks| ==> w.blocks[i].spec.order == i + 1
  {
    BlocksLaidOut(w);
  }

  /** A profile that passes the binding check is a defined version. */
  lemma CheckedProfile(w: WorkOrder, role: Role, profile: ProfileRef, condition: Option<FallbackCondition>,
                       evidence: Option<EvidenceRef>)
    requires Good(w) && !CheckProfile(w, role, profile, condition, evidence).IsFailure()
    ensures profile.fingerprint.Ref() == profile
  {
    var b := w.executionProfile.Binding(role).value;
    assert w.executionProfile.BindingDefined(b);
    assert Recorded(w.executionProfile.profiles, profile);
  }

  /** A local change may start a pending block only when the earlier blocks are finished. */
  ghost predicate MayMove(w: WorkOrder, i: nat, b: Block, used: seq<Profile>) {
    && w.status == Executing && i < |w.blocks|
    && LocalChange(w.blocks[i], b, used, Limit(w))
    && w.usedProfiles <= used && NoRepeats(used)
    && (w.blocks[i].status == Pending ==> forall j :: 0 <= j < i ==> w.blocks[j].IsDone())
  }

  lemma MayMoveChanges(w: WorkOrder, i: nat, b: Block, used: seq<Profile>)
    requires Good(w) && MayMove(w, i, b, used)
    ensures BlockChange(w, i, b, used) && BlockStep(w.blocks[i], b, Limit(w))
  {
  }

  /** Moving block i to b. */
  lemma MovesTo(w: WorkOrder, i: nat, b: Block, used: seq<Profile>, evidence: seq<EvidenceRef>)
    requires Good(w) && MayMove(w, i, b, used)
    requires b.status != w.blocks[i].status
    requires b.status == Pending ==> b.failedAttempts < Limit(w)
    ensures MoveEffect(w, WithBlock(w, i, b, used, evidence))
    ensures UpdateBlock(w.blocks, b) == w.blocks[i := b]
  {
    hide Good, MoveEffect;
    UpdatesOne(w, i, b, used);
    MayMoveChanges(w, i, b, used);
    ChangeOnly(w, i, b, used, evidence);
  }

  lemma UpdatesOne(w: WorkOrder, i: nat, b: Block, used: seq<Profile>)
    requires Good(w) && MayMove(w, i, b, used)
    ensures UpdateBlock(w.blocks, b) == w.blocks[i := b]
  {
    hide Good;
    LaidOut(w);
    UpdateBlockIs(w.blocks, i, b);
  }

  lemma MovesAndEscalates(w: WorkOrder, i: nat, b: Block, used: seq<Profile>, evidence: seq<EvidenceRef>,
                          reason: AttentionReason)
    requires Good(w) && MayMove(w, i, b, used) && reason.evidence != []
    ensures RaiseAttention(WithBlock(w, i, b, used, evidence), [reason], None).Ok?
    ensures MoveEffect(w, RaiseAttention(WithBlock(w, i, b, used, evidence), [reason], None).value)
    ensures UpdateBlock(w.blocks, b) == w.blocks[i := b]
  {
    hide Good, MoveEffect, RaiseAttention;
    UpdatesOne(w, i, b, used);
    MayMoveChanges(w, i, b, used);
    ChangeThenEscalate(w, i, b, used, evidence, reason);
  }

  lemma GapsEscalate(w: WorkOrder, gaps: seq<Gap>)
    requires Good(w) && w.status == Executing && gaps != []
    ensures IndependenceAttention(w, gaps).Ok?
    ensures MoveEffect(w, IndependenceAttention(w, gaps).value)
  {
    hide Good, MoveEffect, RaiseAttention;
    EscalateOnly(w, AttentionReason(IndependenceUnavailable, Blocking, "auditor independence cannot be met",
                                    GapEvidence(gaps), []));
  }

  // --- The ten block steps ---

  lemma BeginMoves(w: WorkOrder, id: Identifier, profile: ProfileRef, condition: Option<FallbackCondition>,
                   evidence: Option<EvidenceRef>)
    requires Good(w) && BeginAttempt(w, id, profile, condition, evidence).Ok?
    ensures MoveEffect(w, BeginAttempt(w, id, profile, condition, evidence).value)
  {
    hide Good, MoveEffect, CheckProfile, RaiseAttention, ProducerGaps, WithProfile;
    var i := FoundBlock(w, id, {Pending});
    var block := w.blocks[i];
    var gaps := ProducerGaps(w, PrimaryCodeExecutor, profile.fingerprint);
    if !AttemptsLeft(w.budget, block.failedAttempts) {
      EscalateOnly(w, Exhausted("block attempts", Reference("block", id)));
    } else if gaps != [] {
      GapsEscalate(w, gaps);
    } else {
      assert forall j :: 0 <= j < i ==> w.blocks[j] in w.blocks;
      LaidOut(w);
      CheckedProfile(w, PrimaryCodeExecutor, profile, condition, evidence);
      BeginChanges(w, i, AttemptRecord(PrimaryCodeExecutor, profile, condition, evidence));
    }
  }

  lemma BeginChanges(w: WorkOrder, i: nat, attempt: AttemptRecord)
    requires Good(w) && w.status == Executing && i < |w.blocks| && w.blocks[i].status == Pending
    requires forall j :: 0 <= j < i ==> w.blocks[j].IsDone()
    requires w.blocks[i].failedAttempts < Limit(w)
    requires attempt.role == PrimaryCodeExecutor && attempt.profile.fingerprint.Ref() == attempt.profile
    ensures var b := w.blocks[i].(status := Running, attempts := w.blocks[i].attempts + [attempt], tests := None,
                                  codeAudit := None, codeChanges := None);
            MoveEffect(w, Use(w, attempt.profile.fingerprint).(blocks := UpdateBlock(w.blocks, b)))
  {
    hide Good, MoveEffect, LocalChange, Sound, NoRepeats, WithProfile;
    var b := w.blocks[i].(status := Running, attempts := w.blocks[i].attempts + [attempt], tests := None,
                          codeAudit := None, codeChanges := None);
    var used := WithProfile(w.usedProfiles, attempt.profile.fingerprint);
    BlockFacts(w, i);
    WithProfileOk(w.usedProfiles, attempt.profile.fingerprint);
    BeginLocal(w.blocks[i], w.usedProfiles, attempt, Limit(w));
    MovesTo(w, i, b, used, []);
    assert Use(w, attempt.profile.fingerprint).(blocks := UpdateBlock(w.blocks, b)) == WithBlock(w, i, b, used, []);
  }

  lemma FinishMoves(w: WorkOrder, id: Identifier)
    requires Good(w) && FinishRun(w, id).Ok?
    ensures MoveEffect(w, FinishRun(w, id).value)
  {
    hide Good, MoveEffect, LocalChange, Sound, NoRepeats;
    var i := FoundBlock(w, id, {Running});
    var b := w.blocks[i].(status := Testing);
    BlockFacts(w, i);
    RunLocal(w.blocks[i], w.usedProfiles, TestRecord(false, StateIdentity("", ""), Reference("", "")), Limit(w));
    MovesTo(w, i, b, w.usedProfiles, []);
    assert FinishRun(w, id).value == WithBlock(w, i, b, w.usedProfiles, []);
  }

  lemma TestsMove(w: WorkOrder, id: Identifier, tests: TestRecord)
    requires Good(w) && RecordTests(w, id, tests).Ok?
    ensures MoveEffect(w, RecordTests(w, id, tests).value)
  {
    hide Good, MoveEffect, LocalChange, Sound, NoRepeats;
    var i := FoundBlock(w, id, {Testing});
    var b := w.blocks[i].(status := BlockResult, tests := Some(tests));
    BlockFacts(w, i);
    RunLocal(w.blocks[i], w.usedProfiles, tests, Limit(w));
    MovesTo(w, i, b, w.usedProfiles, []);
    assert RecordTests(w, id, tests).value == WithBlock(w, i, b, w.usedProfiles, []);
  }

  lemma ApproveMoves(w: WorkOrder, id: Identifier, audit: AuditRecord, changes: ChangeRecord, current: StateIdentity)
    requires Good(w) && ApproveCode(w, id, audit, changes, current).Ok?
    ensures MoveEffect(w, ApproveCode(w, id, audit, changes, current).value)
  {
    hide Good, MoveEffect, CheckProfile, RaiseAttention, LocalChange, Sound, NoRepeats, RecordedGaps,
      Block.CodeApprovalHolds, ProducersOf, GapEvidence, UpdateBlock, FindBlock, IndependenceAttention, WithProfile;
    var i := FoundBlock(w, id, {BlockResult});
    var block := w.blocks[i];
    var risk := ApprovedRisk(w);
    var gaps := RecordedGaps(w, risk, audit, ProducersOf(block.attempts, {PrimaryCodeExecutor}));
    if gaps != [] {
      GapsEscalate(w, gaps);
    } else {
      var b := block.(codeAudit := Some(audit), codeChanges := Some(changes), riskClass := Some(risk),
                      status := CodeApproved);
      var used := WithProfile(w.usedProfiles, audit.auditor.fingerprint);
      BlockFacts(w, i);
      CheckedProfile(w, audit.role, audit.auditor, None, None);
      WithProfileOk(w.usedProfiles, audit.auditor.fingerprint);
      ApproveLocal(block, w.usedProfiles, audit, changes, risk, Limit(w));
      MovesTo(w, i, b, used, []);
      assert ApproveCode(w, id, audit, changes, current).value == WithBlock(w, i, b, used, []);
    }
  }

  lemma FailMoves(w: WorkOrder, id: Identifier, failure: EvidenceRef)
    requires Good(w) && FailAttempt(w, id, failure).Ok?
    ensures MoveEffect(w, FailAttempt(w, id, failure).value)
  {
    hide Good, MoveEffect, RaiseAttention, LocalChange, Sound, NoRepeats;
    var i := FoundBlock(w, id, {Running, Testing, BlockResult});
    var block := w.blocks[i];
    var b := block.(status := Pending, failedAttempts := block.failedAttempts + 1, tests := None, codeAudit := None,
                    codeChanges := None);
    BlockFacts(w, i);
    FailLocal(block, w.usedProfiles, Limit(w));
    var mid := WithBlock(w, i, b, w.usedProfiles, [failure]);
    if AttemptsLeft(w.budget, b.failedAttempts) {
      MovesTo(w, i, b, w.usedProfiles, [failure]);
      assert w.(evidence := w.evidence + [failure], blocks := UpdateBlock(w.blocks, b)) == mid;
    } else {
      MovesAndEscalates(w, i, b, w.usedProfiles, [failure], Exhausted("block attempts", failure));
      assert w.(evidence := w.evidence + [failure], blocks := UpdateBlock(w.blocks, b)) == mid;
    }
  }

  /** The three outcomes of starting a curation that is not refused. */
  lemma CurationOutcome(w: WorkOrder, id: Identifier, profile: ProfileRef, condition: Option<FallbackCondition>,
                        evidence: Option<EvidenceRef>)
    returns (i: nat)
    requires BeginMemoryCuration(w, id, profile, condition, evidence).Ok?
    ensures w.status == Executing && i < |w.blocks| && FindBlock(w.blocks, id) == Some(w.blocks[i])
    ensures w.blocks[i].status in {CodeApproved, MemoryAudit} && w.blocks[i].spec.memoryImpact
    ensures var gaps := ProducerGaps(w, MemoryCurator, profile.fingerprint);
            BeginMemoryCuration(w, id, profile, condition, evidence) ==
              if !AttemptsLeft(w.budget, w.blocks[i].curationAttempts) then
                RaiseAttention(w, [Exhausted("memory curation", Reference("block", id))], None)
              else if gaps != [] then IndependenceAttention(w, gaps)
              else Ok(Curating(w, i, AttemptRecord(MemoryCurator, profile, condition, evidence)))
    ensures AttemptsLeft(w.budget, w.blocks[i].curationAttempts) ==>
            !CheckProfile(w, MemoryCurator, profile, condition, evidence).IsFailure()
  {
    hide CheckProfile, RaiseAttention, ProducerGaps, WithProfile, UpdateBlock;
    i := FoundBlock(w, id, {CodeApproved, MemoryAudit});
  }

  function Curating(w: WorkOrder, i: nat, attempt: AttemptRecord): WorkOrder
    requires i < |w.blocks|
  {
    Use(w, attempt.profile.fingerprint).(blocks := UpdateBlock(w.blocks, CuratedBlock(w.blocks[i], attempt)))
  }

  lemma BeginCurationMoves(w: WorkOrder, id: Identifier, profile: ProfileRef, condition: Option<FallbackCondition>,
                           evidence: Option<EvidenceRef>)
    requires Good(w) && BeginMemoryCuration(w, id, profile, condition, evidence).Ok?
    ensures MoveEffect(w, BeginMemoryCuration(w, id, profile, condition, evidence).value)
  {
    hide Good, MoveEffect, CheckProfile, RaiseAttention, ProducerGaps, BeginMemoryCuration, Curating;
    var i := CurationOutcome(w, id, profile, condition, evidence);
    var gaps := ProducerGaps(w, MemoryCurator, profile.fingerprint);
    if !AttemptsLeft(w.budget, w.blocks[i].curationAttempts) {
      EscalateOnly(w, Exhausted("memory curation", Reference("block", id)));
    } else if gaps != [] {
      GapsEscalate(w, gaps);
    } else {
      CheckedProfile(w, MemoryCurator, profile, condition, evidence);
      CurationChanges(w, i, AttemptRecord(MemoryCurator, profile, condition, evidence));
    }
  }

  lemma CurationChanges(w: WorkOrder, i: nat, attempt: AttemptRecord)
    requires Good(w) && w.status == Executing && i < |w.blocks| && w.blocks[i].status in {CodeApproved, MemoryAudit}
    requires w.blocks[i].spec.memoryImpact && w.blocks[i].curationAttempts < Limit(w)
    requires attempt.role == MemoryCurator && attempt.profile.fingerprint.Ref() == attempt.profile
    ensures MoveEffect(w, Curating(w, i, attempt))
  {
    hide Good, MoveEffect, LocalChange, Sound, NoRepeats, WithProfile;
    var b := CuratedBlock(w.blocks[i], attempt);
    var used := WithProfile(w.usedProfiles, attempt.profile.fingerprint);
    BlockFacts(w, i);
    WithProfileOk(w.usedProfiles, attempt.profile.fingerprint);
    CurationLocal(w.blocks[i], w.usedProfiles, attempt, Limit(w));
    MovesTo(w, i, b, used, []);
    assert Curating(w, i, attempt) == WithBlock(w, i, b, used, []);
  }

  lemma FinishCurationMoves(w: WorkOrder, id: Identifier, changes: ChangeRecord)
    requires Good(w) && FinishMemoryCuration(w, id, changes).Ok?
    ensures MoveEffect(w, FinishMemoryCuration(w, id, changes).value)
  {
    hide Good, MoveEffect, RaiseAttention, LocalChange, Sound, NoRepeats, RecordDeviation;
    var i := FoundBlock(w, id, {MemoryCuration});
    var b := w.blocks[i].(status := MemoryAudit, memoryChanges := Some(changes));
    BlockFacts(w, i);
    FinishCurationLocal(w.blocks[i], w.usedProfiles, changes, Limit(w));
    MovesTo(w, i, b, w.usedProfiles, []);
    var mid := WithBlock(w, i, b, w.usedProfiles, []);
    assert w.(blocks := UpdateBlock(w.blocks, b)) == mid;
    if changes.Outside() && changes.approvedDeviation.None? {
      MayMoveChanges(w, i, b, w.usedProfiles);
      DeviationEscalates(w, mid, i, Deviation(AutoDeviation(|w.deviations| + 1), Some(id), true,
                                              "memory curation changed paths outside memory_paths", changes.evidence,
                                                None));
    }
  }

  /** Recording a material deviation found by a block step escalates and keeps the step's effect. */
  lemma DeviationEscalates(w: WorkOrder, mid: WorkOrder, i: nat, d: Deviation)
    requires Good(w) && w.status == Executing && i < |w.blocks| && MoveEffect(w, mid)
    requires mid == w.(blocks := w.blocks[i := mid.blocks[i]], usedProfiles := mid.usedProfiles,
                       evidence := mid.evidence)
    requires |mid.blocks| == |w.blocks| && BlockStep(w.blocks[i], mid.blocks[i], Limit(w))
    requires d.material && d.approvedBy.None? && d.id == AutoDeviation(|w.deviations| + 1)
    ensures RecordDeviation(mid, d).Ok?
    ensures MoveEffect(w, RecordDeviation(mid, d).value)
  {
    hide Good, HistoryKept, RaiseAttention, BlockStep, AttentionKept, WaivedIndependence, RaisedInto;
    var recorded := mid.(deviations := mid.deviations + [d]);
    var reason := AttentionReason(MaterialDeviation, Blocking, d.summary, [d.evidence], []);
    DeviationAdded(mid, d);
    RaiseFromWork(recorded, reason);
    RaiseKeeps(recorded, [reason], None);
    var next := RecordDeviation(mid, d).value;
    HistoryWithDeviation(w, mid, next, d);
    assert Stepped(w, next, i);
  }

  lemma HistoryWithDeviation(w: WorkOrder, mid: WorkOrder, next: WorkOrder, d: Deviation)
    requires HistoryKept(w, mid) && w.attention == mid.attention && w.deviations == mid.deviations
    requires next == mid.(deviations := mid.deviations + [d], status := next.status, attention := next.attention)
    requires AttentionKept(mid.attention, next.attention)
    ensures HistoryKept(w, next)
  {
  }

  /** A deviation with an unused id can be added to a good record. */
  lemma DeviationAdded(w: WorkOrder, d: Deviation)
    requires Good(w)
    requires d.id.AutoDeviation? ==> d.id.n == |w.deviations| + 1
    requires d.id.NamedDeviation? ==> forall x :: x in w.deviations ==> x.id != d.id
    ensures Good(w.(deviations := w.deviations + [d]))
  {
    forall i | 0 <= i < |w.deviations|
      ensures w.deviations[i].id != d.id
    {
      assert w.deviations[i] in w.deviations;
    }
    assert w.(deviations := w.deviations + [d]).Structural();
  }

  lemma ApproveCurationMoves(w: WorkOrder, id: Identifier, audit: AuditRecord, current: StateIdentity)
    requires Good(w) && ApproveMemory(w, id, audit, current).Ok?
    ensures MoveEffect(w, ApproveMemory(w, id, audit, current).value)
  {
    hide Good, MoveEffect, CheckProfile, RaiseAttention, LocalChange, Sound, NoRepeats, RecordedGaps,
      Block.MemoryApprovalHolds;
    var i := FoundBlock(w, id, {MemoryAudit});
    var block := w.blocks[i];
    var gaps := RecordedGaps(w, block.riskClass.value, audit, ProducersOf(block.attempts, {MemoryCurator}));
    if gaps != [] {
      GapsEscalate(w, gaps);
    } else {
      var b := block.(memoryAudit := Some(audit), status := BlockCheckpoint);
      var used := WithProfile(w.usedProfiles, audit.auditor.fingerprint);
      BlockFacts(w, i);
      CheckedProfile(w, audit.role, audit.auditor, None, None);
      WithProfileOk(w.usedProfiles, audit.auditor.fingerprint);
      ApproveCurationLocal(block, w.usedProfiles, audit, Limit(w));
      MovesTo(w, i, b, used, []);
      assert ApproveMemory(w, id, audit, current).value == WithBlock(w, i, b, used, []);
    }
  }

  lemma EnterCheckpointMoves(w: WorkOrder, id: Identifier, current: StateIdentity)
    requires Good(w) && EnterBlockCheckpoint(w, id, current).Ok?
    ensures MoveEffect(w, EnterBlockCheckpoint(w, id, current).value)
  {
    hide Good, MoveEffect, LocalChange, Sound, NoRepeats;
    var i := FoundBlock(w, id, {CodeApproved});
    var b := w.blocks[i].(status := BlockCheckpoint);
    BlockFacts(w, i);
    EnterCheckpointLocal(w.blocks[i], w.usedProfiles, Limit(w));
    MovesTo(w, i, b, w.usedProfiles, []);
    assert EnterBlockCheckpoint(w, id, current).value == WithBlock(w, i, b, w.usedProfiles, []);
  }

  lemma ProveCheckpointMoves(w: WorkOrder, id: Identifier, proof: CheckpointProof)
    requires Good(w) && ProveBlockCheckpoint(w, id, proof).Ok?
    ensures MoveEffect(w, ProveBlockCheckpoint(w, id, proof).value)
  {
    hide Good, MoveEffect, RaiseAttention, LocalChange, Sound, NoRepeats, CheckpointProof.Proves, UpdateBlock,
      FindBlock;
    var i := FoundBlock(w, id, {BlockCheckpoint});
    var block := w.blocks[i];
    BlockFacts(w, i);
    ProveLocal(block, w.usedProfiles, proof, Limit(w));
    if proof.Proves(block.ApprovingAudit().value.auditedState) {
      var b := block.(status := BlockDone, checkpoint := Some(proof));
      MovesTo(w, i, b, w.usedProfiles, []);
      assert ProveBlockCheckpoint(w, id, proof).value == WithBlock(w, i, b, w.usedProfiles, []);
    } else {
      var b := block.(rejectedCheckpoints := block.rejectedCheckpoints + [proof]);
      MovesAndEscalates(w, i, b, w.usedProfiles, [],
                        AttentionReason(BlockCheckpointMismatch, Blocking, "not the audited block state",
                                        [proof.evidence], []));
      assert w.(blocks := UpdateBlock(w.blocks, b)) == WithBlock(w, i, b, w.usedProfiles, []);
    }
  }

  /** Every block step from a good record, whatever its arguments, has a legal effect. */
  lemma MoveMoves(w: WorkOrder, id: Identifier, move: BlockMove)
    requires Good(w) && Move(w, id, move).Ok?
    ensures w.status == Executing && MoveEffect(w, Move(w, id, move).value)
  {
    hide Good, MoveEffect, RaiseAttention;
    match move
    case Begin(profile, condition, proof) => BeginMoves(w, id, profile, condition, proof);
    case Finish => FinishMoves(w, id);
    case Tests(tests) => TestsMove(w, id, tests);
    case Approve(audit, changes, current) => ApproveMoves(w, id, audit, changes, current);
    case Fail(failure) => FailMoves(w, id, failure);
    case BeginCuration(profile, condition, proof) => BeginCurationMoves(w, id, profile, condition, proof);
    case FinishCuration(changes) => FinishCurationMoves(w, id, changes);
    case ApproveCuration(audit, current) => ApproveCurationMoves(w, id, audit, current);
    case EnterCheckpoint(current) => EnterCheckpointMoves(w, id, current);
    case ProveCheckpoint(checkpoint) => ProveCheckpointMoves(w, id, checkpoint);
  }
}
