/**
 The block sub-machine: what each block step does to one block, and that a step from a good
 record yields a good record with a legal history.
 */
module ControlBlocks {
  import opened Prelude
  import opened ControlModel
  import opened ControlEvolution
  import opened ControlMachine
  import opened ControlInvariant
  import opened ControlRaise

  // --- Changing one unfinished block ---

  /** A change of block i to b that uses the given profiles, as every block step makes it. */
  ghost predicate BlockChange(w: WorkOrder, i: nat, b: Block, used: seq<Profile>) {
    && w.status == Executing
    && i < |w.blocks| && !w.blocks[i].IsDone()
    && b.spec == w.blocks[i].spec
    && b.Valid()
    && (b.status != Pending ==> forall j :: 0 <= j < i ==> w.blocks[j].IsDone())
    && Staged(b)
    && BlockRecorded(b, used)
    && w.usedProfiles <= used
    && (forall x, y :: 0 <= x < y < |used| ==> used[x] != used[y])
  }

  function WithBlock(w: WorkOrder, i: nat, b: Block, used: seq<Profile>, evidence: seq<EvidenceRef>): WorkOrder
    requires i < |w.blocks|
  {
    w.(blocks := w.blocks[i := b], usedProfiles := used, evidence := w.evidence + evidence)
  }

  lemma RecordedGrows(used: seq<Profile>, more: seq<Profile>, b: Block)
    requires used <= more && BlockRecorded(b, used)
    ensures BlockRecorded(b, more)
  {
    forall p | p in used
      ensures p in more
    {
    }
  }

  lemma AllRecordedGrow(used: seq<Profile>, more: seq<Profile>, blocks: seq<Block>)
    requires used <= more && forall b :: b in blocks ==> BlockRecorded(b, used)
    ensures forall b :: b in blocks ==> BlockRecorded(b, more)
  {
    forall b | b in blocks
      ensures BlockRecorded(b, more)
    {
      RecordedGrows(used, more, b);
    }
  }

  lemma BlockChangeStructural(w: WorkOrder, i: nat, b: Block, used: seq<Profile>, evidence: seq<EvidenceRef>)
    requires Good(w) && BlockChange(w, i, b, used)
    ensures WithBlock(w, i, b, used, evidence).Structural()
  {
    var next := WithBlock(w, i, b, used, evidence);
    BlockChangeParts(w, i, b, used, evidence);
    assert BlocksMatchPlan(next.blocks, next.planVersions, next.approvals);
  }

  lemma BlockChangeParts(w: WorkOrder, i: nat, b: Block, used: seq<Profile>, evidence: seq<EvidenceRef>)
    requires w.PartsValid() && w.ProfilesRecorded() && BlockChange(w, i, b, used)
    ensures WithBlock(w, i, b, used, evidence).PartsValid() && WithBlock(w, i, b, used, evidence).ProfilesRecorded()
  {
    hide Block.Valid, BlockRecorded, AttentionRequest.Valid;
    AllRecordedGrow(w.usedProfiles, used, w.blocks);
    AllRecordedGrow(w.usedProfiles, used, w.supersededBlocks);
    assert forall x :: x in w.blocks[i := b] ==> x == b || x in w.blocks;
  }

  lemma BlockChangeKept(w: WorkOrder, i: nat, b: Block, used: seq<Profile>, evidence: seq<EvidenceRef>)
    requires Good(w) && BlockChange(w, i, b, used)
    ensures Kept(WithBlock(w, i, b, used, evidence))
  {
    var next := WithBlock(w, i, b, used, evidence);
    assert InOrder(next.blocks) by {
      assert forall j :: i < j < |w.blocks| ==> w.blocks[j].status == Pending;
    }
    assert AllStaged(next.blocks);
  }

  lemma BlockChangeHistory(w: WorkOrder, i: nat, b: Block, used: seq<Profile>, evidence: seq<EvidenceRef>)
    requires Good(w) && BlockChange(w, i, b, used)
    ensures HistoryKept(w, WithBlock(w, i, b, used, evidence))
  {
    hide Block.Valid, BlockRecorded;
    BlocksLaidOut(w);
    AttentionKeptWhen(w.attention, w.attention);
    DoneBlocksSurvive(w.blocks, i, b);
  }

  lemma DoneBlocksSurvive(blocks: seq<Block>, i: nat, b: Block)
    requires DistinctBlocks(blocks) && i < |blocks| && !blocks[i].IsDone() && b.spec == blocks[i].spec
    ensures DoneBlocksKept(blocks, blocks[i := b])
  {
    var after := blocks[i := b];
    forall x | x in blocks && x.IsDone()
      ensures x in after
    {
      var j :| 0 <= j < |blocks| && blocks[j] == x;
      assert after[j] == x;
    }
    DoneBlocksKeptWhen(blocks, after);
  }

  lemma BlockChangeKeeps(w: WorkOrder, i: nat, b: Block, used: seq<Profile>, evidence: seq<EvidenceRef>)
    requires Good(w) && BlockChange(w, i, b, used)
    ensures Good(WithBlock(w, i, b, used, evidence))
    ensures HistoryKept(w, WithBlock(w, i, b, used, evidence))
  {
    BlockChangeStructural(w, i, b, used, evidence);
    BlockChangeKept(w, i, b, used, evidence);
    BlockChangeHistory(w, i, b, used, evidence);
  }

  // --- The sub-machine ---

  /** The number of attempts that ran a role. */
  function CountRole(attempts: seq<AttemptRecord>, role: Role): nat {
    if attempts == [] then 0
    else CountRole(attempts[..|attempts| - 1], role) + if attempts[|attempts| - 1].role == role then 1 else 0
  }

  datatype Ran = Nobody | OneExecutor | OneCurator

  /** One more attempt, by the given role, or none. */
  ghost predicate RanBy(b: Block, c: Block, ran: Ran) {
    && CountRole(c.attempts, PrimaryCodeExecutor) ==
       CountRole(b.attempts, PrimaryCodeExecutor) + (if ran == OneExecutor then 1 else 0)
    && CountRole(c.attempts, MemoryCurator) ==
       CountRole(b.attempts, MemoryCurator) + (if ran == OneCurator then 1 else 0)
  }

  ghost predicate Counters(b: Block, c: Block, failed: nat, curated: nat) {
    c.failedAttempts == b.failedAttempts + failed && c.curationAttempts == b.curationAttempts + curated
  }

  /** Every legal change of one block, with its effect on attempts and counters under a budget. */
  ghost predicate BlockStep(b: Block, c: Block, limit: nat) {
    && c.spec == b.spec
    && match (b.status, c.status) {
         case (Pending, Running) => RanBy(b, c, OneExecutor) && Counters(b, c, 0, 0) && b.failedAttempts < limit
         case (Running, Testing) => RanBy(b, c, Nobody) && Counters(b, c, 0, 0)
         case (Testing, BlockResult) => RanBy(b, c, Nobody) && Counters(b, c, 0, 0)
         case (BlockResult, CodeApproved) => RanBy(b, c, Nobody) && Counters(b, c, 0, 0)
         case (Running, Pending) => RanBy(b, c, Nobody) && Counters(b, c, 1, 0)
         case (Testing, Pending) => RanBy(b, c, Nobody) && Counters(b, c, 1, 0)
         case (BlockResult, Pending) => RanBy(b, c, Nobody) && Counters(b, c, 1, 0)
         case (CodeApproved, MemoryCuration) => RanBy(b, c, OneCurator) && Counters(b, c, 0, 0)
         case (MemoryAudit, MemoryCuration) => RanBy(b, c, OneCurator) && Counters(b, c, 0, 1)
           && b.curationAttempts < limit
         case (MemoryCuration, MemoryAudit) => RanBy(b, c, Nobody) && Counters(b, c, 0, 0)
         case (MemoryAudit, BlockCheckpoint) => RanBy(b, c, Nobody) && Counters(b, c, 0, 0)
         case (CodeApproved, BlockCheckpoint) => RanBy(b, c, Nobody) && Counters(b, c, 0, 0)
         case (BlockCheckpoint, BlockDone) => RanBy(b, c, Nobody) && Counters(b, c, 0, 0)
         case (BlockCheckpoint, BlockCheckpoint) => RanBy(b, c, Nobody) && Counters(b, c, 0, 0)
         case _ => false
       }
  }

  function Limit(w: WorkOrder): nat {
    if w.budget.Some? then w.budget.value.maxAttemptsPerBlock else 0
  }

  /** What a block step leaves alone outside the blocks. */
  ghost predicate EnvelopeUntouched(w: WorkOrder, next: WorkOrder) {
    && next.budget == w.budget
    && next.executionProfile == w.executionProfile
    && next.amendments == w.amendments
    && next.finalAudit == w.finalAudit
    && next.approvals == w.approvals
    && next.planVersions == w.planVersions
    && next.supersededBlocks == w.supersededBlocks
    && next.outcome == w.outcome
    && next.plannedBaseline == w.plannedBaseline
    && next.candidate == w.candidate
    && WaivedIndependence(w.attention) <= WaivedIndependence(next.attention)
  }

  /** Block i took a step; a proof that fails is the one that must also escalate. */
  ghost predicate Stepped(w: WorkOrder, next: WorkOrder, i: nat) {
    && i < |w.blocks| == |next.blocks|
    && next.blocks == w.blocks[i := next.blocks[i]]
    && BlockStep(w.blocks[i], next.blocks[i], Limit(w))
    && (next.status == Executing ==> next.blocks[i].status != w.blocks[i].status)
    && (next.status == Executing && next.blocks[i].status == Pending ==> next.blocks[i].failedAttempts < Limit(w))
  }

  /** The effect of every block step: one block changes, or the work order escalates. */
  ghost predicate MoveEffect(w: WorkOrder, next: WorkOrder) {
    && Good(next)
    && HistoryKept(w, next)
    && next.status in {Executing, UserAttentionRequired}
    && EnvelopeUntouched(w, next)
    && ((next.blocks == w.blocks && next.status == UserAttentionRequired) || exists i: nat :: Stepped(w, next, i))
  }

  // --- Composing a change with an escalation ---

  lemma EscalateOnly(w: WorkOrder, reason: AttentionReason)
    requires Good(w) && w.status == Executing && reason.evidence != []
    ensures RaiseAttention(w, [reason], None).Ok?
    ensures MoveEffect(w, RaiseAttention(w, [reason], None).value)
  {
    NoneOpen(w);
    RaiseKeeps(w, [reason], None);
    BlocksLaidOut(w);
    DoneBlocksKeptWhen(w.blocks, w.blocks);
  }

  lemma NoneOpen(w: WorkOrder)
    requires w.Structural() && w.status != UserAttentionRequired
    ensures OpenRequest(w.attention).None?
  {
    assert OpenCountOk(w.attention, false);
  }

  lemma ChangeOnly(w: WorkOrder, i: nat, b: Block, used: seq<Profile>, evidence: seq<EvidenceRef>)
    requires Good(w) && BlockChange(w, i, b, used)
    requires BlockStep(w.blocks[i], b, Limit(w)) && b.status != w.blocks[i].status
    requires b.status == Pending ==> b.failedAttempts < Limit(w)
    ensures MoveEffect(w, WithBlock(w, i, b, used, evidence))
  {
    BlockChangeKeeps(w, i, b, used, evidence);
    assert Stepped(w, WithBlock(w, i, b, used, evidence), i);
  }

  lemma ChangeThenEscalate(w: WorkOrder, i: nat, b: Block, used: seq<Profile>, evidence: seq<EvidenceRef>,
                           reason: AttentionReason)
    requires Good(w) && BlockChange(w, i, b, used) && reason.evidence != []
    requires BlockStep(w.blocks[i], b, Limit(w))
    ensures RaiseAttention(WithBlock(w, i, b, used, evidence), [reason], None).Ok?
    ensures MoveEffect(w, RaiseAttention(WithBlock(w, i, b, used, evidence), [reason], None).value)
  {
    hide Good, HistoryKept, Block.Valid, BlockRecorded, BlockStep;
    var mid := WithBlock(w, i, b, used, evidence);
    BlockChangeKeeps(w, i, b, used, evidence);
    RaiseFromWork(mid, reason);
    RaiseKeeps(mid, [reason], None);
    var next := RaiseAttention(mid, [reason], None).value;
    HistoryThenAttention(w, mid, next);
    assert Stepped(w, next, i);
  }

  lemma RaiseFromWork(w: WorkOrder, reason: AttentionReason)
    requires Good(w) && w.status in ATTENTION_SOURCES
    ensures RaiseAttention(w, [reason], None).Ok?
    ensures RaiseAttention(w, [reason], None).value.status == UserAttentionRequired
  {
    NoneOpen(w);
  }
}
