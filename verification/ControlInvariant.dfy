/**
 What every reachable WorkOrder satisfies beyond its validators, and the two updates every
 transition is built from: raising attention and changing one unfinished block.
 */
module ControlInvariant {
  import opened Prelude
  import opened ControlModel
  import opened ControlEvolution
  import opened ControlMachine

  /** The facts about reachable records that no validator states. */
  ghost predicate Kept(w: WorkOrder) {
    && AttentionIdsOk(w.attention)
    && DeviationIdsOk(w.deviations)
    && (w.status == Draft ==> w.plannedBaseline.None?)
    && (w.deferredFrom.Some? ==> w.deferredFrom.value in ATTENTION_SOURCES)
    && Ready(Phase(w), w.candidate, w.approvals, w.blocks)
    && (w.approvals != [] ==> w.blocks != [] && w.budget.Some?)
    && InOrder(w.blocks)
    && AllStaged(w.blocks)
    && (w.candidate.Some? ==> Some(w.candidate.value.baseCommit) == w.plannedBaseline)
    && (w.finalAudit.Some? ==> w.finalAudit.value.role == FinalVerifier && w.approvals != [])
    && (w.status == Promoted ==> w.finalAudit.Some? && w.finalAudit.value.Authoritative())
  }

  ghost predicate Good(w: WorkOrder) {
    w.Structural() && Kept(w)
  }

  ghost predicate AttentionIdsOk(attention: seq<AttentionRequest>) {
    && DistinctAttention(attention)
    && forall i :: 0 <= i < |attention| && attention[i].id.AutoAttention? ==> attention[i].id.n == i + 1
  }

  ghost predicate DeviationIdsOk(deviations: seq<Deviation>) {
    forall i :: 0 <= i < |deviations| && deviations[i].id.AutoDeviation? ==> deviations[i].id.n == i + 1
  }

  /** The state to which a WorkOrder in attention, or deferred, would return. */
  function Phase(w: WorkOrder): WorkOrderStatus {
    if w.status == Deferred && w.deferredFrom.Some? then w.deferredFrom.value
    else if w.status == UserAttentionRequired && OpenRequest(w.attention).Some? then
      OpenRequest(w.attention).value.raisedFrom
    else w.status
  }

  ghost predicate Ready(phase: WorkOrderStatus, candidate: Option<Candidate>, approvals: seq<PlanApproval>,
                        blocks: seq<Block>)
  {
    && (phase in BASELINE_BOUND + {Promoted} ==> approvals != [])
    && (phase in {Executing, FinalVerification, Promoted} ==> candidate.Some?)
    && (phase == FinalVerification ==> AllDone(blocks))
  }

  /** Finished blocks come first, then at most one block in progress, then pending blocks. */
  ghost predicate InOrder(blocks: seq<Block>) {
    forall i, j :: 0 <= i < j < |blocks| && blocks[j].status != Pending ==> blocks[i].IsDone()
  }

  /** A block holds an audit or a memory record only from the state that produced it on. */
  ghost predicate Staged(b: Block) {
    && (b.codeAudit.Some? ==> b.status in CODE_APPROVED_OR_LATER)
    && (b.memoryAudit.Some? ==> b.status in {BlockCheckpoint, BlockDone} && b.spec.memoryImpact)
    && (b.memoryChanges.Some? ==> b.spec.memoryImpact)
  }

  ghost predicate AllStaged(blocks: seq<Block>) {
    forall b :: b in blocks ==> Staged(b)
  }

  /** The records a step carries are valid on their own, and the ids its caller chose are unused. */
  ghost predicate WellFormed(w: WorkOrder, step: Step) {
    match step
    case DoProposePlan(plan) => plan.Valid()
    case DoRaiseAttention(reasons, id) => ReasonsValid(reasons) && FreshAttentionId(w, id)
    case DoDecide(_, amendment, _) => amendment.Some? ==> amendment.value.Valid()
    case DoRecordDeviation(deviation) => deviation.id.NamedDeviation? && forall d :: d in w.deviations ==>
      d.id != deviation.id
    case _ => true
  }

  ghost predicate ReasonsValid(reasons: seq<AttentionReason>) {
    forall r :: r in reasons ==> r.evidence != []
  }

  ghost predicate FreshAttentionId(w: WorkOrder, id: Option<AttentionId>) {
    id.Some? ==> id.value.NamedAttention? && forall a :: a in w.attention ==> a.id != id.value
  }

  // --- Histories compose ---

  lemma DeviationsKeptTransitive(a: seq<Deviation>, b: seq<Deviation>, c: seq<Deviation>)
    requires DeviationsKept(a, b) && DeviationsKept(b, c)
    ensures DeviationsKept(a, c)
  {
    forall i | 0 <= i < |a|
      ensures DeviationKept(a[i], c[i])
    {
      assert DeviationKept(a[i], b[i]) && DeviationKept(b[i], c[i]);
    }
  }

  lemma EnvelopeKeptTransitive(a: WorkOrder, b: WorkOrder, c: WorkOrder)
    requires a.amendments <= b.amendments <= c.amendments
    requires EnvelopeKept(a, b) && EnvelopeKept(b, c)
    requires a.budget.Some? ==> b.budget.Some?
    ensures EnvelopeKept(a, c)
  {
    var ab, bc, ac := b.amendments[|a.amendments|..], c.amendments[|b.amendments|..], c.amendments[|a.amendments|..];
    assert ac == ab + bc;
  }

  lemma AttentionKeptTransitive(a: seq<AttentionRequest>, b: seq<AttentionRequest>, c: seq<AttentionRequest>)
    requires DistinctAttention(a) && DistinctAttention(b) && DistinctAttention(c)
    requires AttentionKept(a, b) && AttentionKept(b, c)
    ensures AttentionKept(a, c)
  {
    AttentionKeptMeans(a, b);
    AttentionKeptMeans(b, c);
    AttentionKeptWhen(a, c);
  }

  lemma AttentionKeptMeans(before: seq<AttentionRequest>, after: seq<AttentionRequest>)
    requires DistinctAttention(before)
    requires AttentionKept(before, after)
    ensures |before| <= |after|
    ensures forall i :: 0 <= i < |before| ==> after[i].id == before[i].id
    ensures forall i :: 0 <= i < |before| && before[i].closed ==> after[i] == before[i]
  {
    DistinctIdsAll(before);
    assert |Ids(before)| == |before|;
    forall i | 0 <= i < |before|
      ensures after[i].id == before[i].id
      ensures before[i].closed ==> after[i] == before[i]
    {
      assert Ids(after)[..|before|][i] == Ids(before)[i];
      LastRequestFinds(before, i);
      assert after[i] in after;
    }
  }

  lemma DoneBlocksKeptTransitive(a: seq<Block>, b: seq<Block>, c: seq<Block>)
    requires DoneBlocksKept(a, b) && DoneBlocksKept(b, c)
    ensures DoneBlocksKept(a, c)
  {
    forall x | x in a && x.IsDone()
      ensures LastBlock(c, x.spec.blockId) == Some(x)
    {
      LastBlockInside(b, x.spec.blockId);
    }
  }

  lemma HistoryKeptTransitive(a: WorkOrder, b: WorkOrder, c: WorkOrder)
    requires DistinctAttention(a.attention) && DistinctAttention(b.attention) && DistinctAttention(c.attention)
    requires a.budget.Some? ==> b.budget.Some?
    requires HistoryKept(a, b) && HistoryKept(b, c)
    ensures HistoryKept(a, c)
  {
    DeviationsKeptTransitive(a.deviations, b.deviations, c.deviations);
    EnvelopeKeptTransitive(a, b, c);
    AttentionKeptTransitive(a.attention, b.attention, c.attention);
    DoneBlocksKeptTransitive(a.blocks, b.blocks, c.blocks);
  }

  /** Only the status and the attention requests change after a change that left attention alone. */
  lemma HistoryThenAttention(w: WorkOrder, mid: WorkOrder, next: WorkOrder)
    requires HistoryKept(w, mid) && w.attention == mid.attention
    requires next == mid.(status := next.status, attention := next.attention)
    requires AttentionKept(mid.attention, next.attention)
    ensures HistoryKept(w, next)
  {
  }

  // --- Blocks of a valid record ---

  /** The blocks carry distinct ids and their position as order. */
  lemma BlocksLaidOut(w: WorkOrder)
    requires w.Structural()
    ensures DistinctBlocks(w.blocks)
    ensures forall i :: 0 <= i < |w.blocks| ==> w.blocks[i].spec.order == i + 1
  {
    if w.blocks != [] {
      var plan := PlanAt(w.planVersions, w.approvals[|w.approvals| - 1].planVersion);
      assert w.approvals[|w.approvals| - 1] in w.approvals;
      assert plan in w.planVersions;
    }
  }

  /** Updating by block id replaces exactly one block. */
  lemma UpdateBlockIs(blocks: seq<Block>, i: nat, b: Block)
    requires DistinctBlocks(blocks) && i < |blocks| && b.spec.blockId == blocks[i].spec.blockId
    ensures UpdateBlock(blocks, b) == blocks[i := b]
  {
  }

  lemma FoundBlock(w: WorkOrder, id: Identifier, allowed: set<BlockStatus>) returns (i: nat)
    requires BlockIn(w, id, allowed).Ok?
    ensures w.status == Executing
    ensures i < |w.blocks| && w.blocks[i] == BlockIn(w, id, allowed).value
    ensures w.blocks[i].spec.blockId == id && w.blocks[i].status in allowed
  {
    var b := BlockIn(w, id, allowed).value;
    i :| 0 <= i < |w.blocks| && w.blocks[i] == b;
  }
}
