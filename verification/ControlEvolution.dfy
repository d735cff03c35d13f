/**
 The relation between consecutive versions of a WorkOrder, as the store enforces it on every write.
 It is defined on two records alone and knows nothing of the transitions.
 */
module ControlEvolution {
  import opened Prelude
  import opened ControlModel

  predicate LegalSuccessor(w: WorkOrder, next: WorkOrder) {
    && TerminalFrozen(w, next)
    && StatusStep(w.status, next.status)
    && HistoryKept(w, next)
  }

  /** A terminal WorkOrder is immutable, up to its version number. */
  predicate TerminalFrozen(w: WorkOrder, next: WorkOrder) {
    w.IsTerminal() ==> next == w.(version := next.version)
  }

  predicate StatusStep(before: WorkOrderStatus, after: WorkOrderStatus) {
    after == before || after in Successors(before)
  }

  /** Everything the relation asks apart from the status step and terminal immutability. */
  predicate HistoryKept(w: WorkOrder, next: WorkOrder) {
    && IdentityKept(w, next)
    && LogsKept(w, next)
    && EnvelopeKept(w, next)
    && AttentionKept(w.attention, next.attention)
    && DoneBlocksKept(w.blocks, next.blocks)
  }

  predicate IdentityKept(w: WorkOrder, next: WorkOrder) {
    && next.workOrderId == w.workOrderId
    && next.projectId == w.projectId
    && next.objective == w.objective
    && next.memoryPaths == w.memoryPaths
    && Sticky(w.plannedBaseline, next.plannedBaseline)
    && Sticky(w.candidate, next.candidate)
  }

  /** Immutable once set. */
  predicate Sticky<T(==)>(before: Option<T>, after: Option<T>) {
    before.Some? ==> after == before
  }

  /** The append-only histories. */
  predicate LogsKept(w: WorkOrder, next: WorkOrder) {
    && w.planVersions <= next.planVersions
    && w.approvals <= next.approvals
    && w.amendments <= next.amendments
    && DeviationsKept(w.deviations, next.deviations)
    && w.evidence <= next.evidence
    && w.supersededBlocks <= next.supersededBlocks
    && w.usedProfiles <= next.usedProfiles
  }

  /** Deviations are append-only, and a recorded one may only gain an approval. */
  predicate DeviationsKept(before: seq<Deviation>, after: seq<Deviation>) {
    && |before| <= |after|
    && forall i :: 0 <= i < |before| ==> DeviationKept(before[i], after[i])
  }

  predicate DeviationKept(before: Deviation, after: Deviation) {
    after == before || (before.approvedBy.None? && after == before.(approvedBy := after.approvedBy))
  }

  /** The profile snapshot and the budget change only by an amendment added in between. */
  predicate EnvelopeKept(w: WorkOrder, next: WorkOrder) {
    w.amendments <= next.amendments ==>
      var added := next.amendments[|w.amendments|..];
      && (next.executionProfile != w.executionProfile ==>
            exists a :: a in added && a.NewProfile() == Some(next.executionProfile))
      && (w.budget.Some? && next.budget != w.budget ==> exists a :: a in added && a.NewBudget() == next.budget)
  }

  /** A closed request is immutable, and the recorded ids are a prefix of the new ids. */
  predicate AttentionKept(before: seq<AttentionRequest>, after: seq<AttentionRequest>) {
    && (forall r :: r in after ==>
          LastRequest(before, r.id).Some? && LastRequest(before, r.id).value.closed ==>
            r == LastRequest(before, r.id).value)
    && Ids(after)[..if |before| <= |after| then |before| else |after|] == DistinctIds(before)
  }

  function Ids(attention: seq<AttentionRequest>): (ids: seq<AttentionId>)
    ensures |ids| == |attention|
    ensures forall i :: 0 <= i < |ids| ==> ids[i] == attention[i].id
  {
    seq(|attention|, i requires 0 <= i < |attention| => attention[i].id)
  }

  /** The ids in order of first occurrence, each listed once. */
  function DistinctIds(attention: seq<AttentionRequest>): seq<AttentionId> {
    if attention == [] then []
    else
      var n := |attention| - 1;
      var ids := DistinctIds(attention[..n]);
      if attention[n].id in ids then ids else ids + [attention[n].id]
  }

  function LastRequest(attention: seq<AttentionRequest>, id: AttentionId): Option<AttentionRequest> {
    if attention == [] then None
    else if attention[|attention| - 1].id == id then Some(attention[|attention| - 1])
    else LastRequest(attention[..|attention| - 1], id)
  }

  /** A finished block stays, unchanged, in every successor. */
  predicate DoneBlocksKept(before: seq<Block>, after: seq<Block>) {
    forall b :: b in before && b.IsDone() ==> LastBlock(after, b.spec.blockId) == Some(b)
  }

  function LastBlock(blocks: seq<Block>, id: Identifier): Option<Block> {
    if blocks == [] then None
    else if blocks[|blocks| - 1].spec.blockId == id then Some(blocks[|blocks| - 1])
    else LastBlock(blocks[..|blocks| - 1], id)
  }

  // --- The relation on records whose ids are unique ---

  predicate DistinctAttention(attention: seq<AttentionRequest>) {
    forall i, j :: 0 <= i < j < |attention| ==> attention[i].id != attention[j].id
  }

  predicate DistinctBlocks(blocks: seq<Block>) {
    forall i, j :: 0 <= i < j < |blocks| ==> blocks[i].spec.blockId != blocks[j].spec.blockId
  }

  lemma {:induction false} LastRequestFinds(attention: seq<AttentionRequest>, i: nat)
    requires DistinctAttention(attention) && i < |attention|
    ensures LastRequest(attention, attention[i].id) == Some(attention[i])
  {
    var n := |attention| - 1;
    if i < n {
      LastRequestFinds(attention[..n], i);
    }
  }

  lemma {:induction false} LastRequestInside(attention: seq<AttentionRequest>, id: AttentionId)
    ensures LastRequest(attention, id).Some? ==>
              LastRequest(attention, id).value in attention && LastRequest(attention, id).value.id == id
    ensures LastRequest(attention, id).None? ==> forall r :: r in attention ==> r.id != id
  {
    if attention != [] {
      var n := |attention| - 1;
      LastRequestInside(attention[..n], id);
      assert attention == attention[..n] + [attention[n]];
    }
  }

  lemma {:induction false} DistinctIdsAll(attention: seq<AttentionRequest>)
    requires DistinctAttention(attention)
    ensures DistinctIds(attention) == Ids(attention)
  {
    if attention != [] {
      var n := |attention| - 1;
      DistinctIdsAll(attention[..n]);
      assert Ids(attention) == Ids(attention[..n]) + [attention[n].id];
    }
  }

  lemma {:induction false} LastBlockFinds(blocks: seq<Block>, i: nat)
    requires DistinctBlocks(blocks) && i < |blocks|
    ensures LastBlock(blocks, blocks[i].spec.blockId) == Some(blocks[i])
  {
    var n := |blocks| - 1;
    if i < n {
      LastBlockFinds(blocks[..n], i);
    }
  }

  lemma {:induction false} LastBlockInside(blocks: seq<Block>, id: Identifier)
    ensures LastBlock(blocks, id).Some? ==> LastBlock(blocks, id).value in blocks
  {
    if blocks != [] {
      LastBlockInside(blocks[..|blocks| - 1], id);
    }
  }

  /** With unique ids, attention is kept when each recorded id stays and closed requests do not change. */
  lemma AttentionKeptWhen(before: seq<AttentionRequest>, after: seq<AttentionRequest>)
    requires DistinctAttention(before) && DistinctAttention(after) && |before| <= |after|
    requires forall i :: 0 <= i < |before| ==> after[i].id == before[i].id
    requires forall i :: 0 <= i < |before| && before[i].closed ==> after[i] == before[i]
    ensures AttentionKept(before, after)
  {
    DistinctIdsAll(before);
    assert Ids(after)[..|before|] == Ids(before);
    forall r | r in after && LastRequest(before, r.id).Some? && LastRequest(before, r.id).value.closed
      ensures r == LastRequest(before, r.id).value
    {
      LastRequestInside(before, r.id);
      var i :| 0 <= i < |before| && before[i] == LastRequest(before, r.id).value;
      var j :| 0 <= j < |after| && after[j] == r;
      assert i == j;
    }
  }

  lemma DoneBlocksKeptWhen(before: seq<Block>, after: seq<Block>)
    requires DistinctBlocks(after)
    requires forall b :: b in before && b.IsDone() ==> b in after
    ensures DoneBlocksKept(before, after)
  {
    forall b | b in before && b.IsDone()
      ensures LastBlock(after, b.spec.blockId) == Some(b)
    {
      var i :| 0 <= i < |after| && after[i] == b;
      LastBlockFinds(after, i);
    }
  }

  /** The unchanged part of a record is always kept. */
  lemma HistoryKeptReflexive(w: WorkOrder)
    requires DistinctAttention(w.attention) && DistinctBlocks(w.blocks)
    ensures HistoryKept(w, w)
  {
    AttentionKeptWhen(w.attention, w.attention);
    DoneBlocksKeptWhen(w.blocks, w.blocks);
  }
}
