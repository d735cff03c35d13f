/** Approving a plan, first or again: finished blocks stay in place and everything else starts over. */
module ControlApproval {
  import opened ControlModel
  import opened ControlEvolution
  import opened ControlMachine
  import opened ControlInvariant

  // --- Laying out the blocks of a new plan ---

  lemma {:induction false} PlannedBlockIs(blocks: seq<Block>, spec: BlockSpec)
    ensures var p := PlannedBlock(blocks, spec); p.spec == spec && (p == NewBlock(spec) || (p in blocks && p.IsDone()))
    ensures (exists b :: b in blocks && b.IsDone() && b.spec == spec) ==> PlannedBlock(blocks, spec).IsDone()
  {
    if blocks != [] {
      var n := |blocks| - 1;
      PlannedBlockIs(blocks[..n], spec);
      assert blocks == blocks[..n] + [blocks[n]];
    }
  }

  /** The finished block of a position is the one the new plan keeps there. */
  lemma DoneStays(blocks: seq<Block>, b: Block)
    requires DistinctBlocks(blocks) && b in blocks && b.IsDone()
    ensures PlannedBlock(blocks, b.spec) == b
  {
    PlannedBlockIs(blocks, b.spec);
    var p := PlannedBlock(blocks, b.spec);
    var i :| 0 <= i < |blocks| && blocks[i] == b;
    var j :| 0 <= j < |blocks| && blocks[j] == p;
    assert i == j;
  }

  ghost predicate Laid(specs: seq<BlockSpec>) {
    && (forall i :: 0 <= i < |specs| ==> specs[i].order == i + 1)
    && (forall i, j :: 0 <= i < j < |specs| ==> specs[i].blockId != specs[j].blockId)
  }

  ghost predicate OrderedByPosition(blocks: seq<Block>) {
    forall i :: 0 <= i < |blocks| ==> blocks[i].spec.order == i + 1
  }

  /** A block that is not pending in the new layout is the finished block of that position. */
  lemma PlannedWorking(blocks: seq<Block>, specs: seq<BlockSpec>, j: nat)
    requires OrderedByPosition(blocks) && Laid(specs) && j < |specs|
    requires PlannedBlocks(blocks, specs)[j].status != Pending
    ensures j < |blocks| && blocks[j].IsDone() && blocks[j].spec == specs[j]
            && PlannedBlocks(blocks, specs)[j] == blocks[j]
  {
    PlannedBlockIs(blocks, specs[j]);
    var p := PlannedBlocks(blocks, specs)[j];
    var k :| 0 <= k < |blocks| && blocks[k] == p;
    assert p.spec.order == j + 1 == k + 1;
  }

  /** Replanning keeps the order: finished blocks first, at their old positions, then pending ones. */
  lemma PlannedInOrder(blocks: seq<Block>, specs: seq<BlockSpec>)
    requires OrderedByPosition(blocks) && Laid(specs) && InOrder(blocks) && DoneBlocksIn(blocks, specs)
    ensures InOrder(PlannedBlocks(blocks, specs))
  {
    var planned := PlannedBlocks(blocks, specs);
    forall i, j | 0 <= i < j < |planned| && planned[j].status != Pending
      ensures planned[i].IsDone()
    {
      PlannedWorking(blocks, specs, j);
      assert blocks[i].IsDone() && blocks[i] in blocks;
      assert blocks[i].spec in specs;
      var k :| 0 <= k < |specs| && specs[k] == blocks[i].spec;
      assert k == i;
      PlannedBlockIs(blocks, specs[i]);
    }
  }

  lemma PlannedKeepsDone(blocks: seq<Block>, specs: seq<BlockSpec>)
    requires DistinctBlocks(blocks) && Laid(specs) && DoneBlocksIn(blocks, specs)
    ensures DoneBlocksKept(blocks, PlannedBlocks(blocks, specs))
    ensures DistinctBlocks(PlannedBlocks(blocks, specs))
  {
    var planned := PlannedBlocks(blocks, specs);
    forall i | 0 <= i < |specs|
      ensures planned[i].spec == specs[i]
    {
      PlannedBlockIs(blocks, specs[i]);
    }
    forall b | b in blocks && b.IsDone()
      ensures b in planned
    {
      var k :| 0 <= k < |specs| && specs[k] == b.spec;
      DoneStays(blocks, b);
      assert planned[k] == b;
    }
    DoneBlocksKeptWhen(blocks, planned);
  }

  /** Whatever holds of every old block and of every new block holds of the planned blocks. */
  lemma PlannedSound(blocks: seq<Block>, specs: seq<BlockSpec>, used: seq<Profile>)
    requires forall b :: b in blocks ==> b.Valid() && BlockRecorded(b, used)
    ensures forall b :: b in PlannedBlocks(blocks, specs) ==> b.Valid() && BlockRecorded(b, used)
  {
    var planned := PlannedBlocks(blocks, specs);
    forall b | b in planned
      ensures b.Valid() && BlockRecorded(b, used)
    {
      var i :| 0 <= i < |planned| && planned[i] == b;
      PlannedBlockIs(blocks, specs[i]);
      assert NewBlock(specs[i]).Valid();
    }
  }

  lemma PlannedStaged(blocks: seq<Block>, specs: seq<BlockSpec>)
    requires AllStaged(blocks)
    ensures AllStaged(PlannedBlocks(blocks, specs))
  {
    var planned := PlannedBlocks(blocks, specs);
    forall b | b in planned
      ensures Staged(b)
    {
      var i :| 0 <= i < |planned| && planned[i] == b;
      PlannedBlockIs(blocks, specs[i]);
    }
  }

  lemma {:induction false} SupersededFrom(blocks: seq<Block>)
    ensures forall b :: b in Superseded(blocks) ==> b in blocks && !b.IsDone()
  {
    if blocks != [] {
      SupersededFrom(blocks[..|blocks| - 1]);
    }
  }

  /** No evidence is dropped by a replan: a block with attempts or tests is kept in place or kept aside. */
  lemma {:induction false} SupersededAll(blocks: seq<Block>, b: Block)
    requires b in blocks && !b.IsDone() && (b.attempts != [] || b.tests.Some?)
    ensures b in Superseded(blocks)
  {
    var n := |blocks| - 1;
    assert blocks == blocks[..n] + [blocks[n]];
    if b != blocks[n] {
      SupersededAll(blocks[..n], b);
    }
  }

  // --- The approval ---

  lemma ApprovalsGrow(plans: seq<PlanVersion>, approvals: seq<PlanApproval>, a: PlanApproval)
    requires PlansOk(plans, approvals) && a.planVersion == |plans| && |plans| > 0
    requires approvals == [] || a.planVersion > approvals[|approvals| - 1].planVersion
    ensures PlansOk(plans, approvals + [a])
  {
  }

  lemma ApproveOnlyParts(w: WorkOrder, planVersion: nat, approvedBy: string)
    requires w.PartsValid() && w.ProfilesRecorded() && ApprovePlanOnly(w, planVersion, approvedBy).Ok?
    ensures ApprovePlanOnly(w, planVersion, approvedBy).value.PartsValid()
    ensures ApprovePlanOnly(w, planVersion, approvedBy).value.ProfilesRecorded()
  {
    hide Block.Valid, BlockRecorded, AttentionRequest.Valid, PlannedBlocks, Superseded, ProjectExecutionProfile.Valid;
    var plan := w.planVersions[planVersion - 1];
    assert plan in w.planVersions && plan.Valid();
    PlannedSound(w.blocks, plan.blocks, w.usedProfiles);
    SupersededFrom(w.blocks);
  }

  lemma ApproveOnlyStructural(w: WorkOrder, planVersion: nat, approvedBy: string)
    requires w.Structural() && ApprovePlanOnly(w, planVersion, approvedBy).Ok?
    ensures ApprovePlanOnly(w, planVersion, approvedBy).value.Structural()
  {
    hide WorkOrder.PartsValid, WorkOrder.ProfilesRecorded, Superseded;
    var next := ApprovePlanOnly(w, planVersion, approvedBy).value;
    var plan := w.planVersions[planVersion - 1];
    ApproveOnlyParts(w, planVersion, approvedBy);
    ApprovalsGrow(w.planVersions, w.approvals, next.approvals[|w.approvals|]);
    assert BlocksMatchPlan(next.blocks, next.planVersions, next.approvals) by {
      forall i | 0 <= i < |next.blocks|
        ensures next.blocks[i].spec == plan.blocks[i]
      {
        PlannedBlockIs(w.blocks, plan.blocks[i]);
      }
    }
  }

  lemma ApproveOnlyKept(w: WorkOrder, planVersion: nat, approvedBy: string)
    requires Good(w) && ApprovePlanOnly(w, planVersion, approvedBy).Ok?
    ensures Kept(ApprovePlanOnly(w, planVersion, approvedBy).value)
  {
    hide Block.Valid, BlockRecorded;
    var plan := w.planVersions[planVersion - 1];
    assert plan in w.planVersions && plan.Valid();
    BlocksLaidOut(w);
    PlannedInOrder(w.blocks, plan.blocks);
    PlannedStaged(w.blocks, plan.blocks);
  }

  lemma ApproveOnlyHistory(w: WorkOrder, planVersion: nat, approvedBy: string)
    requires Good(w) && ApprovePlanOnly(w, planVersion, approvedBy).Ok?
    ensures HistoryKept(w, ApprovePlanOnly(w, planVersion, approvedBy).value)
  {
    hide Block.Valid, BlockRecorded, PlannedBlocks, Superseded, AttentionKept, DoneBlocksKept, InOrder, AllStaged,
      DoneBlocksIn, AttentionRequest.Valid;
    var plan := w.planVersions[planVersion - 1];
    assert plan in w.planVersions && plan.Valid();
    BlocksLaidOut(w);
    AttentionKeptWhen(w.attention, w.attention);
    PlannedKeepsDone(w.blocks, plan.blocks);
  }

  lemma ApproveOnlyKeeps(w: WorkOrder, planVersion: nat, approvedBy: string)
    requires Good(w) && ApprovePlanOnly(w, planVersion, approvedBy).Ok?
    ensures var next := ApprovePlanOnly(w, planVersion, approvedBy).value; Good(next) && LegalSuccessor(w, next)
  {
    hide Kept, WorkOrder.Structural, HistoryKept, PlannedBlocks, Superseded;
    ApproveOnlyStructural(w, planVersion, approvedBy);
    ApproveOnlyKept(w, planVersion, approvedBy);
    ApproveOnlyHistory(w, planVersion, approvedBy);
  }
}
