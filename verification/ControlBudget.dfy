/**
 The attempt budget: a charge invariant that survives retries, replans and budget amendments, and
 the measure that every block step decreases.
 */
module ControlBudget {
  import opened Prelude
  import opened ControlModel
  import opened ControlEvolution
  import opened ControlMachine
  import opened ControlInvariant
  import opened ControlBlocks
  import opened ControlMoves
  import opened ControlApproval
  import opened ControlDecide
  import opened ControlIndependence

  // --- What a step does to the blocks and the budget ---

  /** An amendment added by this step put a new budget in force, or the first approval did. */
  ghost predicate BudgetEnters(w: WorkOrder, next: WorkOrder) {
    next.budget.Some? && (w.budget.None?
                          || (|w.amendments| < |next.amendments| && next.amendments[|w.amendments|].ChangeBudget?))
  }

  ghost predicate BlocksUntouched(w: WorkOrder, next: WorkOrder) {
    next.blocks == w.blocks && next.supersededBlocks == w.supersededBlocks
  }

  /** How one step changes the blocks: not at all, one block, a replan, or a counter reset. */
  ghost predicate BlocksEffect(w: WorkOrder, next: WorkOrder) {
    || (BlocksUntouched(w, next) && next.budget == w.budget && !BudgetEnters(w, next))
    || (next.budget == w.budget && !BudgetEnters(w, next) && next.supersededBlocks == w.supersededBlocks
        && exists i: nat :: Stepped(w, next, i))
    || (exists specs :: Replanned(w, next, specs))
    || (next.blocks == ResetCounters(w.blocks) && next.supersededBlocks == w.supersededBlocks && BudgetEnters(w, next))
  }

  ghost predicate Replanned(w: WorkOrder, next: WorkOrder, specs: seq<BlockSpec>) {
    && next.blocks == PlannedBlocks(w.blocks, specs)
    && next.supersededBlocks == w.supersededBlocks + Superseded(w.blocks)
    && (w.budget.Some? ==> next.budget == w.budget && !BudgetEnters(w, next))
    && (w.budget.None? ==> w.blocks == [] && BudgetEnters(w, next))
  }

  lemma StepEffect(w: WorkOrder, step: Step)
    requires Good(w) && WellFormed(w, step) && Take(w, step).Ok?
    ensures BlocksEffect(w, Take(w, step).value)
  {
    hide Good, Decide, ApprovePlan, RecordFinalAudit, Move, MoveEffect, PlannedBlocks, Superseded, ResetCounters,
      WaivedIndependence;
    match step {
      case DoApprovePlan(n, approvedBy) => ApprovalEffect(w, n, approvedBy);
      case DoRecordFinalAudit(audit) => FinalAuditEffect(w, audit);
      case DoBlock(id, move) => MoveBlocksEffect(w, id, move);
      case DoDecide(decision, Some(amendment), observed) => AmendEffect(w, decision, amendment, observed);
      case _ => QuietSteps(w, step);
    }
  }

  lemma MoveBlocksEffect(w: WorkOrder, id: Identifier, move: BlockMove)
    requires Good(w) && Move(w, id, move).Ok?
    ensures BlocksEffect(w, Move(w, id, move).value)
  {
    hide Good, Move, HistoryKept, Stepped, WaivedIndependence;
    MoveMoves(w, id, move);
    var next := Move(w, id, move).value;
    GoodBudget(w);
    GoodBudget(next);
    if next.blocks != w.blocks {
      var i: nat :| Stepped(w, next, i);
      SteppedHasBudget(w);
    }
  }

  lemma GoodBudget(w: WorkOrder)
    requires Good(w)
    ensures w.approvals != [] ==> w.budget.Some?
    ensures w.budget.None? ==> w.blocks == []
  {
  }

  lemma SteppedHasBudget(w: WorkOrder)
    requires Good(w)
    ensures w.status == Executing ==> w.budget.Some?
  {
  }

  lemma FinalAuditEffect(w: WorkOrder, audit: AuditRecord)
    requires Good(w) && RecordFinalAudit(w, audit).Ok?
    ensures BlocksEffect(w, RecordFinalAudit(w, audit).value)
  {
    hide Good, RaiseAttention, RecordedGaps, CheckProfile, WithProfile, WaivedIndependence;
    var gaps := RecordedGaps(w, ApprovedRisk(w), audit, Writers(w.blocks + w.supersededBlocks));
    if gaps != [] {
      IndependenceQuiet(w, w, gaps);
    }
  }

  lemma ApprovalEffect(w: WorkOrder, n: nat, approvedBy: string)
    requires Good(w) && ApprovePlan(w, n, approvedBy).Ok?
    ensures BlocksEffect(w, ApprovePlan(w, n, approvedBy).value)
  {
    hide Good, RaiseAttention, PlanGaps, PlannedBlocks, Superseded, WaivedIndependence, LegalSuccessor;
    ApproveOnlyKeeps(w, n, approvedBy);
    var mid := ApprovePlanOnly(w, n, approvedBy).value;
    var plan := w.planVersions[n - 1];
    var gaps := PlanGaps(mid, plan);
    if gaps != [] {
      IndependenceQuiet(mid, mid, gaps);
    }
    GoodBudget(w);
    assert Replanned(w, ApprovePlan(w, n, approvedBy).value, plan.blocks);
  }

  lemma AmendEffect(w: WorkOrder, decision: UserDecision, amendment: Amendment, observed: Option<CommitSha>)
    requires Good(w) && amendment.Valid() && Decide(w, decision, Some(amendment), observed).Ok?
    ensures BlocksEffect(w, Decide(w, decision, Some(amendment), observed).value)
  {
    hide Good, HistoryKept, ApproveDeviations, ResetCounters, ReplaceRequest;
    DeviationsApproved(w, decision);
  }

  // --- Charges ---

  predicate PastCode(status: BlockStatus) {
    status in {MemoryCuration, MemoryAudit, BlockCheckpoint, BlockDone}
  }

  function One(condition: bool): nat {
    if condition then 1 else 0
  }

  /**
   The attempts of a block are covered by the budgets that were in force: `total` is the sum of
   their limits and `limit` is the last of them.
   */
  ghost predicate Charged(b: Block, total: nat, limit: nat) {
    && limit <= total
    && (!b.IsDone() ==> b.failedAttempts + One(b.status != Pending) <= limit && b.curationAttempts <= limit)
    && Executors(b) <= (if b.IsDone() then total else total - limit + b.failedAttempts + One(b.status != Pending))
    && Curations(b) <= (if b.IsDone() then total + 1 else total - limit + b.curationAttempts + One(PastCode(b.status)))
  }

  function Executors(b: Block): nat {
    CountRole(b.attempts, PrimaryCodeExecutor)
  }

  function Curations(b: Block): nat {
    CountRole(b.attempts, MemoryCurator)
  }

  /** A block kept aside, or counted against a later budget. */
  ghost predicate Covered(b: Block, total: nat) {
    Executors(b) <= total && Curations(b) <= total + 1
  }

  ghost predicate AllCharged(w: WorkOrder, total: nat) {
    && Limit(w) <= total
    && (forall b :: b in w.blocks ==> Charged(b, total, Limit(w)))
    && (forall b :: b in w.supersededBlocks ==> Covered(b, total))
  }

  lemma ChargedIsCovered(b: Block, total: nat, limit: nat)
    requires Charged(b, total, limit)
    ensures Covered(b, total)
  {
  }

  lemma BlockStepCharged(b: Block, c: Block, total: nat, limit: nat)
    requires Charged(b, total, limit) && !b.IsDone() && BlockStep(b, c, limit)
    ensures Charged(c, total, limit)
  {
  }

  lemma ResetCharged(b: Block, total: nat, limit: nat, more: nat)
    requires Charged(b, total, limit) && more >= 1
    ensures Charged(if b.IsDone() then b else b.(failedAttempts := 0, curationAttempts := 0), total + more, more)
  {
  }

  lemma NewBlockCharged(spec: BlockSpec, total: nat, limit: nat)
    requires limit <= total
    ensures Charged(NewBlock(spec), total, limit)
  {
  }

  /** Every step keeps all attempts covered, when a budget that enters adds its limit to the total. */
  lemma StepCharged(w: WorkOrder, next: WorkOrder, total: nat)
    requires Good(next) && BlocksEffect(w, next) && AllCharged(w, total)
    requires w.budget.None? ==> w.blocks == []
    requires forall i: nat :: Stepped(w, next, i) ==> !w.blocks[i].IsDone()
    ensures AllCharged(next, total + if BudgetEnters(w, next) then Limit(next) else 0)
  {
    hide Charged, Covered, BlockStep, PlannedBlocks, Superseded, Good;
    var after := total + if BudgetEnters(w, next) then Limit(next) else 0;
    if BlocksUntouched(w, next) && next.budget == w.budget && !BudgetEnters(w, next) {
    } else if next.budget == w.budget && !BudgetEnters(w, next) && next.supersededBlocks == w.supersededBlocks
      && exists i: nat :: Stepped(w, next, i) {
      var i: nat :| Stepped(w, next, i);
      SteppedCharged(w, next, i, total);
    } else if exists specs :: Replanned(w, next, specs) {
      var specs :| Replanned(w, next, specs);
      ReplanCharged(w, next, specs, total, after);
    } else {
      LimitPositive(next);
      ResetAllCharged(w, next, total);
    }
  }

  lemma SteppedCharged(w: WorkOrder, next: WorkOrder, i: nat, total: nat)
    requires AllCharged(w, total) && Stepped(w, next, i) && !w.blocks[i].IsDone()
    requires next.budget == w.budget && next.supersededBlocks == w.supersededBlocks
    ensures AllCharged(next, total)
  {
    hide Charged, Covered, BlockStep;
    BlockStepCharged(w.blocks[i], next.blocks[i], total, Limit(w));
    forall b | b in next.blocks
      ensures Charged(b, total, Limit(next))
    {
      assert b == next.blocks[i] || b in w.blocks;
    }
  }

  lemma LimitPositive(w: WorkOrder)
    requires Good(w) && w.budget.Some?
    ensures Limit(w) >= 1
  {
  }

  lemma ResetAllCharged(w: WorkOrder, next: WorkOrder, total: nat)
    requires AllCharged(w, total) && Limit(next) >= 1
    requires next.blocks == ResetCounters(w.blocks) && next.supersededBlocks == w.supersededBlocks
    ensures AllCharged(next, total + Limit(next))
  {
    hide Charged;
    var after := total + Limit(next);
    forall c | c in next.blocks
      ensures Charged(c, after, Limit(next))
    {
      var i :| 0 <= i < |next.blocks| && next.blocks[i] == c;
      ResetCharged(w.blocks[i], total, Limit(w), Limit(next));
    }
  }

  lemma ReplanCharged(w: WorkOrder, next: WorkOrder, specs: seq<BlockSpec>, total: nat, after: nat)
    requires AllCharged(w, total) && Replanned(w, next, specs)
    requires after == total + if BudgetEnters(w, next) then Limit(next) else 0
    ensures AllCharged(next, after)
  {
    hide Charged, Covered;
    forall c | c in next.blocks
      ensures Charged(c, after, Limit(next))
    {
      var i :| 0 <= i < |next.blocks| && next.blocks[i] == c;
      PlannedBlockIs(w.blocks, specs[i]);
      NewBlockCharged(specs[i], after, Limit(next));
    }
    SupersededFrom(w.blocks);
    forall b | b in next.supersededBlocks
      ensures Covered(b, after)
    {
      if b in w.supersededBlocks {
        CoveredByMore(b, total, after);
      } else {
        ChargedIsCovered(b, total, Limit(w));
        CoveredByMore(b, total, after);
      }
    }
  }

  lemma CoveredByMore(b: Block, total: nat, more: nat)
    requires Covered(b, total) && total <= more
    ensures Covered(b, more)
  {
  }

  // --- The measure ---

  /** How many steps a block is from done, within one attempt. */
  function Rank(status: BlockStatus): nat {
    match status
    case Pending => 8
    case Running => 7
    case Testing => 6
    case BlockResult => 5
    case CodeApproved => 4
    case MemoryCuration => 3
    case MemoryAudit => 2
    case BlockCheckpoint => 1
    case BlockDone => 0
  }

  /** What is left to do on a block: remaining attempts, remaining curations and rank. */
  function Remaining(b: Block, limit: nat): int {
    if b.IsDone() then 0 else 4 * (limit - b.failedAttempts) + 2 * (limit - b.curationAttempts) + Rank(b.status)
  }

  function Measure(blocks: seq<Block>, limit: nat): int {
    if blocks == [] then 0 else Measure(blocks[..|blocks| - 1], limit) + Remaining(blocks[|blocks| - 1], limit)
  }

  lemma BlockStepDecreases(b: Block, c: Block, total: nat, limit: nat)
    requires Charged(b, total, limit) && !b.IsDone() && BlockStep(b, c, limit) && c.status != b.status
    ensures Remaining(c, limit) < Remaining(b, limit)
  {
  }

  lemma {:induction false} MeasureUpdate(blocks: seq<Block>, i: nat, c: Block, limit: nat)
    requires i < |blocks|
    ensures Measure(blocks[i := c], limit) == Measure(blocks, limit) - Remaining(blocks[i], limit) + Remaining(c, limit)
  {
    var n := |blocks| - 1;
    if i < n {
      MeasureUpdate(blocks[..n], i, c, limit);
      assert blocks[i := c][..n] == blocks[..n][i := c];
    } else {
      assert blocks[i := c][..n] == blocks[..n];
    }
  }

  lemma {:induction false} MeasureNonNegative(blocks: seq<Block>, total: nat, limit: nat)
    requires forall b :: b in blocks ==> Charged(b, total, limit)
    ensures 0 <= Measure(blocks, limit) <= |blocks| * (6 * limit + 8)
  {
    hide Charged, Remaining;
    if blocks != [] {
      var n, most := |blocks| - 1, 6 * limit + 8;
      MeasureNonNegative(blocks[..n], total, limit);
      RemainingBounds(blocks[n], total, limit);
      OneMore(n, most);
    }
  }

  lemma OneMore(n: nat, most: nat)
    ensures (n + 1) * most == n * most + most
  {
  }

  lemma RemainingBounds(b: Block, total: nat, limit: nat)
    requires Charged(b, total, limit)
    ensures 0 <= Remaining(b, limit) <= 6 * limit + 8
  {
  }

  /** A block step that stays in EXECUTING strictly decreases the measure. */
  lemma StepDecreases(w: WorkOrder, next: WorkOrder, total: nat)
    requires MoveEffect(w, next) && AllCharged(w, total) && next.status == Executing
    requires forall i: nat :: Stepped(w, next, i) ==> !w.blocks[i].IsDone()
    ensures Measure(next.blocks, Limit(next)) < Measure(w.blocks, Limit(w))
  {
    hide Good, HistoryKept, Charged, BlockStep;
    var i: nat :| Stepped(w, next, i);
    BlockStepDecreases(w.blocks[i], next.blocks[i], total, Limit(w));
    MeasureUpdate(w.blocks, i, next.blocks[i], Limit(w));
  }

  /** No block step starts from a finished block. */
  lemma SteppedUnfinished(w: WorkOrder, next: WorkOrder)
    ensures forall i: nat :: Stepped(w, next, i) ==> !w.blocks[i].IsDone()
  {
  }
}
