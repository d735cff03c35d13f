/** Whole runs of the machine, from the creation of a WorkOrder on. */
module ControlRuns {
  import opened Prelude
  import opened ControlModel
  import opened ControlEvolution
  import opened ControlMachine
  import opened ControlInvariant
  import opened ControlBlocks
  import opened ControlMoves
  import opened ControlLifecycle
  import opened ControlDecide
  import opened ControlSteps
  import opened ControlIndependence
  import opened ControlBudget

  /** One accepted step: its guards pass and so does every validator. */
  ghost predicate StepsTo(w: WorkOrder, step: Step, next: WorkOrder) {
    WellFormed(w, step) && Apply(w, step) == Ok(next)
  }

  ghost predicate Created(w: WorkOrder) {
    && w == CreateWorkOrder(w.workOrderId, w.projectId, w.objective, w.memoryPaths, w.executionProfile)
    && w.Valid()
  }

  /** The records a run goes through, one more than its steps. */
  ghost predicate IsRun(ws: seq<WorkOrder>, steps: seq<Step>) {
    && |ws| == |steps| + 1
    && Created(ws[0])
    && forall i :: 0 <= i < |steps| ==> StepsTo(ws[i], steps[i], ws[i + 1])
  }

  // --- Invariants of every run ---

  lemma CreatedGood(w: WorkOrder)
    requires Created(w)
    ensures Good(w)
  {
  }

  lemma OneStep(w: WorkOrder, step: Step, next: WorkOrder)
    requires Good(w) && StepsTo(w, step, next)
    ensures Good(next) && next.Valid() && HistoryKept(w, next) && Take(w, step) == Ok(next)
    ensures !w.IsTerminal()
  {
    hide Good, HistoryKept, Take, WorkOrder.Valid;
    StepFollows(w, step);
  }

  lemma {:induction false} ReachableGood(ws: seq<WorkOrder>, steps: seq<Step>, i: nat)
    requires IsRun(ws, steps) && i < |ws|
    ensures Good(ws[i]) && ws[i].Valid()
  {
    hide Good, StepsTo, WorkOrder.Valid, Created;
    if i == 0 {
      CreatedValid(ws[0]);
    } else {
      ReachableGood(ws, steps, i - 1);
      OneStep(ws[i - 1], steps[i - 1], ws[i]);
    }
  }

  lemma CreatedValid(w: WorkOrder)
    requires Created(w)
    ensures Good(w) && w.Valid()
  {
    CreatedGood(w);
  }

  /** In a run, every later record keeps the whole history of every earlier one. */
  lemma {:induction false} RunKeepsHistory(ws: seq<WorkOrder>, steps: seq<Step>, i: nat, j: nat)
    requires IsRun(ws, steps) && i <= j < |ws|
    ensures HistoryKept(ws[i], ws[j])
    ensures ws[i].budget.Some? ==> ws[j].budget.Some?
  {
    hide Good, HistoryKept, StepsTo, IsRun;
    RunFacts(ws, steps, i);
    if i == j {
      SelfHistory(ws[i]);
    } else {
      RunKeepsHistory(ws, steps, i, j - 1);
      RunFacts(ws, steps, j - 1);
      RunFacts(ws, steps, j);
      RunStep(ws, steps, j - 1);
      HistoryKeptTransitive(ws[i], ws[j - 1], ws[j]);
      BudgetStays(ws[j - 1], steps[j - 1], ws[j]);
    }
  }

  lemma RunFacts(ws: seq<WorkOrder>, steps: seq<Step>, i: nat)
    requires IsRun(ws, steps) && i < |ws|
    ensures |ws| == |steps| + 1
    ensures Good(ws[i]) && DistinctAttention(ws[i].attention)
  {
    ReachableGood(ws, steps, i);
  }

  lemma RunLength(ws: seq<WorkOrder>, steps: seq<Step>)
    requires IsRun(ws, steps)
    ensures |ws| == |steps| + 1
  {
  }

  lemma RunStep(ws: seq<WorkOrder>, steps: seq<Step>, i: nat)
    requires IsRun(ws, steps) && i < |steps|
    ensures Good(ws[i]) && WellFormed(ws[i], steps[i]) && Take(ws[i], steps[i]) == Ok(ws[i + 1])
            && HistoryKept(ws[i], ws[i + 1])
    ensures !ws[i].IsTerminal()
  {
    hide Good, HistoryKept, Take, WorkOrder.Valid;
    ReachableGood(ws, steps, i);
    OneStep(ws[i], steps[i], ws[i + 1]);
  }

  lemma BudgetStays(w: WorkOrder, step: Step, next: WorkOrder)
    requires Good(w) && WellFormed(w, step) && Take(w, step) == Ok(next)
    ensures w.budget.Some? ==> next.budget.Some?
  {
    hide Good, Take, Stepped, PlannedBlocks, Superseded, ResetCounters;
    StepEffect(w, step);
  }

  /** A terminal record is the last of its run. */
  lemma TerminalIsLast(ws: seq<WorkOrder>, steps: seq<Step>, i: nat)
    requires IsRun(ws, steps) && i < |ws| && ws[i].IsTerminal()
    ensures i == |ws| - 1
  {
    hide IsRun, Good;
    RunFacts(ws, steps, i);
    if i < |steps| {
      RunStep(ws, steps, i);
    }
  }

  /** Finished blocks, then at most one block in progress, then pending blocks only. */
  ghost predicate Shape(blocks: seq<Block>, k: nat) {
    && k <= |blocks|
    && (forall i :: 0 <= i < k ==> blocks[i].IsDone())
    && (k < |blocks| ==> !blocks[k].IsDone())
    && (forall i :: k < i < |blocks| ==> blocks[i].status == Pending)
  }

  lemma {:induction false} InOrderShape(blocks: seq<Block>) returns (k: nat)
    requires InOrder(blocks)
    ensures Shape(blocks, k)
  {
    if blocks == [] || blocks[|blocks| - 1].IsDone() {
      k := |blocks|;
    } else {
      var n := |blocks| - 1;
      k := InOrderShape(blocks[..n]);
      if k == n {
        assert Shape(blocks, n);
      } else {
        assert !blocks[k].IsDone();
      }
    }
  }

  /** The blocks of every reachable record have that shape, whatever was retried, amended or replanned. */
  lemma ReachableShape(ws: seq<WorkOrder>, steps: seq<Step>, i: nat)
    requires IsRun(ws, steps) && i < |ws|
    ensures exists k :: Shape(ws[i].blocks, k)
  {
    ReachableGood(ws, steps, i);
    var k := InOrderShape(ws[i].blocks);
  }

  // --- Attempts over a whole run ---

  /** The sum of the limits of all budgets that came into force up to record i. */
  ghost function Granted(ws: seq<WorkOrder>, i: nat): nat
    requires i < |ws|
  {
    if i == 0 then 0 else Granted(ws, i - 1) + if BudgetEnters(ws[i - 1], ws[i]) then Limit(ws[i]) else 0
  }

  lemma {:induction false} RunCharged(ws: seq<WorkOrder>, steps: seq<Step>, i: nat)
    requires IsRun(ws, steps) && i < |ws|
    ensures AllCharged(ws[i], Granted(ws, i))
  {
    hide IsRun, Good, AllCharged, BudgetEnters, Limit, BlocksEffect, Stepped, Take;
    RunFacts(ws, steps, i);
    if i == 0 {
      NothingCharged(ws, steps);
    } else {
      RunCharged(ws, steps, i - 1);
      RunStep(ws, steps, i - 1);
      StepEffect(ws[i - 1], steps[i - 1]);
      GoodBudget(ws[i - 1]);
      SteppedUnfinished(ws[i - 1], ws[i]);
      StepCharged(ws[i - 1], ws[i], Granted(ws, i - 1));
    }
  }

  lemma NothingCharged(ws: seq<WorkOrder>, steps: seq<Step>)
    requires IsRun(ws, steps)
    ensures AllCharged(ws[0], 0)
  {
  }

  /**
   No block, current or set aside, ran more executor attempts than all budgets ever granted together,
   nor more than one curation above that.
   */
  lemma AttemptsWithinBudgets(ws: seq<WorkOrder>, steps: seq<Step>, i: nat, b: Block)
    requires IsRun(ws, steps) && i < |ws| && b in ws[i].blocks + ws[i].supersededBlocks
    ensures Executors(b) <= Granted(ws, i)
    ensures Curations(b) <= Granted(ws, i) + 1
  {
    RunCharged(ws, steps, i);
    if b in ws[i].blocks {
      ChargedIsCovered(b, Granted(ws, i), Limit(ws[i]));
    }
  }

  // --- Termination between user decisions ---

  /** From record i to record j the WorkOrder stays in EXECUTING. */
  ghost predicate StaysExecuting(ws: seq<WorkOrder>, i: nat, j: nat) {
    i <= j < |ws| && forall k :: i <= k <= j ==> ws[k].status == Executing
  }

  function BlockSteps(steps: seq<Step>): nat {
    if steps == [] then 0 else BlockSteps(steps[..|steps| - 1]) + if steps[|steps| - 1].DoBlock? then 1 else 0
  }

  /** While a run stays in EXECUTING its block steps are bounded by the measure it started with. */
  lemma {:induction false} ExecutionTerminates(ws: seq<WorkOrder>, steps: seq<Step>, i: nat, j: nat)
    requires IsRun(ws, steps) && StaysExecuting(ws, i, j)
    ensures BlockSteps(steps[i..j]) + Measure(ws[j].blocks, Limit(ws[j])) <= Measure(ws[i].blocks, Limit(ws[i]))
    ensures BlockSteps(steps[i..j]) <= |ws[i].blocks| * (6 * Limit(ws[i]) + 8)
  {
    hide IsRun, Good, Measure, Limit, Take;
    MeasureAt(ws, steps, i);
    MeasureAt(ws, steps, j);
    if i < j {
      ExecutionTerminates(ws, steps, i, j - 1);
      RunFacts(ws, steps, j);
      assert steps[i..j][..j - 1 - i] == steps[i..j - 1];
      MeasureFalls(ws, steps, j - 1);
    }
  }

  lemma MeasureAt(ws: seq<WorkOrder>, steps: seq<Step>, i: nat)
    requires IsRun(ws, steps) && i < |ws|
    ensures |ws| == |steps| + 1
    ensures 0 <= Measure(ws[i].blocks, Limit(ws[i])) <= |ws[i].blocks| * (6 * Limit(ws[i]) + 8)
  {
    hide Good, StepsTo, Created, Charged, Measure, Limit;
    RunCharged(ws, steps, i);
    MeasureNonNegative(ws[i].blocks, Granted(ws, i), Limit(ws[i]));
  }

  lemma MeasureFalls(ws: seq<WorkOrder>, steps: seq<Step>, i: nat)
    requires IsRun(ws, steps) && i < |steps| && ws[i].status == ws[i + 1].status == Executing
    ensures Measure(ws[i + 1].blocks, Limit(ws[i + 1]))
            + (if steps[i].DoBlock? then 1 else 0) <= Measure(ws[i].blocks, Limit(ws[i]))
  {
    hide IsRun, Good, Measure, Take, AllCharged, HistoryKept, Limit;
    RunLength(ws, steps);
    RunStep(ws, steps, i);
    if steps[i].DoBlock? {
      RunCharged(ws, steps, i);
      BlockStepFalls(ws[i], steps[i], ws[i + 1], Granted(ws, i));
    } else {
      IdleStep(ws[i], steps[i], ws[i + 1]);
      SameLimit(ws[i], ws[i + 1]);
    }
  }

  lemma SameLimit(w: WorkOrder, next: WorkOrder)
    requires next.budget == w.budget
    ensures Limit(next) == Limit(w)
  {
  }

  lemma BlockStepFalls(w: WorkOrder, step: Step, next: WorkOrder, total: nat)
    requires Good(w) && Take(w, step) == Ok(next) && step.DoBlock? && AllCharged(w, total) && next.status == Executing
    ensures Measure(next.blocks, Limit(next)) < Measure(w.blocks, Limit(w))
  {
    hide Good, Measure, Move, MoveEffect, AllCharged, Limit, HistoryKept;
    MoveMoves(w, step.block, step.move);
    SteppedUnfinished(w, next);
    StepDecreases(w, next, total);
  }

  /** The only other step that stays in EXECUTING records a deviation, and it leaves the blocks alone. */
  lemma IdleStep(w: WorkOrder, step: Step, next: WorkOrder)
    requires Good(w) && WellFormed(w, step) && Take(w, step) == Ok(next)
    requires w.status == next.status == Executing && !step.DoBlock?
    ensures step.DoRecordDeviation? && next.blocks == w.blocks && next.budget == w.budget
  {
    hide Good, WaivedIndependence, Decide, RecordKernelOutcome, RecordFinalAudit, ApprovePlan, ResumeDeferred,
      RaiseAttention;
    NotBlock(w, step, next);
  }

  lemma NotBlock(w: WorkOrder, step: Step, next: WorkOrder)
    requires Good(w) && WellFormed(w, step) && Take(w, step) == Ok(next)
    requires w.status == next.status == Executing && !step.DoBlock?
    ensures step.DoRecordDeviation? && Quiet(w, next)
  {
    hide Good, RaiseAttention, Quiet, Close, Amend, ResumeDecision, ApproveDeviations, PlanGaps;
    match step {
      case DoRaiseAttention(reasons, id) => RaiseFollows(w, reasons, id);
      case DoEnterFinalVerification(baseline) =>
        if Drifted(w, baseline) { EscalateFollows(w, DriftReason(baseline)); }
      case DoRecordDeviation(d) => QuietSteps(w, step);
      case _ =>
    }
  }

  // --- Promotion ---

  /** The accepted baseline a step was given, if it takes one. */
  function ObservedBaseline(step: Step): Option<CommitSha> {
    match step
    case DoStartExecution(baseline) => Some(baseline)
    case DoEnterFinalVerification(baseline) => Some(baseline)
    case DoResumeDeferred(baseline) => Some(baseline)
    case DoDecide(_, _, observed) => observed
    case _ => None
  }

  /** Work and final verification are entered only on the planned baseline. */
  lemma EntryOnPlannedBaseline(ws: seq<WorkOrder>, steps: seq<Step>, i: nat)
    requires IsRun(ws, steps) && i < |steps|
    requires ws[i + 1].status in {Executing, FinalVerification} && ws[i].status != ws[i + 1].status
    ensures ObservedBaseline(steps[i]).Some?
            && ObservedBaseline(steps[i]) == ws[i].plannedBaseline == ws[i + 1].plannedBaseline
  {
    hide IsRun, Good, Take, HistoryKept;
    RunLength(ws, steps);
    RunStep(ws, steps, i);
    EntryChecked(ws[i], steps[i], ws[i + 1]);
  }

  lemma EntryChecked(w: WorkOrder, step: Step, next: WorkOrder)
    requires Good(w) && WellFormed(w, step) && Take(w, step) == Ok(next)
    requires next.status in {Executing, FinalVerification} && w.status != next.status
    ensures ObservedBaseline(step).Some? && ObservedBaseline(step) == w.plannedBaseline == next.plannedBaseline
  {
    hide Good, RaiseAttention, Decide, Move, ResumeDeferred, RecordDeviation, RecordKernelOutcome, RecordFinalAudit,
      ApprovePlan, Follows, MoveEffect;
    match step {
      case DoStartExecution(baseline) =>
        if Drifted(w, baseline) { EscalateFollows(w, DriftReason(baseline)); }
      case DoEnterFinalVerification(baseline) =>
        if Drifted(w, baseline) { EscalateFollows(w, DriftReason(baseline)); }
      case DoAttachCandidate(candidate, baseline) =>
        if Drifted(w, baseline) { EscalateFollows(w, DriftReason(baseline)); }
      case DoResumeDeferred(baseline) => ResumeChecked(w, baseline);
      case DoDecide(decision, amendment, observed) => DecideChecked(w, decision, amendment, observed);
      case DoRaiseAttention(reasons, id) => RaiseFollows(w, reasons, id);
      case DoRecordDeviation(d) => RecordDeviationFollows(w, d);
      case DoRecordKernelOutcome(outcome) => OutcomeLegal(w, outcome);
      case DoRecordFinalAudit(audit) => FinalAuditLegal(w, audit);
      case DoApprovePlan(n, approvedBy) => ApprovePlanFollows(w, n, approvedBy);
      case DoBlock(id, move) => BlockStays(w, id, move);
      case _ =>
    }
  }

  lemma BlockStays(w: WorkOrder, id: Identifier, move: BlockMove)
    requires Good(w) && Move(w, id, move).Ok?
    ensures Move(w, id, move).value.status in {w.status, UserAttentionRequired}
  {
    hide Good, HistoryKept, Stepped, Move;
    MoveMoves(w, id, move);
  }

  lemma ResumeChecked(w: WorkOrder, baseline: CommitSha)
    requires Good(w) && ResumeDeferred(w, baseline).Ok?
    requires ResumeDeferred(w, baseline).value.status in {Executing, FinalVerification}
    ensures Some(baseline) == w.plannedBaseline == ResumeDeferred(w, baseline).value.plannedBaseline
  {
    hide Good, RaiseAttention;
    var target := w.deferredFrom.value;
    var resumed := w.(status := target, deferredFrom := None);
    ResumedGood(w);
    if target in BASELINE_BOUND && Drifted(w, baseline) {
      EscalateFollows(resumed, DriftReason(baseline));
    }
  }

  lemma DecideChecked(w: WorkOrder, decision: UserDecision, amendment: Option<Amendment>, observed: Option<CommitSha>)
    requires Good(w) && (amendment.Some? ==> amendment.value.Valid()) && Decide(w, decision, amendment, observed).Ok?
    requires Decide(w, decision, amendment, observed).value.status in {Executing, FinalVerification}
    ensures observed.Some?
            && observed == w.plannedBaseline == Decide(w, decision, amendment, observed).value.plannedBaseline
  {
    hide Good, RaiseAttention, ApproveDeviations, ReplaceRequest, Follows;
    var k := OpenPosition(w);
    DeviationsApproved(w, decision);
    var approved := ApproveDeviations(w, decision).value;
    if decision.action == Resume {
      ResumeDecisionChecked(approved, w.attention[k].(decisions := w.attention[k].decisions + [decision]), observed);
    }
  }

  lemma ResumeDecisionChecked(w: WorkOrder, request: AttentionRequest, observed: Option<CommitSha>)
    requires w.status == UserAttentionRequired && ResumeDecision(w, request, observed).Ok?
    requires ResumeDecision(w, request, observed).value.status in {Executing, FinalVerification}
    ensures observed.Some?
            && observed == w.plannedBaseline == ResumeDecision(w, request, observed).value.plannedBaseline
  {
    hide ReplaceRequest, AttentionRequest.Unblocked;
  }

  /** Every blocking reason of the open request was resolved by an amendment or waived by a decision. */
  ghost predicate Answered(w: WorkOrder, decision: UserDecision) {
    OpenRequest(w.attention).Some? &&
    var request := OpenRequest(w.attention).value;
    && decision.waived <= (set r | r in request.reasons :: r.code)
    && forall r :: r in request.reasons && r.severity == Blocking ==>
         || r.code in request.resolved || r.code in decision.waived
         || exists d :: d in request.decisions && r.code in d.waived
  }

  /** Work resumes after attention only by a resume decision that leaves no blocking reason unanswered. */
  lemma AttentionIsAnswered(ws: seq<WorkOrder>, steps: seq<Step>, i: nat)
    requires IsRun(ws, steps) && i < |steps|
    requires ws[i].status == UserAttentionRequired && ws[i + 1].status in ATTENTION_SOURCES
    ensures steps[i].DoDecide? && steps[i].decision.action == Resume && Answered(ws[i], steps[i].decision)
    ensures ws[i + 1].status == OpenRequest(ws[i].attention).value.raisedFrom
  {
    hide IsRun, Good, Take, HistoryKept, Answered;
    RunLength(ws, steps);
    RunStep(ws, steps, i);
    LeavesAnswered(ws[i], steps[i], ws[i + 1]);
  }

  lemma LeavesAnswered(w: WorkOrder, step: Step, next: WorkOrder)
    requires Good(w) && WellFormed(w, step) && Take(w, step) == Ok(next)
    requires w.status == UserAttentionRequired && next.status in ATTENTION_SOURCES
    ensures step.DoDecide? && step.decision.action == Resume && Answered(w, step.decision)
    ensures next.status == OpenRequest(w.attention).value.raisedFrom
  {
    hide Good, RaiseAttention, Decide, Move, RecordDeviation, RecordKernelOutcome, RecordFinalAudit, ApprovePlan,
      Answered;
    match step {
      case DoDecide(decision, amendment, observed) => ResumeAnswered(w, decision, amendment, observed);
      case DoRaiseAttention(reasons, id) => RaiseFollows(w, reasons, id);
      case DoRecordDeviation(d) => RecordDeviationFollows(w, d);
      case DoRecordKernelOutcome(outcome) => OutcomeLegal(w, outcome);
      case DoRecordFinalAudit(audit) => FinalAuditLegal(w, audit);
      case DoApprovePlan(n, approvedBy) => ApprovePlanFollows(w, n, approvedBy);
      case DoBlock(id, move) => MoveMoves(w, id, move);
      case _ =>
    }
  }

  lemma ResumeAnswered(w: WorkOrder, decision: UserDecision, amendment: Option<Amendment>, observed: Option<CommitSha>)
    requires Good(w) && (amendment.Some? ==> amendment.value.Valid()) && Decide(w, decision, amendment, observed).Ok?
    requires Decide(w, decision, amendment, observed).value.status in ATTENTION_SOURCES
    ensures decision.action == Resume && Answered(w, decision)
    ensures Decide(w, decision, amendment, observed).value.status == OpenRequest(w.attention).value.raisedFrom
  {
    hide Good, HistoryKept, RaiseAttention, ApproveDeviations, ReplaceRequest, AttentionRequest.Unblocked, Answered;
    var k := OpenPosition(w);
    DeviationsApproved(w, decision);
    var approved := ApproveDeviations(w, decision).value;
    var request := w.attention[k].(decisions := w.attention[k].decisions + [decision]);
    if decision.action in {ChangeAgentAction, ChangeBudgetAction} {
      AmendFollows(approved, k, decision, amendment);
      assert false;
    }
    assert decision.action == Resume && request.Unblocked();
    UnblockedIsAnswered(w, k, decision);
    if request.raisedFrom in BASELINE_BOUND && Drifted(approved, observed.value) {
      AttentionStays(approved, request, observed.value);
    }
  }

  /** Finding drift while resuming keeps the WorkOrder in attention. */
  lemma AttentionStays(w: WorkOrder, request: AttentionRequest, baseline: CommitSha)
    requires w.status == UserAttentionRequired
    ensures var t := RaiseAttention(w.(attention := ReplaceRequest(w.attention, request)), [DriftReason(baseline)],
                                    None);
            t.Ok? ==> t.value.status == UserAttentionRequired
  {
  }

  lemma UnblockedIsAnswered(w: WorkOrder, k: nat, decision: UserDecision)
    requires k < |w.attention| && OpenRequest(w.attention) == Some(w.attention[k])
    requires decision.waived <= (set r | r in w.attention[k].reasons :: r.code)
    requires w.attention[k].(decisions := w.attention[k].decisions + [decision]).Unblocked()
    ensures Answered(w, decision)
  {
    var request := w.attention[k];
    forall r | r in request.reasons && r.severity == Blocking && r.code !in request.resolved
      ensures r.code in decision.waived || exists d :: d in request.decisions && r.code in d.waived
    {
      var d :| d in request.decisions + [decision] && r.code in d.waived;
    }
  }

  /**
   A deferred WorkOrder goes back to work exactly when the baseline it is bound to, if any, is still
   the accepted one.
   */
  ghost predicate ResumesToWork(w: WorkOrder, baseline: CommitSha) {
    w.status == Deferred && w.deferredFrom.Some?
      && (w.deferredFrom.value in BASELINE_BOUND ==> Some(baseline) == w.plannedBaseline)
  }

  /** What the closed request still asks plays no part in it. */
  lemma DeferredGoesBack(w: WorkOrder, baseline: CommitSha)
    requires Good(w)
    ensures ResumesToWork(w, baseline) <==>
              ResumeDeferred(w, baseline).Ok? && ResumeDeferred(w, baseline).value.status in ATTENTION_SOURCES
    ensures ResumesToWork(w, baseline) ==>
            ResumeDeferred(w, baseline) == Ok(w.(status := w.deferredFrom.value, deferredFrom := None))
  {
    hide RaiseAttention, Good;
    if w.status == Deferred && w.deferredFrom.Some? {
      DeferredFromWork(w);
      ResumedGood(w);
      if w.deferredFrom.value in BASELINE_BOUND && Drifted(w, baseline) {
        EscalateFollows(w.(status := w.deferredFrom.value, deferredFrom := None), DriftReason(baseline));
      }
    }
  }

  lemma DeferredFromWork(w: WorkOrder)
    requires Good(w) && w.deferredFrom.Some?
    ensures w.deferredFrom.value in ATTENTION_SOURCES
  {
  }

  /**
   Every way back to work in a run. From attention it is a resume decision that leaves no blocking
   reason unanswered; from deferral it is the resumption alone, which looks at the baseline only.
   */
  lemma WorkIsReentered(ws: seq<WorkOrder>, steps: seq<Step>, i: nat)
    requires IsRun(ws, steps) && i < |steps|
    requires ws[i].status in {UserAttentionRequired, Deferred} && ws[i + 1].status in ATTENTION_SOURCES
    ensures ws[i].status == UserAttentionRequired ==>
              && steps[i].DoDecide? && steps[i].decision.action == Resume && Answered(ws[i], steps[i].decision)
              && ws[i + 1].status == OpenRequest(ws[i].attention).value.raisedFrom
    ensures ws[i].status == Deferred ==>
              && steps[i].DoResumeDeferred? && ResumesToWork(ws[i], steps[i].baseline)
              && ws[i + 1] == ws[i].(status := ws[i].deferredFrom.value, deferredFrom := None)
  {
    hide IsRun, Good, Take, HistoryKept, Answered, ResumesToWork;
    RunLength(ws, steps);
    RunStep(ws, steps, i);
    if ws[i].status == UserAttentionRequired {
      LeavesAnswered(ws[i], steps[i], ws[i + 1]);
    } else {
      LeavesDeferral(ws[i], steps[i], ws[i + 1]);
    }
  }

  lemma LeavesDeferral(w: WorkOrder, step: Step, next: WorkOrder)
    requires Good(w) && WellFormed(w, step) && Take(w, step) == Ok(next)
    requires w.status == Deferred && next.status in ATTENTION_SOURCES
    ensures step.DoResumeDeferred? && ResumesToWork(w, step.baseline)
    ensures next == w.(status := w.deferredFrom.value, deferredFrom := None)
  {
    hide Good, RaiseAttention, Decide, Move, RecordDeviation, RecordKernelOutcome, RecordFinalAudit, ApprovePlan,
      ResumeDeferred, ResumesToWork;
    match step {
      case DoResumeDeferred(baseline) => DeferredGoesBack(w, baseline);
      case DoDecide(decision, amendment, observed) => DecideFollows(w, decision, amendment, observed);
      case DoRaiseAttention(reasons, id) => RaiseFollows(w, reasons, id);
      case DoRecordDeviation(d) => RecordDeviationFollows(w, d);
      case DoRecordKernelOutcome(outcome) => OutcomeLegal(w, outcome);
      case DoRecordFinalAudit(audit) => FinalAuditLegal(w, audit);
      case DoApprovePlan(n, approvedBy) => ApprovePlanFollows(w, n, approvedBy);
      case DoBlock(id, move) => MoveMoves(w, id, move);
      case _ =>
    }
  }
}
