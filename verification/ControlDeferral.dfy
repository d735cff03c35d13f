/**
 Deferral goes round the user's answer: a request that is deferred is closed as it stands, and the
 WorkOrder later resumes whatever that request still asked.
 */
module ControlDeferral {
  import opened Prelude
  import opened ControlModel
  import opened ControlEvolution
  import opened ControlMachine
  import opened ControlInvariant
  import opened ControlRaise
  import opened ControlDecide
  import opened ControlIndependence
  import opened ControlJudged
  import opened ControlRuns
  import opened ControlLimits

  /** A deferral that waives nothing and approves no deviation. */
  predicate PlainDeferral(decision: UserDecision) {
    decision.action == Defer && decision.waived == {} && decision.approvedDeviations == {}
  }

  /** The record after its open request k was deferred. */
  function Deferring(w: WorkOrder, k: nat, decision: UserDecision): WorkOrder
    requires k < |w.attention|
  {
    var request := w.attention[k];
    w.(status := Deferred, deferredFrom := Some(request.raisedFrom),
       attention := w.attention[k := request.(decisions := request.decisions + [decision], closed := true)])
  }

  /** Any open request can be deferred, whatever it asks. */
  lemma DefersAnything(w: WorkOrder, k: nat, decision: UserDecision)
    requires Good(w) && w.status == UserAttentionRequired && OnlyOpen(w.attention, k) && PlainDeferral(decision)
    ensures Decide(w, decision, None, None) == Ok(Deferring(w, k, decision))
  {
    hide Good, ReplaceRequest;
    var request := w.attention[k].(decisions := w.attention[k].decisions + [decision]);
    OpenRequestIs(w.attention, k);
    IdsOf(w);
    ReplaceIs(w.attention, k, request.(closed := true));
  }

  /**
   From every record in attention two accepted steps lead back to the work that was interrupted,
   without an answer: its blocking reasons are resolved and waived afterwards exactly as far as before.
   */
  lemma DeferralBypassesAnswers(w: WorkOrder, decision: UserDecision, baseline: CommitSha)
    returns (k: nat, deferred: WorkOrder, back: WorkOrder)
    requires Good(w) && w.Valid() && w.status == UserAttentionRequired && PlainDeferral(decision)
    requires OpenRequest(w.attention).value.raisedFrom in BASELINE_BOUND ==> !Drifted(w, baseline)
    ensures StepsTo(w, DoDecide(decision, None, None), deferred) && StepsTo(deferred, DoResumeDeferred(baseline), back)
    ensures OnlyOpen(w.attention, k) && |back.attention| == |w.attention| && back.attention[k].closed
    ensures back.status == w.attention[k].raisedFrom && (back.attention[k].Unblocked() <==> w.attention[k].Unblocked())
  {
    hide Good, WorkOrder.Valid, Decide, ResumeDeferred, AttentionRequest.Unblocked, StepsTo;
    k := OpenPosition(w);
    DefersAnything(w, k, decision);
    deferred := Deferring(w, k, decision);
    AcceptedUnspoiled(w, DoDecide(decision, None, None), deferred);
    DeferredGoesBack(deferred, baseline);
    back := deferred.(status := deferred.deferredFrom.value, deferredFrom := None);
    AcceptedUnspoiled(deferred, DoResumeDeferred(baseline), back);
    SameAnswers(w.attention[k], decision);
  }

  lemma AcceptedUnspoiled(w: WorkOrder, step: Step, next: WorkOrder)
    requires Good(w) && w.Valid() && WellFormed(w, step) && Take(w, step) == Ok(next) && Unspoiled(w, step)
    ensures StepsTo(w, step, next) && Good(next) && next.Valid()
  {
    hide Good, HistoryKept, Take, WorkOrder.Valid, WellFormed, Unspoiled;
    GuardsImplyValidators(w, step);
    OneStep(w, step, next);
  }

  lemma SameAnswers(request: AttentionRequest, decision: UserDecision)
    requires decision.waived == {}
    ensures request.(decisions := request.decisions + [decision], closed := true).Unblocked() <==> request.Unblocked()
  {
    var closed := request.(decisions := request.decisions + [decision], closed := true);
    forall r | r in request.reasons
      ensures (exists d :: d in closed.decisions && r.code in d.waived) <==>
              exists d :: d in request.decisions && r.code in d.waived
    {
      if d :| d in request.decisions && r.code in d.waived {
        assert d in closed.decisions;
      }
    }
  }

  /** From every new WorkOrder, work goes on four accepted steps later under a blocking reason that nobody answered. */
  lemma UnansweredWorkReachable(w: WorkOrder, base: CommitSha, reason: AttentionReason, decision: UserDecision)
    returns (ws: seq<WorkOrder>, steps: seq<Step>)
    requires Created(w) && reason.severity == Blocking && reason.evidence != [] && PlainDeferral(decision)
    ensures IsRun(ws, steps) && |steps| == 4 && ws[0] == w && ws[4].status == ContextIntake
    ensures exists request :: request in ws[4].attention && request.closed && !request.Unblocked()
  {
    hide Created, StepsTo, Good, WorkOrder.Valid, RaiseAttention, Decide, AttentionRequest.Unblocked;
    ws, steps := AskedAtIntake(w, base, reason);
    var asked := ws[2];
    ReachableGood(ws, steps, 2);
    OpenRequestIs(asked.attention, 0);
    var k, deferred, back := DeferralBypassesAnswers(asked, decision, base);
    BlockedByReason(asked.attention[k], reason);
    ws, steps := ExtendRun(ws, steps, DoDecide(decision, None, None), deferred);
    ws, steps := ExtendRun(ws, steps, DoResumeDeferred(base), back);
    assert back.attention[k] in back.attention;
  }

  lemma BlockedByReason(request: AttentionRequest, reason: AttentionReason)
    requires request.reasons == [reason] && reason.severity == Blocking && request.resolved == {}
             && request.decisions == []
    ensures !request.Unblocked()
  {
    assert reason in request.reasons;
  }
}
