/** The user's decisions: answering, amending, resuming and closing keep records good and history legal. */
module ControlDecide {
  import opened Prelude
  import opened ControlModel
  import opened ControlEvolution
  import opened ControlMachine
  import opened ControlInvariant
  import opened ControlRaise
  import opened ControlMoves
  import opened ControlLifecycle

  lemma FollowsTransitive(a: WorkOrder, b: WorkOrder, c: WorkOrder)
    requires Good(a) && Follows(a, b) && Follows(b, c)
    requires a.budget.Some? ==> b.budget.Some?
    ensures Follows(a, c)
  {
    hide HistoryKept, WorkOrder.Structural;
    HistoryKeptTransitive(a, b, c);
  }

  lemma DeviationsApproved(w: WorkOrder, decision: UserDecision)
    requires Good(w) && ApproveDeviations(w, decision).Ok?
    ensures Follows(w, ApproveDeviations(w, decision).value)
    ensures var next := ApproveDeviations(w, decision).value; next == w.(deviations := next.deviations)
  {
    hide Block.Valid, BlockRecorded, InOrder, AllStaged;
    HistoryPlain(w, ApproveDeviations(w, decision).value);
  }

  /** The user's answer to open request k, with the request still open. */
  lemma AnswerFollows(w: WorkOrder, k: nat, updated: AttentionRequest)
    requires Good(w) && w.status == UserAttentionRequired && OnlyOpen(w.attention, k)
    requires updated.Valid() && !updated.closed && updated.id == w.attention[k].id
    requires updated.raisedFrom == w.attention[k].raisedFrom
    requires w.attention[k].WaivedGaps() <= updated.WaivedGaps()
    ensures ReplaceRequest(w.attention, updated) == w.attention[k := updated]
    ensures Follows(w, w.(attention := w.attention[k := updated]))
  {
    hide WorkOrder.Structural, AttentionRequest.Valid, AttentionRequest.WaivedGaps;
    AnswerKeeps(w, k, updated);
    ReplaceIs(w.attention, k, updated);
    SelfHistory(w);
    HistoryThenAttention(w, w, w.(attention := w.attention[k := updated]));
  }

  /** A decision added to a request keeps it valid and its waivers. */
  lemma DecisionAdded(request: AttentionRequest, decision: UserDecision, resolved: set<AttentionCode>)
    requires request.Valid()
    ensures var answered := request.(decisions := request.decisions + [decision], resolved := resolved);
            answered.Valid() && request.WaivedGaps() <= answered.WaivedGaps()
  {
    WaivedGapsGrow(request, request.(decisions := request.decisions + [decision], resolved := resolved));
  }

  lemma OpenIsValid(w: WorkOrder, k: nat)
    requires Good(w) && k < |w.attention|
    ensures w.attention[k].Valid()
  {
    assert w.attention[k] in w.attention;
  }

  // --- Leaving attention ---

  /** Closing open request k and leaving for a state the request allows. */
  ghost predicate MayLeave(request: AttentionRequest, target: WorkOrderStatus, deferredFrom: Option<WorkOrderStatus>) {
    || (target == request.raisedFrom && deferredFrom.None?)
    || (target in {PlanProposed, Aborted} && deferredFrom.None?)
    || (target == Deferred && deferredFrom == Some(request.raisedFrom))
  }

  lemma CloseFollows(w: WorkOrder, k: nat, request: AttentionRequest, target: WorkOrderStatus,
                     deferredFrom: Option<WorkOrderStatus>)
    requires Good(w) && w.status == UserAttentionRequired && OnlyOpen(w.attention, k)
    requires request.Valid() && request.id == w.attention[k].id && request.raisedFrom == w.attention[k].raisedFrom
    requires MayLeave(request, target, deferredFrom)
    ensures Follows(w, Close(w, request, target, deferredFrom))
    ensures Close(w, request, target, deferredFrom).status == target
  {
    hide Good, HistoryKept, AttentionRequest.Valid;
    var closed := request.(closed := true);
    var next := w.(status := target, attention := w.attention[k := closed], deferredFrom := deferredFrom);
    IdsOf(w);
    ReplaceIs(w.attention, k, closed);
    CloseStructural(w, k, request, target, deferredFrom);
    CloseKept(w, k, request, target, deferredFrom);
    assert Good(next) by { BothGood(next); }
    AttentionKeptWhen(w.attention, next.attention);
    SelfHistory(w);
    CloseHistory(w, next);
    assert next == Close(w, request, target, deferredFrom);
  }

  lemma IdsOf(w: WorkOrder)
    requires Good(w)
    ensures DistinctAttention(w.attention)
    ensures w.status == UserAttentionRequired ==> w.deferredFrom.None?
  {
  }

  lemma BothGood(w: WorkOrder)
    requires w.Structural() && Kept(w)
    ensures Good(w)
  {
  }

  lemma CloseHistory(w: WorkOrder, next: WorkOrder)
    requires HistoryKept(w, w) && AttentionKept(w.attention, next.attention)
    requires next == w.(status := next.status, attention := next.attention, deferredFrom := next.deferredFrom)
    ensures HistoryKept(w, next)
  {
  }

  lemma CloseStructural(w: WorkOrder, k: nat, request: AttentionRequest, target: WorkOrderStatus,
                        deferredFrom: Option<WorkOrderStatus>)
    requires Good(w) && w.status == UserAttentionRequired && OnlyOpen(w.attention, k)
    requires request.Valid() && request.id == w.attention[k].id && request.raisedFrom == w.attention[k].raisedFrom
    requires MayLeave(request, target, deferredFrom)
    ensures w.(status := target, attention := w.attention[k := request.(closed := true)],
               deferredFrom := deferredFrom).Structural()
  {
    hide Block.Valid, BlockRecorded, InOrder, AllStaged;
    OpenRequestIs(w.attention, k);
    var next := w.(status := target, attention := w.attention[k := request.(closed := true)],
                   deferredFrom := deferredFrom);
    assert next.PartsValid() by {
      assert forall a :: a in next.attention ==> a == request.(closed := true) || a in w.attention;
    }
    assert OpenCountOk(next.attention, false);
    assert next.ProfilesRecorded();
  }

  lemma CloseKept(w: WorkOrder, k: nat, request: AttentionRequest, target: WorkOrderStatus,
                  deferredFrom: Option<WorkOrderStatus>)
    requires Good(w) && w.status == UserAttentionRequired && OnlyOpen(w.attention, k)
    requires request.Valid() && request.id == w.attention[k].id && request.raisedFrom == w.attention[k].raisedFrom
    requires MayLeave(request, target, deferredFrom)
    ensures Kept(w.(status := target, attention := w.attention[k := request.(closed := true)],
                    deferredFrom := deferredFrom))
  {
    hide WorkOrder.PartsValid, WorkOrder.ProfilesRecorded, InOrder, AllStaged;
    OpenRequestIs(w.attention, k);
  }

  // --- Amendments ---

  lemma ResetSound(blocks: seq<Block>, used: seq<Profile>)
    requires forall b :: b in blocks ==> b.Valid() && BlockRecorded(b, used)
    ensures forall b :: b in ResetCounters(blocks) ==> b.Valid() && BlockRecorded(b, used)
  {
    var reset := ResetCounters(blocks);
    forall c | c in reset
      ensures c.Valid() && BlockRecorded(c, used)
    {
      var i :| 0 <= i < |reset| && reset[i] == c;
      assert blocks[i] in blocks;
      CountersDoNotMatter(blocks[i], used);
    }
  }

  lemma CountersDoNotMatter(b: Block, used: seq<Profile>)
    requires b.Valid() && BlockRecorded(b, used)
    ensures b.(failedAttempts := 0, curationAttempts := 0).Valid()
    ensures BlockRecorded(b.(failedAttempts := 0, curationAttempts := 0), used)
  {
    if b.status in CODE_APPROVED_OR_LATER {
      CodeApprovalStays(b, b.(failedAttempts := 0, curationAttempts := 0));
    }
  }

  lemma AmendedStructural(w: WorkOrder, amendment: Amendment)
    requires Good(w) && amendment.Valid() && Amended(w, amendment).Ok?
    ensures Amended(w, amendment).value.Structural()
  {
    hide Block.Valid, BlockRecorded, InOrder, AllStaged, AttentionRequest.Valid;
    if amendment.ChangeBudget? {
      ResetSound(w.blocks, w.usedProfiles);
    }
    var next := Amended(w, amendment).value;
    assert next.PartsValid();
    assert next.ProfilesRecorded();
  }

  lemma AmendedKept(w: WorkOrder, amendment: Amendment)
    requires Good(w) && Amended(w, amendment).Ok?
    ensures Kept(Amended(w, amendment).value)
  {
    hide WorkOrder.Structural;
    var next := Amended(w, amendment).value;
    assert AllStaged(next.blocks) by {
      forall c | c in next.blocks
        ensures Staged(c)
      {
        var i :| 0 <= i < |next.blocks| && next.blocks[i] == c;
        assert w.blocks[i] in w.blocks;
      }
    }
    assert Phase(next) == Phase(w);
    assert AllDone(w.blocks) ==> AllDone(next.blocks);
  }

  lemma ResetKeepsDone(blocks: seq<Block>)
    requires DistinctBlocks(blocks)
    ensures DoneBlocksKept(blocks, ResetCounters(blocks))
  {
    var reset := ResetCounters(blocks);
    forall b | b in blocks && b.IsDone()
      ensures b in reset
    {
      var i :| 0 <= i < |blocks| && blocks[i] == b;
      assert reset[i] == b;
    }
    DoneBlocksKeptWhen(blocks, reset);
  }

  lemma EnvelopeAmended(w: WorkOrder, next: WorkOrder, amendment: Amendment)
    requires next.amendments == w.amendments + [amendment]
    requires next.executionProfile == w.executionProfile || amendment.NewProfile() == Some(next.executionProfile)
    requires next.budget == w.budget || amendment.NewBudget() == next.budget
    ensures EnvelopeKept(w, next)
  {
    assert next.amendments[|w.amendments|..] == [amendment];
    assert amendment in [amendment];
  }

  lemma AmendedHistory(w: WorkOrder, amendment: Amendment)
    requires Good(w) && Amended(w, amendment).Ok?
    ensures HistoryKept(w, Amended(w, amendment).value)
  {
    hide Good, HistoryKept;
    var next := Amended(w, amendment).value;
    EnvelopeAmended(w, next, amendment);
    BlocksAreDistinct(w);
    if amendment.ChangeBudget? {
      ResetKeepsDone(w.blocks);
    } else {
      DoneBlocksKeptWhen(w.blocks, w.blocks);
    }
    EnvelopeHistory(w, next);
  }

  lemma BlocksAreDistinct(w: WorkOrder)
    requires Good(w)
    ensures DistinctBlocks(w.blocks) && AttentionKept(w.attention, w.attention)
  {
    hide Block.Valid, BlockRecorded, InOrder, AllStaged, AttentionKept;
    BlocksLaidOut(w);
    AttentionKeptWhen(w.attention, w.attention);
  }

  /** An amendment is appended, and blocks keep what is finished. */
  lemma EnvelopeHistory(w: WorkOrder, next: WorkOrder)
    requires EnvelopeKept(w, next) && DoneBlocksKept(w.blocks, next.blocks) && AttentionKept(w.attention, w.attention)
    requires w.amendments <= next.amendments
    requires next == w.(executionProfile := next.executionProfile, budget := next.budget, amendments := next.amendments,
                        blocks := next.blocks)
    ensures HistoryKept(w, next)
  {
    hide EnvelopeKept, DoneBlocksKept, AttentionKept;
  }

  lemma AmendedFollows(w: WorkOrder, amendment: Amendment)
    requires Good(w) && amendment.Valid() && Amended(w, amendment).Ok?
    ensures Follows(w, Amended(w, amendment).value)
    ensures Amended(w, amendment).value.attention == w.attention && Amended(w, amendment).value.status == w.status
    ensures w.budget.Some? ==> Amended(w, amendment).value.budget.Some?
  {
    hide WorkOrder.Structural, Kept, HistoryKept;
    AmendedStructural(w, amendment);
    AmendedKept(w, amendment);
    AmendedHistory(w, amendment);
  }

  lemma AmendFollows(w: WorkOrder, k: nat, decision: UserDecision, amendment: Option<Amendment>)
    requires Good(w) && w.status == UserAttentionRequired && OnlyOpen(w.attention, k)
    requires amendment.Some? ==> amendment.value.Valid()
    requires var request := w.attention[k].(decisions := w.attention[k].decisions + [decision]);
             Amend(w, request, decision, amendment).Ok?
    ensures var request := w.attention[k].(decisions := w.attention[k].decisions + [decision]);
            Follows(w, Amend(w, request, decision, amendment).value) &&
            Amend(w, request, decision, amendment).value.status == UserAttentionRequired
  {
    hide Good, HistoryKept, Amended, AttentionRequest.Valid, AttentionRequest.WaivedGaps;
    var asked := w.attention[k];
    var request := asked.(decisions := asked.decisions + [decision]);
    var amended := Amended(w, amendment.value).value;
    var resolved := asked.resolved + ResolvedBy(amendment.value) * (set r | r in request.reasons :: r.code);
    OpenIsValid(w, k);
    DecisionAdded(asked, decision, resolved);
    AmendedFollows(w, amendment.value);
    AnswerFollows(amended, k, asked.(decisions := asked.decisions + [decision], resolved := resolved));
    FollowsTransitive(w, amended, Amend(w, request, decision, amendment).value);
  }

  lemma ResumeFollows(w: WorkOrder, k: nat, decision: UserDecision, observed: Option<CommitSha>)
    requires Good(w) && w.status == UserAttentionRequired && OnlyOpen(w.attention, k)
    requires var request := w.attention[k].(decisions := w.attention[k].decisions + [decision]);
             ResumeDecision(w, request, observed).Ok?
    ensures var request := w.attention[k].(decisions := w.attention[k].decisions + [decision]);
            var next := ResumeDecision(w, request, observed).value;
            Follows(w, next) && next.status in {UserAttentionRequired, request.raisedFrom}
              && request.raisedFrom in ATTENTION_SOURCES
  {
    hide Good, HistoryKept, RaiseAttention, AttentionRequest.Unblocked, Close;
    var asked := w.attention[k];
    var request := asked.(decisions := asked.decisions + [decision]);
    OpenIsValid(w, k);
    DecisionAdded(asked, decision, asked.resolved);
    assert request == asked.(decisions := asked.decisions + [decision], resolved := asked.resolved);
    if request.raisedFrom in BASELINE_BOUND && Drifted(w, observed.value) {
      AnswerFollows(w, k, request);
      var answered := w.(attention := w.attention[k := request]);
      assert w.(attention := ReplaceRequest(w.attention, request)) == answered;
      RaiseFollows(answered, [DriftReason(observed.value)], None);
      FollowsTransitive(w, answered, RaiseAttention(answered, [DriftReason(observed.value)], None).value);
    } else {
      CloseFollows(w, k, request, request.raisedFrom, None);
    }
  }

  /** Where each action leads, and what it leaves of the request it answers. */
  ghost predicate Lands(w: WorkOrder, decision: UserDecision, observed: Option<CommitSha>, next: WorkOrder) {
    OpenRequest(w.attention).Some? &&
    var asked := OpenRequest(w.attention).value;
    var closed := ReplaceRequest(w.attention, asked.(decisions := asked.decisions + [decision], closed := true));
    match decision.action
    case Replan => next.status == PlanProposed && next.attention == closed
    case Abort => next.status == Aborted && next.attention == closed
    case Defer => next.status == Deferred && next.deferredFrom == Some(asked.raisedFrom) && next.attention == closed
    case Resume =>
      if asked.raisedFrom in BASELINE_BOUND && observed != w.plannedBaseline then next.status == UserAttentionRequired
      else next.status == asked.raisedFrom && next.attention == closed
    case _ => next.status == UserAttentionRequired
  }

  lemma DecisionLands(w: WorkOrder, decision: UserDecision, amendment: Option<Amendment>, observed: Option<CommitSha>)
    requires Good(w) && Decide(w, decision, amendment, observed).Ok?
    ensures Lands(w, decision, observed, Decide(w, decision, amendment, observed).value)
  {
    hide Good, RaiseAttention, ReplaceRequest, ApproveDeviations, Amend, ResumeDecision;
    var k := OpenPosition(w);
    DeviationsApproved(w, decision);
    var approved := ApproveDeviations(w, decision).value;
    var request := w.attention[k].(decisions := w.attention[k].decisions + [decision]);
    if decision.action == Resume {
      ResumeLands(approved, request, observed);
    } else if decision.action in {ChangeAgentAction, ChangeBudgetAction} {
      AmendStays(approved, request, decision, amendment);
    }
  }

  lemma ResumeLands(w: WorkOrder, request: AttentionRequest, observed: Option<CommitSha>)
    requires w.status == UserAttentionRequired && ResumeDecision(w, request, observed).Ok?
    ensures var next := ResumeDecision(w, request, observed).value;
            if request.raisedFrom in BASELINE_BOUND && observed != w.plannedBaseline then
              next.status == UserAttentionRequired
            else
              && next.status == request.raisedFrom
              && next.attention == ReplaceRequest(w.attention, request.(closed := true))
  {
    hide RaiseAttention, ReplaceRequest, AttentionRequest.Unblocked;
    RaisingStays();
  }

  lemma AmendStays(w: WorkOrder, request: AttentionRequest, decision: UserDecision, amendment: Option<Amendment>)
    requires w.status == UserAttentionRequired && Amend(w, request, decision, amendment).Ok?
    ensures Amend(w, request, decision, amendment).value.status == UserAttentionRequired
  {
    hide ReplaceRequest, ResetCounters;
  }

  /** Whoever is in attention stays there when more is raised. */
  lemma RaisingStays()
    ensures forall w: WorkOrder, reasons, id ::
              RaiseAttention(w, reasons, id).Ok? && w.status == UserAttentionRequired ==>
                RaiseAttention(w, reasons, id).value.status == UserAttentionRequired
  {
  }

  /** Every decision on an open request follows the record it answers, by one legal status step. */
  lemma DecideFollows(w: WorkOrder, decision: UserDecision, amendment: Option<Amendment>, observed: Option<CommitSha>)
    requires Good(w) && (amendment.Some? ==> amendment.value.Valid())
    requires Decide(w, decision, amendment, observed).Ok?
    ensures Follows(w, Decide(w, decision, amendment, observed).value)
    ensures w.status == UserAttentionRequired
    ensures StatusStep(w.status, Decide(w, decision, amendment, observed).value.status)
    ensures Lands(w, decision, observed, Decide(w, decision, amendment, observed).value)
  {
    hide Good, HistoryKept, ApproveDeviations, Amend, ResumeDecision, Close, Lands, AttentionRequest.Valid;
    var k := OpenPosition(w);
    DecisionLands(w, decision, amendment, observed);
    var asked := w.attention[k];
    var approved := ApproveDeviations(w, decision).value;
    DeviationsApproved(w, decision);
    var request := asked.(decisions := asked.decisions + [decision]);
    OpenIsValid(w, k);
    DecisionAdded(asked, decision, asked.resolved);
    assert request == asked.(decisions := asked.decisions + [decision], resolved := asked.resolved);
    var next := Decide(w, decision, amendment, observed).value;
    SourcesAreLegal(asked);
    match decision.action {
      case ChangeAgentAction => AmendFollows(approved, k, decision, amendment);
      case ChangeBudgetAction => AmendFollows(approved, k, decision, amendment);
      case Resume => ResumeFollows(approved, k, decision, observed);
      case Replan => CloseFollows(approved, k, request, PlanProposed, None);
      case Defer => CloseFollows(approved, k, request, Deferred, Some(request.raisedFrom));
      case Abort => CloseFollows(approved, k, request, Aborted, None);
    }
    FollowsTransitive(w, approved, next);
  }

  lemma SourcesAreLegal(request: AttentionRequest)
    requires request.Valid()
    ensures request.raisedFrom in ATTENTION_SOURCES
    ensures StatusStep(UserAttentionRequired, request.raisedFrom)
  {
  }

  lemma OpenPosition(w: WorkOrder) returns (k: nat)
    requires Good(w) && w.status == UserAttentionRequired
    ensures OnlyOpen(w.attention, k) && OpenRequest(w.attention) == Some(w.attention[k])
  {
    k := TheOpenRequest(w.attention);
  }
}
