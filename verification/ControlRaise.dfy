/** Raising attention, and answering the open request, keep a record good and its history legal. */
module ControlRaise {
  import opened Prelude
  import opened ControlModel
  import opened ControlEvolution
  import opened ControlMachine
  import opened ControlInvariant

  // --- The open request ---

  lemma {:induction false} OpenRequestIs(attention: seq<AttentionRequest>, k: nat)
    requires OnlyOpen(attention, k)
    ensures OpenRequest(attention) == Some(attention[k])
  {
    if k > 0 {
      var rest := attention[1..];
      assert OnlyOpen(rest, k - 1) by {
        forall i | 0 <= i < |rest| && i != k - 1
          ensures rest[i].closed
        {
          assert attention[i + 1].closed;
        }
      }
      OpenRequestIs(rest, k - 1);
    }
  }

  lemma TheOpenRequest(attention: seq<AttentionRequest>) returns (k: nat)
    requires OpenCountOk(attention, true)
    ensures OnlyOpen(attention, k)
    ensures OpenRequest(attention) == Some(attention[k])
  {
    k :| OnlyOpen(attention, k);
    OpenRequestIs(attention, k);
  }

  lemma ReplaceIs(attention: seq<AttentionRequest>, k: nat, request: AttentionRequest)
    requires DistinctAttention(attention) && k < |attention| && request.id == attention[k].id
    ensures ReplaceRequest(attention, request) == attention[k := request]
  {
  }

  // --- Merging reasons ---

  /** Every piece of evidence in `before` is in `after` under the same code. */
  ghost predicate GapsGrow(before: seq<AttentionReason>, after: seq<AttentionReason>) {
    forall r, e :: r in before && e in r.evidence ==> exists s :: s in after && s.code == r.code && e in s.evidence
  }

  lemma MergeReasonKeeps(reasons: seq<AttentionReason>, r: AttentionReason)
    requires UniqueCodes(reasons) && ReasonsValid(reasons) && r.evidence != []
    ensures var merged := MergeReason(reasons, r); merged != [] && UniqueCodes(merged) && ReasonsValid(merged)
    ensures GapsGrow(reasons, MergeReason(reasons, r))
  {
    var k := CodeIndex(reasons, r.code);
    var merged := MergeReason(reasons, r);
    if k < |reasons| {
      assert reasons[k].evidence != [] && merged[k].code == reasons[k].code;
      forall x, e | x in reasons && e in x.evidence
        ensures exists s :: s in merged && s.code == x.code && e in s.evidence
      {
        var i :| 0 <= i < |reasons| && reasons[i] == x;
        assert merged[i] in merged && e in merged[i].evidence;
      }
    } else {
      forall i | 0 <= i < |reasons|
        ensures reasons[i].code != r.code
      {
        assert reasons[i] in reasons;
      }
      assert forall x :: x in reasons ==> x in merged;
    }
  }

  lemma {:induction false} MergeReasonsKeeps(reasons: seq<AttentionReason>, added: seq<AttentionReason>)
    requires UniqueCodes(reasons) && ReasonsValid(reasons) && ReasonsValid(added) && reasons != []
    ensures var merged := MergeReasons(reasons, added); merged != [] && UniqueCodes(merged) && ReasonsValid(merged)
    ensures GapsGrow(reasons, MergeReasons(reasons, added))
    decreases |added|
  {
    if added == [] {
    } else {
      MergeReasonKeeps(reasons, added[0]);
      var one := MergeReason(reasons, added[0]);
      MergeReasonsKeeps(one, added[1..]);
      var merged := MergeReasons(one, added[1..]);
      forall r, e | r in reasons && e in r.evidence
        ensures exists s :: s in merged && s.code == r.code && e in s.evidence
      {
        var s :| s in one && s.code == r.code && e in s.evidence;
      }
    }
  }

  /** Merging also takes in every piece of evidence of the added reasons, under its own code. */
  lemma {:induction false} MergeTakesIn(reasons: seq<AttentionReason>, added: seq<AttentionReason>)
    requires UniqueCodes(reasons) && ReasonsValid(reasons) && ReasonsValid(added)
    ensures GapsGrow(added, MergeReasons(reasons, added))
    decreases |added|
  {
    if added != [] {
      var one, merged := MergeReason(reasons, added[0]), MergeReasons(reasons, added);
      MergeReasonKeeps(reasons, added[0]);
      MergeTakesIn(one, added[1..]);
      MergeReasonsKeeps(one, added[1..]);
      var k := CodeIndex(reasons, added[0].code);
      assert one[k].code == added[0].code && forall e :: e in added[0].evidence ==> e in one[k].evidence;
      forall r, e | r in added && e in r.evidence
        ensures exists s :: s in merged && s.code == r.code && e in s.evidence
      {
        if r == added[0] {
          assert one[k] in one;
        } else {
          assert r in added[1..];
        }
      }
    }
  }

  lemma {:induction false} LastByCodeKeeps(reasons: seq<AttentionReason>)
    requires ReasonsValid(reasons)
    ensures var kept := LastByCode(reasons); UniqueCodes(kept) && ReasonsValid(kept) && (reasons != [] ==> kept != [])
  {
    if reasons != [] {
      var n := |reasons| - 1;
      LastByCodeKeeps(reasons[..n]);
      var kept := LastByCode(reasons[..n]);
      var k := CodeIndex(kept, reasons[n].code);
      if k == |kept| {
        forall i | 0 <= i < |kept|
          ensures kept[i].code != reasons[n].code
        {
          assert kept[i] in kept;
        }
      }
    }
  }

  // --- Waivers only grow ---

  lemma WaivedGapsGrow(before: AttentionRequest, after: AttentionRequest)
    requires GapsGrow(before.reasons, after.reasons)
    requires before.decisions <= after.decisions
    ensures before.WaivedGaps() <= after.WaivedGaps()
  {
    forall g | g in before.WaivedGaps()
      ensures g in after.WaivedGaps()
    {
      var r, e :| r in before.reasons && r.code == IndependenceUnavailable && e in r.evidence && e.IndependenceGap?
        && e.gap == g;
      var d :| d in before.decisions && IndependenceUnavailable in d.waived;
      assert d in after.decisions;
      var s :| s in after.reasons && s.code == r.code && e in s.evidence;
    }
  }

  lemma WaivedGrowsByReplacing(attention: seq<AttentionRequest>, k: nat, request: AttentionRequest)
    requires k < |attention| && attention[k].WaivedGaps() <= request.WaivedGaps()
    ensures WaivedIndependence(attention) <= WaivedIndependence(attention[k := request])
  {
    var after := attention[k := request];
    forall g | g in WaivedIndependence(attention)
      ensures g in WaivedIndependence(after)
    {
      var a :| a in attention && g in a.WaivedGaps();
      var i :| 0 <= i < |attention| && attention[i] == a;
      assert after[i] in after && g in after[i].WaivedGaps();
    }
  }

  lemma WaivedGrowsByAppending(attention: seq<AttentionRequest>, request: AttentionRequest)
    ensures WaivedIndependence(attention) <= WaivedIndependence(attention + [request])
  {
  }

  lemma OnlyOpenAppended(attention: seq<AttentionRequest>, request: AttentionRequest)
    requires !request.closed && forall a :: a in attention ==> a.closed
    ensures OnlyOpen(attention + [request], |attention|)
    ensures OpenRequest(attention + [request]) == Some(request)
  {
    OpenRequestIs(attention + [request], |attention|);
  }

  // --- Raising attention ---

  /**
   Every request but the open one stays as it is; the open one takes the reasons in, or a new one is
   added at the end.
   */
  ghost predicate RaisedInto(before: seq<AttentionRequest>, after: seq<AttentionRequest>,
                             reasons: seq<AttentionReason>, from: WorkOrderStatus)
  {
    if forall a :: a in before ==> a.closed then
      && |after| == |before| + 1 && after[..|before|] == before
      && OnlyOpen(after, |before|) && after[|before|].raisedFrom == from
         && after[|before|].reasons == LastByCode(reasons)
      && after[|before|].decisions == [] && after[|before|].resolved == {}
    else
      exists k: nat ::
        && OnlyOpen(before, k) && OnlyOpen(after, k) && after == before[k := after[k]]
        && after[k] == before[k].(reasons := MergeReasons(before[k].reasons, reasons), resolved := after[k].resolved)
        && after[k].resolved == before[k].resolved - set r | r in reasons :: r.code
  }

  /** A record in a working state, or already in attention, from which attention can be raised. */
  lemma RaiseKeeps(w: WorkOrder, reasons: seq<AttentionReason>, id: Option<AttentionId>)
    requires Good(w) && ReasonsValid(reasons) && FreshAttentionId(w, id)
    requires RaiseAttention(w, reasons, id).Ok?
    ensures var next := RaiseAttention(w, reasons, id).value;
            && Good(next)
            && next == w.(status := UserAttentionRequired, attention := next.attention)
            && AttentionKept(w.attention, next.attention)
            && WaivedIndependence(w.attention) <= WaivedIndependence(next.attention)
    ensures RaisedInto(w.attention, RaiseAttention(w, reasons, id).value.attention, reasons, w.status)
  {
    if OpenRequest(w.attention).Some? {
      assert w.status == UserAttentionRequired;
      RaiseIntoOpen(w, reasons, id);
    } else {
      RaiseAnew(w, reasons, id);
    }
  }

  lemma RaiseIntoOpen(w: WorkOrder, reasons: seq<AttentionReason>, id: Option<AttentionId>)
    requires Good(w) && ReasonsValid(reasons) && w.status == UserAttentionRequired
    requires RaiseAttention(w, reasons, id).Ok? && OpenRequest(w.attention).Some?
    ensures var next := RaiseAttention(w, reasons, id).value;
            && Good(next)
            && next == w.(status := UserAttentionRequired, attention := next.attention)
            && AttentionKept(w.attention, next.attention)
            && WaivedIndependence(w.attention) <= WaivedIndependence(next.attention)
    ensures RaisedInto(w.attention, RaiseAttention(w, reasons, id).value.attention, reasons, w.status)
  {
    var k := TheOpenRequest(w.attention);
    var current := w.attention[k];
    assert current in w.attention && current.Valid();
    var codes := set r | r in reasons :: r.code;
    var updated := current.(reasons := MergeReasons(current.reasons, reasons), resolved := current.resolved - codes);
    MergeReasonsKeeps(current.reasons, reasons);
    WaivedGapsGrow(current, updated);
    AnswerKeeps(w, k, updated);
    ReplaceIs(w.attention, k, updated);
    assert OnlyOpen(w.attention[k := updated], k);
  }

  /** Replacing the open request by a valid, still open one. */
  lemma AnswerKeeps(w: WorkOrder, k: nat, updated: AttentionRequest)
    requires Good(w) && w.status == UserAttentionRequired && OnlyOpen(w.attention, k)
    requires updated.Valid() && !updated.closed && updated.id == w.attention[k].id
    requires updated.raisedFrom == w.attention[k].raisedFrom
    requires w.attention[k].WaivedGaps() <= updated.WaivedGaps()
    ensures var next := w.(attention := w.attention[k := updated]);
            && Good(next)
            && AttentionKept(w.attention, next.attention)
            && WaivedIndependence(w.attention) <= WaivedIndependence(next.attention)
  {
    AnswerStructural(w, k, updated);
    AnswerKept(w, k, updated);
    AttentionKeptWhen(w.attention, w.attention[k := updated]);
    WaivedGrowsByReplacing(w.attention, k, updated);
  }

  lemma AnswerStructural(w: WorkOrder, k: nat, updated: AttentionRequest)
    requires w.Structural() && w.status == UserAttentionRequired && OnlyOpen(w.attention, k)
    requires updated.Valid() && !updated.closed
    ensures w.(attention := w.attention[k := updated]).Structural()
  {
    var next := w.(attention := w.attention[k := updated]);
    assert OnlyOpen(next.attention, k);
    assert next.PartsValid();
    assert next.ProfilesRecorded();
  }

  lemma AnswerKept(w: WorkOrder, k: nat, updated: AttentionRequest)
    requires Kept(w) && w.status == UserAttentionRequired && OnlyOpen(w.attention, k)
    requires !updated.closed && updated.id == w.attention[k].id && updated.raisedFrom == w.attention[k].raisedFrom
    ensures Kept(w.(attention := w.attention[k := updated]))
  {
    OpenRequestIs(w.attention, k);
    assert OnlyOpen(w.attention[k := updated], k);
    OpenRequestIs(w.attention[k := updated], k);
  }

  lemma RaiseAnew(w: WorkOrder, reasons: seq<AttentionReason>, id: Option<AttentionId>)
    requires Good(w) && ReasonsValid(reasons) && FreshAttentionId(w, id)
    requires RaiseAttention(w, reasons, id).Ok? && OpenRequest(w.attention).None?
    ensures var next := RaiseAttention(w, reasons, id).value;
            && Good(next)
            && next == w.(status := UserAttentionRequired, attention := next.attention)
            && AttentionKept(w.attention, next.attention)
            && WaivedIndependence(w.attention) <= WaivedIndependence(next.attention)
    ensures RaisedInto(w.attention, RaiseAttention(w, reasons, id).value.attention, reasons, w.status)
  {
    var request := AttentionRequest(if id.Some? then id.value else AutoAttention(|w.attention| + 1), w.status,
                                    LastByCode(reasons), {}, [], false);
    LastByCodeKeeps(reasons);
    assert request.Valid();
    NewIdDistinct(w, id, request);
    EnterAttention(w, request);
    OnlyOpenAppended(w.attention, request);
    WaivedGrowsByAppending(w.attention, request);
  }

  lemma EnterAttention(w: WorkOrder, request: AttentionRequest)
    requires Good(w) && OpenRequest(w.attention).None?
    requires w.status in ATTENTION_SOURCES && request.raisedFrom == w.status
    requires request.Valid() && !request.closed && AttentionIdsOk(w.attention + [request])
    ensures var next := w.(status := UserAttentionRequired, attention := w.attention + [request]);
            && Good(next)
            && AttentionKept(w.attention, next.attention)
  {
    EnterAttentionStructural(w, request);
    EnterAttentionKept(w, request);
    AttentionKeptWhen(w.attention, w.attention + [request]);
  }

  lemma EnterAttentionStructural(w: WorkOrder, request: AttentionRequest)
    requires w.Structural() && OpenRequest(w.attention).None?
    requires w.status in ATTENTION_SOURCES && request.Valid() && !request.closed
    ensures w.(status := UserAttentionRequired, attention := w.attention + [request]).Structural()
  {
    var next := w.(status := UserAttentionRequired, attention := w.attention + [request]);
    OnlyOpenAppended(w.attention, request);
    assert OpenCountOk(next.attention, true);
    assert next.PartsValid();
    assert next.ProfilesRecorded();
  }

  lemma EnterAttentionKept(w: WorkOrder, request: AttentionRequest)
    requires Kept(w) && OpenRequest(w.attention).None?
    requires w.status in ATTENTION_SOURCES && request.raisedFrom == w.status && !request.closed
    requires AttentionIdsOk(w.attention + [request])
    ensures Kept(w.(status := UserAttentionRequired, attention := w.attention + [request]))
  {
    OnlyOpenAppended(w.attention, request);
  }

  lemma NewIdDistinct(w: WorkOrder, id: Option<AttentionId>, request: AttentionRequest)
    requires AttentionIdsOk(w.attention) && FreshAttentionId(w, id)
    requires request.id == if id.Some? then id.value else AutoAttention(|w.attention| + 1)
    ensures AttentionIdsOk(w.attention + [request])
  {
    forall i | 0 <= i < |w.attention|
      ensures w.attention[i].id != request.id
    {
      assert w.attention[i] in w.attention;
    }
  }
}
