/**
 Paired comparisons under a hard budget. Money is counted in whole micro-dollars, so that sums are
 exact; the source rounds to the same unit.
 */
module ComparisonBudget {
  import opened Prelude

  type Money = nat

  datatype Configuration = Configuration(id: string, maxCostPerTrial: Money)

  datatype Planned = Planned(repetition: nat, caseId: string, configuration: Configuration)

  /** An attempted trial: what the runtime reported, if it did, and what was reserved for it. */
  datatype Trial = Trial(planned: Planned, reported: Option<Money>) {
    function Reserve(): Money {
      planned.configuration.maxCostPerTrial
    }

    /** The runtime's own figure, or the whole reserve when it gave none. */
    function Counted(): Money {
      if reported.Some? then reported.value else Reserve()
    }

    /** What the trial cost beyond its own reserve. */
    function Excess(): Money {
      if Counted() > Reserve() then Counted() - Reserve() else 0
    }
  }

  datatype BudgetError = ExceedsRunCap | ExceedsWeekCap

  // --- The plan ---

  /** The two sides of one pair, in either order. */
  function Sides(repetition: nat, caseId: string, baseline: Configuration, candidate: Configuration,
                 swap: bool): seq<Planned>
  {
    var first, second := Planned(repetition, caseId, baseline), Planned(repetition, caseId, candidate);
    if swap then [second, first] else [first, second]
  }

  function Estimate(order: seq<Planned>): Money {
    if order == [] then 0 else Estimate(order[..|order| - 1]) + order[|order| - 1].configuration.maxCostPerTrial
  }

  lemma {:induction false} EstimateConcat(a: seq<Planned>, b: seq<Planned>)
    ensures Estimate(a + b) == Estimate(a) + Estimate(b)
  {
    if b == [] {
      assert a + b == a;
    } else {
      assert (a + b)[..|a + b| - 1] == a + b[..|b| - 1];
      EstimateConcat(a, b[..|b| - 1]);
    }
  }

  /** How often a trial is planned. */
  function Times(order: seq<Planned>, p: Planned): nat {
    multiset(order)[p]
  }

  /** How often one repetition plans a trial: as often as its case is listed, on either side. */
  function InRound(p: Planned, cases: seq<string>, repetition: nat, baseline: Configuration,
                   candidate: Configuration): nat
  {
    if p.repetition == repetition && p.configuration in {baseline, candidate} then multiset(cases)[p.caseId] else 0
  }

  function InPlan(p: Planned, cases: seq<string>, repetitions: nat, baseline: Configuration,
                  candidate: Configuration): nat
  {
    if 1 <= p.repetition <= repetitions && p.configuration in {baseline, candidate} then multiset(cases)[p.caseId]
      else 0
  }

  ghost predicate CoversRound(order: seq<Planned>, cases: seq<string>, repetition: nat, baseline: Configuration,
                              candidate: Configuration)
  {
    forall p :: Times(order, p) == InRound(p, cases, repetition, baseline, candidate)
  }

  /** Every case is planned on both sides in every repetition, and nothing else is planned. */
  ghost predicate CoversPlan(order: seq<Planned>, cases: seq<string>, repetitions: nat, baseline: Configuration,
                             candidate: Configuration)
  {
    forall p :: Times(order, p) == InPlan(p, cases, repetitions, baseline, candidate)
  }

  /** Pairs in case order for each repetition; the two sides of a pair in an arbitrary order. */
  method Plan(cases: seq<string>, repetitions: nat, baseline: Configuration, candidate: Configuration)
    returns (order: seq<Planned>)
    requires baseline.id != candidate.id
    ensures CoversPlan(order, cases, repetitions, baseline, candidate)
    ensures Estimate(order) == repetitions * (|cases| * (baseline.maxCostPerTrial + candidate.maxCostPerTrial))
  {
    order := [];
    ghost var round := |cases| * (baseline.maxCostPerTrial + candidate.maxCostPerTrial);
    for r := 0 to repetitions
      invariant CoversPlan(order, cases, r, baseline, candidate)
      invariant Estimate(order) == r * round
    {
      var pairs := PlanRound(cases, r + 1, baseline, candidate);
      EstimateConcat(order, pairs);
      RoundAdds(order, pairs, cases, r, baseline, candidate);
      assert (r + 1) * round == r * round + round;
      order := order + pairs;
    }
  }

  method PlanRound(cases: seq<string>, repetition: nat, baseline: Configuration, candidate: Configuration)
    returns (order: seq<Planned>)
    requires baseline.id != candidate.id
    ensures CoversRound(order, cases, repetition, baseline, candidate)
    ensures Estimate(order) == |cases| * (baseline.maxCostPerTrial + candidate.maxCostPerTrial)
  {
    order := [];
    ghost var pair := baseline.maxCostPerTrial + candidate.maxCostPerTrial;
    for i := 0 to |cases|
      invariant CoversRound(order, cases[..i], repetition, baseline, candidate)
      invariant Estimate(order) == i * pair
    {
      var swap: bool := *;
      var sides := Sides(repetition, cases[i], baseline, candidate, swap);
      PairAdds(order, cases, i, repetition, baseline, candidate, swap);
      EstimateConcat(order, sides);
      PairCosts(repetition, cases[i], baseline, candidate, swap);
      assert (i + 1) * pair == i * pair + pair;
      order := order + sides;
    }
    assert cases[..|cases|] == cases;
  }

  lemma PairCosts(repetition: nat, caseId: string, baseline: Configuration, candidate: Configuration, swap: bool)
    ensures Estimate(Sides(repetition, caseId, baseline, candidate, swap)) ==
            baseline.maxCostPerTrial + candidate.maxCostPerTrial
  {
    var sides := Sides(repetition, caseId, baseline, candidate, swap);
    assert sides[..1] == [sides[0]] && sides[..1][..0] == [];
    assert Estimate(sides[..1]) == sides[0].configuration.maxCostPerTrial;
  }

  lemma PairAdds(order: seq<Planned>, cases: seq<string>, i: nat, repetition: nat, baseline: Configuration,
                 candidate: Configuration, swap: bool)
    requires baseline.id != candidate.id && i < |cases|
    requires CoversRound(order, cases[..i], repetition, baseline, candidate)
    ensures CoversRound(order + Sides(repetition, cases[i], baseline, candidate, swap), cases[..i + 1], repetition,
                        baseline, candidate)
  {
    var sides := Sides(repetition, cases[i], baseline, candidate, swap);
    assert cases[..i + 1] == cases[..i] + [cases[i]];
    forall p
      ensures Times(order + sides, p) == InRound(p, cases[..i + 1], repetition, baseline, candidate)
    {
      assert Times(order + sides, p) == Times(order, p) + Times(sides, p);
    }
  }

  lemma RoundAdds(order: seq<Planned>, pairs: seq<Planned>, cases: seq<string>, r: nat, baseline: Configuration,
                  candidate: Configuration)
    requires CoversPlan(order, cases, r, baseline, candidate) && CoversRound(pairs, cases, r + 1, baseline, candidate)
    ensures CoversPlan(order + pairs, cases, r + 1, baseline, candidate)
  {
    forall p
      ensures Times(order + pairs, p) == InPlan(p, cases, r + 1, baseline, candidate)
    {
      assert Times(order + pairs, p) == Times(order, p) + Times(pairs, p);
    }
  }

  // --- Spending ---

  function Spent(trials: seq<Trial>): Money {
    if trials == [] then 0 else Spent(trials[..|trials| - 1]) + trials[|trials| - 1].Counted()
  }

  function TotalExcess(trials: seq<Trial>): Money {
    if trials == [] then 0 else TotalExcess(trials[..|trials| - 1]) + trials[|trials| - 1].Excess()
  }

  /** What the runtimes reported, over the trials for which they did. */
  function Reported(trials: seq<Trial>): Money {
    if trials == [] then 0
    else Reported(trials[..|trials| - 1]) + match trials[|trials| - 1].reported { case Some(m) => m case None => 0 }
  }

  /** The planned trials whose runtimes reported nothing. */
  function Silent(trials: seq<Trial>): seq<Planned> {
    if trials == [] then []
    else
      var last := trials[|trials| - 1];
      Silent(trials[..|trials| - 1]) + if last.reported.None? then [last.planned] else []
  }

  /** Spending is what was reported, and all that was planned for the trials that reported nothing. */
  lemma {:induction false} UnknownCostIsFull(trials: seq<Trial>)
    ensures Spent(trials) == Reported(trials) + Estimate(Silent(trials))
  {
    if trials != [] {
      var n := |trials| - 1;
      UnknownCostIsFull(trials[..n]);
      EstimateConcat(Silent(trials[..n]), if trials[n].reported.None? then [trials[n].planned] else []);
    }
  }

  /** The trials are a run of the planned order from its start. */
  predicate RunsInOrder(trials: seq<Trial>, order: seq<Planned>) {
    |trials| <= |order| && forall i :: 0 <= i < |trials| ==> trials[i].planned == order[i]
  }

  lemma {:induction false} EstimateTail(order: seq<Planned>, k: nat)
    requires k <= |order|
    ensures Estimate(order[..k]) <= Estimate(order)
    ensures k < |order| ==> Estimate(order[..k]) + order[k].configuration.maxCostPerTrial <= Estimate(order)
  {
    if k == |order| {
      assert order[..k] == order;
    } else {
      var n := |order| - 1;
      EstimateTail(order[..n], k);
      assert order[..n][..k] == order[..k];
    }
  }

  /** What was spent is at most what was planned for the trials that ran, plus their excess. */
  lemma {:induction false} SpentWithinPlan(trials: seq<Trial>, order: seq<Planned>)
    requires RunsInOrder(trials, order)
    ensures Spent(trials) <= Estimate(order[..|trials|]) + TotalExcess(trials)
    ensures Spent(trials) <= Estimate(order) + TotalExcess(trials)
  {
    EstimateTail(order, |trials|);
    if trials != [] {
      var n := |trials| - 1;
      SpentWithinPlan(trials[..n], order);
      assert order[..n + 1][..n] == order[..n];
    }
  }

  lemma {:induction false} NoExcess(trials: seq<Trial>)
    requires forall t :: t in trials ==> t.Counted() <= t.Reserve()
    ensures TotalExcess(trials) == 0
  {
    if trials != [] {
      NoExcess(trials[..|trials| - 1]);
    }
  }

  /** The total after all but the last trial left room for the last one's reserve. */
  ghost predicate EachFitted(trials: seq<Trial>, runCap: Money) {
    forall k :: 0 <= k < |trials| ==> Spent(trials[..k]) + trials[k].Reserve() <= runCap
  }

  /** The cap is exceeded by at most the excess of the last trial over its own reserve. */
  lemma OvershootIsLastExcess(trials: seq<Trial>, runCap: Money)
    requires EachFitted(trials, runCap)
    ensures trials == [] ==> Spent(trials) == 0
    ensures trials != [] ==> Spent(trials) <= runCap + trials[|trials| - 1].Excess()
  {
    if trials != [] {
      assert Spent(trials[..|trials| - 1]) + trials[|trials| - 1].Reserve() <= runCap;
    }
  }

  /** The ledger of counted spending, with the time of each run. */
  datatype LedgerEntry = LedgerEntry(at: nat, counted: Money)

  function SpentSince(entries: seq<LedgerEntry>, since: int): Money {
    if entries == [] then 0
    else SpentSince(entries[..|entries| - 1], since) + if entries[|entries| - 1].at >= since
      then entries[|entries| - 1].counted else 0
  }

  const WEEK := 7 * 24 * 3600

  class Ledger {
    var entries: seq<LedgerEntry>

    constructor ()
      ensures entries == [] && forall since: int :: SpentSince(entries, since) == 0
    {
      entries := [];
    }

    function SpentThisWeek(now: nat): Money
      reads this
    {
      SpentSince(entries, now - WEEK)
    }

    /** Append one run. */
    method Record(at: nat, counted: Money)
      modifies this
      ensures entries == old(entries) + [LedgerEntry(at, counted)]
      ensures forall since: int :: SpentSince(entries, since) == SpentSince(old(entries), since) + if at >= since
              then counted else 0
    {
      entries := entries + [LedgerEntry(at, counted)];
      assert entries[..|old(entries)|] == old(entries);
    }
  }

  /**
   One comparison: refused up front unless both caps hold the plan; then trials run while the next
   reserve is still covered by the run cap, and the ledger gets their counted total.
   */
  method RunComparison(order: seq<Planned>, runCap: Money, weekCap: Money, ledger: Ledger, now: nat)
    returns (r: Result<seq<Trial>, BudgetError>)
    modifies ledger
    ensures r.Ok? <==>
              && Estimate(order) <= runCap
              && Estimate(order) + SpentSince(old(ledger.entries), now - 604800) <= weekCap
    ensures r.Err? ==> r.error == if Estimate(order) > runCap then ExceedsRunCap else ExceedsWeekCap
    ensures r.Err? ==> ledger.entries == old(ledger.entries)
    ensures r.Ok? ==>
              && RunsInOrder(r.value, order) && EachFitted(r.value, runCap)
              && (|r.value| < |order| ==> Spent(r.value) + order[|r.value|].configuration.maxCostPerTrial > runCap)
              && ledger.entries == old(ledger.entries) + [LedgerEntry(now, Spent(r.value))]
              && ledger.SpentThisWeek(now) == old(ledger.SpentThisWeek(now)) + Spent(r.value)
  {
    hide Estimate, Spent, SpentSince, EachFitted;
    var planned := Estimate(order);
    if planned > runCap {
      return Err(ExceedsRunCap);
    }
    if planned > weekCap - ledger.SpentThisWeek(now) {
      return Err(ExceedsWeekCap);
    }
    var trials: seq<Trial>, spent := [], 0;
    var i := 0;
    NothingRan(runCap);
    while i < |order| && spent + order[i].configuration.maxCostPerTrial <= runCap
      invariant 0 <= i == |trials| <= |order| && ledger.entries == old(ledger.entries)
      invariant spent == Spent(trials) && RunsInOrder(trials, order) && EachFitted(trials, runCap)
    {
      // What a trial costs is its runtime's own account.
      var reported: Option<Money> := *;
      var trial := Trial(order[i], reported);
      FitsNext(trials, trial, runCap);
      trials := trials + [trial];
      spent := spent + trial.Counted();
      i := i + 1;
    }
    ledger.Record(now, spent);
    r := Ok(trials);
  }

  lemma NothingRan(runCap: Money)
    ensures Spent([]) == 0 && EachFitted([], runCap)
  {
  }

  lemma FitsNext(trials: seq<Trial>, trial: Trial, runCap: Money)
    requires EachFitted(trials, runCap) && Spent(trials) + trial.Reserve() <= runCap
    ensures EachFitted(trials + [trial], runCap) && Spent(trials + [trial]) == Spent(trials) + trial.Counted()
  {
    var more := trials + [trial];
    assert more[..|trials|] == trials;
    forall k | 0 <= k < |more|
      ensures Spent(more[..k]) + more[k].Reserve() <= runCap
    {
      if k < |trials| {
        assert more[..k] == trials[..k];
      }
    }
  }

  /**
   If no attempted trial costs more than its reserve, nothing planned is skipped and the total is within
   the plan and both caps. In general the weekly cap is exceeded by at most the total excess.
   */
  lemma HonestRunFits(order: seq<Planned>, trials: seq<Trial>, runCap: Money, weekCap: Money, spentBefore: Money)
    requires Estimate(order) <= runCap && Estimate(order) + spentBefore <= weekCap
    requires RunsInOrder(trials, order)
    requires |trials| < |order| ==> Spent(trials) + order[|trials|].configuration.maxCostPerTrial > runCap
    ensures spentBefore + Spent(trials) <= weekCap + TotalExcess(trials)
    ensures (forall t :: t in trials ==> t.Counted() <= t.Reserve()) ==>
              |trials| == |order| && Spent(trials) <= Estimate(order) <= runCap
                && spentBefore + Spent(trials) <= weekCap
  {
    SpentWithinPlan(trials, order);
    EstimateTail(order, |trials|);
    if forall t :: t in trials ==> t.Counted() <= t.Reserve() {
      NoExcess(trials);
    }
  }

  /** One trial that costs more than its reserve can exceed the weekly cap of a comparison that was allowed to start. */
  lemma WeekCapIsNotEnforced(p: Planned, runCap: Money, weekCap: Money, spentBefore: Money, cost: Money)
    requires Estimate([p]) <= runCap && Estimate([p]) + spentBefore <= weekCap < spentBefore + cost
    ensures var trials := [Trial(p, Some(cost))];
            && RunsInOrder(trials, [p]) && EachFitted(trials, runCap)
            && spentBefore + Spent(trials) > weekCap && TotalExcess(trials) >= spentBefore + cost - weekCap
  {
    var trials := [Trial(p, Some(cost))];
    assert trials[..0] == [] && [p][..0] == [];
    assert Estimate([p]) == p.configuration.maxCostPerTrial;
    assert Spent(trials) == cost;
  }
}
