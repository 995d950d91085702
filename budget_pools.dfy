/**
 * The option pools of budget mode: the single programmes whose cost lies in
 * the ±5% window around the budget, and the shares of programmes that cost
 * more than the window allows.
 */
module BudgetPools {
  import opened Programmes
  import opened Seqs
  import Elo

  /** Lower edge of the budget window, `currentBudget * 0.95`. */
  function MinBudgetWindow(budget: real): real { budget * 0.95 }

  /** Upper edge of the budget window, `currentBudget * 1.05`. */
  function MaxBudgetWindow(budget: real): real { budget * 1.05 }

  const MinPracticalShare: real := 0.50
  const MaxPracticalShare: real := 0.99

  /** The cost lies in the window, both edges included. */
  predicate InWindow(p: Programme, lo: real, hi: real)
  {
    p.cost >= lo && p.cost <= hi
  }

  function InWindowTest(lo: real, hi: real): Programme -> bool
  {
    p => InWindow(p, lo, hi)
  }

  /**
   * The programme costs more than the window allows and the budget buys
   * between 50% and 99% of it, both edges included. A zero cost (possible
   * only for a negative budget) makes `budget / cost` infinite or NaN in
   * the source, which fails the range test; it is excluded outright here.
   */
  predicate HasShare(p: Programme, budget: real, hi: real)
  {
    p.cost > hi && p.cost != 0.0 &&
    MinPracticalShare <= SharePercentage(budget, p.cost) <= MaxPracticalShare
  }

  /** `currentBudget / prog.cost_mvr`: the fraction of a programme the budget buys. */
  function SharePercentage(budget: real, cost: real): real
    requires cost != 0.0
  {
    budget / cost
  }

  /** `Math.round(sharePercentage * 10000)`: the fraction in hundredths of a percent. */
  function BasisPoints(pct: real): int
  {
    Elo.Round(pct * 10000.0)
  }

  function HasShareTest(budget: real, hi: real): Programme -> bool
  {
    p => HasShare(p, budget, hi)
  }

  /** The share of `p` that the budget buys: the fraction `budget / cost`, priced at the budget. */
  function ShareOf(p: Programme, budget: real): (o: MatchupOption)
    requires p.cost != 0.0
    ensures o.Share? && o.baseProgramme == p && o.effectiveCost == budget
    ensures o.sharePercentage * p.cost == budget
  {
    var pct := SharePercentage(budget, p.cost);
    Share(BasisPoints(pct), p, pct, budget)
  }

  function AsSingles(ps: seq<Programme>): (r: seq<MatchupOption>)
    ensures |r| == |ps| && forall i :: 0 <= i < |ps| ==> r[i] == Single(ps[i])
  {
    seq(|ps|, i requires 0 <= i < |ps| => Single(ps[i]))
  }

  function AsShares(ps: seq<Programme>, budget: real): (r: seq<MatchupOption>)
    requires forall p :: p in ps ==> p.cost != 0.0
    ensures |r| == |ps| && forall i :: 0 <= i < |ps| ==> r[i] == ShareOf(ps[i], budget)
  {
    seq(|ps|, i requires 0 <= i < |ps| => ShareOf(ps[i], budget))
  }

  /** The singles pool: one plain option per programme whose cost lies in [lo, hi], in catalog order. */
  function SingleOptions(ps: seq<Programme>, lo: real, hi: real): (r: seq<MatchupOption>)
    ensures forall o :: o in r <==> o.Single? && o.programme in ps && InWindow(o.programme, lo, hi)
  {
    var chosen := Filter(ps, InWindowTest(lo, hi));
    assert forall o :: o in AsSingles(chosen) ==> o.programme in chosen by {
      forall o | o in AsSingles(chosen) ensures o.programme in chosen {
        var i :| 0 <= i < |chosen| && AsSingles(chosen)[i] == o;
      }
    }
    assert forall p :: p in chosen ==> Single(p) in AsSingles(chosen) by {
      forall p | p in chosen ensures Single(p) in AsSingles(chosen) {
        var i :| 0 <= i < |chosen| && chosen[i] == p;
        assert AsSingles(chosen)[i] == Single(p);
      }
    }
    AsSingles(chosen)
  }

  /**
   * The shares pool: for each programme that `HasShare`, in catalog order,
   * the share whose percentage is `budget / cost` and whose cost is the budget.
   */
  function ShareOptions(ps: seq<Programme>, budget: real, hi: real): (r: seq<MatchupOption>)
    ensures forall o :: o in r <==>
      o.Share? && o.baseProgramme in ps && HasShare(o.baseProgramme, budget, hi) &&
      o == ShareOf(o.baseProgramme, budget)
  {
    var chosen := Filter(ps, HasShareTest(budget, hi));
    assert forall o :: o in AsShares(chosen, budget) ==> o.baseProgramme in chosen by {
      forall o | o in AsShares(chosen, budget) ensures o.baseProgramme in chosen {
        var i :| 0 <= i < |chosen| && AsShares(chosen, budget)[i] == o;
      }
    }
    assert forall p :: p in chosen ==> ShareOf(p, budget) in AsShares(chosen, budget) by {
      forall p | p in chosen ensures ShareOf(p, budget) in AsShares(chosen, budget) {
        var i :| 0 <= i < |chosen| && chosen[i] == p;
        assert AsShares(chosen, budget)[i] == ShareOf(p, budget);
      }
    }
    AsShares(chosen, budget)
  }

  /** The loop that fills `singleOptionsInWindow`; `SingleOptions` specifies its result. */
  method CollectSingleOptions(programmes: seq<Programme>, lo: real, hi: real)
    returns (singles: seq<MatchupOption>)
    ensures singles == SingleOptions(programmes, lo, hi)
  {
    singles := [];
    for i := 0 to |programmes|
      invariant singles == AsSingles(Filter(programmes[..i], InWindowTest(lo, hi)))
    {
      var p := programmes[i];
      assert programmes[..i + 1] == programmes[..i] + [p];
      FilterSnoc(programmes[..i], p, InWindowTest(lo, hi));
      if p.cost >= lo && p.cost <= hi {
        singles := singles + [Single(p)];
      }
    }
    assert programmes[..|programmes|] == programmes;
  }

  /** The loop that fills `shareOptionsInWindow`; `ShareOptions` specifies its result. */
  method CollectShareOptions(programmes: seq<Programme>, budget: real, hi: real)
    returns (shares: seq<MatchupOption>)
    ensures shares == ShareOptions(programmes, budget, hi)
  {
    shares := [];
    for i := 0 to |programmes|
      invariant shares == AsShares(Filter(programmes[..i], HasShareTest(budget, hi)), budget)
    {
      var p := programmes[i];
      assert programmes[..i + 1] == programmes[..i] + [p];
      FilterSnoc(programmes[..i], p, HasShareTest(budget, hi));
      if p.cost > hi && p.cost != 0.0 {
        var pct := SharePercentage(budget, p.cost);
        if pct >= MinPracticalShare && pct <= MaxPracticalShare {
          shares := shares + [Share(BasisPoints(pct), p, pct, budget)];
        }
      }
    }
    assert programmes[..|programmes|] == programmes;
  }

  /** A programme priced exactly at the budget is in the singles pool (for a non-negative budget). */
  lemma {:induction false} PricedAtBudgetIsSingle(ps: seq<Programme>, p: Programme, budget: real)
    requires p in ps && p.cost == budget && budget >= 0.0
    ensures Single(p) in SingleOptions(ps, MinBudgetWindow(budget), MaxBudgetWindow(budget))
  {
  }

  /** A programme priced at `budget / 0.6` yields a 60% share. */
  lemma {:induction false} SixtyPercentShare(ps: seq<Programme>, p: Programme, budget: real)
    requires p in ps && budget > 0.0 && p.cost * 0.6 == budget
    ensures ShareOf(p, budget) in ShareOptions(ps, budget, MaxBudgetWindow(budget))
    ensures ShareOf(p, budget).sharePercentage == 0.6
  {
    assert p.cost > MaxBudgetWindow(budget);
    assert budget / p.cost == 0.6;
    assert SharePercentage(budget, p.cost) == 0.6;
  }
}
