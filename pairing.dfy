/**
 * The pair selectors of the plain voting screen: the canonical key of a pair
 * of programme ids, the pairs not yet voted on, and the two ways
 * `getRandomPair` draws a pair of programmes.
 */
module Pairing {
  import opened Wrappers
  import opened Programmes
  import opened StringOrder
  import opened Seqs
  import opened RandomSource

  /** `getPairKey`: the two ids in sorted order, joined by a hyphen. */
  function PairKey(id1: string, id2: string): (key: string)
    ensures LexLe(id1, id2) ==> key == id1 + "-" + id2
    ensures LexLe(id2, id1) ==> key == id2 + "-" + id1
  {
    if LexLe(id1, id2) then
      assert LexLe(id2, id1) ==> id1 == id2 by {
        if LexLe(id2, id1) { LexLeAntisymmetric(id1, id2); }
      }
      id1 + "-" + id2
    else id2 + "-" + id1
  }

  /** The key does not depend on the order of the two ids. */
  lemma {:induction false} PairKeySymmetric(id1: string, id2: string)
    ensures PairKey(id1, id2) == PairKey(id2, id1)
  {
    LexLeTotal(id1, id2);
  }

  /** The pair of `a` and `b` has not been voted on. */
  predicate Unused(used: set<string>, a: Programme, b: Programme)
  {
    PairKey(a.id, b.id) !in used
  }

  /** The unused pairs `(ps[i], ps[j])` with `i < j < bound`, in order of `j`. */
  function RowPairs(ps: seq<Programme>, used: set<string>, i: nat, bound: nat): seq<(Programme, Programme)>
    requires i < |ps| && bound <= |ps|
    decreases bound
  {
    if bound <= i + 1 then []
    else RowPairs(ps, used, i, bound - 1) + if Unused(used, ps[i], ps[bound - 1]) then [(ps[i], ps[bound - 1])] else []
  }

  /** `availablePairs` after the outer loop has run over the first `rows` indices. */
  function AvailablePairs(ps: seq<Programme>, used: set<string>, rows: nat): seq<(Programme, Programme)>
    requires rows <= |ps|
  {
    if rows == 0 then [] else AvailablePairs(ps, used, rows - 1) + RowPairs(ps, used, rows - 1, |ps|)
  }

  /** An unused pair `(ps[i], ps[j])` with `i < j < bound`. */
  ghost predicate InRow(ps: seq<Programme>, used: set<string>, i: nat, bound: nat, pair: (Programme, Programme))
    requires i < |ps|
  {
    exists j :: i < j < bound && j < |ps| && pair == (ps[i], ps[j]) && Unused(used, ps[i], ps[j])
  }

  /** An unused pair `(ps[i], ps[j])` with `i < rows` and `i < j`. */
  ghost predicate IsAvailable(ps: seq<Programme>, used: set<string>, rows: nat, pair: (Programme, Programme))
  {
    exists i, j :: 0 <= i < rows && i < j < |ps| && pair == (ps[i], ps[j]) && Unused(used, ps[i], ps[j])
  }

  /** A row holds exactly the unused pairs that start at `ps[i]`. */
  lemma {:induction false} RowPairsMembers(ps: seq<Programme>, used: set<string>, i: nat, bound: nat, pair: (Programme, Programme))
    requires i < |ps| && bound <= |ps|
    ensures pair in RowPairs(ps, used, i, bound) <==> InRow(ps, used, i, bound, pair)
    decreases bound
  {
    if bound > i + 1 {
      RowPairsMembers(ps, used, i, bound - 1, pair);
      if InRow(ps, used, i, bound, pair) {
        var j :| i < j < bound && j < |ps| && pair == (ps[i], ps[j]) && Unused(used, ps[i], ps[j]);
        if j < bound - 1 {
          assert InRow(ps, used, i, bound - 1, pair);
        }
      }
      if pair in RowPairs(ps, used, i, bound) && pair !in RowPairs(ps, used, i, bound - 1) {
        assert pair == (ps[i], ps[bound - 1]) && Unused(used, ps[i], ps[bound - 1]);
      }
    }
  }

  /** Every listed pair is an unused pair `i < j`. */
  lemma {:induction false} AvailablePairsSound(ps: seq<Programme>, used: set<string>, rows: nat, pair: (Programme, Programme))
    requires rows <= |ps| && pair in AvailablePairs(ps, used, rows)
    ensures IsAvailable(ps, used, rows, pair)
  {
    assert AvailablePairs(ps, used, rows) == AvailablePairs(ps, used, rows - 1) + RowPairs(ps, used, rows - 1, |ps|);
    if pair in AvailablePairs(ps, used, rows - 1) {
      AvailablePairsSound(ps, used, rows - 1, pair);
      var i, j :| 0 <= i < rows - 1 && i < j < |ps| && pair == (ps[i], ps[j]) && Unused(used, ps[i], ps[j]);
    } else {
      RowPairsMembers(ps, used, rows - 1, |ps|, pair);
      var j :| rows - 1 < j < |ps| && pair == (ps[rows - 1], ps[j]) && Unused(used, ps[rows - 1], ps[j]);
    }
  }

  /** Every unused pair `i < j` is listed. */
  lemma {:induction false} AvailablePairsComplete(ps: seq<Programme>, used: set<string>, rows: nat, i: nat, j: nat)
    requires i < rows <= |ps| && i < j < |ps| && Unused(used, ps[i], ps[j])
    ensures (ps[i], ps[j]) in AvailablePairs(ps, used, rows)
  {
    var prev, row := AvailablePairs(ps, used, rows - 1), RowPairs(ps, used, rows - 1, |ps|);
    assert AvailablePairs(ps, used, rows) == prev + row;
    if i < rows - 1 {
      AvailablePairsComplete(ps, used, rows - 1, i, j);
      assert (ps[i], ps[j]) in prev;
    } else {
      RowPairsMembers(ps, used, i, |ps|, (ps[i], ps[j]));
      assert InRow(ps, used, i, |ps|, (ps[i], ps[j]));
      assert (ps[i], ps[j]) in row;
    }
    assert (ps[i], ps[j]) in prev + row;
  }

  /** No pair is available exactly when every pair `i < j` has a used key. */
  lemma NoneAvailable(ps: seq<Programme>, used: set<string>)
    ensures AvailablePairs(ps, used, |ps|) == [] <==>
      forall i, j :: 0 <= i < j < |ps| ==> PairKey(ps[i].id, ps[j].id) in used
  {
    var avail := AvailablePairs(ps, used, |ps|);
    if avail == [] {
      forall i, j | 0 <= i < j < |ps| ensures PairKey(ps[i].id, ps[j].id) in used {
        if Unused(used, ps[i], ps[j]) {
          AvailablePairsComplete(ps, used, |ps|, i, j);
        }
      }
    } else {
      AvailablePairsSound(ps, used, |ps|, avail[0]);
      var i, j :| 0 <= i < |ps| && i < j < |ps| && avail[0] == (ps[i], ps[j]) && Unused(used, ps[i], ps[j]);
    }
  }

  lemma RowPairsStep(ps: seq<Programme>, used: set<string>, i: nat, j: nat)
    requires i < j < |ps|
    ensures RowPairs(ps, used, i, j + 1) == RowPairs(ps, used, i, j) + if Unused(used, ps[i], ps[j]) then [(ps[i], ps[j])] else []
  {
  }

  /** The inner loop of `getRandomPair` without a budget: appends the unused pairs that start at `programmes[i]`, which `RowPairs` specifies. */
  method CollectRow(programmes: seq<Programme>, usedPairs: set<string>, i: nat, availablePairs: seq<(Programme, Programme)>)
    returns (availablePairs': seq<(Programme, Programme)>)
    requires i < |programmes|
    ensures availablePairs' == availablePairs + RowPairs(programmes, usedPairs, i, |programmes|)
  {
    availablePairs' := availablePairs;
    for j := i + 1 to |programmes|
      invariant availablePairs' == availablePairs + RowPairs(programmes, usedPairs, i, j)
    {
      var progA := programmes[i];
      var progB := programmes[j];
      var pairKey := PairKey(progA.id, progB.id);
      RowPairsStep(programmes, usedPairs, i, j);
      if pairKey !in usedPairs {
        SnocAssoc(availablePairs, RowPairs(programmes, usedPairs, i, j), (progA, progB));
        availablePairs' := availablePairs' + [(progA, progB)];
      }
    }
  }

  /** The nested loops of `getRandomPair` without a budget: every unused pair `i < j`, row by row, as `AvailablePairs` specifies. */
  method CollectAvailablePairs(programmes: seq<Programme>, usedPairs: set<string>)
    returns (availablePairs: seq<(Programme, Programme)>)
    ensures availablePairs == AvailablePairs(programmes, usedPairs, |programmes|)
  {
    availablePairs := [];
    for i := 0 to |programmes|
      invariant availablePairs == AvailablePairs(programmes, usedPairs, i)
    {
      availablePairs := CollectRow(programmes, usedPairs, i, availablePairs);
    }
  }

  /**
   * `getRandomPair` without a budget: lists the unused pairs `i < j` in the
   * order of the two nested loops and draws one of them uniformly. There is
   * no pair to give when there are fewer than two programmes or every pair
   * has been voted on.
   */
  method UnconstrainedPair(programmes: seq<Programme>, usedPairs: set<string>, stream: RandomStream, k: nat)
    returns (r: Option<(Programme, Programme)>, k': nat)
    ensures var avail := AvailablePairs(programmes, usedPairs, |programmes|);
      r == if |programmes| < 2 || avail == [] then None else Some(avail[Pick(stream(k), |avail|)])
    ensures k' == if r.None? then k else k + 1
  {
    if |programmes| < 2 {
      return None, k;
    }
    var availablePairs := CollectAvailablePairs(programmes, usedPairs);
    if |availablePairs| == 0 {
      return None, k;
    }
    var randomIndex := Pick(stream(k), |availablePairs|);
    r, k' := Some(availablePairs[randomIndex]), k + 1;
  }

  /**
   * What the unconstrained selector promises: no pair exactly when there are
   * fewer than two programmes or every pair `i < j` has been voted on, and
   * otherwise a pair `(programmes[i], programmes[j])` with `i < j` whose key
   * is not in `usedPairs`.
   */
  lemma {:induction false} UnconstrainedPairSpec(programmes: seq<Programme>, usedPairs: set<string>, stream: RandomStream, k: nat)
    ensures var avail := AvailablePairs(programmes, usedPairs, |programmes|);
      var r := if |programmes| < 2 || avail == [] then None else Some(avail[Pick(stream(k), |avail|)]);
      && (r.None? <==>
            |programmes| < 2 ||
            forall i, j :: 0 <= i < j < |programmes| ==> PairKey(programmes[i].id, programmes[j].id) in usedPairs)
      && (r.Some? ==> exists i, j :: 0 <= i < j < |programmes| && r.value == (programmes[i], programmes[j]) &&
                        PairKey(programmes[i].id, programmes[j].id) !in usedPairs)
  {
    var avail := AvailablePairs(programmes, usedPairs, |programmes|);
    NoneAvailable(programmes, usedPairs);
    if |programmes| >= 2 && avail != [] {
      AvailablePairsSound(programmes, usedPairs, |programmes|, avail[Pick(stream(k), |avail|)]);
    }
  }

  /** The programmes a budget of `budget` can buy outright. */
  function CostAtMost(budget: real): Programme -> bool
  {
    (p: Programme) => p.cost <= budget
  }

  /** `Math.floor(Math.random() * n)` for the `d`-th draw. */
  function IndexDraw(stream: RandomStream, d: nat, n: nat): nat
    requires n > 0
  {
    Pick(stream(d), n)
  }

  /**
   * The draws for the second index all hit the first: the `2 * n` retries
   * ran out. The first index is draw `k`, the second draws `k + 1` onwards.
   */
  ghost predicate RetriesExhausted(stream: RandomStream, k: nat, n: nat)
    requires n > 0
  {
    forall d :: k + 1 <= d <= k + 1 + 2 * n ==> IndexDraw(stream, d, n) == IndexDraw(stream, k, n)
  }

  /**
   * `getRandomPair` with a budget: among the programmes costing at most the
   * budget, draws two indices and redraws the second, at most twice the
   * number of eligible programmes, while the two coincide. Repeats of
   * earlier pairs are allowed.
   */
  method BudgetPair(programmes: seq<Programme>, budget: real, stream: RandomStream, k: nat)
    returns (r: Option<(Programme, Programme)>, k': nat)
    ensures var eligible := Filter(programmes, CostAtMost(budget));
      && (r.None? <==> |eligible| < 2 || RetriesExhausted(stream, k, |eligible|))
      && (r.Some? ==> exists i, j :: 0 <= i < |eligible| && 0 <= j < |eligible| && i != j &&
                        r.value == (eligible[i], eligible[j]))
    ensures k' >= k
  {
    var eligibleProgrammes := Filter(programmes, CostAtMost(budget));
    var n := |eligibleProgrammes|;
    if n < 2 {
      return None, k;
    }
    var index1 := Pick(stream(k), n);
    var index2 := Pick(stream(k + 1), n);
    k' := k + 2;
    var attempts := 0;
    while index1 == index2 && n > 1 && attempts < n * 2
      invariant 0 <= attempts <= n * 2 && k' == k + 2 + attempts
      invariant index1 == IndexDraw(stream, k, n) && index2 == IndexDraw(stream, k' - 1, n) && index2 < n
      invariant forall d :: k + 1 <= d < k' - 1 ==> IndexDraw(stream, d, n) == index1
    {
      index2 := Pick(stream(k'), n);
      k' := k' + 1;
      attempts := attempts + 1;
    }
    if index1 == index2 && n > 1 {
      return None, k';
    }
    r := Some((eligibleProgrammes[index1], eligibleProgrammes[index2]));
  }

  /** Both programmes of a budget-mode pair come from the catalog and cost at most the budget. */
  lemma BudgetPairEligible(programmes: seq<Programme>, budget: real, i: nat, j: nat)
    requires var eligible := Filter(programmes, CostAtMost(budget)); i < |eligible| && j < |eligible|
    ensures var eligible := Filter(programmes, CostAtMost(budget));
      eligible[i] in programmes && eligible[i].cost <= budget &&
      eligible[j] in programmes && eligible[j].cost <= budget
  {
    var eligible := Filter(programmes, CostAtMost(budget));
    assert eligible[i] in eligible && eligible[j] in eligible;
  }
}
