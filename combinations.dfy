/**
 * The exhaustive search for combinations of two or three programmes whose
 * summed cost lies in the budget window.
 *
 * Candidates are the programmes costing at most the window's upper edge,
 * sorted by id. The search walks index paths (strictly increasing indices
 * into the candidate list) depth first, never extends a path whose cost
 * would pass the upper edge, and records each combination the first time
 * its sorted-id key is met.
 */
module Combinations {
  import opened Programmes
  import opened StringOrder
  import opened Seqs

  const MaxProgrammesInCombination: nat := 3

  function IdOf(p: Programme): string { p.id }

  function AtMostTest(hi: real): Programme -> bool
  {
    (p: Programme) => p.cost <= hi
  }

  /** `candidateProgrammesForCombination`: the programmes costing at most `hi`, sorted by id. */
  function Candidates(ps: seq<Programme>, hi: real): (c: seq<Programme>)
    ensures SortedBy(c, IdOf)
    ensures forall p :: p in c <==> p in ps && p.cost <= hi
  {
    var f := Filter(ps, AtMostTest(hi));
    var c := SortBy(f, IdOf);
    SortBySorts(f, IdOf);
    assert forall p :: p in c <==> p in f by {
      forall p ensures p in c <==> p in f {
        calc {
          p in c;
          p in multiset(c);
          p in multiset(f);
          p in f;
        }
      }
    }
    c
  }

  /** Strictly increasing indices into `c`. */
  ghost predicate IsPath(c: seq<Programme>, q: seq<nat>)
  {
    (forall k :: 0 <= k < |q| ==> q[k] < |c|) &&
    (forall a, b :: 0 <= a < b < |q| ==> q[a] < q[b])
  }

  function Members(c: seq<Programme>, q: seq<nat>): (ms: seq<Programme>)
    requires forall k :: 0 <= k < |q| ==> q[k] < |c|
    ensures |ms| == |q| && forall k :: 0 <= k < |q| ==> ms[k] == c[q[k]]
  {
    seq(|q|, k requires 0 <= k < |q| => c[q[k]])
  }

  function IdsOf(ms: seq<Programme>): (ids: seq<string>)
    ensures |ids| == |ms| && forall k :: 0 <= k < |ms| ==> ids[k] == ms[k].id
  {
    seq(|ms|, k requires 0 <= k < |ms| => ms[k].id)
  }

  /** The summed cost of some programmes. */
  function SumCosts(ms: seq<Programme>): real
  {
    if ms == [] then 0.0 else SumCosts(ms[..|ms| - 1]) + ms[|ms| - 1].cost
  }

  function PathCost(c: seq<Programme>, q: seq<nat>): real
    requires forall k :: 0 <= k < |q| ==> q[k] < |c|
  {
    SumCosts(Members(c, q))
  }

  /** The dedup key: the members' ids, sorted. */
  function Key(c: seq<Programme>, q: seq<nat>): (key: seq<string>)
    requires forall k :: 0 <= k < |q| ==> q[k] < |c|
  {
    SortBy(IdsOf(Members(c, q)), Self)
  }

  /** The dedup key holds the members' ids in string order, each as often as it occurs among them. */
  lemma KeySortsIds(c: seq<Programme>, q: seq<nat>)
    requires forall k :: 0 <= k < |q| ==> q[k] < |c|
    ensures SortedBy(Key(c, q), Self) && multiset(Key(c, q)) == multiset(IdsOf(Members(c, q)))
  {
    SortBySorts(IdsOf(Members(c, q)), Self);
  }

  /** Every index of every path lies inside the candidate list. */
  ghost predicate AllInBounds(c: seq<Programme>, ps: seq<seq<nat>>)
  {
    forall j, k :: 0 <= j < |ps| && 0 <= k < |ps[j]| ==> ps[j][k] < |c|
  }

  /** Every non-empty prefix of the path costs at most `hi`: the pruning rule. */
  ghost predicate WithinCap(c: seq<Programme>, q: seq<nat>, hi: real)
    requires IsPath(c, q)
  {
    forall m :: 1 <= m <= |q| ==> PathCost(c, q[..m]) <= hi
  }

  /** A path the search reports: two or three members, in the window, never pruned. */
  ghost predicate ValidPath(c: seq<Programme>, lo: real, hi: real, q: seq<nat>)
  {
    IsPath(c, q) && 2 <= |q| <= MaxProgrammesInCombination &&
    lo <= PathCost(c, q) <= hi && WithinCap(c, q, hi)
  }

  /** `q` continues `path` with indices from `start` on. */
  ghost predicate Extends(q: seq<nat>, path: seq<nat>, start: nat)
  {
    |path| <= |q| && q[..|path|] == path && forall k :: |path| <= k < |q| ==> q[k] >= start
  }

  ghost predicate SearchState(c: seq<Programme>, hi: real, start: nat, path: seq<nat>)
  {
    IsPath(c, path) && |path| <= MaxProgrammesInCombination && start <= |c| &&
    (path != [] ==> path[|path| - 1] < start) && WithinCap(c, path, hi)
  }

  /** What the search needs to run from `path`: indices inside the candidate list, room left to count down, a start within it. */
  ghost predicate Frontier(c: seq<Programme>, start: nat, path: seq<nat>)
  {
    (forall k :: 0 <= k < |path| ==> path[k] < |c|) && |path| <= MaxProgrammesInCombination && start <= |c|
  }

  /**
   * The paths the search visits from `path`, in the order it reports them:
   * `path` itself when it is a combination in the window, then, when it has
   * room for another member, the extensions by each later candidate.
   */
  ghost function Enumerate(c: seq<Programme>, lo: real, hi: real, start: nat, path: seq<nat>): (r: seq<seq<nat>>)
    requires Frontier(c, start, path)
    ensures AllInBounds(c, r)
    decreases MaxProgrammesInCombination - |path|, 1, 0
  {
    (if 2 <= |path| <= MaxProgrammesInCombination && lo <= PathCost(c, path) <= hi then [path] else []) +
    (if |path| < MaxProgrammesInCombination then Branches(c, lo, hi, start, |c|, path) else [])
  }

  /** The extensions of `path` by the candidates at `start .. to - 1`, in index order. */
  ghost function Branches(c: seq<Programme>, lo: real, hi: real, start: nat, to: nat, path: seq<nat>): (r: seq<seq<nat>>)
    requires Frontier(c, start, path) && start <= to <= |c| && |path| < MaxProgrammesInCombination
    ensures AllInBounds(c, r)
    decreases MaxProgrammesInCombination - |path|, 0, to - start
  {
    if to == start then []
    else
      var i := to - 1;
      Branches(c, lo, hi, start, i, path) +
      if PathCost(c, path) + c[i].cost <= hi then Enumerate(c, lo, hi, i + 1, path + [i]) else []
  }

  lemma MembersSnoc(c: seq<Programme>, q: seq<nat>, i: nat)
    requires forall k :: 0 <= k < |q| ==> q[k] < |c|
    requires i < |c|
    ensures Members(c, q + [i]) == Members(c, q) + [c[i]]
  {
  }

  lemma PathCostSnoc(c: seq<Programme>, q: seq<nat>, i: nat)
    requires forall k :: 0 <= k < |q| ==> q[k] < |c|
    requires i < |c|
    ensures PathCost(c, q + [i]) == PathCost(c, q) + c[i].cost
  {
    MembersSnoc(c, q, i);
    var ms := Members(c, q + [i]);
    assert ms[..|ms| - 1] == Members(c, q);
  }

  /** Extending a search state by a later candidate that keeps within the cap gives a search state. */
  lemma ExtendState(c: seq<Programme>, hi: real, start: nat, path: seq<nat>, i: nat)
    requires SearchState(c, hi, start, path) && start <= i < |c| && |path| < MaxProgrammesInCombination
    requires PathCost(c, path) + c[i].cost <= hi
    ensures SearchState(c, hi, i + 1, path + [i])
  {
    var q := path + [i];
    forall a, b | 0 <= a < b < |q| ensures q[a] < q[b] {
      if b == |path| && a < |path| - 1 {
        assert path[a] < path[|path| - 1];
      }
    }
    PathCostSnoc(c, path, i);
    forall m | 1 <= m <= |q| ensures PathCost(c, q[..m]) <= hi {
      if m <= |path| {
        assert q[..m] == path[..m];
      } else {
        assert q[..m] == q;
      }
    }
  }

  /** Every path the search reports is a valid combination that continues the current path. */
  lemma {:induction false} EnumerateSound(c: seq<Programme>, lo: real, hi: real, start: nat, path: seq<nat>)
    requires SearchState(c, hi, start, path)
    ensures forall q :: q in Enumerate(c, lo, hi, start, path) ==> ValidPath(c, lo, hi, q) && Extends(q, path, start)
    decreases MaxProgrammesInCombination - |path|, 1, 0
  {
    if |path| < MaxProgrammesInCombination {
      BranchesSound(c, lo, hi, start, |c|, path);
    }
    assert path[..|path|] == path;
  }

  lemma {:induction false} BranchesSound(c: seq<Programme>, lo: real, hi: real, start: nat, to: nat, path: seq<nat>)
    requires SearchState(c, hi, start, path) && start <= to <= |c| && |path| < MaxProgrammesInCombination
    ensures forall q :: q in Branches(c, lo, hi, start, to, path) ==> ValidPath(c, lo, hi, q) && Extends(q, path, start)
    decreases MaxProgrammesInCombination - |path|, 0, to - start
  {
    if to > start {
      var i := to - 1;
      BranchesSound(c, lo, hi, start, i, path);
      if PathCost(c, path) + c[i].cost <= hi {
        ExtendState(c, hi, start, path, i);
        EnumerateSound(c, lo, hi, i + 1, path + [i]);
        forall q | q in Enumerate(c, lo, hi, i + 1, path + [i]) ensures Extends(q, path, start) {
          ExtendsShorter(q, path, i, start);
        }
      }
    }
  }

  /** A path that continues `path + [i]` continues `path` from any start up to `i`. */
  lemma ExtendsShorter(q: seq<nat>, path: seq<nat>, i: nat, start: nat)
    requires start <= i && Extends(q, path + [i], i + 1)
    ensures Extends(q, path, start)
  {
    assert q[..|path| + 1] == path + [i];
    assert q[..|path|] == q[..|path| + 1][..|path|];
    forall k | |path| <= k < |q| ensures q[k] >= start {
      if k == |path| { assert q[k] == q[..|path| + 1][k]; }
    }
  }

  /** The search misses no valid combination that continues the current path. */
  lemma {:induction false} EnumerateComplete(c: seq<Programme>, lo: real, hi: real, start: nat, path: seq<nat>, q: seq<nat>)
    requires SearchState(c, hi, start, path)
    requires ValidPath(c, lo, hi, q) && Extends(q, path, start)
    ensures q in Enumerate(c, lo, hi, start, path)
    decreases MaxProgrammesInCombination - |path|, 1, 0, 0
  {
    if |q| == |path| {
      assert q == q[..|path|];
    } else {
      assert q[|path|] >= start;
      BranchesComplete(c, lo, hi, start, |c|, path, q);
    }
  }

  lemma {:induction false} BranchesComplete(c: seq<Programme>, lo: real, hi: real, start: nat, to: nat, path: seq<nat>, q: seq<nat>)
    requires SearchState(c, hi, start, path) && start <= to <= |c| && |path| < MaxProgrammesInCombination
    requires ValidPath(c, lo, hi, q) && Extends(q, path, start) && |path| < |q| && q[|path|] < to
    ensures q in Branches(c, lo, hi, start, to, path)
    decreases MaxProgrammesInCombination - |path|, 0, to - start, 1
  {
    var i := to - 1;
    if q[|path|] < i {
      BranchesComplete(c, lo, hi, start, i, path, q);
      BranchesStep(c, lo, hi, start, i, path);
    } else {
      LastBranchComplete(c, lo, hi, start, to, path, q);
    }
  }

  /** The case where `q`'s first new index is the last candidate `Branches` looks at. */
  lemma {:induction false} LastBranchComplete(c: seq<Programme>, lo: real, hi: real, start: nat, to: nat, path: seq<nat>, q: seq<nat>)
    requires SearchState(c, hi, start, path) && start < to <= |c| && |path| < MaxProgrammesInCombination
    requires ValidPath(c, lo, hi, q) && Extends(q, path, start) && |path| < |q| && q[|path|] == to - 1
    ensures q in Branches(c, lo, hi, start, to, path)
    decreases MaxProgrammesInCombination - |path|, 0, to - start, 0
  {
    var i := to - 1;
    FirstStep(c, lo, hi, start, path, q);
    ExtendState(c, hi, start, path, i);
    EnumerateComplete(c, lo, hi, i + 1, path + [i], q);
    var e := Enumerate(c, lo, hi, i + 1, path + [i]);
    assert Branches(c, lo, hi, start, to, path) == Branches(c, lo, hi, start, i, path) + e;
  }

  /** The first index `q` adds to `path` keeps within the cap, and `q` continues the longer path. */
  lemma FirstStep(c: seq<Programme>, lo: real, hi: real, start: nat, path: seq<nat>, q: seq<nat>)
    requires SearchState(c, hi, start, path) && |path| < MaxProgrammesInCombination
    requires ValidPath(c, lo, hi, q) && Extends(q, path, start) && |path| < |q|
    ensures start <= q[|path|] < |c|
    ensures PathCost(c, path) + c[q[|path|]].cost <= hi
    ensures Extends(q, path + [q[|path|]], q[|path|] + 1)
  {
    var i := q[|path|];
    var p1 := path + [i];
    assert q[..|path| + 1] == p1 by {
      assert q[..|path| + 1] == q[..|path|] + [q[|path|]];
    }
    PathCostSnoc(c, path, i);
    assert PathCost(c, q[..|path| + 1]) <= hi;
    forall k | |p1| <= k < |q| ensures q[k] >= i + 1 {
      assert q[|path|] < q[k];
    }
  }

  /** `Key`, extended to every index sequence so that deduplication can be stated without bounds. */
  ghost function KeyFn(c: seq<Programme>): seq<nat> -> seq<string>
  {
    q => if forall k :: 0 <= k < |q| ==> q[k] < |c| then Key(c, q) else []
  }

  /** The keys of some paths. */
  ghost function KeysOf(keyOf: seq<nat> -> seq<string>, ps: seq<seq<nat>>): set<seq<string>>
  {
    if ps == [] then {} else {keyOf(ps[0])} + KeysOf(keyOf, ps[1..])
  }

  /**
   * Deduplication by key: the paths of `ps`, in order, whose key is neither
   * in `found` nor the key of an earlier path.
   */
  ghost function Fresh(keyOf: seq<nat> -> seq<string>, found: set<seq<string>>, ps: seq<seq<nat>>): (r: seq<seq<nat>>)
    ensures forall q :: q in r ==> q in ps
    decreases ps
  {
    if ps == [] then []
    else if keyOf(ps[0]) in found then Fresh(keyOf, found, ps[1..])
    else [ps[0]] + Fresh(keyOf, found + {keyOf(ps[0])}, ps[1..])
  }

  lemma {:induction false} KeysOfAppend(keyOf: seq<nat> -> seq<string>, a: seq<seq<nat>>, b: seq<seq<nat>>)
    ensures KeysOf(keyOf, a + b) == KeysOf(keyOf, a) + KeysOf(keyOf, b)
  {
    if a == [] {
      assert a + b == b;
    } else {
      assert (a + b)[0] == a[0];
      assert (a + b)[1..] == a[1..] + b;
      KeysOfAppend(keyOf, a[1..], b);
    }
  }

  lemma {:induction false} FreshAppend(keyOf: seq<nat> -> seq<string>, found: set<seq<string>>, a: seq<seq<nat>>, b: seq<seq<nat>>)
    ensures Fresh(keyOf, found, a + b) == Fresh(keyOf, found, a) + Fresh(keyOf, found + KeysOf(keyOf, a), b)
    decreases a
  {
    if a == [] {
      assert a + b == b;
      assert found + KeysOf(keyOf, a) == found;
    } else {
      assert (a + b)[0] == a[0];
      assert (a + b)[1..] == a[1..] + b;
      var k := keyOf(a[0]);
      if k in found {
        FreshAppend(keyOf, found, a[1..], b);
        assert found + KeysOf(keyOf, a) == found + KeysOf(keyOf, a[1..]);
      } else {
        FreshAppend(keyOf, found + {k}, a[1..], b);
        assert found + KeysOf(keyOf, a) == found + {k} + KeysOf(keyOf, a[1..]);
      }
    }
  }

  /** No path of `r` has a key in `found`. */
  ghost predicate KeysAvoid(keyOf: seq<nat> -> seq<string>, r: seq<seq<nat>>, found: set<seq<string>>)
  {
    forall i :: 0 <= i < |r| ==> keyOf(r[i]) !in found
  }

  /** No two paths of `r` have the same key. */
  ghost predicate KeysDistinct(keyOf: seq<nat> -> seq<string>, r: seq<seq<nat>>)
  {
    forall i, j :: 0 <= i < j < |r| ==> keyOf(r[i]) != keyOf(r[j])
  }

  /** Deduplication keeps no key twice and no key already in `found`. */
  lemma {:induction false} FreshKeysDistinct(keyOf: seq<nat> -> seq<string>, found: set<seq<string>>, ps: seq<seq<nat>>)
    ensures KeysAvoid(keyOf, Fresh(keyOf, found, ps), found)
    ensures KeysDistinct(keyOf, Fresh(keyOf, found, ps))
    decreases ps
  {
    if ps != [] {
      var k := keyOf(ps[0]);
      if k in found {
        FreshKeysDistinct(keyOf, found, ps[1..]);
      } else {
        var rest := Fresh(keyOf, found + {k}, ps[1..]);
        FreshKeysDistinct(keyOf, found + {k}, ps[1..]);
        var r := [ps[0]] + rest;
        assert Fresh(keyOf, found, ps) == r;
        forall i | 0 <= i < |r| ensures keyOf(r[i]) !in found {
          if i > 0 {
            assert r[i] == rest[i - 1];
          }
        }
        forall i, j | 0 <= i < j < |r| ensures keyOf(r[i]) != keyOf(r[j]) {
          assert r[j] == rest[j - 1];
          if i > 0 {
            assert r[i] == rest[i - 1];
          }
        }
      }
    }
  }

  /** Deduplication keeps every key of `ps` that is not already in `found`. */
  lemma {:induction false} FreshKeys(keyOf: seq<nat> -> seq<string>, found: set<seq<string>>, ps: seq<seq<nat>>)
    ensures KeysOf(keyOf, Fresh(keyOf, found, ps)) == KeysOf(keyOf, ps) - found
    decreases ps
  {
    if ps != [] {
      var k := keyOf(ps[0]);
      if k in found {
        FreshKeys(keyOf, found, ps[1..]);
      } else {
        var rest := Fresh(keyOf, found + {k}, ps[1..]);
        FreshKeys(keyOf, found + {k}, ps[1..]);
        assert ([ps[0]] + rest)[1..] == rest;
      }
    }
  }

  /** Deduplication keeps only paths of `ps`, so it keeps them inside the candidate list. */
  lemma FreshInBounds(c: seq<Programme>, keyOf: seq<nat> -> seq<string>, found: set<seq<string>>, ps: seq<seq<nat>>)
    requires AllInBounds(c, ps)
    ensures AllInBounds(c, Fresh(keyOf, found, ps))
  {
    var r := Fresh(keyOf, found, ps);
    forall j, k | 0 <= j < |r| && 0 <= k < |r[j]| ensures r[j][k] < |c| {
      assert r[j] in ps;
      var t :| 0 <= t < |ps| && ps[t] == r[j];
    }
  }

  /** The combination a reported path stands for. */
  function ComboOption(c: seq<Programme>, q: seq<nat>): (o: MatchupOption)
    requires forall k :: 0 <= k < |q| ==> q[k] < |c|
    ensures o.Combination? && o.constituentProgrammes == Members(c, q)
    ensures o.totalCost == SumCosts(o.constituentProgrammes) && o.comboId == Key(c, q)
  {
    Combination(Key(c, q), Members(c, q), PathCost(c, q))
  }

  /** `ComboOption`, extended to every index sequence so that the pool can be stated without bounds. */
  ghost function OptionFn(c: seq<Programme>): seq<nat> -> MatchupOption
  {
    q => if forall k :: 0 <= k < |q| ==> q[k] < |c| then ComboOption(c, q) else Combination([], [], 0.0)
  }

  /** The combinations some paths stand for, in order. */
  lemma ComboOptionsAt(c: seq<Programme>, ps: seq<seq<nat>>)
    requires AllInBounds(c, ps)
    ensures |Map(OptionFn(c), ps)| == |ps|
    ensures forall i :: 0 <= i < |ps| ==> Map(OptionFn(c), ps)[i] == ComboOption(c, ps[i])
  {
    MapAt(OptionFn(c), ps);
  }

  /** The paths behind `combinationOptionsInWindow`, in the order the search reports them. */
  ghost function CombinationPaths(ps: seq<Programme>, lo: real, hi: real): (r: seq<seq<nat>>)
    ensures AllInBounds(Candidates(ps, hi), r)
  {
    var c := Candidates(ps, hi);
    assert SearchState(c, hi, 0, []);
    FreshInBounds(c, KeyFn(c), {}, Enumerate(c, lo, hi, 0, []));
    Fresh(KeyFn(c), {}, Enumerate(c, lo, hi, 0, []))
  }

  /** `combinationOptionsInWindow` as the search leaves it. */
  ghost function CombinationPool(ps: seq<Programme>, lo: real, hi: real): seq<MatchupOption>
  {
    Map(OptionFn(Candidates(ps, hi)), CombinationPaths(ps, lo, hi))
  }

  /**
   * Every combination in the pool comes from a reported path: two or three
   * strictly increasing indices of the id-sorted candidate list, whose cost
   * lies in [lo, hi], and none of whose partial sets cost more than `hi`.
   * The combination's members are the candidates at those indices and its
   * total is the sum of their costs.
   */
  lemma CombinationPoolSound(ps: seq<Programme>, lo: real, hi: real)
    ensures var c := Candidates(ps, hi);
      var paths := CombinationPaths(ps, lo, hi);
      var pool := CombinationPool(ps, lo, hi);
      |pool| == |paths| &&
      forall k :: 0 <= k < |pool| ==> ValidPath(c, lo, hi, paths[k]) && pool[k] == ComboOption(c, paths[k])
  {
    var c := Candidates(ps, hi);
    assert SearchState(c, hi, 0, []);
    var all := Enumerate(c, lo, hi, 0, []);
    EnumerateSound(c, lo, hi, 0, []);
    ComboOptionsAt(c, CombinationPaths(ps, lo, hi));
  }

  /** The combination of a reported path lies in the window and draws on cheap-enough catalog programmes. */
  lemma ComboOptionInWindow(ps: seq<Programme>, lo: real, hi: real, q: seq<nat>)
    requires ValidPath(Candidates(ps, hi), lo, hi, q)
    ensures var o := ComboOption(Candidates(ps, hi), q);
      && 2 <= |o.constituentProgrammes| <= MaxProgrammesInCombination
      && lo <= o.totalCost <= hi
      && (forall m :: m in o.constituentProgrammes ==> m in ps && m.cost <= hi)
  {
    var c := Candidates(ps, hi);
    var ms := Members(c, q);
    forall m | m in ms ensures m in ps && m.cost <= hi {
      var t :| 0 <= t < |ms| && ms[t] == m;
      assert m == c[q[t]];
    }
  }

  /**
   * Every combination in the pool has two or three members, each from the
   * catalog and costing at most `hi`, and a total cost in [lo, hi].
   */
  lemma CombinationPoolInWindow(ps: seq<Programme>, lo: real, hi: real)
    ensures var pool := CombinationPool(ps, lo, hi);
      forall k :: 0 <= k < |pool| ==>
        && pool[k].Combination?
        && 2 <= |pool[k].constituentProgrammes| <= MaxProgrammesInCombination
        && lo <= pool[k].totalCost <= hi
        && (forall m :: m in pool[k].constituentProgrammes ==> m in ps && m.cost <= hi)
  {
    var c := Candidates(ps, hi);
    var paths := CombinationPaths(ps, lo, hi);
    var pool := CombinationPool(ps, lo, hi);
    CombinationPoolSound(ps, lo, hi);
    forall k | 0 <= k < |pool|
      ensures && pool[k].Combination?
        && 2 <= |pool[k].constituentProgrammes| <= MaxProgrammesInCombination
        && lo <= pool[k].totalCost <= hi
        && (forall m :: m in pool[k].constituentProgrammes ==> m in ps && m.cost <= hi)
    {
      ComboOptionInWindow(ps, lo, hi, paths[k]);
    }
  }

  /** A combination's id is its path's key. */
  lemma ComboOptionId(c: seq<Programme>, q: seq<nat>)
    requires forall k :: 0 <= k < |q| ==> q[k] < |c|
    ensures Id(ComboOption(c, q)) == ComboId(KeyFn(c)(q))
  {
  }

  /** No two combinations in the pool share an id. */
  lemma CombinationPoolDistinct(ps: seq<Programme>, lo: real, hi: real)
    ensures var pool := CombinationPool(ps, lo, hi);
      forall j, k :: 0 <= j < k < |pool| ==> Id(pool[j]) != Id(pool[k])
  {
    var c := Candidates(ps, hi);
    assert SearchState(c, hi, 0, []);
    var all := Enumerate(c, lo, hi, 0, []);
    var paths := Fresh(KeyFn(c), {}, all);
    FreshKeysDistinct(KeyFn(c), {}, all);
    FreshInBounds(c, KeyFn(c), {}, all);
    var pool := Map(OptionFn(c), paths);
    ComboOptionsAt(c, paths);
    forall j, k | 0 <= j < k < |pool| ensures Id(pool[j]) != Id(pool[k]) {
      ComboOptionId(c, paths[j]);
      ComboOptionId(c, paths[k]);
    }
  }

  /** Every valid combination of candidates is represented in the pool by its key. */
  lemma CombinationPoolComplete(ps: seq<Programme>, lo: real, hi: real, q: seq<nat>)
    requires ValidPath(Candidates(ps, hi), lo, hi, q)
    ensures exists k :: 0 <= k < |CombinationPool(ps, lo, hi)| && Id(CombinationPool(ps, lo, hi)[k]) == ComboId(Key(Candidates(ps, hi), q))
  {
    var c := Candidates(ps, hi);
    var k := PathKeyReported(c, lo, hi, q);
    ComboOptionsAt(c, CombinationPaths(ps, lo, hi));
    assert Id(CombinationPool(ps, lo, hi)[k]) == ComboId(KeyFn(c)(CombinationPaths(ps, lo, hi)[k]));
  }

  /** The index of the reported path that carries the key of `q`. */
  lemma PathKeyReported(c: seq<Programme>, lo: real, hi: real, q: seq<nat>) returns (k: nat)
    requires SearchState(c, hi, 0, []) && ValidPath(c, lo, hi, q)
    ensures var paths := Fresh(KeyFn(c), {}, Enumerate(c, lo, hi, 0, []));
      k < |paths| && KeyFn(c)(paths[k]) == KeyFn(c)(q)
  {
    var all := Enumerate(c, lo, hi, 0, []);
    EnumerateComplete(c, lo, hi, 0, [], q);
    KeyInKeysOf(KeyFn(c), all, q);
    FreshKeys(KeyFn(c), {}, all);
    var paths := Fresh(KeyFn(c), {}, all);
    KeysOfHasWitness(KeyFn(c), paths, KeyFn(c)(q));
    k :| 0 <= k < |paths| && KeyFn(c)(paths[k]) == KeyFn(c)(q);
  }

  lemma {:induction false} KeyInKeysOf(keyOf: seq<nat> -> seq<string>, ps: seq<seq<nat>>, q: seq<nat>)
    requires q in ps
    ensures keyOf(q) in KeysOf(keyOf, ps)
  {
    if ps[0] != q { KeyInKeysOf(keyOf, ps[1..], q); }
  }

  lemma {:induction false} KeysOfHasWitness(keyOf: seq<nat> -> seq<string>, ps: seq<seq<nat>>, key: seq<string>)
    requires key in KeysOf(keyOf, ps)
    ensures exists k :: 0 <= k < |ps| && keyOf(ps[k]) == key
  {
    if keyOf(ps[0]) != key {
      KeysOfHasWitness(keyOf, ps[1..], key);
      var k :| 0 <= k < |ps[1..]| && keyOf(ps[1..][k]) == key;
      assert keyOf(ps[k + 1]) == key;
    }
  }

  /** `path` itself when the search reports it: two or three members whose cost is in the window. */
  ghost function Here(c: seq<Programme>, lo: real, hi: real, path: seq<nat>): (r: seq<seq<nat>>)
    requires forall k :: 0 <= k < |path| ==> path[k] < |c|
    ensures AllInBounds(c, r)
  {
    if 2 <= |path| <= MaxProgrammesInCombination && lo <= PathCost(c, path) <= hi then [path] else []
  }

  /** What the search visits from `path`: `path` itself, then its branches when it has room. */
  lemma EnumerateSplit(c: seq<Programme>, lo: real, hi: real, start: nat, path: seq<nat>)
    requires Frontier(c, start, path)
    ensures |path| < MaxProgrammesInCombination ==>
      Enumerate(c, lo, hi, start, path) == Here(c, lo, hi, path) + Branches(c, lo, hi, start, |c|, path)
    ensures |path| >= MaxProgrammesInCombination ==>
      Enumerate(c, lo, hi, start, path) == Here(c, lo, hi, path)
  {
  }

  /** The branches up to `i + 1` are those up to `i` followed by what the candidate at `i` contributes. */
  lemma BranchesStep(c: seq<Programme>, lo: real, hi: real, start: nat, i: nat, path: seq<nat>)
    requires Frontier(c, start, path) && start <= i < |c| && |path| < MaxProgrammesInCombination
    ensures Frontier(c, i + 1, path + [i])
    ensures PathCost(c, path) + c[i].cost <= hi ==>
      Branches(c, lo, hi, start, i + 1, path) == Branches(c, lo, hi, start, i, path) + Enumerate(c, lo, hi, i + 1, path + [i])
    ensures PathCost(c, path) + c[i].cost > hi ==>
      Branches(c, lo, hi, start, i + 1, path) == Branches(c, lo, hi, start, i, path)
  {
  }

  /**
   * `found1`/`options1` are `found0`/`options0` after the search has looked
   * at the paths `ps`, in order: every key has been added, and one
   * combination appended per path whose key was new.
   */
  ghost predicate Recorded(keyOf: seq<nat> -> seq<string>, optionOf: seq<nat> -> MatchupOption, ps: seq<seq<nat>>,
                           found0: set<seq<string>>, options0: seq<MatchupOption>,
                           found1: set<seq<string>>, options1: seq<MatchupOption>)
  {
    found1 == found0 + KeysOf(keyOf, ps) &&
    options1 == options0 + Map(optionOf, Fresh(keyOf, found0, ps))
  }

  /** Looking at `a` and then at `b` records what looking at `a + b` does. */
  lemma RecordedAppend(keyOf: seq<nat> -> seq<string>, optionOf: seq<nat> -> MatchupOption, a: seq<seq<nat>>, b: seq<seq<nat>>,
                       f0: set<seq<string>>, o0: seq<MatchupOption>,
                       f1: set<seq<string>>, o1: seq<MatchupOption>,
                       f2: set<seq<string>>, o2: seq<MatchupOption>)
    requires Recorded(keyOf, optionOf, a, f0, o0, f1, o1) && Recorded(keyOf, optionOf, b, f1, o1, f2, o2)
    ensures Recorded(keyOf, optionOf, a + b, f0, o0, f2, o2)
  {
    KeysOfAppend(keyOf, a, b);
    FreshAppend(keyOf, f0, a, b);
    MapAppend(optionOf, Fresh(keyOf, f0, a), Fresh(keyOf, f1, b));
  }

  /**
   * `keyOf` and `optionOf` give the key and the combination of every path
   * inside `c`. Its trigger keeps the search's own proofs from unfolding keys.
   */
  ghost predicate KeyedBy(c: seq<Programme>, keyOf: seq<nat> -> seq<string>, optionOf: seq<nat> -> MatchupOption)
  {
    forall q {:trigger Key(c, q)} :: (forall k :: 0 <= k < |q| ==> q[k] < |c|) ==>
      keyOf(q) == Key(c, q) && optionOf(q) == ComboOption(c, q)
  }

  /**
   * Records the current member list when it is a combination in the window
   * whose key is new: `found` gains its sorted id list and `options` the
   * combination.
   */
  method RecordCurrent(c: seq<Programme>, lo: real, hi: real,
                       ghost keyOf: seq<nat> -> seq<string>, ghost optionOf: seq<nat> -> MatchupOption, ghost path: seq<nat>,
                       members: seq<Programme>, currentSum: real,
                       found: set<seq<string>>, options: seq<MatchupOption>)
    returns (found': set<seq<string>>, options': seq<MatchupOption>)
    requires KeyedBy(c, keyOf, optionOf) && forall k :: 0 <= k < |path| ==> path[k] < |c|
    requires members == Members(c, path) && currentSum == PathCost(c, path)
    ensures Recorded(keyOf, optionOf, Here(c, lo, hi, path), found, options, found', options')
  {
    found', options' := found, options;
    if 2 <= |members| && |members| <= MaxProgrammesInCombination && currentSum >= lo && currentSum <= hi {
      var combinationId := SortBy(IdsOf(members), Self);
      assert combinationId == Key(c, path) == keyOf(path);
      if combinationId !in found {
        found' := found + {combinationId};
        options' := options + [Combination(combinationId, members, currentSum)];
      }
    }
  }

  /**
   * `findValidCombinationsRecursive`: records the current member list when
   * it is a combination in the window whose key is new, then, while there is
   * room, extends it by each later candidate that keeps the sum within the
   * window's upper edge and searches on from there. `path` is the
   * candidates' indices of the current members; the member list is passed
   * by value, so the source's push and pop around the recursive call become
   * passing `members + [nextProgramme]`. The search then has looked at every
   * path `Enumerate` lists from here, in order.
   */
  method FindValidCombinationsRecursive(c: seq<Programme>, lo: real, hi: real,
                                        ghost keyOf: seq<nat> -> seq<string>, ghost optionOf: seq<nat> -> MatchupOption,
                                        startIndex: nat, ghost path: seq<nat>, members: seq<Programme>, currentSum: real,
                                        found: set<seq<string>>, options: seq<MatchupOption>)
    returns (found': set<seq<string>>, options': seq<MatchupOption>)
    requires KeyedBy(c, keyOf, optionOf) && Frontier(c, startIndex, path)
    requires members == Members(c, path) && currentSum == PathCost(c, path)
    ensures Recorded(keyOf, optionOf, Enumerate(c, lo, hi, startIndex, path), found, options, found', options')
    decreases MaxProgrammesInCombination - |path|, 2
  {
    var found1, options1 := RecordCurrent(c, lo, hi, keyOf, optionOf, path, members, currentSum, found, options);
    EnumerateSplit(c, lo, hi, startIndex, path);
    if |members| < MaxProgrammesInCombination {
      found', options' := TryCandidates(c, lo, hi, keyOf, optionOf, startIndex, path, members, currentSum, found1, options1);
      RecordedAppend(keyOf, optionOf, Here(c, lo, hi, path), Branches(c, lo, hi, startIndex, |c|, path),
                     found, options, found1, options1, found', options');
    } else {
      found', options' := found1, options1;
    }
  }

  /** The loop of `findValidCombinationsRecursive`: tries each candidate from `startIndex` on, in order. */
  method TryCandidates(c: seq<Programme>, lo: real, hi: real,
                       ghost keyOf: seq<nat> -> seq<string>, ghost optionOf: seq<nat> -> MatchupOption,
                       startIndex: nat, ghost path: seq<nat>, members: seq<Programme>, currentSum: real,
                       found: set<seq<string>>, options: seq<MatchupOption>)
    returns (found': set<seq<string>>, options': seq<MatchupOption>)
    requires KeyedBy(c, keyOf, optionOf) && Frontier(c, startIndex, path) && |path| < MaxProgrammesInCombination
    requires members == Members(c, path) && currentSum == PathCost(c, path)
    ensures Recorded(keyOf, optionOf, Branches(c, lo, hi, startIndex, |c|, path), found, options, found', options')
    decreases MaxProgrammesInCombination - |path|, 1
  {
    found', options' := found, options;
    for i := startIndex to |c|
      invariant Recorded(keyOf, optionOf, Branches(c, lo, hi, startIndex, i, path), found, options, found', options')
    {
      found', options' := TryCandidate(c, lo, hi, keyOf, optionOf, startIndex, i, path, members, currentSum,
                                       found, options, found', options');
    }
  }

  /** What one turn of the loop records, given what the recursive search from `path + [i]` recorded. */
  lemma CandidateRecorded(c: seq<Programme>, lo: real, hi: real,
                          keyOf: seq<nat> -> seq<string>, optionOf: seq<nat> -> MatchupOption,
                          start: nat, i: nat, path: seq<nat>,
                          f0: set<seq<string>>, o0: seq<MatchupOption>,
                          f1: set<seq<string>>, o1: seq<MatchupOption>,
                          f2: set<seq<string>>, o2: seq<MatchupOption>)
    requires Frontier(c, start, path) && start <= i < |c| && |path| < MaxProgrammesInCombination
    requires Recorded(keyOf, optionOf, Branches(c, lo, hi, start, i, path), f0, o0, f1, o1)
    requires PathCost(c, path) + c[i].cost <= hi ==>
      Recorded(keyOf, optionOf, Enumerate(c, lo, hi, i + 1, path + [i]), f1, o1, f2, o2)
    requires PathCost(c, path) + c[i].cost > hi ==> f2 == f1 && o2 == o1
    ensures Recorded(keyOf, optionOf, Branches(c, lo, hi, start, i + 1, path), f0, o0, f2, o2)
  {
    BranchesStep(c, lo, hi, start, i, path);
    if PathCost(c, path) + c[i].cost <= hi {
      RecordedAppend(keyOf, optionOf, Branches(c, lo, hi, start, i, path), Enumerate(c, lo, hi, i + 1, path + [i]),
                     f0, o0, f1, o1, f2, o2);
    }
  }

  /** One turn of the loop: search on from the candidate at `i` when it keeps the sum within the window's upper edge. */
  method TryCandidate(c: seq<Programme>, lo: real, hi: real,
                      ghost keyOf: seq<nat> -> seq<string>, ghost optionOf: seq<nat> -> MatchupOption,
                      startIndex: nat, i: nat, ghost path: seq<nat>, members: seq<Programme>, currentSum: real,
                      ghost found0: set<seq<string>>, ghost options0: seq<MatchupOption>,
                      found: set<seq<string>>, options: seq<MatchupOption>)
    returns (found': set<seq<string>>, options': seq<MatchupOption>)
    requires KeyedBy(c, keyOf, optionOf) && Frontier(c, startIndex, path)
    requires startIndex <= i < |c| && |path| < MaxProgrammesInCombination
    requires members == Members(c, path) && currentSum == PathCost(c, path)
    requires Recorded(keyOf, optionOf, Branches(c, lo, hi, startIndex, i, path), found0, options0, found, options)
    ensures Recorded(keyOf, optionOf, Branches(c, lo, hi, startIndex, i + 1, path), found0, options0, found', options')
    decreases MaxProgrammesInCombination - |path|, 0
  {
    found', options' := found, options;
    var nextProgramme := c[i];
    if currentSum + nextProgramme.cost <= hi {
      BranchesStep(c, lo, hi, startIndex, i, path);
      MembersSnoc(c, path, i);
      PathCostSnoc(c, path, i);
      found', options' := FindValidCombinationsRecursive(c, lo, hi, keyOf, optionOf, i + 1, path + [i],
                                                         members + [nextProgramme], currentSum + nextProgramme.cost,
                                                         found, options);
    }
    CandidateRecorded(c, lo, hi, keyOf, optionOf, startIndex, i, path, found0, options0, found, options, found', options');
  }

  /**
   * The search as `generateBudgetedMatchupOptions` starts it: from the empty
   * member list over the candidates of `programmes`. It yields exactly the
   * pool `CombinationPool` describes.
   */
  method FindValidCombinations(programmes: seq<Programme>, minBudgetWindow: real, maxBudgetWindow: real)
    returns (combinations: seq<MatchupOption>)
    ensures combinations == CombinationPool(programmes, minBudgetWindow, maxBudgetWindow)
  {
    var candidates := Candidates(programmes, maxBudgetWindow);
    assert KeyedBy(candidates, KeyFn(candidates), OptionFn(candidates));
    var found;
    found, combinations := FindValidCombinationsRecursive(candidates, minBudgetWindow, maxBudgetWindow,
                                                          KeyFn(candidates), OptionFn(candidates), 0, [], [], 0.0, {}, []);
  }
}
