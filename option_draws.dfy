/**
 * The two random draws budget mode makes from its option pools: one option
 * from several pools weighted by kind, and two distinct options from one pool.
 */
module OptionDraws {
  import opened Wrappers
  import opened Programmes
  import opened Seqs
  import opened RandomSource

  /** `OptionTypeConfig`: a kind of option, its weight and the options of that kind. */
  datatype TypeConfig = TypeConfig(typeName: string, weight: real, pool: seq<MatchupOption>)

  function HasOptions(): TypeConfig -> bool
  {
    (c: TypeConfig) => |c.pool| > 0
  }

  /** `availableTypes`: the kinds with at least one option, in order. */
  function AvailableTypes(configs: seq<TypeConfig>): (avail: seq<TypeConfig>)
    ensures forall c :: c in avail <==> c in configs && |c.pool| > 0
  {
    Filter(configs, HasOptions())
  }

  /** `totalWeight`: the summed weight of some kinds. */
  function TotalWeight(cs: seq<TypeConfig>): real
  {
    if cs == [] then 0.0 else cs[0].weight + TotalWeight(cs[1..])
  }

  /**
   * The kind the weighted walk stops at for a roll of `roll`: the first whose
   * weight exceeds what is left of the roll after the weights before it are
   * taken off, or the last kind when none does.
   */
  function Walk(cs: seq<TypeConfig>, roll: real): (t: nat)
    requires cs != []
    ensures t < |cs|
  {
    if |cs| == 1 || roll < cs[0].weight then 0 else 1 + Walk(cs[1..], roll - cs[0].weight)
  }

  /** `Math.random() * totalWeight`: the roll the weighted walk starts from. */
  function Roll(u: Unit, totalWeight: real): real
  {
    u * totalWeight
  }

  /** The kind a first draw of `u` picks: uniformly when the weights add up to zero, by the weighted walk otherwise. */
  function ChosenKind(avail: seq<TypeConfig>, u: Unit): (t: nat)
    requires avail != []
    ensures t < |avail|
  {
    var total := TotalWeight(avail);
    if total == 0.0 then Pick(u, |avail|) else Walk(avail, Roll(u, total))
  }

  /**
   * What `selectRandomOptionFromWeightedTypes` returns for the draws
   * `stream(k)` and `stream(k + 1)`: nothing when no kind has options;
   * otherwise the first draw picks a kind (uniformly when the weights add up
   * to zero, by the weighted walk otherwise) and the second an option of it.
   * So it gives nothing exactly when every pool is empty, and otherwise an
   * option of one of the pools.
   */
  function WeightedPick(configs: seq<TypeConfig>, stream: RandomStream, k: nat): (r: Option<MatchupOption>)
    ensures r.None? <==> forall c :: c in configs ==> c.pool == []
    ensures r.Some? ==> exists c :: c in configs && r.value in c.pool
  {
    var avail := AvailableTypes(configs);
    if avail == [] then
      assert forall c :: c in configs ==> c.pool == [] by {
        forall c | c in configs ensures c.pool == [] {
          assert c !in avail;
        }
      }
      None
    else
      assert avail[0] in configs;
      var t := ChosenKind(avail, stream(k));
      assert avail[t] in avail;
      Some(avail[t].pool[Pick(stream(k + 1), |avail[t].pool|)])
  }

  /** The walk over `cs` that has passed its first kind goes on over the rest. */
  lemma WalkStep(cs: seq<TypeConfig>, i: nat, roll: real)
    requires i + 1 < |cs| && roll >= cs[i].weight
    ensures Walk(cs[i..], roll) == 1 + Walk(cs[i + 1..], roll - cs[i].weight)
  {
    assert cs[i..][1..] == cs[i + 1..];
  }

  /**
   * `selectRandomOptionFromWeightedTypes`: rolls a number below the total
   * weight and walks the kinds with options, taking each one's weight off
   * the roll until the roll falls below a weight; then draws an option of
   * that kind. It makes two draws when some pool has options.
   */
  method SelectRandomOptionFromWeightedTypes(typeConfigs: seq<TypeConfig>, stream: RandomStream, k: nat)
    returns (r: Option<MatchupOption>, k': nat)
    ensures r == WeightedPick(typeConfigs, stream, k)
    ensures k' == if r.None? then k else k + 2
  {
    var availableTypes := AvailableTypes(typeConfigs);
    if |availableTypes| == 0 {
      return None, k;
    }
    var t := ChooseType(availableTypes, stream(k));
    var config := availableTypes[t];
    assert config in availableTypes;
    r, k' := Some(config.pool[Pick(stream(k + 1), |config.pool|)]), k + 2;
  }

  /**
   * The first draw of `selectRandomOptionFromWeightedTypes`: a uniformly
   * drawn kind when the weights add up to zero, otherwise the weighted walk
   * over a roll below the total weight. Computes what `ChosenKind`
   * specifies.
   */
  method ChooseType(availableTypes: seq<TypeConfig>, u: Unit) returns (t: nat)
    requires availableTypes != []
    ensures t == ChosenKind(availableTypes, u)
  {
    var totalWeight := TotalWeight(availableTypes);
    if totalWeight == 0.0 {
      return Pick(u, |availableTypes|);
    }
    t := WalkTypes(availableTypes, Roll(u, totalWeight));
  }

  /**
   * The loop of `selectRandomOptionFromWeightedTypes`: walks the kinds,
   * taking each one's weight off the roll, and stops at the first kind whose
   * weight exceeds what is left, or after the last kind. Computes what
   * `Walk` specifies.
   */
  method WalkTypes(availableTypes: seq<TypeConfig>, roll: real) returns (t: nat)
    requires availableTypes != []
    ensures t == Walk(availableTypes, roll)
  {
    var randomRoll := roll;
    for i := 0 to |availableTypes|
      invariant i < |availableTypes| ==> Walk(availableTypes, roll) == i + Walk(availableTypes[i..], randomRoll)
      invariant i == |availableTypes| ==> Walk(availableTypes, roll) == |availableTypes| - 1
    {
      if randomRoll < availableTypes[i].weight {
        return i;
      }
      if i + 1 < |availableTypes| {
        WalkStep(availableTypes, i, randomRoll);
      }
      randomRoll := randomRoll - availableTypes[i].weight;
    }
    t := |availableTypes| - 1;
  }

  /** No two options of the pool share an id. */
  ghost predicate DistinctIds(pool: seq<MatchupOption>)
  {
    forall i, j :: 0 <= i < j < |pool| ==> Id(pool[i]) != Id(pool[j])
  }

  /** Every option of the pool has the same id. */
  ghost predicate SameIds(pool: seq<MatchupOption>)
  {
    forall i, j :: 0 <= i < j < |pool| ==> Id(pool[i]) == Id(pool[j])
  }

  /** `pair` is the options at two different positions of `pool`, in either order. */
  ghost predicate TwoOf(pool: seq<MatchupOption>, pair: (MatchupOption, MatchupOption))
  {
    exists i, j :: 0 <= i < |pool| && 0 <= j < |pool| && i != j && pair == (pool[i], pool[j])
  }

  /**
   * The exhaustive scan of `getTwoDistinctOptions`: the first pair `i < j`
   * in the order of the two nested loops whose ids differ, if there is one.
   */
  method ScanForDistinctIds(pool: seq<MatchupOption>) returns (found: Option<(nat, nat)>)
    ensures found.None? <==> SameIds(pool)
    ensures found.Some? ==>
      found.value.0 < found.value.1 < |pool| && Id(pool[found.value.0]) != Id(pool[found.value.1])
  {
    for i := 0 to |pool|
      invariant forall i0, j0 :: 0 <= i0 < i && i0 < j0 < |pool| ==> Id(pool[i0]) == Id(pool[j0])
    {
      for j := i + 1 to |pool|
        invariant forall j0 :: i < j0 < j ==> Id(pool[i]) == Id(pool[j0])
      {
        if Id(pool[i]) != Id(pool[j]) {
          return Some((i, j));
        }
      }
    }
    return None;
  }

  /**
   * `getTwoDistinctOptions`: two options at different positions of the
   * pool. It draws two positions and redraws the second, at most
   * `n * n + 20` times, while they coincide; when they still coincide it
   * falls back to the first pair whose ids differ. A coin flip orders the
   * pair. There is nothing to give for a pool of fewer than two options, or
   * when the redraws ran out and every option has the same id.
   */
  method GetTwoDistinctOptions(pool: seq<MatchupOption>, stream: RandomStream, k: nat)
    returns (r: Option<(MatchupOption, MatchupOption)>, k': nat)
    ensures |pool| < 2 ==> r.None?
    ensures r.None? ==> |pool| < 2 || SameIds(pool)
    ensures r.Some? ==> TwoOf(pool, r.value)
    ensures k' >= k
  {
    var n := |pool|;
    if n < 2 {
      return None, k;
    }
    var optionAIndex: nat := Pick(stream(k), n);
    var optionBIndex: nat := Pick(stream(k + 1), n);
    k' := k + 2;
    var attempts := 0;
    var maxPairAttempts := n * n + 20;
    while optionAIndex == optionBIndex && attempts < maxPairAttempts
      invariant optionAIndex < n && optionBIndex < n && k' >= k
      decreases maxPairAttempts - attempts
    {
      optionBIndex := Pick(stream(k'), n);
      k' := k' + 1;
      attempts := attempts + 1;
    }
    var i: nat, j: nat := optionAIndex, optionBIndex;
    if optionAIndex == optionBIndex {
      var found := ScanForDistinctIds(pool);
      if found.None? {
        return None, k';
      }
      i, j := found.value.0, found.value.1;
    }
    var coin := stream(k');
    k' := k' + 1;
    r := if coin < 0.5 then Some((pool[i], pool[j])) else Some((pool[j], pool[i]));
  }

  /** From a pool without repeated ids, two options at different positions have different ids. */
  lemma TwoOfDistinct(pool: seq<MatchupOption>, pair: (MatchupOption, MatchupOption))
    requires DistinctIds(pool) && TwoOf(pool, pair)
    ensures Id(pair.0) != Id(pair.1)
  {
    var i, j :| 0 <= i < |pool| && 0 <= j < |pool| && i != j && pair == (pool[i], pool[j]);
    if i > j {
      assert Id(pool[j]) != Id(pool[i]);
    }
  }

  /** A pool of two or more options without repeated ids always yields a pair. */
  lemma DistinctPoolIsNotSame(pool: seq<MatchupOption>)
    requires DistinctIds(pool) && |pool| >= 2
    ensures !SameIds(pool)
  {
    assert Id(pool[0]) != Id(pool[1]);
  }
}
