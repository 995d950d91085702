/**
 * `generateBudgetedMatchupOptions`: the matchup of budget mode. It builds
 * the three option pools for the budget window, draws a first option among
 * singles and shares, then a second option with a different id among the
 * singles, shares and combinations left, and orders the two by a coin flip.
 */
module Matchups {
  import opened Wrappers
  import opened Programmes
  import opened Seqs
  import opened RandomSource
  import opened BudgetPools
  import opened Combinations
  import opened OptionDraws

  const MaxAttemptsForOption2: nat := 10

  /** The kinds the first option is drawn from: singles 65%, shares 35%. */
  function FirstConfigs(singles: seq<MatchupOption>, shares: seq<MatchupOption>): seq<TypeConfig>
  {
    [TypeConfig("single", 0.65, singles), TypeConfig("share", 0.35, shares)]
  }

  /** The kinds the second option is drawn from: singles 45%, shares 40%, combinations 25%. */
  function SecondConfigs(singles: seq<MatchupOption>, shares: seq<MatchupOption>, combos: seq<MatchupOption>): seq<TypeConfig>
  {
    [TypeConfig("single", 0.45, singles), TypeConfig("share", 0.40, shares), TypeConfig("combo", 0.25, combos)]
  }

  function DiffersFrom(option1: MatchupOption): MatchupOption -> bool
  {
    (o: MatchupOption) => Id(o) != Id(option1)
  }

  /** `candidateSingles`: the singles without the first option's id when that option is a plain programme. */
  function CandidateSingles(singles: seq<MatchupOption>, option1: MatchupOption): (cs: seq<MatchupOption>)
    ensures forall o :: o in cs <==> o in singles && (option1.Single? ==> Id(o) != Id(option1))
  {
    if !IsProgrammeShareOption(option1) && !IsProgrammeCombination(option1) then Filter(singles, DiffersFrom(option1))
    else singles
  }

  /** `candidateShares`: the shares without the first option's id when that option is a share. */
  function CandidateShares(shares: seq<MatchupOption>, option1: MatchupOption): (cs: seq<MatchupOption>)
    ensures forall o :: o in cs <==> o in shares && (option1.Share? ==> Id(o) != Id(option1))
  {
    if IsProgrammeShareOption(option1) then Filter(shares, DiffersFrom(option1)) else shares
  }

  /** The pools hold options of one kind each: plain programmes, shares, combinations. */
  ghost predicate TypedPools(singles: seq<MatchupOption>, shares: seq<MatchupOption>, combos: seq<MatchupOption>)
  {
    (forall o :: o in singles ==> o.Single?) &&
    (forall o :: o in shares ==> o.Share?) &&
    (forall o :: o in combos ==> o.Combination?)
  }

  /**
   * A second draw from the candidate pools never repeats the first option's
   * id when the first option is a single or a share: only its own kind can
   * share its id, and that pool has been filtered. Whatever it draws comes
   * from the three pools.
   */
  lemma SecondDrawDiffers(singles: seq<MatchupOption>, shares: seq<MatchupOption>, combos: seq<MatchupOption>,
                          option1: MatchupOption, stream: RandomStream, k: nat)
    requires TypedPools(singles, shares, combos) && !option1.Combination?
    ensures var configs := SecondConfigs(CandidateSingles(singles, option1), CandidateShares(shares, option1), combos);
      var o := WeightedPick(configs, stream, k);
      && (o.None? <==> CandidateSingles(singles, option1) == [] && CandidateShares(shares, option1) == [] && combos == [])
      && (o.Some? ==> Id(o.value) != Id(option1) && (o.value in singles || o.value in shares || o.value in combos))
  {
    var cs := CandidateSingles(singles, option1);
    var csh := CandidateShares(shares, option1);
    var configs := SecondConfigs(cs, csh, combos);
    SecondConfigsPools(cs, csh, combos);
    var o := WeightedPick(configs, stream, k);
    if o.Some? {
      CandidateDiffers(singles, shares, combos, option1, o.value);
    }
  }

  /** The kinds of the second draw have no options exactly when the three pools are empty, and hold only their options. */
  lemma SecondConfigsPools(singles: seq<MatchupOption>, shares: seq<MatchupOption>, combos: seq<MatchupOption>)
    ensures (forall c :: c in SecondConfigs(singles, shares, combos) ==> c.pool == []) <==> singles == [] && shares == [] && combos == []
    ensures forall c, o :: c in SecondConfigs(singles, shares, combos) && o in c.pool ==> o in singles || o in shares || o in combos
  {
    var configs := SecondConfigs(singles, shares, combos);
    assert configs[0] in configs && configs[1] in configs && configs[2] in configs;
  }

  /** An option of a candidate pool has another id than the first option, and comes from one of the three pools. */
  lemma CandidateDiffers(singles: seq<MatchupOption>, shares: seq<MatchupOption>, combos: seq<MatchupOption>,
                         option1: MatchupOption, o: MatchupOption)
    requires TypedPools(singles, shares, combos) && !option1.Combination?
    requires o in CandidateSingles(singles, option1) || o in CandidateShares(shares, option1) || o in combos
    ensures Id(o) != Id(option1) && (o in singles || o in shares || o in combos)
  {
    if o in CandidateSingles(singles, option1) {
      assert o in singles && o.Single?;
    } else if o in CandidateShares(shares, option1) {
      assert o in shares && o.Share?;
    } else {
      assert o.Combination?;
    }
  }

  /**
   * The loop that looks for the second option: up to ten weighted draws
   * from the candidate pools, keeping the first whose id differs from the
   * first option's. The search fails exactly when every candidate pool is
   * empty, and then it makes no draw.
   */
  method FindOption2(singles: seq<MatchupOption>, shares: seq<MatchupOption>, combos: seq<MatchupOption>,
                     option1: MatchupOption, stream: RandomStream, k: nat)
    returns (option2: Option<MatchupOption>, k': nat)
    requires TypedPools(singles, shares, combos) && !option1.Combination?
    ensures option2.None? <==>
      CandidateSingles(singles, option1) == [] && CandidateShares(shares, option1) == [] && combos == []
    ensures option2.Some? ==>
      Id(option2.value) != Id(option1) && (option2.value in singles || option2.value in shares || option2.value in combos)
    ensures k' == if option2.None? then k else k + 2
  {
    option2, k' := None, k;
    for attempt := 0 to MaxAttemptsForOption2
      invariant option2.None? && k' == k
      invariant attempt > 0 ==>
        CandidateSingles(singles, option1) == [] && CandidateShares(shares, option1) == [] && combos == []
    {
      var candidateSingles := singles;
      var candidateShares := shares;
      if IsProgrammeShareOption(option1) {
        candidateShares := Filter(shares, DiffersFrom(option1));
      } else if !IsProgrammeShareOption(option1) && !IsProgrammeCombination(option1) {
        candidateSingles := Filter(singles, DiffersFrom(option1));
      }
      var candidateCombos := combos;
      var opt2TypeConfigs := SecondConfigs(candidateSingles, candidateShares, candidateCombos);
      SecondDrawDiffers(singles, shares, combos, option1, stream, k');
      var tempOption2, k2 := SelectRandomOptionFromWeightedTypes(opt2TypeConfigs, stream, k');
      if tempOption2.Some? && Id(tempOption2.value) != Id(option1) {
        option2, k' := tempOption2, k2;
        break;
      }
    }
  }

  /**
   * What runs when no second option was found: a random combination for a
   * plain first option (found, then dropped, since the branch ends by
   * returning nothing), then two distinct combinations if neither has the
   * first option's id.
   */
  method Fallbacks(option1: MatchupOption, combos: seq<MatchupOption>, stream: RandomStream, k: nat)
    returns (r: Option<(MatchupOption, MatchupOption)>, k': nat)
    ensures combos == [] ==> r.None? && k' == k
    ensures r.Some? ==>
      TwoOf(combos, r.value) && Id(r.value.0) != Id(option1) && Id(r.value.1) != Id(option1)
    ensures k' >= k
  {
    k' := k;
    var option2: Option<MatchupOption> := None;
    if !IsProgrammeShareOption(option1) && !IsProgrammeCombination(option1) && |combos| > 0 {
      var comboForOption2 := combos[Pick(stream(k'), |combos|)];
      k' := k' + 1;
      if Id(comboForOption2) != Id(option1) {
        option2 := Some(comboForOption2);
      }
    }
    if option2.None? && !IsProgrammeCombination(option1) && |combos| >= 2 {
      var comboPair;
      comboPair, k' := GetTwoDistinctOptions(combos, stream, k');
      if comboPair.Some? && Id(comboPair.value.0) != Id(option1) && Id(comboPair.value.1) != Id(option1) {
        return comboPair, k';
      }
    }
    return None, k';
  }

  ghost function SinglesPool(programmes: seq<Programme>, budget: real): seq<MatchupOption>
  {
    SingleOptions(programmes, MinBudgetWindow(budget), MaxBudgetWindow(budget))
  }

  ghost function SharesPool(programmes: seq<Programme>, budget: real): seq<MatchupOption>
  {
    ShareOptions(programmes, budget, MaxBudgetWindow(budget))
  }

  ghost function CombosPool(programmes: seq<Programme>, budget: real): seq<MatchupOption>
  {
    CombinationPool(programmes, MinBudgetWindow(budget), MaxBudgetWindow(budget))
  }

  /** The option is one of the budget's singles, shares or combinations. */
  ghost predicate InPools(o: MatchupOption, programmes: seq<Programme>, budget: real)
  {
    o in SinglesPool(programmes, budget) || o in SharesPool(programmes, budget) || o in CombosPool(programmes, budget)
  }

  /**
   * When budget mode has no matchup to offer: with neither singles nor
   * shares, fewer than two combinations; otherwise no combination at all and
   * every single and share carrying the id of the first option drawn.
   */
  ghost predicate NoMatchup(programmes: seq<Programme>, budget: real, stream: RandomStream, k: nat)
  {
    var singles := SinglesPool(programmes, budget);
    var shares := SharesPool(programmes, budget);
    var combos := CombosPool(programmes, budget);
    if singles == [] && shares == [] then |combos| < 2
    else
      var option1 := WeightedPick(FirstConfigs(singles, shares), stream, k);
      combos == [] && option1.Some? && forall o :: o in singles + shares ==> Id(o) == Id(option1.value)
  }

  /** The three pools are typed, and no two combinations share an id. */
  lemma PoolsTyped(programmes: seq<Programme>, budget: real)
    ensures TypedPools(SinglesPool(programmes, budget), SharesPool(programmes, budget), CombosPool(programmes, budget))
    ensures DistinctIds(CombosPool(programmes, budget))
  {
    var lo, hi := MinBudgetWindow(budget), MaxBudgetWindow(budget);
    CombinationPoolInWindow(programmes, lo, hi);
    CombinationPoolDistinct(programmes, lo, hi);
    var combos := CombosPool(programmes, budget);
    forall o | o in combos ensures o.Combination? {
      var j :| 0 <= j < |combos| && combos[j] == o;
    }
  }

  /** The first draw gives an option of the singles or the shares, or nothing when both are empty. */
  lemma FirstDraw(singles: seq<MatchupOption>, shares: seq<MatchupOption>, stream: RandomStream, k: nat)
    ensures var option1 := WeightedPick(FirstConfigs(singles, shares), stream, k);
      && (option1.None? <==> singles == [] && shares == [])
      && (option1.Some? ==> option1.value in singles || option1.value in shares)
  {
    var configs := FirstConfigs(singles, shares);
    var option1 := WeightedPick(configs, stream, k);
    if option1.Some? {
      var c :| c in configs && option1.value in c.pool;
      assert c == configs[0] || c == configs[1];
    }
  }

  /**
   * For a first option drawn from typed singles and shares, the candidate
   * pools are both empty exactly when every single and share has its id.
   */
  lemma CandidatesExhausted(singles: seq<MatchupOption>, shares: seq<MatchupOption>, option1: MatchupOption)
    requires (forall o :: o in singles ==> o.Single?) && (forall o :: o in shares ==> o.Share?)
    requires option1 in singles || option1 in shares
    ensures CandidateSingles(singles, option1) == [] && CandidateShares(shares, option1) == [] <==>
      forall o :: o in singles + shares ==> Id(o) == Id(option1)
  {
    var cs := CandidateSingles(singles, option1);
    var csh := CandidateShares(shares, option1);
    if cs == [] && csh == [] {
      forall o | o in singles + shares ensures Id(o) == Id(option1) {
        if o in singles {
          assert option1.Single? ==> o !in cs;
        } else {
          assert option1.Share? ==> o !in csh;
        }
      }
    } else if cs != [] {
      assert cs[0] in cs;
    } else {
      assert csh[0] in csh;
    }
  }

  /**
   * `generateBudgetedMatchupOptions`: nothing without a budget. Otherwise
   * the pools for the window [95%, 105%] of the budget; a first option drawn
   * from singles and shares, or, when both are empty, two distinct
   * combinations; a second option with a different id; and a coin flip for
   * the order.
   */
  method GenerateBudgetedMatchupOptions(programmes: seq<Programme>, currentBudget: Option<real>,
                                        stream: RandomStream, k: nat)
    returns (r: Option<(MatchupOption, MatchupOption)>, k': nat)
    ensures r.None? <==> currentBudget.None? || NoMatchup(programmes, currentBudget.value, stream, k)
    ensures r.Some? ==>
      && Id(r.value.0) != Id(r.value.1)
      && InPools(r.value.0, programmes, currentBudget.value)
      && InPools(r.value.1, programmes, currentBudget.value)
    ensures r.Some? && (SinglesPool(programmes, currentBudget.value) != [] || SharesPool(programmes, currentBudget.value) != []) ==>
      || r.value.0 in SinglesPool(programmes, currentBudget.value) || r.value.0 in SharesPool(programmes, currentBudget.value)
      || r.value.1 in SinglesPool(programmes, currentBudget.value) || r.value.1 in SharesPool(programmes, currentBudget.value)
    ensures k' >= k
  {
    if currentBudget.None? {
      return None, k;
    }
    var budget := currentBudget.value;
    var minBudgetWindow := MinBudgetWindow(budget);
    var maxBudgetWindow := MaxBudgetWindow(budget);
    var singleOptionsInWindow := CollectSingleOptions(programmes, minBudgetWindow, maxBudgetWindow);
    var shareOptionsInWindow := CollectShareOptions(programmes, budget, maxBudgetWindow);
    var combinationOptionsInWindow := FindValidCombinations(programmes, minBudgetWindow, maxBudgetWindow);
    PoolsTyped(programmes, budget);
    FirstDraw(singleOptionsInWindow, shareOptionsInWindow, stream, k);

    var option1;
    option1, k' := SelectRandomOptionFromWeightedTypes(FirstConfigs(singleOptionsInWindow, shareOptionsInWindow), stream, k);
    if option1.None? {
      r, k' := CombinationsOnly(combinationOptionsInWindow, stream, k');
      return;
    }

    CandidatesExhausted(singleOptionsInWindow, shareOptionsInWindow, option1.value);
    var option2;
    option2, k' := FindOption2(singleOptionsInWindow, shareOptionsInWindow, combinationOptionsInWindow, option1.value, stream, k');
    if option2.None? {
      r, k' := Fallbacks(option1.value, combinationOptionsInWindow, stream, k');
      return;
    }

    var coin := stream(k');
    k' := k' + 1;
    r := if coin < 0.5 then Some((option1.value, option2.value)) else Some((option2.value, option1.value));
  }

  /**
   * The branch for a budget that buys no single and no share: two distinct
   * combinations when there are at least two, otherwise nothing.
   */
  method CombinationsOnly(combos: seq<MatchupOption>, stream: RandomStream, k: nat)
    returns (r: Option<(MatchupOption, MatchupOption)>, k': nat)
    requires DistinctIds(combos)
    ensures r.None? <==> |combos| < 2
    ensures r.Some? ==> TwoOf(combos, r.value) && Id(r.value.0) != Id(r.value.1)
    ensures k' >= k
  {
    if |combos| >= 2 {
      var comboPair;
      comboPair, k' := GetTwoDistinctOptions(combos, stream, k);
      DistinctPoolIsNotSame(combos);
      if comboPair.Some? {
        TwoOfDistinct(combos, comboPair.value);
        return comboPair, k';
      }
    }
    return None, k;
  }
}
