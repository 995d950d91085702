/**
 * `ProgrammesProvider`: the state of one voting session (the catalog with
 * its ratings, the number of votes cast, the keys of the pairs already
 * voted on, the budget if one is set, and the last error) and the
 * operations the screens call on it.
 */
module Session {
  import opened Wrappers
  import opened Programmes
  import opened Seqs
  import opened RandomSource
  import opened Pairing
  import opened Matchups
  import opened Votes
  import Elo

  class ProgrammesSession {
    /** `initialProgrammesData`: the catalog the session starts from and is reset to. */
    const initialProgrammesData: seq<Programme>
    /** The expected-score curve of the Elo rule. */
    const expected: Elo.ExpectedScore

    var programmes: seq<Programme>
    var voteCount: nat
    var usedPairs: set<string>
    var currentBudget: Option<real>
    var error: Option<string>

    /** A fresh session: the catalog with missing ratings set to 1500, no votes, no used pairs, no budget. */
    constructor(initialProgrammesData: seq<Programme>, expected: Elo.ExpectedScore)
      ensures this.initialProgrammesData == initialProgrammesData && this.expected == expected
      ensures programmes == WithDefaultRatings(initialProgrammesData)
      ensures voteCount == 0 && usedPairs == {} && currentBudget.None? && error.None?
    {
      this.initialProgrammesData := initialProgrammesData;
      this.expected := expected;
      programmes := WithDefaultRatings(initialProgrammesData);
      voteCount := 0;
      usedPairs := {};
      currentBudget := None;
      error := None;
    }

    /** `internalUpdateProgrammeRating`: every programme with this id takes the new rating. */
    method InternalUpdateProgrammeRating(id: string, newRating: real)
      modifies this
      ensures programmes == SetRating(old(programmes), id, newRating)
      ensures voteCount == old(voteCount) && usedPairs == old(usedPairs)
      ensures currentBudget == old(currentBudget) && error == old(error)
    {
      programmes := SetRating(programmes, id, newRating);
    }

    /** `resetRatingsAndData`: back to the catalog's ratings, with no votes, no used pairs, no budget and no error. */
    method ResetRatingsAndData()
      modifies this
      ensures programmes == WithDefaultRatings(initialProgrammesData)
      ensures voteCount == 0 && usedPairs == {} && currentBudget.None? && error.None?
    {
      programmes := WithDefaultRatings(initialProgrammesData);
      voteCount := 0;
      usedPairs := {};
      currentBudget := None;
      error := None;
    }

    /** `setBudget`: sets or clears the budget and nothing else; the used pairs are kept. */
    method SetBudget(budget: Option<real>)
      modifies this
      ensures currentBudget == budget
      ensures programmes == old(programmes) && voteCount == old(voteCount)
      ensures usedPairs == old(usedPairs) && error == old(error)
    {
      currentBudget := budget;
    }

    /** `addUsedPairToSet`: records the pair's key, but only when no budget is set. */
    method AddUsedPairToSet(programmeId1: string, programmeId2: string)
      modifies this
      ensures usedPairs == if old(currentBudget).None? then old(usedPairs) + {PairKey(programmeId1, programmeId2)} else old(usedPairs)
      ensures programmes == old(programmes) && voteCount == old(voteCount)
      ensures currentBudget == old(currentBudget) && error == old(error)
    {
      if currentBudget.None? {
        var pairKey := PairKey(programmeId1, programmeId2);
        usedPairs := usedPairs + {pairKey};
      }
    }

    /**
     * `getRandomPair`: with a budget, two different programmes costing at
     * most the budget; without one, a pair not voted on yet.
     */
    method GetRandomPair(stream: RandomStream, k: nat) returns (r: Option<(Programme, Programme)>, k': nat)
      ensures currentBudget.None? ==>
        var avail := AvailablePairs(programmes, usedPairs, |programmes|);
        r == if |programmes| < 2 || avail == [] then None else Some(avail[Pick(stream(k), |avail|)])
      ensures currentBudget.Some? ==>
        var eligible := Filter(programmes, CostAtMost(currentBudget.value));
        && (r.None? <==> |eligible| < 2 || RetriesExhausted(stream, k, |eligible|))
        && (r.Some? ==> exists i, j :: 0 <= i < |eligible| && 0 <= j < |eligible| && i != j &&
                          r.value == (eligible[i], eligible[j]))
      ensures k' >= k
    {
      if currentBudget.Some? {
        r, k' := BudgetPair(programmes, currentBudget.value, stream, k);
      } else {
        r, k' := UnconstrainedPair(programmes, usedPairs, stream, k);
      }
    }

    /** `generateBudgetedMatchupOptions` on the session's catalog and budget. */
    method GenerateBudgetedMatchupOptions(stream: RandomStream, k: nat)
      returns (r: Option<(MatchupOption, MatchupOption)>, k': nat)
      ensures r.None? <==> currentBudget.None? || NoMatchup(programmes, currentBudget.value, stream, k)
      ensures r.Some? ==>
        && Id(r.value.0) != Id(r.value.1)
        && InPools(r.value.0, programmes, currentBudget.value)
        && InPools(r.value.1, programmes, currentBudget.value)
      ensures r.Some? && (SinglesPool(programmes, currentBudget.value) != [] || SharesPool(programmes, currentBudget.value) != []) ==>
        || r.value.0 in SinglesPool(programmes, currentBudget.value) || r.value.0 in SharesPool(programmes, currentBudget.value)
        || r.value.1 in SinglesPool(programmes, currentBudget.value) || r.value.1 in SharesPool(programmes, currentBudget.value)
      ensures k' >= k
    {
      r, k' := Matchups.GenerateBudgetedMatchupOptions(programmes, currentBudget, stream, k);
    }

    /**
     * The rating writes of one side of a vote, made one at a time:
     * `delta` is `pointsGained` for the winner and `-pointsLost` for the
     * loser, so the loser's `prog.rating - pointsLost * share` is written
     * here as `prog.rating + (-pointsLost) * share`.
     */
    method ApplySide(option: Option<MatchupOption>, prog: Option<Programme>, newRating: int, delta: real)
      requires Attributable(option)
      modifies this
      ensures programmes == ApplyWrites(old(programmes), SideWrites(option, prog, newRating, delta))
      ensures voteCount == old(voteCount) && usedPairs == old(usedPairs)
      ensures currentBudget == old(currentBudget) && error == old(error)
    {
      ghost var start := programmes;
      ghost var ws := SideWrites(option, prog, newRating, delta);
      if option.Some? && IsProgrammeCombination(option.value) {
        var constituents := option.value.constituentProgrammes;
        var totalCost := option.value.totalCost;
        for i := 0 to |constituents|
          invariant programmes == ApplyWrites(start, ws[..i])
          invariant voteCount == old(voteCount) && usedPairs == old(usedPairs)
          invariant currentBudget == old(currentBudget) && error == old(error)
        {
          var p := constituents[i];
          var change := Portion(delta, p.cost, totalCost);
          InternalUpdateProgrammeRating(p.id, p.rating + change);
          assert ws[..i + 1][..i] == ws[..i];
        }
        assert ws[..|constituents|] == ws;
      } else if option.Some? && IsProgrammeShareOption(option.value) {
        var base := option.value.baseProgramme;
        InternalUpdateProgrammeRating(base.id, base.rating + delta);
        assert ws[..0] == [];
      } else if prog.Some? {
        InternalUpdateProgrammeRating(prog.value.id, newRating as real);
        assert ws[..0] == [];
      }
    }

    /**
     * The rating changes of an accepted vote: the Elo update of the two
     * sides' ratings, then the winner's writes and the loser's.
     */
    method ApplyEloUpdate(winnerOption: Option<MatchupOption>, loserOption: Option<MatchupOption>,
                          winnerProg: Option<Programme>, loserProg: Option<Programme>,
                          ratingForWinnerCalc: real, ratingForLoserCalc: real)
      requires Attributable(winnerOption) && Attributable(loserOption)
      modifies this
      ensures var u := Elo.UpdateElo(expected, ratingForWinnerCalc, ratingForLoserCalc);
        programmes == ApplyWrites(old(programmes),
          SideWrites(winnerOption, winnerProg, u.newWinnerRating, PointsGained(u, ratingForWinnerCalc)) +
          SideWrites(loserOption, loserProg, u.newLoserRating, LoserDelta(u, ratingForLoserCalc)))
      ensures voteCount == old(voteCount) && usedPairs == old(usedPairs)
      ensures currentBudget == old(currentBudget) && error == old(error)
    {
      var u := Elo.UpdateElo(expected, ratingForWinnerCalc, ratingForLoserCalc);
      var pointsGained := PointsGained(u, ratingForWinnerCalc);
      var lossDelta := LoserDelta(u, ratingForLoserCalc);

      ghost var start := programmes;
      ApplySide(winnerOption, winnerProg, u.newWinnerRating, pointsGained);
      ApplySide(loserOption, loserProg, u.newLoserRating, lossDelta);
      ApplyWritesAppend(start, SideWrites(winnerOption, winnerProg, u.newWinnerRating, pointsGained),
                        SideWrites(loserOption, loserProg, u.newLoserRating, lossDelta));
    }

    /**
     * `handleVoteAndUpdateElo`: when either side has no rating, records the
     * error and changes nothing else. Otherwise applies the Elo update to the
     * two sides' ratings, writes the winner's and then the loser's points
     * back, records the pair as used when no budget is set and both sides
     * are catalog programmes found by id, and counts the vote.
     */
    method HandleVoteAndUpdateElo(winnerId: string, loserId: string,
                                  winnerOption: Option<MatchupOption>, loserOption: Option<MatchupOption>)
      requires Attributable(winnerOption) && Attributable(loserOption)
      modifies this
      ensures var result := VoteWrites(expected, old(programmes), winnerId, loserId, winnerOption, loserOption);
        && (result.Rejected? ==>
              && error == Some(result.message)
              && programmes == old(programmes) && voteCount == old(voteCount) && usedPairs == old(usedPairs))
        && (result.Accepted? ==>
              && programmes == ApplyWrites(old(programmes), result.writes)
              && voteCount == old(voteCount) + 1
              && error == old(error))
      ensures var winnerProg := FindFirst(old(programmes), HasId(winnerId));
        var loserProg := FindFirst(old(programmes), HasId(loserId));
        VoteWrites(expected, old(programmes), winnerId, loserId, winnerOption, loserOption).Accepted? ==>
          usedPairs == if old(currentBudget).None? && winnerProg.Some? && loserProg.Some?
                       then old(usedPairs) + {PairKey(winnerProg.value.id, loserProg.value.id)}
                       else old(usedPairs)
      ensures currentBudget == old(currentBudget)
    {
      var winnerProg := FindFirst(programmes, HasId(winnerId));
      var loserProg := FindFirst(programmes, HasId(loserId));

      var ratingForWinnerCalc := RatingForCalc(programmes, winnerId, winnerOption);
      if ratingForWinnerCalc.None? {
        error := Some(WinnerMissing);
        return;
      }
      var ratingForLoserCalc := RatingForCalc(programmes, loserId, loserOption);
      if ratingForLoserCalc.None? {
        error := Some(LoserMissing);
        return;
      }

      ApplyEloUpdate(winnerOption, loserOption, winnerProg, loserProg, ratingForWinnerCalc.value, ratingForLoserCalc.value);
      if currentBudget.None? && winnerProg.Some? && loserProg.Some? {
        AddUsedPairToSet(winnerProg.value.id, loserProg.value.id);
      }
      voteCount := voteCount + 1;
    }
  }
}
