/**
 * What a vote does to the ratings. The rating each side enters the Elo
 * update with is the mean rating of a combination's members, the rating a
 * share carries for its base programme, or the rating of the catalog
 * programme with that id (or, failing that, of the first programme whose id
 * occurs inside the side's id). The points that side wins or loses are then
 * written back as a list of rating writes, applied one after another.
 */
module Votes {
  import opened Wrappers
  import opened Programmes
  import opened Seqs
  import Elo
  import Combinations

  /** `internalUpdateProgrammeRating(id, rating)`, as a value. */
  datatype RatingWrite = RatingWrite(id: string, rating: real)

  /** What `handleVoteAndUpdateElo` decides: the error it reports, or the rating writes it makes. */
  datatype VoteResult = Rejected(message: string) | Accepted(writes: seq<RatingWrite>)

  const WinnerMissing: string := "Could not process vote: Winner details missing."
  const LoserMissing: string := "Could not process vote: Loser details missing."

  /** `p.rating || 1500`: a rating of 0 counts as missing and becomes the default 1500. */
  function WithDefaultRating(p: Programme): (q: Programme)
    ensures q == p.(rating := q.rating)
    ensures q.rating != 0.0
    ensures p.rating == 0.0 ==> q.rating == 1500.0
    ensures p.rating != 0.0 ==> q.rating == p.rating
  {
    p.(rating := if p.rating == 0.0 then 1500.0 else p.rating)
  }

  function WithDefaultRatings(ps: seq<Programme>): (qs: seq<Programme>)
    ensures |qs| == |ps| && forall i :: 0 <= i < |ps| ==> qs[i] == WithDefaultRating(ps[i])
  {
    seq(|ps|, i requires 0 <= i < |ps| => WithDefaultRating(ps[i]))
  }

  /** `prev.map(prog => prog.id === id ? { ...prog, rating } : prog)`. */
  function SetRating(ps: seq<Programme>, id: string, rating: real): (qs: seq<Programme>)
    ensures |qs| == |ps|
    ensures forall i :: 0 <= i < |ps| ==> qs[i] == ps[i].(rating := qs[i].rating)
    ensures forall i :: 0 <= i < |ps| ==> qs[i].rating == if ps[i].id == id then rating else ps[i].rating
  {
    seq(|ps|, i requires 0 <= i < |ps| => if ps[i].id == id then ps[i].(rating := rating) else ps[i])
  }

  /** The writes applied in order, each to the result of the ones before. */
  function ApplyWrites(ps: seq<Programme>, ws: seq<RatingWrite>): (qs: seq<Programme>)
    ensures |qs| == |ps|
  {
    if ws == [] then ps
    else
      var w := ws[|ws| - 1];
      SetRating(ApplyWrites(ps, ws[..|ws| - 1]), w.id, w.rating)
  }

  /** The rating of the last write to `id`, if any. */
  function LastWrite(ws: seq<RatingWrite>, id: string): Option<real>
  {
    if ws == [] then None
    else if ws[|ws| - 1].id == id then Some(ws[|ws| - 1].rating)
    else LastWrite(ws[..|ws| - 1], id)
  }

  /**
   * After a list of writes, each programme keeps everything but its rating,
   * and its rating is the last one written to its id, or the one it had.
   */
  lemma {:induction false} ApplyWritesAt(ps: seq<Programme>, ws: seq<RatingWrite>, i: nat)
    requires i < |ps|
    ensures ApplyWrites(ps, ws)[i] == ps[i].(rating := LastWrite(ws, ps[i].id).GetOr(ps[i].rating))
  {
    if ws != [] {
      ApplyWritesAt(ps, ws[..|ws| - 1], i);
    }
  }

  /** Applying two lists of writes one after the other is applying their concatenation. */
  lemma {:induction false} ApplyWritesAppend(ps: seq<Programme>, a: seq<RatingWrite>, b: seq<RatingWrite>)
    ensures ApplyWrites(ApplyWrites(ps, a), b) == ApplyWrites(ps, a + b)
  {
    if b == [] {
      assert a + b == a;
    } else {
      ApplyWritesAppend(ps, a, b[..|b| - 1]);
      assert (a + b)[..|a + b| - 1] == a + b[..|b| - 1];
    }
  }

  /** Setting the rating of the same id twice keeps the second. */
  lemma SetRatingTwice(ps: seq<Programme>, id: string, r1: real, r2: real)
    ensures SetRating(SetRating(ps, id, r1), id, r2) == SetRating(ps, id, r2)
  {
  }

  /** `Array.prototype.find`: the first programme that satisfies `f`. */
  function FindFirst(ps: seq<Programme>, f: Programme -> bool): (r: Option<Programme>)
    ensures r.None? <==> forall p :: p in ps ==> !f(p)
    ensures r.Some? ==> r.value in ps && f(r.value)
  {
    if ps == [] then None
    else if f(ps[0]) then Some(ps[0])
    else
      assert forall p :: p in ps ==> p == ps[0] || p in ps[1..];
      FindFirst(ps[1..], f)
  }

  /** The programme found comes before every other programme that satisfies `f`. */
  lemma {:induction false} FindFirstIsFirst(ps: seq<Programme>, f: Programme -> bool, j: nat)
    requires j < |ps| && f(ps[j])
    ensures FindFirst(ps, f).Some?
    ensures exists i :: 0 <= i <= j && ps[i] == FindFirst(ps, f).value
  {
    if !f(ps[0]) {
      FindFirstIsFirst(ps[1..], f, j - 1);
      var i :| 0 <= i <= j - 1 && ps[1..][i] == FindFirst(ps[1..], f).value;
      assert ps[i + 1] == ps[1..][i];
    }
  }

  /** `s.includes(sub)`: `sub` occurs in `s` at some position. */
  function Contains(s: string, sub: string): bool
    decreases |s|
  {
    if |sub| > |s| then false
    else s[..|sub|] == sub || Contains(s[1..], sub)
  }

  /** `sub` occurs in `s` starting at position `i`. */
  ghost predicate OccursAt(s: string, sub: string, i: int)
  {
    0 <= i && i + |sub| <= |s| && s[i..i + |sub|] == sub
  }

  lemma {:induction false} ContainsIff(s: string, sub: string)
    ensures Contains(s, sub) <==> exists i :: OccursAt(s, sub, i)
    decreases |s|
  {
    if |sub| > |s| {
      assert forall i :: !OccursAt(s, sub, i);
    } else if s[..|sub|] == sub {
      assert OccursAt(s, sub, 0);
    } else {
      ContainsIff(s[1..], sub);
      if Contains(s[1..], sub) {
        var i :| OccursAt(s[1..], sub, i);
        assert s[1..][i..i + |sub|] == s[i + 1..i + 1 + |sub|];
        assert OccursAt(s, sub, i + 1);
      }
      if exists i :: OccursAt(s, sub, i) {
        var i :| OccursAt(s, sub, i);
        assert i != 0;
        assert s[1..][i - 1..i - 1 + |sub|] == s[i..i + |sub|];
        assert OccursAt(s[1..], sub, i - 1);
      }
    }
  }

  /** The catalog programme has exactly this id. */
  function HasId(id: string): Programme -> bool
  {
    (p: Programme) => p.id == id
  }

  /** The catalog programme's id occurs inside this id. */
  function IdWithin(id: string): Programme -> bool
  {
    (p: Programme) => Contains(id, p.id)
  }

  /** A combination the engine can split points over: it has members and a non-zero total cost. */
  predicate Attributable(option: Option<MatchupOption>)
  {
    option.Some? && option.value.Combination? ==>
      |option.value.constituentProgrammes| > 0 && option.value.totalCost != 0.0
  }

  function SumRatings(ms: seq<Programme>): real
  {
    if ms == [] then 0.0 else SumRatings(ms[..|ms| - 1]) + ms[|ms| - 1].rating
  }

  /**
   * `ratingForWinnerCalc` / `ratingForLoserCalc`: the mean rating of a
   * combination's members, the base rating a share carries, the rating of
   * the programme with the side's id, or that of the first programme whose
   * id occurs in the side's id; nothing if none applies.
   */
  function RatingForCalc(programmes: seq<Programme>, id: string, option: Option<MatchupOption>): (r: Option<real>)
    requires Attributable(option)
    ensures option.Some? && option.value.Share? ==> r == Some(option.value.baseProgramme.rating)
    ensures option.Some? && option.value.Combination? ==> r.Some?
  {
    if option.Some? && IsProgrammeCombination(option.value) then
      var ms := option.value.constituentProgrammes;
      Some(SumRatings(ms) / |ms| as real)
    else if option.Some? && IsProgrammeShareOption(option.value) then
      Some(option.value.baseProgramme.rating)
    else
      match FindFirst(programmes, HasId(id))
      case Some(p) => Some(p.rating)
      case None =>
        match FindFirst(programmes, IdWithin(id))
        case Some(p) => Some(p.rating)
        case None => None
  }

  /**
   * A plain side (or one given without an option) enters the update with
   * the rating of a catalog programme with its id when there is one, and in
   * any case with the rating of a catalog programme whose id occurs in its id.
   */
  lemma RatingForCalcPlain(programmes: seq<Programme>, id: string, option: Option<MatchupOption>)
    requires Attributable(option) && (option.None? || option.value.Single?)
    ensures (exists p :: p in programmes && p.id == id) ==>
      exists p :: p in programmes && p.id == id && RatingForCalc(programmes, id, option) == Some(p.rating)
    ensures RatingForCalc(programmes, id, option).Some? ==>
      exists p :: p in programmes && Contains(id, p.id) && RatingForCalc(programmes, id, option) == Some(p.rating)
  {
    var exact := FindFirst(programmes, HasId(id));
    if exact.Some? {
      var p := exact.value;
      assert id[..|p.id|] == p.id;
      assert Contains(id, p.id);
    } else {
      assert forall p :: p in programmes ==> p.id != id;
    }
  }

  /** The rating a combination enters the update with, its members' mean, lies between their lowest and highest rating. */
  lemma CombinationRatingWithin(programmes: seq<Programme>, id: string, option: Option<MatchupOption>, lo: real, hi: real)
    requires Attributable(option) && option.Some? && option.value.Combination?
    requires forall m :: m in option.value.constituentProgrammes ==> lo <= m.rating <= hi
    ensures lo <= RatingForCalc(programmes, id, option).value <= hi
  {
    var ms := option.value.constituentProgrammes;
    SumRatingsWithin(ms, lo, hi);
    DivideWithin(SumRatings(ms), |ms| as real, lo, hi);
  }

  lemma DivideWithin(sum: real, n: real, lo: real, hi: real)
    requires n > 0.0 && n * lo <= sum <= n * hi
    ensures lo <= sum / n <= hi
  {
  }

  /** Ratings between `lo` and `hi` add up to between `|ms|` times each. */
  lemma SumRatingsWithin(ms: seq<Programme>, lo: real, hi: real)
    requires forall m :: m in ms ==> lo <= m.rating <= hi
    ensures |ms| as real * lo <= SumRatings(ms) <= |ms| as real * hi
  {
    SumRatingsAtLeast(ms, lo);
    SumRatingsAtMost(ms, hi);
  }

  lemma {:induction false} SumRatingsAtLeast(ms: seq<Programme>, lo: real)
    requires forall m :: m in ms ==> lo <= m.rating
    ensures |ms| as real * lo <= SumRatings(ms)
  {
    if ms != [] {
      var init := ms[..|ms| - 1];
      assert forall m :: m in init ==> m in ms;
      assert ms[|ms| - 1] in ms;
      SumRatingsAtLeast(init, lo);
      StepAtLeast(|init| as real, lo, SumRatings(init), ms[|ms| - 1].rating);
      assert |ms| as real == |init| as real + 1.0;
    }
  }

  lemma {:induction false} SumRatingsAtMost(ms: seq<Programme>, hi: real)
    requires forall m :: m in ms ==> m.rating <= hi
    ensures SumRatings(ms) <= |ms| as real * hi
  {
    if ms != [] {
      var init := ms[..|ms| - 1];
      assert forall m :: m in init ==> m in ms;
      assert ms[|ms| - 1] in ms;
      SumRatingsAtMost(init, hi);
      StepAtMost(|init| as real, hi, SumRatings(init), ms[|ms| - 1].rating);
      assert |ms| as real == |init| as real + 1.0;
    }
  }

  /** One more rating of at least `lo` adds at least `lo` to the bound. */
  lemma StepAtLeast(n: real, lo: real, sum: real, x: real)
    requires n * lo <= sum && lo <= x
    ensures (n + 1.0) * lo <= sum + x
  {
    assert (n + 1.0) * lo == n * lo + lo;
  }

  /** One more rating of at most `hi` adds at most `hi` to the bound. */
  lemma StepAtMost(n: real, hi: real, sum: real, x: real)
    requires sum <= n * hi && x <= hi
    ensures sum + x <= (n + 1.0) * hi
  {
    assert (n + 1.0) * hi == n * hi + hi;
  }

  /**
   * A side has no rating exactly when it is given as a plain programme or
   * not at all, and no catalog id occurs in its id (an exact match is such
   * an occurrence).
   */
  lemma RatingForCalcNone(programmes: seq<Programme>, id: string, option: Option<MatchupOption>)
    requires Attributable(option)
    ensures RatingForCalc(programmes, id, option).None? <==>
      (option.None? || option.value.Single?) && forall p :: p in programmes ==> !Contains(id, p.id)
  {
    if option.None? || option.value.Single? {
      if FindFirst(programmes, HasId(id)).Some? {
        var p := FindFirst(programmes, HasId(id)).value;
        assert id[..|p.id|] == p.id;
        assert Contains(id, p.id);
      }
    }
  }

  /**
   * The writes for one side, whose points are `delta` (positive for the
   * winner, `newWinnerRating - ratingForWinnerCalc`; negative for the loser,
   * `newLoserRating - ratingForLoserCalc`, which is `-pointsLost`): each
   * member of a combination moves by its share of the cost times `delta`
   * from the rating the combination carries for it; a share's base
   * programme moves by `delta` from the rating the share carries; a catalog
   * programme found by its exact id gets the new Elo rating; otherwise
   * nothing is written.
   */
  function SideWrites(option: Option<MatchupOption>, prog: Option<Programme>, newRating: int, delta: real): (ws: seq<RatingWrite>)
    requires Attributable(option)
    ensures option.Some? && option.value.Combination? ==>
      var ms := option.value.constituentProgrammes;
      |ws| == |ms| &&
      forall i :: 0 <= i < |ms| ==> ws[i] == RatingWrite(ms[i].id, ms[i].rating + Portion(delta, ms[i].cost, option.value.totalCost))
    ensures option.Some? && option.value.Share? ==>
      ws == [RatingWrite(option.value.baseProgramme.id, option.value.baseProgramme.rating + delta)]
    ensures (option.None? || option.value.Single?) ==>
      ws == if prog.Some? then [RatingWrite(prog.value.id, newRating as real)] else []
  {
    if option.Some? && IsProgrammeCombination(option.value) then
      SplitWrites(option.value.constituentProgrammes, delta, option.value.totalCost)
    else if option.Some? && IsProgrammeShareOption(option.value) then
      [RatingWrite(option.value.baseProgramme.id, option.value.baseProgramme.rating + delta)]
    else if prog.Some? then
      [RatingWrite(prog.value.id, newRating as real)]
    else []
  }

  /**
   * The ids of the catalog programmes one side of a vote credits: a
   * combination's members, a share's base programme, or the programme found
   * by the side's exact id; none when the side is known only through a
   * catalog id occurring in its id.
   */
  function CreditedIds(option: Option<MatchupOption>, prog: Option<Programme>): set<string>
  {
    if option.Some? && IsProgrammeCombination(option.value) then
      set m | m in option.value.constituentProgrammes :: m.id
    else if option.Some? && IsProgrammeShareOption(option.value) then
      {option.value.baseProgramme.id}
    else if prog.Some? then
      {prog.value.id}
    else {}
  }

  /** A side writes to exactly the ids it credits. */
  lemma SideWritesCredit(option: Option<MatchupOption>, prog: Option<Programme>, newRating: int, delta: real)
    requires Attributable(option)
    ensures forall w :: w in SideWrites(option, prog, newRating, delta) ==> w.id in CreditedIds(option, prog)
    ensures forall id :: id in CreditedIds(option, prog) ==>
      exists w :: w in SideWrites(option, prog, newRating, delta) && w.id == id
  {
  }

  /** `pointsGained`: what the Elo update adds to the winner's rating. */
  function PointsGained(u: Elo.EloUpdate, ratingForWinnerCalc: real): real
  {
    u.newWinnerRating as real - ratingForWinnerCalc
  }

  /** `-pointsLost`: what the Elo update adds to the loser's rating (a negative number for a proper loss). */
  function LoserDelta(u: Elo.EloUpdate, ratingForLoserCalc: real): real
  {
    -(ratingForLoserCalc - u.newLoserRating as real)
  }

  /**
   * `handleVoteAndUpdateElo` as a decision: rejected when either side has
   * no rating (the winner is looked at first), otherwise the winner's writes
   * followed by the loser's.
   */
  function VoteWrites(expected: Elo.ExpectedScore, programmes: seq<Programme>, winnerId: string, loserId: string,
                      winnerOption: Option<MatchupOption>, loserOption: Option<MatchupOption>): (r: VoteResult)
    requires Attributable(winnerOption) && Attributable(loserOption)
    ensures r.Rejected? <==>
      RatingForCalc(programmes, winnerId, winnerOption).None? || RatingForCalc(programmes, loserId, loserOption).None?
    ensures r.Rejected? ==>
      r.message == if RatingForCalc(programmes, winnerId, winnerOption).None? then WinnerMissing else LoserMissing
    ensures r.Accepted? ==> forall w :: w in r.writes ==>
      w.id in CreditedIds(winnerOption, FindFirst(programmes, HasId(winnerId))) + CreditedIds(loserOption, FindFirst(programmes, HasId(loserId)))
  {
    var ratingForWinner := RatingForCalc(programmes, winnerId, winnerOption);
    var winnerProg := FindFirst(programmes, HasId(winnerId));
    var loserProg := FindFirst(programmes, HasId(loserId));
    var ratingForLoser := RatingForCalc(programmes, loserId, loserOption);
    if ratingForWinner.None? then Rejected(WinnerMissing)
    else if ratingForLoser.None? then Rejected(LoserMissing)
    else
      var u := Elo.UpdateElo(expected, ratingForWinner.value, ratingForLoser.value);
      SideWritesCredit(winnerOption, winnerProg, u.newWinnerRating, PointsGained(u, ratingForWinner.value));
      SideWritesCredit(loserOption, loserProg, u.newLoserRating, LoserDelta(u, ratingForLoser.value));
      Accepted(SideWrites(winnerOption, winnerProg, u.newWinnerRating, PointsGained(u, ratingForWinner.value)) +
               SideWrites(loserOption, loserProg, u.newLoserRating, LoserDelta(u, ratingForLoser.value)))
  }

  /** No write to `id` leaves `id` without a last write. */
  lemma {:induction false} LastWriteNone(ws: seq<RatingWrite>, id: string)
    requires forall w :: w in ws ==> w.id != id
    ensures LastWrite(ws, id).None?
  {
    if ws != [] {
      assert forall w :: w in ws[..|ws| - 1] ==> w in ws;
      assert ws[|ws| - 1] in ws;
      LastWriteNone(ws[..|ws| - 1], id);
    }
  }

  /**
   * A programme that neither side of an accepted vote credits keeps its
   * rating, and everything else about it.
   */
  lemma VoteLeavesOthers(expected: Elo.ExpectedScore, programmes: seq<Programme>, winnerId: string, loserId: string,
                         winnerOption: Option<MatchupOption>, loserOption: Option<MatchupOption>, i: nat)
    requires Attributable(winnerOption) && Attributable(loserOption) && i < |programmes|
    requires VoteWrites(expected, programmes, winnerId, loserId, winnerOption, loserOption).Accepted?
    requires programmes[i].id !in CreditedIds(winnerOption, FindFirst(programmes, HasId(winnerId)))
    requires programmes[i].id !in CreditedIds(loserOption, FindFirst(programmes, HasId(loserId)))
    ensures ApplyWrites(programmes, VoteWrites(expected, programmes, winnerId, loserId, winnerOption, loserOption).writes)[i]
      == programmes[i]
  {
    var ws := VoteWrites(expected, programmes, winnerId, loserId, winnerOption, loserOption).writes;
    ApplyWritesAt(programmes, ws, i);
    LastWriteNone(ws, programmes[i].id);
  }

  /** A vote only ever changes ratings: ids, names, costs and the order of the catalog stay. */
  lemma VoteKeepsCatalog(ps: seq<Programme>, ws: seq<RatingWrite>)
    ensures var qs := ApplyWrites(ps, ws);
      |qs| == |ps| && forall i :: 0 <= i < |ps| ==> qs[i] == ps[i].(rating := qs[i].rating)
  {
    forall i | 0 <= i < |ps| ensures ApplyWrites(ps, ws)[i] == ps[i].(rating := ApplyWrites(ps, ws)[i].rating) {
      ApplyWritesAt(ps, ws, i);
    }
  }

  /** What the writes add up to over the members they are for. */
  function TotalChange(ws: seq<RatingWrite>, ms: seq<Programme>): real
    requires |ws| == |ms|
  {
    if ws == [] then 0.0 else TotalChange(ws[..|ws| - 1], ms[..|ms| - 1]) + (ws[|ws| - 1].rating - ms[|ms| - 1].rating)
  }

  /** Each member moves by its share `cost / totalCost` of `delta`, from the rating it carries. */
  function SplitWrites(ms: seq<Programme>, delta: real, totalCost: real): (ws: seq<RatingWrite>)
    requires totalCost != 0.0
    ensures |ws| == |ms|
    ensures forall i :: 0 <= i < |ms| ==> ws[i] == RatingWrite(ms[i].id, ms[i].rating + Portion(delta, ms[i].cost, totalCost))
  {
    if ms == [] then []
    else
      var last := ms[|ms| - 1];
      SplitWrites(ms[..|ms| - 1], delta, totalCost) + [RatingWrite(last.id, last.rating + Portion(delta, last.cost, totalCost))]
  }

  /** `points * (prog.cost_mvr / totalCost)`: a member's part of the points, by cost. */
  function Portion(points: real, cost: real, totalCost: real): real
    requires totalCost != 0.0
  {
    points * (cost / totalCost)
  }

  /** The changes add up to `delta` times the members' share of the total cost. */
  lemma {:induction false} ProportionalChanges(ms: seq<Programme>, delta: real, totalCost: real)
    requires totalCost != 0.0
    ensures TotalChange(SplitWrites(ms, delta, totalCost), ms) == Portion(delta, Combinations.SumCosts(ms), totalCost)
  {
    if ms != [] {
      var init := ms[..|ms| - 1];
      var last := ms[|ms| - 1];
      var ws := SplitWrites(ms, delta, totalCost);
      assert ws[..|ws| - 1] == SplitWrites(init, delta, totalCost);
      assert ws[|ws| - 1].rating - last.rating == Portion(delta, last.cost, totalCost);
      assert TotalChange(ws, ms) == TotalChange(SplitWrites(init, delta, totalCost), init) + Portion(delta, last.cost, totalCost);
      ProportionalChanges(init, delta, totalCost);
      ShareSum(delta, Combinations.SumCosts(init), last.cost, totalCost);
    }
  }

  lemma ShareSum(delta: real, a: real, b: real, t: real)
    requires t != 0.0
    ensures Portion(delta, a, t) + Portion(delta, b, t) == Portion(delta, a + b, t)
  {
    assert a / t + b / t == (a + b) / t;
  }

  /**
   * When a combination's total cost is the sum of its members' costs, as it
   * is for every combination the engine builds, its members' rating changes
   * add up to exactly the points the combination won or lost.
   */
  lemma CombinationSplitsPoints(option: MatchupOption, newRating: int, delta: real)
    requires option.Combination? && option.totalCost != 0.0 && option.totalCost == Combinations.SumCosts(option.constituentProgrammes)
    ensures var ws := SideWrites(Some(option), None, newRating, delta);
      |ws| == |option.constituentProgrammes| && TotalChange(ws, option.constituentProgrammes) == delta
  {
    var ws := SplitWrites(option.constituentProgrammes, delta, option.totalCost);
    assert SideWrites(Some(option), None, newRating, delta) == ws;
    ProportionalChanges(option.constituentProgrammes, delta, option.totalCost);
    WholePortion(delta, option.totalCost);
  }

  /** The part of the points that goes with the whole cost is all of them. */
  lemma WholePortion(points: real, totalCost: real)
    requires totalCost != 0.0
    ensures Portion(points, totalCost, totalCost) == points
  {
    assert totalCost / totalCost == 1.0;
  }

  /** A programme rating that is a whole number. */
  predicate Whole(r: real)
  {
    r.Floor as real == r
  }

  /**
   * A vote between two plain programmes found by their ids, whatever their
   * ratings: the winner's new Elo rating is written first and then the
   * loser's; for whole-number ratings the winner gains and the loser loses
   * between 0 and K points.
   */
  lemma PlainVote(expected: Elo.ExpectedScore, programmes: seq<Programme>, winner: Programme, loser: Programme)
    requires winner in programmes && loser in programmes
    requires forall p :: p in programmes && p.id == winner.id ==> p == winner
    requires forall p :: p in programmes && p.id == loser.id ==> p == loser
    ensures var r := VoteWrites(expected, programmes, winner.id, loser.id, None, None);
      var u := Elo.UpdateElo(expected, winner.rating, loser.rating);
      && r.Accepted?
      && r.writes == [RatingWrite(winner.id, u.newWinnerRating as real), RatingWrite(loser.id, u.newLoserRating as real)]
      && (Whole(winner.rating) && Whole(loser.rating) ==>
            && winner.rating <= r.writes[0].rating <= winner.rating + Elo.K as real
            && loser.rating - Elo.K as real <= r.writes[1].rating <= loser.rating)
  {
    assert FindFirst(programmes, HasId(winner.id)) == Some(winner);
    assert FindFirst(programmes, HasId(loser.id)) == Some(loser);
    if Whole(winner.rating) && Whole(loser.rating) {
      Elo.UpdateEloBounds(expected, winner.rating.Floor, loser.rating.Floor);
    }
  }

  /** An accepted vote writes the winner's side and then the loser's. */
  lemma AcceptedWrites(expected: Elo.ExpectedScore, programmes: seq<Programme>, winnerId: string, loserId: string,
                       winnerOption: Option<MatchupOption>, loserOption: Option<MatchupOption>)
    requires Attributable(winnerOption) && Attributable(loserOption)
    requires RatingForCalc(programmes, winnerId, winnerOption).Some? && RatingForCalc(programmes, loserId, loserOption).Some?
    ensures var r := VoteWrites(expected, programmes, winnerId, loserId, winnerOption, loserOption);
      var rw := RatingForCalc(programmes, winnerId, winnerOption).value;
      var rl := RatingForCalc(programmes, loserId, loserOption).value;
      var u := Elo.UpdateElo(expected, rw, rl);
      && r.Accepted?
      && r.writes == SideWrites(winnerOption, FindFirst(programmes, HasId(winnerId)), u.newWinnerRating, PointsGained(u, rw)) +
                     SideWrites(loserOption, FindFirst(programmes, HasId(loserId)), u.newLoserRating, LoserDelta(u, rl))
  {
  }

  /**
   * A share that wins against any side that has a rating: the share's base
   * programme takes the full points the share gained, so its new rating is
   * the winner's Elo rating computed from the base rating; the loser's
   * writes follow.
   */
  lemma ShareWinsVote(expected: Elo.ExpectedScore, programmes: seq<Programme>, winnerId: string, loserId: string,
                      share: MatchupOption, loserOption: Option<MatchupOption>)
    requires share.Share? && Attributable(loserOption)
    requires RatingForCalc(programmes, loserId, loserOption).Some?
    ensures var r := VoteWrites(expected, programmes, winnerId, loserId, Some(share), loserOption);
      var base := share.baseProgramme;
      var rl := RatingForCalc(programmes, loserId, loserOption).value;
      var u := Elo.UpdateElo(expected, base.rating, rl);
      && r.Accepted?
      && r.writes == [RatingWrite(base.id, base.rating + PointsGained(u, base.rating))] +
                     SideWrites(loserOption, FindFirst(programmes, HasId(loserId)), u.newLoserRating, LoserDelta(u, rl))
      && base.rating + PointsGained(u, base.rating) == u.newWinnerRating as real
  {
    AcceptedWrites(expected, programmes, winnerId, loserId, Some(share), loserOption);
  }

  /**
   * A share that loses against any side that has a rating: the winner's
   * writes come first, then the share's base programme loses the full
   * points, so its new rating is the loser's Elo rating computed from the
   * base rating.
   */
  lemma ShareLosesVote(expected: Elo.ExpectedScore, programmes: seq<Programme>, winnerId: string, loserId: string,
                       winnerOption: Option<MatchupOption>, share: MatchupOption)
    requires share.Share? && Attributable(winnerOption)
    requires RatingForCalc(programmes, winnerId, winnerOption).Some?
    ensures var r := VoteWrites(expected, programmes, winnerId, loserId, winnerOption, Some(share));
      var base := share.baseProgramme;
      var rw := RatingForCalc(programmes, winnerId, winnerOption).value;
      var u := Elo.UpdateElo(expected, rw, base.rating);
      && r.Accepted?
      && r.writes == SideWrites(winnerOption, FindFirst(programmes, HasId(winnerId)), u.newWinnerRating, PointsGained(u, rw)) +
                     [RatingWrite(base.id, base.rating + LoserDelta(u, base.rating))]
      && base.rating + LoserDelta(u, base.rating) == u.newLoserRating as real
  {
    AcceptedWrites(expected, programmes, winnerId, loserId, winnerOption, Some(share));
  }

  /**
   * A combination that wins against any side that has a rating: its
   * members' writes come first, each member moving by its part of the
   * points the combination gained, in proportion to its cost; when the
   * total cost is the members' summed cost, those moves add up to exactly
   * the points gained.
   */
  lemma CombinationWinsVote(expected: Elo.ExpectedScore, programmes: seq<Programme>, winnerId: string, loserId: string,
                            combo: MatchupOption, loserOption: Option<MatchupOption>)
    requires combo.Combination? && Attributable(Some(combo)) && Attributable(loserOption)
    requires RatingForCalc(programmes, loserId, loserOption).Some?
    ensures var r := VoteWrites(expected, programmes, winnerId, loserId, Some(combo), loserOption);
      var ms := combo.constituentProgrammes;
      var rw := RatingForCalc(programmes, winnerId, Some(combo)).value;
      var rl := RatingForCalc(programmes, loserId, loserOption).value;
      var u := Elo.UpdateElo(expected, rw, rl);
      && r.Accepted? && |r.writes| >= |ms|
      && (forall i :: 0 <= i < |ms| ==>
            r.writes[i] == RatingWrite(ms[i].id, ms[i].rating + Portion(PointsGained(u, rw), ms[i].cost, combo.totalCost)))
      && (combo.totalCost == Combinations.SumCosts(ms) ==> TotalChange(r.writes[..|ms|], ms) == PointsGained(u, rw))
  {
    var ms := combo.constituentProgrammes;
    var rw := RatingForCalc(programmes, winnerId, Some(combo)).value;
    var rl := RatingForCalc(programmes, loserId, loserOption).value;
    var u := Elo.UpdateElo(expected, rw, rl);
    var r := VoteWrites(expected, programmes, winnerId, loserId, Some(combo), loserOption);
    var ws := SideWrites(Some(combo), FindFirst(programmes, HasId(winnerId)), u.newWinnerRating, PointsGained(u, rw));
    AcceptedWrites(expected, programmes, winnerId, loserId, Some(combo), loserOption);
    assert r.writes[..|ms|] == ws;
    if combo.totalCost == Combinations.SumCosts(ms) {
      CombinationSplitsPoints(combo, u.newWinnerRating, PointsGained(u, rw));
      assert ws == SideWrites(Some(combo), None, u.newWinnerRating, PointsGained(u, rw));
    }
  }

  /**
   * A combination that loses against any side that has a rating: the
   * winner's writes come first, then each member moves by its part of the
   * points the combination lost, in proportion to its cost; when the total
   * cost is the members' summed cost, those moves add up to exactly the
   * points lost.
   */
  lemma CombinationLosesVote(expected: Elo.ExpectedScore, programmes: seq<Programme>, winnerId: string, loserId: string,
                             winnerOption: Option<MatchupOption>, combo: MatchupOption)
    requires combo.Combination? && Attributable(winnerOption) && Attributable(Some(combo))
    requires RatingForCalc(programmes, winnerId, winnerOption).Some?
    ensures var r := VoteWrites(expected, programmes, winnerId, loserId, winnerOption, Some(combo));
      var ms := combo.constituentProgrammes;
      var rw := RatingForCalc(programmes, winnerId, winnerOption).value;
      var rl := RatingForCalc(programmes, loserId, Some(combo)).value;
      var u := Elo.UpdateElo(expected, rw, rl);
      var n := |r.writes| - |ms|;
      && r.Accepted? && n >= 0
      && (forall i :: 0 <= i < |ms| ==>
            r.writes[n + i] == RatingWrite(ms[i].id, ms[i].rating + Portion(LoserDelta(u, rl), ms[i].cost, combo.totalCost)))
      && (combo.totalCost == Combinations.SumCosts(ms) ==> TotalChange(r.writes[n..], ms) == LoserDelta(u, rl))
  {
    var ms := combo.constituentProgrammes;
    var rw := RatingForCalc(programmes, winnerId, winnerOption).value;
    var rl := RatingForCalc(programmes, loserId, Some(combo)).value;
    var u := Elo.UpdateElo(expected, rw, rl);
    var r := VoteWrites(expected, programmes, winnerId, loserId, winnerOption, Some(combo));
    var vs := SideWrites(winnerOption, FindFirst(programmes, HasId(winnerId)), u.newWinnerRating, PointsGained(u, rw));
    var ws := SideWrites(Some(combo), FindFirst(programmes, HasId(loserId)), u.newLoserRating, LoserDelta(u, rl));
    AcceptedWrites(expected, programmes, winnerId, loserId, winnerOption, Some(combo));
    assert |ws| == |ms|;
    var n := |r.writes| - |ms|;
    assert n == |vs|;
    assert r.writes[n..] == ws;
    forall i | 0 <= i < |ms|
      ensures r.writes[n + i] == RatingWrite(ms[i].id, ms[i].rating + Portion(LoserDelta(u, rl), ms[i].cost, combo.totalCost))
    {
      assert r.writes[n + i] == ws[i];
    }
    if combo.totalCost == Combinations.SumCosts(ms) {
      CombinationSplitsPoints(combo, u.newLoserRating, LoserDelta(u, rl));
      assert ws == SideWrites(Some(combo), None, u.newLoserRating, LoserDelta(u, rl));
      assert TotalChange(r.writes[n..], ms) == LoserDelta(u, rl);
    }
  }

  /**
   * A winner known only through a catalog id occurring in its id (no exact
   * match, no option) enters the Elo update with that programme's rating,
   * but nothing is written for it: against a plain loser found by its id,
   * the vote's only write is the loser's.
   */
  lemma SubstringWinnerIsNotWritten(expected: Elo.ExpectedScore, programmes: seq<Programme>, winnerId: string,
                                    loser: Programme)
    requires loser in programmes && forall p :: p in programmes && p.id == loser.id ==> p == loser
    requires forall p :: p in programmes ==> p.id != winnerId
    requires exists p :: p in programmes && Contains(winnerId, p.id)
    ensures var r := VoteWrites(expected, programmes, winnerId, loser.id, None, None);
      r.Accepted? && |r.writes| == 1 && r.writes[0].id == loser.id
  {
    assert FindFirst(programmes, HasId(winnerId)).None?;
    assert FindFirst(programmes, HasId(loser.id)) == Some(loser);
  }
}
