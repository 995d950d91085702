/**
 * The rating rule: standard Elo with K-factor 32 and rounding to a whole
 * number of points.
 *
 * The expected score `1 / (1 + 10^((opponent - rating) / 400))` involves a
 * real power, which is not modelled. It is taken as any function of two
 * ratings whose value lies strictly between 0 and 1 and whose values for the
 * two sides of a match add up to 1 (both hold of the logistic curve above).
 * Everything below is proved for every such function.
 */
module Elo {

  /** The K-factor: the most points one match can move a rating. */
  const K: int := 32

  /** The two properties the rule relies on; the logistic curve has both. */
  ghost predicate IsExpectedScore(f: (real, real) -> real)
  {
    forall r, o :: 0.0 < f(r, o) < 1.0 && f(r, o) + f(o, r) == 1.0
  }

  /** `expectedScore(rating, opponentRating)`, known only through its two properties. */
  type ExpectedScore = f: (real, real) -> real | IsExpectedScore(f)
    witness (r: real, o: real) => 0.5

  /** `Math.round`: the nearest whole number, halves rounded up. */
  function Round(x: real): (n: int)
    ensures n as real - 0.5 <= x < n as real + 0.5
  {
    (x + 0.5).Floor
  }

  /** What `updateElo` returns. `Math.round` makes both ratings whole numbers. */
  datatype EloUpdate = EloUpdate(newWinnerRating: int, newLoserRating: int)

  /**
   * `updateElo(winnerRating, loserRating)`: the winner's rating moves to the
   * nearest whole number to `winnerRating + K * (1 - expected)`, the loser's
   * to the nearest whole number to `loserRating + K * (0 - expected)`, each
   * expected score taken from that side's point of view.
   */
  function UpdateElo(expected: ExpectedScore, winnerRating: real, loserRating: real): (r: EloUpdate)
    ensures var target := winnerRating + K as real * (1.0 - expected(winnerRating, loserRating));
      r.newWinnerRating as real - 0.5 <= target < r.newWinnerRating as real + 0.5
    ensures var target := loserRating + K as real * (0.0 - expected(loserRating, winnerRating));
      r.newLoserRating as real - 0.5 <= target < r.newLoserRating as real + 0.5
  {
    var winnerExpected := expected(winnerRating, loserRating);
    var loserExpected := expected(loserRating, winnerRating);
    EloUpdate(Round(winnerRating + K as real * (1.0 - winnerExpected)),
              Round(loserRating + K as real * (0.0 - loserExpected)))
  }

  /** Rounding commutes with adding a whole number. */
  lemma RoundShift(n: int, x: real)
    ensures Round(n as real + x) == n + Round(x)
  {
  }

  /** `Math.round(x) + Math.round(-x)` is 0, or 1 when `x` lies halfway between two whole numbers. */
  lemma RoundOpposite(x: real)
    ensures Round(x) + Round(-x) == (if (x + 0.5).Floor as real == x + 0.5 then 1 else 0)
  {
  }

  /**
   * For whole-number ratings, the winner gains between 0 and K points and the
   * loser loses between 0 and K points.
   */
  lemma {:induction false} UpdateEloBounds(expected: ExpectedScore, w: int, l: int)
    ensures var r := UpdateElo(expected, w as real, l as real);
      w <= r.newWinnerRating <= w + K && l - K <= r.newLoserRating <= l
  {
    var ew := expected(w as real, l as real);
    var el := expected(l as real, w as real);
    assert 0.0 < ew < 1.0 && 0.0 < el < 1.0;
    var r := UpdateElo(expected, w as real, l as real);
    assert w as real < r.newWinnerRating as real + 0.5;
    assert r.newWinnerRating as real - 0.5 < (w + K) as real;
    assert (l - K) as real < r.newLoserRating as real + 0.5;
    assert r.newLoserRating as real - 0.5 < l as real;
  }

  /**
   * For whole-number ratings the points are conserved up to rounding: what
   * the winner gains equals what the loser loses, except when the exchange
   * falls exactly halfway between two whole numbers, where `Math.round`
   * rounds both sides up and one point is created.
   */
  lemma {:induction false} UpdateEloConservesPoints(expected: ExpectedScore, w: int, l: int)
    ensures var r := UpdateElo(expected, w as real, l as real);
      var gained := r.newWinnerRating - w;
      var lost := l - r.newLoserRating;
      var exchange := K as real * (1.0 - expected(w as real, l as real));
      gained - lost == (if (exchange + 0.5).Floor as real == exchange + 0.5 then 1 else 0)
  {
    var ew := expected(w as real, l as real);
    var el := expected(l as real, w as real);
    assert ew + el == 1.0;
    var x := K as real * (1.0 - ew);
    assert K as real * (0.0 - el) == -x;
    RoundShift(w, x);
    RoundShift(l, -x);
    RoundOpposite(x);
  }

  /** Between equal ratings the expected score is one half either way. */
  lemma {:induction false} ExpectedAtEqualRatings(expected: ExpectedScore, r: real)
    ensures expected(r, r) == 0.5
  {
    assert expected(r, r) + expected(r, r) == 1.0;
  }

  /** `updateElo(1500, 1500)` gives 1516 to the winner and 1484 to the loser. */
  lemma {:induction false} UpdateEloAtDefaultRatings(expected: ExpectedScore)
    ensures UpdateElo(expected, 1500.0, 1500.0) == EloUpdate(1516, 1484)
  {
    ExpectedAtEqualRatings(expected, 1500.0);
  }
}
