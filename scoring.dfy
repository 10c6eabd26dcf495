/**
 * The completion screen of every shuffled or fixed-sequence quiz computes
 *   percentage = Math.round((score / total) * 100)
 *   stars      = percentage >= 90 ? 3 : percentage >= 70 ? 2 : 1
 * This module states that computation in integers and proves what the
 * star tier means in terms of the score alone.
 */
module Scoring {

  /**
   * `Math.round(score / total * 100)` for a non-negative score and a positive
   * total: the integer nearest to 100 * score / total, halves rounded up.
   */
  function RoundedPercentage(score: nat, total: nat): (pct: nat)
    requires total > 0
    ensures 200 * score - total < 2 * total * pct <= 200 * score + total
    ensures score <= total ==> pct <= 100
  {
    var x, d := 200 * score + total, 2 * total;
    DivBounds(x, d);
    DivAtLeast(x, d, 101);
    x / d
  }

  /** Euclidean division by a positive divisor brackets the dividend. */
  lemma DivBounds(x: nat, d: nat)
    requires d > 0
    ensures d * (x / d) <= x < d * (x / d) + d
  {
    assert x == (x / d) * d + x % d;
  }

  /** The star tier shown for a percentage. */
  function StarTier(pct: int): (stars: nat)
  {
    if pct >= 90 then 3 else if pct >= 70 then 2 else 1
  }

  /** Stars shown on a completion screen for `score` correct answers out of `total`. */
  function SessionStars(score: nat, total: nat): (stars: nat)
    requires total > 0
    ensures 1 <= stars <= 3
  {
    StarTier(RoundedPercentage(score, total))
  }

  /** For a positive divisor, `x / d >= k` exactly when `x >= k * d`. */
  lemma DivAtLeast(x: nat, d: nat, k: nat)
    requires d > 0
    ensures x / d >= k <==> x >= k * d
  {
    var q, r := x / d, x % d;
    assert x == q * d + r && 0 <= r < d;
    if q >= k {
      assert q * d >= k * d by { MulMonotone(k, q, d); }
    } else {
      assert (q + 1) * d <= k * d by { MulMonotone(q + 1, k, d); }
    }
  }

  lemma MulMonotone(a: nat, b: nat, d: nat)
    requires a <= b
    ensures a * d <= b * d
  {
  }

  /**
   * The tier needs no rounding to state: three stars exactly when
   * 100 * score / total >= 89.5, two or more exactly when it is >= 69.5.
   */
  lemma SessionStarsThresholds(score: nat, total: nat)
    requires total > 0
    ensures SessionStars(score, total) == 3 <==> 200 * score >= 179 * total
    ensures SessionStars(score, total) >= 2 <==> 200 * score >= 139 * total
  {
    DivAtLeast(200 * score + total, 2 * total, 90);
    DivAtLeast(200 * score + total, 2 * total, 70);
  }

  /** More correct answers never earn fewer stars. */
  lemma SessionStarsMonotone(lower: nat, higher: nat, total: nat)
    requires total > 0 && lower <= higher
    ensures SessionStars(lower, total) <= SessionStars(higher, total)
  {
    SessionStarsThresholds(lower, total);
    SessionStarsThresholds(higher, total);
  }

  /** A perfect session earns three stars; an empty one earns one, never zero. */
  lemma SessionStarsExtremes(total: nat)
    requires total > 0
    ensures SessionStars(total, total) == 3
    ensures SessionStars(0, total) == 1
  {
    SessionStarsThresholds(total, total);
    SessionStarsThresholds(0, total);
  }

  /**
   * The stars of a finished session, over its record of answers: one to
   * three, and three when every answer was right.
   */
  lemma RecordStars(answers: seq<bool>)
    requires |answers| > 0
    ensures 1 <= SessionStars(CountCorrect(answers), |answers|) <= 3
    ensures (forall k | 0 <= k < |answers| :: answers[k]) ==>
              SessionStars(CountCorrect(answers), |answers|) == 3
  {
    SessionStarsExtremes(|answers|);
  }

  /** The worked examples for ten and twenty questions. */
  lemma SessionStarsExamples()
    ensures SessionStars(9, 10) == 3 && SessionStars(7, 10) == 2 && SessionStars(6, 10) == 1
    ensures SessionStars(10, 10) == 3 && SessionStars(0, 5) == 1
    ensures SessionStars(18, 20) == 3 && SessionStars(14, 20) == 2 && SessionStars(13, 20) == 1
  {
  }

  /**
   * The number of right answers in a record of answers, oldest first. It is
   * at most the number of answers, and equals it exactly when every answer
   * was right.
   */
  function CountCorrect(answers: seq<bool>): (n: nat)
    ensures n <= |answers|
    ensures n == |answers| <==> forall k | 0 <= k < |answers| :: answers[k]
  {
    if answers == [] then 0
    else
      var init := answers[..|answers| - 1];
      assert forall k | 0 <= k < |init| :: init[k] == answers[k];
      CountCorrect(init) + (if answers[|answers| - 1] then 1 else 0)
  }

  /** Recording one more answer adds one to the count exactly when it is right. */
  lemma CountCorrectAppend(answers: seq<bool>, right: bool)
    ensures CountCorrect(answers + [right]) == CountCorrect(answers) + (if right then 1 else 0)
  {
    assert (answers + [right])[..|answers|] == answers;
  }
}
