/** The score of one round: the hivemind fallback and `Math.round(100 - |guess - hivemind|)`.
    The hivemind average is an exact `real`; floating-point rounding error is not modelled. */
module Scoring {

  datatype Option<T> = None | Some(value: T)

  function Abs(x: real): (a: real)
    ensures 0.0 <= a && (a == x || a == -x)
  {
    if x < 0.0 then -x else x
  }

  /** The average the page scores against: `hivemind_average || 50`. JavaScript's `||` replaces
      every falsy left operand, so a missing average and an average of exactly 0 both become 50. */
  function Fallback(average: Option<real>): (h: real)
    ensures h != 0.0
    ensures h == 50.0 || average == Some(h)
  {
    match average
    case None => 50.0
    case Some(a) => if a == 0.0 then 50.0 else a
  }

  /** ECMAScript's `Math.round`, stated independently of any formula: the integer nearest to `x`,
      and of two equally near integers the one towards +infinity. */
  ghost predicate IsJsRounding(x: real, n: int) {
    Abs(n as real - x) <= 0.5 && (Abs(n as real - x) == 0.5 ==> n as real > x)
  }

  /** `Math.round(x)` written as `floor(x + 1/2)`. */
  function JsRound(x: real): (n: int)
    ensures n as real - 0.5 <= x < n as real + 0.5
  {
    (x + 0.5).Floor
  }

  /** The score of a guess against a hivemind value: `Math.round(100 - Math.abs(guess - h))`. */
  function Score(guess: int, h: real): (score: int)
    ensures score as real - 0.5 <= 100.0 - Abs(guess as real - h) < score as real + 0.5
  {
    JsRound(100.0 - Abs(guess as real - h))
  }

  /** `floor(x + 1/2)` is exactly ECMAScript's rounding, in both directions. */
  lemma JsRoundIsJsRounding(x: real, n: int)
    ensures IsJsRounding(x, n) <==> n == JsRound(x)
  {
  }

  /** Halves go up, also below zero: `Math.round(2.5) == 3` but `Math.round(-2.5) == -2`. */
  lemma JsRoundHalvesUp(k: int)
    ensures JsRound(k as real + 0.5) == k + 1
    ensures JsRound(k as real - 0.5) == k
  {
  }

  /** For a guess and a hivemind value both on the slider's scale, the score is on it too. */
  lemma ScoreBounds(guess: int, h: real)
    requires 0 <= guess <= 100 && 0.0 <= h <= 100.0
    ensures 0 <= Score(guess, h) <= 100
  {
  }

  /** A perfect score means the guess is within half a point of the hivemind value. */
  lemma ScorePerfect(guess: int, h: real)
    ensures Score(guess, h) == 100 <==> Abs(guess as real - h) <= 0.5
  {
  }

  /** Against a whole-number hivemind value no rounding happens: the score is `100 - |guess - h|`,
      and it is 100 exactly when the guess hits the value. */
  lemma ScoreOfWholeNumber(guess: int, h: int)
    ensures Score(guess, h as real) == 100 - (if guess < h then h - guess else guess - h)
    ensures Score(guess, h as real) == 100 <==> guess == h
  {
  }

  /** A guess nearer the hivemind value never scores less. */
  lemma ScoreMonotone(near: int, far: int, h: real)
    requires Abs(near as real - h) <= Abs(far as real - h)
    ensures Score(far, h) <= Score(near, h)
  {
  }

  /** The worked example: a guess of 80 against a hivemind average of 70 scores 90. */
  lemma ScoreExample()
    ensures Score(80, Fallback(Some(70.0))) == 90
  {
  }

  /** Only a missing average or an average of exactly 0 falls back to 50; every other value is kept. */
  lemma FallbackKeeps(average: Option<real>)
    ensures Fallback(average) == 50.0 <==> average.None? || average.value in {0.0, 50.0}
    ensures average.Some? && average.value != 0.0 ==> Fallback(average) == average.value
  {
  }

  /** The quirk of `||`: a true average of 0 is scored as if it were 50. */
  lemma FallbackReplacesZero(guess: int)
    ensures Fallback(Some(0.0)) == 50.0
    ensures Score(guess, Fallback(Some(0.0))) == Score(guess, 50.0)
  {
  }

  /** The quirk changes the outcome: for every guess on the slider except 25, which is as far from
      0 as from 50, a true average of 0 is scored differently from what the guess earns against 0. */
  lemma FallbackZeroChangesScore(guess: int)
    requires 0 <= guess <= 100
    ensures guess != 25 <==> Score(guess, Fallback(Some(0.0))) != Score(guess, 0.0)
  {
  }

  /** A present average lies on the slider's scale. */
  predicate InRange(average: Option<real>) {
    average.Some? ==> 0.0 <= average.value <= 100.0
  }

  /** An average on the slider's scale, or a missing one, gives a hivemind value on that scale. */
  lemma FallbackInRange(average: Option<real>)
    requires InRange(average)
    ensures 0.0 <= Fallback(average) <= 100.0
  {
  }
}
