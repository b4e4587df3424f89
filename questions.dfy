/** The fixed list of questions and the cyclic walk through it that "Play Next Round" makes. */
module Deck {

  datatype Question = Question(prompt: string, leftLabel: string, rightLabel: string)

  /** The three questions, identified only by their position. */
  const Questions: seq<Question> := [
    Question("Is a hot dog a sandwich?", "Definitely Not", "Absolutely Yes"),
    Question("How important is work-life balance?", "Not at all", "Extremely"),
    Question("Is Star Wars or Star Trek better?", "Star Trek", "Star Wars")
  ]

  /** `(prevIndex + 1) % questions.length`. The index is never negative, and on non-negative
      operands Dafny's `%` agrees with JavaScript's. */
  function NextIndex(i: nat): (j: nat)
    ensures j < |Questions|
    ensures i < |Questions| ==> j == (if i + 1 == |Questions| then 0 else i + 1)
  {
    (i + 1) % |Questions|
  }

  /** The question index after `n` further rounds. */
  function Advance(i: nat, n: nat): (j: nat)
    ensures n > 0 ==> j < |Questions|
  {
    if n == 0 then i else NextIndex(Advance(i, n - 1))
  }

  /** `n` rounds move the index `n` places along the list, wrapping around. */
  lemma {:induction false} AdvanceIsOffset(i: nat, n: nat)
    requires i < |Questions|
    ensures Advance(i, n) == (i + n) % |Questions|
  {
    if n > 0 {
      AdvanceIsOffset(i, n - 1);
      var k := |Questions|;
      var q := (i + n - 1) / k;
      assert i + n - 1 == q * k + Advance(i, n - 1);
      assert i + n == q * k + (Advance(i, n - 1) + 1);
      if Advance(i, n - 1) + 1 == k {
        assert i + n == (q + 1) * k;
      }
    }
  }

  /** After as many rounds as there are questions, the game is back at the same question. */
  lemma FullCycle(i: nat)
    requires i < |Questions|
    ensures Advance(i, |Questions|) == i
  {
    AdvanceIsOffset(i, |Questions|);
  }

  /** Every question is reached from every question within one pass through the list. */
  lemma EveryQuestionReached(i: nat, j: nat)
    requires i < |Questions| && j < |Questions|
    ensures exists n: nat :: n < |Questions| && Advance(i, n) == j
  {
    var n: nat := if i <= j then j - i else j + |Questions| - i;
    AdvanceIsOffset(i, n);
    assert Advance(i, n) == j;
  }
}
