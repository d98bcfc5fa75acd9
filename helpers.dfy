/** The fixed pattern tables of Penney's game: the eight three-card
    colour patterns as the game reads them ('0' red, '1' black) and the
    labels shown to the user ("R"/"B" separated by spaces). */
module Helpers {

  /** Patterns the game function understands, in table order. */
  const SEQUENCES: seq<string> := ["000", "100", "010", "001", "110", "101", "011", "111"]

  /** The same patterns as users read them. */
  const CARD_SEQUENCES: seq<string> := ["R R R", "B R R", "R B R", "R R B", "B B R", "B R B", "R B B", "B B B"]

  /** A word over the two card colours. */
  predicate IsBinary(w: string)
  {
    forall k :: 0 <= k < |w| ==> w[k] == '0' || w[k] == '1'
  }

  /** The colour letter for a card: '0' is red, '1' is black. */
  function CardLetter(c: char): char
  {
    if c == '0' then 'R' else 'B'
  }

  /** The display label of a pattern: one colour letter per card, joined
      by single spaces. */
  function CardLabel(w: string): (l: string)
    decreases |w|
    ensures |l| == if |w| == 0 then 0 else 2 * |w| - 1
    ensures forall k :: 0 <= k < |w| ==> l[2 * k] == CardLetter(w[k])
    ensures forall k :: 0 <= k < |l| && k % 2 == 1 ==> l[k] == ' '
  {
    if |w| <= 1 then seq(|w|, k requires 0 <= k < |w| => CardLetter(w[k]))
    else
      var rest := CardLabel(w[1..]);
      var l := [CardLetter(w[0]), ' '] + rest;
      assert forall k :: 1 <= k < |w| ==> l[2 * k] == rest[2 * (k - 1)];
      assert forall k :: 2 <= k < |l| ==> l[k] == rest[k - 2];
      l
  }

  /** Reads a display label back: every other character, colour letters
      mapped back to '0' and '1'. */
  function ParseCardLabel(l: string): (w: string)
    decreases |l|
  {
    if |l| == 0 then []
    else [if l[0] == 'R' then '0' else '1'] + (if |l| <= 2 then [] else ParseCardLabel(l[2..]))
  }

  /** The display label determines the pattern. */
  lemma {:induction false} CardLabelRoundTrip(w: string)
    requires IsBinary(w)
    ensures ParseCardLabel(CardLabel(w)) == w
    decreases |w|
  {
    if |w| > 1 {
      var l := CardLabel(w);
      assert l[2..] == CardLabel(w[1..]);
      CardLabelRoundTrip(w[1..]);
    } else if |w| == 1 {
      assert CardLabel(w) == [CardLetter(w[0])];
    }
  }

  /** There are eight patterns of three cards each. */
  lemma SequencesShape()
    ensures |SEQUENCES| == 8
    ensures forall i :: 0 <= i < |SEQUENCES| ==> |SEQUENCES[i]| == 3 && IsBinary(SEQUENCES[i])
  {
  }

  /** No pattern is listed twice. */
  lemma SequencesDistinct()
    ensures forall i, j :: 0 <= i < j < |SEQUENCES| ==> SEQUENCES[i] != SEQUENCES[j]
  {
  }

  /** Every three-card colour pattern is in the table, so the eight
      entries are all 2^3 of them. */
  lemma SequencesComplete(w: string)
    requires |w| == 3 && IsBinary(w)
    ensures w in SEQUENCES
  {
    assert w == [w[0], w[1], w[2]];
  }

  /** Each display label is the label of the pattern in the same row. */
  lemma CardSequencesAreLabels()
    ensures |CARD_SEQUENCES| == |SEQUENCES|
    ensures forall i :: 0 <= i < |SEQUENCES| ==> CARD_SEQUENCES[i] == CardLabel(SEQUENCES[i])
  {
    forall i | 0 <= i < |SEQUENCES|
      ensures CARD_SEQUENCES[i] == CardLabel(SEQUENCES[i])
    {
      var w := SEQUENCES[i];
      assert CardLabel(w) == [CardLetter(w[0]), ' ', CardLetter(w[1]), ' ', CardLetter(w[2])];
    }
  }
}
