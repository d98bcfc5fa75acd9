/** Penney's game over two-colour card decks: the trick scan of one deck,
    the win/draw tally of one pattern pair over many decks, the 8 x 8
    showdown over every ordered pair of distinct patterns, and the
    recovery of the processed-deck count from the figure's file name. */
module Penney {
  import opened Wrappers
  import opened PyStr
  import opened Helpers

  /** One card: 0 (red) or 1 (black). */
  type Bit = b: int | 0 <= b <= 1

  /** A deck is one row of cards in generation order. */
  type Deck = seq<Bit>

  /** `''.join(deck.astype(str))`: the deck as a string of '0'/'1'. */
  function CardString(deck: Deck): string
    decreases |deck|
  {
    if |deck| == 0 then [] else [if deck[0] == 0 then '0' else '1'] + CardString(deck[1..])
  }

  /** The deck string has one character per card, `'0'` for a red card
      and `'1'` for a black one, in deck order. */
  lemma {:induction false} CardStringMeaning(deck: Deck)
    ensures |CardString(deck)| == |deck|
    ensures forall k :: 0 <= k < |deck| ==>
              CardString(deck)[k] == (if deck[k] == 0 then '0' else '1')
  {
    if |deck| > 0 {
      CardStringMeaning(deck[1..]);
    }
  }

  // ---------------------------------------------------------------------
  // One deck: the trick scan
  // ---------------------------------------------------------------------

  predicate IsPrefix(a: string, b: string)
  {
    |a| <= |b| && b[..|a|] == a
  }

  /** Two patterns that can never be found at the same position of one
      string: neither is a prefix of the other. */
  predicate Distinguishable(p1: string, p2: string)
  {
    !IsPrefix(p1, p2) && !IsPrefix(p2, p1)
  }

  /** Patterns of equal length (the game's three-card patterns) are
      distinguishable exactly when they differ. */
  lemma DistinguishableIffDistinct(p1: string, p2: string)
    requires |p1| == |p2|
    ensures Distinguishable(p1, p2) <==> p1 != p2
  {
    assert p1[..|p1|] == p1 && p2[..|p2|] == p2;
  }

  /** Two patterns found at the same position: one is a prefix of the other. */
  lemma SharedStartMeansPrefix(s: string, p1: string, p2: string, k: nat)
    requires OccursAt(s, p1, k) && OccursAt(s, p2, k)
    ensures !Distinguishable(p1, p2)
  {
    if |p1| <= |p2| {
      assert s[k..k + |p2|][..|p1|] == s[k..k + |p1|];
    } else {
      assert s[k..k + |p1|][..|p2|] == s[k..k + |p2|];
    }
  }

  /** The index the scan works with for one pattern: the first occurrence
      at or after `idx`, or `|s|` when `str.index` raises. */
  function IndexOrEnd(s: string, p: string, idx: nat): nat
  {
    match Find(s, p, idx)
    case Some(k) => k
    case None => |s|
  }

  /** The index lies between the scan position and the end, and a found
      occurrence fits in the string. */
  lemma IndexOrEndRange(s: string, p: string, idx: nat)
    requires idx <= |s|
    ensures idx <= IndexOrEnd(s, p, idx) <= |s|
    ensures IndexOrEnd(s, p, idx) < |s| ==> IndexOrEnd(s, p, idx) + |p| <= |s|
  {
    FindMeaning(s, p, idx);
  }

  /** Inside the loop the sentinel `|s|` stands exactly for the
      `ValueError`: a smaller index is the first occurrence from `idx`. */
  lemma IndexOrEndMeaning(s: string, p: string, idx: nat)
    requires idx < |s|
    ensures IndexOrEnd(s, p, idx) < |s| <==> OccursFrom(s, p, idx)
    ensures IndexOrEnd(s, p, idx) < |s| ==>
              OccursAt(s, p, IndexOrEnd(s, p, idx)) && AbsentBetween(s, p, idx, IndexOrEnd(s, p, idx))
  {
    FindMeaning(s, p, idx);
    FoundBeforeEnd(s, p, idx);
  }

  /** What one pass of the scan loop does. */
  datatype Step =
    | Stop                 // the loop ends
    | P1Trick(next: nat)   // player 1 takes a trick, the scan resumes at `next`
    | P2Trick(next: nat)   // player 2 takes a trick, the scan resumes at `next`
    | Stall                // both found at one index: nothing changes, the loop spins

  /** `winner` takes the trick starting at `k` when the scan is at `idx`:
      `k` is its first occurrence from `idx`, and `loser` has no
      occurrence in `[idx, k]`. */
  ghost predicate WinsAt(s: string, winner: string, loser: string, idx: nat, k: nat)
  {
    && idx <= k
    && OccursAt(s, winner, k)
    && AbsentBetween(s, winner, idx, k)
    && AbsentBetween(s, loser, idx, k + 1)
  }

  /** One pass of the loop of `game` at scan position `idx`. A trick
      moves the scan at least three cards on, and the loop can only
      stall on patterns that are not distinguishable. */
  function NextStep(p1: string, p2: string, s: string, idx: nat): (r: Step)
    ensures (r.P1Trick? || r.P2Trick?) ==> idx + 3 <= r.next
    ensures r.Stall? ==> !Distinguishable(p1, p2)
  {
    if idx >= |s| then Stop
    else
      var i1 := IndexOrEnd(s, p1, idx);
      var i2 := IndexOrEnd(s, p2, idx);
      IndexOrEndRange(s, p1, idx);
      IndexOrEndRange(s, p2, idx);
      if i1 == |s| && i2 == |s| then Stop
      else if i1 < i2 then P1Trick(i1 + 3)
      else if i1 > i2 then P2Trick(i2 + 3)
      else
        FindMeaning(s, p1, idx);
        FindMeaning(s, p2, idx);
        FoundBeforeEnd(s, p1, idx);
        SharedStartMeansPrefix(s, p1, p2, i1);
        Stall
  }

  /** What a step means: the scan stops exactly when it has reached the
      end or neither pattern occurs any more, and a trick goes to the
      pattern whose first occurrence comes strictly first, the scan
      resuming three cards after its start. */
  lemma StepMeaning(p1: string, p2: string, s: string, idx: nat)
    ensures NextStep(p1, p2, s, idx).Stop?
       <==> idx >= |s| || (!OccursFrom(s, p1, idx) && !OccursFrom(s, p2, idx))
    ensures NextStep(p1, p2, s, idx).P1Trick? ==>
              WinsAt(s, p1, p2, idx, NextStep(p1, p2, s, idx).next - 3)
    ensures NextStep(p1, p2, s, idx).P2Trick? ==>
              WinsAt(s, p2, p1, idx, NextStep(p1, p2, s, idx).next - 3)
  {
    FindMeaning(s, p1, idx);
    FindMeaning(s, p2, idx);
    if idx < |s| {
      FoundBeforeEnd(s, p1, idx);
      FoundBeforeEnd(s, p2, idx);
    }
  }

  /** Inside the loop a found index is below `|s|`, so `|s|` is a safe
      "not found" marker. */
  lemma FoundBeforeEnd(s: string, p: string, idx: nat)
    requires idx < |s|
    ensures Find(s, p, idx).Some? ==> Find(s, p, idx).value < |s|
  {
    FindMeaning(s, p, idx);
    if Find(s, p, idx).Some? && |p| == 0 {
      assert OccursAt(s, p, idx);
    }
  }

  /** With one pattern for both players the scan stalls wherever the
      pattern still occurs: `game` does not terminate on such input. */
  lemma IdenticalPatternsStall(p: string, s: string, idx: nat)
    requires idx < |s|
    ensures NextStep(p, p, s, idx) == Stall <==> OccursFrom(s, p, idx)
  {
    FindMeaning(s, p, idx);
    FoundBeforeEnd(s, p, idx);
  }

  /** The trick counts of the two players. */
  datatype Tricks = Tricks(p1: nat, p2: nat)

  /** The tricks the scan collects from position `idx` onwards. */
  function TricksFrom(p1: string, p2: string, s: string, idx: nat): Tricks
    requires Distinguishable(p1, p2)
    decreases |s| - idx
  {
    match NextStep(p1, p2, s, idx)
    case Stop => Tricks(0, 0)
    case P1Trick(next) => var t := TricksFrom(p1, p2, s, next); Tricks(t.p1 + 1, t.p2)
    case P2Trick(next) => var t := TricksFrom(p1, p2, s, next); Tricks(t.p1, t.p2 + 1)
  }

  /** One pass of the loop in terms of the two indices it computes: how
      the tricks still to come from `idx` follow from those from the new
      position, and that the two indices never tie. */
  lemma ScanStep(p1: string, p2: string, s: string, idx: nat, i1: nat, i2: nat)
    requires Distinguishable(p1, p2) && idx < |s|
    requires i1 == IndexOrEnd(s, p1, idx) && i2 == IndexOrEnd(s, p2, idx)
    ensures idx <= i1 && idx <= i2
    ensures i1 == |s| && i2 == |s| ==> TricksFrom(p1, p2, s, idx) == Tricks(0, 0)
    ensures i1 == i2 ==> i1 == |s|
  {
    var step := NextStep(p1, p2, s, idx);
    assert step.Stall? <==> i1 == i2 && i1 != |s|;
  }

  /** Player 1's pattern comes first: player 1 takes the trick and the
      scan goes on three cards after its start. */
  lemma ScanP1Trick(p1: string, p2: string, s: string, idx: nat, i1: nat, i2: nat)
    requires Distinguishable(p1, p2) && idx < |s|
    requires i1 == IndexOrEnd(s, p1, idx) && i2 == IndexOrEnd(s, p2, idx) && i1 < i2
    ensures TricksFrom(p1, p2, s, idx).p1 == TricksFrom(p1, p2, s, i1 + 3).p1 + 1
    ensures TricksFrom(p1, p2, s, idx).p2 == TricksFrom(p1, p2, s, i1 + 3).p2
  {
  }

  /** Player 2's pattern comes first. */
  lemma ScanP2Trick(p1: string, p2: string, s: string, idx: nat, i1: nat, i2: nat)
    requires Distinguishable(p1, p2) && idx < |s|
    requires i1 == IndexOrEnd(s, p1, idx) && i2 == IndexOrEnd(s, p2, idx) && i2 < i1
    ensures TricksFrom(p1, p2, s, idx).p1 == TricksFrom(p1, p2, s, i2 + 3).p1
    ensures TricksFrom(p1, p2, s, idx).p2 == TricksFrom(p1, p2, s, i2 + 3).p2 + 1
  {
  }

  /** The scan collects nothing once it is past the end. */
  lemma ScanEnd(p1: string, p2: string, s: string, idx: nat)
    requires Distinguishable(p1, p2) && idx >= |s|
    ensures TricksFrom(p1, p2, s, idx) == Tricks(0, 0)
  {
  }

  /** The result of `game(p1, p2, deck)`. */
  function Play(p1: string, p2: string, deck: Deck): Tricks
    requires Distinguishable(p1, p2)
  {
    TricksFrom(p1, p2, CardString(deck), 0)
  }

  /** Swapping the players swaps a step's winner. */
  lemma StepSwap(p1: string, p2: string, s: string, idx: nat)
    ensures NextStep(p2, p1, s, idx) == match NextStep(p1, p2, s, idx)
      case Stop => Stop
      case P1Trick(n) => P2Trick(n)
      case P2Trick(n) => P1Trick(n)
      case Stall => Stall
  {
  }

  /** Swapping the players swaps the trick counts. */
  lemma {:induction false} TricksSymmetric(p1: string, p2: string, s: string, idx: nat)
    requires Distinguishable(p1, p2)
    ensures TricksFrom(p2, p1, s, idx).p1 == TricksFrom(p1, p2, s, idx).p2
    ensures TricksFrom(p2, p1, s, idx).p2 == TricksFrom(p1, p2, s, idx).p1
    decreases |s| - idx
  {
    StepSwap(p1, p2, s, idx);
    match NextStep(p1, p2, s, idx)
    case Stop =>
    case P1Trick(next) => TricksSymmetric(p1, p2, s, next);
    case P2Trick(next) => TricksSymmetric(p1, p2, s, next);
  }

  /** Every trick takes at least three fresh cards, so tricks never
      overlap and at most (|s| - idx) / 3 of them are played. */
  lemma {:induction false} TricksBound(p1: string, p2: string, s: string, idx: nat)
    requires Distinguishable(p1, p2) && |p1| >= 3 && |p2| >= 3 && idx <= |s|
    ensures 3 * (TricksFrom(p1, p2, s, idx).p1 + TricksFrom(p1, p2, s, idx).p2) <= |s| - idx
    decreases |s| - idx
  {
    if idx < |s| {
      IndexOrEndRange(s, p1, idx);
      IndexOrEndRange(s, p2, idx);
    }
    match NextStep(p1, p2, s, idx)
    case Stop =>
    case P1Trick(next) => TricksBound(p1, p2, s, next);
    case P2Trick(next) => TricksBound(p1, p2, s, next);
  }

  /** No trick is played exactly when neither pattern occurs in the rest
      of the string. */
  lemma NoTricksIffAbsent(p1: string, p2: string, s: string, idx: nat)
    requires Distinguishable(p1, p2)
    ensures TricksFrom(p1, p2, s, idx) == Tricks(0, 0)
       <==> idx >= |s| || (!OccursFrom(s, p1, idx) && !OccursFrom(s, p2, idx))
  {
    StepMeaning(p1, p2, s, idx);
  }

  /** The deck 0,0,1,0,1,1 ("R R B R B B") with patterns 001 and 011:
      player 1 takes the trick at 0, the scan moves to 3, player 2 takes
      the trick at 3, the scan moves to 6 and stops; one trick each. */
  lemma WorkedExample()
    ensures CardString([0, 0, 1, 0, 1, 1]) == "001011"
    ensures NextStep("001", "011", "001011", 0) == P1Trick(3)
    ensures NextStep("001", "011", "001011", 3) == P2Trick(6)
    ensures NextStep("001", "011", "001011", 6) == Stop
    ensures Play("001", "011", [0, 0, 1, 0, 1, 1]) == Tricks(1, 1)
  {
    var s := "001011";
    assert CardString([0, 0, 1, 0, 1, 1]) == s;
    assert OccursAt(s, "001", 0) && OccursAt(s, "011", 3);
    assert s[0..3] == "001" && s[1..4] == "010" && s[2..5] == "101" && s[3..6] == "011";
    assert Find(s, "001", 0) == Some(0);
    assert Find(s, "011", 0) == Some(3);
    assert Find(s, "001", 3) == None;
    assert Find(s, "011", 3) == Some(3);
  }

  // ---------------------------------------------------------------------
  // Many decks: the win/draw tally
  // ---------------------------------------------------------------------

  /** Win/draw counters of one ordered pattern pair. */
  datatype Counts = Counts(p1Wins: nat, p2Wins: nat, draws: nat)
  {
    function Plus(other: Counts): Counts
    {
      Counts(p1Wins + other.p1Wins, p2Wins + other.p2Wins, draws + other.draws)
    }

    /** The same counters seen from the other player's side. */
    function Swap(): Counts
    {
      Counts(p2Wins, p1Wins, draws)
    }

    function Total(): nat
    {
      p1Wins + p2Wins + draws
    }
  }

  /** The bucket one deck's trick counts fall into. */
  function Outcome(t1: nat, t2: nat): Counts
  {
    if t1 > t2 then Counts(1, 0, 0)
    else if t2 > t1 then Counts(0, 1, 0)
    else Counts(0, 0, 1)
  }

  /** Each deck counts once, in the bucket its trick counts decide. */
  lemma OutcomeMeaning(t1: nat, t2: nat)
    ensures Outcome(t1, t2).Total() == 1
    ensures Outcome(t1, t2).p1Wins == 1 <==> t1 > t2
    ensures Outcome(t1, t2).p2Wins == 1 <==> t2 > t1
    ensures Outcome(t1, t2).draws == 1 <==> t1 == t2
  {
  }

  /** Swapping the players swaps the outcome of one deck. */
  lemma OutcomeSwap(t1: nat, t2: nat)
    ensures Outcome(t2, t1) == Outcome(t1, t2).Swap()
  {
  }

  /** The bucket one deck's game falls into. */
  function DeckOutcome(p1: string, p2: string, deck: Deck): Counts
    requires Distinguishable(p1, p2)
  {
    var t := Play(p1, p2, deck);
    Outcome(t.p1, t.p2)
  }

  /** Associativity of adding counters. */
  lemma PlusAssoc(x: Counts, y: Counts, z: Counts)
    ensures x.Plus(y).Plus(z) == x.Plus(y.Plus(z))
  {
  }

  /** Swapping distributes over adding counters. */
  lemma PlusSwap(x: Counts, y: Counts)
    ensures x.Plus(y).Swap() == x.Swap().Plus(y.Swap())
  {
  }

  /** The counters `matchup(p1, p2, decks)` returns. */
  function TallyOf(p1: string, p2: string, decks: seq<Deck>): Counts
    requires Distinguishable(p1, p2)
    decreases |decks|
  {
    if |decks| == 0 then Counts(0, 0, 0)
    else TallyOf(p1, p2, decks[..|decks| - 1]).Plus(DeckOutcome(p1, p2, decks[|decks| - 1]))
  }

  /** One more deck adds that deck's outcome to the tally. */
  lemma TallyPrefix(p1: string, p2: string, decks: seq<Deck>, k: nat)
    requires Distinguishable(p1, p2) && k < |decks|
    ensures TallyOf(p1, p2, decks[..k + 1])
         == TallyOf(p1, p2, decks[..k]).Plus(DeckOutcome(p1, p2, decks[k]))
  {
    var prefix := decks[..k + 1];
    assert prefix[..k] == decks[..k];
    assert prefix[k] == decks[k];
  }

  /** Every deck lands in exactly one bucket. */
  lemma {:induction false} TallyTotal(p1: string, p2: string, decks: seq<Deck>)
    requires Distinguishable(p1, p2)
    ensures TallyOf(p1, p2, decks).Total() == |decks|
    decreases |decks|
  {
    if |decks| > 0 {
      TallyTotal(p1, p2, decks[..|decks| - 1]);
      var t := Play(p1, p2, decks[|decks| - 1]);
      OutcomeMeaning(t.p1, t.p2);
    }
  }

  /** The last element of a concatenation and what comes before it. */
  lemma AppendParts<T>(a: seq<T>, b: seq<T>)
    requires |b| > 0
    ensures (a + b)[..|a + b| - 1] == a + b[..|b| - 1]
    ensures (a + b)[|a + b| - 1] == b[|b| - 1]
  {
  }

  /** The defining step of the tally, for a non-empty list. */
  lemma TallyLast(p1: string, p2: string, decks: seq<Deck>)
    requires Distinguishable(p1, p2) && |decks| > 0
    ensures TallyOf(p1, p2, decks) == TallyOf(p1, p2, decks[..|decks| - 1]).Plus(DeckOutcome(p1, p2, decks[|decks| - 1]))
  {
  }

  /** Peeling the last deck off a concatenation. */
  lemma AppendStep(p1: string, p2: string, a: seq<Deck>, b: seq<Deck>)
    requires Distinguishable(p1, p2) && |b| > 0
    ensures TallyOf(p1, p2, a + b) == TallyOf(p1, p2, a + b[..|b| - 1]).Plus(DeckOutcome(p1, p2, b[|b| - 1]))
  {
    AppendParts(a, b);
    TallyLast(p1, p2, a + b);
  }

  /** The tally of two deck lists one after the other is the sum of
      their tallies. */
  lemma {:induction false} TallyAppend(p1: string, p2: string, a: seq<Deck>, b: seq<Deck>)
    requires Distinguishable(p1, p2)
    ensures TallyOf(p1, p2, a + b) == TallyOf(p1, p2, a).Plus(TallyOf(p1, p2, b))
    decreases |b|
  {
    if |b| > 0 {
      var b' := b[..|b| - 1];
      AppendStep(p1, p2, a, b);
      TallyAppend(p1, p2, a, b');
      PlusAssoc(TallyOf(p1, p2, a), TallyOf(p1, p2, b'), DeckOutcome(p1, p2, b[|b| - 1]));
    } else {
      assert a + b == a;
    }
  }

  /** Re-running over the decks beyond a watermark `n` and adding the
      result to the counts of the first `n` decks gives the counts of
      the whole list. */
  lemma IncrementalTally(p1: string, p2: string, decks: seq<Deck>, n: nat)
    requires Distinguishable(p1, p2) && n <= |decks|
    ensures TallyOf(p1, p2, decks[..n]).Plus(TallyOf(p1, p2, decks[n..])) == TallyOf(p1, p2, decks)
  {
    assert decks[..n] + decks[n..] == decks;
    TallyAppend(p1, p2, decks[..n], decks[n..]);
  }

  /** Swapping the players swaps the trick counts of one deck. */
  lemma PlaySymmetric(p1: string, p2: string, deck: Deck)
    requires Distinguishable(p1, p2)
    ensures Play(p2, p1, deck).p1 == Play(p1, p2, deck).p2
    ensures Play(p2, p1, deck).p2 == Play(p1, p2, deck).p1
  {
    TricksSymmetric(p1, p2, CardString(deck), 0);
  }

  /** Swapping the players swaps the bucket of one deck. */
  lemma DeckOutcomeSymmetric(p1: string, p2: string, deck: Deck)
    requires Distinguishable(p1, p2)
    ensures DeckOutcome(p2, p1, deck) == DeckOutcome(p1, p2, deck).Swap()
  {
    PlaySymmetric(p1, p2, deck);
    OutcomeSwap(Play(p1, p2, deck).p1, Play(p1, p2, deck).p2);
  }

  /** Swapping the players swaps the win counters of a whole matchup. */
  lemma {:induction false} TallySymmetric(p1: string, p2: string, decks: seq<Deck>)
    requires Distinguishable(p1, p2)
    ensures TallyOf(p2, p1, decks) == TallyOf(p1, p2, decks).Swap()
    decreases |decks|
  {
    if |decks| > 0 {
      TallySymmetric(p1, p2, decks[..|decks| - 1]);
      DeckOutcomeSymmetric(p1, p2, decks[|decks| - 1]);
      TallyLast(p1, p2, decks);
      TallyLast(p2, p1, decks);
      PlusSwap(TallyOf(p1, p2, decks[..|decks| - 1]), DeckOutcome(p1, p2, decks[|decks| - 1]));
    }
  }

  // ---------------------------------------------------------------------
  // The showdown table
  // ---------------------------------------------------------------------

  /** Every pair of different rows of the pattern table can be played. */
  lemma TablePairPlayable(i: nat, j: nat)
    requires i < |SEQUENCES| && j < |SEQUENCES| && i != j
    ensures Distinguishable(SEQUENCES[i], SEQUENCES[j])
  {
    SequencesShape();
    SequencesDistinct();
    DistinguishableIffDistinct(SEQUENCES[i], SEQUENCES[j]);
  }

  /** One showdown cell: blank (NaN) on the diagonal and before it is
      filled, otherwise the counters the percentages are computed from. */
  datatype Cell = Blank | Filled(counts: Counts)

  /** The cell for row `i` (player 1's pattern) and column `j`
      (player 2's pattern). */
  function ShowdownCell(decks: seq<Deck>, i: nat, j: nat): Cell
    requires i < |SEQUENCES| && j < |SEQUENCES|
  {
    if i == j then Blank
    else
      TablePairPlayable(i, j);
      Filled(TallyOf(SEQUENCES[i], SEQUENCES[j], decks))
  }

  /** A cell is blank exactly on the diagonal; off it, the total of its
      counters, the divisor of the percentages, is the number of decks,
      so the division fails exactly when there are no decks. */
  lemma ShowdownCellMeaning(decks: seq<Deck>, i: nat, j: nat)
    requires i < |SEQUENCES| && j < |SEQUENCES|
    ensures ShowdownCell(decks, i, j).Blank? <==> i == j
    ensures i != j ==> ShowdownCell(decks, i, j).counts.Total() == |decks|
  {
    if i != j {
      TablePairPlayable(i, j);
      TallyTotal(SEQUENCES[i], SEQUENCES[j], decks);
    }
  }

  /** `showdown` divides by a cell's total; with no decks that is zero. */
  datatype ShowdownError = ZeroDivision

  /** The simulator object: the decks it was loaded with and the two
      pattern tables. */
  class Penney {
    const decks: seq<Deck>
    const sequences: seq<string> := SEQUENCES
    const cards: seq<string> := CARD_SEQUENCES

    /** `decks` stands for what the deck generator loads from storage. */
    constructor (decks: seq<Deck>)
      ensures this.decks == decks
      ensures sequences == SEQUENCES && cards == CARD_SEQUENCES
    {
      this.decks := decks;
    }

    /** Penney's game on one deck: the trick counts of both players. */
    method Game(p1: string, p2: string, deck: Deck) returns (p1Tricks: nat, p2Tricks: nat)
      requires Distinguishable(p1, p2)
      ensures p1Tricks == Play(p1, p2, deck).p1 && p2Tricks == Play(p1, p2, deck).p2
    {
      var s := CardString(deck);
      p1Tricks, p2Tricks := 0, 0;
      var idx: nat := 0;
      ghost var total := TricksFrom(p1, p2, s, 0);
      while idx < |s|
        invariant p1Tricks + TricksFrom(p1, p2, s, idx).p1 == total.p1
        invariant p2Tricks + TricksFrom(p1, p2, s, idx).p2 == total.p2
        decreases |s| - idx
      {
        var p1Idx := IndexOrEnd(s, p1, idx);
        var p2Idx := IndexOrEnd(s, p2, idx);
        ScanStep(p1, p2, s, idx, p1Idx, p2Idx);

        if p1Idx == |s| && p2Idx == |s| {
          break;
        }

        if p1Idx < p2Idx {
          ScanP1Trick(p1, p2, s, idx, p1Idx, p2Idx);
          p1Tricks := p1Tricks + 1;
          idx := p1Idx + 3;
        } else if p1Idx > p2Idx {
          ScanP2Trick(p1, p2, s, idx, p1Idx, p2Idx);
          p2Tricks := p2Tricks + 1;
          idx := p2Idx + 3;
        } else {
          // the indices tie only when both are |s|, handled above
          assert false;
        }
      }
      if idx >= |s| {
        ScanEnd(p1, p2, s, idx);
      }
    }

    /** Penney's game over every deck of `decks`: how many player 1 won,
        how many player 2 won and how many were drawn. */
    method Matchup(p1: string, p2: string, decks: seq<Deck>) returns (p1Wins: nat, p2Wins: nat, draws: nat)
      requires Distinguishable(p1, p2)
      ensures Counts(p1Wins, p2Wins, draws) == TallyOf(p1, p2, decks)
    {
      p1Wins, p2Wins, draws := 0, 0, 0;
      for k := 0 to |decks|
        invariant Counts(p1Wins, p2Wins, draws) == TallyOf(p1, p2, decks[..k])
      {
        var p1Tricks, p2Tricks := Game(p1, p2, decks[k]);
        if p1Tricks > p2Tricks {
          p1Wins := p1Wins + 1;
        } else if p2Tricks > p1Tricks {
          p2Wins := p2Wins + 1;
        } else if p1Tricks == p2Tricks {
          draws := draws + 1;
        }
        TallyPrefix(p1, p2, decks, k);
      }
      assert decks[..|decks|] == decks;
    }

    /** One off-diagonal cell of the showdown: the matchup of row `i`'s
        pattern against column `j`'s over all decks, or the division by
        zero the percentages hit when there are no decks. */
    method MatchupCell(i: nat, j: nat) returns (r: Result<Cell, ShowdownError>)
      requires i < |SEQUENCES| && j < |SEQUENCES| && i != j
      ensures r.Failure? <==> |decks| == 0
      ensures r.Success? ==> r.value == ShowdownCell(decks, i, j)
    {
      TablePairPlayable(i, j);
      var p1Wins, p2Wins, draws := Matchup(sequences[i], sequences[j], decks);
      var totalGames := p1Wins + p2Wins + draws;
      ShowdownCellMeaning(decks, i, j);
      if totalGames == 0 {
        return Failure(ZeroDivision);
      }
      return Success(Filled(Counts(p1Wins, p2Wins, draws)));
    }

    /** Every ordered pair of the pattern table played over all decks,
        row `i` for player 1's pattern and column `j` for player 2's;
        the diagonal stays blank. Fails as the percentage division does
        when there are no decks. */
    method Showdown() returns (r: Result<array2<Cell>, ShowdownError>)
      ensures r.Failure? <==> |decks| == 0
      ensures r.Success? ==> fresh(r.value)
      ensures r.Success? ==> r.value.Length0 == |SEQUENCES| && r.value.Length1 == |SEQUENCES|
      ensures r.Success? ==> forall i, j :: 0 <= i < |SEQUENCES| && 0 <= j < |SEQUENCES| ==>
                               r.value[i, j] == ShowdownCell(decks, i, j)
    {
      var n := |sequences|;
      var table := new Cell[n, n];
      for i := 0 to n
        invariant i > 0 ==> |decks| > 0
        invariant forall a, b :: 0 <= a < i && 0 <= b < n ==> table[a, b] == ShowdownCell(decks, a, b)
      {
        for j := 0 to n
          invariant i > 0 || j > 1 ==> |decks| > 0
          invariant forall a, b :: 0 <= a < i && 0 <= b < n ==> table[a, b] == ShowdownCell(decks, a, b)
          invariant forall b :: 0 <= b < j ==> table[i, b] == ShowdownCell(decks, i, b)
        {
          if i == j {
            table[i, j] := Blank;
          } else {
            var cell := MatchupCell(i, j);
            if cell.Failure? {
              return Failure(cell.error);
            }
            table[i, j] := cell.value;
          }
        }
      }
      return Success(table);
    }

    /** The number of decks the last showdown figure was drawn from,
        read from the stem of its file name (`None` when there is no
        figure): the first run of digits, or 0 when there is none. */
    static function LastGame(stem: Option<string>): (r: nat)
      ensures stem.None? ==> r == 0
      ensures stem.Some? && !HasDigit(stem.value) ==> r == 0
      ensures stem.Some? && HasDigit(stem.value) ==>
                exists i: nat, j: nat :: FirstDigitRun(stem.value, i, j) && r == DigitsValue(stem.value[i..j])
    {
      match stem
      case None => 0
      case Some(name) =>
        match SearchDigits(name)
        case None => 0
        case Some(span) => DigitsValue(name[span.0..span.1])
    }
  }

  /** The stem of the figure file the heatmap saves for `n` decks. */
  function HeatmapStem(n: nat): string
  {
    "heatmap_" + ToDecimal(n)
  }

  /** Reading the stem the heatmap writes gives back its deck count. */
  lemma LastGameReadsHeatmapStem(n: nat)
    ensures Penney.LastGame(Some(HeatmapStem(n))) == n
  {
    var prefix, digits := "heatmap_", ToDecimal(n);
    var stem := prefix + digits;
    assert forall k :: 0 <= k < |prefix| ==> !IsDigit(prefix[k]);
    assert forall k :: 0 <= k < |prefix| ==> stem[k] == prefix[k];
    assert forall k :: |prefix| <= k < |stem| ==> stem[k] == digits[k - |prefix|];
    assert stem[|prefix|..|stem|] == digits;
    assert FirstDigitRun(stem, |prefix|, |stem|);
    assert IsDigit(stem[|prefix|]);
    var span := SearchDigits(stem).value;
    FirstDigitRunUnique(stem, span.0, span.1, |prefix|, |stem|);
  }
}
