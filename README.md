# Penney's game simulator, modelled in Dafny

This project models the simulation core of the Penney's-game project
(`ProjectPenney/src/penney.py`) and the fixed pattern tables it runs over
(`ProjectPenney/src/helpers.py`).

- **One game** (`Penney.game`). A deck of red (0) and black (1) cards is
  joined into a string of `'0'`/`'1'`. Two players each pick a
  three-card pattern. The scan looks for the first occurrence of each
  pattern at or after the current position. The pattern found strictly
  earlier wins a trick, and the scan jumps to three cards after that
  occurrence. The game ends when neither pattern occurs again.
- **One matchup** (`Penney.matchup`). One pattern pair is played over
  every deck. Each deck counts once, as a player-1 win, a player-2 win
  or a draw.
- **The showdown** (`Penney.showdown`). Every ordered pair of distinct
  patterns from the 8-entry table is played, filling an 8 x 8 table
  whose diagonal stays blank.
- **Reading back the deck count** (`Penney.last_game`). The number of
  decks behind the last figure is read from the figure's file-name stem
  as its first run of digits, or 0.

Modules:

- `Wrappers` (`wrappers.dfy`): `Option` and `Result`.
- `PyStr` (`pystr.dfy`): the Python built-ins the core relies on, stated
  over `string`. These are `str.index` (`Find`, with `None` for the
  `ValueError`), `re.search(r'\d+', …)` (`SearchDigits`), `int(…)` on a
  digit string (`DigitsValue`) and `str(…)` on a natural number
  (`ToDecimal`).
- `Helpers` (`helpers.dfy`): the `SEQUENCES` and `CARD_SEQUENCES`
  tables and their properties.
- `Penney` (`penney.dfy`):
  - the specification functions for one game: `NextStep` for one pass
    of the loop, `TricksFrom` and `Play` for the whole scan;
  - the tally: `Outcome`, `DeckOutcome`, `TallyOf`;
  - the showdown cell: `ShowdownCell`;
  - the class `Penney`. Its methods `Game`, `Matchup` and `Showdown` are
    the loops of the source, each proved against those functions. It
    also holds the static function `LastGame`.

A deck is a `seq<Bit>` with `Bit` either 0 or 1. `CardString` turns it
into the string the scan works on, as `''.join(deck.astype(str))` does.

Two points where the code's callers suggest more than the code does:

- The driver promises a re-run "over the unscored decks"
  (ProjectPenney/main.py:18). The second driver skips the showdown when
  `last_game()` equals the deck count (ProjectPenney/game.py:10).
  `showdown` itself recomputes every matchup over all of `self.decks`
  (penney.py:106), and `Showdown` does the same. `IncrementalTally`
  proves the additivity that a re-run over only the new decks would
  need.
- `last_game` is written without a `self` parameter (penney.py:145), so
  it could not be called on an instance. It is modelled as the static
  function `Penney.LastGame`, which takes the stem of the first figure
  file, or `None` when there is none.

## Model

| member | source | states |
|---|---|---|
| PyStr.FindMeaning | ProjectPenney/src/penney.py:47-54 | `deck.index(p, idx)` (modelled by `Find`) returns the first position at or after `idx` where `p` occurs, and the `ValueError` case (`None`) happens exactly when `p` does not occur from `idx` on |
| Penney.IndexOrEndRange | ProjectPenney/src/penney.py:47-54 | the index taken from `index`, or `len(deck)` when it raises, lies between `idx` and `len(deck)`, and a found occurrence fits inside the deck |
| Penney.CardStringMeaning | ProjectPenney/src/penney.py:42 | `''.join(deck.astype(str))` has one character per card, `'0'` for a red card and `'1'` for a black one, in deck order |
| Penney.IndexOrEndMeaning | ProjectPenney/src/penney.py:47-54 | inside the loop the index `IndexOrEnd` takes is below `len(deck)` exactly when the pattern occurs from `idx` on, and then it is that pattern's first occurrence from `idx` |
| Penney.FoundBeforeEnd | ProjectPenney/src/penney.py:46-54 | inside the loop (`idx < len(deck)`) a found index is below `len(deck)`, so `len(deck)` safely marks "not found" |
| Penney.NextStep | ProjectPenney/src/penney.py:46-64 | one pass of the loop moves the scan at least three cards on when a trick is taken, and can only stall (leave `idx` unchanged forever) when the patterns are not distinguishable |
| Penney.StepMeaning | ProjectPenney/src/penney.py:47-64 | the loop stops exactly when `idx` has reached the end or neither pattern occurs from `idx` on; a trick goes to the pattern whose first occurrence from `idx` comes strictly first, where the other pattern is absent up to and including that index, and the scan resumes at that index + 3 |
| Penney.IdenticalPatternsStall | ProjectPenney/src/penney.py:46-64 | with the same pattern for both players, a pass stalls exactly when the pattern still occurs, so `game` does not terminate on such input |
| Penney.DistinguishableIffDistinct | ProjectPenney/src/penney.py:56-64 | for patterns of equal length, the condition under which the loop never stalls is exactly `p1 != p2` |
| Penney.SharedStartMeansPrefix | ProjectPenney/src/penney.py:59-64 | if both patterns are found at the same index, one is a prefix of the other |
| Penney.ScanStep | ProjectPenney/src/penney.py:47-57 | both indices are at least `idx`; when both searches miss, no further trick is played; the two indices tie only when both searches miss |
| Penney.ScanP1Trick | ProjectPenney/src/penney.py:59-61 | proof step of `Game`'s loop, one unfolding of `TricksFrom`: in the player-1 branch the counts from `idx` are one player-1 trick plus those from that index + 3 |
| Penney.ScanP2Trick | ProjectPenney/src/penney.py:62-64 | proof step of `Game`'s loop, one unfolding of `TricksFrom`: in the player-2 branch the counts from `idx` are one player-2 trick plus those from that index + 3 |
| Penney.ScanEnd | ProjectPenney/src/penney.py:46 | proof step of `Game`'s loop, one unfolding of `TricksFrom`: once `idx` is at or past the end, no trick is played |
| Penney.Penney.Game | ProjectPenney/src/penney.py:24-67 | the `while` loop returns exactly the trick counts of the scan `Play` defines, for any two distinguishable patterns and any deck; the loop terminates |
| Penney.StepSwap | ProjectPenney/src/penney.py:59-64 | proof step of `TricksSymmetric`, one unfolding of `NextStep`: swapping the players swaps the winner of a pass and keeps the resume position |
| Penney.TricksSymmetric | ProjectPenney/src/penney.py:46-67 | swapping the players swaps the two trick counts of the scan from any position |
| Penney.PlaySymmetric | ProjectPenney/src/penney.py:42-67 | `game(p2, p1, d)` is `game(p1, p2, d)` with the two counts swapped |
| Penney.TricksBound | ProjectPenney/src/penney.py:47-64 | with patterns of at least three cards, every trick uses at least three cards that no other trick uses, so `3 * (p1_tricks + p2_tricks) <= len(deck) - idx` |
| Penney.NoTricksIffAbsent | ProjectPenney/src/penney.py:49-57 | the game from `idx` yields `(0, 0)` exactly when `idx` has reached the end or neither pattern occurs from `idx` on |
| Penney.WorkedExample | ProjectPenney/src/penney.py:42-67 | deck 0,0,1,0,1,1 with patterns `001` and `011`: player 1 wins at 0, the scan moves to 3, player 2 wins at 3, the scan moves to 6 and stops; the result is `(1, 1)` |
| Penney.OutcomeMeaning | ProjectPenney/src/penney.py:84-89 | each deck adds exactly one count: a player-1 win exactly when player 1 has more tricks, a player-2 win exactly when player 2 has more, and a draw exactly when the counts are equal (a 0-0 game included) |
| Penney.OutcomeSwap | ProjectPenney/src/penney.py:84-89 | swapping the trick counts swaps the two win buckets and keeps the draw bucket |
| Penney.Penney.Matchup | ProjectPenney/src/penney.py:70-91 | the `for` loop returns exactly the win/win/draw counters `TallyOf` defines over the deck list |
| Penney.TallyPrefix | ProjectPenney/src/penney.py:82-89 | one more deck in the loop adds that deck's bucket to the counters |
| Penney.TallyTotal | ProjectPenney/src/penney.py:82-91 | `p1_wins + p2_wins + draws == len(decks)`: every deck lands in exactly one bucket |
| Penney.TallyAppend | ProjectPenney/src/penney.py:78-91 | the counters of two deck lists one after the other are the component-wise sum of their counters |
| Penney.IncrementalTally | ProjectPenney/src/penney.py:78-91 | the counters of the first `n` decks plus those of the decks after them are the counters of the whole list |
| Penney.DeckOutcomeSymmetric | ProjectPenney/src/penney.py:83-89 | swapping the players swaps the win bucket a single deck falls into |
| Penney.TallySymmetric | ProjectPenney/src/penney.py:78-91 | `matchup(p2, p1, ds)` is `matchup(p1, p2, ds)` with the two win counters swapped and the draws unchanged |
| Penney.TablePairPlayable | ProjectPenney/src/penney.py:100-106 | every off-diagonal pair of the pattern table satisfies `game`'s precondition |
| Penney.ShowdownCellMeaning | ProjectPenney/src/penney.py:102-109 | a showdown cell is blank exactly on the diagonal; off the diagonal its counter total, the divisor of the percentages, equals the number of decks |
| Penney.Penney.MatchupCell | ProjectPenney/src/penney.py:106-110 | an off-diagonal cell holds the matchup counters of its row pattern against its column pattern, and the percentage division fails (division by zero) exactly when there are no decks |
| Penney.Penney.Showdown | ProjectPenney/src/penney.py:94-115 | the nested loops return a fresh 8 x 8 table whose every cell is the cell `ShowdownCell` defines (blank on the diagonal, the matchup counters elsewhere), or fail exactly when there are no decks |
| Penney.Penney.LastGame | ProjectPenney/src/penney.py:145-155 | 0 when there is no figure file or the stem has no digit; otherwise the integer value of the leftmost maximal run of digits in the stem |
| Penney.LastGameReadsHeatmapStem | ProjectPenney/src/penney.py:140-155 | reading the stem `heatmap_<n>` that `heatmap` saves for `n` decks gives back `n` |
| PyStr.SearchDigits | ProjectPenney/src/penney.py:151-152 | `re.search(r'\d+', stem)` finds nothing exactly when the stem has no digit, and otherwise matches the leftmost maximal digit run |
| PyStr.FirstDigitRunUnique | ProjectPenney/src/penney.py:151-153 | a string has only one leftmost maximal digit run, so the value `last_game` returns is determined by the stem |
| PyStr.ToDecimal | ProjectPenney/src/penney.py:140 | `str(len(self.decks))` is a non-empty canonical decimal numeral (no leading zero) that `int` reads back as the same number |
| PyStr.DecimalRoundTrip | ProjectPenney/src/penney.py:140-153 | `DigitsValue`, Python's `int` on a digit string, inverts `ToDecimal` on every canonical numeral: `str(int(ds)) == ds` |
| Penney.Penney.constructor | ProjectPenney/src/penney.py:16-21 | the simulator holds the decks it was given and the two tables `SEQUENCES` and `CARD_SEQUENCES` |
| Helpers.SequencesShape | ProjectPenney/src/helpers.py:34-41 | `SEQUENCES` has 8 entries, each three characters long and made only of `'0'` and `'1'` |
| Helpers.SequencesDistinct | ProjectPenney/src/helpers.py:34-41 | the 8 entries are pairwise distinct |
| Helpers.SequencesComplete | ProjectPenney/src/helpers.py:34-41 | every binary word of length 3 is in `SEQUENCES`, so the table holds all 2^3 patterns |
| Helpers.CardLabel | ProjectPenney/src/helpers.py:43-52 | a display label is empty for the empty word and otherwise has length `2 * len(w) - 1`, with one colour letter per card (`R` for `'0'`, `B` for `'1'`) at the even positions and single spaces at the odd positions |
| Helpers.CardLabelRoundTrip | ProjectPenney/src/helpers.py:43-52 | the display label of a binary pattern determines the pattern |
| Helpers.CardSequencesAreLabels | ProjectPenney/src/helpers.py:34-52 | `CARD_SEQUENCES[i]` is the display label of `SEQUENCES[i]` for every row |

## Left out

- The win and draw percentages of `showdown` (penney.py:108-111) are left out: float division and `round`. The model keeps the integer counters the percentages come from. It also keeps the division by zero an empty deck list causes, as the `ZeroDivision` failure.
- The string table `str_df` of `showdown` (penney.py:99, 104, 111) is left out. It only formats those percentages.
- `heatmap` (penney.py:117-143) is left out: plotting, deleting files and saving a figure. Only the file name it saves (penney.py:140) is modelled, as `HeatmapStem`.
- The file-system lookup in `last_game` (penney.py:146-148) is left out. `LastGame` takes the stem of the first figure file, or `None` when there is none.
- Loading the decks through the deck generator (penney.py:9-10, 18) is left out: it is seeded random generation and storage. The constructor takes the decks as a parameter.
- The `debugger_factory` timing and printing decorator (helpers.py:13-31) is left out: it uses the clock and the console.
- `Penney.Penney.Game`: requires that neither pattern is a prefix of the other. For the game's three-card patterns this is exactly `p1 != p2`. The requires also excludes runs that the source does finish. With identical patterns the source ends, returning `(0, 0)`, on every deck where the pattern never occurs: both `index` calls raise and the `break` (penney.py:56-57) fires. With patterns of different lengths, one a prefix of the other, the source can still end on decks where the two never meet at one index. The model does not cover those runs. No caller passes such a pair, because `showdown` skips `i == j` (penney.py:102).
- `Penney.TricksBound`: stated for patterns of at least three cards. The source advances by a fixed 3 (penney.py:61, 64), so shorter patterns could place a trick's start within the last two cards.
- `PyStr.SearchDigits`: matches the ASCII digits `0`-`9` only. Python's `\d` also matches other Unicode decimal digits.
- `PyStr.DigitsValue` and `PyStr.ToDecimal` use unbounded naturals, as Python's `int` does.
