# Hand ranking and deck engine of a five-card-draw poker variant

This Dafny project models the rules engine of a small browser poker game:

- the configurable rule set (`GameRules`: hand sizes, redraws, deck composition and the pattern predicates),
- the hand classifier (`PokerHand.evaluate` and its two word tables),
- the draw pile (`Deck`: reset, Fisher-Yates shuffle, deal, remaining).

Modules, one file each:

| file | module | models |
|---|---|---|
| `cards.dfy` | `Cards` | `Card` and `HandRank` records; the rank sum that throws past the end of the hand |
| `sorting.dfy` | `Sorting` | the stable descending in-place sort used for cards and for counts |
| `rules.dfy` | `Rules` | `js/GameRules.js` |
| `frequencies.dfy` | `Frequencies` | the rank-frequency list built inside `evaluate` |
| `poker_hand.dfy` | `PokerHand` | `js/PokerHand.js` |
| `deck.dfy` | `Decks` | `js/Deck.js` |
| `scenarios.dfy` | `Scenarios` | the repository's test cases, stated against the model |

Modelling choices:

- **Exceptions.** A JavaScript exception becomes an explicit `Outcome.Throws`. This happens when `_calculateRank` reads `.rank` from a card past the end of the hand. The predicates that can throw (`IsFullHouse`, `GetNOfAKind`, `IsNTuples`) and the classifier return `Outcome`. So the crash on empty and one-card hands is part of the model, not a precondition.
- **Missing frequencies.** A frequency list index past the end reads `undefined` in JavaScript. Every comparison with it is false, and the model writes these guards out (`k < |f|`, `2 <= |f|`).
- **Play-size arithmetic.** `Math.ceil(p / 2)` and `Math.floor(p / 2)` on the natural play size are `(p + 1) / 2` and `p / 2`.
- **The two sorts.** Both in-place sorts (cards by rank, counts by value) are one stable insertion sort on an `array`. It is specified by the function `InsertionSorted`. A stable sort's result is unique, so any stable sort gives the same order.
- **Dictionary order.** The rank dictionary is a `map`. Its values are taken out one key at a time in an unspecified order (`:|`). The frequency list is proved to be the same whatever that order is.
- **Shuffle randomness.** `Math.floor(randomFn() * (i + 1))` becomes a supplied sequence of draws. The draw of each step is an integer between 0 and that step's position.
- **Cards are values.** `new Card(...)` copies are equal values, and `reset`/`deal` give the deck a fresh array.

Two behaviours of the code as written are kept and proved here:

- `isNTuples` does not return the `(false, 0, 0)` sentinel when it fails. It returns the rank sum of the top two cards with value 1.
- At small play sizes the generalised full-house condition also accepts hands that are not full houses (`HighCardLabel`, `TwoCardFullHouse`, `SmallPlaySizeFullHouses`):
  - at play size 2 or 0, any hand of two or more cards of pairwise different ranks, so such a hand is never "High Card";
  - at play size 2, a two-pair hand with counts [2, 2, 1];
  - at play size 1, a pair and a single, counts [2, 1].

## Model

| member | source | states |
|---|---|---|
| Cards.TopRankSumStep | js/GameRules.js:143-145 | while the hand lasts, the rank sum of the first n + 1 cards is that of the first n plus the rank of card n |
| Cards.SumRanksAppend | js/GameRules.js:143-145 | the rank sum of two concatenated hands is the sum of their rank sums |
| Sorting.SortDescending | js/PokerHand.js:3 | the array ends up equal to the stable descending insertion sort of its old contents |
| Sorting.InsertNext | js/PokerHand.js:3 | one insertion step moves a[i] left past the smaller keys; the prefix becomes the sorted insertion and the suffix is unchanged |
| Sorting.SortedIsPermutation | js/PokerHand.js:3 | the sort keeps exactly the same elements with the same multiplicities |
| Sorting.SortedIsOrdered | js/PokerHand.js:3 | every element's key is at least that of every later element after the sort |
| Sorting.SortedIsFixed | js/PokerHand.js:3 | sorting an already sorted hand leaves it unchanged |
| Sorting.SortedUnique | js/PokerHand.js:9 | two descending number lists with the same multiset are equal, so the count order does not depend on the order of the counts |
| Rules.StandardDeck | js/GameRules.js:20-33 | the default deck has 52 cards |
| Rules.GameRules.constructor | js/GameRules.js:13-18 | the defaults are hand size 5, play size 5 and 1 redraw; the deck is the standard deck and its size is 52 |
| Rules.GameRules.BuildDeckCards | js/GameRules.js:20-33 | the nested suit and rank loops build exactly the standard deck, suit by suit with ranks ascending |
| Rules.StandardDeckAt | js/GameRules.js:26-30 | the card of suit index si and rank index ri is at position 13 * si + ri |
| Rules.StandardDeckExactlyOnce | js/GameRules.js:20-33 | no two positions of the default deck hold the same card, and a card is in it exactly when its rank is 2..14 and its suit one of the four |
| Rules.GameRules.AppendCards | js-tests/GameRules.test.mjs:49-63 | pushing any cards, duplicates included, appends them in order after the configured ones and grows the deck size by exactly their number; the other settings are unchanged |
| Rules.GameRules.DeckSize | js/GameRules.js:45-47 | the deck size is the number of configured cards; the constructor's, `AppendCards`'s and `Deck.constructor`'s contracts pin its value |
| Rules.GameRules.DeckCards | js/GameRules.js:35-43 | the copy holds the configured cards in the same order |
| Rules.GameRules.IsFlush | js/GameRules.js:52-66 | matches exactly when the hand has the play size and one suit; on a match the rank is the sum of all ranks and the value the length; otherwise (false, 0, 0) |
| Rules.GameRules.IsStraight | js/GameRules.js:68-85 | matches exactly when the hand has the play size and each rank is one below the previous (no ace-low case); on a match the rank sum and length; otherwise (false, 0, 0) |
| Rules.StepsFormRun | js/GameRules.js:71-74 | neighbouring steps of one are the same as the ranks running down from the first card |
| Rules.GameRules.IsFullHouse | js/GameRules.js:87-108 | without the ceil/floor/parity condition: (false, 0, 0); with it: value f[0] + f[1] and rank the sum of that many top ranks, throwing exactly when the hand is shorter; a match has a value of at least the play size and of its parity; it never throws on a list that fits the hand |
| Rules.FullHouseFillsHand | js/GameRules.js:91-95 | for a hand of at most p cards, the condition holds exactly when the hand has p cards with leading groups ceil(p/2) and floor(p/2) |
| Rules.GameRules.GetNOfAKind | js/GameRules.js:110-120 | matches exactly when the entry at the index exists and exceeds 1; then value is that entry and rank the sum of that many top ranks, throwing exactly when the hand is shorter; otherwise (false, 0, 0) |
| Rules.GameRules.IsNTuples | js/GameRules.js:122-138 | throws for hands under two cards (never otherwise on a list that fits); matches exactly when f[0] > 1; value 2 exactly for two pairs, else 1; rank the sum of the top 4 or top 2 ranks, also when it does not match |
| Rules.GameRules.CalculateRank | js/GameRules.js:141-147 | the accumulating loop returns the rank sum of the first n cards, or throws when it reaches past the end |
| Frequencies.RankFrequencies | js/PokerHand.js:5-12 | the counting, listing, sorting and padding produce exactly the frequency table of the hand |
| Frequencies.CountRanks | js/PokerHand.js:5-8 | the dictionary has one key per rank present, mapped to its number of cards |
| Frequencies.ListCounts | js/PokerHand.js:9 | the listed values, taken in any key order, are the counts of the distinct ranks |
| Frequencies.EnumerationsAgree | js/PokerHand.js:9 | two enumerations of the same distinct ranks give the same multiset of counts |
| Frequencies.RankSetMembers | js/PokerHand.js:6-8 | a rank is present exactly when some card has it, exactly when its count is positive |
| Frequencies.DistinctRanksEnumerates | js/PokerHand.js:5-8 | the distinct ranks list has no repetition and holds exactly the ranks present |
| Frequencies.CountsAtSum | js/PokerHand.js:5-8 | the counts of distinct ranks covering the hand sum to the number of cards |
| Frequencies.CountAtLeastTwo | js/PokerHand.js:6-8 | a count of two or more is the same as two cards of that rank |
| Frequencies.FrequencyTableSorted | js/PokerHand.js:9-12 | the frequency list is sorted largest first |
| Frequencies.FrequencyTableEntries | js/PokerHand.js:5-12 | before padding, the list is a permutation of the counts of each distinct rank; the padding is exactly one 0, added exactly when there are fewer than two distinct ranks; no other entry is 0 |
| Frequencies.FrequencyTableSum | js/PokerHand.js:5-12 | the entries sum to the number of cards |
| Frequencies.FrequencyTableLength | js/PokerHand.js:10-12 | a non-empty hand has at least two entries; the empty hand has just the padding 0 |
| Frequencies.FrequencyTableFits | js/PokerHand.js:5-12 | no entry, and no two leading entries together, exceed the hand size |
| Frequencies.FrequencyTableMaximum | js/PokerHand.js:5-9 | the first entry is the largest count of any rank and the count of a rank the hand holds |
| Frequencies.TopFrequencyDistinct | js/PokerHand.js:5-9 | in a non-empty hand the first entry is at least 1, and at most 1 exactly when all ranks differ |
| Frequencies.DistinctLeadingFrequencies | js/PokerHand.js:5-12 | two or more cards of pairwise different ranks give first and second entries 1 and 1 |
| PokerHand.TupleWordsDefined | js/PokerHand.js:51-63 | `StringifyNumberOfTuples(n)`, the tuple word, is "undefined" exactly outside 2..9; it is "Two" exactly for 2, giving "Two Pair" |
| PokerHand.NOfAKindLabels | js/PokerHand.js:65-80 | `StringifyNOfAKind(n)` is "Pair" exactly for 2, "Three of a Kind" exactly for 3, "Four of a Kind" exactly for 4, "undefined of a Kind" exactly outside 2..12; never one of the fixed labels |
| PokerHand.Classify | js/PokerHand.js:17-21 | on any frequency list that fits the hand, the classification throws exactly when the hand has fewer than two cards; in general it throws exactly when the full-house, n-of-a-kind or tuple predicate throws |
| PokerHand.Evaluate | js/PokerHand.js:2-49 | the caller's array becomes its stable rank-descending sort, a permutation of the input; the result is the classification of the sorted hand with its own frequency list |
| PokerHand.HandTableHolds | js/PokerHand.js:5-12 | for two or more cards: the hand's frequency list has at least two entries and fits the hand; its first entry is at least 1, and at most 1 exactly when all ranks differ; the second entry is 1 when all ranks differ |
| PokerHand.TableComponents | js/PokerHand.js:17-48 | on such a list nothing throws; the full house matches exactly under its condition, n of a kind and the tuple predicate exactly when f[0] > 1; the classification is the priority chain `Label` over the five results |
| PokerHand.RunHasDistinctRanks | js/GameRules.js:71-74 | a run down by one never repeats a rank |
| PokerHand.ThrowsIffShort | js/GameRules.js:131-135 | the classification of a hand with its own frequency list throws exactly when it has fewer than two cards |
| PokerHand.StraightFlushWins | js/PokerHand.js:23-25 | "Straight Flush" exactly when the hand is both a flush and a straight |
| PokerHand.FourOfAKindFirst | js/PokerHand.js:26-28 | "Four of a Kind" exactly when the first frequency is 4, ahead of full house, flush and straight |
| PokerHand.FullHouseLabel | js/PokerHand.js:29-31 | "Full House" exactly when the full-house condition holds, the first frequency is not 4 and it is not a straight flush |
| PokerHand.FlushLabel | js/PokerHand.js:32-34 | "Flush" exactly for a flush that is not a straight, not four of a kind and not a full house |
| PokerHand.StraightLabel | js/PokerHand.js:35-37 | "Straight" exactly for a straight that is not a flush and not a full house |
| PokerHand.ThreeOfAKindLabel | js/PokerHand.js:38-40 | "Three of a Kind" exactly when the first frequency is 3 with no full house, flush or straight |
| PokerHand.TwoPairLabel | js/PokerHand.js:41-44 | "Two Pair" exactly when the first two frequencies are 2 and 2 with no full house, flush or straight |
| PokerHand.SingleTupleLabel | js/PokerHand.js:44-46 | a single tuple of size 2 or at least 5 is labelled by its size; "Pair" exactly for a single pair with no earlier pattern |
| PokerHand.HighCardLabel | js/PokerHand.js:48 | "High Card" exactly when all ranks differ, there is no flush and no straight, and the play size is neither 0 nor 2 |
| Decks.Deck.constructor | js/Deck.js:6-10 | a new deck keeps its rules and holds a fresh copy of their cards in order, as many as the deck size |
| Decks.Deck.Reset | js/Deck.js:12-14 | the pile becomes a fresh copy of the configured cards in order, as many as the deck size |
| Decks.Deck.Shuffle | js/Deck.js:16-21 | the array ends in the order the Fisher-Yates steps with the given draws produce; the same draws always give the same order |
| Decks.ShufflePermutes | js/Deck.js:16-21 | a shuffle keeps the length and every card with its multiplicity |
| Decks.SwapPermutes | js/Deck.js:20 | one exchange keeps the length and the multiset of cards |
| Decks.Deck.Remaining | js/Deck.js:27-29 | the number of cards left in the pile; the contracts of `Deck.constructor`, `Deck.Reset` and `Deck.Deal` pin its value |
| Decks.Deck.Deal | js/Deck.js:23-25 | the dealt cards are the first min(n, remaining) cards in order, the pile keeps the rest in order, and the remaining count drops by that many |
| Decks.ZeroDrawsRotate | js/Deck.js:16-21 | with every random number 0 the first card moves to the back and the others one place forward |
| Decks.ZeroDrawsFrom | js/Deck.js:17-20 | the all-zero steps from position m down finish the rotation |
| Decks.ZeroDrawsFixture | js-tests/Deck.test.mjs:55-68 | the three-card fixture [a, b, c] shuffled with zeros becomes [b, c, a], equal to the original exactly when all three cards are equal |
| Scenarios.FlushCases | js-tests/GameRules.test.mjs:68-110 | four cards and two suits do not match; the five-card flush matches with rank 15 and value 5 |
| Scenarios.SevenCardFlush | js-tests/GameRules.test.mjs:112-131 | with play size 7 the seven-card flush has rank 32 and value 7 |
| Scenarios.StraightCases | js-tests/GameRules.test.mjs:134-185 | four cards and a gap do not match; the five-card straight has rank 15 and value 5 |
| Scenarios.SevenCardStraight | js-tests/GameRules.test.mjs:187-208 | with play size 7 the seven-card straight has rank 28 and value 7 |
| Scenarios.FullHouseCases | js-tests/GameRules.test.mjs:212-282 | [2,2], [2,2,1], [2,3] and [3,1,1] do not match; three and two give rank 13 and value 5 |
| Scenarios.LargerFullHouses | js-tests/GameRules.test.mjs:284-323 | 3 and 3 with play size 6 give rank 15 and value 6; 4 and 3 with play size 7 give rank 18 and value 7 |
| Scenarios.RunSum | js-tests/GameRules.test.mjs:95-110 | twice the rank sum of a run of count cards from top is count * (2 * top - count + 1) |
| Scenarios.RunIsStraightFlush | js/PokerHand.js:23-25 | a one-suit run as long as the play size (two or more cards) is already sorted and labelled "Straight Flush" |
| Scenarios.ShortHandsThrow | js/GameRules.js:131-135 | classifying a one-card or empty hand throws |
| Scenarios.SmallPlaySizeFullHouses | js/GameRules.js:87-108 | at play size 2 the two-pair counts [2, 2, 1] match as a full house of value 4; at play size 1 the counts [2, 1] match with value 3 |
| Scenarios.TwoCardFullHouse | js/GameRules.js:87-108 | with play size 2, two cards of different ranks and suits are labelled "Full House" |
| Scenarios.EvaluateStraightFlush | js/PokerHand.js:2-25 | evaluating the five-card run of one suit under the default rules leaves it in order and gives "Straight Flush" |
| Scenarios.DealAndReset | js-tests/Deck.test.mjs:14-99 | a new deck over the fixture holds it in order; dealing 2 deals the first two and leaves the third; a reset restores the fixture |
| Scenarios.ShuffleFixture | js-tests/Deck.test.mjs:55-83 | shuffling the fixture with zeros changes its order, and two decks shuffled alike end equal |
| Scenarios.GrowDeck | js-tests/GameRules.test.mjs:49-63 | appending cards, duplicates included, grows the deck size from 52 by one per card |

## Left out

- `console.log` in `evaluate` is output only and is not modelled.
- `Math.random` is not modelled. The random function is not stored in the deck: `Shuffle` takes the draws, one integer per step, with each draw between 0 and the step's position. That is the range `Math.floor(r * (i + 1))` has for `0 <= r < 1`. Floating point is not modelled.
- `Deck.Deal` and `Deck.Reset` give the deck a new array, where JavaScript reuses or replaces one array object. Nothing outside the deck holds its array, so object identity is not modelled.
- `Rules.GameRules.CalculateRank` drops the `cardFrequencies` parameter, which `_calculateRank` never reads.
- The sizes `handSize`, `playHandSize` and `redrawsAvailable` are natural numbers. Negative or fractional sizes are not modelled.
- `Card` ranks are integers and suits are strings. The object-key conversion of ranks in `rankCounts` is not modelled, because equal integer ranks give equal keys.
- `js/game.js` (DOM, buttons, animations, card replacement, the evaluate-button condition) is not part of this model.
- `js/GameUI.js` (event wiring) is not part of this model.
- `Card.getBackgroundPosition` is not part of this model: it formats sprite offsets from constants that are not part of this model either.
- `Rules.GameRules.DeckCards`: copies are equal values, so "a fresh array of fresh cards" is stated only as an equal sequence.
- The classification lemmas (`PokerHand.StraightFlushWins` … `PokerHand.HighCardLabel`) are stated for any frequency list with the properties of `PokerHand.HandTable`. `PokerHand.HandTableHolds` proves these properties for the hand's own list.
