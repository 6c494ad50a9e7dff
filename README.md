# Bid-whist rules engine in Dafny

This project models the rules engine of a four-player bid-whist game, `cardgame.js`. It covers:

- the 54-card deck: building it, the Fisher-Yates shuffle, and dealing from the top;
- trick resolution: the left-to-right scan of `Trick.getWinner`, with its joker and trump precedence;
- suit-following: `Player.isValidSelection`;
- the display order of a hand: `Player.sortHand`;
- the bookkeeping classes `Trick`, `Player` and `Team`.

Modules, one per component of the file:

- `Cards` (`cards.dfy`): ranks, suits and cards. `RankIndex` is `ranks.indexOf`. A `Result` type stands for operations that throw.
- `Decks` (`decks.dfy`): `StandardDeck` describes what `initializeDeck` appends. `ShuffledFrom` and `Shuffled` describe the shuffle loop. The class `Deck` has the three operations.
- `Tricks` (`tricks.dfy`): `Step` is one iteration of the `getWinner` loop. `Scan` is the running winner over a prefix of the plays. `WinningPlay` is the winner of a whole trick. The lemmas state who wins.
- `Hands` (`hands.dfy`): `IsValidSelection`, the removal of a played card (`RemoveAt`), the per-suit rank sort (`SortByRank`), and `Arrange`, one order `sortHand` can produce. The lemmas cover suit-following, permutation, grouping and rank order.
- `Table` (`table.dfy`): the classes `Trick`, `Player` and `Team`.
  - Each JavaScript array the source mutates is a `seq` field that the methods reassign.
  - `Trick.GetWinner` keeps the source's loop, and it is proved against the functions above.
  - The bucket loop of `sortHand` is the method `Hands.Bucket`, which `Player.SortHand` calls.

Modelling choices:

- Ranks and suits are enumerations.
- The string `'Trump'` that jokers are created with is `Suit.TrumpPlaceholder`.
- `rank.includes('Joker')` is `IsJoker`.
- A trump suit that no natural card has (the source's automated trump choice returns `0`) behaves like "no trump": only jokers can beat the led suit.
- `Math.random` in `shuffle` becomes the parameter `picks`. `picks[i]` is the index drawn at step `i`, and it lies in `[0, i]`.
- `getWinner` on an empty trick throws in the source, because it dereferences `this.pcps[0]`. The model returns `Err(EmptyTrick)` instead.
- `dealCard` on an empty deck returns `Err(EmptyDeck)`.

Where the code departs from common bid-whist rules or from its own comments, the model follows the code:

- Unlike the usual bid-whist rule, jokers are not exempt from suit-following. A joker keeps its suit field (`'Trump'` until some caller overwrites it). `isValidSelection` compares that field like any other suit, so a joker cannot be played while the hand can follow the led suit.
- `sortHand` puts Hearts, Clubs, Diamonds, Spades, then the rest (cardgame.js:174). The comment at cardgame.js:137-142 gives a different order.
- Each suit is sorted with the comparator `a.rank - b.rank` (cardgame.js:163-166). The ranks are strings, so the difference is a number only between '2' and '10'; a face card gives `NaN`. A suit of number cards only is therefore sorted ascending, and `SortHand` promises that. For a suit holding a face card the comparator is inconsistent and JavaScript leaves the order to the implementation (see "Left out").
- `getWinner` scans all plays, the first one included. When two Big Jokers are in one trick (impossible with one deck), the LAST one wins. Without a Big Joker, the FIRST Little Joker wins.

## Model

| member | source | states |
|---|---|---|
| `Cards.RankIndex` | cardgame.js:5 | the rank order is the position in `ranks`; jokers get -1, like `indexOf`, and every other rank gets its index |
| `Decks.StandardDeck` | cardgame.js:30-39 | the defining function of the cards `initializeDeck` appends; it has 54 cards, and `StandardDeckPositions`, `StandardDeckAt` and `StandardDeckMembers` state the rest |
| `Decks.StandardDeckPositions` | cardgame.js:30-39 | the appended deck has 54 cards; each card sits at position 13 × suit index + rank index, jokers at 52 and 53; no card occurs twice |
| `Decks.StandardDeckAt` | cardgame.js:30-39 | the card at 13·s + r is rank r of suit s (suit-major, then rank order); Little Joker then Big Joker close the deck, both of suit 'Trump' |
| `Decks.StandardDeckMembers` | cardgame.js:30-39 | a card is in the deck exactly when it is one of the 52 natural cards or one of the two 'Trump' jokers |
| `Decks.Swap` | cardgame.js:44 | the destructuring swap: position `i` gets the old `a[j]`, position `j` the old `a[i]`, every other position is unchanged |
| `Decks.ShuffledFrom` | cardgame.js:42-45 | the defining function of the loop's remaining steps `i`, `i - 1`, …, 1; keeps the length, and `ShuffledFromIsPermutation` states it is a permutation |
| `Decks.Shuffled` | cardgame.js:41-46 | the defining function of the whole shuffle under given random indices; `ShuffledIsPermutation` states it is a permutation |
| `Decks.SwapIsPermutation` | cardgame.js:44 | the destructuring swap keeps the length and the multiset of cards |
| `Decks.ShuffledFromIsPermutation` | cardgame.js:41-46 | any number of steps of the shuffle loop, with any random indices in range, yields a permutation of the deck |
| `Decks.ShuffledIsPermutation` | cardgame.js:41-46 | the whole shuffle keeps the length and the multiset of cards |
| `Decks.Deck.constructor` | cardgame.js:26-28 | a new deck is empty |
| `Decks.Deck.InitializeDeck` | cardgame.js:30-39 | the nested loops append exactly the standard deck to the current cards |
| `Decks.Deck.Shuffle` | cardgame.js:41-46 | the cards become the Fisher-Yates shuffle of the old cards under the given random indices, a permutation of them |
| `Decks.Deck.DealCard` | cardgame.js:48-54 | an empty deck is an error and stays empty; otherwise the last card is returned and removed, and the rest is unchanged |
| `Cards.IsJoker` | cardgame.js:78-84 | the defining predicate of `rank.includes('Joker')`; `RankIndex` gives -1 exactly on its ranks, and `ScanKeepsJoker`, `BigJokerWins` and `LittleJokerWins` state what it decides in a trick |
| `Tricks.Step` | cardgame.js:78-98 | the defining function of one iteration of the loop, with its branch order; the winner after it is the old winner or the candidate, and `OffSuitNeverTakes`, `ScanKeepsJoker` and `StepWithoutJokers` state its precedence |
| `Tricks.Scan` | cardgame.js:75-99 | the running winner is always the starting play or one of the plays scanned |
| `Tricks.WinningPlay` | cardgame.js:74-101 | the winner of a non-empty trick is one of its plays |
| `Tricks.ScanAppend` | cardgame.js:76-99 | scanning two stretches of plays one after the other is the same as scanning them together |
| `Tricks.ScanKeepsJoker` | cardgame.js:78-86 | once a joker is winning, nothing but a Big Joker displaces it |
| `Tricks.BigJokerWins` | cardgame.js:78-83 | if a Big Joker was played, the play holding the (last) Big Joker wins |
| `Tricks.LittleJokerWins` | cardgame.js:78-86 | with no Big Joker, the play holding the first Little Joker wins |
| `Tricks.ScanWithoutJokers` | cardgame.js:88-98 | over joker-free plays, the winner is the highest trump if any trump was seen, else the highest card of the starting card's suit |
| `Tricks.HighestTrumpWins` | cardgame.js:88-95 | with no jokers and some trump card, the winner holds a trump card ranked at least as high as every trump card played |
| `Tricks.HighestLedWins` | cardgame.js:75-98 | with no jokers and no trump, the winner holds a card of the led suit ranked at least as high as every led-suit card played |
| `Tricks.OffSuitNeverTakes` | cardgame.js:96-98 | a non-trump card of a suit other than the running winner's never displaces it |
| `Tricks.JokerPrecedenceExample` | cardgame.js:74-101 | 2♥ led, Big Joker, A♥, Little Joker, Spades trump: the Big Joker's player wins |
| `Tricks.TrumpPrecedenceExample` | cardgame.js:74-101 | A♥ led, 2♠, K♥, Spades trump: the lowest trump beats the highest led-suit card |
| `Hands.IsValidSelection` | cardgame.js:417-441 | the defining predicate of `isValidSelection`; `ValidSelectionsAre` states which cards it accepts and `SomeSelectionValid` that a non-empty hand always has one |
| `Hands.SomeSelectionValid` | cardgame.js:417-441 | a non-empty hand always holds a card that `isValidSelection` accepts |
| `Hands.ValidSelectionsAre` | cardgame.js:417-441 | when the hand can follow the led suit, a card is valid exactly when it is of the led suit; on an empty trick or without the led suit, every card is valid |
| `Hands.RemoveAt` | cardgame.js:253 | `splice(i, 1)` leaves one card fewer, keeps the cards before `i` and shifts the ones after it, and removes exactly `hand[i]` from the multiset |
| `Hands.Group` | cardgame.js:150-162 | the five buckets; the last one is exactly the cards of suit 'Trump' |
| `Hands.OfGroup` | cardgame.js:150-162 | a bucket holds only cards of its group |
| `Hands.OfLittle` | cardgame.js:167-173 | the split of the last bucket: Little Jokers on one side and the other cards on the other, all taken from that bucket |
| `Hands.Bucket` | cardgame.js:150-162 | the loop sends every card to the bucket of its suit, keeping hand order: the five results are exactly the cards of each group |
| `Hands.SortByRank` | cardgame.js:163-166 | `bucket.sort((a, b) => a.rank - b.rank)` as an insertion sort on rank; the result is a permutation of the bucket |
| `Hands.SortByRankAscending` | cardgame.js:163-166 | the sorted bucket is in ascending rank order (the model's choice where a face card makes the source's order implementation-defined) |
| `Hands.NumberSuitExample` | cardgame.js:163-166 | 7 and 2 of Hearts are sorted to 2, 7 |
| `Hands.LittleFirst` | cardgame.js:167-173 | the defining function of `jokers.sort` with the Little-Joker-first comparator; `LittlePartition` states it keeps the bucket's cards and `ArrangeIsDisplaySorted` that Little Jokers come first |
| `Hands.Arrange` | cardgame.js:144-174 | the defining function of one order `sortHand` can produce (the only one when every suit holds number cards only); `ArrangeIsPermutation` and `ArrangeIsDisplaySorted` state its properties |
| `Hands.GroupsPartition` | cardgame.js:150-162 | the five buckets together hold exactly the cards of the hand |
| `Hands.LittlePartition` | cardgame.js:167-173 | the sorted last bucket holds exactly the cards of the unsorted one |
| `Hands.ArrangeIsPermutation` | cardgame.js:144-174 | the sorted hand is a permutation of the hand |
| `Hands.ArrangeIsDisplaySorted` | cardgame.js:144-174 | the sorted hand is grouped Hearts, Clubs, Diamonds, Spades, then the rest, with every Little Joker of the rest before its other cards; `Arrange` (the model's choice) also sorts each suit by rank, which the source guarantees only for suits of number cards |
| `Hands.NumberSuitsFollow` | cardgame.js:163-166 | rank order within every natural suit implies ascending order within every suit of number cards only, which is all the source's sort promises |
| `Table.Trick.constructor` | cardgame.js:58-60 | a new trick has no plays, so `IsEmpty` holds |
| `Table.Trick.AddCard` | cardgame.js:62-64 | appends exactly one `{player, card}`; afterwards the trick is not empty |
| `Table.Trick.Clear` | cardgame.js:66-68 | the trick becomes empty, so `IsEmpty` holds |
| `Table.Trick.IsEmpty` | cardgame.js:70-72 | the defining predicate: true exactly when no card has been played; `Clear` and the constructor establish it, `AddCard` ends it, and `GetWinner` fails exactly when it holds |
| `Table.Trick.GetWinner` | cardgame.js:74-101 | the loop returns the player of `WinningPlay`; it is the error `EmptyTrick` exactly when `IsEmpty` holds |
| `Table.Player.constructor` | cardgame.js:119-124 | keeps name, hand and AI flag and starts with no tricks |
| `Table.Player.Reset` | cardgame.js:126-129 | empties the hand and the tricks |
| `Table.Player.AddCard` | cardgame.js:131-133 | appends the card to the hand; the tricks are unchanged |
| `Table.Player.SortHand` | cardgame.js:135-175 | the new hand is a permutation of the old one, grouped Hearts, Clubs, Diamonds, Spades, then the rest with the Little Joker first, and ascending within every suit of number cards only; the tricks are unchanged |
| `Table.Player.PlayCard` | cardgame.js:242-253 | an index outside the hand, or a card that fails suit-following, is rejected and the hand is unchanged; otherwise exactly that card is removed and returned |
| `Table.Team.constructor` | cardgame.js:453-458 | keeps the two players, both on the team by `IsOnTeam`; no tricks and score 0 |
| `Table.Team.Reset` | cardgame.js:460-465 | empties the team's tricks and both players' hands and tricks, and keeps the score |
| `Table.Team.AddTrick` | cardgame.js:467-469 | appends the trick; the score is unchanged |
| `Table.Team.AddScore` | cardgame.js:471-473 | adds the points to the score; the tricks are unchanged |
| `Table.Team.IsOnTeam` | cardgame.js:475-477 | the defining predicate: true exactly when the player is one of the two team members (by identity); the constructor and `TeamsPartition` state what it decides |
| `Table.TeamsPartition` | cardgame.js:452-477 | for two teams seated from four distinct players, each of the four is on exactly one team |

## Left out

- `ai_interaction.js` (a network client for an automated advisor), `bidwhist.js` (a network test script) and `logger.js` (file appends) are foreign I/O and are not part of this model.
- The console prompt loops of `selectCard`, `bid`, `pickKitty` and `selectTrumpSuit` are left out: reading input, `parseInt`/`isNaN`, the `'-1'` exit and the re-prompting. `Table.Player.PlayCard` models one answer to the card prompt, namely the bounds check, the suit-following check and the splice.
- The automated branches of `selectCard`, `bid`, `pickKitty` and `selectTrumpSuit` are left out, because they depend on the external advisor.
- `toString` on `Card`, `Trick`, `Player` and `Team`, and the `console.log` calls in `isValidSelection`, are display only.
- Bidding, the kitty exchange, converting jokers to trump, the trick loop and scoring are not implemented in `cardgame.js`, so they are not modelled.
- `Table.Player.SortHand`: the order inside a suit that holds a face card is not promised. There `a.rank - b.rank` is `NaN` for some pairs, the comparator is inconsistent, and JavaScript leaves the order to the implementation. The model's body sorts such a suit by rank too, but its contract states only the grouping, the permutation and the ascending order of number-only suits.
- `Decks.Deck.Shuffle`: uniformity of the shuffle is not modelled. The random index is an input.
- Aliasing of the `hand` array passed to the `Player` constructor is not modelled. The model copies the value.
- `Table.Player.constructor`: the default arguments `hand = []` and `AI = false` (cardgame.js:119) are not modelled, because Dafny constructors have no default parameters. Callers pass both explicitly.
- Ranks and suits are enumerations, so cards with arbitrary rank or suit strings cannot be expressed.
- Overwriting a joker's suit field in place is not expressible, because cards are immutable values. It is done outside `cardgame.js`.
