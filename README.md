# Heads-up hold'em against an AI: a Dafny model

This project models the game core of a web poker challenge. One player
plays heads-up Texas hold'em against an AI opponent. The core has four parts:

- **Hand evaluation** (`client/src/lib/poker-logic.ts`):
  - `getRankValue`;
  - the generic `combinations` enumerator;
  - `evaluateFiveCards`, which classifies five cards into one of the
    ten categories from high card to royal flush and picks a tie-break
    `highCard`;
  - `evaluateHand`, which keeps the best evaluation over every five-card
    selection of the seven cards.
- **The client game page** (`client/src/pages/Game.tsx`):
  - `initializeGame`;
  - `startGame`, with `generateDeck`, the Fisher-Yates `shuffleDeck`, the
    deal and the blinds;
  - the player's handler `handlePlayerAction`;
  - the AI's handler `processAIAction`, with its betting corrections, the
    round-completion test, the deal of the flop, turn and river, and
    `handleShowdown`;
  - `simulateAIAction`;
  - `determineNextRound`.
- **The older copy of the game page** (`src/pages/Game.tsx`). It is a demo
  against an AI whose turn is always "call 10". It has no current bet,
  closes rounds on the parity of the number of non-blind actions, and holds
  its showdown inline in `processAIAction`. It is modelled in a module of its
  own and not reconciled with the client copy.
- **The fallback decision table** `createFallbackDecision` of the AI hook
  (`src/hooks/useAiAgent.ts`).

## Layout

| file | module | contents |
|---|---|---|
| `options.dfy` | `Options` | `Option` |
| `cards.dfy` | `Cards` | suits, ranks, cards, `getRankValue`, rank names |
| `deck.dfy` | `Deck` | `generateDeck`, `shuffleDeck` (both page copies are identical) |
| `combinations.dfy` | `Selections` | `combinations`: its enumeration, count, soundness and completeness |
| `poker_logic.dfy` | `PokerLogic` | `evaluateFiveCards`, `evaluateHand` |
| `game_types.dfy` | `GameTypes` | actions, rounds, `determineNextRound`, action look-ups, how streets are dealt, the showdown comparison, the pot split, the choice `simulateAIAction` makes |
| `fallback_ai.dfy` | `FallbackAi` | `createFallbackDecision` |
| `client_game.dfy` | `ClientGame` | the client page's state and handlers |
| `legacy_game.dfy` | `LegacyGame` | the older page's state and handlers |

Each page handler is a `setGameState(prev => next)` updater. It is modelled
as a function from the old state to the new one. `GameState` is flattened:
`players[0]` becomes the player fields and `aiAgent` becomes the AI fields.
The loops of the source become methods proved equal to the functions that
specify them:

- `GenerateDeck`, the nested loops over suits and ranks;
- `ShuffleDeck`, the Fisher-Yates loop;
- `CollectCombinations`, the loop of `combinations`;
- `CountRanks`, the frequency loop of `evaluateFiveCards`;
- `FindBestHand`, the loop of `evaluateHand`.

The random draws and the wallet are parameters:

- **`shuffleDeck`**: its draws `Math.floor(Math.random() * (i + 1))` are a
  sequence `picks`, and `ValidPicks` states the range of each draw.
- **`simulateAIAction`**: the weighted pick is an index into the action list,
  and the raise step `Math.floor(Math.random() * 3)` is a number below 3.
- **`createFallbackDecision`**: its two draws are reals `r1` and `r2`.
- **`initializeGame`**: the connected flag and the balance, converted to
  chips, are parameters.

### Invariants the model keeps

- **One full deck** (`ClientValid`, `LegacyValid`). A started hand holds
  exactly the 52 cards of one deck, split between two hole cards each, the
  board of the round and what is left of the deck. It holds after
  `startGame` whatever the draws. Every player action and AI action keeps
  it. Because it holds, neither page's `pop()!` ever reads an empty deck.
- **The betting round** (client). A round closes exactly when the player's
  last action was a check or a call and the AI then checks or calls. Closing
  a round deals the next street from the end of the deck: the flop is the
  last three cards, last first, and the turn and the river are one card each.
- **Chips.** The client's AI path keeps the chips on the table, except for
  the action that closes the river. The older page's AI path always keeps
  them.

### Behaviour the model exposes

These are consequences of the code as written. Each is proved as a lemma
about the model, and every other member models the code as written too.

- **Rank names are compared as strings** (`GameTypes.ShowdownStringOrder`).
  Within a category, the showdown compares the `highCard` rank names as
  strings. So "10" is the lowest name and "Q" the highest: a pair of kings
  loses to a pair of queens, and a pair of tens loses to a pair of nines.
  `evaluateHand` compares rank values, so the two comparisons disagree.
- **A player fold does not empty the pot** (`ClientGame.PlayerFoldCreatesChips`).
  The client credits the pot to the AI and leaves the pot in place: the
  table gains the pot.
- **The AI's closing action on the river is lost**
  (`ClientGame.AiChipAccounting`, `ClientGame.ShowdownLosesCall`). The
  client's showdown pays the pot held before that action, so what the AI put
  in with it disappears.
- **Raises are not capped** (`ClientGame.PlayerRaiseRule`). A client raise
  above the player's stack is always accepted and leaves the stack negative.
- **Blinds are not credited** (`ClientGame.BigBlindCannotCheck`,
  `ClientGame.OpeningCalls`). The current bet the big blind faces is its own
  blind. It cannot check before the flop, and a call pays the 20 again.
- **The fallback call is not capped** (`FallbackAi.CallExceedsStack`). The
  fallback AI's call amount is not limited by its stack.
- **Five cards of one rank are a High Card** (`PokerLogic.HighCardIff`).
  The count cascade has no branch for a count of 5. Such a hand needs a
  repeated card, which no dealt hand has.
- **The AI still acts after a fold on the older page** (`LegacyGame.FoldIsNotFinal`).
  A player fold ends the hand, but the AI's turn still runs after it and
  hands the turn back to the player. When that call closes the river
  (`LegacyGame.FoldAtRiverRedecided`), the folded hand goes to the
  showdown, and the winner is decided again from the cards.
- **No stack checks on the older page** (`LegacyGame.PlayerBetUnchecked`,
  `LegacyGame.AiBetUnchecked`). Bets there are not checked against the stack.
- **The player can close the river unsettled**
  (`LegacyGame.PlayerShowdownUnsettled`). On the older page the player can
  close the river into a showdown that is never evaluated.

The source does not say whether any of these is intended. The model keeps
them as written.

## Model

| member | source | states |
|---|---|---|
| `Cards.RankValue` | client/src/lib/poker-logic.ts:3-20 | every rank's value lies between 2 and 14 |
| `Cards.RankValueInjective` | client/src/lib/poker-logic.ts:3-20 | the i-th rank of "2".."A" has value i+2, so distinct ranks have distinct values |
| `Cards.RankIndex` | client/src/pages/Game.tsx:245 | a rank's position in the rank list is its value minus 2 |
| `Deck.FullDeck` | client/src/pages/Game.tsx:243-255 | the generated deck has 52 cards |
| `Deck.DeckIndex` | client/src/pages/Game.tsx:248-252 | the card of suit s and rank r sits at position 13·s + r (suit-major order) |
| `Deck.FullDeckIsProduct` | client/src/pages/Game.tsx:243-255 | every (suit, rank) card is in the deck, at exactly one position, with multiplicity 1 |
| `Deck.GenerateDeck` | client/src/pages/Game.tsx:243-255 | the nested suit/rank loops produce exactly the full deck |
| `Deck.ShuffleFromIsPermutation` | client/src/pages/Game.tsx:257-264 | whatever the random draws, the Fisher-Yates steps only rearrange the cards |
| `Deck.ShuffleFromKeepsTail` | client/src/pages/Game.tsx:259-262 | once the loop has passed position m, later swaps never touch that position again |
| `Deck.ShuffleDeck` | client/src/pages/Game.tsx:257-264 | the in-place loop over a copy returns the shuffle of the draws, a permutation of the input |
| `Selections.CombinationsEdges` | client/src/lib/poker-logic.ts:24-25 | k ≤ 0 or k > n gives no selection; k = n gives the whole array |
| `Selections.CombinationsCount` | client/src/lib/poker-logic.ts:22-34 | for k ≥ 1 there are exactly C(n, k) selections |
| `Selections.CombinationShape` | client/src/lib/poker-logic.ts:22-34 | every selection has k elements and is a subsequence of the array (order kept) |
| `Selections.CombinationsComplete` | client/src/lib/poker-logic.ts:22-34 | every k-element subsequence of the array is among the selections |
| `Selections.CollectCombinations` | client/src/lib/poker-logic.ts:27-32 | the loop over first elements, prefixing each selection of the rest, returns the recursive enumeration |
| `PokerLogic.SortAscendingCorrect` | client/src/lib/poker-logic.ts:40 | the ascending sort of the values is sorted and a permutation of them |
| `PokerLogic.SortedUnique` | client/src/lib/poker-logic.ts:40 | two sorted permutations of the same values are equal, so any correct sort gives the same `values` |
| `PokerLogic.SortedValuesFacts` | client/src/lib/poker-logic.ts:40 | `values` has one entry per card, is ascending, and holds the same values as the cards |
| `PokerLogic.FirstRankWithValue` | client/src/lib/poker-logic.ts:45 | the rank found for the top value has that value |
| `PokerLogic.ReduceMax` | client/src/lib/poker-logic.ts:58 | the reduce returns one of its cards, of value at least every other card's |
| `PokerLogic.HighestRank` | client/src/lib/poker-logic.ts:58 | the flush and high-card `highCard` is a rank present in the hand and of maximal value |
| `PokerLogic.FreqCorrect` | client/src/lib/poker-logic.ts:64-67 | the frequency map has each rank once, has exactly the ranks present, and maps each to its number of cards |
| `PokerLogic.BumpKeys` | client/src/lib/poker-logic.ts:66 | one `freq.set` adds the rank to the keys and adds one to its count only |
| `PokerLogic.CountRanks` | client/src/lib/poker-logic.ts:64-67 | the counting loop builds exactly the frequency map |
| `PokerLogic.CountList` | client/src/lib/poker-logic.ts:68 | the count list has one entry per distinct rank, holds the same counts as the map (as a multiset) and is in descending order |
| `PokerLogic.ReverseMultiset` | client/src/lib/poker-logic.ts:68 | reversing the ascending sort keeps its counts |
| `PokerLogic.CountListOccurs` | client/src/lib/poker-logic.ts:68 | each entry of the descending count list is the count of some rank present |
| `PokerLogic.FirstWithCount` | client/src/lib/poker-logic.ts:71 | the `find(...)![0]` over the entries returns a rank stored with that count |
| `PokerLogic.FirstWithCountOccurs` | client/src/lib/poker-logic.ts:71-85 | the rank found for count c occurs exactly c times among the cards |
| `PokerLogic.RanksWithCount` | client/src/lib/poker-logic.ts:80 | the filtered ranks are exactly the ranks stored with count c |
| `PokerLogic.TopRank` | client/src/lib/poker-logic.ts:80-81 | the head of the ranks sorted by descending value is one of them and of maximal value |
| `PokerLogic.TopPair` | client/src/lib/poker-logic.ts:79-82 | the two-pair `highCard` is a paired rank and no paired rank has a greater value |
| `PokerLogic.ByCounts` | client/src/lib/poker-logic.ts:64-89 | without a flush or a straight, the category is one of 0, 1, 2, 3, 6, 7 and the name is that category's |
| `PokerLogic.MaxCount` | client/src/lib/poker-logic.ts:68-70 | the head of the count list is at least 1, is the count of some rank, and no rank has more cards |
| `PokerLogic.ByCountsBranches` | client/src/lib/poker-logic.ts:70-89 | each branch of the cascade is taken exactly when its test on the first two counts holds and the earlier tests fail |
| `PokerLogic.FourOfAKindIff` | client/src/lib/poker-logic.ts:70-72 | of five cards, category 7 exactly when some rank has four cards |
| `PokerLogic.FullHouseIff` | client/src/lib/poker-logic.ts:73-75 | category 6 exactly when one rank has three cards and another two |
| `PokerLogic.ThreeOfAKindIff` | client/src/lib/poker-logic.ts:76-78 | category 3 exactly when some rank has three cards and no rank has two |
| `PokerLogic.TwoPairIff` | client/src/lib/poker-logic.ts:79-82 | category 2 exactly when two distinct ranks have two cards each |
| `PokerLogic.OnePairIff` | client/src/lib/poker-logic.ts:83-85 | category 1 exactly when one rank has two cards and every other rank at most one |
| `PokerLogic.HighCardIff` | client/src/lib/poker-logic.ts:86-89 | category 0 exactly when every rank has at most one card, or one rank has all five |
| `PokerLogic.ByCountsHighCard` | client/src/lib/poker-logic.ts:70-89 | the tie-break rank of four of a kind occurs 4 times, of a full house and trips 3 times, of a pair twice, of two pair is the higher pair, of a high card is the highest rank |
| `PokerLogic.EvaluateFiveCards` | client/src/lib/poker-logic.ts:36-90 | the category is between 0 and 9 and the name is the one of the category |
| `PokerLogic.CategoryByCounts` | client/src/lib/poker-logic.ts:57-89 | flush exactly when suited without a straight, straight exactly when a straight is not suited; with neither, each of categories 7, 6, 3, 2, 1, 0 holds exactly when its rank-count condition does |
| `PokerLogic.DistinctSorted5` | client/src/lib/poker-logic.ts:43 | five sorted values form a set of size 5 exactly when they strictly increase |
| `PokerLogic.StraightSound` | client/src/lib/poker-logic.ts:41-49 | a detected straight is five consecutive values or the wheel A-2-3-4-5 |
| `PokerLogic.StraightOfRun` | client/src/lib/poker-logic.ts:43-45 | five consecutive values are a straight whose high card is the top value |
| `PokerLogic.StraightOfWheel` | client/src/lib/poker-logic.ts:46-48 | A-2-3-4-5 is a straight with high card "5" |
| `PokerLogic.StraightIff` | client/src/lib/poker-logic.ts:41-49 | a straight is detected exactly when the values are a run or the wheel, each with its high card |
| `PokerLogic.RoyalFlushIff` | client/src/lib/poker-logic.ts:51-53 | category 9 exactly when the hand is a flush and a straight to the ace, whose highCard is the ace |
| `PokerLogic.StraightFlushHigh` | client/src/lib/poker-logic.ts:51-56 | any other straight flush is category 8 with the straight's high card, the wheel's being "5" |
| `PokerLogic.StraightOnly` | client/src/lib/poker-logic.ts:60-61 | a straight that is not a flush is category 4 with the straight's high card |
| `PokerLogic.HighCardByCategory` | client/src/lib/poker-logic.ts:36-90 | the tie-break rank of each category: the four, the three, the higher pair, the pair, or the highest rank present for a flush and a high card |
| `PokerLogic.FiveCardSelections` | client/src/lib/poker-logic.ts:93 | every selection has five cards, and five or more cards give at least one |
| `PokerLogic.BestOfFirstMaximal` | client/src/lib/poker-logic.ts:94-99 | the strict-improvement loop keeps the first hand that no later hand beats and that beats every earlier one |
| `PokerLogic.EvaluateHandIsBest` | client/src/lib/poker-logic.ts:92-101 | the result is the evaluation of one selection, no selection beats it, and it beats every selection enumerated before it |
| `PokerLogic.EvaluateHandBeatsEverySubset` | client/src/lib/poker-logic.ts:92-101 | no five-card subsequence of the cards is evaluated above the result |
| `PokerLogic.EvaluateHandOfFive` | client/src/lib/poker-logic.ts:92-101 | on exactly five cards the result is evaluateFiveCards of them |
| `PokerLogic.FindBestHand` | client/src/lib/poker-logic.ts:92-101 | the loop leaves null exactly when there are fewer than five cards, and otherwise the best evaluation |
| `GameTypes.NextRoundForward` | client/src/pages/Game.tsx:661-669 | determineNextRound moves one round forward, and showdown is its only fixed point |
| `GameTypes.LastByFacts` | client/src/pages/Game.tsx:499 | the last action of a seat is absent exactly when that seat never acted, and is otherwise an action of that seat that no later action of the seat follows |
| `GameTypes.LastNonBlindByFacts` | client/src/pages/Game.tsx:500 | the action found is p's, is not a blind, and every later action is another player's or a blind; none is found exactly when p has no non-blind action |
| `GameTypes.LastBetFacts` | client/src/pages/Game.tsx:646-647 | the last bet is absent exactly when nobody raised or called, and is otherwise the latest raise or call |
| `GameTypes.NonBlindCount` | client/src/pages/Game.tsx:499-500 | the number of non-blind actions is at most the number of actions |
| `GameTypes.NonBlindCountAppend` | src/pages/Game.tsx:302-305 | appending an action adds one to the non-blind count exactly when it is not a blind |
| `GameTypes.CommunitySize` | client/src/pages/Game.tsx:526-538 | the board holds at most five cards in every round |
| `GameTypes.FlopMovesCards` | client/src/pages/Game.tsx:528 | the three cards dealt to the flop, with the rest of the deck, are the deck's cards |
| `GameTypes.PopMovesCard` | client/src/pages/Game.tsx:532 | dealing the deck's last card to the board keeps the cards of board and deck together |
| `GameTypes.PopTwoMovesCards` | client/src/pages/Game.tsx:187-188 | popping two cards leaves those two cards and the rest, the deck's cards |
| `GameTypes.HoleCardsMoveCards` | client/src/pages/Game.tsx:187-191 | popping two hole cards for each seat leaves those four cards and the rest of the deck, the deck's cards |
| `GameTypes.JsLessOnNames` | client/src/pages/Game.tsx:573-574 | comparing two rank names as strings is comparing the ranks in the order "10", "2".."9", "A", "J", "K", "Q" |
| `GameTypes.ShowdownWinnerSpec` | client/src/pages/Game.tsx:570-574 | the winner is the side with the higher category, or on equal categories the later highCard name; the pot is split exactly when category and highCard are equal |
| `GameTypes.ShowdownStringOrder` | client/src/pages/Game.tsx:573-574 | a pair of kings loses to a pair of queens, and tens to nines, though evaluateHand ranks them the other way |
| `GameTypes.NameOrderInjective` | client/src/pages/Game.tsx:573-574 | distinct rank names never compare equal |
| `GameTypes.Settle` | client/src/pages/Game.tsx:580-594 | settlement keeps the chips; the winner takes the pot; a split gives the player floor(pot / 2) and the AI the rest |
| `GameTypes.SimulatedChoice` | client/src/pages/Game.tsx:634-656 | after a player raise or all-in a picked check becomes a call; a call is for the last bet's amount or 20, a raise 40, 60 or 80, an all-in the stack, anything else 0 |
| `FallbackAi.ThirtyPercent` | src/hooks/useAiAgent.ts:149 | the floor of 30% of the pot |
| `FallbackAi.FallbackDecision` | src/hooks/useAiAgent.ts:116-167 | an amount, when given, is positive; any amount except a call's is within the stack; a stack of 50 or less always goes all-in |
| `FallbackAi.FacingRaise` | src/hooks/useAiAgent.ts:125-140 | after a player raise or all-in: fold below 0.2, call the player's amount (or 20) below 0.7, otherwise raise double, capped by the stack |
| `FallbackAi.LateStreet` | src/hooks/useAiAgent.ts:141-153 | otherwise on the turn and river: check below 0.6, else raise max(20, floor(30% of the pot)) capped by the stack |
| `FallbackAi.DefaultCheck` | src/hooks/useAiAgent.ts:121-124 | in every other case: check, no amount, confidence 0.5 |
| `FallbackAi.AllInOverride` | src/hooks/useAiAgent.ts:155-166 | a stack of 50 or less, or the river with the second draw below 0.1, goes all-in for the stack with confidence 0.9 |
| `FallbackAi.CallExceedsStack` | src/hooks/useAiAgent.ts:131-134 | facing a raise of 500 with 100 chips, the fallback calls 500 |
| `ClientGame.InitializeGame` | client/src/pages/Game.tsx:131-180 | refused without a wallet or below 100 chips; otherwise both stacks hold the balance capped at 2000, with an empty table and no actions |
| `ClientGame.PostBlinds` | client/src/pages/Game.tsx:187-233 | the player gets the last and second-to-last shuffled cards, the AI the next two, the deck keeps the rest; the player pays 20, the AI 10, both go to the pot; the player acts facing a bet of 20 |
| `ClientGame.StartGame` | client/src/pages/Game.tsx:182-241 | generating, shuffling with the draws and popping four cards gives that state |
| `ClientGame.DealAndPostBlinds` | client/src/pages/Game.tsx:187-233 | popping four cards from the shuffled deck and posting the blinds gives the state of PostBlinds |
| `ClientGame.StartedGameValid` | client/src/pages/Game.tsx:182-241 | a freshly started hand holds exactly one full deck, whatever the draws |
| `ClientGame.DealtDeckValid` | client/src/pages/Game.tsx:187-233 | dealing from any arrangement of the full deck, onto an empty board, gives a hand holding one full deck |
| `ClientGame.PlayerStake` | client/src/pages/Game.tsx:314-341 | a call pays min(bet, chips) into the pot; a check, or a raise without an amount, moves nothing; a raise of a pays a, sets the bet to a and the last raise to a minus the bet; an all-in pays the stack and lifts the bet to at least it; the handler refuses exactly a check facing a bet, and a raise below twice the bet that is also below the stack |
| `ClientGame.HandlePlayerAction` | client/src/pages/Game.tsx:283-368 | out of turn, after the end, or on a refused bet the state is unchanged; otherwise one player action is appended and the turn passes to the AI (to nobody on a fold); a call moves min(bet, chips) from the player to the pot; cards and round never change; a non-fold keeps the player's chips plus the pot |
| `ClientGame.PlayerFoldCreatesChips` | client/src/pages/Game.tsx:297-313 | a fold ends the hand for the AI and credits it the pot, which stays: the table gains the pot |
| `ClientGame.PlayerRaiseRule` | client/src/pages/Game.tsx:323-332 | a raise is taken exactly when it is at least twice the bet or at least the stack, moving its amount and setting the bet and last raise; one above the stack overdraws |
| `ClientGame.PlayerCallAllInBounded` | client/src/pages/Game.tsx:319-341 | a call or an all-in never overdraws a non-negative stack; an all-in empties it and raises the bet to at least the stack |
| `ClientGame.BigBlindCannotCheck` | client/src/pages/Game.tsx:314-318 | at the start of a hand the player's check is refused |
| `ClientGame.PlayerKeepsValid` | client/src/pages/Game.tsx:283-368 | a player action keeps the one-full-deck invariant |
| `ClientGame.AiBet` | client/src/pages/Game.tsx:452-489 | a check survives exactly when no bet stands, otherwise it and a call pay min(bet, stack); a raise below both twice the bet and the stack is lifted to twice the bet, then pays its amount and sets bet and last raise, or becomes an all-in when above the stack; an all-in empties the stack into the pot; AI chips plus pot are kept |
| `ClientGame.RoundCompleteIff` | client/src/pages/Game.tsx:498-514 | the round closes exactly when the player's last action was a check or a call and the AI checks or calls |
| `ClientGame.ValidCanDeal` | client/src/pages/Game.tsx:516-545 | a hand holding one full deck can always deal its next street |
| `ClientGame.SpliceFlop` | client/src/pages/Game.tsx:528 | the flop is the deck's last three cards, last first, and the deck loses them |
| `ClientGame.DealNextMovesCards` | client/src/pages/Game.tsx:520-538 | from a board and deck of their round's sizes, the deal of the next street moves cards from deck to board only, to the next round's sizes |
| `ClientGame.AiBets` | client/src/pages/Game.tsx:491-561 | the AI's action is appended, the round advances exactly when it is complete, and hole cards stay |
| `ClientGame.ProcessAIAction` | client/src/pages/Game.tsx:410-563 | one AI action of the corrected kind is appended; a fold pays the pot to the player and ends the hand; otherwise the round advances exactly when complete |
| `ClientGame.HandleShowdown` | client/src/pages/Game.tsx:565-616 | both hands are evaluated on hole plus board cards; the winner is the showdown rule's; the pot held before the AI's last action goes to the winner or is split; the hand ends at showdown |
| `ClientGame.ShowdownOutcome` | client/src/pages/Game.tsx:565-594 | the winner has the higher category, or the later highCard name; a split gives the player floor(pot / 2) and the AI the rest |
| `ClientGame.AiFoldPaysPot` | client/src/pages/Game.tsx:424-450 | an AI fold pays the whole pot to the player and keeps the chips on the table |
| `ClientGame.AiBetsChips` | client/src/pages/Game.tsx:541-561 | after the bet the state holds the bet's pot and stack, except at the showdown, which pays the earlier pot |
| `ClientGame.AiChipAccounting` | client/src/pages/Game.tsx:410-616 | every AI action keeps the chips on the table except the river-closing one, which loses exactly what the AI put in |
| `ClientGame.ShowdownLosesCall` | client/src/pages/Game.tsx:460-576 | an AI call closing the river with a bet standing removes min(bet, stack) chips from the table |
| `ClientGame.AiStackNonNegative` | client/src/pages/Game.tsx:460-489 | from non-negative stack, bet and pot, the AI's stack stays non-negative |
| `ClientGame.AiDeals` | client/src/pages/Game.tsx:520-538 | closing the round resets the bet and deals the flop (last three cards, last first), or one card for the turn and the river |
| `ClientGame.AiKeepsBoard` | client/src/pages/Game.tsx:516-560 | when no street is dealt, board and deck stay and the round stays or becomes the showdown |
| `ClientGame.CardsMovedKeepValid` | client/src/pages/Game.tsx:516-560 | moving cards between deck and board, to the sizes of the round, keeps one full deck |
| `ClientGame.AiKeepsValid` | client/src/pages/Game.tsx:410-563 | an AI action can always be taken in a valid hand and keeps one full deck |
| `ClientGame.AiDealKeepsValid` | client/src/pages/Game.tsx:520-538 | dealing the next street keeps one full deck |
| `ClientGame.OpeningCalls` | client/src/pages/Game.tsx:319-322 | player call then AI call from the blinds: the player has paid 40 and the AI 30, the pot is 70, the flop is the last three cards |
| `ClientGame.OpeningPlayerCall` | client/src/pages/Game.tsx:319-322 | the big blind's call preflop pays the 20 of the bet again and passes the turn to the AI |
| `ClientGame.PreflopCallDealsFlop` | client/src/pages/Game.tsx:460-538 | an AI call after the player's preflop call pays the bet, deals the flop from the end of the deck and gives the turn back to the player |
| `ClientGame.SimulateAIAction` | client/src/pages/Game.tsx:618-659 | one AI action is appended, and never a check after a player raise or all-in |
| `LegacyGame.InitializeGame` | src/pages/Game.tsx:121-136 | the demo table holds 1000 chips each, an empty pot, no cards and no actions, is not started or ended, is at the preflop and has nobody to act |
| `LegacyGame.PostBlinds` | src/pages/Game.tsx:145-191 | the same hole cards and blinds as the client, without a current bet |
| `LegacyGame.StartGame` | src/pages/Game.tsx:137-195 | generating, shuffling with the draws and popping four cards gives that state |
| `LegacyGame.DealAndPostBlinds` | src/pages/Game.tsx:145-191 | popping four cards from the shuffled deck and posting the blinds gives the state of PostBlinds |
| `LegacyGame.StartedGameValid` | src/pages/Game.tsx:137-195 | a freshly started demo hand holds one full deck |
| `LegacyGame.DealtDeckValid` | src/pages/Game.tsx:145-191 | dealing from any arrangement of the full deck, onto an empty board, gives a hand holding one full deck |
| `LegacyGame.DealStreet` | src/pages/Game.tsx:311-341 | nothing is dealt when the round does not change, the deck is empty, or the next round is the showdown; a flop takes the last three deck cards, last first, and a turn or river appends the last one |
| `LegacyGame.NextStreet` | src/pages/Game.tsx:302-312 | the round advances exactly when the parity rule says so, and then the street is dealt; otherwise board and deck stay |
| `LegacyGame.NextStreetMovesCards` | src/pages/Game.tsx:311-341 | in a valid hand the street dealt moves cards from deck to board, to the size of the new round |
| `LegacyGame.DealStreetMovesCards` | src/pages/Game.tsx:311-341 | from a board and deck of their round's sizes, the deal moves cards from deck to board only, to the next round's sizes |
| `LegacyGame.HandlePlayerAction` | src/pages/Game.tsx:251-361 | a fold only ends the hand for the AI; otherwise chips are kept, the action is appended as given, the turn passes to the AI and the round follows the parity rule; an all-in empties the stack; a check, or a call or raise without a truthy amount, moves no chips; board and deck are the street dealt when the round closes, and unchanged otherwise |
| `LegacyGame.PlayerBetUnchecked` | src/pages/Game.tsx:269-278 | a call or raise moves exactly its amount, and overdraws when it exceeds the stack |
| `LegacyGame.PlayerShowdownUnsettled` | src/pages/Game.tsx:304-336 | closing the river by the player reaches showdown without evaluation, without ending, and with the pot in place |
| `LegacyGame.PlayerKeepsValid` | src/pages/Game.tsx:251-361 | a player action keeps one full deck |
| `LegacyGame.CardsMovedKeepValid` | src/pages/Game.tsx:469-496 | moving cards between deck and board, to the sizes of the round, keeps one full deck |
| `LegacyGame.AiMoves` | src/pages/Game.tsx:437-448 | the AI's move keeps its chips plus the pot; a call or raise moves its amount; an all-in empties the stack |
| `LegacyGame.ProcessAIAction` | src/pages/Game.tsx:387-598 | the action is appended and remembered as the AI's last; a fold pays the pot to the player; the round follows the parity rule; the hand ends exactly on a fold or a river-closing action with cards left |
| `LegacyGame.HoldShowdown` | src/pages/Game.tsx:497-574 | the inline showdown evaluates both hands and pays the pot including the AI's last chips; a tie gives the player half the pot rounded down and the AI the rest; chips are kept |
| `LegacyGame.AiConservesChips` | src/pages/Game.tsx:401-596 | every AI action keeps the chips on the table, the showdown included |
| `LegacyGame.AiBetUnchecked` | src/pages/Game.tsx:438-443 | a call or raise moves exactly the amount given, and overdraws when it exceeds the stack |
| `LegacyGame.AiKeepsValid` | src/pages/Game.tsx:387-598 | an AI action can always be taken in a valid hand and keeps one full deck |
| `LegacyGame.HandleAITurn` | src/pages/Game.tsx:363-385 | the AI's fixed call of 10 keeps the chips on the table |
| `LegacyGame.PlayerTurn` | src/pages/Game.tsx:251-385 | the player's action followed by the AI turn it awaits keeps the chips, short of a fold |
| `LegacyGame.ExchangeAdvancesOneStreet` | src/pages/Game.tsx:302-467 | from an even action count, a non-fold player action then the AI's call advance exactly one round and keep the count even |
| `LegacyGame.PlayerHoldsRound` | src/pages/Game.tsx:302-305 | from an even action count, a non-fold player action never closes the round and leaves the count odd |
| `LegacyGame.AiCallAdvances` | src/pages/Game.tsx:463-467 | from an odd count, the AI's call closes the round: it advances one round and leaves the count even |
| `LegacyGame.SameCardsAiPre` | src/pages/Game.tsx:476-483 | a state with the cards of a valid hand can deal whatever the AI does |
| `LegacyGame.FoldIsNotFinal` | src/pages/Game.tsx:262-380 | unless the AI's call closes the river, after a player fold the AI still calls 10 and the turn returns to the player of the ended hand |
| `LegacyGame.FoldAtRiverRedecided` | src/pages/Game.tsx:262-574 | when the AI's call after a fold closes the river, the showdown decides the winner again from the cards, ends at the showdown round with nobody to act, and keeps the chips |
| `LegacyGame.SimulateAIAction` | src/pages/Game.tsx:600-658 | one AI action is appended, and never a check after a player raise or all-in |

## Left out

- The user interface, toasts, console output, the thinking and hidden flags, ids and timestamps are not modelled: they do not affect the game state the handlers compute.
- The wallet connection, the balance query and `performTransaction` (the on-chain pot transfers) are left out. They are calls into a wallet library and a chain outside the core.
- `ClientGame.InitializeGame` takes the balance already converted to chips, because `playerBalance * 1000` is floating point.
- React effects, timers, `async` sequencing and the agent service behind `getAiDecision` are left out. Decisions arrive as the parameters of `ProcessAIAction`.
- The client's `handlePlayerAction` guard and `simulateAIAction` read the `gameState` closure, not the updater's `prev`. The model reads one state for both, so it does not capture a stale closure.
- The older page has the same gap. Its `startGame` and `handlePlayerAction` return early on the closure's `gameState` (src/pages/Game.tsx:138 and :252). `acceptChallenge` calls `startGame` right after `initializeGame`, from a render where that closure may still be `null`, so the first deal may be skipped. `LegacyGame.StartGame` always deals, and the model does not capture that skip.
- The weighted draw of `simulateAIAction` and the draws of `createFallbackDecision` are parameters. Their floating-point thresholds stay with the caller.
- `FallbackAi.ThirtyPercent`: `pot * 0.3` is taken as exactly 3/10 of the pot, because floating-point rounding of the product is not modelled.
- JavaScript numbers are unbounded integers here, because NaN, infinities and fractional chip counts do not arise from integer chip inputs.
- `null` and `undefined` are both `None`: no handler distinguishes them.
- `startNewHand` is not a separate member, because it is `initializeGame` followed by `startGame`.
- `PokerLogic.EvaluateHand` requires five cards. Below five the source returns `null` through `bestHand!`; that case is modelled by `PokerLogic.FindBestHand`, which returns `None` there.
- `ClientGame.ProcessAIAction` and `ClientGame.HandleShowdown` require a dealable deck and five cards per hand, because the source's `pop()!` and `bestHand!` take them for granted. `ClientGame.ValidCanDeal` and `ClientGame.AiKeepsValid` prove that every valid hand meets these requirements.
- `LegacyGame.HandlePlayerAction` and `LegacyGame.ProcessAIAction` require three cards for a flop, for the same reason. `LegacyGame.ProcessAIAction` also requires five cards per hand when the AI closes the river with cards left in the deck, because its inline showdown evaluates both hands with `bestHand!`. `LegacyGame.PlayerKeepsValid` and `LegacyGame.AiKeepsValid` prove that every valid hand meets these requirements.
- The catch branch of the older `handleAITurn`, which calls `simulateAIAction`, is unreachable, because its try block is the fixed call. `LegacyGame.SimulateAIAction` is modelled on its own.
- Revealing the AI's cards at the showdown (`hidden: false`) is not modelled, because the hidden flag is display state.
- The AI's random `confidence` on the older page is not modelled, for the same reason.
