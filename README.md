# Heads-up Texas Hold'em: deck, hand evaluator and betting state machine

This project models the core of a browser Texas Hold'em game. One human
player plays against a bot, with blinds of 10 and 20 and 1000 chips each.
The model covers:

- **The deck** (module `Cards`): `initializeDeck` builds the 52 cards suit by
  suit, and `shuffleDeck` runs a Fisher-Yates swap loop over a copy. Each
  random index `Math.floor(Math.random() * (i + 1))` is an input: the
  sequence `picks`, with `picks[i]` in `0..i`. Both source files share these
  two functions, character for character, so they are modelled once.
- **The hand evaluator** (module `HandEvaluator`, with the properties in
  `HandProperties`): `findBestHand` runs a cascade of checks from royal flush
  down to high card over the hole cards followed by the community cards.
  `compareHands` compares category first, then the tie-break cards index by
  index. The model follows the program as written, in two respects:
  - The stable descending sort and the JavaScript `for...in` key order are
    modelled explicitly. Integer-like keys come first, ascending; then the
    face cards, in first-seen order.
  - The straight scan is modelled as it runs, and it finds only straights that
    contain both an Ace and a 5 (see `HandProperties.StraightIff`).
- **The betting state machine of the browser game** (modules `Betting` and
  `Game`), from frontend/js/poker-game.js. `Betting` gives each handler as a
  pure transition on a `State` value holding the game-state fields. The
  lemmas state what the handlers keep:
  - the chips on the table;
  - the 52 cards in play, each once;
  - the forward order of the stages;
  - a last raise of 0.

  `Game.GameState` is the mutable record. Each of its methods makes one
  handler's field writes, in order, and is proved to reach the state the
  matching `Betting` transition computes.
- **The earlier state machine** (modules `LegacyBetting` and `LegacyGame`),
  from test/poker-game.js. It has the same fields but no hand counter. Its
  rules differ:
  - the player acts first unless in the small blind;
  - a call in a fresh round with nothing owed is a check;
  - a raise must be at least twice the current bet;
  - every call pays the whole current bet;
  - a coin decides the showdown.

A handler ends by starting a timer that runs the next handler. Here it
returns that next step instead, as a `Table.Step` value:

- `AwaitPlayer`: the player's controls appear.
- `BotToAct`: `botDecision` runs.
- `RoundEnds`: `handleRoundEnd` runs.
- `ShowdownDue`: the board is dealt out and `determineWinner` pays the pot.
- `NextHand`: `resetGame` runs.
- `GameOver`: the game is over.
- `Rejected`: an alert is shown and nothing changed.

`Math.random()` in `botDecision` is the parameter `random`. The coin of the
earlier `determineWinner` is the parameter `playerWins`.

The central invariant is `Betting.CardsOk`:

- each player has two hole cards;
- the board holds as many cards as the stage shows;
- deck and board together hold 48 cards;
- the dealt cards together with the deck are a permutation of the standard
  deck.

Every hand starts in this state (`StartNewRoundDeals`), and every handler
keeps it (`Keeps`). The showdown relies on it. It implies that both players'
seven cards are distinct (`ShowdownCards`). On distinct cards the evaluator
reports exactly five cards (`BestHandFiveCards`), so `compareHands` is
well-defined.

## Model

| member | source | states |
|---|---|---|
| Cards.SuitIndex | frontend/js/poker-game.js:229-237 | every suit has a position in the list of suits the deck builder walks |
| Cards.StandardDeckIsFull | frontend/js/poker-game.js:229-237 | the nested suit-then-rank loops build all 52 cards, each exactly once |
| Cards.SwapIsPermutation | frontend/js/poker-game.js:244 | swapping two positions keeps the multiset of cards |
| Cards.ShuffleFrom | frontend/js/poker-game.js:240-247 | the shuffle steps from position i down to 1 keep the deck's length |
| Cards.Shuffled | frontend/js/poker-game.js:240-247 | the Fisher-Yates result for given random choices has the input's length |
| Cards.ShuffleFromIsPermutation | frontend/js/poker-game.js:240-247 | each run of shuffle steps is a permutation of its input |
| Cards.ShuffledIsPermutation | frontend/js/poker-game.js:240-247 | for every legal choice of j's (0 <= j <= i), the shuffled deck is a permutation of the input |
| Cards.ShuffleDeck | frontend/js/poker-game.js:240-247 | the swap loop over a copy returns exactly the Fisher-Yates result and a permutation of the input; the argument is unchanged |
| Cards.InitializeDeck | frontend/js/poker-game.js:229-237 | the returned deck is the shuffled standard deck and holds every card exactly once |
| HandEvaluator.Below | frontend/js/poker-game.js:1116-1226 | the next category down the cascade has rank value one less |
| HandEvaluator.OfRank | frontend/js/poker-game.js:1394-1403 | a rank group holds exactly the cards of that rank |
| HandEvaluator.NotOfRank | frontend/js/poker-game.js:1288 | the filter keeps exactly the cards of other ranks, and its size is the rest |
| HandEvaluator.NotOfRanks | frontend/js/poker-game.js:1360-1363 | the two-pair filter keeps exactly the cards of neither pair rank |
| HandEvaluator.SortByRank | frontend/js/poker-game.js:1389-1391 | sortCardsByRank returns as many cards as it gets, in non-increasing rank order |
| HandEvaluator.SortByRankPermutation | frontend/js/poker-game.js:1389-1391 | the sort neither loses nor adds a card (multiset equality) |
| HandEvaluator.SortByRankIsStable | frontend/js/poker-game.js:1389-1391 | cards of equal rank leave the sort in the order they entered it |
| HandEvaluator.SortByRankMembers | frontend/js/poker-game.js:1389-1391 | a card is in the sorted list exactly when it is in the input |
| HandEvaluator.TopCards | frontend/js/poker-game.js:1406-1408 | getHighCards returns min(n, size) input cards in non-increasing rank order |
| HandEvaluator.TopCardsAreHighest | frontend/js/poker-game.js:1406-1408 | the cards getHighCards returns are taken from the input, all of it when it is short, and no card left out outranks the last one returned |
| HandEvaluator.TopCardsHeadIsMax | frontend/js/poker-game.js:1406-1408 | no input card outranks the first card getHighCards returns |
| HandEvaluator.ForInRanksMembers | frontend/js/poker-game.js:1284 | the for-in loop over rank groups visits exactly the ranks present |
| HandEvaluator.ForInRanksOrder | frontend/js/poker-game.js:1284 | the for-in loop visits each rank once: ranks 2..10 in ascending order, then the face ranks in the order the hand first shows them |
| HandEvaluator.FindGroup | frontend/js/poker-game.js:1284-1293 | the first key, in loop order, whose group has the wanted size, and no earlier key qualifies; none found means no key qualifies |
| HandEvaluator.FirstGroupRank | frontend/js/poker-game.js:1304-1318 | a found rank is present, differs from the skipped rank and has a group of the wanted size, and is the first such rank in for-in order; none found means no rank qualifies |
| HandEvaluator.PairRanksSpec | frontend/js/poker-game.js:1349-1357 | the sorted pairs are exactly the ranks with two cards or more, strictly decreasing |
| HandEvaluator.OfSuit | frontend/js/poker-game.js:1231-1237 | a suit group holds exactly the cards of that suit |
| HandEvaluator.FindFlushSuit | frontend/js/poker-game.js:1239-1244 | the suit found has five cards or more; none found means no suit has five |
| HandEvaluator.DistinctRanksSpec | frontend/js/poker-game.js:1250 | the unique ranks are exactly the ranks present, strictly decreasing |
| HandEvaluator.FindRun | frontend/js/poker-game.js:1257-1258 | the first window whose fifth value is four above its first; none before it; none found means no window |
| HandEvaluator.FirstOfRank | frontend/js/poker-game.js:1266 | the find returns the first card of the sorted list that has the wanted rank |
| HandEvaluator.StraightCards | frontend/js/poker-game.js:1260-1268 | one card per window value: the first sorted card of that value's rank, Ace for 1 |
| HandEvaluator.AceLowRanksOccur | frontend/js/poker-game.js:1253-1255 | every value of the scanned list, including the prepended 1, stands for a rank present |
| HandEvaluator.CategoryDecides | frontend/js/poker-game.js:1412-1414 | a higher category wins and a lower category loses, whatever the cards |
| HandEvaluator.CompareHands | frontend/js/poker-game.js:1411-1426 | the loop returns the category difference, else the rank difference at the first differing index, else 0 |
| HandEvaluator.CompareFromFirstDifference | frontend/js/poker-game.js:1417-1425 | the card loop gives 0 exactly when all ranks agree, else the difference at the first differing index |
| HandEvaluator.CompareReflexive | frontend/js/poker-game.js:1411-1426 | a hand ties with itself |
| HandEvaluator.CompareAntisymmetric | frontend/js/poker-game.js:1411-1426 | exchanging the hands negates the result |
| HandEvaluator.CompareZeroIff | frontend/js/poker-game.js:1411-1426 | a tie exactly when the categories and all tie-break ranks agree |
| HandEvaluator.CompareIsLexicographic | frontend/js/poker-game.js:1417-1425 | with equal categories a non-zero result is the rank difference at the first differing index |
| HandEvaluator.CompareTransitive | frontend/js/poker-game.js:1411-1426 | beating is transitive among hands of equal size |
| HandProperties.HasRankIff | frontend/js/poker-game.js:1394-1403 | a rank group exists exactly when some card has that rank |
| HandProperties.GroupWithKickersGroup | frontend/js/poker-game.js:1291 | the whole rank group comes first and fixes the hand's rank; the length is the group plus the kickers available |
| HandProperties.GroupWithKickersKickers | frontend/js/poker-game.js:1287-1290 | the kickers are of other ranks, highest first |
| HandProperties.GroupWithKickersTopKicker | frontend/js/poker-game.js:1287-1290 | no card of another rank outranks the first kicker |
| HandProperties.GroupWithKickersHighest | frontend/js/poker-game.js:1287-1290 | the kickers are cards of other ranks, and no card of another rank left out outranks the last kicker |
| HandProperties.GroupWithKickersMembers | frontend/js/poker-game.js:1287-1291 | the group and kickers are input cards |
| HandProperties.FourOfAKindIff | frontend/js/poker-game.js:1281-1295 | checkFourOfAKind matches exactly when some rank has exactly four cards |
| HandProperties.FourOfAKindShape | frontend/js/poker-game.js:1281-1295 | four cards of one rank then the highest card of another rank; five cards from five or more |
| HandProperties.FullHouseIff | frontend/js/poker-game.js:1298-1325 | checkFullHouse matches exactly when one rank has three or more and a different rank two or more |
| HandProperties.FullHouseShape | frontend/js/poker-game.js:1298-1325 | three cards of one rank then two of a different rank, taken from their groups; the trips are the first rank in for-in order with three cards, the pair the first other rank in that order with two |
| HandProperties.FullHouseTakesLowPairFirst | frontend/js/poker-game.js:1313-1318 | a pair of rank 2..10 beside the trips is taken before any pair of face cards, whatever their ranks |
| HandProperties.FullHouseTakesLowTripsFirst | frontend/js/poker-game.js:1304-1309 | with three cards of a rank 2..10 and three face cards, the face cards are never taken as the trips |
| HandProperties.FullHouseMembers | frontend/js/poker-game.js:1298-1325 | the full house is made of input cards |
| HandProperties.ThreeOfAKindIff | frontend/js/poker-game.js:1328-1342 | checkThreeOfAKind matches exactly when some rank has exactly three cards |
| HandProperties.ThreeOfAKindShape | frontend/js/poker-game.js:1328-1342 | the three cards of one rank then two cards of other ranks, highest first, with no card of another rank left out outranking them |
| HandProperties.TwoPairIff | frontend/js/poker-game.js:1345-1369 | checkTwoPair matches exactly when two different ranks have two cards or more |
| HandProperties.PairRanksTop | frontend/js/poker-game.js:1357 | after sorting, the first pair rank is the highest and the second is the highest of the rest |
| HandProperties.TwoPairPairs | frontend/js/poker-game.js:1355-1366 | two cards of the highest pair rank, two of the next, then the highest card of neither rank |
| HandProperties.TwoPairShape | frontend/js/poker-game.js:1345-1369 | the two highest pair ranks, descending, then the kicker; four or five cards |
| HandProperties.TwoPairMembers | frontend/js/poker-game.js:1345-1369 | the two pair hand is made of input cards |
| HandProperties.OnePairIff | frontend/js/poker-game.js:1372-1386 | checkOnePair matches exactly when some rank has exactly two cards |
| HandProperties.OnePairShape | frontend/js/poker-game.js:1372-1386 | the two cards of one rank then three cards of other ranks, highest first, with no card of another rank left out outranking them |
| HandProperties.FlushIff | frontend/js/poker-game.js:1230-1245 | checkFlush matches exactly when some suit has five cards or more |
| HandProperties.FlushShape | frontend/js/poker-game.js:1230-1245 | every card of one suit and nothing else, highest rank first, at least five |
| HandProperties.FlushPermutation | frontend/js/poker-game.js:1239-1242 | the flush cards are a reordering of one suit's group of five or more |
| HandProperties.StraightIff | frontend/js/poker-game.js:1248-1273 | checkStraight matches exactly when an Ace is present and 5 is the fourth-highest distinct rank |
| HandProperties.StraightShape | frontend/js/poker-game.js:1248-1273 | a found straight is the first Ace twice, then the next two distinct ranks' first cards, then a 5 |
| HandProperties.StraightWindow | frontend/js/poker-game.js:1257-1269 | the straight's cards are the first sorted cards of the ranks of the window found |
| HandProperties.StraightMembers | frontend/js/poker-game.js:1248-1273 | the straight is made of input cards |
| HandProperties.AceFirst | frontend/js/poker-game.js:1250-1255 | with an Ace present the highest distinct rank is 14 |
| HandProperties.BroadwayNotFound | frontend/js/poker-game.js:1248-1273 | A-K-Q-J-10 on its own is not found as a straight |
| HandProperties.WheelNotFound | frontend/js/poker-game.js:1248-1273 | A-2-3-4-5 on its own is not found either |
| HandProperties.StraightFlushLeadsWithAce | frontend/js/poker-game.js:1276-1278 | a straight found in the flush cards always starts with an Ace |
| HandProperties.TryStraightFlushSplit | frontend/js/poker-game.js:1121-1141 | the top of the cascade reports a royal flush for every hit of the flush scan, else falls through to four of a kind |
| HandProperties.BestHandReports | frontend/js/poker-game.js:1116-1226 | the whole cascade reports the reference category, keeps to the input, and on distinct cards reports five cards |
| HandProperties.BestHandCategory | frontend/js/poker-game.js:1116-1226 | the category is the first, from royal flush down, whose condition on rank and suit counts holds |
| HandProperties.BestHandMembers | frontend/js/poker-game.js:1116-1226 | every reported card is an input card |
| HandProperties.BestHandFiveCards | frontend/js/poker-game.js:1116-1226 | with five or more distinct cards the hand has exactly five cards |
| HandProperties.FirstFromTop | frontend/js/poker-game.js:1121-1141 | the reference ranking gives royal flush exactly on a flush-scan hit and never straight flush |
| HandProperties.RoyalFlushIff | frontend/js/poker-game.js:1121-1141 | findBestHand reports royal flush exactly on a flush-scan hit and never reports straight flush |
| HandProperties.GroupsOfDistinct | frontend/js/poker-game.js:1394-1403 | among distinct cards no rank group has more than four cards |
| Table.StageIndex | frontend/js/poker-game.js:1055-1099 | stages are numbered 0..4 in the order they are played |
| Table.NextStage | frontend/js/poker-game.js:1055-1099 | dealing moves one stage forward; the showdown is last |
| Table.DealingAddsUp | frontend/js/poker-game.js:1055-1099 | dealing adds 3, 1, 1, 0 cards to the board as the stage moves on |
| Table.CardsLeft | frontend/js/poker-game.js:986-988 | counted deal by deal, the cards still to be dealt before the showdown are exactly the community cards the table lacks, none at the showdown |
| Table.DrawnDistinct | frontend/js/poker-game.js:602-604 | cards drawn from a full deck are distinct |
| Betting.BetsKeepCards | frontend/js/poker-game.js:661-663 | a handler that moves only chips keeps the cards in play |
| Betting.BetsKeep | frontend/js/poker-game.js:661-663 | a handler that moves chips between a stack and the pot keeps all the invariants |
| Betting.StartNewRound | frontend/js/poker-game.js:596-648 | a new hand starts before the flop with an empty board |
| Betting.DealNewHand | frontend/js/poker-game.js:603-634 | the deal keeps the stage and leaves the board empty |
| Betting.StartNewRoundDeals | frontend/js/poker-game.js:596-648 | after startNewRound: the cards in play are a full deck, 2 + 2 dealt, 48 left; pot 30, bet 20; the small blind pays 10 and the big blind 20; the small blind acts first; the hand counter goes up by one |
| Betting.StartNewRoundCards | frontend/js/poker-game.js:602-605 | a new hand has the cards-in-play invariant |
| Betting.HoleCardsDealt | frontend/js/poker-game.js:603-604 | four pops from a full 52-card deck give a hand in play |
| Betting.FreshDeck | frontend/js/poker-game.js:602 | the new deck is a permutation of the standard deck |
| Betting.TopFourCards | frontend/js/poker-game.js:603-604 | the four popped cards and the 48 left are the original deck |
| Betting.DealCommunityCards | frontend/js/poker-game.js:1047-1101 | dealing moves to the next stage and pops 3, 1, 1 or 0 cards |
| Betting.DealShowsCards | frontend/js/poker-game.js:1055-1099 | dealing changes only deck, board and stage; the flop is three cards, turn and river append one, the river deals none |
| Betting.DealKeepsCards | frontend/js/poker-game.js:1055-1099 | dealing moves cards from the deck to the board, none lost or added, and keeps the invariant |
| Betting.FlopKeepsCards | frontend/js/poker-game.js:1056-1062 | the three flop pops keep the cards in play |
| Betting.StreetKeepsCards | frontend/js/poker-game.js:1070-1082 | the turn or river pop keeps the cards in play |
| Betting.MovedKeepsCards | frontend/js/poker-game.js:1055-1099 | cards moved from the top of the deck to the board in any order keep the cards in play |
| Betting.DealToShowdown | frontend/js/poker-game.js:986-988 | the all-in loop `while stage != SHOWDOWN` terminates at the showdown and keeps the invariant |
| Betting.RiverShowdown | frontend/js/poker-game.js:1011-1012 | after the river only the stage moves on |
| Betting.DealToShowdownBets | frontend/js/poker-game.js:986-988 | dealing out the board changes nothing but the cards and the stage |
| Betting.ShowdownCards | frontend/js/poker-game.js:1430-1431 | at the showdown each player's seven cards are distinct and at least five |
| Betting.BestOfSeven | frontend/js/poker-game.js:1105-1113 | from seven distinct cards each evaluated hand has five cards |
| Betting.DetermineWinner | frontend/js/poker-game.js:1429-1452 | determineWinner keeps the chip total, empties the pot and changes only the stacks |
| Betting.Payout | frontend/js/poker-game.js:1436-1450 | paying out by a comparison result keeps the chip total and empties the pot |
| Betting.DetermineWinnerPays | frontend/js/poker-game.js:1436-1450 | the better hand gets the whole pot; on a tie the player gets floor(pot/2) and the bot the rest, so the shares differ by at most one |
| Betting.VerdictMirror | frontend/js/poker-game.js:1429-1433 | exchanging the seats negates the comparison |
| Betting.PayoutMirror | frontend/js/poker-game.js:1436-1450 | a pay-out with the seats exchanged is the exchanged pay-out (for an even pot on a tie) |
| Betting.ShowdownIsSymmetric | frontend/js/poker-game.js:1429-1452 | the showdown does not favour a seat, except for the odd chip of a split pot |
| Betting.HigherCategoryWins | frontend/js/poker-game.js:1429-1452 | the player whose seven cards rank in a higher category by the reference ranking takes the whole pot |
| Betting.PlayerActionRejects | frontend/js/poker-game.js:651-679 | an action is refused exactly for a fold with nothing to answer or a raise that is 0 or above the stack, and a refusal changes nothing |
| Betting.PlayerActionPasses | frontend/js/poker-game.js:651-679 | an accepted action ends the player's turn; the hand ends exactly on an accepted fold, which gives the pot to the bot |
| Betting.PlayerActionKeeps | frontend/js/poker-game.js:651-780 | every player action keeps the chip total, the cards and the stage |
| Betting.PlayerRaiseSetsBet | frontend/js/poker-game.js:763-769 | a raise below the stack becomes the bet to answer, moves its amount to the pot and leaves the last raise 0 |
| Betting.PlayerCallSettles | frontend/js/poker-game.js:681-748 | a call ends the round with nothing owed, or passes to the bot with the bet unchanged or as an all-in |
| Betting.AllInKeeps | frontend/js/poker-game.js:962-1001 | an all-in keeps the chip total and the cards |
| Betting.AllInNext | frontend/js/poker-game.js:962-1001 | the player's all-in becomes the bet and the bot acts; the bot's all-in goes to the showdown when it covers the bet, else the player acts |
| Betting.PlayShowdown | frontend/js/poker-game.js:984-991 | dealing out and paying out ends at the showdown with an empty pot |
| Betting.ShowdownKeeps | frontend/js/poker-game.js:984-991 | the showdown keeps the chip total and the cards and leaves the bets as they were |
| Betting.PaidOutKeeps | frontend/js/poker-game.js:1436-1450 | paying out the pot of a dealt-out board keeps all the invariants |
| Betting.BotRaiseKeeps | frontend/js/poker-game.js:937-959 | the bot's raise keeps the chip total, the cards and the stage |
| Betting.BotRaiseDoubles | frontend/js/poker-game.js:939-948 | a bot raise it can afford is at least twice the bet and at least one big blind, is paid from its stack, leaves the last raise 0 and hands the turn to the player |
| Betting.BotResponseKeeps | frontend/js/poker-game.js:893-934 | the bot's response keeps the chip total, the cards and the stage |
| Betting.BotDecisionKeeps | frontend/js/poker-game.js:783-857 | the bot's decision keeps the chip total, the cards and the stage |
| Betting.BotDecisionPasses | frontend/js/poker-game.js:783-857 | after the bot the player acts, the round ends, the showdown comes or the hand is over; never the bot again |
| Betting.BotShowdownWhen | frontend/js/poker-game.js:893-934 | the bot goes to the showdown only by calling on the river or by an all-in that covers the bet |
| Betting.BotFoldsOnlyFacingBet | frontend/js/poker-game.js:893-908 | facing a bet a low draw folds and gives the pot to the player; with nothing to answer the bot never folds |
| Betting.BotCallIgnoresLastRaise | frontend/js/poker-game.js:909 | with the last raise at 0 the quarter-stack rule never forces a call: the bot calls exactly on a draw below 0.7 |
| Betting.RoundEndKeeps | frontend/js/poker-game.js:1004-1044 | the round end keeps the chip total, the cards and the order of stages |
| Betting.RoundEndAdvances | frontend/js/poker-game.js:1004-1044 | game over changes nothing; after the river comes the showdown; otherwise the next street is dealt, the bets cleared and the small blind acts |
| Betting.ResetGameDeals | frontend/js/poker-game.js:1454-1482 | the next hand keeps both stacks less the blinds, flips the small blind, restarts the counter at 1 and deals a full deck |
| Game.GameState.constructor | frontend/js/poker-game.js:203-226 | a new record holds the starting state |
| Game.GameState.InitializeGameState | frontend/js/poker-game.js:203-226 | every field back to its starting value: 1000 chips each, nothing dealt, the bot in the small blind |
| Game.GameState.Pop | frontend/js/poker-game.js:603 | deck.pop() returns the last card and removes it |
| Game.GameState.StartNewRound | frontend/js/poker-game.js:596-648 | startNewRound's writes reach the state of Betting.StartNewRound |
| Game.GameState.DealNewHand | frontend/js/poker-game.js:603-634 | the deal, blinds and turn writes reach Betting.DealNewHand |
| Game.GameState.PostBlinds | frontend/js/poker-game.js:608-618 | the blinds go into the pot: 30 in the pot, bet 20, 10 from the small blind, 20 from the big blind |
| Game.GameState.DealHoleCards | frontend/js/poker-game.js:603-604 | the top two cards go to the player, the next two to the bot, 4 fewer in the deck |
| Game.GameState.PlayerAction | frontend/js/poker-game.js:651-679 | playerAction's writes reach Betting.PlayerAction |
| Game.GameState.PlayerCall | frontend/js/poker-game.js:681-748 | handlePlayerCall's writes reach Betting.PlayerCall |
| Game.GameState.PlayerRaise | frontend/js/poker-game.js:751-780 | handlePlayerRaise's writes reach Betting.PlayerRaise |
| Game.GameState.AllIn | frontend/js/poker-game.js:962-1001 | handleAllIn's writes reach Betting.AllIn |
| Game.GameState.PlayShowdown | frontend/js/poker-game.js:984-991 | the dealing loop keeps the invariant, terminates and, with determineWinner, reaches Betting.PlayShowdown |
| Game.GameState.BotDecision | frontend/js/poker-game.js:783-857 | botDecision's writes reach Betting.BotDecision |
| Game.GameState.BotResponse | frontend/js/poker-game.js:893-934 | handleBotResponse's writes reach Betting.BotResponse |
| Game.GameState.BotRaise | frontend/js/poker-game.js:937-959 | handleBotRaise's writes reach Betting.BotRaise |
| Game.GameState.RoundEnd | frontend/js/poker-game.js:1004-1044 | handleRoundEnd's writes reach Betting.RoundEnd |
| Game.GameState.ClearBets | frontend/js/poker-game.js:1019-1022 | the round's bet, last raise and response flag are cleared and the round is fresh |
| Game.GameState.DealCommunityCards | frontend/js/poker-game.js:1047-1101 | the pops and stage write reach Betting.DealCommunityCards |
| Game.GameState.DetermineWinner | frontend/js/poker-game.js:1429-1452 | determineWinner's writes reach Betting.DetermineWinner |
| Game.GameState.PayOut | frontend/js/poker-game.js:1436-1450 | the pay-out writes reach Betting.Payout for the comparison result |
| Game.GameState.CompareBestHands | frontend/js/poker-game.js:1430-1433 | evaluating both hands and comparing them gives Betting.Verdict, changing nothing |
| Game.GameState.ResetGame | frontend/js/poker-game.js:1454-1482 | resetGame's writes reach Betting.ResetGame |
| Game.GameState.CheckGameEnd | frontend/js/poker-game.js:1484-1496 | checkGameEnd is true exactly when a stack is at or below 0 |
| LegacyBetting.StartNewRound | test/poker-game.js:294-333 | a new hand starts before the flop with an empty board |
| LegacyBetting.DealNewHand | test/poker-game.js:299-320 | the deal keeps the stage and leaves the board empty |
| LegacyBetting.StartNewRoundDeals | test/poker-game.js:294-333 | after startNewRound: a full deck in play, pot 30, bet 20, the blinds paid per the small-blind flag, and the player acts first exactly when not in the small blind |
| LegacyBetting.TurnRuleDiffers | test/poker-game.js:318 | the earlier startNewRound deals like the browser game's but gives the first turn to the other player |
| LegacyBetting.ResetGameDeals | test/poker-game.js:578-596 | the next hand keeps both stacks less the blinds, flips the small blind and deals a full deck |
| LegacyBetting.PlayerActionRejects | test/poker-game.js:336-415 | an action is refused exactly for a call above the stack (when it is not a check) or a raise above the stack or below twice the bet, and a refusal changes nothing |
| LegacyBetting.PlayerActionKeeps | test/poker-game.js:336-415 | every player action keeps the chip total, the cards and the stage |
| LegacyBetting.PlayerActionEffects | test/poker-game.js:338-378 | a fold gives the pot to the bot; a check moves no chips; a call pays the whole current bet and ends the round |
| LegacyBetting.PlayerRaiseSetsBet | test/poker-game.js:381-407 | an accepted raise becomes the bet, is paid from the stack, asks for a response and leaves the last raise 0 |
| LegacyBetting.BotDecisionKeeps | test/poker-game.js:417-502 | the bot keeps the chip total, the cards and the stage |
| LegacyBetting.BotDecisionPasses | test/poker-game.js:417-502 | after the bot the player acts, the round ends or the hand is over; a fold needs a bet to answer and a draw below 0.2 |
| LegacyBetting.BotAnswers | test/poker-game.js:445-499 | facing a bet: a fold gives the whole pot to the player; a raise is 2 x bet within the stack; a call pays the whole bet |
| LegacyBetting.BotRaiseWhen | test/poker-game.js:457-499 | on a draw of 0.7 or more the bot re-raises exactly when the quarter-stack rule does not force a call and it can afford 2 x bet |
| LegacyBetting.DetermineWinner | test/poker-game.js:562-576 | the coin's pay-out keeps the chip total, empties the pot and changes only the stacks |
| LegacyBetting.DetermineWinnerPays | test/poker-game.js:562-576 | the coin's winner takes the whole pot and the other stack stays |
| LegacyBetting.RoundEndKeeps | test/poker-game.js:505-533 | the round end keeps the chip total, the cards and the order of stages |
| LegacyBetting.RoundEndAdvances | test/poker-game.js:505-533 | game over changes nothing; at the showdown the coin pays out; otherwise the next street is dealt, the bets cleared and the player acts |
| LegacyGame.GameState.constructor | test/poker-game.js:68-87 | a new record holds the starting state |
| LegacyGame.GameState.InitializeGameState | test/poker-game.js:68-87 | every field back to its starting value |
| LegacyGame.GameState.Pop | test/poker-game.js:300 | deck.pop() returns the last card and removes it |
| LegacyGame.GameState.StartNewRound | test/poker-game.js:294-333 | startNewRound's writes reach LegacyBetting.StartNewRound |
| LegacyGame.GameState.DealNewHand | test/poker-game.js:299-320 | the deal, blinds and turn writes reach LegacyBetting.DealNewHand |
| LegacyGame.GameState.PostBlinds | test/poker-game.js:304-315 | the blinds go into the pot: 30 in the pot, bet 20, 10 from the small blind, 20 from the big blind |
| LegacyGame.GameState.DealHoleCards | test/poker-game.js:300-301 | the top two cards go to the player, the next two to the bot |
| LegacyGame.GameState.PlayerAction | test/poker-game.js:336-415 | playerAction's writes reach LegacyBetting.PlayerAction |
| LegacyGame.GameState.PlayerCall | test/poker-game.js:348-378 | the call case's writes reach LegacyBetting.PlayerCall |
| LegacyGame.GameState.PlayerRaise | test/poker-game.js:381-407 | the raise case's writes reach LegacyBetting.PlayerRaise |
| LegacyGame.GameState.BotDecision | test/poker-game.js:417-502 | botDecision's writes reach LegacyBetting.BotDecision |
| LegacyGame.GameState.BotCall | test/poker-game.js:457-468 | the bot's call writes reach LegacyBetting.BotCall |
| LegacyGame.GameState.BotRaise | test/poker-game.js:469-498 | the bot's re-raise writes reach LegacyBetting.BotRaise |
| LegacyGame.GameState.RoundEnd | test/poker-game.js:505-533 | handleRoundEnd's writes reach LegacyBetting.RoundEnd |
| LegacyGame.GameState.ClearBets | test/poker-game.js:518-522 | the round's bet, last raise and response flag are cleared and the round is fresh |
| LegacyGame.GameState.DealCommunityCards | test/poker-game.js:536-559 | the pops and the stage write reach Betting.DealCommunityCards |
| LegacyGame.GameState.DetermineWinner | test/poker-game.js:562-576 | the coin's pay-out writes reach LegacyBetting.DetermineWinner |
| LegacyGame.GameState.ResetGame | test/poker-game.js:578-596 | resetGame's writes reach LegacyBetting.ResetGame |
| LegacyGame.GameState.CheckGameEnd | test/poker-game.js:598-611 | checkGameEnd is true exactly when a stack is at or below 0 |

## Left out

- Rendering and the page: `updateDisplay`, `updateControls`, `createCardElement`, `updateActionLog`, `updatePositionMarkers`, `setGameStatus`, `initializeElements`, `showRestartButton`, `alert` and the style sheets. They draw the game and hold no rules.
- Timers: `setTimeout` is flattened into the returned `Table.Step`. The timing, and any user input that arrives while a timer is pending, is not modelled.
- Randomness: `Math.random` becomes the `picks`, `random` and `playerWins` parameters. That the draws are uniform is not modelled.
- The action log `currentHandActions` and its timestamps: no rule reads it.
- `amountToBB`, `toFixed` and the pot-percentage options of `getBettingOptionsForStage`: display arithmetic only.
- The server: the `apiStartGame` and `apiEndGame` awaits in `startGame` and `resetGame`; `api.js`, `login.js`, `auth-check.js` and `backend/server.js` are not part of this model.
- `handleBotFirstAction` in the browser game: it is never called.
- `startGame` of both files: it only hides a button, then calls `initializeGameState` and `startNewRound`, which are modelled.
- Raise amounts are integers. The browser game's `!raiseAmount` test is modelled as `amount == 0`, so its NaN and undefined cases are left out. The earlier file's `parseInt` of the input box and its NaN case are left out too, as is its missing-input early return.
- HandEvaluator.TopCards: `getHighCards(..., 1)[0]` on an empty list gives `undefined` in the program, which four of a kind and two pair would append. The model appends nothing. This happens only with fewer than five cards, which the showdown never evaluates.
- Betting.StartNewRound and LegacyBetting.StartNewRound: `deck.pop()` on an empty deck is not modelled, because the deck is freshly built with 52 cards.
- Betting.RoundEnd and LegacyBetting.RoundEnd require the cards-in-play invariant, which every hand starts with and every handler keeps. The program would pop `undefined` from an empty deck, which cannot happen here.
- The chip amounts are unbounded integers. JavaScript numbers lose precision far beyond any reachable stack.
- Behaviour of the program as written that the contracts record rather than correct:
  - every raise leaves `lastRaise` at 0, so the bot's quarter-stack rule only fires on a negative stack;
  - every bot call pays the whole current bet, not the shortfall;
  - the big blind's preflop call subtracts 20 from the bet owed;
  - a bot check on the river ends the round;
  - `resetGame` does not check whether the game is over;
  - the earlier bot's opening bet of 20 is made even without the chips for it;
  - the player's all-in sets the bet to the stack even when the stack is below the current bet;
  - `checkFullHouse` takes the first trips and the first pair in for-in order, which puts ranks 2..10 before the face ranks: K♠K♥K♦Q♠Q♥5♠5♥ gives K K K 5 5 and K♠K♥K♦5♠5♥5♦2♣ gives 5 5 5 K K (`FullHouseTakesLowPairFirst`, `FullHouseTakesLowTripsFirst`).
- Where the program's evident intent or the standard Texas Hold'em rules and the code disagree, the model follows the code:
  - The comment at frontend/js/poker-game.js:1252 marks special handling for the A2345 straight, and the rules rank the highest straight, including the wheel. The code finds a straight only when an Ace and a 5 are present, and then reports the Ace twice (`StraightShape`, `BroadwayNotFound`, `WheelNotFound`).
  - The branch at frontend/js/poker-game.js:1126 reserves the royal flush for a straight flush led by an Ace, so other straight flushes should be reported as straight flushes. The code reports every straight flush it finds as a royal flush (`RoyalFlushIff`).
  - By the rules, the big blind may check once the small blind has completed the blind. In the code the bot answers the completed blind by calling the full 20 bet (`BotCallIgnoresLastRaise`), or by raising.
