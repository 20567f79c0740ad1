/**
 * The heads-up betting state machine of the browser game: one player against
 * a bot, blinds of 10 and 20, each hand dealt from a freshly shuffled deck.
 *
 * The game state is a record of fields that the handlers update in place. The
 * value `State` holds those fields, and each handler is given here as a pure
 * transition on it (`PlayerAction`, `BotDecision`, `RoundEnd`, ...). The
 * lemmas state what each transition keeps: chips are neither created nor
 * destroyed, the stage only moves forward, the cards in play stay the 52 of
 * one deck. Module `Game` holds the mutable record itself.
 *
 * A handler ends by starting a timer that runs the next handler; here it
 * returns that next step instead (see `Table.Step`). Math.random becomes a
 * parameter: the shuffle's choices (`picks`) and the bot's draw (`random`).
 */
module Betting {
  import opened Cards
  import opened HandEvaluator
  import HandProperties
  import opened Table

  const SmallBlind: int := 10
  const BigBlind: int := 20
  const StartingChips: int := 1000

  /** The fields of the game state that the betting logic reads and writes. */
  datatype State = State(
    deck: seq<Card>,
    playerHand: seq<Card>,
    botHand: seq<Card>,
    communityCards: seq<Card>,
    stage: Stage,
    pot: int,
    playerChips: int,
    botChips: int,
    currentBet: int,
    isPlayerSmallBlind: bool,
    isPlayerTurn: bool,
    needResponse: bool,
    roundFirstAction: bool,
    lastRaise: int,
    handNumber: int)

  /** The state a handler leaves behind and the step its timer starts. */
  datatype Outcome = Outcome(state: State, next: Step)

  /** initializeGameState: 1000 chips each, nothing dealt, the bot in the small blind. */
  function Initial(): State
  {
    State([], [], [], [], Preflop, 0, StartingChips, StartingChips, 0,
          false, false, false, true, 0, 0)
  }

  /** All chips on the table: both stacks and the pot. */
  function Chips(s: State): int
  {
    s.playerChips + s.botChips + s.pot
  }

  /** The dealt cards in the order they left the deck. */
  function Dealt(s: State): seq<Card>
  {
    s.playerHand + s.botHand + s.communityCards
  }

  /**
   * The cards of a hand in play: two hole cards each, as many community cards
   * as the stage shows, and the dealt cards together with the deck are the 52
   * cards of a standard deck, each once.
   */
  ghost predicate CardsOk(s: State)
  {
    && |s.playerHand| == 2 && |s.botHand| == 2
    && |s.communityCards| == CommunityCount(s.stage)
    && |s.deck| + |s.communityCards| == 48
    && multiset(Dealt(s) + s.deck) == multiset(StandardDeck())
  }

  /** Both players' seven cards can be evaluated into five-card hands. */
  predicate ShowdownReady(s: State)
  {
    && |s.playerHand + s.communityCards| >= 5 && Distinct(s.playerHand + s.communityCards)
    && |s.botHand + s.communityCards| >= 5 && Distinct(s.botHand + s.communityCards)
  }

  /** The cards, both dealt and undealt, are the same. */
  predicate SameCards(s: State, t: State)
  {
    t.deck == s.deck && t.playerHand == s.playerHand && t.botHand == s.botHand
    && t.communityCards == s.communityCards
  }

  /** checkGameEnd: the game is over once either stack is empty or below. */
  predicate GameEnded(s: State)
  {
    s.playerChips <= 0 || s.botChips <= 0
  }

  /** The values Math.random returns. */
  predicate IsRandom(random: real)
  {
    0.0 <= random < 1.0
  }

  function Max(a: int, b: int): int
  {
    if a >= b then a else b
  }

  /**
   * What every handler keeps: the chips on the table, the cards in play, the
   * order of the stages, a last raise of 0, and an empty pot when the next
   * hand is due.
   */
  ghost predicate Keeps(s: State, o: Outcome)
  {
    && Chips(o.state) == Chips(s)
    && (CardsOk(s) ==> CardsOk(o.state))
    && StageIndex(o.state.stage) >= StageIndex(s.stage)
    && (s.lastRaise == 0 ==> o.state.lastRaise == 0)
    && (o.next == NextHand ==> o.state.pot == 0)
  }

  /** A change of the bets alone keeps the cards in play. */
  lemma BetsKeepCards(s: State, t: State)
    requires SameCards(s, t) && CommunityCount(t.stage) == CommunityCount(s.stage)
    ensures CardsOk(s) ==> CardsOk(t)
  {
    assert Dealt(t) == Dealt(s);
  }

  /** A handler that moves chips only, keeping their total, keeps everything Keeps asks for. */
  lemma BetsKeep(s: State, o: Outcome)
    requires SameCards(s, o.state) && o.state.stage == s.stage && Chips(o.state) == Chips(s)
    requires s.lastRaise == 0 ==> o.state.lastRaise == 0
    requires o.next == NextHand ==> o.state.pot == 0
    ensures Keeps(s, o)
  {
    BetsKeepCards(s, o.state);
  }

  // ---------------------------------------------------------------------------
  // Dealing

  /** startNewRound: the hand counter moves on and a new shuffled deck is dealt from. */
  function StartNewRound(s: State, picks: seq<nat>): (o: Outcome)
    requires ValidPicks(picks, 52)
    ensures o.state.stage == Preflop && o.state.communityCards == []
  {
    DealNewHand(s.(handNumber := s.handNumber + 1, stage := Preflop, deck := Shuffled(StandardDeck(), picks)))
  }

  /**
   * The rest of startNewRound: two cards each from the top of the deck, the
   * blinds posted, and the small blind to act first.
   */
  function DealNewHand(s: State): (o: Outcome)
    requires |s.deck| >= 4
    ensures o.state.stage == s.stage && o.state.communityCards == []
  {
    var d, n := s.deck, |s.deck|;
    var t := s.(deck := d[..n - 4], playerHand := [d[n - 1], d[n - 2]], botHand := [d[n - 3], d[n - 4]],
                communityCards := [],
                pot := BigBlind + SmallBlind, currentBet := BigBlind,
                playerChips := s.playerChips - (if s.isPlayerSmallBlind then SmallBlind else BigBlind),
                botChips := s.botChips - (if s.isPlayerSmallBlind then BigBlind else SmallBlind),
                isPlayerTurn := s.isPlayerSmallBlind, roundFirstAction := true, needResponse := false);
    Outcome(t, if t.isPlayerTurn then AwaitPlayer else BotToAct)
  }

  /**
   * A new hand holds the 52 cards of a deck, each once; the two blinds are in
   * the pot; the small blind acts first.
   */
  lemma StartNewRoundDeals(s: State, picks: seq<nat>)
    requires ValidPicks(picks, 52)
    ensures var o := StartNewRound(s, picks);
      && CardsOk(o.state)
      && o.state.pot == SmallBlind + BigBlind && o.state.currentBet == BigBlind
      && Chips(o.state) == s.playerChips + s.botChips
      && o.state.playerChips == s.playerChips - (if s.isPlayerSmallBlind then SmallBlind else BigBlind)
      && o.state.isPlayerSmallBlind == s.isPlayerSmallBlind && o.state.lastRaise == s.lastRaise
      && o.state.roundFirstAction && !o.state.needResponse
      && o.state.handNumber == s.handNumber + 1
      && o.state.isPlayerTurn == s.isPlayerSmallBlind
      && o.next == (if s.isPlayerSmallBlind then AwaitPlayer else BotToAct)
  {
    StartNewRoundCards(s, picks);
  }

  lemma StartNewRoundCards(s: State, picks: seq<nat>)
    requires ValidPicks(picks, 52)
    ensures CardsOk(StartNewRound(s, picks).state)
  {
    FreshDeck(picks);
    HoleCardsDealt(StartNewRound(s, picks).state, Shuffled(StandardDeck(), picks));
  }

  /** Two cards each from the top of a full deck leave a hand in play. */
  lemma HoleCardsDealt(t: State, d: seq<Card>)
    requires |d| == 52 && multiset(d) == multiset(StandardDeck())
    requires t.playerHand == [d[51], d[50]] && t.botHand == [d[49], d[48]]
    requires t.communityCards == [] && t.deck == d[..48] && t.stage == Preflop
    ensures CardsOk(t)
  {
    TopFourCards(d);
    assert Dealt(t) + t.deck == [d[51], d[50], d[49], d[48]] + d[..48];
  }

  lemma FreshDeck(picks: seq<nat>)
    requires ValidPicks(picks, 52)
    ensures multiset(Shuffled(StandardDeck(), picks)) == multiset(StandardDeck())
  {
    ShuffledIsPermutation(StandardDeck(), picks);
  }

  /** Popping four cards off the deck leaves the other 48 in it. */
  lemma TopFourCards(d: seq<Card>)
    requires |d| == 52
    ensures multiset([d[51], d[50], d[49], d[48]] + d[..48]) == multiset(d)
  {
    assert d == d[..48] + [d[48], d[49], d[50], d[51]];
  }

  /** dealCommunityCards: the flop, the turn and the river come off the top of the deck. */
  function DealCommunityCards(s: State): (t: State)
    requires CardsToDeal(s.stage) <= |s.deck|
    ensures t.stage == NextStage(s.stage)
    ensures |t.deck| == |s.deck| - CardsToDeal(s.stage)
  {
    var n := |s.deck|;
    match s.stage
    case Preflop =>
      s.(communityCards := [s.deck[n - 1], s.deck[n - 2], s.deck[n - 3]], deck := s.deck[..n - 3], stage := Flop)
    case Flop =>
      s.(communityCards := s.communityCards + [s.deck[n - 1]], deck := s.deck[..n - 1], stage := Turn)
    case Turn =>
      s.(communityCards := s.communityCards + [s.deck[n - 1]], deck := s.deck[..n - 1], stage := River)
    case River => s.(stage := Showdown)
    case Showdown => s
  }

  /**
   * Dealing changes the board and the deck only: the flop replaces the board
   * with three cards, the turn and the river each add one card, and the
   * community cards already shown stay where they are.
   */
  lemma DealShowsCards(s: State)
    requires CardsToDeal(s.stage) <= |s.deck|
    ensures var t := DealCommunityCards(s);
      && t.(deck := s.deck, communityCards := s.communityCards, stage := s.stage) == s
      && (s.stage == Preflop ==> |t.communityCards| == 3)
      && (s.stage != Preflop ==> |t.communityCards| == |s.communityCards| + CardsToDeal(s.stage))
      && (s.stage != Preflop ==> t.communityCards[..|s.communityCards|] == s.communityCards)
      && (s.stage in {River, Showdown} ==> SameCards(s, t))
  {
  }

  /** Dealing moves cards from the deck to the table: none is lost or added. */
  lemma DealKeepsCards(s: State)
    requires CardsToDeal(s.stage) <= |s.deck|
    ensures s.stage != Preflop || s.communityCards == [] ==>
      multiset(Dealt(DealCommunityCards(s)) + DealCommunityCards(s).deck) == multiset(Dealt(s) + s.deck)
    ensures CardsOk(s) ==> CardsOk(DealCommunityCards(s))
  {
    if s.stage == Preflop {
      if s.communityCards == [] {
        FlopKeepsCards(s);
      }
    } else if s.stage == Flop || s.stage == Turn {
      StreetKeepsCards(s);
    } else {
      BetsKeepCards(s, DealCommunityCards(s));
      assert Dealt(DealCommunityCards(s)) == Dealt(s);
    }
  }

  lemma FlopKeepsCards(s: State)
    requires s.stage == Preflop && s.communityCards == [] && 3 <= |s.deck|
    ensures multiset(Dealt(DealCommunityCards(s)) + DealCommunityCards(s).deck) == multiset(Dealt(s) + s.deck)
    ensures CardsOk(s) ==> CardsOk(DealCommunityCards(s))
  {
    var t, d, n := DealCommunityCards(s), s.deck, |s.deck|;
    assert Dealt(t) == Dealt(s) + t.communityCards;
    assert d == t.deck + d[n - 3..];
    assert d[n - 3..] == [d[n - 3], d[n - 2], d[n - 1]];
    MovedKeepsCards(s, t, t.communityCards, d[n - 3..]);
  }

  lemma StreetKeepsCards(s: State)
    requires (s.stage == Flop || s.stage == Turn) && 1 <= |s.deck|
    ensures multiset(Dealt(DealCommunityCards(s)) + DealCommunityCards(s).deck) == multiset(Dealt(s) + s.deck)
    ensures CardsOk(s) ==> CardsOk(DealCommunityCards(s))
  {
    var t, d, n := DealCommunityCards(s), s.deck, |s.deck|;
    assert Dealt(t) == Dealt(s) + [d[n - 1]];
    assert d == t.deck + [d[n - 1]];
    MovedKeepsCards(s, t, [d[n - 1]], [d[n - 1]]);
  }

  /**
   * Moving cards from the top of the deck onto the table, in any order, keeps
   * the cards in play.
   */
  lemma MovedKeepsCards(s: State, t: State, moved: seq<Card>, top: seq<Card>)
    requires t.playerHand == s.playerHand && t.botHand == s.botHand
    requires Dealt(t) == Dealt(s) + moved && s.deck == t.deck + top
    requires multiset(moved) == multiset(top) && |moved| == CommunityCount(t.stage) - CommunityCount(s.stage)
    ensures multiset(Dealt(t) + t.deck) == multiset(Dealt(s) + s.deck)
    ensures CardsOk(s) ==> CardsOk(t)
  {
    calc {
      multiset(Dealt(t) + t.deck);
      multiset(Dealt(s)) + multiset(moved) + multiset(t.deck);
      multiset(Dealt(s)) + multiset(t.deck + top);
      multiset(Dealt(s) + s.deck);
    }
  }

  /** The loop of handleAllIn: deal until the showdown. */
  function DealToShowdown(s: State): (t: State)
    requires CardsLeft(s.stage) <= |s.deck|
    ensures t.stage == Showdown
    ensures CardsOk(s) ==> CardsOk(t)
    decreases 4 - StageIndex(s.stage)
  {
    if s.stage == Showdown then s
    else
      DealKeepsCards(s);
      DealToShowdown(DealCommunityCards(s))
  }

  /** After the river only the stage moves on. */
  lemma RiverShowdown(s: State)
    requires s.stage == River
    ensures DealToShowdown(s) == s.(stage := Showdown)
  {
    assert DealCommunityCards(s) == s.(stage := Showdown);
  }

  /** Dealing out the board changes nothing but the cards and the stage. */
  lemma {:induction false} DealToShowdownBets(s: State)
    requires CardsLeft(s.stage) <= |s.deck|
    ensures var t := DealToShowdown(s);
      && t.(deck := s.deck, communityCards := s.communityCards, stage := s.stage) == s
    decreases 4 - StageIndex(s.stage)
  {
    if s.stage != Showdown {
      DealShowsCards(s);
      DealToShowdownBets(DealCommunityCards(s));
    }
  }

  /** At the showdown both players hold seven distinct cards. */
  lemma ShowdownCards(s: State)
    requires CardsOk(s) && |s.communityCards| == 5
    ensures ShowdownReady(s)
  {
    var p, b, c := s.playerHand, s.botHand, s.communityCards;
    assert Dealt(s) + s.deck == p + b + c + s.deck;
    DrawnDistinct(p + c, Dealt(s) + s.deck);
    DrawnDistinct(b + c, Dealt(s) + s.deck);
  }

  // ---------------------------------------------------------------------------
  // The showdown

  /** evaluateHand for each player: the best five of hole and community cards. */
  function PlayerBest(s: State): EvaluatedHand
  {
    EvaluateHand(s.playerHand, s.communityCards)
  }

  function BotBest(s: State): EvaluatedHand
  {
    EvaluateHand(s.botHand, s.communityCards)
  }

  lemma BestOfSeven(s: State)
    requires ShowdownReady(s)
    ensures |PlayerBest(s).cards| == 5 && |BotBest(s).cards| == 5
  {
    HandProperties.BestHandFiveCards(s.playerHand + s.communityCards);
    HandProperties.BestHandFiveCards(s.botHand + s.communityCards);
  }

  /** compareHands of the player's best hand against the bot's. */
  function Verdict(s: State): int
    requires ShowdownReady(s)
  {
    BestOfSeven(s);
    Compare(PlayerBest(s), BotBest(s))
  }

  /**
   * determineWinner: the better hand takes the whole pot; a tie splits it, the
   * bot taking the odd chip. The pot is emptied and nothing else changes.
   */
  function DetermineWinner(s: State): (t: State)
    requires ShowdownReady(s)
    ensures Chips(t) == Chips(s) && t.pot == 0
    ensures t == s.(playerChips := t.playerChips, botChips := t.botChips, pot := 0)
  {
    Payout(s, Verdict(s))
  }

  /** The pot paid out by the result c of compareHands: to the player above 0, to the bot below. */
  function Payout(s: State, c: int): (t: State)
    ensures Chips(t) == Chips(s) && t.pot == 0
    ensures t == s.(playerChips := t.playerChips, botChips := t.botChips, pot := 0)
  {
    if c > 0 then s.(playerChips := s.playerChips + s.pot, pot := 0)
    else if c < 0 then s.(botChips := s.botChips + s.pot, pot := 0)
    else
      var half := s.pot / 2;
      s.(playerChips := s.playerChips + half, botChips := s.botChips + (s.pot - half), pot := 0)
  }

  /** The winner by compareHands receives the pot; on a tie the player gets the smaller half. */
  lemma DetermineWinnerPays(s: State)
    requires ShowdownReady(s)
    ensures var t := DetermineWinner(s);
      && (Verdict(s) > 0 ==> t.playerChips == s.playerChips + s.pot && t.botChips == s.botChips)
      && (Verdict(s) < 0 ==> t.botChips == s.botChips + s.pot && t.playerChips == s.playerChips)
      && (Verdict(s) == 0 ==>
            && t.playerChips - s.playerChips == s.pot / 2
            && t.botChips - s.botChips == s.pot - s.pot / 2
            && (s.pot >= 0 ==> t.playerChips - s.playerChips <= t.botChips - s.botChips <= t.playerChips - s.playerChips + 1))
  {
  }

  /** The same game with the two seats exchanged. */
  function Mirror(s: State): State
  {
    s.(playerHand := s.botHand, botHand := s.playerHand, playerChips := s.botChips, botChips := s.playerChips)
  }

  /** Exchanging the seats exchanges the two best hands, so compareHands changes sign. */
  lemma VerdictMirror(s: State)
    requires ShowdownReady(s)
    ensures ShowdownReady(Mirror(s))
    ensures Verdict(Mirror(s)) == -Verdict(s)
  {
    BestOfSeven(s);
    assert PlayerBest(Mirror(s)) == BotBest(s) && BotBest(Mirror(s)) == PlayerBest(s);
    CompareAntisymmetric(PlayerBest(s), BotBest(s));
  }

  /** Paying the other seat pays the mirrored game, unless an odd pot is split. */
  lemma PayoutMirror(s: State, c: int)
    requires c != 0 || s.pot % 2 == 0
    ensures Payout(Mirror(s), -c) == Mirror(Payout(s, c))
  {
  }

  /**
   * The showdown does not favour a seat: exchanging the hole cards and the
   * stacks exchanges the payout, except that the odd chip of a split pot
   * always goes to the bot.
   */
  lemma ShowdownIsSymmetric(s: State)
    requires ShowdownReady(s)
    ensures ShowdownReady(Mirror(s))
    ensures Verdict(s) != 0 || s.pot % 2 == 0 ==> DetermineWinner(Mirror(s)) == Mirror(DetermineWinner(s))
  {
    VerdictMirror(s);
    if Verdict(s) != 0 || s.pot % 2 == 0 {
      PayoutMirror(s, Verdict(s));
    }
  }

  /** A hand of a higher category, in the reference ranking of seven cards, takes the pot. */
  lemma HigherCategoryWins(s: State)
    requires ShowdownReady(s)
    ensures var pc, bc := HandProperties.ReferenceCategory(s.playerHand + s.communityCards),
                          HandProperties.ReferenceCategory(s.botHand + s.communityCards);
      && (CategoryValue(pc) > CategoryValue(bc) ==> DetermineWinner(s).playerChips == s.playerChips + s.pot)
      && (CategoryValue(pc) < CategoryValue(bc) ==> DetermineWinner(s).botChips == s.botChips + s.pot)
  {
    BestOfSeven(s);
    HandProperties.BestHandCategory(s.playerHand + s.communityCards);
    HandProperties.BestHandCategory(s.botHand + s.communityCards);
    CategoryDecides(PlayerBest(s), BotBest(s));
    DetermineWinnerPays(s);
  }

  // ---------------------------------------------------------------------------
  // The player's actions

  /**
   * playerAction: folding is refused while there is nothing to answer;
   * otherwise a fold gives the pot to the bot and ends the hand.
   */
  function PlayerAction(s: State, m: Move): Outcome
  {
    if m.Fold? && !s.needResponse && s.currentBet == 0 then Outcome(s, Rejected)
    else
      match m
      case Fold => Outcome(s.(botChips := s.botChips + s.pot, pot := 0, isPlayerTurn := false), NextHand)
      case Call => PlayerCall(s)
      case Raise(amount) => PlayerRaise(s, amount)
  }

  /**
   * handlePlayerCall: the small blind completes the big blind before the flop;
   * with nothing to call the player checks; the big blind checks its option
   * before the flop, which ends the round; otherwise the player calls the
   * current bet (less the big blind already posted before the flop), or goes
   * all-in when that is more than the stack.
   */
  function PlayerCall(s: State): Outcome
  {
    if s.stage == Preflop && s.isPlayerSmallBlind && s.roundFirstAction then
      var call := BigBlind - SmallBlind;
      Outcome(s.(playerChips := s.playerChips - call, pot := s.pot + call,
                 roundFirstAction := false, isPlayerTurn := false), BotToAct)
    else if !s.needResponse && s.currentBet == 0 then
      Outcome(s.(roundFirstAction := false, isPlayerTurn := false), BotToAct)
    else if s.stage == Preflop && !s.isPlayerSmallBlind && s.roundFirstAction then
      Outcome(s.(roundFirstAction := false, needResponse := false, currentBet := 0, isPlayerTurn := false), RoundEnds)
    else
      var call := s.currentBet - (if s.stage == Preflop && !s.isPlayerSmallBlind then BigBlind else 0);
      if call > s.playerChips then AllIn(s, Player, s.playerChips)
      else Outcome(s.(playerChips := s.playerChips - call, pot := s.pot + call,
                      needResponse := false, isPlayerTurn := false), RoundEnds)
  }

  /**
   * handlePlayerRaise: refuses no amount (0 or NaN) and more than the stack;
   * a raise of the whole stack is an all-in. The raise becomes the current bet.
   */
  function PlayerRaise(s: State, amount: int): Outcome
  {
    if amount == 0 || amount > s.playerChips then Outcome(s, Rejected)
    else if amount == s.playerChips then AllIn(s, Player, amount)
    else
      Outcome(s.(playerChips := s.playerChips - amount, pot := s.pot + amount, currentBet := amount,
                 lastRaise := amount - amount, needResponse := true, roundFirstAction := false,
                 isPlayerTurn := false), BotToAct)
  }

  /** The player's action is refused exactly in two cases, and a refused action changes nothing. */
  lemma PlayerActionRejects(s: State, m: Move)
    ensures var o := PlayerAction(s, m);
      && (o.next == Rejected <==>
            || (m.Fold? && !s.needResponse && s.currentBet == 0)
            || (m.Raise? && (m.amount == 0 || m.amount > s.playerChips)))
      && (o.next == Rejected ==> o.state == s)
  {
  }

  /**
   * An accepted action hands the turn on: the bot acts, the round ends, or the
   * hand is over (a fold, which gives the pot to the bot).
   */
  lemma PlayerActionPasses(s: State, m: Move)
    ensures var o := PlayerAction(s, m);
      && (o.next != Rejected ==> !o.state.isPlayerTurn && o.next in {BotToAct, RoundEnds, NextHand})
      && (o.next == NextHand <==> m.Fold? && (s.needResponse || s.currentBet != 0))
      && (o.next == NextHand ==> o.state.botChips == s.botChips + s.pot && o.state.playerChips == s.playerChips)
  {
  }

  /** The player's actions move chips but never cards, and keep the stage. */
  lemma PlayerActionKeeps(s: State, m: Move)
    ensures var o := PlayerAction(s, m);
      Keeps(s, o) && SameCards(s, o.state) && o.state.stage == s.stage
  {
    BetsKeep(s, PlayerAction(s, m));
  }

  /** An accepted raise below the stack becomes the bet the bot must answer. */
  lemma PlayerRaiseSetsBet(s: State, amount: int)
    requires amount != 0 && amount < s.playerChips
    ensures var o := PlayerRaise(s, amount);
      && o.next == BotToAct && o.state.needResponse && !o.state.roundFirstAction
      && o.state.currentBet == amount && o.state.lastRaise == 0
      && o.state.playerChips == s.playerChips - amount && o.state.pot == s.pot + amount
  {
  }

  /**
   * A call settles the bet: the round ends with nothing left to answer, or the
   * player checks and the bet stays, or the player goes all-in for a call
   * larger than the stack, which makes the stack the bet.
   */
  lemma PlayerCallSettles(s: State)
    ensures var o := PlayerCall(s);
      && o.next in {BotToAct, RoundEnds}
      && (o.next == RoundEnds ==> !o.state.needResponse)
      && (o.next == BotToAct ==>
            || o.state.currentBet == s.currentBet
            || (o.state.playerChips == 0 && o.state.currentBet == s.playerChips && o.state.needResponse))
  {
  }

  // ---------------------------------------------------------------------------
  // All-in and the showdown it leads to

  /**
   * handleAllIn: the chips go into the pot. The player's all-in sets the bet
   * the bot must answer. The bot's all-in, when it covers the bet, starts the
   * timer that deals the rest of the board and settles the showdown; when it
   * does not, the player is asked to respond.
   */
  function AllIn(s: State, who: Actor, amount: int): Outcome
  {
    match who
    case Player =>
      Outcome(s.(playerChips := s.playerChips - amount, pot := s.pot + amount, currentBet := amount,
                 needResponse := true, isPlayerTurn := false), BotToAct)
    case Bot =>
      var t := s.(botChips := s.botChips - amount, pot := s.pot + amount);
      if amount >= s.currentBet then Outcome(t, ShowdownDue)
      else Outcome(t.(needResponse := true, isPlayerTurn := true), AwaitPlayer)
  }

  lemma AllInKeeps(s: State, who: Actor, amount: int)
    ensures Keeps(s, AllIn(s, who, amount)) && SameCards(s, AllIn(s, who, amount).state)
  {
    BetsKeep(s, AllIn(s, who, amount));
  }

  /**
   * The player's all-in is the bet the bot answers next; the bot's all-in
   * goes to the showdown when it covers the bet, and otherwise leaves the
   * player to answer.
   */
  lemma AllInNext(s: State, who: Actor, amount: int)
    ensures var o := AllIn(s, who, amount);
      && (who == Player ==>
            && o.next == BotToAct && o.state.stage == s.stage
            && o.state.playerChips == s.playerChips - amount && o.state.pot == s.pot + amount
            && o.state.currentBet == amount && o.state.needResponse && !o.state.isPlayerTurn)
      && (who == Bot ==> o.state.botChips == s.botChips - amount && o.state.pot == s.pot + amount)
      && (who == Bot && amount >= s.currentBet ==>
            o.next == ShowdownDue && o.state == s.(botChips := s.botChips - amount, pot := s.pot + amount))
      && (who == Bot && amount < s.currentBet ==>
            o.next == AwaitPlayer && o.state.isPlayerTurn && o.state.needResponse)
  {
  }

  /**
   * The showdown: the timer started by an all-in deals the rest of the board,
   * one street at a time, and determineWinner pays out the pot.
   */
  function PlayShowdown(s: State): (t: State)
    requires CardsOk(s)
    ensures t.stage == Showdown && t.pot == 0
  {
    var u := DealToShowdown(s);
    ShowdownCards(u);
    DetermineWinner(u)
  }

  /** The showdown pays out the pot without changing the bets or the cards in play. */
  lemma ShowdownKeeps(s: State)
    requires CardsOk(s)
    ensures Keeps(s, Outcome(PlayShowdown(s), NextHand))
    ensures PlayShowdown(s).lastRaise == s.lastRaise && PlayShowdown(s).currentBet == s.currentBet
  {
    var u := DealToShowdown(s);
    DealToShowdownBets(s);
    ShowdownCards(u);
    PaidOutKeeps(s, u, DetermineWinner(u));
  }

  /** Paying out the pot of a board dealt from s keeps what Keeps asks for. */
  lemma PaidOutKeeps(s: State, u: State, t: State)
    requires CardsOk(s) && CardsOk(u) && u.stage == Showdown
    requires u.(deck := s.deck, communityCards := s.communityCards, stage := s.stage) == s
    requires Chips(t) == Chips(u) && t.pot == 0
    requires t == u.(playerChips := t.playerChips, botChips := t.botChips, pot := 0)
    ensures Keeps(s, Outcome(t, NextHand))
    ensures t.lastRaise == s.lastRaise && t.currentBet == s.currentBet
  {
    assert Dealt(t) == Dealt(u);
  }

  // ---------------------------------------------------------------------------
  // The bot

  /**
   * botDecision: as the small blind before the flop the bot completes the big
   * blind; with nothing to answer it checks (random < 0.4) or bets one big
   * blind, and checks when it cannot afford that; otherwise it responds.
   */
  function BotDecision(s: State, random: real): Outcome
  {
    if s.stage == Preflop && !s.isPlayerSmallBlind && s.roundFirstAction then
      var call := BigBlind - SmallBlind;
      Outcome(s.(botChips := s.botChips - call, pot := s.pot + call, roundFirstAction := false,
                 isPlayerTurn := true), AwaitPlayer)
    else if s.currentBet == 0 && !s.needResponse then
      if random < 0.4 then
        Outcome(s.(isPlayerTurn := true, roundFirstAction := false),
                if s.stage == River then RoundEnds else AwaitPlayer)
      else if BigBlind <= s.botChips then
        Outcome(s.(botChips := s.botChips - BigBlind, pot := s.pot + BigBlind, currentBet := BigBlind,
                   needResponse := true, isPlayerTurn := true), AwaitPlayer)
      else
        Outcome(s.(isPlayerTurn := true), RoundEnds)
    else
      BotResponse(s, random)
  }

  /**
   * handleBotResponse: all-in when the bet is at least the bot's stack; fold
   * (random < 0.2) only when facing a bet; call (random < 0.7, or the last
   * raise is more than a quarter of the stack), which on the river starts the
   * timer that settles the showdown; otherwise raise.
   */
  function BotResponse(s: State, random: real): Outcome
  {
    if s.currentBet >= s.botChips then AllIn(s, Bot, s.botChips)
    else if random < 0.2 && s.needResponse then
      Outcome(s.(playerChips := s.playerChips + s.pot, pot := 0, isPlayerTurn := false), NextHand)
    else if random < 0.7 || 4 * s.lastRaise > s.botChips then
      Outcome(s.(botChips := s.botChips - s.currentBet, pot := s.pot + s.currentBet, needResponse := false),
              if s.stage == River then ShowdownDue else RoundEnds)
    else
      BotRaise(s)
  }

  /** handleBotRaise: raise to twice the bet, at least one big blind, or all-in when short. */
  function BotRaise(s: State): Outcome
  {
    var amount := Max(2 * s.currentBet, BigBlind);
    if amount > s.botChips then AllIn(s, Bot, s.botChips)
    else
      Outcome(s.(botChips := s.botChips - amount, pot := s.pot + amount, currentBet := amount,
                 lastRaise := amount - amount, needResponse := true, isPlayerTurn := true), AwaitPlayer)
  }

  lemma BotRaiseKeeps(s: State)
    ensures Keeps(s, BotRaise(s)) && SameCards(s, BotRaise(s).state) && BotRaise(s).state.stage == s.stage
  {
    BetsKeep(s, BotRaise(s));
  }

  /**
   * A raise the bot can afford at least doubles the bet, is at least one big
   * blind, and hands the turn to the player; the last raise it records is 0.
   */
  lemma BotRaiseDoubles(s: State)
    requires Max(2 * s.currentBet, BigBlind) <= s.botChips
    ensures var o := BotRaise(s);
      && o.next == AwaitPlayer && o.state.isPlayerTurn && o.state.needResponse
      && o.state.currentBet >= 2 * s.currentBet && o.state.currentBet >= BigBlind
      && o.state.botChips == s.botChips - o.state.currentBet && o.state.lastRaise == 0
  {
  }

  lemma BotResponseKeeps(s: State, random: real)
    ensures var o := BotResponse(s, random);
      Keeps(s, o) && SameCards(s, o.state) && o.state.stage == s.stage
  {
    BetsKeep(s, BotResponse(s, random));
  }

  lemma BotDecisionKeeps(s: State, random: real)
    ensures var o := BotDecision(s, random);
      Keeps(s, o) && SameCards(s, o.state) && o.state.stage == s.stage
  {
    if s.stage == Preflop && !s.isPlayerSmallBlind && s.roundFirstAction {
      BetsKeep(s, BotDecision(s, random));
    } else if s.currentBet == 0 && !s.needResponse {
      BetsKeep(s, BotDecision(s, random));
    } else {
      BotResponseKeeps(s, random);
    }
  }

  /**
   * The bot never hands the action back to itself: after it the player acts
   * (and it is the player's turn), the round ends, the showdown is due, or the
   * hand is over.
   */
  lemma BotDecisionPasses(s: State, random: real)
    ensures var o := BotDecision(s, random);
      && o.next in {AwaitPlayer, RoundEnds, ShowdownDue, NextHand}
      && (o.next == AwaitPlayer ==> o.state.isPlayerTurn)
  {
  }

  /**
   * The bot goes to the showdown after calling on the river, or after an
   * all-in of its whole stack that covers the bet.
   */
  lemma BotShowdownWhen(s: State, random: real)
    ensures var o := BotDecision(s, random);
      o.next == ShowdownDue ==>
        || (s.stage == River && !o.state.needResponse)
        || (o.state.botChips == 0 && s.botChips >= s.currentBet)
  {
  }

  /**
   * Facing a bet it can cover, the bot folds for random below 0.2, which gives
   * the pot to the player; with nothing to answer it never folds.
   */
  lemma BotFoldsOnlyFacingBet(s: State, random: real)
    requires s.currentBet < s.botChips
    requires !(s.stage == Preflop && !s.isPlayerSmallBlind && s.roundFirstAction)
    ensures var o := BotDecision(s, random);
      && (s.needResponse && random < 0.2 ==> o.next == NextHand && o.state.playerChips == s.playerChips + s.pot)
      && (!s.needResponse ==> o.next != NextHand && o.state.playerChips == s.playerChips)
  {
  }

  /**
   * The last raise is always recorded as 0, so the bot's call never depends on
   * it: with a stack above 0, a bot that neither goes all-in nor folds calls
   * exactly when random is below 0.7.
   */
  lemma BotCallIgnoresLastRaise(s: State, random: real)
    requires s.lastRaise == 0 && s.currentBet < s.botChips && s.botChips > 0
    requires !(random < 0.2 && s.needResponse) && s.stage != River
    ensures BotResponse(s, random).next == RoundEnds <==> random < 0.7
  {
  }

  // ---------------------------------------------------------------------------
  // The end of a betting round and of a hand

  /**
   * handleRoundEnd: nothing happens once the game is over; after the river
   * comes the showdown; otherwise the bets are cleared, the next community
   * cards are dealt and the small blind acts first.
   */
  function RoundEnd(s: State): Outcome
    requires CardsOk(s)
  {
    if GameEnded(s) then Outcome(s, GameOver)
    else if s.stage == River then Outcome(PlayShowdown(s), NextHand)
    else
      var cleared := s.(currentBet := 0, lastRaise := 0, needResponse := false, roundFirstAction := true);
      var t := DealCommunityCards(cleared);
      Outcome(t.(isPlayerTurn := s.isPlayerSmallBlind), if s.isPlayerSmallBlind then AwaitPlayer else BotToAct)
  }

  lemma RoundEndKeeps(s: State)
    requires CardsOk(s)
    ensures Keeps(s, RoundEnd(s))
  {
    if !GameEnded(s) {
      if s.stage == River {
        ShowdownKeeps(s);
      } else {
        var cleared := s.(currentBet := 0, lastRaise := 0, needResponse := false, roundFirstAction := true);
        BetsKeepCards(s, cleared);
        DealKeepsCards(cleared);
        DealShowsCards(cleared);
        BetsKeepCards(DealCommunityCards(cleared), RoundEnd(s).state);
      }
    }
  }

  /**
   * The round ends in one of three ways: the game is over and nothing changes;
   * after the river the showdown pays out the pot; otherwise the next street
   * is dealt with the bets cleared and the small blind to act.
   */
  lemma RoundEndAdvances(s: State)
    requires CardsOk(s)
    ensures var o := RoundEnd(s);
      && (o.next == GameOver <==> GameEnded(s))
      && (o.next == GameOver ==> o.state == s)
      && (!GameEnded(s) && s.stage == River ==> o.next == NextHand && o.state.stage == Showdown)
      && (!GameEnded(s) && s.stage != River ==>
            && o.state.stage == NextStage(s.stage) && o.state.pot == s.pot
            && o.state.playerChips == s.playerChips && o.state.botChips == s.botChips
            && o.state.currentBet == 0 && o.state.lastRaise == 0
            && !o.state.needResponse && o.state.roundFirstAction
            && o.state.isPlayerTurn == s.isPlayerSmallBlind
            && o.next == (if s.isPlayerSmallBlind then AwaitPlayer else BotToAct))
  {
    if !GameEnded(s) && s.stage != River {
      DealShowsCards(s.(currentBet := 0, lastRaise := 0, needResponse := false, roundFirstAction := true));
    }
  }

  /**
   * resetGame: a fresh game state that keeps both stacks and passes the small
   * blind to the other player, then a new hand. The pot is not carried over.
   */
  function ResetGame(s: State, picks: seq<nat>): Outcome
    requires ValidPicks(picks, 52)
  {
    StartNewRound(Initial().(playerChips := s.playerChips, botChips := s.botChips,
                             isPlayerSmallBlind := !s.isPlayerSmallBlind), picks)
  }

  /**
   * The next hand starts with both stacks kept less the blinds, the other
   * player in the small blind, the hand counter at 1 and a full deck in play.
   */
  lemma ResetGameDeals(s: State, picks: seq<nat>)
    requires ValidPicks(picks, 52)
    ensures var o := ResetGame(s, picks);
      && CardsOk(o.state) && o.state.stage == Preflop
      && Chips(o.state) == s.playerChips + s.botChips
      && o.state.isPlayerSmallBlind == !s.isPlayerSmallBlind
      && o.state.playerChips == s.playerChips - (if s.isPlayerSmallBlind then BigBlind else SmallBlind)
      && o.state.handNumber == 1 && o.state.lastRaise == 0
      && o.state.pot == SmallBlind + BigBlind && o.state.currentBet == BigBlind
      && o.next == (if s.isPlayerSmallBlind then BotToAct else AwaitPlayer)
  {
    StartNewRoundDeals(Initial().(playerChips := s.playerChips, botChips := s.botChips,
                                  isPlayerSmallBlind := !s.isPlayerSmallBlind), picks);
  }
}
