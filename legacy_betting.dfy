/**
 * The earlier version of the betting state machine (test/poker-game.js). It
 * keeps the same fields as the browser game, but has no hand counter: its
 * handlers leave `handNumber` alone. It differs in its rules: the player acts
 * first unless in the small blind, a call before anything is owed is a check,
 * a raise must be at least twice the current bet, a call always takes the
 * whole current bet, and at the showdown a coin decides the winner.
 *
 * As in `Betting`, a handler is a transition on `Betting.State` that returns
 * the step its timer starts, and Math.random becomes a parameter. Module
 * `LegacyGame` holds the mutable record.
 */
module LegacyBetting {
  import opened Cards
  import opened Table
  import Betting

  type State = Betting.State
  type Outcome = Betting.Outcome

  // ---------------------------------------------------------------------------
  // A new hand

  /** startNewRound: a new shuffled deck, two cards each, the blinds posted. */
  function StartNewRound(s: State, picks: seq<nat>): (o: Outcome)
    requires ValidPicks(picks, 52)
    ensures o.state.stage == Preflop && o.state.communityCards == []
  {
    DealNewHand(s.(stage := Preflop, deck := Shuffled(StandardDeck(), picks)))
  }

  /**
   * The rest of startNewRound: the cards and the blinds as in the browser
   * game, but the player acts first exactly when the bot is in the small blind.
   */
  function DealNewHand(s: State): (o: Outcome)
    requires |s.deck| >= 4
    ensures o.state.stage == s.stage && o.state.communityCards == []
  {
    var o := Betting.DealNewHand(s);
    Betting.Outcome(o.state.(isPlayerTurn := !s.isPlayerSmallBlind),
                    if !s.isPlayerSmallBlind then AwaitPlayer else BotToAct)
  }

  /**
   * A new hand holds the 52 cards of a deck, each once; the blinds are in the
   * pot and the big blind is the bet; the big blind acts first.
   */
  lemma StartNewRoundDeals(s: State, picks: seq<nat>)
    requires ValidPicks(picks, 52)
    ensures var o := StartNewRound(s, picks);
      && Betting.CardsOk(o.state)
      && o.state.pot == Betting.SmallBlind + Betting.BigBlind && o.state.currentBet == Betting.BigBlind
      && Betting.Chips(o.state) == s.playerChips + s.botChips
      && o.state.playerChips == s.playerChips - (if s.isPlayerSmallBlind then Betting.SmallBlind else Betting.BigBlind)
      && o.state.isPlayerSmallBlind == s.isPlayerSmallBlind && o.state.lastRaise == s.lastRaise
      && o.state.roundFirstAction && !o.state.needResponse
      && o.state.handNumber == s.handNumber
      && o.state.isPlayerTurn == !s.isPlayerSmallBlind
      && o.next == (if s.isPlayerSmallBlind then BotToAct else AwaitPlayer)
  {
    Betting.FreshDeck(picks);
    Betting.HoleCardsDealt(StartNewRound(s, picks).state, Shuffled(StandardDeck(), picks));
  }

  /**
   * The two versions deal a new hand alike and differ in who acts first (and
   * in the hand counter, which only the browser game keeps).
   */
  lemma TurnRuleDiffers(s: State, picks: seq<nat>)
    requires ValidPicks(picks, 52)
    ensures var o, b := StartNewRound(s, picks), Betting.StartNewRound(s, picks);
      && o.state == b.state.(isPlayerTurn := !s.isPlayerSmallBlind, handNumber := s.handNumber)
      && o.state.isPlayerTurn != b.state.isPlayerTurn
      && (o.next == AwaitPlayer <==> b.next == BotToAct)
  {
  }

  /**
   * resetGame: a fresh game state that keeps both stacks and passes the small
   * blind to the other player, then a new hand. The game end is not checked.
   */
  function ResetGame(s: State, picks: seq<nat>): Outcome
    requires ValidPicks(picks, 52)
  {
    StartNewRound(Betting.Initial().(playerChips := s.playerChips, botChips := s.botChips,
                                     isPlayerSmallBlind := !s.isPlayerSmallBlind), picks)
  }

  /** The next hand starts with both stacks kept less the blinds and the other player in the small blind. */
  lemma ResetGameDeals(s: State, picks: seq<nat>)
    requires ValidPicks(picks, 52)
    ensures var o := ResetGame(s, picks);
      && Betting.CardsOk(o.state) && o.state.stage == Preflop
      && Betting.Chips(o.state) == s.playerChips + s.botChips
      && o.state.isPlayerSmallBlind == !s.isPlayerSmallBlind
      && o.state.playerChips == s.playerChips - (if s.isPlayerSmallBlind then Betting.BigBlind else Betting.SmallBlind)
      && o.state.botChips == s.botChips - (if s.isPlayerSmallBlind then Betting.SmallBlind else Betting.BigBlind)
      && o.state.lastRaise == 0
      && o.state.pot == Betting.SmallBlind + Betting.BigBlind && o.state.currentBet == Betting.BigBlind
      && o.next == (if s.isPlayerSmallBlind then AwaitPlayer else BotToAct)
  {
    StartNewRoundDeals(Betting.Initial().(playerChips := s.playerChips, botChips := s.botChips,
                                          isPlayerSmallBlind := !s.isPlayerSmallBlind), picks);
  }

  // ---------------------------------------------------------------------------
  // The player's actions

  /**
   * playerAction: a fold gives the pot to the bot; a call (or check) and a
   * raise as below. The raise amount is the parsed integer of the input box.
   */
  function PlayerAction(s: State, m: Move): Outcome
  {
    match m
    case Fold => Betting.Outcome(s.(botChips := s.botChips + s.pot, pot := 0, isPlayerTurn := false), NextHand)
    case Call => PlayerCall(s)
    case Raise(amount) => PlayerRaise(s, amount)
  }

  /**
   * The call button: a check while nothing is owed in a fresh round;
   * otherwise the whole current bet goes into the pot, which is refused when
   * it is more than the player has.
   */
  function PlayerCall(s: State): Outcome
  {
    if s.roundFirstAction && !s.needResponse then
      Betting.Outcome(s.(roundFirstAction := false, isPlayerTurn := false), BotToAct)
    else if s.currentBet > s.playerChips then Betting.Outcome(s, Rejected)
    else
      Betting.Outcome(s.(playerChips := s.playerChips - s.currentBet, pot := s.pot + s.currentBet,
                         needResponse := false, isPlayerTurn := false), RoundEnds)
  }

  /**
   * A raise beyond the stack or below twice the current bet is refused.
   * Otherwise it becomes the bet; the last raise is computed after the bet is
   * overwritten and so is always 0.
   */
  function PlayerRaise(s: State, amount: int): Outcome
  {
    if amount > s.playerChips || amount < 2 * s.currentBet then Betting.Outcome(s, Rejected)
    else
      var t := s.(playerChips := s.playerChips - amount, pot := s.pot + amount, currentBet := amount);
      Betting.Outcome(t.(lastRaise := amount - t.currentBet, needResponse := true, roundFirstAction := false,
                         isPlayerTurn := false), BotToAct)
  }

  /** Only a call or a raise can be refused, and a refused action changes nothing. */
  lemma PlayerActionRejects(s: State, m: Move)
    ensures var o := PlayerAction(s, m);
      && (o.next == Rejected <==>
            || (m.Call? && !(s.roundFirstAction && !s.needResponse) && s.currentBet > s.playerChips)
            || (m.Raise? && (m.amount > s.playerChips || m.amount < 2 * s.currentBet)))
      && (o.next == Rejected ==> o.state == s)
  {
  }

  /** Every action keeps the chips and the cards and leaves the stage where it is. */
  lemma PlayerActionKeeps(s: State, m: Move)
    ensures var o := PlayerAction(s, m);
      Betting.Keeps(s, o) && Betting.SameCards(s, o.state) && o.state.stage == s.stage
  {
    Betting.BetsKeep(s, PlayerAction(s, m));
  }

  /**
   * A fold gives the whole pot to the bot and ends the hand; a check moves no
   * chips and makes the round no longer fresh; an accepted call pays the
   * whole current bet and ends the round.
   */
  lemma PlayerActionEffects(s: State, m: Move)
    ensures var o := PlayerAction(s, m);
      && (m.Fold? ==> o.next == NextHand && o.state.botChips == s.botChips + s.pot && o.state.pot == 0
                      && o.state.playerChips == s.playerChips)
      && (m.Call? && s.roundFirstAction && !s.needResponse ==>
            && o.next == BotToAct && !o.state.roundFirstAction
            && o.state.pot == s.pot && o.state.playerChips == s.playerChips && o.state.botChips == s.botChips)
      && (m.Call? && o.next == RoundEnds ==>
            && o.state.playerChips == s.playerChips - s.currentBet && o.state.pot == s.pot + s.currentBet
            && !o.state.needResponse && o.state.currentBet == s.currentBet)
  {
  }

  /** An accepted raise becomes the bet the bot must answer, and the last raise ends 0. */
  lemma PlayerRaiseSetsBet(s: State, amount: int)
    requires 2 * s.currentBet <= amount <= s.playerChips
    ensures var o := PlayerRaise(s, amount);
      && o.next == BotToAct && o.state.needResponse && !o.state.roundFirstAction && !o.state.isPlayerTurn
      && o.state.currentBet == amount && o.state.lastRaise == 0
      && o.state.playerChips == s.playerChips - amount && o.state.pot == s.pot + amount
  {
  }

  // ---------------------------------------------------------------------------
  // The bot

  /**
   * botDecision, with Math.random() as random: in a fresh round with nothing
   * owed the bot checks or bets the big blind; otherwise it folds, calls or
   * re-raises to twice the bet.
   */
  function BotDecision(s: State, random: real): Outcome
  {
    if s.roundFirstAction && !s.needResponse then
      if random < 0.4 then Betting.Outcome(s.(roundFirstAction := false, isPlayerTurn := true), AwaitPlayer)
      else
        Betting.Outcome(s.(botChips := s.botChips - Betting.BigBlind, pot := s.pot + Betting.BigBlind,
                           currentBet := Betting.BigBlind, needResponse := true, isPlayerTurn := true), AwaitPlayer)
    else if random < 0.2 then
      Betting.Outcome(s.(playerChips := s.playerChips + s.pot, pot := 0, isPlayerTurn := false), NextHand)
    else if random < 0.7 || 4 * s.lastRaise > s.botChips then BotCall(s)
    else BotRaise(s)
  }

  /** The bot's call: the whole current bet into the pot, and the round ends. */
  function BotCall(s: State): Outcome
  {
    Betting.Outcome(s.(botChips := s.botChips - s.currentBet, pot := s.pot + s.currentBet, needResponse := false),
                    RoundEnds)
  }

  /** The bot's re-raise to twice the bet, or a call when it cannot afford that. */
  function BotRaise(s: State): Outcome
  {
    var amount := s.currentBet * 2;
    if amount > s.botChips then BotCall(s)
    else
      var t := s.(botChips := s.botChips - amount, pot := s.pot + amount, currentBet := amount);
      Betting.Outcome(t.(lastRaise := amount - t.currentBet, needResponse := true, isPlayerTurn := true), AwaitPlayer)
  }

  /** The bot keeps the chips and the cards and leaves the stage where it is. */
  lemma BotDecisionKeeps(s: State, random: real)
    ensures var o := BotDecision(s, random);
      Betting.Keeps(s, o) && Betting.SameCards(s, o.state) && o.state.stage == s.stage
  {
    Betting.BetsKeep(s, BotDecision(s, random));
  }

  /** After the bot either the player acts, the round ends, or the hand is over. */
  lemma BotDecisionPasses(s: State, random: real)
    ensures var o := BotDecision(s, random);
      && (o.next == AwaitPlayer ==> o.state.isPlayerTurn)
      && (o.next == NextHand ==> !o.state.isPlayerTurn)
      && (o.next == AwaitPlayer || o.next == RoundEnds || o.next == NextHand)
      && (o.next == NextHand ==> !(s.roundFirstAction && !s.needResponse) && random < 0.2)
  {
  }

  /**
   * Facing a bet, the bot's fold gives the whole pot to the player; a raise
   * doubles the bet within the bot's stack; a call pays the whole bet.
   */
  lemma BotAnswers(s: State, random: real)
    requires !(s.roundFirstAction && !s.needResponse)
    ensures var o := BotDecision(s, random);
      && (o.next == NextHand ==> o.state.playerChips == s.playerChips + s.pot && o.state.pot == 0
                                 && o.state.botChips == s.botChips)
      && (o.next == AwaitPlayer ==>
            && o.state.currentBet == 2 * s.currentBet <= s.botChips
            && o.state.botChips == s.botChips - 2 * s.currentBet
            && o.state.needResponse && o.state.lastRaise == 0)
      && (o.next == RoundEnds ==>
            && o.state.botChips == s.botChips - s.currentBet && o.state.pot == s.pot + s.currentBet
            && o.state.currentBet == s.currentBet && !o.state.needResponse)
  {
  }

  /** The bot re-raises only with a draw of 0.7 or more, and calls when it cannot afford the re-raise. */
  lemma BotRaiseWhen(s: State, random: real)
    requires !(s.roundFirstAction && !s.needResponse) && 0.7 <= random
    ensures var o := BotDecision(s, random);
      o.next == AwaitPlayer <==> 4 * s.lastRaise <= s.botChips && 2 * s.currentBet <= s.botChips
  {
  }

  // ---------------------------------------------------------------------------
  // The end of a betting round

  /** determineWinner of the older file: the whole pot goes to the player when the coin says so, else to the bot. */
  function DetermineWinner(s: State, playerWins: bool): (t: State)
    ensures Betting.Chips(t) == Betting.Chips(s) && t.pot == 0
    ensures t == s.(playerChips := t.playerChips, botChips := t.botChips, pot := 0)
  {
    if playerWins then s.(playerChips := s.playerChips + s.pot, pot := 0)
    else s.(botChips := s.botChips + s.pot, pot := 0)
  }

  /** The coin's winner takes the whole pot and the loser's stack stays. */
  lemma DetermineWinnerPays(s: State, playerWins: bool)
    ensures var t := DetermineWinner(s, playerWins);
      && (playerWins ==> t.playerChips == s.playerChips + s.pot && t.botChips == s.botChips)
      && (!playerWins ==> t.botChips == s.botChips + s.pot && t.playerChips == s.playerChips)
  {
  }

  /**
   * handleRoundEnd, with the coin of determineWinner as playerWins: nothing
   * happens once the game is over; at the showdown the coin pays out the pot;
   * otherwise the bets are cleared, the next community cards are dealt and
   * the player acts first.
   */
  function RoundEnd(s: State, playerWins: bool): Outcome
    requires Betting.CardsOk(s)
  {
    if Betting.GameEnded(s) then Betting.Outcome(s, GameOver)
    else if s.stage == Showdown then Betting.Outcome(DetermineWinner(s, playerWins), NextHand)
    else
      var cleared := s.(currentBet := 0, lastRaise := 0, needResponse := false, roundFirstAction := true);
      Betting.Outcome(Betting.DealCommunityCards(cleared).(isPlayerTurn := true), AwaitPlayer)
  }

  lemma RoundEndKeeps(s: State, playerWins: bool)
    requires Betting.CardsOk(s)
    ensures Betting.Keeps(s, RoundEnd(s, playerWins))
  {
    if !Betting.GameEnded(s) {
      if s.stage == Showdown {
        Betting.BetsKeepCards(s, RoundEnd(s, playerWins).state);
      } else {
        var cleared := s.(currentBet := 0, lastRaise := 0, needResponse := false, roundFirstAction := true);
        Betting.BetsKeepCards(s, cleared);
        Betting.DealKeepsCards(cleared);
        Betting.DealShowsCards(cleared);
        Betting.BetsKeepCards(Betting.DealCommunityCards(cleared), RoundEnd(s, playerWins).state);
      }
    }
  }

  /**
   * The round ends in one of three ways: the game is over and nothing
   * changes; at the showdown the coin's winner takes the pot; otherwise the
   * next street is dealt with the bets cleared and the player to act. The
   * river is followed by a betting round at the showdown stage.
   */
  lemma RoundEndAdvances(s: State, playerWins: bool)
    requires Betting.CardsOk(s)
    ensures var o := RoundEnd(s, playerWins);
      && (o.next == GameOver <==> Betting.GameEnded(s))
      && (o.next == GameOver ==> o.state == s)
      && (!Betting.GameEnded(s) && s.stage == Showdown ==>
            o.next == NextHand && o.state == DetermineWinner(s, playerWins))
      && (!Betting.GameEnded(s) && s.stage != Showdown ==>
            && o.state.stage == NextStage(s.stage) && o.state.pot == s.pot
            && o.state.playerChips == s.playerChips && o.state.botChips == s.botChips
            && o.state.currentBet == 0 && o.state.lastRaise == 0
            && !o.state.needResponse && o.state.roundFirstAction
            && o.state.isPlayerTurn && o.next == AwaitPlayer)
  {
    if !Betting.GameEnded(s) && s.stage != Showdown {
      Betting.DealShowsCards(s.(currentBet := 0, lastRaise := 0, needResponse := false, roundFirstAction := true));
    }
  }
}
