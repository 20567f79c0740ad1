/**
 * The game state of the earlier version as the mutable record its handlers
 * update field by field. Each method performs one handler's writes in the
 * order the handler makes them and is proved to leave the record in the state
 * the matching `LegacyBetting` transition computes; it returns the step that
 * the handler's timer starts next. The record has no hand counter, so its
 * view shows a counter of 0.
 */
module LegacyGame {
  import opened Cards
  import opened Table
  import Betting
  import LegacyBetting

  class GameState {
    var deck: seq<Card>
    var playerHand: seq<Card>
    var botHand: seq<Card>
    var communityCards: seq<Card>
    var stage: Stage
    var pot: int
    var playerChips: int
    var botChips: int
    var currentBet: int
    var isPlayerSmallBlind: bool
    var isPlayerTurn: bool
    var needResponse: bool
    var roundFirstAction: bool
    var lastRaise: int

    /** The fields as one value. */
    function View(): Betting.State
      reads this
    {
      Betting.State(deck, playerHand, botHand, communityCards, stage, pot, playerChips, botChips,
                    currentBet, isPlayerSmallBlind, isPlayerTurn, needResponse, roundFirstAction,
                    lastRaise, 0)
    }

    constructor ()
      ensures View() == Betting.Initial()
    {
      new;
      InitializeGameState();
    }

    /** initializeGameState: every field back to its starting value. */
    method InitializeGameState()
      modifies this
      ensures View() == Betting.Initial()
    {
      deck, playerHand, botHand, communityCards := [], [], [], [];
      stage := Preflop;
      pot := 0;
      playerChips, botChips := Betting.StartingChips, Betting.StartingChips;
      currentBet := 0;
      isPlayerSmallBlind, isPlayerTurn, needResponse, roundFirstAction := false, false, false, true;
      lastRaise := 0;
    }

    /** deck.pop(): the last card of the deck is removed and returned. */
    method Pop() returns (c: Card)
      modifies this
      requires |deck| > 0
      ensures c == old(deck)[|old(deck)| - 1] && deck == old(deck)[..|old(deck)| - 1]
      ensures View() == old(View()).(deck := deck)
    {
      c := deck[|deck| - 1];
      deck := deck[..|deck| - 1];
    }

    /** startNewRound */
    method StartNewRound(picks: seq<nat>) returns (next: Step)
      modifies this
      requires ValidPicks(picks, 52)
      ensures Betting.Outcome(View(), next) == LegacyBetting.StartNewRound(old(View()), picks)
    {
      stage := Preflop;
      deck := InitializeDeck(picks);
      next := DealNewHand();
    }

    /** The rest of startNewRound, once the new deck is in place. */
    method DealNewHand() returns (next: Step)
      modifies this
      requires |deck| >= 4
      ensures Betting.Outcome(View(), next) == LegacyBetting.DealNewHand(old(View()))
    {
      DealHoleCards();
      communityCards := [];
      PostBlinds();
      isPlayerTurn := !isPlayerSmallBlind;
      roundFirstAction := true;
      needResponse := false;
      next := if isPlayerTurn then AwaitPlayer else BotToAct;
    }

    /** The blinds of startNewRound: both go into the pot, and the big blind is the bet. */
    method PostBlinds()
      modifies this
      ensures var s := old(View());
        View() == s.(pot := Betting.BigBlind + Betting.SmallBlind, currentBet := Betting.BigBlind,
                     playerChips := s.playerChips - (if s.isPlayerSmallBlind then Betting.SmallBlind else Betting.BigBlind),
                     botChips := s.botChips - (if s.isPlayerSmallBlind then Betting.BigBlind else Betting.SmallBlind))
    {
      pot := Betting.BigBlind + Betting.SmallBlind;
      currentBet := Betting.BigBlind;
      if isPlayerSmallBlind {
        playerChips := playerChips - Betting.SmallBlind;
        botChips := botChips - Betting.BigBlind;
      } else {
        playerChips := playerChips - Betting.BigBlind;
        botChips := botChips - Betting.SmallBlind;
      }
    }

    /** The four pops of startNewRound: two cards for the player, then two for the bot. */
    method DealHoleCards()
      modifies this
      requires |deck| >= 4
      ensures var d, n := old(deck), |old(deck)|;
        && playerHand == [d[n - 1], d[n - 2]] && botHand == [d[n - 3], d[n - 4]] && deck == d[..n - 4]
      ensures View() == old(View()).(deck := deck, playerHand := playerHand, botHand := botHand)
    {
      ghost var d := deck;
      var p1 := Pop();
      var p2 := Pop();
      playerHand := [p1, p2];
      var b1 := Pop();
      var b2 := Pop();
      botHand := [b1, b2];
      assert deck == d[..|d| - 4];
    }

    /** playerAction, with the parsed raise amount in the move */
    method PlayerAction(m: Move) returns (next: Step)
      modifies this
      ensures Betting.Outcome(View(), next) == LegacyBetting.PlayerAction(old(View()), m)
    {
      match m
      case Fold =>
        botChips := botChips + pot;
        pot := 0;
        isPlayerTurn := false;
        next := NextHand;
      case Call =>
        next := PlayerCall();
      case Raise(amount) =>
        next := PlayerRaise(amount);
    }

    /** The 'call' case of playerAction */
    method PlayerCall() returns (next: Step)
      modifies this
      ensures Betting.Outcome(View(), next) == LegacyBetting.PlayerCall(old(View()))
    {
      if roundFirstAction && !needResponse {
        roundFirstAction := false;
        isPlayerTurn := false;
        return BotToAct;
      }
      var callAmount := currentBet;
      if callAmount > playerChips {
        return Rejected;
      }
      playerChips := playerChips - callAmount;
      pot := pot + callAmount;
      needResponse := false;
      isPlayerTurn := false;
      next := RoundEnds;
    }

    /** The 'raise' case of playerAction */
    method PlayerRaise(raiseAmount: int) returns (next: Step)
      modifies this
      ensures Betting.Outcome(View(), next) == LegacyBetting.PlayerRaise(old(View()), raiseAmount)
    {
      if raiseAmount > playerChips {
        return Rejected;
      }
      if raiseAmount < currentBet * 2 {
        return Rejected;
      }
      playerChips := playerChips - raiseAmount;
      pot := pot + raiseAmount;
      currentBet := raiseAmount;
      lastRaise := raiseAmount - currentBet;
      needResponse := true;
      roundFirstAction := false;
      isPlayerTurn := false;
      next := BotToAct;
    }

    /** botDecision, with Math.random() as random */
    method BotDecision(random: real) returns (next: Step)
      modifies this
      ensures Betting.Outcome(View(), next) == LegacyBetting.BotDecision(old(View()), random)
    {
      if roundFirstAction && !needResponse {
        if random < 0.4 {
          roundFirstAction := false;
          isPlayerTurn := true;
        } else {
          var betAmount := Betting.BigBlind;
          botChips := botChips - betAmount;
          pot := pot + betAmount;
          currentBet := betAmount;
          needResponse := true;
          isPlayerTurn := true;
        }
        next := AwaitPlayer;
      } else if random < 0.2 {
        playerChips := playerChips + pot;
        pot := 0;
        isPlayerTurn := false;
        next := NextHand;
      } else if random < 0.7 || 4 * lastRaise > botChips {
        next := BotCall();
      } else {
        next := BotRaise();
      }
    }

    /** The bot's call in botDecision */
    method BotCall() returns (next: Step)
      modifies this
      ensures Betting.Outcome(View(), next) == LegacyBetting.BotCall(old(View()))
    {
      var callAmount := currentBet;
      botChips := botChips - callAmount;
      pot := pot + callAmount;
      needResponse := false;
      next := RoundEnds;
    }

    /** The bot's re-raise in botDecision */
    method BotRaise() returns (next: Step)
      modifies this
      ensures Betting.Outcome(View(), next) == LegacyBetting.BotRaise(old(View()))
    {
      var currentRaiseAmount := currentBet * 2;
      if currentRaiseAmount > botChips {
        next := BotCall();
      } else {
        botChips := botChips - currentRaiseAmount;
        pot := pot + currentRaiseAmount;
        currentBet := currentRaiseAmount;
        lastRaise := currentRaiseAmount - currentBet;
        needResponse := true;
        isPlayerTurn := true;
        next := AwaitPlayer;
      }
    }

    /** handleRoundEnd, with the coin of determineWinner as playerWins */
    method RoundEnd(playerWins: bool) returns (next: Step)
      modifies this
      requires Betting.CardsOk(View())
      ensures Betting.Outcome(View(), next) == LegacyBetting.RoundEnd(old(View()), playerWins)
    {
      var ended := CheckGameEnd();
      if ended {
        return GameOver;
      }
      if stage == Showdown {
        DetermineWinner(playerWins);
        return NextHand;
      }
      ClearBets();
      DealCommunityCards();
      isPlayerTurn := true;
      next := AwaitPlayer;
    }

    /** The betting round's state cleared at its end. */
    method ClearBets()
      modifies this
      ensures View() == old(View()).(currentBet := 0, lastRaise := 0, needResponse := false, roundFirstAction := true)
    {
      currentBet := 0;
      lastRaise := 0;
      needResponse := false;
      roundFirstAction := true;
    }

    /** dealCommunityCards */
    method DealCommunityCards()
      modifies this
      requires CardsToDeal(stage) <= |deck|
      ensures View() == Betting.DealCommunityCards(old(View()))
    {
      match stage
      case Preflop =>
        var c1 := Pop();
        var c2 := Pop();
        var c3 := Pop();
        communityCards := [c1, c2, c3];
        stage := Flop;
      case Flop =>
        var c := Pop();
        communityCards := communityCards + [c];
        stage := Turn;
      case Turn =>
        var c := Pop();
        communityCards := communityCards + [c];
        stage := River;
      case River =>
        stage := Showdown;
      case Showdown =>
    }

    /** determineWinner, with the coin as playerWins */
    method DetermineWinner(playerWins: bool)
      modifies this
      ensures View() == LegacyBetting.DetermineWinner(old(View()), playerWins)
    {
      if playerWins {
        playerChips := playerChips + pot;
      } else {
        botChips := botChips + pot;
      }
      pot := 0;
    }

    /** resetGame */
    method ResetGame(picks: seq<nat>) returns (next: Step)
      modifies this
      requires ValidPicks(picks, 52)
      ensures Betting.Outcome(View(), next) == LegacyBetting.ResetGame(old(View()), picks)
    {
      var oldPlayerChips, oldBotChips, oldSmallBlind := playerChips, botChips, !isPlayerSmallBlind;
      InitializeGameState();
      playerChips := oldPlayerChips;
      botChips := oldBotChips;
      isPlayerSmallBlind := oldSmallBlind;
      next := StartNewRound(picks);
    }

    /** checkGameEnd */
    method CheckGameEnd() returns (ended: bool)
      ensures ended <==> Betting.GameEnded(View())
    {
      if playerChips <= 0 {
        return true;
      }
      if botChips <= 0 {
        return true;
      }
      return false;
    }
  }
}
