/**
 * The game state of the browser game as the mutable record its handlers
 * update field by field. Each method performs one handler's writes in the
 * order the handler makes them and is proved to leave the record in the state
 * the matching `Betting` transition computes; it returns the step that the
 * handler's timer starts next.
 */
module Game {
  import opened Cards
  import opened HandEvaluator
  import opened Table
  import Betting

  class GameState {
    var deck: seq<Card>
    var playerHand: seq<Card>
    var botHand: seq<Card>
    var communityCards: seq<Card>
    var stage: Stage
    var pot: int
    var playerChips: int
    var botChips: int
    var currentBet: int
    var isPlayerSmallBlind: bool
    var isPlayerTurn: bool
    var needResponse: bool
    var roundFirstAction: bool
    var lastRaise: int
    var handNumber: int

    /** The fields as one value. */
    function View(): Betting.State
      reads this
    {
      Betting.State(deck, playerHand, botHand, communityCards, stage, pot, playerChips, botChips,
                    currentBet, isPlayerSmallBlind, isPlayerTurn, needResponse, roundFirstAction,
                    lastRaise, handNumber)
    }

    constructor ()
      ensures View() == Betting.Initial()
    {
      new;
      InitializeGameState();
    }

    /** initializeGameState: every field back to its starting value. */
    method InitializeGameState()
      modifies this
      ensures View() == Betting.Initial()
    {
      deck, playerHand, botHand, communityCards := [], [], [], [];
      stage := Preflop;
      pot := 0;
      playerChips, botChips := Betting.StartingChips, Betting.StartingChips;
      currentBet := 0;
      isPlayerSmallBlind, isPlayerTurn, needResponse, roundFirstAction := false, false, false, true;
      lastRaise := 0;
      handNumber := 0;
    }

    /** deck.pop(): the last card of the deck is removed and returned. */
    method Pop() returns (c: Card)
      modifies this
      requires |deck| > 0
      ensures c == old(deck)[|old(deck)| - 1] && deck == old(deck)[..|old(deck)| - 1]
      ensures View() == old(View()).(deck := deck)
    {
      c := deck[|deck| - 1];
      deck := deck[..|deck| - 1];
    }

    /** startNewRound */
    method StartNewRound(picks: seq<nat>) returns (next: Step)
      modifies this
      requires ValidPicks(picks, 52)
      ensures Betting.Outcome(View(), next) == Betting.StartNewRound(old(View()), picks)
    {
      handNumber := handNumber + 1;
      stage := Preflop;
      deck := InitializeDeck(picks);
      next := DealNewHand();
    }

    /** The rest of startNewRound, once the new deck is in place. */
    method DealNewHand() returns (next: Step)
      modifies this
      requires |deck| >= 4
      ensures Betting.Outcome(View(), next) == Betting.DealNewHand(old(View()))
    {
      DealHoleCards();
      communityCards := [];
      PostBlinds();
      isPlayerTurn := isPlayerSmallBlind;
      roundFirstAction := true;
      needResponse := false;
      next := if isPlayerTurn then AwaitPlayer else BotToAct;
    }

    /** The blinds of startNewRound: both go into the pot, and the big blind is the bet. */
    method PostBlinds()
      modifies this
      ensures var s := old(View());
        View() == s.(pot := Betting.BigBlind + Betting.SmallBlind, currentBet := Betting.BigBlind,
                     playerChips := s.playerChips - (if s.isPlayerSmallBlind then Betting.SmallBlind else Betting.BigBlind),
                     botChips := s.botChips - (if s.isPlayerSmallBlind then Betting.BigBlind else Betting.SmallBlind))
    {
      pot := Betting.BigBlind + Betting.SmallBlind;
      currentBet := Betting.BigBlind;
      if isPlayerSmallBlind {
        playerChips := playerChips - Betting.SmallBlind;
        botChips := botChips - Betting.BigBlind;
      } else {
        playerChips := playerChips - Betting.BigBlind;
        botChips := botChips - Betting.SmallBlind;
      }
    }

    /** The four pops of startNewRound: two cards for the player, then two for the bot. */
    method DealHoleCards()
      modifies this
      requires |deck| >= 4
      ensures var d, n := old(deck), |old(deck)|;
        && playerHand == [d[n - 1], d[n - 2]] && botHand == [d[n - 3], d[n - 4]] && deck == d[..n - 4]
      ensures View() == old(View()).(deck := deck, playerHand := playerHand, botHand := botHand)
    {
      ghost var d := deck;
      var p1 := Pop();
      var p2 := Pop();
      playerHand := [p1, p2];
      var b1 := Pop();
      var b2 := Pop();
      botHand := [b1, b2];
      assert deck == d[..|d| - 4];
    }

    /** playerAction */
    method PlayerAction(m: Move) returns (next: Step)
      modifies this
      ensures Betting.Outcome(View(), next) == Betting.PlayerAction(old(View()), m)
    {
      if m.Fold? && !needResponse && currentBet == 0 {
        return Rejected;
      }
      match m
      case Fold =>
        botChips := botChips + pot;
        pot := 0;
        isPlayerTurn := false;
        next := NextHand;
      case Call =>
        next := PlayerCall();
      case Raise(amount) =>
        next := PlayerRaise(amount);
    }

    /** handlePlayerCall */
    method PlayerCall() returns (next: Step)
      modifies this
      ensures Betting.Outcome(View(), next) == Betting.PlayerCall(old(View()))
    {
      if stage == Preflop && isPlayerSmallBlind && roundFirstAction {
        var call := Betting.BigBlind - Betting.SmallBlind;
        playerChips := playerChips - call;
        pot := pot + call;
        roundFirstAction := false;
        isPlayerTurn := false;
        next := BotToAct;
      } else if !needResponse && currentBet == 0 {
        roundFirstAction := false;
        isPlayerTurn := false;
        next := BotToAct;
      } else if stage == Preflop && !isPlayerSmallBlind && roundFirstAction {
        roundFirstAction := false;
        needResponse := false;
        currentBet := 0;
        isPlayerTurn := false;
        next := RoundEnds;
      } else {
        var call := currentBet - (if stage == Preflop && !isPlayerSmallBlind then Betting.BigBlind else 0);
        if call > playerChips {
          next := AllIn(Player, playerChips);
          return;
        }
        playerChips := playerChips - call;
        pot := pot + call;
        needResponse := false;
        isPlayerTurn := false;
        next := RoundEnds;
      }
    }

    /** handlePlayerRaise */
    method PlayerRaise(amount: int) returns (next: Step)
      modifies this
      ensures Betting.Outcome(View(), next) == Betting.PlayerRaise(old(View()), amount)
    {
      if amount == 0 || amount > playerChips {
        return Rejected;
      }
      if amount == playerChips {
        next := AllIn(Player, amount);
        return;
      }
      playerChips := playerChips - amount;
      pot := pot + amount;
      currentBet := amount;
      lastRaise := amount - currentBet;
      needResponse := true;
      roundFirstAction := false;
      isPlayerTurn := false;
      next := BotToAct;
    }

    /** handleAllIn */
    method AllIn(who: Actor, amount: int) returns (next: Step)
      modifies this
      ensures Betting.Outcome(View(), next) == Betting.AllIn(old(View()), who, amount)
    {
      if who == Player {
        playerChips := playerChips - amount;
        pot := pot + amount;
        currentBet := amount;
        needResponse := true;
        isPlayerTurn := false;
        next := BotToAct;
      } else {
        botChips := botChips - amount;
        pot := pot + amount;
        if amount >= currentBet {
          next := ShowdownDue;
        } else {
          needResponse := true;
          isPlayerTurn := true;
          next := AwaitPlayer;
        }
      }
    }

    /**
     * The timer of a covered all-in or of a call on the river: deal until the
     * showdown, then determineWinner.
     */
    method PlayShowdown()
      modifies this
      requires Betting.CardsOk(View())
      ensures View() == Betting.PlayShowdown(old(View()))
    {
      while stage != Showdown
        invariant Betting.CardsOk(View())
        invariant Betting.DealToShowdown(View()) == Betting.DealToShowdown(old(View()))
        decreases 4 - StageIndex(stage)
      {
        Betting.DealKeepsCards(View());
        DealCommunityCards();
      }
      Betting.ShowdownCards(View());
      DetermineWinner();
    }

    /** botDecision, with Math.random() as random */
    method BotDecision(random: real) returns (next: Step)
      modifies this
      ensures Betting.Outcome(View(), next) == Betting.BotDecision(old(View()), random)
    {
      if stage == Preflop && !isPlayerSmallBlind && roundFirstAction {
        var call := Betting.BigBlind - Betting.SmallBlind;
        botChips := botChips - call;
        pot := pot + call;
        roundFirstAction := false;
        isPlayerTurn := true;
        return AwaitPlayer;
      }
      if currentBet == 0 && !needResponse {
        if random < 0.4 {
          isPlayerTurn := true;
          roundFirstAction := false;
          next := if stage == River then RoundEnds else AwaitPlayer;
        } else if Betting.BigBlind <= botChips {
          botChips := botChips - Betting.BigBlind;
          pot := pot + Betting.BigBlind;
          currentBet := Betting.BigBlind;
          needResponse := true;
          isPlayerTurn := true;
          next := AwaitPlayer;
        } else {
          isPlayerTurn := true;
          next := RoundEnds;
        }
      } else {
        next := BotResponse(random);
      }
    }

    /** handleBotResponse */
    method BotResponse(random: real) returns (next: Step)
      modifies this
      ensures Betting.Outcome(View(), next) == Betting.BotResponse(old(View()), random)
    {
      if currentBet >= botChips {
        next := AllIn(Bot, botChips);
      } else if random < 0.2 && needResponse {
        playerChips := playerChips + pot;
        pot := 0;
        isPlayerTurn := false;
        next := NextHand;
      } else if random < 0.7 || 4 * lastRaise > botChips {
        var call := currentBet;
        botChips := botChips - call;
        pot := pot + call;
        needResponse := false;
        next := if stage == River then ShowdownDue else RoundEnds;
      } else {
        next := BotRaise();
      }
    }

    /** handleBotRaise */
    method BotRaise() returns (next: Step)
      modifies this
      ensures Betting.Outcome(View(), next) == Betting.BotRaise(old(View()))
    {
      var amount := Betting.Max(2 * currentBet, Betting.BigBlind);
      if amount > botChips {
        next := AllIn(Bot, botChips);
      } else {
        botChips := botChips - amount;
        pot := pot + amount;
        currentBet := amount;
        lastRaise := amount - currentBet;
        needResponse := true;
        isPlayerTurn := true;
        next := AwaitPlayer;
      }
    }

    /** handleRoundEnd */
    method RoundEnd() returns (next: Step)
      modifies this
      requires Betting.CardsOk(View())
      ensures Betting.Outcome(View(), next) == Betting.RoundEnd(old(View()))
    {
      var ended := CheckGameEnd();
      if ended {
        return GameOver;
      }
      if stage == River {
        ghost var s := View();
        stage := Showdown;
        Betting.RiverShowdown(s);
        Betting.BetsKeepCards(s, View());
        Betting.ShowdownCards(View());
        DetermineWinner();
        return NextHand;
      }
      ClearBets();
      DealCommunityCards();
      isPlayerTurn := isPlayerSmallBlind;
      next := if isPlayerTurn then AwaitPlayer else BotToAct;
    }

    /** The betting round's state cleared at its end. */
    method ClearBets()
      modifies this
      ensures View() == old(View()).(currentBet := 0, lastRaise := 0, needResponse := false, roundFirstAction := true)
    {
      currentBet := 0;
      lastRaise := 0;
      needResponse := false;
      roundFirstAction := true;
    }

    /** dealCommunityCards */
    method DealCommunityCards()
      modifies this
      requires CardsToDeal(stage) <= |deck|
      ensures View() == Betting.DealCommunityCards(old(View()))
    {
      match stage
      case Preflop =>
        var c1 := Pop();
        var c2 := Pop();
        var c3 := Pop();
        communityCards := [c1, c2, c3];
        stage := Flop;
      case Flop =>
        var c := Pop();
        communityCards := communityCards + [c];
        stage := Turn;
      case Turn =>
        var c := Pop();
        communityCards := communityCards + [c];
        stage := River;
      case River =>
        stage := Showdown;
      case Showdown =>
    }

    /** determineWinner: evaluateHand for both players, then compareHands. */
    method DetermineWinner()
      modifies this
      requires Betting.ShowdownReady(View())
      ensures View() == Betting.DetermineWinner(old(View()))
    {
      var comparison := CompareBestHands();
      PayOut(comparison);
    }

    /** The rest of determineWinner: the pot goes to the winner of the comparison. */
    method PayOut(comparison: int)
      modifies this
      ensures View() == Betting.Payout(old(View()), comparison)
    {
      if comparison > 0 {
        playerChips := playerChips + pot;
      } else if comparison < 0 {
        botChips := botChips + pot;
      } else {
        var halfPot := pot / 2;
        playerChips := playerChips + halfPot;
        botChips := botChips + (pot - halfPot);
      }
      pot := 0;
    }

    /** The first lines of determineWinner: both best hands, compared. */
    method CompareBestHands() returns (comparison: int)
      requires Betting.ShowdownReady(View())
      ensures comparison == Betting.Verdict(View())
    {
      Betting.BestOfSeven(View());
      var playerBest := EvaluateHand(playerHand, communityCards);
      var botBest := EvaluateHand(botHand, communityCards);
      comparison := CompareHands(playerBest, botBest);
    }

    /** resetGame, without saving the result to the server */
    method ResetGame(picks: seq<nat>) returns (next: Step)
      modifies this
      requires ValidPicks(picks, 52)
      ensures Betting.Outcome(View(), next) == Betting.ResetGame(old(View()), picks)
    {
      var oldPlayerChips, oldBotChips, oldSmallBlind := playerChips, botChips, !isPlayerSmallBlind;
      InitializeGameState();
      playerChips := oldPlayerChips;
      botChips := oldBotChips;
      isPlayerSmallBlind := oldSmallBlind;
      next := StartNewRound(picks);
    }

    /** checkGameEnd */
    method CheckGameEnd() returns (ended: bool)
      ensures ended <==> Betting.GameEnded(View())
    {
      if playerChips <= 0 {
        return true;
      }
      if botChips <= 0 {
        return true;
      }
      return false;
    }
  }
}
