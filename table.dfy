/**
 * What the two versions of the betting state machine share: the stages of a
 * hand, the moves a player can choose, and what runs next once a handler
 * returns. The programs chain their handlers with timers; here a handler
 * instead returns the step that its timer would start.
 */
module Table {
  import opened Cards

  /** The stages of a hand, in the order they are played. */
  datatype Stage = Preflop | Flop | Turn | River | Showdown

  function StageIndex(s: Stage): (n: nat)
    ensures n <= 4
  {
    match s
    case Preflop => 0
    case Flop => 1
    case Turn => 2
    case River => 3
    case Showdown => 4
  }

  /** The stage dealCommunityCards moves to; the showdown is the last. */
  function NextStage(s: Stage): (t: Stage)
    ensures s != Showdown ==> StageIndex(t) == StageIndex(s) + 1
    ensures s == Showdown ==> t == Showdown
  {
    match s
    case Preflop => Flop
    case Flop => Turn
    case Turn => River
    case River => Showdown
    case Showdown => Showdown
  }

  /** The number of community cards on the table at each stage. */
  function CommunityCount(s: Stage): nat
  {
    match s
    case Preflop => 0
    case Flop => 3
    case Turn => 4
    case River => 5
    case Showdown => 5
  }

  /** The cards dealCommunityCards pops from the deck when it leaves stage s. */
  function CardsToDeal(s: Stage): nat
  {
    match s
    case Preflop => 3
    case Flop => 1
    case Turn => 1
    case River => 0
    case Showdown => 0
  }

  /** Dealing moves the table from one stage's number of community cards to the next one's. */
  lemma DealingAddsUp(s: Stage)
    ensures CommunityCount(NextStage(s)) == CommunityCount(s) + CardsToDeal(s)
  {
  }

  /**
   * The cards still to be dealt from stage s until the showdown, counted
   * deal by deal: they are exactly the community cards the table lacks.
   */
  function CardsLeft(s: Stage): (n: nat)
    decreases 4 - StageIndex(s)
    ensures s == Showdown ==> n == 0
    ensures n == CommunityCount(Showdown) - CommunityCount(s)
  {
    if s == Showdown then 0 else CardsToDeal(s) + CardsLeft(NextStage(s))
  }

  /** What the player chooses: fold, call (or check) and raise by an amount. */
  datatype Move = Fold | Call | Raise(amount: int)

  /** Whose chips handleAllIn moves. */
  datatype Actor = Player | Bot

  /**
   * What happens once a handler returns: the player's controls are shown; the
   * bot thinks (botDecision); the betting round ends (handleRoundEnd); the rest
   * of the board is dealt and the pot paid out (determineWinner); the next hand
   * is dealt (resetGame); the game is over; the action was refused, with
   * nothing changed.
   */
  datatype Step = AwaitPlayer | BotToAct | RoundEnds | ShowdownDue | NextHand | GameOver | Rejected

  // ---------------------------------------------------------------------------
  // Cards in play

  /** A list in which each card occurs at most once holds distinct cards. */
  lemma {:induction false} CountsDistinct<T>(s: seq<T>)
    requires forall x :: multiset(s)[x] <= 1
    ensures Distinct(s)
  {
    if s != [] {
      assert s == [s[0]] + s[1..];
      forall x ensures multiset(s[1..])[x] <= 1 {
        assert multiset(s)[x] == multiset([s[0]])[x] + multiset(s[1..])[x];
      }
      CountsDistinct(s[1..]);
      assert multiset(s)[s[0]] == 1 + multiset(s[1..])[s[0]];
      assert s[0] !in multiset(s[1..]);
      forall i, j | 0 <= i < j < |s| ensures s[i] != s[j] {
        if i == 0 {
          assert s[j] == s[1..][j - 1];
        } else {
          assert s[i] == s[1..][i - 1] && s[j] == s[1..][j - 1];
        }
      }
    }
  }

  /** Cards taken from a full deck are distinct. */
  lemma DrawnDistinct(drawn: seq<Card>, all: seq<Card>)
    requires multiset(drawn) <= multiset(all) && multiset(all) == multiset(StandardDeck())
    ensures Distinct(drawn)
  {
    StandardDeckIsFull();
    forall x ensures multiset(drawn)[x] <= 1 {
      assert multiset(drawn)[x] <= multiset(all)[x];
    }
    CountsDistinct(drawn);
  }
}
