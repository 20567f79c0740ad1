/**
 * Cards and the deck of the Texas Hold'em engine: the 52 cards built suit by
 * suit and rank by rank, and the Fisher-Yates shuffle that works on a copy.
 * The random index chosen at each step of the shuffle is an input ("picks").
 */
module Cards {

  /** The four suits, in the order the deck is built (spades, hearts, diamonds, clubs). */
  datatype Suit = Spades | Hearts | Diamonds | Clubs

  /** A rank is its rank value: 2..10, then J = 11, Q = 12, K = 13, A = 14. */
  type Rank = r: int | 2 <= r <= 14 witness 2

  datatype Card = Card(suit: Suit, rank: Rank)

  const Suits: seq<Suit> := [Spades, Hearts, Diamonds, Clubs]

  function SuitIndex(s: Suit): (k: nat)
    ensures k < 4 && Suits[k] == s
  {
    match s
    case Spades => 0
    case Hearts => 1
    case Diamonds => 2
    case Clubs => 3
  }

  /** The unshuffled deck: for each suit in order, the ranks 2 up to Ace. */
  function StandardDeck(): seq<Card>
  {
    seq(52, i requires 0 <= i < 52 => Card(Suits[i / 13], (i % 13 + 2) as Rank))
  }

  predicate Distinct<T(==)>(s: seq<T>)
  {
    forall i, j :: 0 <= i < j < |s| ==> s[i] != s[j]
  }

  /** A full deck holds every one of the 52 cards exactly once. */
  ghost predicate IsFullDeck(d: seq<Card>)
  {
    |d| == 52 && forall c: Card :: multiset(d)[c] == 1
  }

  /** Without its first element a sequence stays distinct, and does not hold that element. */
  lemma DistinctTail<T>(s: seq<T>)
    requires Distinct(s) && s != []
    ensures Distinct(s[1..]) && s[0] !in s[1..]
  {
    forall i, j | 0 <= i < j < |s[1..]| ensures s[1..][i] != s[1..][j] {
      assert s[1..][i] == s[i + 1] && s[1..][j] == s[j + 1];
    }
    forall k | 0 <= k < |s[1..]| ensures s[1..][k] != s[0] {
      assert s[1..][k] == s[k + 1];
    }
  }

  lemma {:induction false} DistinctCount<T>(s: seq<T>, x: T)
    requires Distinct(s)
    ensures multiset(s)[x] == if x in s then 1 else 0
  {
    if s != [] {
      assert s == [s[0]] + s[1..];
      DistinctTail(s);
      DistinctCount(s[1..], x);
      assert x in s <==> x == s[0] || x in s[1..];
    }
  }

  lemma SuitsAreDistinct(a: nat, b: nat)
    requires a < 4 && b < 4 && a != b
    ensures Suits[a] != Suits[b]
  {
  }

  /** Every card is built exactly once by the two nested loops of the deck builder. */
  lemma StandardDeckIsFull()
    ensures IsFullDeck(StandardDeck())
  {
    var d := StandardDeck();
    assert Distinct(d) by {
      forall i, j | 0 <= i < j < 52 ensures d[i] != d[j] {
        assert i == 13 * (i / 13) + i % 13 && j == 13 * (j / 13) + j % 13;
        if i / 13 != j / 13 {
          SuitsAreDistinct(i / 13, j / 13);
          assert d[i].suit != d[j].suit;
        } else {
          assert d[i].rank != d[j].rank;
        }
      }
    }
    forall c: Card ensures multiset(d)[c] == 1 {
      var k := SuitIndex(c.suit) * 13 + (c.rank - 2);
      assert k / 13 == SuitIndex(c.suit) && k % 13 == c.rank - 2;
      assert d[k] == c;
      DistinctCount(d, c);
    }
  }

  /** The legal random choices of a Fisher-Yates shuffle over n cards: picks[i] is in 0..i. */
  predicate ValidPicks(picks: seq<nat>, n: nat)
  {
    |picks| == n && forall i :: 0 <= i < n ==> picks[i] <= i
  }

  function Swap<T>(s: seq<T>, i: nat, j: nat): (r: seq<T>)
    requires i < |s| && j < |s|
    ensures |r| == |s|
    ensures r[i] == s[j] && r[j] == s[i]
    ensures forall k :: 0 <= k < |s| && k != i && k != j ==> r[k] == s[k]
  {
    s[i := s[j]][j := s[i]]
  }

  lemma SwapIsPermutation<T>(s: seq<T>, i: nat, j: nat)
    requires i < |s| && j < |s|
    ensures multiset(Swap(s, i, j)) == multiset(s)
  {
  }

  /** The shuffle steps i, i-1, ..., 1, each swapping position k with picks[k]. */
  function ShuffleFrom<T>(s: seq<T>, picks: seq<nat>, i: nat): (r: seq<T>)
    requires ValidPicks(picks, |s|) && i < |s|
    ensures |r| == |s|
    decreases i
  {
    if i == 0 then s else ShuffleFrom(Swap(s, i, picks[i]), picks, i - 1)
  }

  /** The deck that the Fisher-Yates loop produces from s for the given random choices. */
  function Shuffled<T>(s: seq<T>, picks: seq<nat>): (r: seq<T>)
    requires ValidPicks(picks, |s|)
    ensures |r| == |s|
  {
    if |s| == 0 then s else ShuffleFrom(s, picks, |s| - 1)
  }

  lemma {:induction false} ShuffleFromIsPermutation<T>(s: seq<T>, picks: seq<nat>, i: nat)
    requires ValidPicks(picks, |s|) && i < |s|
    ensures multiset(ShuffleFrom(s, picks, i)) == multiset(s)
    decreases i
  {
    if i > 0 {
      SwapIsPermutation(s, i, picks[i]);
      ShuffleFromIsPermutation(Swap(s, i, picks[i]), picks, i - 1);
    }
  }

  /** Whatever the random choices, the shuffled deck is a permutation of the input. */
  lemma ShuffledIsPermutation<T>(s: seq<T>, picks: seq<nat>)
    requires ValidPicks(picks, |s|)
    ensures multiset(Shuffled(s, picks)) == multiset(s)
  {
    if |s| > 0 {
      ShuffleFromIsPermutation(s, picks, |s| - 1);
    }
  }

  /**
   * shuffleDeck: copies the deck into a fresh array and swaps position i with
   * picks[i] for i from the last index down to 1. The argument is a value, so
   * the caller's deck is left as it was.
   */
  method ShuffleDeck(deck: seq<Card>, picks: seq<nat>) returns (shuffled: seq<Card>)
    requires ValidPicks(picks, |deck|)
    ensures shuffled == Shuffled(deck, picks)
    ensures multiset(shuffled) == multiset(deck)
  {
    if |deck| == 0 {
      return deck;
    }
    var a := new Card[|deck|];
    forall k | 0 <= k < a.Length {
      a[k] := deck[k];
    }
    assert a[..] == deck;
    var i: nat := a.Length - 1;
    while i > 0
      invariant i < a.Length
      invariant ShuffleFrom(a[..], picks, i) == Shuffled(deck, picks)
    {
      var j := picks[i];
      ghost var before := a[..];
      a[i], a[j] := a[j], a[i];
      assert a[..] == Swap(before, i, j) by {
        assert forall k :: 0 <= k < a.Length ==> a[..][k] == Swap(before, i, j)[k];
      }
      assert ShuffleFrom(before, picks, i) == ShuffleFrom(a[..], picks, i - 1);
      i := i - 1;
    }
    shuffled := a[..];
    ShuffledIsPermutation(deck, picks);
  }

  /** initializeDeck: build the 52 cards suit by suit, then shuffle them. */
  method InitializeDeck(picks: seq<nat>) returns (deck: seq<Card>)
    requires ValidPicks(picks, 52)
    ensures deck == Shuffled(StandardDeck(), picks)
    ensures IsFullDeck(deck)
  {
    var built: seq<Card> := [];
    var s := 0;
    while s < 4
      invariant 0 <= s <= 4
      invariant built == StandardDeck()[..13 * s]
    {
      var r := 0;
      while r < 13
        invariant 0 <= r <= 13
        invariant built == StandardDeck()[..13 * s + r]
      {
        assert StandardDeck()[13 * s + r] == Card(Suits[s], (r + 2) as Rank);
        built := built + [Card(Suits[s], (r + 2) as Rank)];
        r := r + 1;
      }
      s := s + 1;
    }
    assert built == StandardDeck();
    deck := ShuffleDeck(built, picks);
    ShuffledIsPermutation(built, picks);
    StandardDeckIsFull();
  }
}
