/**
 * What the hand evaluator guarantees: the shape of each category it reports,
 * when each check matches, the behaviour of the straight scan, and the size of
 * the best hand.
 */
module HandProperties {
  import opened Cards
  import opened HandEvaluator

  lemma HasRankIff(cards: seq<Card>, k: int)
    ensures HasRank(cards, k) <==> exists c :: c in cards && c.rank == k
  {
    if HasRank(cards, k) {
      assert OfRank(cards, k)[0] in OfRank(cards, k);
    }
    if c :| c in cards && c.rank == k {
      assert c in OfRank(cards, k);
    }
  }

  /** The number of cards of rank r. */
  function RankCount(cards: seq<Card>, r: int): nat
  {
    |OfRank(cards, r)|
  }

  /** The number of cards of suit s. */
  function SuitCount(cards: seq<Card>, s: Suit): nat
  {
    |OfSuit(cards, s)|
  }

  /** Some rank has exactly four cards. */
  ghost predicate HasQuads(cards: seq<Card>)
  {
    exists q :: RankCount(cards, q) == 4
  }

  /** One rank has three cards or more and another rank two or more. */
  ghost predicate HasTripsAndPair(cards: seq<Card>)
  {
    exists t, p :: t != p && RankCount(cards, t) >= 3 && RankCount(cards, p) >= 2
  }

  /** Some suit has five cards or more. */
  ghost predicate HasFlushSuit(cards: seq<Card>)
  {
    exists s :: SuitCount(cards, s) >= 5
  }

  /** Some rank has exactly three cards. */
  ghost predicate HasTrips(cards: seq<Card>)
  {
    exists q :: RankCount(cards, q) == 3
  }

  /** Two different ranks have two cards or more each. */
  ghost predicate HasTwoPairs(cards: seq<Card>)
  {
    exists a, b :: a != b && RankCount(cards, a) >= 2 && RankCount(cards, b) >= 2
  }

  /** Some rank has exactly two cards. */
  ghost predicate HasPair(cards: seq<Card>)
  {
    exists q :: RankCount(cards, q) == 2
  }

  /** A group that is not empty has a rank that a card can have. */
  lemma GroupRankIsRank(cards: seq<Card>, k: int)
    requires |OfRank(cards, k)| > 0
    ensures 2 <= k <= 14
  {
    assert OfRank(cards, k)[0] in OfRank(cards, k);
  }

  // ---------------------------------------------------------------------------
  // A group and its kickers (four of a kind, three of a kind, one pair)

  /** The group comes first, whole, and fixes the rank of the hand. */
  lemma GroupWithKickersGroup(cards: seq<Card>, q: int, n: nat)
    requires |OfRank(cards, q)| > 0
    ensures var h, m := GroupWithKickers(cards, q, n), |OfRank(cards, q)|;
      h[..m] == OfRank(cards, q) && h[0].rank == q
      && |h| == m + (if n <= |cards| - m then n else |cards| - m)
  {
    var g := OfRank(cards, q);
    assert g[0] in g;
    assert GroupWithKickers(cards, q, n)[..|g|] == g;
  }

  /** The kickers are of other ranks, highest first. */
  lemma GroupWithKickersKickers(cards: seq<Card>, q: int, n: nat)
    ensures var h, m := GroupWithKickers(cards, q, n), |OfRank(cards, q)|;
      (forall k :: m <= k < |h| ==> h[k].rank != q)
      && (forall i, j :: m <= i < j < |h| ==> h[i].rank >= h[j].rank)
  {
    var g, kick := OfRank(cards, q), TopCards(NotOfRank(cards, q), n);
    KickersAfterGroup(g, kick);
  }

  lemma KickersAfterGroup(g: seq<Card>, kick: seq<Card>)
    ensures forall k :: |g| <= k < |g + kick| ==> (g + kick)[k] in kick
    ensures forall i, j :: |g| <= i < j < |g + kick| ==> (g + kick)[i] == kick[i - |g|] && (g + kick)[j] == kick[j - |g|]
  {
  }

  /** None of the cards of another rank outranks the first kicker. */
  lemma GroupWithKickersTopKicker(cards: seq<Card>, q: int, n: nat)
    requires |OfRank(cards, q)| < |GroupWithKickers(cards, q, n)|
    ensures var h := GroupWithKickers(cards, q, n);
      forall c :: c in cards && c.rank != q ==> c.rank <= h[|OfRank(cards, q)|].rank
  {
    var others := NotOfRank(cards, q);
    TopCardsHeadIsMax(others, n);
    assert GroupWithKickers(cards, q, n)[|OfRank(cards, q)|] == TopCards(others, n)[0];
    assert forall c :: c in cards && c.rank != q ==> c in others;
  }

  /**
   * The kickers are the highest cards of the other ranks: they are taken from
   * those cards, and none of those left out ranks above the last kicker.
   */
  lemma GroupWithKickersHighest(cards: seq<Card>, q: int, n: nat)
    ensures var h, m := GroupWithKickers(cards, q, n), |OfRank(cards, q)|;
      multiset(h[m..]) <= multiset(NotOfRank(cards, q))
    ensures var h, m := GroupWithKickers(cards, q, n), |OfRank(cards, q)|;
      m < |h| ==> forall c :: c in multiset(NotOfRank(cards, q)) - multiset(h[m..]) ==> c.rank <= h[|h| - 1].rank
  {
    var g, kick := OfRank(cards, q), TopCards(NotOfRank(cards, q), n);
    TopCardsAreHighest(NotOfRank(cards, q), n);
    assert GroupWithKickers(cards, q, n)[|g|..] == kick;
  }

  lemma GroupWithKickersMembers(cards: seq<Card>, q: int, n: nat)
    ensures forall c :: c in GroupWithKickers(cards, q, n) ==> c in cards
  {
  }

  // ---------------------------------------------------------------------------
  // Four of a kind

  /** checkFourOfAKind matches exactly when some rank has exactly four cards. */
  lemma FourOfAKindIff(cards: seq<Card>)
    ensures CheckFourOfAKind(cards).Some? <==> exists q :: RankCount(cards, q) == 4
  {
    if q :| RankCount(cards, q) == 4 {
      GroupRankIsRank(cards, q);
    }
    if CheckFourOfAKind(cards).Some? {
      var q := FirstGroupRank(cards, Exactly(4), 0).value;
      assert RankCount(cards, q) == 4;
    }
  }

  /** Four cards of one rank, then the highest card of another rank: five cards from five or more. */
  lemma FourOfAKindShape(cards: seq<Card>)
    requires CheckFourOfAKind(cards).Some?
    ensures var h := CheckFourOfAKind(cards).value;
      |OfRank(cards, h[0].rank)| == 4 && h == GroupWithKickers(cards, h[0].rank, 1)
      && (|cards| >= 5 ==> |h| == 5)
  {
    var q := FirstGroupRank(cards, Exactly(4), 0).value;
    GroupWithKickersGroup(cards, q, 1);
  }

  // ---------------------------------------------------------------------------
  // Three of a kind and one pair

  /** checkThreeOfAKind matches exactly when some rank has exactly three cards. */
  lemma ThreeOfAKindIff(cards: seq<Card>)
    ensures CheckThreeOfAKind(cards).Some? <==> exists q :: RankCount(cards, q) == 3
  {
    if q :| RankCount(cards, q) == 3 {
      GroupRankIsRank(cards, q);
    }
    if CheckThreeOfAKind(cards).Some? {
      var q := FirstGroupRank(cards, Exactly(3), 0).value;
      assert RankCount(cards, q) == 3;
    }
  }

  /**
   * The three cards of one rank, then the two highest cards of other ranks: no
   * card of another rank left out outranks the last kicker.
   */
  lemma ThreeOfAKindShape(cards: seq<Card>)
    requires CheckThreeOfAKind(cards).Some?
    ensures var h := CheckThreeOfAKind(cards).value;
      |OfRank(cards, h[0].rank)| == 3 && h == GroupWithKickers(cards, h[0].rank, 2)
      && (|cards| >= 5 ==> |h| == 5)
    ensures var h := CheckThreeOfAKind(cards).value;
      && multiset(h[3..]) <= multiset(NotOfRank(cards, h[0].rank))
      && (3 < |h| ==> forall c :: c in multiset(NotOfRank(cards, h[0].rank)) - multiset(h[3..]) ==> c.rank <= h[|h| - 1].rank)
  {
    var q := FirstGroupRank(cards, Exactly(3), 0).value;
    GroupWithKickersGroup(cards, q, 2);
    GroupWithKickersHighest(cards, q, 2);
  }

  /** checkOnePair matches exactly when some rank has exactly two cards. */
  lemma OnePairIff(cards: seq<Card>)
    ensures CheckOnePair(cards).Some? <==> exists q :: RankCount(cards, q) == 2
  {
    if q :| RankCount(cards, q) == 2 {
      GroupRankIsRank(cards, q);
    }
    if CheckOnePair(cards).Some? {
      var q := FirstGroupRank(cards, Exactly(2), 0).value;
      assert RankCount(cards, q) == 2;
    }
  }

  /**
   * The two cards of one rank, then the three highest cards of other ranks: no
   * card of another rank left out outranks the last kicker.
   */
  lemma OnePairShape(cards: seq<Card>)
    requires CheckOnePair(cards).Some?
    ensures var h := CheckOnePair(cards).value;
      |OfRank(cards, h[0].rank)| == 2 && h == GroupWithKickers(cards, h[0].rank, 3)
      && (|cards| >= 5 ==> |h| == 5)
    ensures var h := CheckOnePair(cards).value;
      && multiset(h[2..]) <= multiset(NotOfRank(cards, h[0].rank))
      && (2 < |h| ==> forall c :: c in multiset(NotOfRank(cards, h[0].rank)) - multiset(h[2..]) ==> c.rank <= h[|h| - 1].rank)
  {
    var q := FirstGroupRank(cards, Exactly(2), 0).value;
    GroupWithKickersGroup(cards, q, 3);
    GroupWithKickersHighest(cards, q, 3);
  }

  // ---------------------------------------------------------------------------
  // Full house

  /** checkFullHouse matches exactly when one rank has three cards or more and another two or more. */
  lemma FullHouseIff(cards: seq<Card>)
    ensures CheckFullHouse(cards).Some? <==>
      exists t, p :: t != p && RankCount(cards, t) >= 3 && RankCount(cards, p) >= 2
  {
    if t, p :| t != p && RankCount(cards, t) >= 3 && RankCount(cards, p) >= 2 {
      GroupRankIsRank(cards, t);
      GroupRankIsRank(cards, p);
      var t' := FirstGroupRank(cards, AtLeast(3), 0).value;
      if t' == t {
        assert FirstGroupRank(cards, AtLeast(2), t').Some?;
      } else {
        assert |OfRank(cards, t')| >= 2;
      }
    }
    if CheckFullHouse(cards).Some? {
      var t := FirstGroupRank(cards, AtLeast(3), 0).value;
      var p := FirstGroupRank(cards, AtLeast(2), t).value;
      assert RankCount(cards, t) >= 3 && RankCount(cards, p) >= 2;
    }
  }

  /** Three cards of one rank, then two cards of another. */
  lemma FullHouseShape(cards: seq<Card>)
    requires CheckFullHouse(cards).Some?
    ensures var h := CheckFullHouse(cards).value; var t, p := h[0].rank, h[3].rank;
      |h| == 5 && t != p && |OfRank(cards, t)| >= 3 && |OfRank(cards, p)| >= 2
      && h[..3] == OfRank(cards, t)[..3] && h[3..] == OfRank(cards, p)[..2]
    ensures var h := CheckFullHouse(cards).value;
      && NoneBefore(ForInRanks(cards), cards, AtLeast(3), 0, h[0].rank)
      && NoneBefore(ForInRanks(cards), cards, AtLeast(2), h[0].rank, h[3].rank)
  {
    var t := FirstGroupRank(cards, AtLeast(3), 0).value;
    var p := FirstGroupRank(cards, AtLeast(2), t).value;
    var h := CheckFullHouse(cards).value;
    assert OfRank(cards, t)[0] in OfRank(cards, t) && OfRank(cards, p)[0] in OfRank(cards, p);
    assert h[..3] == OfRank(cards, t)[..3] && h[3..] == OfRank(cards, p)[..2];
    assert h[0] == OfRank(cards, t)[0] && h[3] == OfRank(cards, p)[0];
  }

  /**
   * The groups are taken in for-in order, not by rank: a pair of rank 2..10 is
   * taken before a pair of face cards, so three kings with two queens and two
   * fives make kings full of fives.
   */
  lemma FullHouseTakesLowPairFirst(cards: seq<Card>, p: int, q: int)
    requires CheckFullHouse(cards).Some?
    requires p <= 10 < q && p != CheckFullHouse(cards).value[0].rank
    requires |OfRank(cards, p)| >= 2 && |OfRank(cards, q)| >= 2
    ensures CheckFullHouse(cards).value[3].rank != q
  {
    var h := CheckFullHouse(cards).value;
    FullHouseShape(cards);
    var i, j := LowKeyBeforeFace(cards, p, q);
    var ks := ForInRanks(cards);
    assert ks[i] != h[0].rank && Fits(|OfRank(cards, ks[i])|, AtLeast(2));
  }

  /**
   * Three cards of a rank 2..10 are taken before three face cards, so three
   * kings with three fives make fives full of kings.
   */
  lemma FullHouseTakesLowTripsFirst(cards: seq<Card>, a: int, b: int)
    requires a <= 10 < b && |OfRank(cards, a)| >= 3 && |OfRank(cards, b)| >= 3
    ensures CheckFullHouse(cards).Some? && CheckFullHouse(cards).value[0].rank != b
  {
    FullHouseIff(cards);
    assert RankCount(cards, a) >= 3 && RankCount(cards, b) >= 2;
    var h := CheckFullHouse(cards).value;
    FullHouseShape(cards);
    var i, j := LowKeyBeforeFace(cards, a, b);
    var ks := ForInRanks(cards);
    assert OfRank(cards, a)[0] in OfRank(cards, a);
    assert ks[i] != 0 && Fits(|OfRank(cards, ks[i])|, AtLeast(3));
  }

  /** In the for-in order an integer-like key comes before every face key. */
  lemma LowKeyBeforeFace(cards: seq<Card>, a: int, b: int) returns (i: nat, j: nat)
    requires HasRank(cards, a) && HasRank(cards, b) && a <= 10 < b
    ensures i < j < |ForInRanks(cards)| && ForInRanks(cards)[i] == a && ForInRanks(cards)[j] == b
  {
    var ks := ForInRanks(cards);
    ForInRanksMembers(cards);
    ForInRanksOrder(cards);
    i :| 0 <= i < |ks| && ks[i] == a;
    j :| 0 <= j < |ks| && ks[j] == b;
    assert i != j;
  }

  lemma FullHouseMembers(cards: seq<Card>)
    requires CheckFullHouse(cards).Some?
    ensures forall c :: c in CheckFullHouse(cards).value ==> c in cards
  {
    var t := FirstGroupRank(cards, AtLeast(3), 0).value;
    var p := FirstGroupRank(cards, AtLeast(2), t).value;
    var a, b := OfRank(cards, t), OfRank(cards, p);
    assert forall c :: c in a[..3] ==> c in a;
    assert forall c :: c in b[..2] ==> c in b;
  }

  // ---------------------------------------------------------------------------
  // Two pair

  lemma TwoMembers<T>(s: seq<T>, a: T, b: T)
    requires a in s && b in s && a != b
    ensures |s| >= 2
  {
    var i :| 0 <= i < |s| && s[i] == a;
    var j :| 0 <= j < |s| && s[j] == b;
    assert i != j;
  }

  lemma PairRankListed(cards: seq<Card>, k: int)
    requires |OfRank(cards, k)| >= 2
    ensures k in PairRanks(cards, 14)
  {
    GroupRankIsRank(cards, k);
    PairRanksSpec(cards, 14);
  }

  lemma PairRanksListed(cards: seq<Card>)
    ensures forall k :: k in PairRanks(cards, 14) ==> |OfRank(cards, k)| >= 2
  {
    PairRanksSpec(cards, 14);
  }

  /** checkTwoPair matches exactly when two different ranks have two cards or more. */
  lemma TwoPairIff(cards: seq<Card>)
    ensures CheckTwoPair(cards).Some? <==>
      exists a, b :: a != b && RankCount(cards, a) >= 2 && RankCount(cards, b) >= 2
  {
    if a, b :| a != b && RankCount(cards, a) >= 2 && RankCount(cards, b) >= 2 {
      TwoPairFromPairs(cards, a, b);
    }
    if CheckTwoPair(cards).Some? {
      TwoPairHasPairs(cards);
      var ps := PairRanks(cards, 14);
      assert RankCount(cards, ps[0]) >= 2 && RankCount(cards, ps[1]) >= 2;
    }
  }

  lemma TwoPairFromPairs(cards: seq<Card>, a: int, b: int)
    requires a != b && |OfRank(cards, a)| >= 2 && |OfRank(cards, b)| >= 2
    ensures CheckTwoPair(cards).Some?
  {
    PairRankListed(cards, a);
    PairRankListed(cards, b);
    TwoMembers(PairRanks(cards, 14), a, b);
    TwoPairWhenTwoRanks(cards);
  }

  lemma TwoPairWhenTwoRanks(cards: seq<Card>)
    ensures CheckTwoPair(cards).Some? <==> |PairRanks(cards, 14)| >= 2
  {
  }

  lemma TwoPairHasPairs(cards: seq<Card>)
    requires CheckTwoPair(cards).Some?
    ensures var ps := PairRanks(cards, 14);
      ps[0] > ps[1] && |OfRank(cards, ps[0])| >= 2 && |OfRank(cards, ps[1])| >= 2
  {
    var ps := PairRanks(cards, 14);
    PairRanksSpec(cards, 14);
    assert ps[0] in ps && ps[1] in ps;
  }

  lemma MemberOfDecreasing(ps: seq<int>, k: int)
    requires |ps| >= 2 && k in ps
    requires forall i, j :: 0 <= i < j < |ps| ==> ps[i] > ps[j]
    ensures k <= ps[0] && (k == ps[0] || k <= ps[1])
  {
  }

  lemma PairRankBound(cards: seq<Card>, k: int)
    requires |PairRanks(cards, 14)| >= 2 && k in PairRanks(cards, 14)
    ensures var ps := PairRanks(cards, 14); k <= ps[0] && (k == ps[0] || k <= ps[1])
  {
    PairRanksSpec(cards, 14);
    MemberOfDecreasing(PairRanks(cards, 14), k);
  }

  /** The pair ranks, highest first: the first is the highest, and every other is at most the second. */
  lemma PairRanksTop(cards: seq<Card>)
    requires |PairRanks(cards, 14)| >= 2
    ensures var ps := PairRanks(cards, 14);
      forall k :: |OfRank(cards, k)| >= 2 ==> k <= ps[0] && (k == ps[0] || k <= ps[1])
  {
    forall k | |OfRank(cards, k)| >= 2
      ensures k <= PairRanks(cards, 14)[0] && (k == PairRanks(cards, 14)[0] || k <= PairRanks(cards, 14)[1])
    {
      PairRankListed(cards, k);
      PairRankBound(cards, k);
    }
  }

  /** The four pair cards: two of the higher pair rank, then two of the lower. */
  lemma TwoPairPairs(cards: seq<Card>)
    requires CheckTwoPair(cards).Some?
    ensures var ps := PairRanks(cards, 14);
      |ps| >= 2 && |OfRank(cards, ps[0])| >= 2 && |OfRank(cards, ps[1])| >= 2
      && var h := CheckTwoPair(cards).value;
      |h| >= 4 && h[..2] == OfRank(cards, ps[0])[..2] && h[2..4] == OfRank(cards, ps[1])[..2]
      && h[4..] == TopCards(NotOfRanks(cards, ps[0], ps[1]), 1)
      && h[0].rank == ps[0] && h[2].rank == ps[1]
  {
    var ps := PairRanks(cards, 14);
    TwoPairHasPairs(cards);
    var a, b := OfRank(cards, ps[0]), OfRank(cards, ps[1]);
    var kick := TopCards(NotOfRanks(cards, ps[0], ps[1]), 1);
    var h := CheckTwoPair(cards).value;
    assert h == a[..2] + b[..2] + kick;
    assert a[0] in a && b[0] in b;
    TwoPairParts(h, a, b, kick);
  }

  lemma TwoPairParts(h: seq<Card>, a: seq<Card>, b: seq<Card>, kick: seq<Card>)
    requires |a| >= 2 && |b| >= 2 && h == a[..2] + b[..2] + kick
    ensures |h| >= 4 && h[..2] == a[..2] && h[2..4] == b[..2] && h[4..] == kick
    ensures h[0] == a[0] && h[2] == b[0]
  {
  }

  /**
   * Two cards of the highest pair, two of the second highest, then the highest card
   * of neither rank; no other rank with two cards lies above the second pair.
   */
  lemma TwoPairShape(cards: seq<Card>)
    requires CheckTwoPair(cards).Some?
    ensures var h := CheckTwoPair(cards).value;
      |h| >= 4 && var p0, p1 := h[0].rank, h[2].rank;
      p0 > p1 && |OfRank(cards, p0)| >= 2 && |OfRank(cards, p1)| >= 2
      && h[..2] == OfRank(cards, p0)[..2] && h[2..4] == OfRank(cards, p1)[..2]
      && h[4..] == TopCards(NotOfRanks(cards, p0, p1), 1)
      && |h| == 4 + (if |cards| - |OfRank(cards, p0)| - |OfRank(cards, p1)| >= 1 then 1 else 0)
      && (forall k :: |OfRank(cards, k)| >= 2 ==> k <= p0 && (k == p0 || k <= p1))
  {
    TwoPairHasPairs(cards);
    TwoPairPairs(cards);
    PairRanksTop(cards);
  }

  lemma TwoPairMembers(cards: seq<Card>)
    requires CheckTwoPair(cards).Some?
    ensures forall c :: c in CheckTwoPair(cards).value ==> c in cards
  {
    TwoPairPairs(cards);
    var ps := PairRanks(cards, 14);
    PiecesMembers(CheckTwoPair(cards).value, OfRank(cards, ps[0]), OfRank(cards, ps[1]),
      TopCards(NotOfRanks(cards, ps[0], ps[1]), 1), cards);
  }

  lemma PiecesMembers(h: seq<Card>, a: seq<Card>, b: seq<Card>, kick: seq<Card>, cards: seq<Card>)
    requires |h| >= 4 && |a| >= 2 && |b| >= 2
    requires h[..2] == a[..2] && h[2..4] == b[..2] && h[4..] == kick
    requires forall c :: c in a ==> c in cards
    requires forall c :: c in b ==> c in cards
    requires forall c :: c in kick ==> c in cards
    ensures forall c :: c in h ==> c in cards
  {
    assert h == h[..2] + h[2..4] + h[4..];
    assert forall c :: c in a[..2] ==> c in a;
    assert forall c :: c in b[..2] ==> c in b;
  }

  // ---------------------------------------------------------------------------
  // Flush

  /** checkFlush matches exactly when some suit has five cards or more. */
  lemma FlushIff(cards: seq<Card>)
    ensures CheckFlush(cards).Some? <==> exists s :: SuitCount(cards, s) >= 5
  {
    if s :| SuitCount(cards, s) >= 5 {
      FlushFromSuit(cards, s);
    }
    if CheckFlush(cards).Some? {
      var s := FindFlushSuit(SuitsInOrderSeen(cards, {}), cards).value;
      assert SuitCount(cards, s) >= 5;
    }
  }

  lemma FlushFromSuit(cards: seq<Card>, s: Suit)
    requires |OfSuit(cards, s)| >= 5
    ensures CheckFlush(cards).Some?
  {
    assert s in SuitsInOrderSeen(cards, {});
  }

  /** Every card of one suit, and nothing else, highest rank first. */
  lemma FlushShape(cards: seq<Card>)
    requires CheckFlush(cards).Some?
    ensures var h := CheckFlush(cards).value;
      |h| >= 5
      && (forall c :: c in h <==> c in cards && c.suit == h[0].suit)
      && (forall i, j :: 0 <= i < j < |h| ==> h[i].rank >= h[j].rank)
  {
    var s := FindFlushSuit(SuitsInOrderSeen(cards, {}), cards).value;
    var g := OfSuit(cards, s);
    SortByRankMembers(g);
    var h := SortByRank(g);
    assert h[0] in h;
    forall c ensures c in h <==> c in cards && c.suit == s {
      assert c in h <==> c in g;
    }
  }

  /** The flush cards are the suit's cards, each as often as it occurs, reordered. */
  lemma FlushPermutation(cards: seq<Card>)
    requires CheckFlush(cards).Some?
    ensures var h := CheckFlush(cards).value;
      exists s :: multiset(h) == multiset(OfSuit(cards, s)) && SuitCount(cards, s) >= 5
  {
    var s := FindFlushSuit(SuitsInOrderSeen(cards, {}), cards).value;
    SortByRankPermutation(OfSuit(cards, s));
  }

  // ---------------------------------------------------------------------------
  // Straight

  lemma SortedSameRanks(cards: seq<Card>)
    ensures forall k :: HasRank(SortByRank(cards), k) <==> HasRank(cards, k)
  {
    SortByRankMembers(cards);
    forall k ensures HasRank(SortByRank(cards), k) <==> HasRank(cards, k) {
      HasRankIff(cards, k);
      HasRankIff(SortByRank(cards), k);
    }
  }

  lemma {:induction false} DistinctRanksAgree(a: seq<Card>, b: seq<Card>, r: int)
    requires forall k :: HasRank(a, k) <==> HasRank(b, k)
    ensures DistinctRanks(a, r) == DistinctRanks(b, r)
    decreases r
  {
    if r >= 2 {
      DistinctRanksAgree(a, b, r - 1);
    }
  }

  /** A list that strictly decreases from position i on has no window rising by four. */
  lemma {:induction false} NoRunWhileDecreasing(u: seq<int>, i: nat)
    requires forall a, b :: i <= a < b < |u| ==> u[a] > u[b]
    ensures FindRun(u, i).None?
    decreases |u| - i
  {
    if i + 5 <= |u| {
      NoRunWhileDecreasing(u, i + 1);
    }
  }

  /** The scan of a hand's ranks: Ace low put in front, then the ranks highest first. */
  lemma ScanOfRanks(cards: seq<Card>)
    ensures var d := DistinctRanks(cards, 14);
      AceLow(DistinctRanks(SortByRank(cards), 14)) == if HasRank(cards, 14) then [1] + d else d
  {
    SortedSameRanks(cards);
    DistinctRanksAgree(SortByRank(cards), cards, 14);
    AceInRanks(cards);
  }

  lemma AceInRanks(cards: seq<Card>)
    ensures 14 in DistinctRanks(cards, 14) <==> HasRank(cards, 14)
  {
    DistinctRanksSpec(cards, 14);
  }

  predicate Decreasing(d: seq<int>)
  {
    forall i, j :: 0 <= i < j < |d| ==> d[i] > d[j]
  }

  /**
   * The scan over a strictly decreasing list, with or without the 1 put in front:
   * only the first window can rise by four, and only when the 1 is there and the
   * fourth value after it is 5.
   */
  lemma RunInScan(d: seq<int>, ace: bool)
    requires Decreasing(d)
    ensures var u := if ace then [1] + d else d;
      (FindRun(u, 0).Some? <==> ace && |d| >= 4 && d[3] == 5)
      && (FindRun(u, 0).Some? ==> FindRun(u, 0).value == 0)
  {
    if ace {
      var u := [1] + d;
      assert forall a, b :: 1 <= a < b < |u| ==> u[a] == d[a - 1] && u[b] == d[b - 1];
      NoRunWhileDecreasing(u, 1);
    } else {
      NoRunWhileDecreasing(d, 0);
    }
  }

  lemma RanksDecreasing(cards: seq<Card>)
    ensures Decreasing(DistinctRanks(cards, 14))
  {
    DistinctRanksSpec(cards, 14);
  }

  /**
   * checkStraight finds a straight exactly when the hand holds an Ace and its
   * fourth-highest distinct rank is 5: only the first window, 1 followed by
   * the four highest ranks, can rise by exactly four.
   */
  lemma StraightIff(cards: seq<Card>)
    ensures CheckStraight(cards).Some? <==> StraightHit(cards)
  {
    ScanOfRanks(cards);
    RanksDecreasing(cards);
    RunInScan(DistinctRanks(cards, 14), HasRank(cards, 14));
  }

  /** A found straight is the first Ace twice, then the cards of the next two ranks, then a 5. */
  lemma StraightShape(cards: seq<Card>)
    requires CheckStraight(cards).Some?
    ensures var h, d := CheckStraight(cards).value, DistinctRanks(cards, 14);
      |h| == 5 && |d| >= 4 && h[0] == h[1] && h[0].rank == 14
      && h[2].rank == d[1] && h[3].rank == d[2] && h[4].rank == 5
  {
    var d := DistinctRanks(cards, 14);
    var u := AceLow(DistinctRanks(SortByRank(cards), 14));
    StraightWindow(cards);
    ScanOfRanks(cards);
    RanksDecreasing(cards);
    if HasRank(cards, 14) {
      AceFirst(cards);
    }
    WindowShape(CheckStraight(cards).value, u, d, HasRank(cards, 14));
  }

  /** The cards picked for the only window the scan can find: Ace, Ace, two more ranks, then 5. */
  lemma WindowShape(h: seq<Card>, u: seq<int>, d: seq<int>, ace: bool)
    requires Decreasing(d)
    requires u == if ace then [1] + d else d
    requires ace ==> |d| > 0 && d[0] == 14
    requires FindRun(u, 0).Some? && |h| == 5
    requires var i := FindRun(u, 0).value;
      h[0].rank == RankForValue(u[i]) && h[1].rank == RankForValue(u[i + 1])
      && h[2].rank == RankForValue(u[i + 2]) && h[3].rank == RankForValue(u[i + 3])
      && h[4].rank == RankForValue(u[i + 4])
      && (RankForValue(u[i]) == RankForValue(u[i + 1]) ==> h[0] == h[1])
    ensures |d| >= 4 && h[0] == h[1] && h[0].rank == 14
      && h[2].rank == d[1] && h[3].rank == d[2] && h[4].rank == 5
  {
    RunInScan(d, ace);
    assert u[1] == d[0] && u[2] == d[1] && u[3] == d[2] && u[4] == d[3];
  }

  /** The cards of a found straight are the first cards of the ranks of the window found. */
  lemma StraightWindow(cards: seq<Card>)
    requires CheckStraight(cards).Some?
    ensures var sorted := SortByRank(cards); var u := AceLow(DistinctRanks(sorted, 14));
      var h := CheckStraight(cards).value;
      FindRun(u, 0).Some? && |h| == 5
      && var i := FindRun(u, 0).value;
      h[0].rank == RankForValue(u[i]) && h[1].rank == RankForValue(u[i + 1])
      && h[2].rank == RankForValue(u[i + 2]) && h[3].rank == RankForValue(u[i + 3])
      && h[4].rank == RankForValue(u[i + 4])
      && (RankForValue(u[i]) == RankForValue(u[i + 1]) ==> h[0] == h[1])
  {
    var sorted := SortByRank(cards);
    var u := AceLow(DistinctRanks(sorted, 14));
    var i := FindRun(u, 0).value;
    DistinctRanksSpec(sorted, 14);
    AceLowRanksOccur(sorted, DistinctRanks(sorted, 14));
    var h := StraightCards(sorted, u, i, i + 5);
    assert CheckStraight(cards) == Some(h);
    StraightCardsRanks(sorted, u, i, h);
  }

  lemma StraightCardsRanks(sorted: seq<Card>, u: seq<int>, i: nat, h: seq<Card>)
    requires i + 5 <= |u|
    requires forall v :: v in u ==> HasRank(sorted, RankForValue(v))
    requires h == StraightCards(sorted, u, i, i + 5)
    ensures |h| == 5
    ensures h[0].rank == RankForValue(u[i]) && h[1].rank == RankForValue(u[i + 1])
      && h[2].rank == RankForValue(u[i + 2]) && h[3].rank == RankForValue(u[i + 3])
      && h[4].rank == RankForValue(u[i + 4])
    ensures RankForValue(u[i]) == RankForValue(u[i + 1]) ==> h[0] == h[1]
  {
    assert h[0] == FirstOfRank(sorted, RankForValue(u[i + 0]));
    assert h[1] == FirstOfRank(sorted, RankForValue(u[i + 1]));
    assert h[2] == FirstOfRank(sorted, RankForValue(u[i + 2]));
    assert h[3] == FirstOfRank(sorted, RankForValue(u[i + 3]));
    assert h[4] == FirstOfRank(sorted, RankForValue(u[i + 4]));
  }

  /** With an Ace in the hand, the highest distinct rank is the Ace. */
  lemma AceFirst(cards: seq<Card>)
    requires HasRank(cards, 14)
    ensures |DistinctRanks(cards, 14)| > 0 && DistinctRanks(cards, 14)[0] == 14
  {
    DistinctRanksSpec(cards, 14);
    var d := DistinctRanks(cards, 14);
    assert 14 in d;
    assert d[0] in d;
  }

  lemma RankOfDistinct(cards: seq<Card>, k: int)
    requires k in DistinctRanks(cards, 14)
    ensures HasRank(cards, k)
  {
    DistinctRanksSpec(cards, 14);
  }

  lemma StraightMembers(cards: seq<Card>)
    requires CheckStraight(cards).Some?
    ensures forall c :: c in CheckStraight(cards).value ==> c in cards
  {
    var sorted := SortByRank(cards);
    var u := AceLow(DistinctRanks(sorted, 14));
    var i := FindRun(u, 0).value;
    DistinctRanksSpec(sorted, 14);
    AceLowRanksOccur(sorted, DistinctRanks(sorted, 14));
    StraightCardsFromSorted(sorted, u, i, i + 5);
    SortByRankMembers(cards);
  }

  lemma StraightCardsFromSorted(sorted: seq<Card>, u: seq<int>, i: nat, j: nat)
    requires i <= j <= |u|
    requires forall v :: v in u ==> HasRank(sorted, RankForValue(v))
    ensures forall c :: c in StraightCards(sorted, u, i, j) ==> c in sorted
  {
    var cs := StraightCards(sorted, u, i, j);
    forall c | c in cs ensures c in sorted {
      var k :| 0 <= k < |cs| && cs[k] == c;
      assert cs[k] == FirstOfRank(sorted, RankForValue(u[i + k]));
    }
  }

  /** The ace-high straight A-K-Q-J-10 on its own is not found. */
  lemma BroadwayNotFound(cards: seq<Card>)
    requires forall k :: HasRank(cards, k) <==> 10 <= k <= 14
    ensures CheckStraight(cards).None?
  {
    StraightIff(cards);
    var d := DistinctRanks(cards, 14);
    if |d| >= 4 {
      RankOfDistinct(cards, d[3]);
    }
  }

  /** The wheel A-2-3-4-5 on its own is not found either. */
  lemma WheelNotFound(cards: seq<Card>)
    requires forall k :: HasRank(cards, k) <==> k == 14 || 2 <= k <= 5
    ensures CheckStraight(cards).None?
  {
    StraightIff(cards);
    var d := DistinctRanks(cards, 14);
    if |d| >= 4 {
      RanksDecreasing(cards);
      RankOfDistinct(cards, d[1]);
      RankOfDistinct(cards, d[2]);
      assert d[0] > d[1] > d[2] > d[3];
    }
  }

  // ---------------------------------------------------------------------------
  // The best hand

  /** When the straight scan matches: an Ace, and 5 as the fourth-highest distinct rank. */
  predicate StraightHit(cards: seq<Card>)
  {
    var d := DistinctRanks(cards, 14);
    HasRank(cards, 14) && |d| >= 4 && d[3] == 5
  }

  /** The flush cards exist and the straight scan matches them. */
  ghost predicate FlushScanHit(cards: seq<Card>)
  {
    CheckFlush(cards).Some? && StraightHit(CheckFlush(cards).value)
  }

  /**
   * For each category, whether its condition holds, stated through the sizes of
   * the rank and suit groups rather than through the checks themselves. Both
   * straight-flush categories come from the same scan of the flush cards.
   */
  datatype Conditions = Conditions(
    flushScan: bool, quads: bool, tripsAndPair: bool, flushSuit: bool,
    straight: bool, trips: bool, twoPairs: bool, pair: bool)

  ghost function ConditionsOf(cards: seq<Card>): Conditions
  {
    Conditions(FlushScanHit(cards), HasQuads(cards), HasTripsAndPair(cards), HasFlushSuit(cards),
      StraightHit(cards), HasTrips(cards), HasTwoPairs(cards), HasPair(cards))
  }

  function HoldsIn(k: Conditions, c: Category): bool
  {
    match c
    case RoyalFlush => k.flushScan
    case StraightFlush => k.flushScan
    case FourOfAKind => k.quads
    case FullHouse => k.tripsAndPair
    case Flush => k.flushSuit
    case Straight => k.straight
    case ThreeOfAKind => k.trips
    case TwoPair => k.twoPairs
    case OnePair => k.pair
    case HighCard => true
  }

  /** The first category, from top down, whose condition holds. */
  function FirstFrom(k: Conditions, top: Category): Category
    decreases CategoryValue(top)
  {
    if top == HighCard || HoldsIn(k, top) then top else FirstFrom(k, Below(top))
  }

  /** The category findBestHand should report, independently of how the checks work. */
  ghost function ReferenceCategory(cards: seq<Card>): Category
  {
    FirstFrom(ConditionsOf(cards), RoyalFlush)
  }

  lemma {:induction false} FirstFromAtMost(k: Conditions, top: Category)
    ensures CategoryValue(FirstFrom(k, top)) <= CategoryValue(top)
    decreases CategoryValue(top)
  {
    if top != HighCard && !HoldsIn(k, top) {
      FirstFromAtMost(k, Below(top));
    }
  }

  /** Every card of h is one of cards, checked card by card. */
  predicate AllIn(h: seq<Card>, cards: seq<Card>)
  {
    |h| == 0 || (h[0] in cards && AllIn(h[1..], cards))
  }

  lemma {:induction false} AllInIff(h: seq<Card>, cards: seq<Card>)
    ensures AllIn(h, cards) <==> forall c :: c in h ==> c in cards
  {
    if |h| > 0 {
      AllInIff(h[1..], cards);
      assert h == [h[0]] + h[1..];
    }
  }

  ghost predicate GroupsAtMost(cards: seq<Card>, m: nat)
  {
    forall q :: RankCount(cards, q) <= m
  }

  /** The largest rank group left on distinct cards once every check above top has failed. */
  function LargestGroupLeft(top: Category): nat
  {
    if CategoryValue(top) <= 3 then 2 else if CategoryValue(top) <= 7 then 3 else 4
  }

  lemma GroupsWithoutQuads(cards: seq<Card>)
    requires GroupsAtMost(cards, 4) && !HasQuads(cards)
    ensures GroupsAtMost(cards, 3)
  {
  }

  lemma GroupsWithoutTrips(cards: seq<Card>)
    requires GroupsAtMost(cards, 3) && !HasTrips(cards)
    ensures GroupsAtMost(cards, 2)
  {
  }

  // Each check on its own: when it matches, that its cards come from the input,
  // and that there are five of them.

  /** The straight the flush scan finds always starts with its Ace. */
  lemma StraightFlushLeadsWithAce(cards: seq<Card>)
    requires StraightFlushCards(cards).Some?
    ensures |StraightFlushCards(cards).value| > 0 && StraightFlushCards(cards).value[0].rank == 14
  {
    StraightShape(CheckFlush(cards).value);
  }

  lemma StraightFlushSound(cards: seq<Card>)
    ensures var r := StraightFlushCards(cards);
      && (r.Some? <==> FlushScanHit(cards))
      && (r.Some? ==> AllIn(r.value, cards) && |r.value| == 5)
  {
    var flush := CheckFlush(cards);
    if flush.Some? {
      StraightIff(flush.value);
      if CheckStraight(flush.value).Some? {
        FlushShape(cards);
        StraightShape(flush.value);
        StraightMembers(flush.value);
        AllInIff(CheckStraight(flush.value).value, cards);
      }
    }
  }

  lemma FourOfAKindSound(cards: seq<Card>)
    ensures var r := CheckFourOfAKind(cards);
      && (r.Some? <==> HasQuads(cards))
      && (r.Some? ==> AllIn(r.value, cards) && (|cards| >= 5 ==> |r.value| == 5))
  {
    FourOfAKindIff(cards);
    var r := CheckFourOfAKind(cards);
    if r.Some? {
      FourOfAKindShape(cards);
      GroupWithKickersMembers(cards, r.value[0].rank, 1);
      AllInIff(r.value, cards);
    }
  }

  lemma FullHouseSound(cards: seq<Card>)
    ensures var r := CheckFullHouse(cards);
      && (r.Some? <==> HasTripsAndPair(cards))
      && (r.Some? ==> AllIn(r.value, cards) && |r.value| == 5)
  {
    FullHouseIff(cards);
    var r := CheckFullHouse(cards);
    if r.Some? {
      FullHouseShape(cards);
      FullHouseMembers(cards);
      AllInIff(r.value, cards);
    }
  }

  lemma FlushSound(cards: seq<Card>)
    ensures var r := FlushCards(cards);
      && (r.Some? <==> HasFlushSuit(cards))
      && (r.Some? ==> AllIn(r.value, cards) && |r.value| == 5)
  {
    FlushIff(cards);
    var f := CheckFlush(cards);
    if f.Some? {
      FlushShape(cards);
      assert forall c :: c in f.value[..5] ==> c in f.value;
      AllInIff(f.value[..5], cards);
    }
  }

  lemma StraightSound(cards: seq<Card>)
    ensures var r := CheckStraight(cards);
      && (r.Some? <==> StraightHit(cards))
      && (r.Some? ==> AllIn(r.value, cards) && |r.value| == 5)
  {
    StraightIff(cards);
    var r := CheckStraight(cards);
    if r.Some? {
      StraightShape(cards);
      StraightMembers(cards);
      AllInIff(r.value, cards);
    }
  }

  lemma ThreeOfAKindSound(cards: seq<Card>)
    ensures var r := CheckThreeOfAKind(cards);
      && (r.Some? <==> HasTrips(cards))
      && (r.Some? ==> AllIn(r.value, cards) && (|cards| >= 5 ==> |r.value| == 5))
  {
    ThreeOfAKindIff(cards);
    var r := CheckThreeOfAKind(cards);
    if r.Some? {
      ThreeOfAKindShape(cards);
      GroupWithKickersMembers(cards, r.value[0].rank, 2);
      AllInIff(r.value, cards);
    }
  }

  lemma TwoPairSound(cards: seq<Card>)
    ensures var r := CheckTwoPair(cards);
      && (r.Some? <==> HasTwoPairs(cards))
      && (r.Some? ==> AllIn(r.value, cards))
      && (r.Some? && |cards| >= 5 && GroupsAtMost(cards, 2) ==> |r.value| == 5)
  {
    TwoPairIff(cards);
    var r := CheckTwoPair(cards);
    if r.Some? {
      TwoPairShape(cards);
      TwoPairMembers(cards);
      AllInIff(r.value, cards);
      if |cards| >= 5 && GroupsAtMost(cards, 2) {
        assert RankCount(cards, r.value[0].rank) <= 2 && RankCount(cards, r.value[2].rank) <= 2;
      }
    }
  }

  lemma OnePairSound(cards: seq<Card>)
    ensures var r := CheckOnePair(cards);
      && (r.Some? <==> HasPair(cards))
      && (r.Some? ==> AllIn(r.value, cards) && (|cards| >= 5 ==> |r.value| == 5))
  {
    OnePairIff(cards);
    var r := CheckOnePair(cards);
    if r.Some? {
      OnePairShape(cards);
      GroupWithKickersMembers(cards, r.value[0].rank, 3);
      AllInIff(r.value, cards);
    }
  }

  lemma HighCardSound(cards: seq<Card>)
    ensures var h := TopCards(cards, 5);
      AllIn(h, cards) && (|cards| >= 5 ==> |h| == 5)
  {
    AllInIff(TopCards(cards, 5), cards);
  }

  // The cascade, one step at a time: what the step that starts at category top
  // returns agrees with the reference cascade, takes its cards from the input,
  // and has five of them when there are five cards and the groups left are small
  // enough.

  ghost predicate Reports(cards: seq<Card>, k: Conditions, top: Category, h: EvaluatedHand)
  {
    && h.category == FirstFrom(k, top)
    && AllIn(h.cards, cards)
    && (|cards| >= 5 && GroupsAtMost(cards, LargestGroupLeft(top)) ==> |h.cards| == 5)
  }

  /**
   * One step of the cascade: when the check for top matches exactly when its
   * condition holds and its cards are sound, trying it before the rest keeps
   * agreeing with the reference.
   */
  lemma StepReports(cards: seq<Card>, k: Conditions, top: Category, r: Option<seq<Card>>,
                    rest: EvaluatedHand, h: EvaluatedHand)
    requires top != HighCard
    requires h == if r.Some? then EvaluatedHand(top, r.value) else rest
    requires r.Some? <==> HoldsIn(k, top)
    requires r.Some? ==> AllIn(r.value, cards)
    requires r.Some? && |cards| >= 5 && GroupsAtMost(cards, LargestGroupLeft(top)) ==> |r.value| == 5
    requires r.None? && |cards| >= 5 && GroupsAtMost(cards, LargestGroupLeft(top))
      ==> GroupsAtMost(cards, LargestGroupLeft(Below(top)))
    requires Reports(cards, k, Below(top), rest)
    ensures Reports(cards, k, top, h)
  {
  }

  lemma TryStraightFlushReports(cards: seq<Card>, k: Conditions)
    requires k == ConditionsOf(cards)
    ensures Reports(cards, k, RoyalFlush, TryStraightFlush(cards))
  {
    TryFourOfAKindReports(cards, k);
    var sf := StraightFlushCards(cards);
    var rest := TryFourOfAKind(cards);
    StraightFlushStep(cards, k, rest);
    RoyalFlushStep(cards, k, if sf.Some? then EvaluatedHand(StraightFlush, sf.value) else rest);
    TryStraightFlushSplit(cards);
  }

  lemma StraightFlushStep(cards: seq<Card>, k: Conditions, rest: EvaluatedHand)
    requires k.flushScan == FlushScanHit(cards)
    requires Reports(cards, k, FourOfAKind, rest)
    ensures var sf := StraightFlushCards(cards);
      Reports(cards, k, StraightFlush, if sf.Some? then EvaluatedHand(StraightFlush, sf.value) else rest)
  {
    assert Below(StraightFlush) == FourOfAKind;
    StraightFlushSound(cards);
    var sf := StraightFlushCards(cards);
    StepReports(cards, k, StraightFlush, sf, rest, if sf.Some? then EvaluatedHand(StraightFlush, sf.value) else rest);
  }

  lemma RoyalFlushStep(cards: seq<Card>, k: Conditions, rest: EvaluatedHand)
    requires k.flushScan == FlushScanHit(cards)
    requires Reports(cards, k, StraightFlush, rest)
    ensures var sf := StraightFlushCards(cards);
      Reports(cards, k, RoyalFlush, if sf.Some? then EvaluatedHand(RoyalFlush, sf.value) else rest)
  {
    assert Below(RoyalFlush) == StraightFlush;
    StraightFlushSound(cards);
    var sf := StraightFlushCards(cards);
    StepReports(cards, k, RoyalFlush, sf, rest, if sf.Some? then EvaluatedHand(RoyalFlush, sf.value) else rest);
  }

  /** Since the straight found in the flush cards leads with its Ace, the straight-flush branch is never taken. */
  lemma TryStraightFlushSplit(cards: seq<Card>)
    ensures var sf := StraightFlushCards(cards);
      TryStraightFlush(cards) == if sf.Some? then EvaluatedHand(RoyalFlush, sf.value) else TryFourOfAKind(cards)
  {
    if StraightFlushCards(cards).Some? {
      StraightFlushLeadsWithAce(cards);
    }
  }

  lemma TryFourOfAKindReports(cards: seq<Card>, k: Conditions)
    requires k == ConditionsOf(cards)
    ensures Reports(cards, k, FourOfAKind, TryFourOfAKind(cards))
  {
    TryFullHouseReports(cards, k);
    FourOfAKindStep(cards, k, TryFullHouse(cards));
  }

  lemma FourOfAKindStep(cards: seq<Card>, k: Conditions, rest: EvaluatedHand)
    requires k.quads == HasQuads(cards)
    requires Reports(cards, k, FullHouse, rest)
    ensures var r := CheckFourOfAKind(cards);
      Reports(cards, k, FourOfAKind, if r.Some? then EvaluatedHand(FourOfAKind, r.value) else rest)
  {
    assert Below(FourOfAKind) == FullHouse;
    FourOfAKindSound(cards);
    var r := CheckFourOfAKind(cards);
    if r.None? && |cards| >= 5 && GroupsAtMost(cards, 4) {
      GroupsWithoutQuads(cards);
    }
    StepReports(cards, k, FourOfAKind, r, rest, if r.Some? then EvaluatedHand(FourOfAKind, r.value) else rest);
  }

  lemma TryFullHouseReports(cards: seq<Card>, k: Conditions)
    requires k == ConditionsOf(cards)
    ensures Reports(cards, k, FullHouse, TryFullHouse(cards))
  {
    TryFlushReports(cards, k);
    FullHouseStep(cards, k, TryFlush(cards));
  }

  lemma FullHouseStep(cards: seq<Card>, k: Conditions, rest: EvaluatedHand)
    requires k.tripsAndPair == HasTripsAndPair(cards)
    requires Reports(cards, k, Flush, rest)
    ensures var r := CheckFullHouse(cards);
      Reports(cards, k, FullHouse, if r.Some? then EvaluatedHand(FullHouse, r.value) else rest)
  {
    assert Below(FullHouse) == Flush;
    FullHouseSound(cards);
    var r := CheckFullHouse(cards);
    StepReports(cards, k, FullHouse, r, rest, if r.Some? then EvaluatedHand(FullHouse, r.value) else rest);
  }

  lemma TryFlushReports(cards: seq<Card>, k: Conditions)
    requires k == ConditionsOf(cards)
    ensures Reports(cards, k, Flush, TryFlush(cards))
  {
    TryStraightReports(cards, k);
    FlushStep(cards, k, TryStraight(cards));
  }

  lemma FlushStep(cards: seq<Card>, k: Conditions, rest: EvaluatedHand)
    requires k.flushSuit == HasFlushSuit(cards)
    requires Reports(cards, k, Straight, rest)
    ensures var r := FlushCards(cards);
      Reports(cards, k, Flush, if r.Some? then EvaluatedHand(Flush, r.value) else rest)
  {
    assert Below(Flush) == Straight;
    FlushSound(cards);
    var r := FlushCards(cards);
    StepReports(cards, k, Flush, r, rest, if r.Some? then EvaluatedHand(Flush, r.value) else rest);
  }

  lemma TryStraightReports(cards: seq<Card>, k: Conditions)
    requires k == ConditionsOf(cards)
    ensures Reports(cards, k, Straight, TryStraight(cards))
  {
    TryThreeOfAKindReports(cards, k);
    StraightStep(cards, k, TryThreeOfAKind(cards));
  }

  lemma StraightStep(cards: seq<Card>, k: Conditions, rest: EvaluatedHand)
    requires k.straight == StraightHit(cards)
    requires Reports(cards, k, ThreeOfAKind, rest)
    ensures var r := CheckStraight(cards);
      Reports(cards, k, Straight, if r.Some? then EvaluatedHand(Straight, r.value) else rest)
  {
    assert Below(Straight) == ThreeOfAKind;
    StraightSound(cards);
    var r := CheckStraight(cards);
    StepReports(cards, k, Straight, r, rest, if r.Some? then EvaluatedHand(Straight, r.value) else rest);
  }

  lemma TryThreeOfAKindReports(cards: seq<Card>, k: Conditions)
    requires k == ConditionsOf(cards)
    ensures Reports(cards, k, ThreeOfAKind, TryThreeOfAKind(cards))
  {
    TryTwoPairReports(cards, k);
    ThreeOfAKindStep(cards, k, TryTwoPair(cards));
  }

  lemma ThreeOfAKindStep(cards: seq<Card>, k: Conditions, rest: EvaluatedHand)
    requires k.trips == HasTrips(cards)
    requires Reports(cards, k, TwoPair, rest)
    ensures var r := CheckThreeOfAKind(cards);
      Reports(cards, k, ThreeOfAKind, if r.Some? then EvaluatedHand(ThreeOfAKind, r.value) else rest)
  {
    assert Below(ThreeOfAKind) == TwoPair;
    ThreeOfAKindSound(cards);
    var r := CheckThreeOfAKind(cards);
    if r.None? && |cards| >= 5 && GroupsAtMost(cards, 3) {
      GroupsWithoutTrips(cards);
    }
    StepReports(cards, k, ThreeOfAKind, r, rest, if r.Some? then EvaluatedHand(ThreeOfAKind, r.value) else rest);
  }

  lemma TryTwoPairReports(cards: seq<Card>, k: Conditions)
    requires k == ConditionsOf(cards)
    ensures Reports(cards, k, TwoPair, TryTwoPair(cards))
  {
    TryOnePairReports(cards, k);
    TwoPairStep(cards, k, TryOnePair(cards));
  }

  lemma TwoPairStep(cards: seq<Card>, k: Conditions, rest: EvaluatedHand)
    requires k.twoPairs == HasTwoPairs(cards)
    requires Reports(cards, k, OnePair, rest)
    ensures var r := CheckTwoPair(cards);
      Reports(cards, k, TwoPair, if r.Some? then EvaluatedHand(TwoPair, r.value) else rest)
  {
    assert Below(TwoPair) == OnePair;
    TwoPairSound(cards);
    var r := CheckTwoPair(cards);
    StepReports(cards, k, TwoPair, r, rest, if r.Some? then EvaluatedHand(TwoPair, r.value) else rest);
  }

  lemma TryOnePairReports(cards: seq<Card>, k: Conditions)
    requires k == ConditionsOf(cards)
    ensures Reports(cards, k, OnePair, TryOnePair(cards))
  {
    OnePairStep(cards, k);
  }

  lemma OnePairStep(cards: seq<Card>, k: Conditions)
    requires k.pair == HasPair(cards)
    ensures var r := CheckOnePair(cards);
      Reports(cards, k, OnePair,
        if r.Some? then EvaluatedHand(OnePair, r.value) else EvaluatedHand(HighCard, TopCards(cards, 5)))
  {
    assert Below(OnePair) == HighCard;
    OnePairSound(cards);
    HighCardSound(cards);
    var last := EvaluatedHand(HighCard, TopCards(cards, 5));
    assert Reports(cards, k, HighCard, last);
    var r := CheckOnePair(cards);
    StepReports(cards, k, OnePair, r, last, if r.Some? then EvaluatedHand(OnePair, r.value) else last);
  }

  // ---------------------------------------------------------------------------
  // What findBestHand reports

  /** The whole cascade agrees with the reference, keeps to the input cards and, on distinct cards, reports five. */
  lemma BestHandReports(cards: seq<Card>)
    ensures Reports(cards, ConditionsOf(cards), RoyalFlush, FindBestHand(cards))
  {
    TryStraightFlushReports(cards, ConditionsOf(cards));
  }

  /** The category is the first one, from royal flush down, whose condition holds. */
  lemma BestHandCategory(cards: seq<Card>)
    ensures FindBestHand(cards).category == ReferenceCategory(cards)
  {
    BestHandReports(cards);
  }

  /** Every reported card is one of the input cards. */
  lemma BestHandMembers(cards: seq<Card>)
    ensures forall c :: c in FindBestHand(cards).cards ==> c in cards
  {
    BestHandReports(cards);
    AllInIff(FindBestHand(cards).cards, cards);
  }

  /** With five distinct cards or more, the hand is made of exactly five cards. */
  lemma BestHandFiveCards(cards: seq<Card>)
    requires Distinct(cards) && |cards| >= 5
    ensures |FindBestHand(cards).cards| == 5
  {
    BestHandReports(cards);
    FiveFromReports(cards, FindBestHand(cards));
  }

  lemma FiveFromReports(cards: seq<Card>, h: EvaluatedHand)
    requires Distinct(cards) && |cards| >= 5
    requires Reports(cards, ConditionsOf(cards), RoyalFlush, h)
    ensures |h.cards| == 5
  {
    GroupsOfDistinct(cards);
  }

  /** Both straight-flush categories hang on the one scan, and the first of them takes every hit. */
  lemma FirstFromTop(k: Conditions)
    ensures FirstFrom(k, RoyalFlush) == RoyalFlush <==> k.flushScan
    ensures FirstFrom(k, RoyalFlush) != StraightFlush
  {
    assert Below(RoyalFlush) == StraightFlush && Below(StraightFlush) == FourOfAKind;
    FirstFromAtMost(k, FourOfAKind);
  }

  /**
   * A straight found in the flush cards always starts with the Ace the scan put
   * there, so the result is a royal flush exactly when the flush cards hold an
   * Ace and 5 is their fourth highest distinct rank, and never a straight flush.
   */
  lemma RoyalFlushIff(cards: seq<Card>)
    ensures FindBestHand(cards).category == RoyalFlush <==> FlushScanHit(cards)
    ensures FindBestHand(cards).category != StraightFlush
  {
    BestHandReports(cards);
    FirstFromTop(ConditionsOf(cards));
  }

  /** No rank has more than four cards in a set of distinct cards. */
  lemma GroupsOfDistinct(cards: seq<Card>)
    requires Distinct(cards)
    ensures GroupsAtMost(cards, 4)
  {
    forall q ensures RankCount(cards, q) <= 4 {
      OfRankDistinct(cards, q);
      forall c | c in OfRank(cards, q) ensures c.rank == q && c.suit in {Spades, Hearts, Diamonds, Clubs} {
        assert c in cards && c.rank == q;
        assert c.suit.Spades? || c.suit.Hearts? || c.suit.Diamonds? || c.suit.Clubs?;
      }
      SameRankWithinSuits(OfRank(cards, q), q, {Spades, Hearts, Diamonds, Clubs});
    }
  }

  lemma {:induction false} OfRankDistinct(cards: seq<Card>, r: int)
    requires Distinct(cards)
    ensures Distinct(OfRank(cards, r))
  {
    if cards != [] {
      DistinctTail(cards);
      OfRankDistinct(cards[1..], r);
      var rest := OfRank(cards[1..], r);
      if cards[0].rank == r {
        assert OfRank(cards, r) == [cards[0]] + rest;
        forall i, j | 0 <= i < j < |[cards[0]] + rest|
          ensures ([cards[0]] + rest)[i] != ([cards[0]] + rest)[j]
        {
          if i == 0 {
            assert ([cards[0]] + rest)[j] == rest[j - 1];
            assert rest[j - 1] in rest;
          } else {
            assert ([cards[0]] + rest)[i] == rest[i - 1] && ([cards[0]] + rest)[j] == rest[j - 1];
          }
        }
      } else {
        assert OfRank(cards, r) == rest;
      }
    }
  }

  /** Distinct cards of one rank, whose suits lie in a set, are no more than that set. */
  lemma {:induction false} SameRankWithinSuits(g: seq<Card>, r: int, suits: set<Suit>)
    requires Distinct(g)
    requires forall c :: c in g ==> c.rank == r && c.suit in suits
    ensures |g| <= |suits|
  {
    if g != [] {
      DistinctTail(g);
      forall c | c in g[1..] ensures c.rank == r && c.suit in suits - {g[0].suit} {
        assert c in g && c != g[0];
      }
      SameRankWithinSuits(g[1..], r, suits - {g[0].suit});
    }
  }
}
