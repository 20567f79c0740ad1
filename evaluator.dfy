/**
 * The hand evaluator: a cascade of pattern checks over a list of cards (the two
 * hole cards followed by the community cards), from royal flush down to high
 * card, and the comparison of two evaluated hands.
 *
 * Two features of the evaluated program are modelled explicitly:
 *  - Sorting by rank uses a stable sort, so cards of equal rank keep their input
 *    order. SortByRank is defined as the rank buckets 14, 13, ..., 2 in turn,
 *    each holding its cards in input order, which is exactly what a stable
 *    descending sort returns.
 *  - The checks walk the rank groups with a for-in loop over an object whose
 *    keys are rank names. Such a loop visits the integer-like keys '2'..'10' in
 *    ascending order first, then 'J', 'Q', 'K', 'A' in the order they were first
 *    inserted, that is, in the order the face cards first appear in the input.
 *    ForInRanks gives that order.
 */
module HandEvaluator {
  import opened Cards

  datatype Option<T> = None | Some(value: T)

  datatype Category =
    | HighCard | OnePair | TwoPair | ThreeOfAKind | Straight
    | Flush | FullHouse | FourOfAKind | StraightFlush | RoyalFlush

  /** The numeric hand rank: high card 1 up to royal flush 10. */
  function CategoryValue(c: Category): int
  {
    match c
    case HighCard => 1
    case OnePair => 2
    case TwoPair => 3
    case ThreeOfAKind => 4
    case Straight => 5
    case Flush => 6
    case FullHouse => 7
    case FourOfAKind => 8
    case StraightFlush => 9
    case RoyalFlush => 10
  }

  /** The next category down. */
  function Below(c: Category): (b: Category)
    requires c != HighCard
    ensures CategoryValue(b) == CategoryValue(c) - 1
  {
    match c
    case OnePair => HighCard
    case TwoPair => OnePair
    case ThreeOfAKind => TwoPair
    case Straight => ThreeOfAKind
    case Flush => Straight
    case FullHouse => Flush
    case FourOfAKind => FullHouse
    case StraightFlush => FourOfAKind
    case RoyalFlush => StraightFlush
  }

  /** An evaluated hand: its category and the cards that break ties, most significant first. */
  datatype EvaluatedHand = EvaluatedHand(category: Category, cards: seq<Card>)

  // ---------------------------------------------------------------------------
  // Grouping and filtering by rank

  /** The cards of rank r in input order: one group of groupCardsByRank, or a filter on rank. */
  function OfRank(cards: seq<Card>, r: int): (g: seq<Card>)
    ensures |g| <= |cards|
    ensures forall c {:trigger c in g} :: c in g <==> c in cards && c.rank == r
  {
    if cards == [] then []
    else (if cards[0].rank == r then [cards[0]] else []) + OfRank(cards[1..], r)
  }

  /** The cards whose rank is not r, in input order (cards.filter(c => c.rank !== r)). */
  function NotOfRank(cards: seq<Card>, r: int): (g: seq<Card>)
    ensures |g| == |cards| - |OfRank(cards, r)|
    ensures forall c {:trigger c in g} :: c in g <==> c in cards && c.rank != r
  {
    if cards == [] then []
    else (if cards[0].rank != r then [cards[0]] else []) + NotOfRank(cards[1..], r)
  }

  /** The cards whose rank is neither a nor b, in input order. */
  function NotOfRanks(cards: seq<Card>, a: int, b: int): (g: seq<Card>)
    ensures a != b ==> |g| == |cards| - |OfRank(cards, a)| - |OfRank(cards, b)|
    ensures forall c {:trigger c in g} :: c in g <==> c in cards && c.rank != a && c.rank != b
  {
    if cards == [] then []
    else (if cards[0].rank != a && cards[0].rank != b then [cards[0]] else []) + NotOfRanks(cards[1..], a, b)
  }

  predicate HasRank(cards: seq<Card>, r: int)
  {
    |OfRank(cards, r)| > 0
  }

  // ---------------------------------------------------------------------------
  // Sorting by rank, highest first (sortCardsByRank)

  /** The buckets r, r-1, ..., 2, each holding the cards of that rank in input order. */
  function SortFrom(cards: seq<Card>, r: int): (s: seq<Card>)
    ensures forall c {:trigger c in s} :: c in s ==> c in cards && c.rank <= r
    ensures forall i, j :: 0 <= i < j < |s| ==> s[i].rank >= s[j].rank
    decreases r
  {
    if r < 2 then []
    else
      var top, rest := OfRank(cards, r), SortFrom(cards, r - 1);
      assert forall i :: 0 <= i < |top| ==> top[i] in top;
      assert forall j :: 0 <= j < |rest| ==> rest[j] in rest;
      top + rest
  }

  /** The cards of rank at most r, in input order. */
  function AtMost(cards: seq<Card>, r: int): seq<Card>
  {
    if cards == [] then []
    else (if cards[0].rank <= r then [cards[0]] else []) + AtMost(cards[1..], r)
  }

  lemma {:induction false} AtMostSplit(cards: seq<Card>, r: int)
    ensures multiset(AtMost(cards, r)) == multiset(OfRank(cards, r)) + multiset(AtMost(cards, r - 1))
  {
    if cards != [] {
      AtMostSplit(cards[1..], r);
    }
  }

  lemma {:induction false} AtMostBelowTwo(cards: seq<Card>, r: int)
    requires r < 2
    ensures AtMost(cards, r) == []
  {
    if cards != [] {
      AtMostBelowTwo(cards[1..], r);
    }
  }

  lemma {:induction false} AtMostAll(cards: seq<Card>)
    ensures AtMost(cards, 14) == cards
  {
    if cards != [] {
      AtMostAll(cards[1..]);
      assert cards == [cards[0]] + cards[1..];
    }
  }

  lemma {:induction false} SortFromPermutation(cards: seq<Card>, r: int)
    ensures multiset(SortFrom(cards, r)) == multiset(AtMost(cards, r))
    decreases r
  {
    if r < 2 {
      AtMostBelowTwo(cards, r);
    } else {
      SortFromPermutation(cards, r - 1);
      AtMostSplit(cards, r);
    }
  }

  /** sortCardsByRank: a stable sort by rank value, highest first. */
  function SortByRank(cards: seq<Card>): (s: seq<Card>)
    ensures |s| == |cards|
    ensures forall i, j :: 0 <= i < j < |s| ==> s[i].rank >= s[j].rank
  {
    SortByRankIsPermutation(cards);
    SortFrom(cards, 14)
  }

  lemma SortByRankIsPermutation(cards: seq<Card>)
    ensures multiset(SortFrom(cards, 14)) == multiset(cards)
    ensures |SortFrom(cards, 14)| == |cards|
  {
    SortFromPermutation(cards, 14);
    AtMostAll(cards);
    assert |SortFrom(cards, 14)| == |multiset(SortFrom(cards, 14))|;
  }

  /** The sort neither loses nor adds a card. */
  lemma SortByRankPermutation(cards: seq<Card>)
    ensures multiset(SortByRank(cards)) == multiset(cards)
  {
    SortByRankIsPermutation(cards);
  }

  lemma {:induction false} OfRankConcat(a: seq<Card>, b: seq<Card>, r: int)
    ensures OfRank(a + b, r) == OfRank(a, r) + OfRank(b, r)
  {
    if a != [] {
      assert (a + b)[0] == a[0];
      assert (a + b)[1..] == a[1..] + b;
      OfRankConcat(a[1..], b, r);
      var head := if a[0].rank == r then [a[0]] else [];
      calc {
        OfRank(a + b, r);
        head + OfRank(a[1..] + b, r);
        head + (OfRank(a[1..], r) + OfRank(b, r));
        (head + OfRank(a[1..], r)) + OfRank(b, r);
      }
    } else {
      assert a + b == b;
    }
  }

  lemma {:induction false} OfRankOfOtherRank(cards: seq<Card>, r: int, q: int)
    requires forall c :: c in cards ==> c.rank != q
    ensures OfRank(cards, q) == []
  {
    if cards != [] {
      assert cards[0] in cards;
      assert forall c :: c in cards[1..] ==> c in cards;
      OfRankOfOtherRank(cards[1..], r, q);
    }
  }

  lemma {:induction false} OfRankTwice(cards: seq<Card>, r: int)
    ensures OfRank(OfRank(cards, r), r) == OfRank(cards, r)
  {
    if cards != [] {
      var head := if cards[0].rank == r then [cards[0]] else [];
      OfRankConcat(head, OfRank(cards[1..], r), r);
      OfRankTwice(cards[1..], r);
    }
  }

  lemma {:induction false} SortFromStable(cards: seq<Card>, r: int, q: int)
    ensures OfRank(SortFrom(cards, r), q) == if q <= r then OfRank(cards, q) else []
    decreases r
  {
    if r < 2 {
      if q <= r {
        OfRankOfOtherRank(cards, r, q);
      }
    } else {
      OfRankConcat(OfRank(cards, r), SortFrom(cards, r - 1), q);
      SortFromStable(cards, r - 1, q);
      if q == r {
        OfRankTwice(cards, r);
        OfRankOfOtherRank(SortFrom(cards, r - 1), r, q);
      } else {
        OfRankOfOtherRank(OfRank(cards, r), r, q);
      }
    }
  }

  /** The sort is stable: the cards of each rank come out in the order they went in. */
  lemma SortByRankIsStable(cards: seq<Card>, r: int)
    ensures OfRank(SortByRank(cards), r) == OfRank(cards, r)
  {
    SortFromStable(cards, 14, r);
    if r > 14 {
      OfRankOfOtherRank(cards, 14, r);
    }
  }

  lemma SortByRankMembers(cards: seq<Card>)
    ensures forall c :: c in SortByRank(cards) <==> c in cards
  {
    var s := SortByRank(cards);
    SortByRankPermutation(cards);
    forall c ensures c in s <==> c in cards {
      assert c in s <==> c in multiset(s);
      assert c in cards <==> c in multiset(cards);
    }
  }

  /** getHighCards: the first n cards of the sorted list (all of them if there are fewer). */
  function TopCards(cards: seq<Card>, n: nat): (t: seq<Card>)
    ensures |t| == if n <= |cards| then n else |cards|
    ensures forall c :: c in t ==> c in cards
    ensures forall i, j :: 0 <= i < j < |t| ==> t[i].rank >= t[j].rank
  {
    var s := SortByRank(cards);
    SortByRankMembers(cards);
    s[..if n <= |s| then n else |s|]
  }

  /** No card of the input outranks the first card getHighCards returns. */
  lemma TopCardsHeadIsMax(cards: seq<Card>, n: nat)
    requires |TopCards(cards, n)| > 0
    ensures forall c :: c in cards ==> c.rank <= TopCards(cards, n)[0].rank
  {
    var s := SortByRank(cards);
    SortByRankMembers(cards);
    forall c | c in cards ensures c.rank <= s[0].rank {
      var i :| 0 <= i < |s| && s[i] == c;
    }
  }

  /**
   * getHighCards takes the highest cards: what it returns is part of the input
   * (all of it when there are fewer than n), and every card it leaves out ranks
   * no higher than the last card it takes.
   */
  lemma TopCardsAreHighest(cards: seq<Card>, n: nat)
    ensures multiset(TopCards(cards, n)) <= multiset(cards)
    ensures |TopCards(cards, n)| < n ==> multiset(TopCards(cards, n)) == multiset(cards)
    ensures var t := TopCards(cards, n);
      |t| > 0 ==> forall c :: c in multiset(cards) - multiset(t) ==> c.rank <= t[|t| - 1].rank
  {
    var t, s := TopCards(cards, n), SortByRank(cards);
    assert t == s[..if n <= |s| then n else |s|];
    SortByRankPermutation(cards);
    SortedPrefixIsHighest(cards, s, t, n);
  }

  lemma SortedPrefixIsHighest(cards: seq<Card>, s: seq<Card>, t: seq<Card>, n: nat)
    requires multiset(s) == multiset(cards)
    requires t == s[..if n <= |s| then n else |s|]
    requires forall i, j :: 0 <= i < j < |s| ==> s[i].rank >= s[j].rank
    ensures multiset(t) <= multiset(cards)
    ensures |t| < n ==> multiset(t) == multiset(cards)
    ensures |t| > 0 ==> forall c :: c in multiset(cards) - multiset(t) ==> c.rank <= t[|t| - 1].rank
  {
    PrefixLeavesRest(s, t);
    if |t| > 0 {
      RestRanksBelow(s, t);
    }
  }

  /** What a prefix leaves out of a sequence is the rest of the sequence. */
  lemma PrefixLeavesRest(s: seq<Card>, t: seq<Card>)
    requires |t| <= |s| && t == s[..|t|]
    ensures multiset(t) <= multiset(s)
    ensures multiset(s) - multiset(t) == multiset(s[|t|..])
  {
    assert s == t + s[|t|..];
  }

  /** In a sequence sorted by rank, nothing after a prefix outranks its last card. */
  lemma RestRanksBelow(s: seq<Card>, t: seq<Card>)
    requires 0 < |t| <= |s| && t == s[..|t|]
    requires forall i, j :: 0 <= i < j < |s| ==> s[i].rank >= s[j].rank
    ensures forall c :: c in multiset(s[|t|..]) ==> c.rank <= t[|t| - 1].rank
  {
    var m := |t|;
    forall c | c in multiset(s[m..]) ensures c.rank <= t[m - 1].rank {
      assert c in s[m..];
      var k :| 0 <= k < |s[m..]| && s[m..][k] == c;
      assert s[m + k] == c && t[m - 1] == s[m - 1];
    }
  }

  // ---------------------------------------------------------------------------
  // The for-in order over the rank groups (groupCardsByRank)

  /** The integer-like keys '2'..'10' that occur, visited first and in ascending order. */
  function LowRanks(cards: seq<Card>, r: int): (ks: seq<int>)
    requires 2 <= r <= 11
    ensures forall k :: k in ks <==> r <= k <= 10 && HasRank(cards, k)
    decreases 11 - r
  {
    if r == 11 then [] else (if HasRank(cards, r) then [r] else []) + LowRanks(cards, r + 1)
  }

  /** The face keys 'J', 'Q', 'K', 'A' not yet in seen, in the order they first occur in the input. */
  function FacesInOrderSeen(cards: seq<Card>, seen: set<int>): (ks: seq<int>)
    ensures forall k :: k in ks <==> k !in seen && 11 <= k && HasRank(cards, k)
  {
    if cards == [] then []
    else if cards[0].rank >= 11 && cards[0].rank !in seen then
      [cards[0].rank as int] + FacesInOrderSeen(cards[1..], seen + {cards[0].rank as int})
    else FacesInOrderSeen(cards[1..], seen)
  }

  /** The order in which for (let rank in rankGroups) visits the rank groups. */
  function ForInRanks(cards: seq<Card>): seq<int>
  {
    LowRanks(cards, 2) + FacesInOrderSeen(cards, {})
  }

  /** The loop visits exactly the ranks that occur in the hand. */
  lemma ForInRanksMembers(cards: seq<Card>)
    ensures forall k :: k in ForInRanks(cards) <==> HasRank(cards, k)
  {
    forall k ensures k in ForInRanks(cards) <==> HasRank(cards, k) {
      if HasRank(cards, k) {
        var c := OfRank(cards, k)[0];
        assert c in OfRank(cards, k);
      }
    }
  }

  /** A card of rank a comes before every card of rank b in the hand. */
  predicate SeenBefore(cards: seq<Card>, a: int, b: int)
  {
    exists p :: 0 <= p < |cards| && cards[p].rank == a && forall q :: 0 <= q <= p ==> cards[q].rank != b
  }

  lemma SeenBeforeShift(cards: seq<Card>, a: int, b: int)
    requires |cards| > 0 && cards[0].rank != b && SeenBefore(cards[1..], a, b)
    ensures SeenBefore(cards, a, b)
  {
    var p :| 0 <= p < |cards[1..]| && cards[1..][p].rank == a && forall q :: 0 <= q <= p ==> cards[1..][q].rank != b;
    assert cards[p + 1].rank == a;
    forall q | 0 <= q <= p + 1 ensures cards[q].rank != b {
      if q > 0 {
        assert cards[q] == cards[1..][q - 1];
      }
    }
  }

  lemma {:induction false} LowRanksAscending(cards: seq<Card>, r: int)
    requires 2 <= r <= 11
    ensures forall i, j :: 0 <= i < j < |LowRanks(cards, r)| ==> LowRanks(cards, r)[i] < LowRanks(cards, r)[j]
    decreases 11 - r
  {
    if r < 11 {
      LowRanksAscending(cards, r + 1);
      var head: seq<int> := if HasRank(cards, r) then [r] else [];
      var rest := LowRanks(cards, r + 1);
      assert LowRanks(cards, r) == head + rest;
      ConsAscending(head, rest, r);
    }
  }

  /** Putting r (or nothing) in front of strictly increasing keys above r keeps them strictly increasing. */
  lemma ConsAscending(head: seq<int>, rest: seq<int>, r: int)
    requires head == [] || head == [r]
    requires forall k :: k in rest ==> k > r
    requires forall i, j :: 0 <= i < j < |rest| ==> rest[i] < rest[j]
    ensures forall i, j :: 0 <= i < j < |head + rest| ==> (head + rest)[i] < (head + rest)[j]
  {
    var ks := head + rest;
    forall i, j | 0 <= i < j < |ks| ensures ks[i] < ks[j] {
      var h := |head|;
      assert ks[j] == rest[j - h] && ks[j] in rest;
      if i >= h {
        assert ks[i] == rest[i - h];
      }
    }
  }

  /** The face keys come in the order their ranks first show up in the hand. */
  lemma {:induction false} FacesInOrderSeenOrder(cards: seq<Card>, seen: set<int>)
    ensures forall i, j :: 0 <= i < j < |FacesInOrderSeen(cards, seen)| ==>
      SeenBefore(cards, FacesInOrderSeen(cards, seen)[i], FacesInOrderSeen(cards, seen)[j])
  {
    if cards != [] {
      var c := cards[0];
      var isNew := c.rank >= 11 && c.rank !in seen;
      var seen' := if isNew then seen + {c.rank as int} else seen;
      FacesInOrderSeenOrder(cards[1..], seen');
      var head: seq<int> := if isNew then [c.rank as int] else [];
      var rest := FacesInOrderSeen(cards[1..], seen');
      assert FacesInOrderSeen(cards, seen) == head + rest;
      SeenBeforeCons(cards, head, rest);
    }
  }

  /**
   * Putting the first card's rank (or nothing) in front of keys ordered by the
   * rest of the hand, none of which is that rank, keeps them ordered.
   */
  lemma SeenBeforeCons(cards: seq<Card>, head: seq<int>, rest: seq<int>)
    requires |cards| > 0 && (head == [] || head == [cards[0].rank as int])
    requires forall k :: k in rest ==> k != cards[0].rank as int
    requires forall i, j :: 0 <= i < j < |rest| ==> SeenBefore(cards[1..], rest[i], rest[j])
    ensures forall i, j :: 0 <= i < j < |head + rest| ==> SeenBefore(cards, (head + rest)[i], (head + rest)[j])
  {
    var ks := head + rest;
    forall i, j | 0 <= i < j < |ks| ensures SeenBefore(cards, ks[i], ks[j]) {
      var h := |head|;
      assert ks[j] == rest[j - h] && ks[j] in rest;
      if i < h {
        assert cards[0].rank == ks[i] && forall q :: 0 <= q <= 0 ==> cards[q].rank != ks[j];
      } else {
        assert ks[i] == rest[i - h];
        assert SeenBefore(cards[1..], rest[i - h], rest[j - h]);
        SeenBeforeShift(cards, ks[i], ks[j]);
      }
    }
  }

  /**
   * The for-in order: the integer-like keys first, in ascending order; then the
   * face keys, each before the next in the order the faces first show up; no
   * key twice.
   */
  lemma ForInRanksOrder(cards: seq<Card>)
    ensures var ks := ForInRanks(cards);
      && (forall i, j :: 0 <= i < j < |ks| && ks[j] <= 10 ==> ks[i] < ks[j])
      && (forall i, j :: 0 <= i < j < |ks| && ks[i] >= 11 ==> SeenBefore(cards, ks[i], ks[j]))
      && (forall i, j :: 0 <= i < j < |ks| ==> ks[i] != ks[j])
  {
    var low, faces := LowRanks(cards, 2), FacesInOrderSeen(cards, {});
    LowRanksAscending(cards, 2);
    FacesInOrderSeenOrder(cards, {});
    KeysInOrder(cards, low, faces);
  }

  lemma KeysInOrder(cards: seq<Card>, low: seq<int>, faces: seq<int>)
    requires forall k :: k in low ==> k <= 10
    requires forall k :: k in faces ==> k >= 11
    requires forall i, j :: 0 <= i < j < |low| ==> low[i] < low[j]
    requires forall i, j :: 0 <= i < j < |faces| ==> SeenBefore(cards, faces[i], faces[j])
    ensures var ks := low + faces;
      && (forall i, j :: 0 <= i < j < |ks| && ks[j] <= 10 ==> ks[i] < ks[j])
      && (forall i, j :: 0 <= i < j < |ks| && ks[i] >= 11 ==> SeenBefore(cards, ks[i], ks[j]))
      && (forall i, j :: 0 <= i < j < |ks| ==> ks[i] != ks[j])
  {
    var ks := low + faces;
    forall k | 0 <= k < |ks| ensures (k < |low| ==> ks[k] == low[k] <= 10) && (k >= |low| ==> ks[k] == faces[k - |low|] >= 11) {
      if k < |low| { assert low[k] in low; } else { assert faces[k - |low|] in faces; }
    }
    forall i, j | 0 <= i < j < |ks| && ks[i] >= 11 ensures SeenBefore(cards, ks[i], ks[j]) {
      assert SeenBefore(cards, faces[i - |low|], faces[j - |low|]);
    }
    forall i, j | 0 <= i < j < |ks| ensures ks[i] != ks[j] {
      if ks[i] >= 11 {
        SeenBeforeDistinct(cards, ks[i], ks[j]);
      }
    }
  }

  lemma SeenBeforeDistinct(cards: seq<Card>, a: int, b: int)
    requires SeenBefore(cards, a, b)
    ensures a != b
  {
    var p :| 0 <= p < |cards| && cards[p].rank == a && forall q :: 0 <= q <= p ==> cards[q].rank != b;
    assert cards[p].rank != b;
  }

  /** No key before the position of key k has a group of the wanted size, skip aside. */
  predicate NoneBefore(keys: seq<int>, cards: seq<Card>, want: GroupSize, skip: int, k: int)
  {
    forall i, j :: 0 <= i < j < |keys| && keys[j] == k ==> keys[i] == skip || !Fits(|OfRank(cards, keys[i])|, want)
  }

  /** The size a rank group must have: exactly n cards (=== n) or at least n (>= n). */
  datatype GroupSize = Exactly(n: nat) | AtLeast(n: nat)

  predicate Fits(size: nat, want: GroupSize)
  {
    match want
    case Exactly(n) => size == n
    case AtLeast(n) => size >= n
  }

  /**
   * The position in keys of the first rank group of the wanted size whose rank is
   * not skip (skip is 0, which is no rank, when nothing is to be skipped).
   */
  function FindGroup(keys: seq<int>, cards: seq<Card>, want: GroupSize, skip: int): (o: Option<nat>)
    ensures o.Some? ==>
      o.value < |keys| && keys[o.value] != skip && Fits(|OfRank(cards, keys[o.value])|, want)
    ensures o.Some? ==> forall j :: 0 <= j < o.value ==>
      keys[j] == skip || !Fits(|OfRank(cards, keys[j])|, want)
    ensures o.None? ==> forall j :: 0 <= j < |keys| ==>
      keys[j] == skip || !Fits(|OfRank(cards, keys[j])|, want)
  {
    if keys == [] then None
    else if keys[0] != skip && Fits(|OfRank(cards, keys[0])|, want) then Some(0)
    else
      match FindGroup(keys[1..], cards, want, skip)
      case None => None
      case Some(i) => Some(i + 1)
  }

  /** The rank of the first group, in for-in order, of the wanted size whose rank is not skip. */
  function FirstGroupRank(cards: seq<Card>, want: GroupSize, skip: int): (o: Option<int>)
    ensures o.Some? ==>
      HasRank(cards, o.value) && o.value != skip && Fits(|OfRank(cards, o.value)|, want)
    ensures o.Some? ==> NoneBefore(ForInRanks(cards), cards, want, skip, o.value)
    ensures o.None? ==> forall k :: HasRank(cards, k) && k != skip ==> !Fits(|OfRank(cards, k)|, want)
  {
    var keys := ForInRanks(cards);
    ForInRanksMembers(cards);
    match FindGroup(keys, cards, want, skip)
    case None =>
      assert forall k :: k in keys ==> exists j :: 0 <= j < |keys| && keys[j] == k;
      None
    case Some(i) =>
      ForInRanksOrder(cards);
      assert keys[i] in keys;
      assert forall j :: 0 <= j < |keys| && keys[j] == keys[i] ==> j == i;
      Some(keys[i])
  }

  // ---------------------------------------------------------------------------
  // Rank patterns

  /** The group of rank q followed by the n highest cards of other ranks (the kickers). */
  function GroupWithKickers(cards: seq<Card>, q: int, n: nat): seq<Card>
  {
    OfRank(cards, q) + TopCards(NotOfRank(cards, q), n)
  }

  /** checkFourOfAKind: the first group of exactly four, then the highest other card. */
  function CheckFourOfAKind(cards: seq<Card>): Option<seq<Card>>
  {
    match FirstGroupRank(cards, Exactly(4), 0)
    case None => None
    case Some(q) => Some(GroupWithKickers(cards, q, 1))
  }

  /**
   * checkFullHouse: the first group of at least three, then the first group of at
   * least two of another rank; three cards of the one and two of the other.
   */
  function CheckFullHouse(cards: seq<Card>): Option<seq<Card>>
  {
    match FirstGroupRank(cards, AtLeast(3), 0)
    case None => None
    case Some(t) =>
      match FirstGroupRank(cards, AtLeast(2), t)
      case None => None
      case Some(p) => Some(OfRank(cards, t)[..3] + OfRank(cards, p)[..2])
  }

  /** checkThreeOfAKind: the first group of exactly three, then the two highest other cards. */
  function CheckThreeOfAKind(cards: seq<Card>): Option<seq<Card>>
  {
    match FirstGroupRank(cards, Exactly(3), 0)
    case None => None
    case Some(q) => Some(GroupWithKickers(cards, q, 2))
  }

  /**
   * The ranks r, r-1, ..., 2 that have at least two cards. The pairs of checkTwoPair
   * are sorted by rank, highest first, and no two groups share a rank, so the
   * for-in order in which they were collected does not survive the sort.
   */
  function PairRanks(cards: seq<Card>, r: int): seq<int>
    decreases r
  {
    if r < 2 then []
    else (if |OfRank(cards, r)| >= 2 then [r] else []) + PairRanks(cards, r - 1)
  }

  /** The pair ranks are the ranks with two cards or more, strictly decreasing. */
  lemma {:induction false} PairRanksSpec(cards: seq<Card>, r: int)
    ensures forall k :: k in PairRanks(cards, r) <==> 2 <= k <= r && |OfRank(cards, k)| >= 2
    ensures forall i, j :: 0 <= i < j < |PairRanks(cards, r)| ==> PairRanks(cards, r)[i] > PairRanks(cards, r)[j]
    decreases r
  {
    if r >= 2 {
      PairRanksSpec(cards, r - 1);
      var rest := PairRanks(cards, r - 1);
      assert forall j :: 0 <= j < |rest| ==> rest[j] in rest;
    }
  }

  /** checkTwoPair: two cards of each of the two highest pairs, then the highest card of neither rank. */
  function CheckTwoPair(cards: seq<Card>): Option<seq<Card>>
  {
    var ps := PairRanks(cards, 14);
    PairRanksSpec(cards, 14);
    assert |ps| >= 2 ==> ps[0] in ps && ps[1] in ps;
    if |ps| < 2 then None
    else
      Some(OfRank(cards, ps[0])[..2] + OfRank(cards, ps[1])[..2]
        + TopCards(NotOfRanks(cards, ps[0], ps[1]), 1))
  }

  /** checkOnePair: the first group of exactly two, then the three highest other cards. */
  function CheckOnePair(cards: seq<Card>): Option<seq<Card>>
  {
    match FirstGroupRank(cards, Exactly(2), 0)
    case None => None
    case Some(q) => Some(GroupWithKickers(cards, q, 3))
  }

  // ---------------------------------------------------------------------------
  // Flush

  /** The cards of suit s in input order: one group of the suit dictionary. */
  function OfSuit(cards: seq<Card>, s: Suit): (g: seq<Card>)
    ensures forall c {:trigger c in g} :: c in g <==> c in cards && c.suit == s
  {
    if cards == [] then []
    else (if cards[0].suit == s then [cards[0]] else []) + OfSuit(cards[1..], s)
  }

  /** The suit keys not yet in seen, in the order they first occur (the suit keys are not integer-like). */
  function SuitsInOrderSeen(cards: seq<Card>, seen: set<Suit>): (ks: seq<Suit>)
    ensures forall s :: s in ks <==> s !in seen && |OfSuit(cards, s)| > 0
  {
    if cards == [] then []
    else if cards[0].suit !in seen then
      [cards[0].suit] + SuitsInOrderSeen(cards[1..], seen + {cards[0].suit})
    else SuitsInOrderSeen(cards[1..], seen)
  }

  /** The first suit of keys with at least five cards. */
  function FindFlushSuit(keys: seq<Suit>, cards: seq<Card>): (o: Option<Suit>)
    ensures o.Some? ==> o.value in keys && |OfSuit(cards, o.value)| >= 5
    ensures o.None? ==> forall s :: s in keys ==> |OfSuit(cards, s)| < 5
  {
    if keys == [] then None
    else if |OfSuit(cards, keys[0])| >= 5 then Some(keys[0])
    else FindFlushSuit(keys[1..], cards)
  }

  /** checkFlush: all the cards of the first suit, in for-in order, with five or more, sorted by rank. */
  function CheckFlush(cards: seq<Card>): Option<seq<Card>>
  {
    match FindFlushSuit(SuitsInOrderSeen(cards, {}), cards)
    case None => None
    case Some(s) => Some(SortByRank(OfSuit(cards, s)))
  }

  // ---------------------------------------------------------------------------
  // Straight

  /** The distinct rank values r, r-1, ..., 2 of the cards, highest first. */
  function DistinctRanks(cards: seq<Card>, r: int): seq<int>
    decreases r
  {
    if r < 2 then []
    else (if HasRank(cards, r) then [r] else []) + DistinctRanks(cards, r - 1)
  }

  /** The distinct ranks are the ranks the cards hold, strictly decreasing. */
  lemma {:induction false} DistinctRanksSpec(cards: seq<Card>, r: int)
    ensures forall k :: k in DistinctRanks(cards, r) <==> 2 <= k <= r && HasRank(cards, k)
    ensures forall i, j :: 0 <= i < j < |DistinctRanks(cards, r)| ==> DistinctRanks(cards, r)[i] > DistinctRanks(cards, r)[j]
    decreases r
  {
    if r >= 2 {
      DistinctRanksSpec(cards, r - 1);
      var head: seq<int> := if HasRank(cards, r) then [r] else [];
      var rest := DistinctRanks(cards, r - 1);
      assert DistinctRanks(cards, r) == head + rest;
      ConsDescending(head, rest, r);
    }
  }

  /** Putting r (or nothing) in front of strictly decreasing keys below r keeps them strictly decreasing. */
  lemma ConsDescending(head: seq<int>, rest: seq<int>, r: int)
    requires head == [] || head == [r]
    requires forall k :: k in rest ==> k < r
    requires forall i, j :: 0 <= i < j < |rest| ==> rest[i] > rest[j]
    ensures forall i, j :: 0 <= i < j < |head + rest| ==> (head + rest)[i] > (head + rest)[j]
  {
    var ks := head + rest;
    forall i, j | 0 <= i < j < |ks| ensures ks[i] > ks[j] {
      var h := |head|;
      assert ks[j] == rest[j - h] && ks[j] in rest;
      if i >= h {
        assert ks[i] == rest[i - h];
      }
    }
  }

  /** With an Ace among the ranks, the value 1 is put in front of the list for the low straight. */
  function AceLow(d: seq<int>): seq<int>
  {
    if 14 in d then [1] + d else d
  }

  /** The first window u[i..i+5], from position i on, whose last value is four more than its first. */
  function FindRun(u: seq<int>, i: nat): (o: Option<nat>)
    ensures o.Some? ==> i <= o.value && o.value + 5 <= |u| && u[o.value + 4] - u[o.value] == 4
    ensures o.Some? ==> forall j :: i <= j < o.value ==> u[j + 4] - u[j] != 4
    ensures o.None? ==> forall j :: i <= j && j + 5 <= |u| ==> u[j + 4] - u[j] != 4
    decreases |u| - i
  {
    if i + 5 > |u| then None
    else if u[i + 4] - u[i] == 4 then Some(i)
    else FindRun(u, i + 1)
  }

  /** The rank looked up for a value of the window: 1 stands for the Ace. */
  function RankForValue(v: int): int
  {
    if v == 1 then 14 else v
  }

  /** sortedCards.find(c => c.rank === r): the first card of rank r. */
  function FirstOfRank(sorted: seq<Card>, r: int): (c: Card)
    requires HasRank(sorted, r)
    ensures c in sorted && c.rank == r
    ensures exists i :: 0 <= i < |sorted| && sorted[i] == c && forall j :: 0 <= j < i ==> sorted[j].rank != r
  {
    assert OfRank(sorted, r)[0] in OfRank(sorted, r);
    OfRankHeadIsFirst(sorted, r);
    OfRank(sorted, r)[0]
  }

  /** The first card of a rank group is the first card of that rank in the list. */
  lemma {:induction false} OfRankHeadIsFirst(cards: seq<Card>, r: int)
    requires HasRank(cards, r)
    ensures exists i :: 0 <= i < |cards| && cards[i] == OfRank(cards, r)[0] && forall j :: 0 <= j < i ==> cards[j].rank != r
  {
    if cards[0].rank == r {
      assert cards[0] == OfRank(cards, r)[0];
    } else {
      assert OfRank(cards, r) == OfRank(cards[1..], r);
      OfRankHeadIsFirst(cards[1..], r);
      var i :| 0 <= i < |cards[1..]| && cards[1..][i] == OfRank(cards[1..], r)[0]
               && forall j :: 0 <= j < i ==> cards[1..][j].rank != r;
      assert cards[i + 1] == OfRank(cards, r)[0];
      forall j | 0 <= j < i + 1 ensures cards[j].rank != r {
        if j > 0 {
          assert cards[j] == cards[1..][j - 1];
        }
      }
    }
  }

  /** For each value u[i], ..., u[j-1] of the window, the first card of the sorted list with that rank. */
  function StraightCards(sorted: seq<Card>, u: seq<int>, i: nat, j: nat): (cs: seq<Card>)
    requires i <= j <= |u|
    requires forall v :: v in u ==> HasRank(sorted, RankForValue(v))
    ensures |cs| == j - i
    ensures forall k :: 0 <= k < |cs| ==> cs[k] == FirstOfRank(sorted, RankForValue(u[i + k]))
    decreases j - i
  {
    if i == j then []
    else [FirstOfRank(sorted, RankForValue(u[i]))] + StraightCards(sorted, u, i + 1, j)
  }

  /** Every value of the scanned list stands for a rank the cards hold. */
  lemma AceLowRanksOccur(sorted: seq<Card>, d: seq<int>)
    requires forall k :: k in d <==> 2 <= k <= 14 && HasRank(sorted, k)
    ensures forall v :: v in AceLow(d) ==> HasRank(sorted, RankForValue(v))
  {
  }

  /** checkStraight: scans the distinct ranks, highest first, for a window from v to v + 4. */
  function CheckStraight(cards: seq<Card>): Option<seq<Card>>
  {
    var sorted := SortByRank(cards);
    var u := AceLow(DistinctRanks(sorted, 14));
    match FindRun(u, 0)
    case None => None
    case Some(i) =>
      DistinctRanksSpec(sorted, 14);
      AceLowRanksOccur(sorted, DistinctRanks(sorted, 14));
      Some(StraightCards(sorted, u, i, i + 5))
  }

  // ---------------------------------------------------------------------------
  // The cascade

  /** The straight scan run over the flush cards, when there is a flush (checkStraightFlush). */
  function StraightFlushCards(cards: seq<Card>): Option<seq<Card>>
  {
    var flush := CheckFlush(cards);
    if flush.Some? then CheckStraight(flush.value) else None
  }

  /** The flush reported as a hand: its first five cards (flushCards.slice(0, 5)). */
  function FlushCards(cards: seq<Card>): Option<seq<Card>>
  {
    var f := CheckFlush(cards);
    if f.Some? then Some(f.value[..if |f.value| < 5 then |f.value| else 5]) else None
  }

  // findBestHand runs its checks one after the other, from royal flush down, and
  // returns as soon as one of them matches; the five highest cards are the fallback.
  // Each function below is one step of that chain and hands over to the next.

  /** findBestHand: the whole cascade. */
  function FindBestHand(cards: seq<Card>): EvaluatedHand
  {
    TryStraightFlush(cards)
  }

  /** A straight in the flush cards: a royal flush when its first card is an Ace, else a straight flush. */
  function TryStraightFlush(cards: seq<Card>): EvaluatedHand
  {
    var sf := StraightFlushCards(cards);
    if sf.Some? && |sf.value| > 0 && sf.value[0].rank == 14 then EvaluatedHand(RoyalFlush, sf.value)
    else if sf.Some? then EvaluatedHand(StraightFlush, sf.value)
    else TryFourOfAKind(cards)
  }

  function TryFourOfAKind(cards: seq<Card>): EvaluatedHand
  {
    var r := CheckFourOfAKind(cards);
    if r.Some? then EvaluatedHand(FourOfAKind, r.value) else TryFullHouse(cards)
  }

  function TryFullHouse(cards: seq<Card>): EvaluatedHand
  {
    var r := CheckFullHouse(cards);
    if r.Some? then EvaluatedHand(FullHouse, r.value) else TryFlush(cards)
  }

  function TryFlush(cards: seq<Card>): EvaluatedHand
  {
    var r := FlushCards(cards);
    if r.Some? then EvaluatedHand(Flush, r.value) else TryStraight(cards)
  }

  function TryStraight(cards: seq<Card>): EvaluatedHand
  {
    var r := CheckStraight(cards);
    if r.Some? then EvaluatedHand(Straight, r.value) else TryThreeOfAKind(cards)
  }

  function TryThreeOfAKind(cards: seq<Card>): EvaluatedHand
  {
    var r := CheckThreeOfAKind(cards);
    if r.Some? then EvaluatedHand(ThreeOfAKind, r.value) else TryTwoPair(cards)
  }

  function TryTwoPair(cards: seq<Card>): EvaluatedHand
  {
    var r := CheckTwoPair(cards);
    if r.Some? then EvaluatedHand(TwoPair, r.value) else TryOnePair(cards)
  }

  function TryOnePair(cards: seq<Card>): EvaluatedHand
  {
    var r := CheckOnePair(cards);
    if r.Some? then EvaluatedHand(OnePair, r.value) else EvaluatedHand(HighCard, TopCards(cards, 5))
  }

  /** evaluateHand: the hole cards followed by the community cards, evaluated together. */
  function EvaluateHand(hole: seq<Card>, community: seq<Card>): EvaluatedHand
  {
    FindBestHand(hole + community)
  }

  // ---------------------------------------------------------------------------
  // Comparing two evaluated hands (compareHands)

  /**
   * compareHands reads hand2.cards[i] for every index of hand1.cards, so the
   * second hand must have at least as many tie-break cards when the categories agree.
   */
  predicate Comparable(h1: EvaluatedHand, h2: EvaluatedHand)
  {
    h1.category == h2.category ==> |h1.cards| <= |h2.cards|
  }

  /** The difference of the rank values at the first index from i on where a and b differ, or 0. */
  function CompareFrom(a: seq<Card>, b: seq<Card>, i: nat): int
    requires i <= |a| <= |b|
    decreases |a| - i
  {
    if i == |a| then 0
    else if a[i].rank != b[i].rank then a[i].rank - b[i].rank
    else CompareFrom(a, b, i + 1)
  }

  /** Positive when h1 is the better hand, negative when h2 is, 0 on a tie. */
  function Compare(h1: EvaluatedHand, h2: EvaluatedHand): int
    requires Comparable(h1, h2)
  {
    if h1.category != h2.category then CategoryValue(h1.category) - CategoryValue(h2.category)
    else CompareFrom(h1.cards, h2.cards, 0)
  }

  /** A hand of a higher category beats one of a lower category, whatever their cards. */
  lemma CategoryDecides(h1: EvaluatedHand, h2: EvaluatedHand)
    requires Comparable(h1, h2)
    ensures CategoryValue(h1.category) > CategoryValue(h2.category) ==> Compare(h1, h2) > 0
    ensures CategoryValue(h1.category) < CategoryValue(h2.category) ==> Compare(h1, h2) < 0
  {
  }

  /** compareHands: category first, then the cards index by index. */
  method CompareHands(h1: EvaluatedHand, h2: EvaluatedHand) returns (r: int)
    requires Comparable(h1, h2)
    ensures r == Compare(h1, h2)
  {
    if h1.category != h2.category {
      return CategoryValue(h1.category) - CategoryValue(h2.category);
    }
    var i := 0;
    while i < |h1.cards|
      invariant 0 <= i <= |h1.cards|
      invariant CompareFrom(h1.cards, h2.cards, i) == CompareFrom(h1.cards, h2.cards, 0)
    {
      var v1: int, v2: int := h1.cards[i].rank, h2.cards[i].rank;
      if v1 != v2 {
        return v1 - v2;
      }
      i := i + 1;
    }
    return 0;
  }

  /** The ranks of a and b agree at every index below n. */
  predicate SameRanksUpTo(a: seq<Card>, b: seq<Card>, n: nat)
    requires n <= |a| && n <= |b|
  {
    forall k :: 0 <= k < n ==> a[k].rank == b[k].rank
  }

  /** CompareFrom is the rank difference at the first index where the two lists differ. */
  lemma {:induction false} CompareFromFirstDifference(a: seq<Card>, b: seq<Card>, i: nat)
    requires i <= |a| <= |b|
    requires SameRanksUpTo(a, b, i)
    ensures CompareFrom(a, b, i) == 0 <==> SameRanksUpTo(a, b, |a|)
    ensures CompareFrom(a, b, i) != 0 ==>
      exists d :: i <= d < |a| && SameRanksUpTo(a, b, d) && CompareFrom(a, b, i) == a[d].rank - b[d].rank
    decreases |a| - i
  {
    if i < |a| {
      if a[i].rank == b[i].rank {
        CompareFromFirstDifference(a, b, i + 1);
      } else {
        assert !SameRanksUpTo(a, b, |a|);
      }
    }
  }

  lemma {:induction false} CompareFromSwap(a: seq<Card>, b: seq<Card>, i: nat)
    requires i <= |a| == |b|
    ensures CompareFrom(a, b, i) == -CompareFrom(b, a, i)
    decreases |a| - i
  {
    if i < |a| && a[i].rank == b[i].rank {
      CompareFromSwap(a, b, i + 1);
    }
  }

  lemma {:induction false} CompareFromTransitive(a: seq<Card>, b: seq<Card>, c: seq<Card>, i: nat)
    requires i <= |a| == |b| == |c|
    requires CompareFrom(a, b, i) > 0 && CompareFrom(b, c, i) > 0
    ensures CompareFrom(a, c, i) > 0
    decreases |a| - i
  {
    if a[i].rank == b[i].rank && b[i].rank == c[i].rank {
      CompareFromTransitive(a, b, c, i + 1);
    }
  }

  /** A hand ties with itself. */
  lemma CompareReflexive(h: EvaluatedHand)
    ensures Compare(h, h) == 0
  {
    CompareFromFirstDifference(h.cards, h.cards, 0);
  }

  /** Swapping the hands negates the result, so its sign flips. */
  lemma CompareAntisymmetric(h1: EvaluatedHand, h2: EvaluatedHand)
    requires |h1.cards| == |h2.cards|
    ensures Compare(h1, h2) == -Compare(h2, h1)
  {
    if h1.category == h2.category {
      CompareFromSwap(h1.cards, h2.cards, 0);
    }
  }

  /** A tie exactly when the categories agree and so does every card's rank. */
  lemma CompareZeroIff(h1: EvaluatedHand, h2: EvaluatedHand)
    requires |h1.cards| == |h2.cards|
    ensures Compare(h1, h2) == 0 <==>
      h1.category == h2.category && forall k :: 0 <= k < |h1.cards| ==> h1.cards[k].rank == h2.cards[k].rank
  {
    if h1.category == h2.category {
      CompareFromFirstDifference(h1.cards, h2.cards, 0);
    }
  }

  /** With the categories equal, the result is decided at the first index whose ranks differ. */
  lemma CompareIsLexicographic(h1: EvaluatedHand, h2: EvaluatedHand)
    requires h1.category == h2.category && |h1.cards| <= |h2.cards|
    requires Compare(h1, h2) != 0
    ensures exists d ::
      0 <= d < |h1.cards| && SameRanksUpTo(h1.cards, h2.cards, d) && Compare(h1, h2) == h1.cards[d].rank - h2.cards[d].rank
  {
    CompareFromFirstDifference(h1.cards, h2.cards, 0);
  }

  /** Beating is transitive among hands with the same number of cards. */
  lemma CompareTransitive(h1: EvaluatedHand, h2: EvaluatedHand, h3: EvaluatedHand)
    requires |h1.cards| == |h2.cards| == |h3.cards|
    requires Compare(h1, h2) > 0 && Compare(h2, h3) > 0
    ensures Compare(h1, h3) > 0
  {
    if h1.category == h2.category == h3.category {
      CompareFromTransitive(h1.cards, h2.cards, h3.cards, 0);
    }
  }
}
