/**
 * Package game/poker: a card packed into one byte (suit in the low three
 * bits, order from bit 3 on), the 54-card deck and dealing.
 */
module Poker {
  import opened GoMath
  import opened RandSource
  import Algorithm

  /** Go's uint8. */
  type Poker = bv8

  const Spade: int := 1
  const Heart: int := 2
  const Club: int := 3
  const Diamond: int := 4
  const Joker1: int := 5
  const Joker2: int := 6

  const OrderOfJoker1: int := 101
  const OrderOfJoker2: int := 102

  /**
   * Poker(kind | order << 3): the conversion to uint8 keeps the low eight
   * bits, which are kind's low eight bits ORed with order's low five bits
   * shifted up by three (two's complement, so negative numbers wrap too).
   */
  function New(kind: int, order: int): Poker
  {
    ((kind % 256) as bv8) | (((order % 32) as bv8) << 3)
  }

  function Order(c: Poker): (o: int)
    ensures 0 <= o < 32
  {
    ((c & 0xF8) >> 3) as int
  }

  function Kind(c: Poker): (k: int)
    ensures 0 <= k < 8
  {
    (c & 7) as int
  }

  /** Aces and twos rank above kings: order 1 counts 15 and order 2 counts 16. */
  function Value(c: Poker): (v: int)
    ensures Order(c) == 1 || Order(c) == 2 ==> v == Order(c) + 14
    ensures Order(c) != 1 && Order(c) != 2 ==> v == Order(c)
  {
    var order := Order(c);
    if order == 1 || order == 2 then order + 14 else order
  }

  lemma PackBits(k: bv8, o: bv8)
    requires k < 8 && o < 32
    ensures (k | (o << 3)) & 7 == k
    ensures ((k | (o << 3)) & 0xF8) >> 3 == o
  {
  }

  /** A number below 32 keeps its value as a byte. */
  lemma ByteOf(x: int)
    requires 0 <= x < 32
    ensures (x as bv8) as int == x
  {
    if x < 16 {
      assert x in {0, 1, 2, 3, 4, 5, 6, 7, 8, 9, 10, 11, 12, 13, 14, 15};
    } else {
      assert x in {16, 17, 18, 19, 20, 21, 22, 23, 24, 25, 26, 27, 28, 29, 30, 31};
    }
  }

  /** Kind and Order take a packed card apart again; the order only keeps five bits. */
  lemma NewKindOrder(kind: int, order: int)
    requires 0 <= kind < 8
    ensures Kind(New(kind, order)) == kind
    ensures Order(New(kind, order)) == order % 32
  {
    var k, o := (kind % 256) as bv8, (order % 32) as bv8;
    ByteOf(kind % 256);
    ByteOf(order % 32);
    PackBits(k, o);
  }

  /** The jokers' orders 101 and 102 do not fit in five bits: they come out as 5 and 6. */
  lemma JokerOrders()
    ensures Order(New(Joker1, OrderOfJoker1)) == 5 && Kind(New(Joker1, OrderOfJoker1)) == Joker1
    ensures Order(New(Joker2, OrderOfJoker2)) == 6 && Kind(New(Joker2, OrderOfJoker2)) == Joker2
    ensures Value(New(Joker1, OrderOfJoker1)) == Value(New(Spade, 5))
    ensures Value(New(Joker2, OrderOfJoker2)) == Value(New(Spade, 6))
  {
    NewKindOrder(Joker1, OrderOfJoker1);
    NewKindOrder(Joker2, OrderOfJoker2);
    NewKindOrder(Spade, 5);
    NewKindOrder(Spade, 6);
  }

  /** Among the orders of the suits, Value ranks 3 lowest and 2 highest. */
  lemma ValueRanks(a: Poker, b: Poker)
    requires 1 <= Order(a) <= 13 && 1 <= Order(b) <= 13
    ensures 3 <= Value(a) <= 16
    ensures Value(a) == Value(b) <==> Order(a) == Order(b)
    ensures Order(a) >= 3 && Order(b) >= 3 ==> (Value(a) < Value(b) <==> Order(a) < Order(b))
    ensures Order(a) <= 2 && Order(b) >= 3 ==> Value(b) < Value(a)
  {
  }

  /** The Less of ByOrder and of ByValue. */
  predicate LessByOrder(a: Poker, b: Poker)
  {
    Order(a) < Order(b)
  }

  predicate LessByValue(a: Poker, b: Poker)
  {
    Value(a) < Value(b)
  }

  /** ByValue's Less is a strict weak order, as sort.Sort requires. */
  lemma LessByValueStrictWeak(a: Poker, b: Poker, c: Poker)
    ensures !LessByValue(a, a)
    ensures LessByValue(a, b) && LessByValue(b, c) ==> LessByValue(a, c)
    ensures !LessByValue(a, b) && !LessByValue(b, a) && !LessByValue(b, c) && !LessByValue(c, b)
      ==> !LessByValue(a, c) && !LessByValue(c, a)
  {
  }

  /** ByOrder's Less is a strict weak order too. */
  lemma LessByOrderStrictWeak(a: Poker, b: Poker, c: Poker)
    ensures !LessByOrder(a, a)
    ensures LessByOrder(a, b) && LessByOrder(b, c) ==> LessByOrder(a, c)
    ensures !LessByOrder(a, b) && !LessByOrder(b, a) && !LessByOrder(b, c) && !LessByOrder(c, b)
      ==> !LessByOrder(a, c) && !LessByOrder(c, a)
  {
  }

  // ----- The deck -----

  /** The 13 cards of one suit, orders 1 to 13. */
  function Suit(kind: int): (cards: seq<Poker>)
    ensures |cards| == 13
  {
    seq(13, o => New(kind, o + 1))
  }

  /** Spades, hearts, clubs, diamonds, then the two jokers: the table in the source's order. */
  const Deck: seq<Poker> :=
    Suit(Spade) + Suit(Heart) + Suit(Club) + Suit(Diamond)
    + [New(Joker1, OrderOfJoker1), New(Joker2, OrderOfJoker2)]

  const DeckSize: nat := 54

  lemma DeckLength()
    ensures |Deck| == DeckSize
  {
  }

  /** A card of a suit has that suit as Kind and its order as Order. */
  lemma SuitCard(kind: int, o: int)
    requires Spade <= kind <= Diamond && 0 <= o < 13
    ensures Kind(Suit(kind)[o]) == kind && Order(Suit(kind)[o]) == o + 1
  {
    NewKindOrder(kind, o + 1);
  }

  /** Four suits of 13 cards with orders 1..13, then Joker1 and Joker2. */
  lemma DeckShape()
    ensures |Deck| == DeckSize
    ensures forall o :: 0 <= o < 13 ==>
      Deck[o] == Suit(Spade)[o] && Deck[13 + o] == Suit(Heart)[o]
      && Deck[26 + o] == Suit(Club)[o] && Deck[39 + o] == Suit(Diamond)[o]
    ensures Deck[52] == New(Joker1, OrderOfJoker1) && Deck[53] == New(Joker2, OrderOfJoker2)
  {
  }

  predicate Indexes(idx: seq<int>, n: int)
  {
    forall i :: 0 <= i < |idx| ==> 0 <= idx[i] < n
  }

  /** The cards of a deck at the given positions. */
  function Pick<T>(deck: seq<T>, idx: seq<int>): (cards: seq<T>)
    requires Indexes(idx, |deck|)
    ensures |cards| == |idx|
  {
    seq(|idx|, i requires 0 <= i < |idx| => deck[idx[i]])
  }

  /** GetPokers's loop, over any table of cards. */
  method PickCards<T>(deck: seq<T>, indexes: seq<int>) returns (res: seq<T>)
    requires Indexes(indexes, |deck|)
    ensures res == Pick(deck, indexes)
  {
    res := [];
    var i := 0;
    while i < |indexes|
      invariant 0 <= i <= |indexes|
      invariant res == Pick(deck, indexes[..i])
    {
      assert indexes[..i + 1] == indexes[..i] + [indexes[i]];
      PickAppend(deck, indexes[..i], [indexes[i]]);
      res := res + [deck[indexes[i]]];
      i := i + 1;
    }
    assert indexes[..i] == indexes;
  }

  /** The cards of the deck table at the given positions; a position outside 0..53 panics. */
  method GetPokers(indexes: seq<int>) returns (res: seq<Poker>)
    requires Indexes(indexes, DeckSize)
    ensures res == Pick(Deck, indexes)
  {
    DeckLength();
    res := PickCards(Deck, indexes);
  }

  function Range(n: nat): (r: seq<int>)
    ensures |r| == n && forall i :: 0 <= i < n ==> r[i] == i
  {
    seq(n, i => i)
  }

  /** make([]int, n) panics for a negative n. */
  method NewOrders(n: int) returns (res: array<int>)
    requires n >= 0
    ensures fresh(res)
    ensures res[..] == Range(n)
  {
    res := new int[n];
    var i := 0;
    while i < n
      invariant 0 <= i <= n
      invariant forall k :: 0 <= k < i ==> res[k] == k
    {
      res[i] := i;
      i := i + 1;
    }
  }

  lemma PickAppend<T>(deck: seq<T>, a: seq<int>, b: seq<int>)
    requires Indexes(a, |deck|) && Indexes(b, |deck|)
    ensures Indexes(a + b, |deck|)
    ensures Pick(deck, a + b) == Pick(deck, a) + Pick(deck, b)
  {
  }

  lemma PickSwap<T>(deck: seq<T>, s: seq<int>, i: nat, j: nat)
    requires Indexes(s, |deck|) && i < |s| && j < |s|
    ensures Indexes(Algorithm.Swap(s, i, j), |deck|)
    ensures Pick(deck, Algorithm.Swap(s, i, j)) == Algorithm.Swap(Pick(deck, s), i, j)
  {
  }

  /** Shuffling positions and then picking is picking and then shuffling the cards. */
  lemma {:induction false} PickSteps<T>(deck: seq<T>, s: seq<int>, d: Algorithm.Draws, k: nat)
    requires Indexes(s, |deck|) && k <= |s|
    ensures Indexes(Algorithm.Steps(s, d, k), |deck|)
    ensures Pick(deck, Algorithm.Steps(s, d, k)) == Algorithm.Steps(Pick(deck, s), d, k)
  {
    if k > 0 {
      PickSteps(deck, s, d, k - 1);
      var i := |s| - k;
      PickSwap(deck, Algorithm.Steps(s, d, k - 1), i, Algorithm.PartnerAt(d, k - 1, i));
    }
  }

  /** Picking by a shuffle of all positions gives a permutation of the deck. */
  lemma ShuffledDeck<T>(deck: seq<T>, d: Algorithm.Draws)
    ensures Indexes(Algorithm.Shuffled(Range(|deck|), d), |deck|)
    ensures Pick(deck, Algorithm.Shuffled(Range(|deck|), d)) == Algorithm.Shuffled(deck, d)
    ensures multiset(Pick(deck, Algorithm.Shuffled(Range(|deck|), d))) == multiset(deck)
  {
    assert Pick(deck, Range(|deck|)) == deck;
    PickSteps(deck, Range(|deck|), d, |deck|);
    Algorithm.ShuffledPermutation(deck, d);
  }

  // ----- Dealing -----

  /** Non-decreasing by key, one neighbour at a time. */
  predicate SortedBy<T>(h: seq<T>, key: T -> int)
  {
    forall i :: 0 < i < |h| ==> key(h[i - 1]) <= key(h[i])
  }

  predicate SortedByValue(h: seq<Poker>)
  {
    SortedBy(h, Value)
  }

  /** sort.Sort, modelled as an insertion sort: the result is sorted by key and a permutation. */
  function Insert<T>(c: T, h: seq<T>, key: T -> int): (r: seq<T>)
    requires SortedBy(h, key)
    ensures SortedBy(r, key)
    ensures multiset(r) == multiset(h) + multiset{c}
    ensures |r| == |h| + 1
    ensures r[0] == c || (|h| > 0 && r[0] == h[0])
  {
    if |h| == 0 then [c]
    else if key(c) <= key(h[0]) then [c] + h
    else
      assert h == [h[0]] + h[1..];
      [h[0]] + Insert(c, h[1..], key)
  }

  function SortBy<T>(h: seq<T>, key: T -> int): (r: seq<T>)
    ensures SortedBy(r, key)
    ensures multiset(r) == multiset(h)
    ensures |r| == |h|
  {
    if |h| == 0 then []
    else
      assert h == h[..|h| - 1] + [h[|h| - 1]];
      Insert(h[|h| - 1], SortBy(h[..|h| - 1], key), key)
  }

  /** Sorted hands never have a card of lower Value after one of higher Value. */
  lemma {:induction false} SortedPairwise(h: seq<Poker>, i: int, j: int)
    requires SortedByValue(h) && 0 <= i <= j < |h|
    ensures Value(h[i]) <= Value(h[j])
    decreases j - i
  {
    if i < j {
      SortedPairwise(h, i, j - 1);
    }
  }

  /** Cards handed out to the first k hands: each hand takes what it asks for, or what is left. */
  function Used(nums: seq<nat>, k: nat): (u: int)
    requires k <= |nums|
    ensures 0 <= u <= DeckSize
  {
    if k == 0 then 0 else Min(Used(nums, k - 1) + nums[k - 1], DeckSize)
  }

  lemma UsedStep(nums: seq<nat>, k: nat)
    requires k < |nums|
    ensures Used(nums, k) <= Used(nums, k + 1)
    ensures Used(nums, k + 1) - Used(nums, k) == Min(nums[k], DeckSize - Used(nums, k))
  {
  }

  /** A shuffled order of a deck's positions, and counts Go can slice with. */
  predicate Dealable(n: nat, orders: seq<int>)
  {
    |orders| == n && Indexes(orders, n)
  }

  /** What sort.Sort promises about a sorting function: the same cards, sorted by key. */
  ghost predicate Permutes<T(!new)>(sort: seq<T> -> seq<T>)
  {
    forall h :: multiset(sort(h)) == multiset(h)
  }

  ghost predicate SortsBy<T(!new)>(sort: seq<T> -> seq<T>, key: T -> int)
  {
    forall h :: SortedBy(sort(h), key)
  }

  function SortByValue(h: seq<Poker>): seq<Poker>
  {
    SortBy(h, Value)
  }

  lemma SortByValueSorts()
    ensures Permutes(SortByValue) && SortsBy(SortByValue, Value)
  {
    forall h: seq<Poker>
      ensures SortedBy(SortByValue(h), Value) && multiset(SortByValue(h)) == multiset(h)
    {
    }
  }

  /** Hand k: the positions after the first k hands' share, as sorted cards. */
  function Hand<T>(deck: seq<T>, sort: seq<T> -> seq<T>, orders: seq<int>, nums: seq<nat>, k: nat): seq<T>
    requires |deck| == DeckSize && Dealable(|deck|, orders) && k < |nums|
  {
    UsedStep(nums, k);
    sort(Pick(deck, orders[Used(nums, k)..Used(nums, k + 1)]))
  }

  function Hands<T>(deck: seq<T>, sort: seq<T> -> seq<T>, orders: seq<int>, nums: seq<nat>, k: nat): (hands: seq<seq<T>>)
    requires |deck| == DeckSize && Dealable(|deck|, orders) && k <= |nums|
    ensures |hands| == k
  {
    if k == 0 then [] else Hands(deck, sort, orders, nums, k - 1) + [Hand(deck, sort, orders, nums, k - 1)]
  }

  function Remains<T>(deck: seq<T>, orders: seq<int>, nums: seq<nat>): seq<T>
    requires |deck| == DeckSize && Dealable(|deck|, orders)
  {
    Pick(deck, orders[Used(nums, |nums|)..])
  }

  function Flatten<T>(hands: seq<seq<T>>): seq<T>
  {
    if |hands| == 0 then [] else Flatten(hands[..|hands| - 1]) + hands[|hands| - 1]
  }

  lemma FlattenSnoc<T>(hands: seq<seq<T>>, hand: seq<T>)
    ensures Flatten(hands + [hand]) == Flatten(hands) + hand
  {
    assert (hands + [hand])[..|hands|] == hands;
  }

  lemma PickSplit<T>(deck: seq<T>, s: seq<int>, u: int)
    requires Indexes(s, |deck|) && 0 <= u <= |s|
    ensures Indexes(s[..u], |deck|) && Indexes(s[u..], |deck|)
    ensures multiset(Pick(deck, s)) == multiset(Pick(deck, s[..u])) + multiset(Pick(deck, s[u..]))
  {
    assert s == s[..u] + s[u..];
    PickAppend(deck, s[..u], s[u..]);
  }

  lemma {:induction false} HandsIndex<T>(deck: seq<T>, sort: seq<T> -> seq<T>, orders: seq<int>, nums: seq<nat>, k: nat, i: nat)
    requires |deck| == DeckSize && Dealable(|deck|, orders) && i < k <= |nums|
    ensures Hands(deck, sort, orders, nums, k)[i] == Hand(deck, sort, orders, nums, i)
  {
    if i < k - 1 {
      HandsIndex(deck, sort, orders, nums, k - 1, i);
    }
  }

  /** Hand i holds min(nums[i], cards left) cards, sorted by key. */
  lemma DealtHand<T(!new)>(deck: seq<T>, sort: seq<T> -> seq<T>, key: T -> int, orders: seq<int>, nums: seq<nat>, i: nat)
    requires |deck| == DeckSize && Dealable(|deck|, orders) && Permutes(sort) && SortsBy(sort, key) && i < |nums|
    ensures |Hands(deck, sort, orders, nums, |nums|)[i]| == Min(nums[i], DeckSize - Used(nums, i))
      && SortedBy(Hands(deck, sort, orders, nums, |nums|)[i], key)
  {
    HandsIndex(deck, sort, orders, nums, |nums|, i);
    HandShape(deck, sort, key, orders, nums, i);
  }

  lemma RemainsSize<T>(deck: seq<T>, orders: seq<int>, nums: seq<nat>)
    requires |deck| == DeckSize && Dealable(|deck|, orders)
    ensures |Remains(deck, orders, nums)| == DeckSize - Used(nums, |nums|)
  {
    var u := Used(nums, |nums|);
    assert |orders[u..]| == DeckSize - u;
  }

  lemma HandShape<T(!new)>(deck: seq<T>, sort: seq<T> -> seq<T>, key: T -> int, orders: seq<int>, nums: seq<nat>, i: nat)
    requires |deck| == DeckSize && Dealable(|deck|, orders) && Permutes(sort) && SortsBy(sort, key) && i < |nums|
    ensures |Hand(deck, sort, orders, nums, i)| == Min(nums[i], DeckSize - Used(nums, i))
    ensures SortedBy(Hand(deck, sort, orders, nums, i), key)
  {
    UsedStep(nums, i);
    var cut := Pick(deck, orders[Used(nums, i)..Used(nums, i + 1)]);
    assert multiset(sort(cut)) == multiset(cut);
    assert |multiset(sort(cut))| == |multiset(cut)|;
  }

  lemma PickPrefixes<T>(deck: seq<T>, s: seq<int>, a: int, b: int)
    requires Indexes(s, |deck|) && 0 <= a <= b <= |s|
    ensures Indexes(s[..a], |deck|) && Indexes(s[a..b], |deck|) && Indexes(s[..b], |deck|)
    ensures multiset(Pick(deck, s[..a])) + multiset(Pick(deck, s[a..b])) == multiset(Pick(deck, s[..b]))
  {
    assert s[..b] == s[..a] + s[a..b];
    PickAppend(deck, s[..a], s[a..b]);
  }

  lemma SnocCards<T>(hs: seq<seq<T>>, h: seq<T>, p: seq<T>, q: seq<T>, r: seq<T>)
    requires multiset(Flatten(hs)) == multiset(p) && multiset(h) == multiset(q)
    requires multiset(p) + multiset(q) == multiset(r)
    ensures multiset(Flatten(hs + [h])) == multiset(r)
  {
    FlattenSnoc(hs, h);
  }

  /** A hand holds the cards at its share of the positions. */
  lemma HandCards<T(!new)>(deck: seq<T>, sort: seq<T> -> seq<T>, orders: seq<int>, nums: seq<nat>, k: nat)
    requires |deck| == DeckSize && Dealable(|deck|, orders) && Permutes(sort) && k < |nums|
    ensures Used(nums, k) <= Used(nums, k + 1)
    ensures multiset(Hand(deck, sort, orders, nums, k)) == multiset(Pick(deck, orders[Used(nums, k)..Used(nums, k + 1)]))
  {
    UsedStep(nums, k);
    var cut := Pick(deck, orders[Used(nums, k)..Used(nums, k + 1)]);
    assert multiset(sort(cut)) == multiset(cut);
  }

  /** The first k hands together hold the cards at the first Used(k) shuffled positions. */
  lemma {:induction false} HandsCards<T(!new)>(deck: seq<T>, sort: seq<T> -> seq<T>, orders: seq<int>, nums: seq<nat>, k: nat)
    requires |deck| == DeckSize && Dealable(|deck|, orders) && Permutes(sort) && k <= |nums|
    ensures multiset(Flatten(Hands(deck, sort, orders, nums, k))) == multiset(Pick(deck, orders[..Used(nums, k)]))
  {
    if k > 0 {
      var hs, h := Hands(deck, sort, orders, nums, k - 1), Hand(deck, sort, orders, nums, k - 1);
      var a, b := Used(nums, k - 1), Used(nums, k);
      HandsCards(deck, sort, orders, nums, k - 1);
      HandCards(deck, sort, orders, nums, k - 1);
      PickPrefixes(deck, orders, a, b);
      SnocCards(hs, h, Pick(deck, orders[..a]), Pick(deck, orders[a..b]), Pick(deck, orders[..b]));
    }
  }

  /** Hands and remains together are exactly the deck, whatever the counts. */
  lemma DealPartition<T(!new)>(deck: seq<T>, sort: seq<T> -> seq<T>, orders: seq<int>, nums: seq<nat>)
    requires |deck| == DeckSize && Dealable(|deck|, orders) && Permutes(sort)
    requires multiset(Pick(deck, orders)) == multiset(deck)
    ensures multiset(Flatten(Hands(deck, sort, orders, nums, |nums|)) + Remains(deck, orders, nums)) == multiset(deck)
  {
    HandsCards(deck, sort, orders, nums, |nums|);
    PickSplit(deck, orders, Used(nums, |nums|));
  }

  /** Shuffled positions of a deck are dealable and pick every card once. */
  lemma ShuffledDealable<T>(deck: seq<T>, d: Algorithm.Draws)
    requires |deck| == DeckSize
    ensures Dealable(|deck|, Algorithm.Shuffled(Range(DeckSize), d))
    ensures multiset(Pick(deck, Algorithm.Shuffled(Range(DeckSize), d))) == multiset(deck)
  {
    ShuffledDeck(deck, d);
    Algorithm.ShuffledPermutation(Range(DeckSize), d);
  }

  /** One round of Deal's loop: the next nums[i] positions, or all that are left, as sorted cards. */
  method DealHand(deck: seq<Poker>, orders: seq<int>, nums: seq<nat>, i: nat, used: int) returns (hand: seq<Poker>)
    requires |deck| == DeckSize && Dealable(DeckSize, orders) && i < |nums|
    requires used == Used(nums, i)
    ensures hand == Hand(deck, SortByValue, orders, nums, i)
    ensures used + |hand| == Used(nums, i + 1)
  {
    var num := nums[i];
    var cut := if used + num <= |orders| then orders[used..used + num] else orders[used..];
    UsedStep(nums, i);
    assert cut == orders[Used(nums, i)..Used(nums, i + 1)];
    hand := PickCards(deck, cut);
    hand := SortByValue(hand);
  }

  /**
   * What Deal hands out, for any draws: every card of the deck exactly once
   * over the hands and the remains, hand i holding min(nums[i], cards left)
   * cards in Value order.
   */
  lemma DealDeck(d: Algorithm.Draws, nums: seq<nat>)
    ensures |Deck| == DeckSize
    ensures Dealable(DeckSize, Algorithm.Shuffled(Range(DeckSize), d))
    ensures var orders := Algorithm.Shuffled(Range(DeckSize), d);
      multiset(Flatten(Hands(Deck, SortByValue, orders, nums, |nums|)) + Remains(Deck, orders, nums)) == multiset(Deck)
    ensures |Remains(Deck, Algorithm.Shuffled(Range(DeckSize), d), nums)| == DeckSize - Used(nums, |nums|)
  {
    DeckLength();
    var orders := Algorithm.Shuffled(Range(DeckSize), d);
    ShuffledDealable(Deck, d);
    SortByValueSorts();
    DealPartition(Deck, SortByValue, orders, nums);
    RemainsSize(Deck, orders, nums);
  }

  /** Hand i of a deal of the deck: min(nums[i], cards left) cards, in Value order. */
  lemma DealDeckHand(d: Algorithm.Draws, nums: seq<nat>, i: nat)
    requires i < |nums|
    ensures |Deck| == DeckSize
    ensures Dealable(DeckSize, Algorithm.Shuffled(Range(DeckSize), d))
    ensures var hands := Hands(Deck, SortByValue, Algorithm.Shuffled(Range(DeckSize), d), nums, |nums|);
      |hands[i]| == Min(nums[i], DeckSize - Used(nums, i)) && SortedBy(hands[i], Value)
  {
    DeckLength();
    var orders := Algorithm.Shuffled(Range(DeckSize), d);
    ShuffledDealable(Deck, d);
    SortByValueSorts();
    HandsIndex(Deck, SortByValue, orders, nums, |nums|, i);
    HandShape(Deck, SortByValue, Value, orders, nums, i);
  }

  /**
   * Deal shuffles the positions 0..53 (with the package-level math/rand
   * source, here global), then gives hand i the next min(nums[i], cards
   * left) cards, sorted by Value; the cards no hand took are the remains.
   * A negative count makes Go's slice expression panic.
   */
  method Deal(nums: seq<nat>, global: GlobalRand) returns (res: seq<seq<Poker>>, remains: seq<Poker>)
    modifies global
    ensures |Deck| == DeckSize
    ensures Dealable(DeckSize, Algorithm.Shuffled(Range(DeckSize), Algorithm.FromGlobal(global.intn, old(global.calls))))
    ensures res == Hands(Deck, SortByValue, Algorithm.Shuffled(Range(DeckSize), Algorithm.FromGlobal(global.intn, old(global.calls))), nums, |nums|)
    ensures remains == Remains(Deck, Algorithm.Shuffled(Range(DeckSize), Algorithm.FromGlobal(global.intn, old(global.calls))), nums)
    ensures global.calls == old(global.calls) + DeckSize
  {
    var positions := NewOrders(DeckSize);
    ghost var d := Algorithm.FromGlobal(global.intn, global.calls);
    Algorithm.ShuffleInts(positions, null, global);
    DeckLength();
    ShuffledDealable(Deck, d);
    res, remains := DealHands(Deck, positions[..], nums);
  }

  /** Deal's loop over the counts, on shuffled positions of the deck table. */
  method DealHands(deck: seq<Poker>, orders: seq<int>, nums: seq<nat>) returns (res: seq<seq<Poker>>, remains: seq<Poker>)
    requires |deck| == DeckSize && Dealable(DeckSize, orders)
    ensures res == Hands(deck, SortByValue, orders, nums, |nums|)
    ensures remains == Remains(deck, orders, nums)
  {
    res := [];
    var used := 0;
    var i := 0;
    while i < |nums|
      invariant 0 <= i <= |nums|
      invariant used == Used(nums, i)
      invariant res == Hands(deck, SortByValue, orders, nums, i)
    {
      var hand := DealHand(deck, orders, nums, i, used);
      res := res + [hand];
      used := used + |hand|;
      i := i + 1;
    }
    remains := PickCards(deck, orders[used..]);
  }
}
