/** Rules about one player's hand: suit-following (Player.isValidSelection, cardgame.js:417-441),
    removing a played card (the splice of cardgame.js:253) and the display order of
    Player.sortHand (cardgame.js:135-175). */
module Hands {
  import opened Cards
  import opened Tricks

  /** Whether some card of `hand` is of suit `s`: the scan of cardgame.js:432-437. */
  predicate HoldsSuit(hand: seq<Card>, s: Suit) {
    exists k :: 0 <= k < |hand| && hand[k].suit == s
  }

  /** Whether `card` may be played into `trick` from `hand`: always on an empty trick,
      always when it follows the led suit, and otherwise only when the hand has no card of that suit. */
  predicate IsValidSelection<P>(card: Card, trick: seq<Play<P>>, hand: seq<Card>) {
    if trick == [] then true
    else
      var led := trick[0].card.suit;
      if card.suit == led then true
      else !HoldsSuit(hand, led)
  }

  /** A non-empty hand always has a card that may be played, so the selection prompt can be satisfied. */
  lemma SomeSelectionValid<P>(trick: seq<Play<P>>, hand: seq<Card>)
    requires |hand| > 0
    ensures exists i :: 0 <= i < |hand| && IsValidSelection(hand[i], trick, hand)
  {
    if trick != [] && HoldsSuit(hand, trick[0].card.suit) {
      var k :| 0 <= k < |hand| && hand[k].suit == trick[0].card.suit;
      assert IsValidSelection(hand[k], trick, hand);
    } else {
      assert IsValidSelection(hand[0], trick, hand);
    }
  }

  /** When the hand can follow the led suit, the valid cards are exactly those of the led suit;
      otherwise (or on an empty trick) every card is valid. */
  lemma ValidSelectionsAre<P>(trick: seq<Play<P>>, hand: seq<Card>, c: Card)
    ensures trick != [] && HoldsSuit(hand, trick[0].card.suit) ==>
      (IsValidSelection(c, trick, hand) <==> c.suit == trick[0].card.suit)
    ensures trick == [] || !HoldsSuit(hand, trick[0].card.suit) ==> IsValidSelection(c, trick, hand)
  {
  }

  /** `hand.splice(i, 1)`: the hand without its i-th card. */
  function RemoveAt(hand: seq<Card>, i: nat): (rest: seq<Card>)
    requires i < |hand|
    ensures |rest| == |hand| - 1
    ensures multiset(rest) + multiset{hand[i]} == multiset(hand)
    ensures forall k :: 0 <= k < i ==> rest[k] == hand[k]
    ensures forall k :: i <= k < |rest| ==> rest[k] == hand[k + 1]
  {
    assert hand == hand[..i] + [hand[i]] + hand[i + 1..];
    hand[..i] + hand[i + 1..]
  }

  /** The bucket a card goes to in sortHand: Hearts, Clubs, Diamonds, Spades, or the rest. */
  function Group(c: Card): (g: nat)
    ensures g <= 4
    ensures g == 4 <==> c.suit == TrumpPlaceholder
  {
    match c.suit
    case Hearts => 0
    case Clubs => 1
    case Diamonds => 2
    case Spades => 3
    case TrumpPlaceholder => 4
  }

  /** The cards of `hand` that go to bucket `g`, in hand order. */
  function OfGroup(hand: seq<Card>, g: nat): (r: seq<Card>)
    ensures forall k :: 0 <= k < |r| ==> Group(r[k]) == g
  {
    if hand == [] then []
    else
      var last := hand[|hand| - 1];
      OfGroup(hand[..|hand| - 1], g) + if Group(last) == g then [last] else []
  }

  /** The cards of `js` that are (or, for `little == false`, are not) Little Jokers, in order. */
  function OfLittle(js: seq<Card>, little: bool): (r: seq<Card>)
    ensures forall k :: 0 <= k < |r| ==> (r[k].rank == LittleJoker) == little && r[k] in js
  {
    if js == [] then []
    else
      var last := js[|js| - 1];
      OfLittle(js[..|js| - 1], little) + if (last.rank == LittleJoker) == little then [last] else []
  }

  /** The joker bucket after `jokers.sort(...)`: Little Jokers before every other card. */
  function LittleFirst(js: seq<Card>): seq<Card> {
    OfLittle(js, true) + OfLittle(js, false)
  }

  /** Whether `a.rank - b.rank` treats the rank as a number: '2' to '10' coerce to their value
      (RankIndex + 2), the face and joker ranks to NaN. */
  predicate IsNumberRank(r: Rank) {
    0 <= RankIndex(r) <= 8
  }

  /** Inserts `c` into `s` before the first card ranked at least as high. */
  function InsertByRank(c: Card, s: seq<Card>): (r: seq<Card>)
    ensures multiset(r) == multiset(s) + multiset{c}
  {
    if s == [] then [c]
    else if RankIndex(c.rank) <= RankIndex(s[0].rank) then [c] + s
    else
      assert s == [s[0]] + s[1..];
      [s[0]] + InsertByRank(c, s[1..])
  }

  /** `bucket.sort((a, b) => a.rank - b.rank)`: ascending by rank, which is the source's order for a
      suit of number cards and the model's choice where a face card makes the comparator `NaN`. */
  function SortByRank(b: seq<Card>): (r: seq<Card>)
    ensures multiset(r) == multiset(b)
  {
    if b == [] then []
    else
      assert b == [b[0]] + b[1..];
      InsertByRank(b[0], SortByRank(b[1..]))
  }

  predicate RankAscending(s: seq<Card>) {
    forall i, j :: 0 <= i < j < |s| ==> RankIndex(s[i].rank) <= RankIndex(s[j].rank)
  }

  lemma TailAscending(s: seq<Card>)
    requires s != [] && RankAscending(s)
    ensures RankAscending(s[1..])
  {
    var t := s[1..];
    forall i, j | 0 <= i < j < |t| ensures RankIndex(t[i].rank) <= RankIndex(t[j].rank) {
      assert t[i] == s[i + 1] && t[j] == s[j + 1];
    }
  }

  lemma ConsAscending(x: Card, u: seq<Card>)
    requires RankAscending(u) && (u != [] ==> RankIndex(x.rank) <= RankIndex(u[0].rank))
    ensures RankAscending([x] + u)
  {
    var v := [x] + u;
    forall i, j | 0 <= i < j < |v| ensures RankIndex(v[i].rank) <= RankIndex(v[j].rank) {
      assert v[j] == u[j - 1];
      if i > 0 {
        assert v[i] == u[i - 1];
      } else if j > 1 {
        assert RankIndex(u[0].rank) <= RankIndex(u[j - 1].rank);
      }
    }
  }

  lemma {:induction false} InsertKeepsAscending(c: Card, s: seq<Card>)
    requires RankAscending(s)
    ensures RankAscending(InsertByRank(c, s))
    ensures InsertByRank(c, s)[0] == c || (s != [] && InsertByRank(c, s)[0] == s[0])
  {
    if s == [] || RankIndex(c.rank) <= RankIndex(s[0].rank) {
      ConsAscending(c, s);
    } else {
      var t := s[1..];
      TailAscending(s);
      InsertKeepsAscending(c, t);
      assert t != [] ==> t[0] == s[1];
      ConsAscending(s[0], InsertByRank(c, t));
    }
  }

  /** The sorted bucket is in ascending rank order. */
  lemma {:induction false} SortByRankAscending(b: seq<Card>)
    ensures RankAscending(SortByRank(b))
  {
    if b != [] {
      SortByRankAscending(b[1..]);
      InsertKeepsAscending(b[0], SortByRank(b[1..]));
    }
  }

  /** Sorted bucket g < 4 of `hand` is display-sorted and rank-sorted, with every key equal to g. */
  lemma SortedBucket(hand: seq<Card>, g: nat)
    requires g < 4
    ensures Ordered(SortByRank(OfGroup(hand, g))) && KeysIn(SortByRank(OfGroup(hand, g)), g, g)
  {
    var b := OfGroup(hand, g);
    var r := SortByRank(b);
    SortByRankAscending(b);
    forall k | 0 <= k < |r| ensures DisplayKey(r[k]) == g {
      assert r[k] in multiset(r);
      assert r[k] in multiset(b);
      var m :| 0 <= m < |b| && b[m] == r[k];
    }
  }

  /** The two halves of the sorted rest: Little Jokers (key 4), then the other cards (key 5),
      all of suit 'Trump'. */
  lemma SortedRest(hand: seq<Card>, little: bool)
    ensures Ordered(OfLittle(OfGroup(hand, 4), little))
    ensures KeysIn(OfLittle(OfGroup(hand, 4), little), if little then 4 else 5, if little then 4 else 5)
  {
    var rest := OfGroup(hand, 4);
    var r := OfLittle(rest, little);
    assert forall k :: 0 <= k < |r| ==> r[k] in rest && r[k].suit == TrumpPlaceholder;
  }

  /** One order sortHand can leave the hand in: the four suit buckets sorted by rank, then the
      rest with the Little Joker first. For a suit that holds a face card the comparator is not
      consistent and JavaScript leaves the order to the implementation; this is one such order. */
  function Arrange(hand: seq<Card>): seq<Card> {
    SortByRank(OfGroup(hand, 0)) + SortByRank(OfGroup(hand, 1)) + SortByRank(OfGroup(hand, 2))
      + SortByRank(OfGroup(hand, 3)) + LittleFirst(OfGroup(hand, 4))
  }

  /** The key the display order sorts by: suit bucket, and in the last bucket Little Jokers first. */
  function DisplayKey(c: Card): nat {
    if Group(c) < 4 then Group(c) else if c.rank == LittleJoker then 4 else 5
  }

  predicate DisplaySorted(h: seq<Card>) {
    forall i, j :: 0 <= i < j < |h| ==> DisplayKey(h[i]) <= DisplayKey(h[j])
  }

  /** Within each of the four natural suits, the cards are in ascending rank order. */
  predicate SuitsAscending(h: seq<Card>) {
    forall i, j :: 0 <= i < j < |h| && h[i].suit == h[j].suit && h[i].suit != TrumpPlaceholder ==>
      RankIndex(h[i].rank) <= RankIndex(h[j].rank)
  }

  /** Display-sorted, and in rank order within each natural suit. */
  predicate Ordered(h: seq<Card>) {
    DisplaySorted(h) && SuitsAscending(h)
  }

  /** Every display key of `h` lies in [lo, hi]. */
  predicate KeysIn(h: seq<Card>, lo: nat, hi: nat) {
    forall i :: 0 <= i < |h| ==> lo <= DisplayKey(h[i]) <= hi
  }

  /** Suit `s` is a natural suit of which `h` holds number cards only. */
  predicate NumberSuit(h: seq<Card>, s: Suit) {
    s != TrumpPlaceholder && forall k :: 0 <= k < |h| && h[k].suit == s ==> IsNumberRank(h[k].rank)
  }

  /** What the per-suit sort promises: where the comparator is consistent, a suit of number cards
      only, the cards are in ascending rank order. */
  predicate NumberSuitsAscending(h: seq<Card>) {
    forall i, j :: 0 <= i < j < |h| && h[i].suit == h[j].suit && NumberSuit(h, h[i].suit) ==>
      RankIndex(h[i].rank) <= RankIndex(h[j].rank)
  }

  lemma OfGroupSnoc(prefix: seq<Card>, c: Card, g: nat)
    ensures OfGroup(prefix + [c], g) == OfGroup(prefix, g) + if Group(c) == g then [c] else []
  {
    assert (prefix + [c])[..|prefix|] == prefix;
  }

  /** Appending one card to the hand appends it to the bucket of its suit and to no other. */
  lemma {:induction false} BucketsSnoc(prefix: seq<Card>, c: Card)
    ensures OfGroup(prefix + [c], 0) == OfGroup(prefix, 0) + if c.suit == Hearts then [c] else []
    ensures OfGroup(prefix + [c], 1) == OfGroup(prefix, 1) + if c.suit == Clubs then [c] else []
    ensures OfGroup(prefix + [c], 2) == OfGroup(prefix, 2) + if c.suit == Diamonds then [c] else []
    ensures OfGroup(prefix + [c], 3) == OfGroup(prefix, 3) + if c.suit == Spades then [c] else []
    ensures OfGroup(prefix + [c], 4) == OfGroup(prefix, 4) + if c.suit == TrumpPlaceholder then [c] else []
  {
    OfGroupSnoc(prefix, c, 0);
    OfGroupSnoc(prefix, c, 1);
    OfGroupSnoc(prefix, c, 2);
    OfGroupSnoc(prefix, c, 3);
    OfGroupSnoc(prefix, c, 4);
  }

  /** The bucket loop of sortHand: each card goes to the bucket of its suit, in hand order. */
  method Bucket(cards: seq<Card>) returns (hearts: seq<Card>, clubs: seq<Card>, diamonds: seq<Card>,
                                           spades: seq<Card>, jokers: seq<Card>)
    ensures hearts == OfGroup(cards, 0) && clubs == OfGroup(cards, 1)
    ensures diamonds == OfGroup(cards, 2) && spades == OfGroup(cards, 3)
    ensures jokers == OfGroup(cards, 4)
  {
    hearts, clubs, diamonds, spades, jokers := [], [], [], [], [];
    for k := 0 to |cards|
      invariant hearts == OfGroup(cards[..k], 0) && clubs == OfGroup(cards[..k], 1)
      invariant diamonds == OfGroup(cards[..k], 2) && spades == OfGroup(cards[..k], 3)
      invariant jokers == OfGroup(cards[..k], 4)
    {
      var card := cards[k];
      assert cards[..k + 1] == cards[..k] + [card];
      BucketsSnoc(cards[..k], card);
      if card.suit == Spades {
        spades := spades + [card];
      } else if card.suit == Hearts {
        hearts := hearts + [card];
      } else if card.suit == Diamonds {
        diamonds := diamonds + [card];
      } else if card.suit == Clubs {
        clubs := clubs + [card];
      } else {
        jokers := jokers + [card];
      }
    }
    assert cards[..|cards|] == cards;
  }

  /** Taking the last card off the hand takes it off its own bucket and leaves the others. */
  lemma OfGroupLast(hand: seq<Card>, g: nat)
    requires hand != []
    ensures multiset(OfGroup(hand, g)) == multiset(OfGroup(hand[..|hand| - 1], g))
      + if Group(hand[|hand| - 1]) == g then multiset{hand[|hand| - 1]} else multiset{}
  {
  }

  /** Adding one card to bucket g of five adds it to the union of the buckets. */
  lemma BucketsGrow(a0: multiset<Card>, a1: multiset<Card>, a2: multiset<Card>, a3: multiset<Card>,
                    a4: multiset<Card>, b0: multiset<Card>, b1: multiset<Card>, b2: multiset<Card>,
                    b3: multiset<Card>, b4: multiset<Card>, one: multiset<Card>, g: nat)
    requires g <= 4
    requires b0 == a0 + if g == 0 then one else multiset{}
    requires b1 == a1 + if g == 1 then one else multiset{}
    requires b2 == a2 + if g == 2 then one else multiset{}
    requires b3 == a3 + if g == 3 then one else multiset{}
    requires b4 == a4 + if g == 4 then one else multiset{}
    ensures b0 + b1 + b2 + b3 + b4 == a0 + a1 + a2 + a3 + a4 + one
  {
  }

  /** The multiset of the five buckets of `hand`. */
  function Buckets(hand: seq<Card>): multiset<Card> {
    multiset(OfGroup(hand, 0)) + multiset(OfGroup(hand, 1)) + multiset(OfGroup(hand, 2))
      + multiset(OfGroup(hand, 3)) + multiset(OfGroup(hand, 4))
  }

  lemma {:induction false} GroupsPartition(hand: seq<Card>)
    ensures multiset(hand) == Buckets(hand)
  {
    if hand != [] {
      var prefix, last := hand[..|hand| - 1], hand[|hand| - 1];
      GroupsPartition(prefix);
      assert hand == prefix + [last];
      assert multiset(hand) == multiset(prefix) + multiset{last};
      OfGroupLast(hand, 0);
      OfGroupLast(hand, 1);
      OfGroupLast(hand, 2);
      OfGroupLast(hand, 3);
      OfGroupLast(hand, 4);
      BucketsGrow(multiset(OfGroup(prefix, 0)), multiset(OfGroup(prefix, 1)),
        multiset(OfGroup(prefix, 2)), multiset(OfGroup(prefix, 3)), multiset(OfGroup(prefix, 4)),
        multiset(OfGroup(hand, 0)), multiset(OfGroup(hand, 1)), multiset(OfGroup(hand, 2)),
        multiset(OfGroup(hand, 3)), multiset(OfGroup(hand, 4)), multiset{last}, Group(last));
    }
  }

  lemma OfLittleLast(js: seq<Card>, little: bool)
    requires js != []
    ensures multiset(OfLittle(js, little)) == multiset(OfLittle(js[..|js| - 1], little))
      + if (js[|js| - 1].rank == LittleJoker) == little then multiset{js[|js| - 1]} else multiset{}
  {
  }

  /** Adding one card to one of two buckets adds it to their union. */
  lemma PairGrows(a: multiset<Card>, b: multiset<Card>, a': multiset<Card>, b': multiset<Card>,
                  one: multiset<Card>, toFirst: bool)
    requires a' == a + if toFirst then one else multiset{}
    requires b' == b + if toFirst then multiset{} else one
    ensures a' + b' == a + b + one
  {
  }

  lemma {:induction false} LittlePartition(js: seq<Card>)
    ensures multiset(js) == multiset(OfLittle(js, true)) + multiset(OfLittle(js, false))
  {
    if js != [] {
      var prefix, last := js[..|js| - 1], js[|js| - 1];
      LittlePartition(prefix);
      assert js == prefix + [last];
      assert multiset(js) == multiset(prefix) + multiset{last};
      OfLittleLast(js, true);
      OfLittleLast(js, false);
      PairGrows(multiset(OfLittle(prefix, true)), multiset(OfLittle(prefix, false)),
        multiset(OfLittle(js, true)), multiset(OfLittle(js, false)), multiset{last},
        last.rank == LittleJoker);
    }
  }

  lemma ConcatSorted(a: seq<Card>, b: seq<Card>, lo: nat, mid: nat, hi: nat)
    requires lo <= mid < hi
    requires Ordered(a) && Ordered(b) && KeysIn(a, lo, mid) && KeysIn(b, mid + 1, hi)
    ensures Ordered(a + b) && KeysIn(a + b, lo, hi)
  {
    forall i, j | 0 <= i < j < |a + b|
      ensures DisplayKey((a + b)[i]) <= DisplayKey((a + b)[j])
      ensures (a + b)[i].suit == (a + b)[j].suit && (a + b)[i].suit != TrumpPlaceholder ==>
        RankIndex((a + b)[i].rank) <= RankIndex((a + b)[j].rank)
    {
      if j < |a| {
      } else if i >= |a| {
        assert (a + b)[i] == b[i - |a|] && (a + b)[j] == b[j - |a|];
      } else {
        assert (a + b)[i] == a[i] && (a + b)[j] == b[j - |a|];
      }
    }
    forall i | 0 <= i < |a + b| ensures lo <= DisplayKey((a + b)[i]) <= hi {
      if i >= |a| {
        assert (a + b)[i] == b[i - |a|];
      }
    }
  }

  /** sortHand returns a permutation of the hand. */
  lemma ArrangeIsPermutation(hand: seq<Card>)
    ensures multiset(Arrange(hand)) == multiset(hand)
  {
    GroupsPartition(hand);
    LittlePartition(OfGroup(hand, 4));
  }

  /** sortHand groups the hand Hearts, Clubs, Diamonds, Spades, then the rest, puts every Little
      Joker of the rest before any other card of it (the Big Joker); Arrange (the model's choice)
      also sorts each suit by rank. */
  lemma ArrangeIsDisplaySorted(hand: seq<Card>)
    ensures DisplaySorted(Arrange(hand)) && SuitsAscending(Arrange(hand))
  {
    SortedBucket(hand, 0);
    SortedBucket(hand, 1);
    SortedBucket(hand, 2);
    SortedBucket(hand, 3);
    SortedRest(hand, true);
    SortedRest(hand, false);
    var h, c := SortByRank(OfGroup(hand, 0)), SortByRank(OfGroup(hand, 1));
    var d, s := SortByRank(OfGroup(hand, 2)), SortByRank(OfGroup(hand, 3));
    var little, other := OfLittle(OfGroup(hand, 4), true), OfLittle(OfGroup(hand, 4), false);
    ConcatSorted(h, c, 0, 0, 1);
    ConcatSorted(h + c, d, 0, 1, 2);
    ConcatSorted(h + c + d, s, 0, 2, 3);
    ConcatSorted(little, other, 4, 4, 5);
    ConcatSorted(h + c + d + s, little + other, 0, 3, 5);
  }

  /** Rank order within every natural suit gives what the source promises for number-only suits. */
  lemma NumberSuitsFollow(h: seq<Card>)
    requires SuitsAscending(h)
    ensures NumberSuitsAscending(h)
  {
  }

  /** A suit of number cards is sorted ascending: 7 and 2 of Hearts become 2, 7. */
  lemma NumberSuitExample()
    ensures SortByRank([Card(Seven, Hearts), Card(Two, Hearts)]) == [Card(Two, Hearts), Card(Seven, Hearts)]
  {
    var seven, two := Card(Seven, Hearts), Card(Two, Hearts);
    assert [seven, two][1..] == [two] && [two][1..] == [];
    assert SortByRank([two]) == [two];
    assert InsertByRank(seven, [two]) == [two] + InsertByRank(seven, []);
  }
}
