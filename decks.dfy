/** The deck: building the 54 cards, the Fisher-Yates shuffle and dealing (cardgame.js:24-55). */
module Decks {
  import opened Cards

  const LittleJokerCard := Card(LittleJoker, TrumpPlaceholder)
  const BigJokerCard := Card(BigJoker, TrumpPlaceholder)

  /** The thirteen cards of one suit in rank order: one run of the inner loop of initializeDeck. */
  function SuitRun(s: Suit): seq<Card> {
    seq(|Ranks|, r requires 0 <= r < |Ranks| => Card(Ranks[r], s))
  }

  /** The cards pushed by the first `n` runs of the outer loop of initializeDeck. */
  function SuitRuns(n: nat): (cards: seq<Card>)
    requires n <= |Suits|
    ensures |cards| == 13 * n
  {
    if n == 0 then [] else SuitRuns(n - 1) + SuitRun(Suits[n - 1])
  }

  /** The cards initializeDeck appends: 13 ranks of each suit, suit-major, then the two jokers. */
  function StandardDeck(): (deck: seq<Card>)
    ensures |deck| == 54
  {
    SuitRuns(|Suits|) + [LittleJokerCard, BigJokerCard]
  }

  /** Where a card sits in the standard deck: 13 * suit index + rank index, jokers at 52 and 53. */
  function DeckPosition(c: Card): (p: int)
    ensures c.suit in Suits && !IsJoker(c) ==> 0 <= p < 52
  {
    if c == LittleJokerCard then 52
    else if c == BigJokerCard then 53
    else if IsJoker(c) || c.suit == TrumpPlaceholder then -1
    else 13 * SuitIndex(c.suit) + RankIndex(c.rank)
  }

  /** `suits.indexOf(s)` for a natural suit. */
  function SuitIndex(s: Suit): nat
    requires s != TrumpPlaceholder
  {
    match s
    case Hearts => 0
    case Clubs => 1
    case Diamonds => 2
    case Spades => 3
  }

  lemma {:induction false} SuitRunsPositions(n: nat)
    requires n <= |Suits|
    ensures forall i :: 0 <= i < |SuitRuns(n)| ==> DeckPosition(SuitRuns(n)[i]) == i
  {
    if n > 0 {
      SuitRunsPositions(n - 1);
      var prev, run := SuitRuns(n - 1), SuitRun(Suits[n - 1]);
      forall i | 0 <= i < |SuitRuns(n)|
        ensures DeckPosition(SuitRuns(n)[i]) == i
      {
        if i >= |prev| {
          var r := i - |prev|;
          assert SuitRuns(n)[i] == run[r] == Card(Ranks[r], Suits[n - 1]);
          assert RankIndex(Ranks[r]) == r;
        }
      }
    }
  }

  /** The first `n` cards of a suit run, and one more. */
  lemma SuitRunPrefix(s: Suit, n: nat)
    requires n <= |Ranks|
    ensures n < |Ranks| ==> SuitRun(s)[..n + 1] == SuitRun(s)[..n] + [Card(Ranks[n], s)]
    ensures n == |Ranks| ==> SuitRun(s)[..n] == SuitRun(s)
  {
  }

  /** One more run of the outer loop of initializeDeck appends the next suit's run. */
  lemma SuitRunsNext(start: seq<Card>, n: nat)
    requires n < |Suits|
    ensures start + SuitRuns(n) + SuitRun(Suits[n]) == start + SuitRuns(n + 1)
  {
  }

  /** Every card of the standard deck sits at its own DeckPosition; so no card occurs twice. */
  lemma StandardDeckPositions()
    ensures |StandardDeck()| == 54
    ensures forall i :: 0 <= i < 54 ==> DeckPosition(StandardDeck()[i]) == i
    ensures forall i, j :: 0 <= i < j < 54 ==> StandardDeck()[i] != StandardDeck()[j]
  {
    SuitRunsPositions(|Suits|);
    var d := StandardDeck();
    assert d[52] == LittleJokerCard && d[53] == BigJokerCard;
    forall i | 0 <= i < 54 ensures DeckPosition(d[i]) == i {
      if i < 52 {
        assert d[i] == SuitRuns(|Suits|)[i];
      }
    }
  }

  /** The card at index 13 * s + r of the standard deck is the r-th rank of the s-th suit,
      and the two jokers, both of suit 'Trump', close the deck with the Little Joker first. */
  lemma {:induction false} StandardDeckAt(s: nat, r: nat)
    requires s < |Suits| && r < |Ranks|
    ensures |StandardDeck()| == 54
    ensures StandardDeck()[13 * s + r] == Card(Ranks[r], Suits[s])
    ensures StandardDeck()[52] == LittleJokerCard && StandardDeck()[53] == BigJokerCard
  {
    SuitRunsAt(|Suits|, s, r);
  }

  lemma {:induction false} SuitRunsAt(n: nat, s: nat, r: nat)
    requires n <= |Suits| && s < n && r < |Ranks|
    ensures SuitRuns(n)[13 * s + r] == Card(Ranks[r], Suits[s])
  {
    if s < n - 1 {
      SuitRunsAt(n - 1, s, r);
    }
  }

  /** The standard deck holds exactly the 52 natural cards and the two 'Trump' jokers. */
  lemma StandardDeckMembers(c: Card)
    ensures c in StandardDeck() <==>
      (!IsJoker(c) && c.suit in Suits) || c == LittleJokerCard || c == BigJokerCard
  {
    StandardDeckPositions();
    var d := StandardDeck();
    if !IsJoker(c) && c.suit in Suits {
      var s, r := SuitIndex(c.suit), RankIndex(c.rank);
      StandardDeckAt(s, r);
      assert d[13 * s + r] == c;
    }
    if c in d {
      var i :| 0 <= i < |d| && d[i] == c;
      if i < 52 {
        var s, r := i / 13, i % 13;
        StandardDeckAt(s, r);
      }
    }
  }

  /** `[a[i], a[j]] = [a[j], a[i]]`. */
  function Swap(s: seq<Card>, i: nat, j: nat): (t: seq<Card>)
    requires i < |s| && j < |s|
    ensures |t| == |s| && t[i] == s[j] && t[j] == s[i]
    ensures forall k :: 0 <= k < |s| && k != i && k != j ==> t[k] == s[k]
  {
    s[i := s[j]][j := s[i]]
  }

  /** The random indices the shuffle draws: the one used at step i lies in [0, i]. */
  predicate ValidPicks(picks: seq<nat>, n: nat) {
    |picks| == n && forall i :: 0 < i < n ==> picks[i] <= i
  }

  /** The deck after the shuffle loop has run its steps i, i - 1, ..., 1 on `s`. */
  function ShuffledFrom(s: seq<Card>, picks: seq<nat>, i: int): (r: seq<Card>)
    requires ValidPicks(picks, |s|) && i < |s|
    ensures |r| == |s|
    decreases i
  {
    if i <= 0 then s else ShuffledFrom(Swap(s, i, picks[i]), picks, i - 1)
  }

  /** The whole Fisher-Yates shuffle of `s` with random indices `picks`. */
  function Shuffled(s: seq<Card>, picks: seq<nat>): seq<Card>
    requires ValidPicks(picks, |s|)
  {
    ShuffledFrom(s, picks, |s| - 1)
  }

  /** Every shuffle is a permutation of the deck it started from. */
  lemma {:induction false} ShuffledFromIsPermutation(s: seq<Card>, picks: seq<nat>, i: int)
    requires ValidPicks(picks, |s|) && i < |s|
    ensures |ShuffledFrom(s, picks, i)| == |s|
    ensures multiset(ShuffledFrom(s, picks, i)) == multiset(s)
    decreases i
  {
    if i > 0 {
      var t := Swap(s, i, picks[i]);
      SwapIsPermutation(s, i, picks[i]);
      ShuffledFromIsPermutation(t, picks, i - 1);
    }
  }

  lemma SwapIsPermutation(s: seq<Card>, i: nat, j: nat)
    requires i < |s| && j < |s|
    ensures |Swap(s, i, j)| == |s| && multiset(Swap(s, i, j)) == multiset(s)
  {
    var t := s[i := s[j]];
    assert multiset(t) == multiset(s) - multiset{s[i]} + multiset{s[j]};
  }

  lemma ShuffledIsPermutation(s: seq<Card>, picks: seq<nat>)
    requires ValidPicks(picks, |s|)
    ensures |Shuffled(s, picks)| == |s|
    ensures multiset(Shuffled(s, picks)) == multiset(s)
  {
    ShuffledFromIsPermutation(s, picks, |s| - 1);
  }

  datatype DeckError = EmptyDeck

  /** A deck of cards; `cards` is the remaining cards, the last one on top. */
  class Deck {
    var cards: seq<Card>

    constructor ()
      ensures cards == []
    {
      cards := [];
    }

    /** Appends the 54 standard cards, suit-major then rank order, then the two jokers. */
    method InitializeDeck()
      modifies this
      ensures cards == old(cards) + StandardDeck()
    {
      var deck := cards;
      ghost var start := deck;
      for si := 0 to |Suits|
        invariant deck == start + SuitRuns(si)
      {
        var suit := Suits[si];
        ghost var before := deck;
        for ri := 0 to |Ranks|
          invariant deck == before + SuitRun(suit)[..ri]
        {
          SuitRunPrefix(suit, ri);
          deck := deck + [Card(Ranks[ri], suit)];
        }
        SuitRunPrefix(suit, |Ranks|);
        SuitRunsNext(start, si);
      }
      deck := deck + [Card(LittleJoker, TrumpPlaceholder)];
      deck := deck + [Card(BigJoker, TrumpPlaceholder)];
      cards := deck;
    }

    /** Fisher-Yates in place; `picks[i]` stands for `Math.floor(Math.random() * (i + 1))`. */
    method Shuffle(picks: seq<nat>)
      requires ValidPicks(picks, |cards|)
      modifies this
      ensures cards == Shuffled(old(cards), picks)
      ensures multiset(cards) == multiset(old(cards))
    {
      var i := |cards| - 1;
      while i > 0
        invariant i < |cards| == |old(cards)|
        invariant ShuffledFrom(cards, picks, i) == Shuffled(old(cards), picks)
      {
        var j := picks[i];
        cards := cards[i := cards[j]][j := cards[i]];
        i := i - 1;
      }
      ShuffledIsPermutation(old(cards), picks);
    }

    /** Pops the top (last) card; an empty deck is the error 'No cards left in the deck!'. */
    method DealCard() returns (r: Result<Card, DeckError>)
      modifies this
      ensures old(cards) == [] ==> r == Err(EmptyDeck) && cards == old(cards)
      ensures old(cards) != [] ==>
        r == Ok(old(cards)[|old(cards)| - 1]) && cards == old(cards)[..|old(cards)| - 1]
      ensures r.Ok? ==> old(cards) == cards + [r.value]
    {
      if |cards| == 0 {
        return Err(EmptyDeck);
      }
      r := Ok(cards[|cards| - 1]);
      cards := cards[..|cards| - 1];
    }
  }
}
