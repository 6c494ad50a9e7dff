/** Trick resolution: the left-to-right scan of Trick.getWinner (cardgame.js:74-101). */
module Tricks {
  import opened Cards

  /** One `{player, card}` entry of a trick. */
  datatype Play<P> = Play(player: P, card: Card)

  /** One iteration of the scan: the running winner after the candidate `cand` is looked at. */
  function Step<P>(best: Play<P>, cand: Play<P>, trump: Suit): (w: Play<P>)
    ensures w == best || w == cand
  {
    if IsJoker(cand.card) && IsJoker(best.card) then
      (if cand.card.rank == BigJoker then cand else best)
    else if IsJoker(cand.card) then cand
    else if IsJoker(best.card) then best
    else if cand.card.suit == trump && best.card.suit == trump then
      (if RankIndex(cand.card.rank) > RankIndex(best.card.rank) then cand else best)
    else if cand.card.suit == trump && best.card.suit != trump then cand
    else if cand.card.suit == best.card.suit && RankIndex(cand.card.rank) > RankIndex(best.card.rank) then cand
    else best
  }

  /** The running winner after scanning `plays`, starting from `start`. */
  function Scan<P>(start: Play<P>, plays: seq<Play<P>>, trump: Suit): (w: Play<P>)
    ensures w == start || w in plays
  {
    if plays == [] then start
    else Step(Scan(start, plays[..|plays| - 1], trump), plays[|plays| - 1], trump)
  }

  /** The winning play of a non-empty trick: the scan over all plays, starting from the first. */
  function WinningPlay<P>(plays: seq<Play<P>>, trump: Suit): (w: Play<P>)
    requires |plays| > 0
    ensures w in plays
  {
    Scan(plays[0], plays, trump)
  }

  predicate NoJokers<P>(plays: seq<Play<P>>) {
    forall k :: 0 <= k < |plays| ==> !IsJoker(plays[k].card)
  }

  predicate HasSuit<P>(plays: seq<Play<P>>, s: Suit) {
    exists k :: 0 <= k < |plays| && plays[k].card.suit == s
  }

  /** `w` ranks at least as high as every card of suit `s` in `plays`. */
  predicate Tops<P>(w: Play<P>, plays: seq<Play<P>>, s: Suit) {
    forall k :: 0 <= k < |plays| && plays[k].card.suit == s ==>
      RankIndex(plays[k].card.rank) <= RankIndex(w.card.rank)
  }

  lemma {:induction false} ScanAppend<P>(start: Play<P>, a: seq<Play<P>>, b: seq<Play<P>>, trump: Suit)
    ensures Scan(start, a + b, trump) == Scan(Scan(start, a, trump), b, trump)
  {
    if b == [] {
      assert a + b == a;
    } else {
      var b' := b[..|b| - 1];
      assert (a + b)[..|a + b| - 1] == a + b';
      assert (a + b)[|a + b| - 1] == b[|b| - 1];
      ScanAppend(start, a, b', trump);
    }
  }

  /** Once a joker is winning, only a Big Joker can take over. */
  lemma {:induction false} ScanKeepsJoker<P>(start: Play<P>, plays: seq<Play<P>>, trump: Suit)
    requires IsJoker(start.card)
    requires forall k :: 0 <= k < |plays| ==> plays[k].card.rank != BigJoker
    ensures Scan(start, plays, trump) == start
  {
    if plays != [] {
      ScanKeepsJoker(start, plays[..|plays| - 1], trump);
    }
  }

  /** The player of the last Big Joker in the trick wins (a single deck holds one Big Joker). */
  lemma BigJokerWins<P>(plays: seq<Play<P>>, trump: Suit, i: nat)
    requires i < |plays| && plays[i].card.rank == BigJoker
    requires forall k :: i < k < |plays| ==> plays[k].card.rank != BigJoker
    ensures WinningPlay(plays, trump) == plays[i]
  {
    var a, b := plays[..i + 1], plays[i + 1..];
    assert plays == a + b;
    ScanAppend(plays[0], a, b, trump);
    assert a[..|a| - 1] == plays[..i];
    assert Scan(plays[0], a, trump) == plays[i];
    ScanKeepsJoker(plays[i], b, trump);
  }

  /** Without a Big Joker, the player of the first Little Joker in the trick wins. */
  lemma LittleJokerWins<P>(plays: seq<Play<P>>, trump: Suit, i: nat)
    requires i < |plays| && plays[i].card.rank == LittleJoker
    requires forall k :: 0 <= k < |plays| ==> plays[k].card.rank != BigJoker
    requires forall k :: 0 <= k < i ==> !IsJoker(plays[k].card)
    ensures WinningPlay(plays, trump) == plays[i]
  {
    var a, b := plays[..i + 1], plays[i + 1..];
    assert plays == a + b;
    ScanAppend(plays[0], a, b, trump);
    assert a[..|a| - 1] == plays[..i];
    var before := Scan(plays[0], plays[..i], trump);
    assert i > 0 ==> !IsJoker(before.card);
    assert Scan(plays[0], a, trump) == plays[i];
    ScanKeepsJoker(plays[i], b, trump);
  }

  lemma TopsSnoc<P>(w: Play<P>, prefix: seq<Play<P>>, c: Play<P>, s: Suit)
    ensures Tops(w, prefix + [c], s) <==>
      Tops(w, prefix, s) && (c.card.suit == s ==> RankIndex(c.card.rank) <= RankIndex(w.card.rank))
  {
    var plays := prefix + [c];
    if Tops(w, prefix, s) && (c.card.suit == s ==> RankIndex(c.card.rank) <= RankIndex(w.card.rank)) {
      forall k | 0 <= k < |plays| && plays[k].card.suit == s
        ensures RankIndex(plays[k].card.rank) <= RankIndex(w.card.rank)
      {
        if k < |prefix| {
          assert plays[k] == prefix[k];
        }
      }
    }
    if Tops(w, plays, s) {
      assert plays[|prefix|] == c;
      forall k | 0 <= k < |prefix| && prefix[k].card.suit == s
        ensures RankIndex(prefix[k].card.rank) <= RankIndex(w.card.rank)
      {
        assert plays[k] == prefix[k];
      }
    }
  }

  lemma HasSuitSnoc<P>(prefix: seq<Play<P>>, c: Play<P>, s: Suit)
    ensures HasSuit(prefix + [c], s) <==> HasSuit(prefix, s) || c.card.suit == s
  {
    var plays := prefix + [c];
    assert plays[|prefix|] == c;
    if HasSuit(prefix, s) {
      var k :| 0 <= k < |prefix| && prefix[k].card.suit == s;
      assert plays[k] == prefix[k];
    }
    if HasSuit(plays, s) {
      var k :| 0 <= k < |plays| && plays[k].card.suit == s;
      if k < |prefix| {
        assert plays[k] == prefix[k];
      }
    }
  }

  /** What the scan over joker-free plays has established: the highest trump is winning if a
      trump was seen, otherwise the highest card of the starting card's suit. */
  predicate JokerFreeWinner<P>(start: Play<P>, plays: seq<Play<P>>, w: Play<P>, trump: Suit) {
    !IsJoker(w.card) &&
    if start.card.suit == trump || HasSuit(plays, trump) then
      w.card.suit == trump && Tops(w, plays, trump) &&
      (start.card.suit == trump ==> RankIndex(start.card.rank) <= RankIndex(w.card.rank))
    else
      w.card.suit == start.card.suit && Tops(w, plays, start.card.suit) &&
      RankIndex(start.card.rank) <= RankIndex(w.card.rank)
  }

  /** One step of the scan over a joker-free card keeps JokerFreeWinner. */
  lemma StepWithoutJokers<P>(start: Play<P>, prefix: seq<Play<P>>, w: Play<P>, c: Play<P>, trump: Suit)
    requires !IsJoker(start.card) && !IsJoker(c.card)
    requires JokerFreeWinner(start, prefix, w, trump)
    ensures JokerFreeWinner(start, prefix + [c], Step(w, c, trump), trump)
  {
    var w' := Step(w, c, trump);
    HasSuitSnoc(prefix, c, trump);
    TopsSnoc(w', prefix, c, trump);
    TopsSnoc(w', prefix, c, start.card.suit);
    if w' != w {
      if start.card.suit == trump || HasSuit(prefix, trump) {
        TopsRaise(w, w', prefix, trump);
      } else if c.card.suit != trump {
        TopsRaise(w, w', prefix, start.card.suit);
      } else {
        assert forall k :: 0 <= k < |prefix| ==> prefix[k].card.suit != trump;
      }
    }
  }

  lemma TopsRaise<P>(w: Play<P>, w': Play<P>, plays: seq<Play<P>>, s: Suit)
    requires Tops(w, plays, s) && RankIndex(w.card.rank) <= RankIndex(w'.card.rank)
    ensures Tops(w', plays, s)
  {
  }

  /** The scan over joker-free plays: the highest trump wins if there is one, otherwise
      the highest card of the starting card's suit. */
  lemma {:induction false} ScanWithoutJokers<P>(start: Play<P>, plays: seq<Play<P>>, trump: Suit)
    requires !IsJoker(start.card) && NoJokers(plays)
    ensures JokerFreeWinner(start, plays, Scan(start, plays, trump), trump)
  {
    if plays != [] {
      var prefix, c := plays[..|plays| - 1], plays[|plays| - 1];
      assert plays == prefix + [c];
      assert NoJokers(prefix) by {
        forall k | 0 <= k < |prefix| ensures !IsJoker(prefix[k].card) {
          assert prefix[k] == plays[k];
        }
      }
      ScanWithoutJokers(start, prefix, trump);
      StepWithoutJokers(start, prefix, Scan(start, prefix, trump), c, trump);
    }
  }

  /** With no jokers and at least one trump card, the highest-ranked trump card wins. */
  lemma HighestTrumpWins<P>(plays: seq<Play<P>>, trump: Suit)
    requires |plays| > 0 && NoJokers(plays) && HasSuit(plays, trump)
    ensures WinningPlay(plays, trump).card.suit == trump
    ensures Tops(WinningPlay(plays, trump), plays, trump)
  {
    ScanWithoutJokers(plays[0], plays, trump);
  }

  /** With no jokers and no trump card, the highest-ranked card of the led suit wins. */
  lemma HighestLedWins<P>(plays: seq<Play<P>>, trump: Suit)
    requires |plays| > 0 && NoJokers(plays) && !HasSuit(plays, trump)
    ensures WinningPlay(plays, trump).card.suit == plays[0].card.suit
    ensures Tops(WinningPlay(plays, trump), plays, plays[0].card.suit)
  {
    ScanWithoutJokers(plays[0], plays, trump);
  }

  /** A non-joker, non-trump card of another suit never displaces the running winner. */
  lemma OffSuitNeverTakes<P>(best: Play<P>, cand: Play<P>, trump: Suit)
    requires !IsJoker(best.card) && !IsJoker(cand.card)
    requires cand.card.suit != trump && cand.card.suit != best.card.suit
    ensures Step(best, cand, trump) == best
  {
  }

  /** 2 of Hearts led, then Big Joker, Ace of Hearts, Little Joker, Spades trump: the Big Joker wins. */
  lemma JokerPrecedenceExample()
    ensures WinningPlay([Play(1, Card(Two, Hearts)), Play(2, Card(BigJoker, TrumpPlaceholder)),
                         Play(3, Card(Ace, Hearts)), Play(4, Card(LittleJoker, TrumpPlaceholder))],
                        Spades).player == 2
  {
    var plays := [Play(1, Card(Two, Hearts)), Play(2, Card(BigJoker, TrumpPlaceholder)),
                  Play(3, Card(Ace, Hearts)), Play(4, Card(LittleJoker, TrumpPlaceholder))];
    BigJokerWins(plays, Spades, 1);
  }

  /** Ace of Hearts led, then 2 of Spades and King of Hearts, Spades trump: the lowest trump wins. */
  lemma TrumpPrecedenceExample()
    ensures WinningPlay([Play(1, Card(Ace, Hearts)), Play(2, Card(Two, Spades)),
                         Play(3, Card(King, Hearts))], Spades).player == 2
  {
    var plays := [Play(1, Card(Ace, Hearts)), Play(2, Card(Two, Spades)), Play(3, Card(King, Hearts))];
    assert plays[1].card.suit == Spades;
    HighestTrumpWins(plays, Spades);
  }
}
