/** The stateful bookkeeping classes of cardgame.js: Trick (57-116), Player (118-450)
    and Team (452-482). */
module Table {
  import opened Cards
  import opened Tricks
  import opened Hands

  datatype TrickError = EmptyTrick

  /** Why one answer to the card prompt of selectCard is rejected. */
  datatype SelectionError = IndexOutOfRange | MustFollowSuit

  /** The cards played so far in the current trick, in play order. */
  class Trick {
    var pcps: seq<Play<Player>>

    constructor ()
      ensures pcps == [] && IsEmpty()
    {
      pcps := [];
    }

    method AddCard(player: Player, card: Card)
      modifies this
      ensures pcps == old(pcps) + [Play(player, card)]
      ensures !IsEmpty()
    {
      pcps := pcps + [Play(player, card)];
    }

    method Clear()
      modifies this
      ensures pcps == [] && IsEmpty()
    {
      pcps := [];
    }

    /** True exactly when no card has been played into the trick. */
    function IsEmpty(): (empty: bool)
      reads this
      ensures empty <==> pcps == []
    {
      |pcps| == 0
    }

    /** The player who wins the trick; an empty trick is an error (the source dereferences
        `this.pcps[0]`, which is undefined, and throws). */
    method GetWinner(trump: Suit) returns (r: Result<Player, TrickError>)
      ensures pcps == [] ==> r == Err(EmptyTrick)
      ensures pcps != [] ==> r == Ok(WinningPlay(pcps, trump).player)
      ensures r.Err? <==> IsEmpty()
    {
      if |pcps| == 0 {
        return Err(EmptyTrick);
      }
      var winning := pcps[0];
      for k := 0 to |pcps|
        invariant winning == Scan(pcps[0], pcps[..k], trump)
      {
        var pcp := pcps[k];
        assert pcps[..k + 1][..k] == pcps[..k];
        if IsJoker(pcp.card) && IsJoker(winning.card) {
          if pcp.card.rank == BigJoker {
            winning := pcp;
          }
        } else if IsJoker(pcp.card) {
          winning := pcp;
        } else if IsJoker(winning.card) {
          continue;
        } else if pcp.card.suit == trump && winning.card.suit == trump {
          if RankIndex(pcp.card.rank) > RankIndex(winning.card.rank) {
            winning := pcp;
          }
        } else if pcp.card.suit == trump && winning.card.suit != trump {
          winning := pcp;
        } else if pcp.card.suit == winning.card.suit && RankIndex(pcp.card.rank) > RankIndex(winning.card.rank) {
          winning := pcp;
        }
      }
      assert pcps[..|pcps|] == pcps;
      return Ok(winning.player);
    }
  }

  /** A seat at the table: a name, the cards in hand and the tricks taken. */
  class Player {
    const name: string
    const isAI: bool
    var hand: seq<Card>
    var tricks: seq<Trick>

    constructor (name: string, hand: seq<Card>, isAI: bool)
      ensures this.name == name && this.hand == hand && this.isAI == isAI && tricks == []
    {
      this.name := name;
      this.hand := hand;
      this.isAI := isAI;
      tricks := [];
    }

    method Reset()
      modifies this
      ensures hand == [] && tricks == []
    {
      hand := [];
      tricks := [];
    }

    method AddCard(card: Card)
      modifies this
      ensures hand == old(hand) + [card] && tricks == old(tricks)
    {
      hand := hand + [card];
    }

    /** Partitions the hand into Hearts, Clubs, Diamonds, Spades and the rest, sorts each suit
        by rank and the rest Little Joker first, and concatenates the buckets in that order. */
    method SortHand()
      modifies this
      ensures tricks == old(tricks)
      ensures multiset(hand) == multiset(old(hand))
      ensures DisplaySorted(hand) && NumberSuitsAscending(hand)
    {
      var hearts, clubs, diamonds, spades, jokers := Bucket(hand);
      hearts := SortByRank(hearts);
      clubs := SortByRank(clubs);
      diamonds := SortByRank(diamonds);
      spades := SortByRank(spades);
      jokers := LittleFirst(jokers);
      ArrangeIsPermutation(hand);
      ArrangeIsDisplaySorted(hand);
      NumberSuitsFollow(Arrange(hand));
      hand := hearts + clubs + diamonds + spades + jokers;
    }

    /** One answer `i` to the card prompt of selectCard: an index outside the hand or a card
        that does not follow suit is rejected; otherwise the card is spliced out and returned. */
    method PlayCard(i: int, trick: Trick) returns (r: Result<Card, SelectionError>)
      modifies this
      ensures tricks == old(tricks)
      ensures !(0 <= i < |old(hand)|) ==> r == Err(IndexOutOfRange) && hand == old(hand)
      ensures 0 <= i < |old(hand)| && !IsValidSelection(old(hand)[i], trick.pcps, old(hand)) ==>
        r == Err(MustFollowSuit) && hand == old(hand)
      ensures 0 <= i < |old(hand)| && IsValidSelection(old(hand)[i], trick.pcps, old(hand)) ==>
        r == Ok(old(hand)[i]) && hand == RemoveAt(old(hand), i)
      ensures r.Ok? ==> multiset(old(hand)) == multiset(hand) + multiset{r.value}
    {
      if i < 0 || i >= |hand| {
        return Err(IndexOutOfRange);
      }
      if !IsValidSelection(hand[i], trick.pcps, hand) {
        return Err(MustFollowSuit);
      }
      r := Ok(hand[i]);
      hand := RemoveAt(hand, i);
    }
  }

  /** A partnership of two players with the tricks it has taken this hand and its game score. */
  class Team {
    const player1: Player
    const player2: Player
    var tricks: seq<Trick>
    var score: int

    constructor (player1: Player, player2: Player)
      ensures this.player1 == player1 && this.player2 == player2
      ensures tricks == [] && score == 0
      ensures IsOnTeam(player1) && IsOnTeam(player2)
    {
      this.player1 := player1;
      this.player2 := player2;
      tricks := [];
      score := 0;
    }

    /** Starts a new hand: the team's tricks and both players' hands and tricks are emptied;
        the score is kept. */
    method Reset()
      modifies this, player1, player2
      ensures tricks == [] && score == old(score)
      ensures player1.hand == [] && player1.tricks == []
      ensures player2.hand == [] && player2.tricks == []
    {
      tricks := [];
      player1.Reset();
      player2.Reset();
    }

    method AddTrick(trick: Trick)
      modifies this
      ensures tricks == old(tricks) + [trick] && score == old(score)
    {
      tricks := tricks + [trick];
    }

    method AddScore(points: int)
      modifies this
      ensures score == old(score) + points && tricks == old(tricks)
    {
      score := score + points;
    }

    /** Whether `player` is one of the team's two players (by identity). */
    function IsOnTeam(player: Player): (member: bool)
      ensures member <==> player == player1 || player == player2
    {
      player1 == player || player2 == player
    }
  }

  /** Two teams seated from four distinct players: each of the four is on exactly one team. */
  lemma TeamsPartition(t1: Team, t2: Team, p: Player)
    requires t1.player1 != t1.player2 && t2.player1 != t2.player2
    requires t1.player1 != t2.player1 && t1.player1 != t2.player2
    requires t1.player2 != t2.player1 && t1.player2 != t2.player2
    requires p == t1.player1 || p == t1.player2 || p == t2.player1 || p == t2.player2
    ensures t1.IsOnTeam(p) != t2.IsOnTeam(p)
  {
  }
}
