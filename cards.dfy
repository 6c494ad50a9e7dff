/** Cards, ranks and suits of the bid-whist engine (cardgame.js:4-22). */
module Cards {

  /** The thirteen ranks of cardgame.js:5, lowest first, and the two joker ranks the deck adds. */
  datatype Rank =
    | Two | Three | Four | Five | Six | Seven | Eight | Nine | Ten
    | Jack | Queen | King | Ace
    | LittleJoker | BigJoker

  /** The four suits of cardgame.js:6 and the placeholder suit 'Trump' that jokers are created with. */
  datatype Suit = Hearts | Clubs | Diamonds | Spades | TrumpPlaceholder

  datatype Card = Card(rank: Rank, suit: Suit)

  /** The rank list `ranks`, whose order is the rank order of the whole rule set. */
  const Ranks: seq<Rank> := [Two, Three, Four, Five, Six, Seven, Eight, Nine, Ten, Jack, Queen, King, Ace]

  /** The suit list `suits`, in the order the deck is built. */
  const Suits: seq<Suit> := [Hearts, Clubs, Diamonds, Spades]

  /** `card.rank.includes('Joker')`. */
  predicate IsJoker(c: Card) {
    c.rank == LittleJoker || c.rank == BigJoker
  }

  /** `ranks.indexOf(rank)`: the position of a rank in Ranks, or -1 for a joker rank. */
  function RankIndex(r: Rank): (i: int)
    ensures -1 <= i < |Ranks|
    ensures i == -1 <==> r == LittleJoker || r == BigJoker
    ensures 0 <= i ==> Ranks[i] == r
  {
    match r
    case Two => 0
    case Three => 1
    case Four => 2
    case Five => 3
    case Six => 4
    case Seven => 5
    case Eight => 6
    case Nine => 7
    case Ten => 8
    case Jack => 9
    case Queen => 10
    case King => 11
    case Ace => 12
    case LittleJoker => -1
    case BigJoker => -1
  }

  /** The outcome of an operation the source may abort with an exception. */
  datatype Result<T, E> = Ok(value: T) | Err(error: E)
}
