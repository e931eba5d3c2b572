/** Option, for lookups that may miss. */
module Wrappers {
  datatype Option<+T> = None | Some(value: T)
}

/**
  Cards of the French 52-card deck as the game sees them: a suit, a rank,
  and the three numeric projections the rules use (src/index.ts:105-142).
 */
module Cards {

  datatype Suit = Spade | Heart | Club | Diamond

  datatype Rank = Ace | Two | Three | Four | Five | Six | Seven | Eight | Nine | Ten | Jack | Queen | King

  datatype Card = Card(suit: Suit, rank: Rank)

  /** Suits in the order `Object.values(Suit)` yields them. */
  const Suits: seq<Suit> := [Spade, Heart, Club, Diamond]

  /** Ranks in the order `Object.values(Rank)` yields them. */
  const Ranks: seq<Rank> := [Ace, Two, Three, Four, Five, Six, Seven, Eight, Nine, Ten, Jack, Queen, King]

  /** SUIT_WEIGHT: the second-level tie-break, spade highest. */
  function SuitWeight(s: Suit): nat {
    match s
    case Spade => 4
    case Heart => 3
    case Club => 2
    case Diamond => 1
  }

  /** RANK_VALUE: A=1 ... K=13, the first-level tie-break. */
  function RankValue(r: Rank): nat {
    match r
    case Ace => 1
    case Two => 2
    case Three => 3
    case Four => 4
    case Five => 5
    case Six => 6
    case Seven => 7
    case Eight => 8
    case Nine => 9
    case Ten => 10
    case Jack => 11
    case Queen => 12
    case King => 13
  }

  /** CARD_POINT: face value for A..10, ten for the court cards. */
  function CardPoint(r: Rank): (p: nat)
    ensures 1 <= p <= 10
    ensures p == if RankValue(r) > 10 then 10 else RankValue(r)
  {
    match r
    case Ace => 1
    case Two => 2
    case Three => 3
    case Four => 4
    case Five => 5
    case Six => 6
    case Seven => 7
    case Eight => 8
    case Nine => 9
    case Ten => 10
    case Jack => 10
    case Queen => 10
    case King => 10
  }

  /** Position of a suit in `Suits`. */
  function SuitIndex(s: Suit): (k: nat)
    ensures k < |Suits| && Suits[k] == s
  {
    match s
    case Spade => 0
    case Heart => 1
    case Club => 2
    case Diamond => 3
  }

  /** Position of a rank in `Ranks`. */
  function RankIndex(r: Rank): (k: nat)
    ensures k < |Ranks| && Ranks[k] == r
    ensures k == RankValue(r) - 1
  {
    RankValue(r) - 1
  }

  /** `Suits` and `Ranks` list every suit and rank exactly once: the positions round-trip. */
  lemma IndicesRoundTrip()
    ensures forall k :: 0 <= k < |Suits| ==> SuitIndex(Suits[k]) == k
    ensures forall k :: 0 <= k < |Ranks| ==> RankIndex(Ranks[k]) == k
  {
  }

  /** `x` beats `y` under the order calculateMaxCard uses: rank value first, then suit weight. */
  predicate Stronger(x: Card, y: Card) {
    RankValue(x.rank) > RankValue(y.rank)
    || (RankValue(x.rank) == RankValue(y.rank) && SuitWeight(x.suit) > SuitWeight(y.suit))
  }

  /** The two weights are injective, so the tie-break pair identifies a card. */
  lemma WeightsIdentifyCard(x: Card, y: Card)
    ensures RankValue(x.rank) == RankValue(y.rank) && SuitWeight(x.suit) == SuitWeight(y.suit) <==> x == y
  {
    if RankValue(x.rank) == RankValue(y.rank) {
      assert RankIndex(x.rank) == RankIndex(y.rank);
      assert x.rank == Ranks[RankIndex(x.rank)] == y.rank;
    }
  }

  /** `Stronger` is a strict total order on cards. */
  lemma StrongerIsStrictTotalOrder(x: Card, y: Card, z: Card)
    ensures !Stronger(x, x)
    ensures Stronger(x, y) ==> !Stronger(y, x)
    ensures Stronger(x, y) && Stronger(y, z) ==> Stronger(x, z)
    ensures x == y || Stronger(x, y) || Stronger(y, x)
  {
    WeightsIdentifyCard(x, y);
  }
}
