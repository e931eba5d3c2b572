/** The ordering of dealt hands: comparePlayers and the payout multiplier (src/index.ts:561-578). */
module Compare {
  import opened Cards
  import opened Players

  /**
    comparePlayers: positive when `a` is stronger. The score decides first; on
    equal scores the tie-break card decides, by the order calculateMaxCard uses.
   */
  function ComparePlayers(a: PlayerResult, b: PlayerResult): (r: int)
    ensures a.resultScore != b.resultScore ==> (r > 0 <==> a.resultScore > b.resultScore)
    ensures a.resultScore == b.resultScore ==>
      (r > 0 <==> Stronger(a.maxCard, b.maxCard)) && (r < 0 <==> Stronger(b.maxCard, a.maxCard))
  {
    if a.resultScore != b.resultScore then a.resultScore - b.resultScore
    else if RankValue(a.maxCard.rank) != RankValue(b.maxCard.rank) then RankValue(a.maxCard.rank) - RankValue(b.maxCard.rank)
    else SuitWeight(a.maxCard.suit) - SuitWeight(b.maxCard.suit)
  }

  /** The three comparison keys, most significant first. */
  function Key(p: PlayerResult): (int, int, int) {
    (p.resultScore, RankValue(p.maxCard.rank), SuitWeight(p.maxCard.suit))
  }

  /** Strict lexicographic order on key triples: the reference the comparator is checked against. */
  predicate LexGreater(x: (int, int, int), y: (int, int, int)) {
    x.0 > y.0 || (x.0 == y.0 && (x.1 > y.1 || (x.1 == y.1 && x.2 > y.2)))
  }

  /** comparePlayers is the lexicographic comparison of the keys, in both directions. */
  lemma CompareIsLexicographic(a: PlayerResult, b: PlayerResult)
    ensures ComparePlayers(a, b) > 0 <==> LexGreater(Key(a), Key(b))
    ensures ComparePlayers(a, b) < 0 <==> LexGreater(Key(b), Key(a))
    ensures ComparePlayers(a, b) == 0 <==> Key(a) == Key(b)
  {
  }

  /** Equal comparison means equal score and the very same tie-break card. */
  lemma CompareZeroIff(a: PlayerResult, b: PlayerResult)
    ensures ComparePlayers(a, b) == 0 <==> a.resultScore == b.resultScore && a.maxCard == b.maxCard
  {
    WeightsIdentifyCard(a.maxCard, b.maxCard);
  }

  /** Swapping the arguments negates the result, so the signs are opposite. */
  lemma CompareAntisymmetric(a: PlayerResult, b: PlayerResult)
    ensures ComparePlayers(a, b) == -ComparePlayers(b, a)
  {
  }

  /** Strictly stronger, at least as strong and equally strong are each transitive. */
  lemma CompareTransitive(a: PlayerResult, b: PlayerResult, c: PlayerResult)
    ensures ComparePlayers(a, b) > 0 && ComparePlayers(b, c) > 0 ==> ComparePlayers(a, c) > 0
    ensures ComparePlayers(a, b) >= 0 && ComparePlayers(b, c) >= 0 ==> ComparePlayers(a, c) >= 0
    ensures ComparePlayers(a, b) == 0 && ComparePlayers(b, c) == 0 ==> ComparePlayers(a, c) == 0
  {
    CompareIsLexicographic(a, b);
    CompareIsLexicographic(b, c);
    CompareIsLexicographic(a, c);
  }

  /** Any two results are comparable: one is stronger, or they compare equal. */
  lemma CompareTotal(a: PlayerResult, b: PlayerResult)
    ensures ComparePlayers(a, b) > 0 || ComparePlayers(b, a) > 0 || ComparePlayers(a, b) == 0
  {
  }

  /** getMultiplier: x4 for the special hands, x3 for bull-bull, x2 for bull-7..9, x1 otherwise. */
  function GetMultiplier(scoreValue: int): (m: nat)
    ensures 1 <= m <= 4
  {
    if scoreValue >= 11 then 4
    else if scoreValue == 10 then 3
    else if scoreValue >= 7 then 2
    else 1
  }

  /** A stronger score never pays a smaller multiplier. */
  lemma MultiplierMonotone(s: int, t: int)
    requires s <= t
    ensures GetMultiplier(s) <= GetMultiplier(t)
  {
  }
}
