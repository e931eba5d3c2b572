/**
  The hand evaluator: a hand's score 0..13 and its tie-break card
  (calculateHandValue, isFiveSmallBull, isFiveFlowerBull, isBomb and
  calculateMaxCard, src/index.ts:645-690).

  Scores: 0 no bull, 1..9 bull-N, 10 bull-bull, 11 bomb, 12 five-flower,
  13 five-small.
 */
module Hands {
  import opened Cards

  // ---------------------------------------------------------------------
  // Specification of the score
  // ---------------------------------------------------------------------

  /** The point value of every card, in hand order (`hand.map(c => CARD_POINT[c.rank])`). */
  function Points(hand: seq<Card>): seq<nat> {
    seq(|hand|, i requires 0 <= i < |hand| => CardPoint(hand[i].rank))
  }

  /** Sum of a sequence, folded from the left as `reduce` does. */
  function Sum(nums: seq<nat>): nat {
    if |nums| == 0 then 0 else Sum(nums[..|nums| - 1]) + nums[|nums| - 1]
  }

  /** Five-small bull: every card is worth less than 5 and the total is at most 10. */
  predicate IsFiveSmallBull(hand: seq<Card>, sum: int): (b: bool)
    ensures b <==> sum <= 10 && forall i :: 0 <= i < |hand| ==> hand[i].rank in {Ace, Two, Three, Four}
  {
    sum <= 10 && forall i :: 0 <= i < |hand| ==> CardPoint(hand[i].rank) < 5
  }

  predicate IsCourt(r: Rank) {
    r == Jack || r == Queen || r == King
  }

  /** Five-flower bull: every card is a J, Q or K. */
  predicate IsFiveFlowerBull(hand: seq<Card>): (b: bool)
    ensures b <==> forall i :: 0 <= i < |hand| ==> RankValue(hand[i].rank) > 10
    ensures b ==> forall i :: 0 <= i < |hand| ==> CardPoint(hand[i].rank) == 10
  {
    forall i :: 0 <= i < |hand| ==> IsCourt(hand[i].rank)
  }

  /** Number of cards of rank `r`, counted from the left. */
  function RankCount(hand: seq<Card>, r: Rank): nat {
    if |hand| == 0 then 0
    else RankCount(hand[..|hand| - 1], r) + (if hand[|hand| - 1].rank == r then 1 else 0)
  }

  /** Bomb: some rank occurs exactly four times. */
  predicate HasFourOfARank(hand: seq<Card>) {
    exists r: Rank :: RankCount(hand, r) == 4
  }

  /** A bull value: a total taken mod 10, with 0 standing for bull-bull (10). */
  function NiuOf(total: nat): nat {
    if total % 10 == 0 then 10 else total % 10
  }

  /** The pair (i, j) leaves three cards whose points add up to a multiple of ten. */
  predicate ValidPair(nums: seq<nat>, i: int, j: int)
    requires 0 <= i < |nums| && 0 <= j < |nums|
  {
    (Sum(nums) - nums[i] - nums[j]) % 10 == 0
  }

  predicate HasBull(nums: seq<nat>) {
    exists i, j :: 0 <= i < j < |nums| && ValidPair(nums, i, j)
  }

  /**
    The numeric score in closed form: when some pair is valid, every valid pair
    has the bull value of the whole total (lemma ValidPairHasTotalNiu).
   */
  function NiuScore(nums: seq<nat>): nat {
    if HasBull(nums) then NiuOf(Sum(nums)) else 0
  }

  /** The score of a hand: the three special hands, in this order, then the numeric bull. */
  function HandScore(hand: seq<Card>): (score: nat)
    ensures score <= 13
  {
    var nums := Points(hand);
    if IsFiveSmallBull(hand, Sum(nums)) then 13
    else if IsFiveFlowerBull(hand) then 12
    else if HasFourOfARank(hand) then 11
    else NiuScore(nums)
  }

  /** `names` of calculateHandValue, indexed by the bull value. */
  const NiuNames: seq<string> := ["", "牛丁", "牛二", "牛三", "牛四", "牛五", "牛六", "牛七", "牛八", "牛九", "牛牛"]

  /** The label calculateHandValue returns with each score. */
  function ScoreName(score: nat): (name: string)
    requires score <= 13
    ensures name != ""
    ensures name == "没牛" <==> score == 0
  {
    if score == 13 then "五小牛"
    else if score == 12 then "五花牛"
    else if score == 11 then "四炸"
    else if score == 0 then "没牛"
    else NiuNames[score]
  }
  /** Every score has a label of its own, so the name alone tells the score. */
  lemma ScoreNamesDistinct(s: nat, t: nat)
    requires s <= 13 && t <= 13
    ensures ScoreName(s) == ScoreName(t) ==> s == t
  {
  }


  // ---------------------------------------------------------------------
  // The evaluator
  // ---------------------------------------------------------------------

  /** isBomb: tallies ranks in a dictionary and asks whether some tally is exactly 4. */
  method IsBomb(hand: seq<Card>) returns (b: bool)
    ensures b <==> HasFourOfARank(hand)
  {
    var counts: map<Rank, nat> := map[];
    for k := 0 to |hand|
      invariant forall r :: r in counts <==> RankCount(hand[..k], r) > 0
      invariant forall r :: r in counts ==> counts[r] == RankCount(hand[..k], r)
    {
      var c := hand[k];
      assert hand[..k + 1][..k] == hand[..k];
      counts := counts[c.rank := (if c.rank in counts then counts[c.rank] else 0) + 1];
    }
    assert hand[..|hand|] == hand;
    b := 4 in counts.Values;
    if b {
      var r :| r in counts && counts[r] == 4;
      assert RankCount(hand, r) == 4;
    }
  }

  /** The pair (p, q) is valid and scores `v`. */
  predicate Reaches(nums: seq<nat>, p: int, q: int, v: int) {
    0 <= p < q < |nums| && ValidPair(nums, p, q) && NiuOf(nums[p] + nums[q]) == v
  }

  /**
    The nested loops of calculateHandValue: `maxNiu` keeps the best bull value
    over the valid pairs scanned so far, -1 while none was seen.
   */
  method BestValidPair(nums: seq<nat>, sum: nat) returns (maxNiu: int)
    requires sum == Sum(nums)
    ensures maxNiu == -1 || 1 <= maxNiu <= 10
    ensures forall p, q :: 0 <= p < q < |nums| && ValidPair(nums, p, q) ==> NiuOf(nums[p] + nums[q]) <= maxNiu
    ensures maxNiu != -1 ==> exists p, q :: Reaches(nums, p, q, maxNiu)
  {
    maxNiu := -1;
    ghost var bestI, bestJ := 0, 0;  // a valid pair that reaches maxNiu, once there is one
    var i := 0;
    while i < |nums| - 1
      invariant 0 <= i <= |nums|
      invariant maxNiu == -1 || 1 <= maxNiu <= 10
      invariant forall p, q :: 0 <= p < i && p < q < |nums| && ValidPair(nums, p, q) ==> NiuOf(nums[p] + nums[q]) <= maxNiu
      invariant maxNiu != -1 ==> Reaches(nums, bestI, bestJ, maxNiu)
    {
      maxNiu, bestI, bestJ := ScanPairsOf(nums, sum, i, maxNiu, bestI, bestJ);
      i := i + 1;
    }
  }

  /** The inner loop: the pairs (i, j) for every j after i. */
  method ScanPairsOf(nums: seq<nat>, sum: nat, i: nat, maxNiu0: int, ghost bestI0: int, ghost bestJ0: int)
    returns (maxNiu: int, ghost bestI: int, ghost bestJ: int)
    requires sum == Sum(nums) && i < |nums|
    requires maxNiu0 == -1 || 1 <= maxNiu0 <= 10
    requires maxNiu0 != -1 ==> Reaches(nums, bestI0, bestJ0, maxNiu0)
    ensures maxNiu == -1 || 1 <= maxNiu <= 10
    ensures maxNiu0 <= maxNiu
    ensures forall q :: i < q < |nums| && ValidPair(nums, i, q) ==> NiuOf(nums[i] + nums[q]) <= maxNiu
    ensures maxNiu != -1 ==> Reaches(nums, bestI, bestJ, maxNiu)
  {
    maxNiu, bestI, bestJ := maxNiu0, bestI0, bestJ0;
    var j := i + 1;
    while j < |nums|
      invariant i + 1 <= j <= |nums|
      invariant maxNiu == -1 || 1 <= maxNiu <= 10
      invariant maxNiu0 <= maxNiu
      invariant forall q :: i < q < j && ValidPair(nums, i, q) ==> NiuOf(nums[i] + nums[q]) <= maxNiu
      invariant maxNiu != -1 ==> Reaches(nums, bestI, bestJ, maxNiu)
    {
      var twoCardSum := nums[i] + nums[j];
      if (sum - twoCardSum) % 10 == 0 {
        var currentNiu := twoCardSum % 10;
        if currentNiu == 0 {
          currentNiu := 10;
        }
        assert currentNiu == NiuOf(twoCardSum);
        if currentNiu > maxNiu {
          maxNiu := currentNiu;
          bestI, bestJ := i, j;
        }
      }
      j := j + 1;
    }
  }

  /**
    calculateHandValue: the special hands first, then the nested loops keep in
    `maxNiu` the best bull value over the valid pairs (-1 while none was seen).
   */
  method CalculateHandValue(hand: seq<Card>) returns (scoreName: string, scoreValue: nat)
    ensures scoreValue == HandScore(hand) && scoreValue <= 13
    ensures scoreName == ScoreName(scoreValue)
  {
    var nums := Points(hand);
    var sum := Sum(nums);
    if IsFiveSmallBull(hand, sum) {
      return "五小牛", 13;
    }
    if IsFiveFlowerBull(hand) {
      return "五花牛", 12;
    }
    var bomb := IsBomb(hand);
    if bomb {
      return "四炸", 11;
    }
    var maxNiu := BestValidPair(nums, sum);
    NiuScoreIsBestPair(nums);
    if maxNiu == -1 {
      return "没牛", 0;
    }
    var names := NiuNames;
    return names[maxNiu], maxNiu;
  }

  /**
    calculateMaxCard's `reduce` callback: the current card replaces the kept one
    only when it is strictly stronger.
   */
  function Keep(prev: Card, curr: Card): (kept: Card)
    ensures kept == if Stronger(curr, prev) then curr else prev
    ensures !Stronger(prev, kept) && !Stronger(curr, kept)
  {
    if RankValue(curr.rank) > RankValue(prev.rank) then curr
    else if RankValue(curr.rank) == RankValue(prev.rank) && SuitWeight(curr.suit) > SuitWeight(prev.suit) then curr
    else prev
  }

  /**
    calculateMaxCard: the hand's strongest card by (rank value, suit weight);
    of equal cards the first one is kept. The JavaScript `reduce` without a seed
    throws on an empty hand, hence the precondition.
   */
  function MaxCard(hand: seq<Card>): (c: Card)
    requires |hand| > 0
    ensures c in hand
    ensures forall k :: 0 <= k < |hand| ==> !Stronger(hand[k], c)
    ensures exists i :: 0 <= i < |hand| && hand[i] == c && forall k :: 0 <= k < i ==> Stronger(c, hand[k])
  {
    if |hand| == 1 then hand[0]
    else
      var prefix := hand[..|hand| - 1];
      var prev := MaxCard(prefix);
      var last := hand[|hand| - 1];
      assert forall k :: 0 <= k < |prefix| ==> hand[k] == prefix[k];
      StrongerIsStrictTotalOrder(prev, last, prev);
      var c := Keep(prev, last);
      assert c == last ==> Stronger(last, prev) || last == prev;
      assert forall k :: 0 <= k < |hand| - 1 ==> !Stronger(hand[k], prev);
      assert forall k :: 0 <= k < |hand| - 1 && Stronger(c, prev) ==> Stronger(c, hand[k]) by {
        forall k | 0 <= k < |hand| - 1 && Stronger(c, prev)
          ensures Stronger(c, hand[k])
        {
          StrongerIsStrictTotalOrder(c, prev, hand[k]);
          StrongerIsStrictTotalOrder(prev, hand[k], c);
        }
      }
      c
  }

  // ---------------------------------------------------------------------
  // Properties of the score
  // ---------------------------------------------------------------------

  /** Every valid pair scores the bull value of the hand's total. */
  lemma ValidPairHasTotalNiu(nums: seq<nat>, i: int, j: int)
    requires 0 <= i < |nums| && 0 <= j < |nums|
    requires ValidPair(nums, i, j)
    ensures NiuOf(nums[i] + nums[j]) == NiuOf(Sum(nums))
  {
    var rest := Sum(nums) - nums[i] - nums[j];
    var q := rest / 10;
    assert Sum(nums) == nums[i] + nums[j] + 10 * q;
    ShiftByTens(nums[i] + nums[j], q);
  }

  /** Adding a multiple of ten leaves the last digit alone. */
  lemma ShiftByTens(x: int, q: int)
    ensures (x + 10 * q) % 10 == x % 10
    decreases if q >= 0 then q else -q
  {
    if q > 0 {
      ShiftByTens(x, q - 1);
      assert x + 10 * q == (x + 10 * (q - 1)) + 10;
    } else if q < 0 {
      ShiftByTens(x, q + 1);
      assert x + 10 * q == (x + 10 * (q + 1)) - 10;
    }
  }

  /**
    The closed form is the maximum the nested loops compute: no valid pair beats
    it, some valid pair reaches it, and it is 0 when no pair is valid.
   */
  lemma NiuScoreIsBestPair(nums: seq<nat>)
    ensures forall i, j :: 0 <= i < j < |nums| && ValidPair(nums, i, j) ==> NiuOf(nums[i] + nums[j]) == NiuScore(nums)
    ensures HasBull(nums) ==> exists i, j :: 0 <= i < j < |nums| && ValidPair(nums, i, j) && NiuOf(nums[i] + nums[j]) == NiuScore(nums)
    ensures HasBull(nums) <==> 1 <= NiuScore(nums) <= 10
    ensures !HasBull(nums) ==> NiuScore(nums) == 0
  {
    forall i, j | 0 <= i < j < |nums| && ValidPair(nums, i, j)
      ensures NiuOf(nums[i] + nums[j]) == NiuScore(nums)
    {
      ValidPairHasTotalNiu(nums, i, j);
    }
  }

  /** The special hands are tried first, in the order five-small, five-flower, bomb. */
  lemma SpecialHandsFirst(hand: seq<Card>)
    ensures HandScore(hand) == 13 <==> IsFiveSmallBull(hand, Sum(Points(hand)))
    ensures HandScore(hand) == 12 <==> !IsFiveSmallBull(hand, Sum(Points(hand))) && IsFiveFlowerBull(hand)
    ensures HandScore(hand) == 11 <==>
      !IsFiveSmallBull(hand, Sum(Points(hand))) && !IsFiveFlowerBull(hand) && HasFourOfARank(hand)
    ensures HandScore(hand) <= 10 <==>
      !IsFiveSmallBull(hand, Sum(Points(hand))) && !IsFiveFlowerBull(hand) && !HasFourOfARank(hand)
    ensures HandScore(hand) <= 10 ==> HandScore(hand) == NiuScore(Points(hand))
  {
    NiuScoreIsBestPair(Points(hand));
  }

  /** In a hand whose cards all have rank `r`, `r` is counted once per card and no other rank at all. */
  lemma {:induction false} RankCountUniform(hand: seq<Card>, r: Rank, other: Rank)
    requires forall i :: 0 <= i < |hand| ==> hand[i].rank == r
    ensures RankCount(hand, r) == |hand|
    ensures other != r ==> RankCount(hand, other) == 0
  {
    if |hand| > 0 {
      RankCountUniform(hand[..|hand| - 1], r, other);
    }
  }

  /** A sequence of `n` copies of `p` sums to `n * p`. */
  lemma {:induction false} SumUniform(nums: seq<nat>, p: nat)
    requires forall i :: 0 <= i < |nums| ==> nums[i] == p
    ensures Sum(nums) == |nums| * p
  {
    if |nums| > 0 {
      SumUniform(nums[..|nums| - 1], p);
    }
  }

  /** Five cards of one rank (possible with two or four decks) are not a bomb. */
  lemma FiveOfAKindIsNoBomb(hand: seq<Card>)
    requires |hand| == 5
    requires forall i :: 0 <= i < |hand| ==> hand[i].rank == hand[0].rank
    ensures !HasFourOfARank(hand)
  {
    forall other: Rank ensures RankCount(hand, other) != 4 {
      RankCountUniform(hand, hand[0].rank, other);
    }
  }

  /**
    What five cards of one rank score: five aces or twos are a five-small bull,
    five court cards a five-flower bull, five tens bull-bull, and every other
    rank no bull at all, below any bomb.
   */
  lemma FiveOfAKindScore(hand: seq<Card>)
    requires |hand| == 5
    requires forall i :: 0 <= i < |hand| ==> hand[i].rank == hand[0].rank
    ensures var r := hand[0].rank;
      HandScore(hand) == (if r == Ace || r == Two then 13 else if IsCourt(r) then 12 else if r == Ten then 10 else 0)
  {
    var r := hand[0].rank;
    var p := CardPoint(r);
    var nums := Points(hand);
    FiveOfAKindIsNoBomb(hand);
    SumUniform(nums, p);
    assert Sum(nums) == 5 * p;
    if r == Ten {
      assert ValidPair(nums, 0, 1);
    } else if r != Ace && r != Two && !IsCourt(r) {
      assert 3 <= p <= 9;
      forall i, j | 0 <= i < j < |nums| ensures !ValidPair(nums, i, j) {
        assert Sum(nums) - nums[i] - nums[j] == 3 * p;
      }
    }
  }
}
