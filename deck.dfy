/**
  Deck construction (createShuffledDeck, src/index.ts:625-639) and the deck-count
  policy of runAutoGame (src/index.ts:411).
 */
module Deck {
  import opened Cards

  /** runAutoGame uses four decks for more than five participants, otherwise two. */
  function DeckCount(participants: nat): (n: nat)
    ensures n == 2 || n == 4
    ensures participants > 5 <==> n == 4
  {
    if participants > 5 then 4 else 2
  }

  /**
    createShuffledDeck: pushes `numDecks` standard decks (suits, then ranks, in
    declaration order; the growing array is a sequence here), then shuffles the
    array in place with Fisher-Yates, from the last position down to 1. `random`
    stands for `Math.random`: the swap partner of position i is `random(i) % (i + 1)`,
    so any index in [0, i] can be chosen.
   */
  method CreateShuffledDeck(numDecks: nat, random: nat -> nat) returns (deck: seq<Card>)
    ensures |deck| == 52 * numDecks
    ensures forall c: Card :: multiset(deck)[c] == numDecks
  {
    var laidOut: seq<Card> := [];
    for i := 0 to numDecks
      invariant |laidOut| == 52 * i
      invariant forall c: Card :: multiset(laidOut)[c] == i
    {
      laidOut := PushDeck(laidOut);
    }
    var a := new Card[|laidOut|](k requires 0 <= k < |laidOut| => laidOut[k]);
    assert a[..] == laidOut;
    Shuffle(a, random);
    deck := a[..];
  }

  /** One pass of the outer loop: every suit and, within it, every rank pushed once. */
  method PushDeck(deck0: seq<Card>) returns (deck: seq<Card>)
    ensures |deck| == |deck0| + 52
    ensures forall c: Card :: multiset(deck)[c] == multiset(deck0)[c] + 1
  {
    deck := deck0;
    for si := 0 to |Suits|
      invariant |deck| == |deck0| + 13 * si
      invariant forall c: Card :: multiset(deck)[c] == multiset(deck0)[c] + LaidOut(c, si, 0)
    {
      var suit := Suits[si];
      for ri := 0 to |Ranks|
        invariant |deck| == |deck0| + 13 * si + ri
        invariant forall c: Card :: multiset(deck)[c] == multiset(deck0)[c] + LaidOut(c, si, ri)
      {
        var rank := Ranks[ri];
        forall c: Card ensures LaidOut(c, si, ri + 1) == LaidOut(c, si, ri) + (if c == Card(suit, rank) then 1 else 0) {
          LaidOutStep(c, si, ri);
        }
        deck := deck + [Card(suit, rank)];
      }
      forall c: Card ensures LaidOut(c, si, |Ranks|) == LaidOut(c, si + 1, 0) {
        assert RankIndex(c.rank) < |Ranks|;
      }
    }
  }

  /** The Fisher-Yates loop: swaps only, so the cards are a permutation of the ones laid out. */
  method Shuffle(a: array<Card>, random: nat -> nat)
    modifies a
    ensures multiset(a[..]) == multiset(old(a[..]))
  {
    var i := a.Length - 1;
    while i > 0
      invariant -1 <= i < a.Length
      invariant multiset(a[..]) == multiset(old(a[..]))
    {
      var j := random(i) % (i + 1);
      a[i], a[j] := a[j], a[i];
      i := i - 1;
    }
  }

  /** 1 when the layout loops of the current deck have already written card `c`, before position (si, ri). */
  function LaidOut(c: Card, si: nat, ri: nat): nat {
    if SuitIndex(c.suit) < si || (SuitIndex(c.suit) == si && RankIndex(c.rank) < ri) then 1 else 0
  }

  lemma LaidOutStep(c: Card, si: nat, ri: nat)
    requires si < |Suits| && ri < |Ranks|
    ensures LaidOut(c, si, ri + 1) == LaidOut(c, si, ri) + (if c == Card(Suits[si], Ranks[ri]) then 1 else 0)
  {
    IndicesRoundTrip();
  }

  /** Two decks hold 20 hands and four decks 41: everyone is dealt exactly when there are at most 41 participants. */
  lemma DeckCountCoversIff(participants: nat)
    ensures 5 * participants <= 52 * DeckCount(participants) <==> participants <= 41
  {
  }
}
