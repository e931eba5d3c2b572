/**
  The two settlement strategies, as functions of the rank table and the ledger
  before settlement: peer mode (handleNormalSettlement, src/index.ts:482-509)
  and wager mode against the bot dealer (handleMonetarySettlement,
  src/index.ts:512-557). The loops of the source that apply them are in
  Engine.BullCard; their postconditions tie them to the functions here.
 */
module Settlement {
  import opened Wrappers
  import opened Cards
  import opened Players
  import opened Compare

  /** A row of bull_card_rank. */
  datatype RankEntry = RankEntry(userName: string, wins: nat, losses: nat, earnings: int)

  type Ranks = map<UserId, RankEntry>

  /** The monetary ledger: one balance per account. */
  type Ledger = map<UserId, int>

  /** Balance of an account; an account without a row holds nothing. */
  function Balance(ledger: Ledger, u: UserId): int {
    if u in ledger then ledger[u] else 0
  }

  /** monetary.gain: credits `amount` to the account, creating it when missing. */
  function Gain(ledger: Ledger, u: UserId, amount: int): (r: Ledger)
    ensures r.Keys == ledger.Keys + {u}
    ensures Balance(r, u) == Balance(ledger, u) + amount
    ensures forall v :: v != u ==> Balance(r, v) == Balance(ledger, v)
  {
    ledger[u := Balance(ledger, u) + amount]
  }

  /** Number of results in `ps` that belong to user `u`, counted from the left. */
  function Occurrences(ps: seq<PlayerResult>, u: UserId): nat {
    if |ps| == 0 then 0
    else Occurrences(ps[..|ps| - 1], u) + (if ps[|ps| - 1].userId == u then 1 else 0)
  }

  function Ids(ps: seq<PlayerResult>): set<UserId> {
    set p | p in ps :: p.userId
  }

  /** No user holds two results (members are unique and the dealer is added once). */
  predicate DistinctUsers(ps: seq<PlayerResult>) {
    forall i, j :: 0 <= i < j < |ps| ==> ps[i].userId != ps[j].userId
  }

  // ---------------------------------------------------------------------
  // Peer mode
  // ---------------------------------------------------------------------

  /** `top` is a strongest result, as the head of the list sorted by comparePlayers descending is. */
  predicate IsTop(players: seq<PlayerResult>, top: PlayerResult) {
    top in players && forall p :: p in players ==> ComparePlayers(top, p) >= 0
  }

  /** A strongest result, the leftmost one found by a scan. */
  function Best(players: seq<PlayerResult>): (top: PlayerResult)
    requires |players| > 0
    ensures IsTop(players, top)
  {
    if |players| == 1 then players[0]
    else
      var prefix := players[..|players| - 1];
      var b := Best(prefix);
      var last := players[|players| - 1];
      assert forall p :: p in players ==> p in prefix || p == last;
      CompareAntisymmetric(last, b);
      var top := if ComparePlayers(last, b) > 0 then last else b;
      assert forall p :: p in prefix ==> ComparePlayers(top, p) >= 0 by {
        forall p | p in prefix ensures ComparePlayers(top, p) >= 0 {
          CompareTransitive(top, b, p);
        }
      }
      top
  }

  /** `players.filter(p => comparePlayers(p, topP) === 0)`. */
  function Winners(players: seq<PlayerResult>, top: PlayerResult): (ws: seq<PlayerResult>)
    ensures |ws| <= |players|
    ensures forall k :: 0 <= k < |ws| ==> ws[k] in players && ComparePlayers(ws[k], top) == 0
  {
    if |players| == 0 then []
    else
      var last := players[|players| - 1];
      assert players == players[..|players| - 1] + [last];
      Winners(players[..|players| - 1], top) + (if ComparePlayers(last, top) == 0 then [last] else [])
  }

  /** `players.filter(p => !winners.includes(p))`. */
  function Losers(players: seq<PlayerResult>, winners: seq<PlayerResult>): (ls: seq<PlayerResult>)
    ensures |ls| <= |players|
    ensures forall k :: 0 <= k < |ls| ==> ls[k] in players && ls[k] !in winners
  {
    if |players| == 0 then []
    else
      var last := players[|players| - 1];
      assert players == players[..|players| - 1] + [last];
      Losers(players[..|players| - 1], winners) + (if last !in winners then [last] else [])
  }

  /** Adds a win to the user's row; a user without a row is left alone, like `if (r)`. */
  function AddWin(ranks: Ranks, u: UserId): Ranks {
    if u in ranks then ranks[u := ranks[u].(wins := ranks[u].wins + 1)] else ranks
  }

  function AddLoss(ranks: Ranks, u: UserId): Ranks {
    if u in ranks then ranks[u := ranks[u].(losses := ranks[u].losses + 1)] else ranks
  }

  /** The winners loop: one AddWin per winner, in order. */
  function CreditWins(ranks: Ranks, ws: seq<PlayerResult>): (r: Ranks)
    ensures r.Keys == ranks.Keys
  {
    if |ws| == 0 then ranks else AddWin(CreditWins(ranks, ws[..|ws| - 1]), ws[|ws| - 1].userId)
  }

  /** The losers loop: one AddLoss per loser, in order. */
  function CreditLosses(ranks: Ranks, ls: seq<PlayerResult>): (r: Ranks)
    ensures r.Keys == ranks.Keys
  {
    if |ls| == 0 then ranks else AddLoss(CreditLosses(ranks, ls[..|ls| - 1]), ls[|ls| - 1].userId)
  }

  /**
    The rank table after peer settlement. Which strongest result heads the sorted
    list does not matter (WinnersIndependentOfTop), so the first one stands in.
   */
  function NormalSettled(ranks: Ranks, players: seq<PlayerResult>): (r: Ranks)
    ensures r.Keys == ranks.Keys
  {
    if |players| == 0 then ranks
    else
      var winners := Winners(players, Best(players));
      CreditLosses(CreditWins(ranks, winners), Losers(players, winners))
  }

  lemma {:induction false} WinnersMembership(players: seq<PlayerResult>, top: PlayerResult)
    ensures forall w :: w in Winners(players, top) <==> w in players && ComparePlayers(w, top) == 0
  {
    if |players| > 0 {
      var prefix := players[..|players| - 1];
      WinnersMembership(prefix, top);
      assert players == prefix + [players[|players| - 1]];
    }
  }

  lemma {:induction false} LosersMembership(players: seq<PlayerResult>, winners: seq<PlayerResult>)
    ensures forall l :: l in Losers(players, winners) <==> l in players && l !in winners
  {
    if |players| > 0 {
      var prefix := players[..|players| - 1];
      LosersMembership(prefix, winners);
      assert players == prefix + [players[|players| - 1]];
    }
  }

  /** Filtering against two tops that compare equal selects the same results. */
  lemma {:induction false} WinnersOfEqualTops(players: seq<PlayerResult>, t1: PlayerResult, t2: PlayerResult)
    requires ComparePlayers(t1, t2) == 0
    ensures Winners(players, t1) == Winners(players, t2)
  {
    if |players| > 0 {
      var last := players[|players| - 1];
      WinnersOfEqualTops(players[..|players| - 1], t1, t2);
      CompareTransitive(last, t1, t2);
      CompareTransitive(last, t2, t1);
      CompareAntisymmetric(t1, t2);
    }
  }

  /** The winner list does not depend on which strongest result the sort put first. */
  lemma WinnersIndependentOfTop(players: seq<PlayerResult>, t1: PlayerResult, t2: PlayerResult)
    requires IsTop(players, t1) && IsTop(players, t2)
    ensures Winners(players, t1) == Winners(players, t2)
  {
    CompareAntisymmetric(t1, t2);
    WinnersOfEqualTops(players, t1, t2);
  }

  /** Winners and losers split the players: as multisets, and user by user. */
  lemma WinnersLosersPartition(players: seq<PlayerResult>, top: PlayerResult, u: UserId)
    ensures multiset(Winners(players, top)) + multiset(Losers(players, Winners(players, top))) == multiset(players)
    ensures Occurrences(Winners(players, top), u) + Occurrences(Losers(players, Winners(players, top)), u) == Occurrences(players, u)
  {
    var winners := Winners(players, top);
    WinnersMembership(players, top);
    assert forall i :: 0 <= i < |players| ==> (players[i] in winners <==> ComparePlayers(players[i], top) == 0);
    PartitionMultiset(players, winners, top);
    PartitionOccurrences(players, winners, top, u);
  }

  /** Splitting one step of the two filters: the last result goes to exactly one side. */
  lemma SplitLast(players: seq<PlayerResult>, winners: seq<PlayerResult>, top: PlayerResult)
    requires |players| > 0
    requires var last := players[|players| - 1]; last in winners <==> ComparePlayers(last, top) == 0
    ensures var prefix, last := players[..|players| - 1], players[|players| - 1];
      if ComparePlayers(last, top) == 0 then
        Winners(players, top) == Winners(prefix, top) + [last] && Losers(players, winners) == Losers(prefix, winners)
      else
        Winners(players, top) == Winners(prefix, top) && Losers(players, winners) == Losers(prefix, winners) + [last]
  {
    var prefix := players[..|players| - 1];
    assert Winners(prefix, top) + [] == Winners(prefix, top);
    assert Losers(prefix, winners) + [] == Losers(prefix, winners);
  }

  lemma {:induction false} PartitionMultiset(players: seq<PlayerResult>, winners: seq<PlayerResult>, top: PlayerResult)
    requires forall i :: 0 <= i < |players| ==> (players[i] in winners <==> ComparePlayers(players[i], top) == 0)
    ensures multiset(Winners(players, top)) + multiset(Losers(players, winners)) == multiset(players)
  {
    if |players| > 0 {
      var prefix := players[..|players| - 1];
      var last := players[|players| - 1];
      assert forall i :: 0 <= i < |prefix| ==> prefix[i] == players[i];
      PartitionMultiset(prefix, winners, top);
      SplitLast(players, winners, top);
      assert players == prefix + [last];
      MultisetSplitAppend(Winners(prefix, top), Losers(prefix, winners), prefix, last);
    }
  }

  /** Appending one element to either side of a multiset split of `p` splits `p + [x]`. */
  lemma MultisetSplitAppend<T>(w: seq<T>, l: seq<T>, p: seq<T>, x: T)
    requires multiset(w) + multiset(l) == multiset(p)
    ensures multiset(w + [x]) + multiset(l) == multiset(p + [x])
    ensures multiset(w) + multiset(l + [x]) == multiset(p + [x])
  {
  }

  lemma {:induction false} PartitionOccurrences(players: seq<PlayerResult>, winners: seq<PlayerResult>, top: PlayerResult, u: UserId)
    requires forall i :: 0 <= i < |players| ==> (players[i] in winners <==> ComparePlayers(players[i], top) == 0)
    ensures Occurrences(Winners(players, top), u) + Occurrences(Losers(players, winners), u) == Occurrences(players, u)
  {
    if |players| > 0 {
      var prefix := players[..|players| - 1];
      var last := players[|players| - 1];
      PartitionOccurrences(prefix, winners, top, u);
      SplitLast(players, winners, top);
      if ComparePlayers(last, top) == 0 {
        OccurrencesAppend(Winners(prefix, top), last, u);
      } else {
        OccurrencesAppend(Losers(prefix, winners), last, u);
      }
    }
  }

  lemma OccurrencesAppend(ps: seq<PlayerResult>, x: PlayerResult, u: UserId)
    ensures Occurrences(ps + [x], u) == Occurrences(ps, u) + (if x.userId == u then 1 else 0)
  {
    assert (ps + [x])[..|ps|] == ps;
  }

  /**
    Peer settlement picks the right people: with at least one player, some player
    wins; every winner compares equal to the top and at least as strong as every
    player; every loser is strictly weaker than the top.
   */
  lemma PeerWinners(players: seq<PlayerResult>, top: PlayerResult)
    requires IsTop(players, top)
    ensures var winners := Winners(players, top);
      && top in winners
      && (forall w :: w in winners ==> w in players && ComparePlayers(w, top) == 0)
      && (forall w, p :: w in winners && p in players ==> ComparePlayers(w, p) >= 0)
      && (forall l :: l in Losers(players, winners) ==> l in players && ComparePlayers(l, top) < 0)
      && (forall p :: p in players ==> p in winners || p in Losers(players, winners))
  {
    var winners := Winners(players, top);
    WinnersMembership(players, top);
    LosersMembership(players, winners);
    forall w, p | w in winners && p in players ensures ComparePlayers(w, p) >= 0 {
      CompareTransitive(w, top, p);
    }
  }

  /** CreditWins adds to each row's wins the number of that user's results and changes nothing else. */
  lemma {:induction false} CreditWinsEffect(ranks: Ranks, ws: seq<PlayerResult>)
    ensures CreditWins(ranks, ws).Keys == ranks.Keys
    ensures forall u :: u in ranks ==> CreditWins(ranks, ws)[u] == ranks[u].(wins := ranks[u].wins + Occurrences(ws, u))
  {
    if |ws| > 0 {
      CreditWinsEffect(ranks, ws[..|ws| - 1]);
    }
  }

  lemma {:induction false} CreditLossesEffect(ranks: Ranks, ls: seq<PlayerResult>)
    ensures CreditLosses(ranks, ls).Keys == ranks.Keys
    ensures forall u :: u in ranks ==> CreditLosses(ranks, ls)[u] == ranks[u].(losses := ranks[u].losses + Occurrences(ls, u))
  {
    if |ls| > 0 {
      CreditLossesEffect(ranks, ls[..|ls| - 1]);
    }
  }

  lemma {:induction false} OccurrencesOfDistinct(ps: seq<PlayerResult>, u: UserId)
    requires DistinctUsers(ps)
    ensures Occurrences(ps, u) == if u in Ids(ps) then 1 else 0
  {
    if |ps| > 0 {
      var prefix := ps[..|ps| - 1];
      OccurrencesOfDistinct(prefix, u);
      assert ps == prefix + [ps[|ps| - 1]];
      assert Ids(ps) == Ids(prefix) + {ps[|ps| - 1].userId};
    }
  }

  lemma {:induction false} OccurrencesPositive(ps: seq<PlayerResult>, u: UserId)
    ensures Occurrences(ps, u) > 0 <==> u in Ids(ps)
  {
    if |ps| > 0 {
      var prefix := ps[..|ps| - 1];
      OccurrencesPositive(prefix, u);
      assert ps == prefix + [ps[|ps| - 1]];
      assert Ids(ps) == Ids(prefix) + {ps[|ps| - 1].userId};
    }
  }

  /** One user's part of NormalSettlementEffect. */
  lemma NormalSettlementUser(ranks: Ranks, players: seq<PlayerResult>, u: UserId)
    requires |players| > 0 && DistinctUsers(players)
    ensures var winners := Winners(players, Best(players));
      var losers := Losers(players, winners);
      && (u in Ids(players) <==> u in Ids(winners) || u in Ids(losers))
      && !(u in Ids(winners) && u in Ids(losers))
      && (u in ranks ==> NormalSettled(ranks, players)[u] == ranks[u].(
           wins := ranks[u].wins + (if u in Ids(winners) then 1 else 0),
           losses := ranks[u].losses + (if u in Ids(losers) then 1 else 0)))
  {
    var top := Best(players);
    var winners := Winners(players, top);
    var losers := Losers(players, winners);
    WinnersLosersPartition(players, top, u);
    SplitOfDistinct(players, winners, losers, u);
    if u in ranks {
      NormalSettledRow(ranks, players, u);
    }
  }

  /** When two lists share out the results of distinct users, each user lands in at most one of them. */
  lemma SplitOfDistinct(players: seq<PlayerResult>, ws: seq<PlayerResult>, ls: seq<PlayerResult>, u: UserId)
    requires DistinctUsers(players)
    requires Occurrences(ws, u) + Occurrences(ls, u) == Occurrences(players, u)
    ensures u in Ids(players) <==> u in Ids(ws) || u in Ids(ls)
    ensures !(u in Ids(ws) && u in Ids(ls))
    ensures Occurrences(ws, u) == if u in Ids(ws) then 1 else 0
    ensures Occurrences(ls, u) == if u in Ids(ls) then 1 else 0
  {
    OccurrencesOfDistinct(players, u);
    OccurrencesPositive(players, u);
    OccurrencesPositive(ws, u);
    OccurrencesPositive(ls, u);
  }

  /** Peer settlement adds to a row's wins and losses how often its user appears among the winners and the losers. */
  lemma NormalSettledRow(ranks: Ranks, players: seq<PlayerResult>, u: UserId)
    requires |players| > 0 && u in ranks
    ensures var winners := Winners(players, Best(players));
      NormalSettled(ranks, players)[u] == ranks[u].(
        wins := ranks[u].wins + Occurrences(winners, u),
        losses := ranks[u].losses + Occurrences(Losers(players, winners), u))
  {
    var winners := Winners(players, Best(players));
    var mid := CreditWins(ranks, winners);
    CreditWinsEffect(ranks, winners);
    CreditLossesEffect(mid, Losers(players, winners));
  }

  /** Peer settlement over any strongest result as the head of the sort is NormalSettled. */
  lemma SettledByAnyTop(ranks: Ranks, players: seq<PlayerResult>, top: PlayerResult)
    requires IsTop(players, top)
    ensures NormalSettled(ranks, players)
         == CreditLosses(CreditWins(ranks, Winners(players, top)), Losers(players, Winners(players, top)))
  {
    WinnersIndependentOfTop(players, top, Best(players));
  }

  /**
    Peer settlement with distinct players: the winners' and losers' ids split the
    players' ids; each winner's wins go up by exactly one, each loser's losses by
    exactly one, and nothing else in the rank table changes.
   */
  lemma NormalSettlementEffect(ranks: Ranks, players: seq<PlayerResult>)
    requires |players| > 0 && DistinctUsers(players)
    ensures var winners := Winners(players, Best(players));
      var losers := Losers(players, winners);
      var after := NormalSettled(ranks, players);
      && after.Keys == ranks.Keys
      && Ids(winners) + Ids(losers) == Ids(players)
      && Ids(winners) !! Ids(losers)
      && forall u :: u in ranks ==> after[u] == ranks[u].(
           wins := ranks[u].wins + (if u in Ids(winners) then 1 else 0),
           losses := ranks[u].losses + (if u in Ids(losers) then 1 else 0))
  {
    var winners := Winners(players, Best(players));
    var losers := Losers(players, winners);
    var ws, ls, ps := Ids(winners), Ids(losers), Ids(players);
    var after := NormalSettled(ranks, players);
    forall u ensures (u in ps <==> u in ws || u in ls) && !(u in ws && u in ls)
      && (u in ranks ==> after[u] == ranks[u].(
           wins := ranks[u].wins + (if u in ws then 1 else 0),
           losses := ranks[u].losses + (if u in ls then 1 else 0)))
    {
      NormalSettlementUser(ranks, players, u);
    }
    assert ws + ls == ps;
  }

  // ---------------------------------------------------------------------
  // Wager mode
  // ---------------------------------------------------------------------

  /** The two tables wager settlement writes. */
  datatype Books = Books(ranks: Ranks, ledger: Ledger)

  /** `players.find(p => p.userId === bot)`: the dealer's result, the first one with the bot's id. */
  function FindDealer(players: seq<PlayerResult>, botId: UserId): (d: Option<PlayerResult>)
    ensures d.Some? ==> d.value in players && d.value.userId == botId
    ensures d.Some? ==> exists i :: (0 <= i < |players| && players[i] == d.value
                                     && forall k :: 0 <= k < i ==> players[k].userId != botId)
    ensures d.None? <==> botId !in Ids(players)
  {
    if |players| == 0 then None
    else if players[0].userId == botId then Some(players[0])
    else
      var rest := FindDealer(players[1..], botId);
      assert players == [players[0]] + players[1..];
      assert rest.Some? ==> exists i :: (1 <= i < |players| && players[i] == rest.value
                                         && forall k :: 0 <= k < i ==> players[k].userId != botId) by {
        if rest.Some? {
          var j :| 0 <= j < |players[1..]| && players[1..][j] == rest.value
            && forall k :: 0 <= k < j ==> players[1..][k].userId != botId;
          assert players[j + 1] == rest.value;
          forall k | 0 <= k < j + 1 ensures players[k].userId != botId {
            if k > 0 { assert players[k] == players[1..][k - 1]; }
          }
        }
      }
      rest
  }

  /** `Math.floor(bet * multiplier)`: stakes and multipliers are integers, so the floor is exact. */
  function Profit(p: PlayerResult): (profit: int)
    ensures p.bet >= 0 ==> p.bet <= profit <= 4 * p.bet
    ensures p.resultScore >= 11 ==> profit == 4 * p.bet
  {
    var m := GetMultiplier(p.resultScore);
    assert p.bet >= 0 ==> p.bet * 1 <= p.bet * m <= p.bet * 4 by {
      if p.bet >= 0 {
        assert p.bet * m - p.bet == p.bet * (m - 1);
        assert p.bet * 4 - p.bet * m == p.bet * (4 - m);
      }
    }
    p.bet * m
  }

  /** One pass of the settlement loop: the player against the dealer; the dealer itself is skipped. */
  function WagerStep(books: Books, p: PlayerResult, dealer: PlayerResult, botId: UserId): (r: Books)
    ensures r.ranks.Keys == books.ranks.Keys
  {
    var u := p.userId;
    if u == botId then books
    else
      var diff := ComparePlayers(p, dealer);
      if diff > 0 then
        Books(
          if u in books.ranks then books.ranks[u := books.ranks[u].(earnings := books.ranks[u].earnings + Profit(p), wins := books.ranks[u].wins + 1)] else books.ranks,
          Gain(books.ledger, u, p.bet + Profit(p)))
      else if diff < 0 then
        Books(
          if u in books.ranks then books.ranks[u := books.ranks[u].(earnings := books.ranks[u].earnings - p.bet, losses := books.ranks[u].losses + 1)] else books.ranks,
          books.ledger)
      else
        Books(books.ranks, Gain(books.ledger, u, p.bet))
  }

  /** The settlement loop over all results, in order. */
  function WagerSettled(books: Books, players: seq<PlayerResult>, dealer: PlayerResult, botId: UserId): (r: Books)
    ensures r.ranks.Keys == books.ranks.Keys
  {
    if |players| == 0 then books
    else WagerStep(WagerSettled(books, players[..|players| - 1], dealer, botId), players[|players| - 1], dealer, botId)
  }

  /** The books after handleMonetarySettlement: unchanged when no dealer hand was dealt. */
  function MonetarySettled(books: Books, players: seq<PlayerResult>, botId: UserId): (r: Books)
    ensures r.ranks.Keys == books.ranks.Keys
  {
    match FindDealer(players, botId)
    case None => books
    case Some(dealer) => WagerSettled(books, players, dealer, botId)
  }

  /** What the books say about one user. */
  function View(books: Books, u: UserId): (int, Option<RankEntry>) {
    (Balance(books.ledger, u), if u in books.ranks then Some(books.ranks[u]) else None)
  }

  lemma StepFrame(books: Books, p: PlayerResult, dealer: PlayerResult, botId: UserId, u: UserId)
    ensures WagerStep(books, p, dealer, botId).ranks.Keys == books.ranks.Keys
    ensures u != p.userId || p.userId == botId ==> View(WagerStep(books, p, dealer, botId), u) == View(books, u)
  {
  }

  /** A step for user u's own result depends only on what the books say about u. */
  lemma StepLocal(b1: Books, b2: Books, p: PlayerResult, dealer: PlayerResult, botId: UserId)
    requires View(b1, p.userId) == View(b2, p.userId)
    ensures View(WagerStep(b1, p, dealer, botId), p.userId) == View(WagerStep(b2, p, dealer, botId), p.userId)
  {
  }

  /** The loop never touches a user without a result, nor the dealer, whose results it skips. */
  lemma {:induction false} WagerSettledFrame(books: Books, players: seq<PlayerResult>, dealer: PlayerResult, botId: UserId, u: UserId)
    requires u == botId || forall i :: 0 <= i < |players| ==> players[i].userId != u
    ensures View(WagerSettled(books, players, dealer, botId), u) == View(books, u)
  {
    if |players| > 0 {
      var prefix := players[..|players| - 1];
      WagerSettledFrame(books, prefix, dealer, botId, u);
      StepFrame(WagerSettled(books, prefix, dealer, botId), players[|players| - 1], dealer, botId, u);
    }
  }

  /**
    With distinct players, the loop leaves each player's user as if that
    player's result had been settled alone.
   */
  lemma {:induction false} WagerSettledPlayer(books: Books, players: seq<PlayerResult>, dealer: PlayerResult, botId: UserId, i: nat)
    requires DistinctUsers(players) && i < |players|
    ensures View(WagerSettled(books, players, dealer, botId), players[i].userId)
         == View(WagerStep(books, players[i], dealer, botId), players[i].userId)
  {
    var prefix := players[..|players| - 1];
    var last := players[|players| - 1];
    var mid := WagerSettled(books, prefix, dealer, botId);
    if i == |players| - 1 {
      WagerSettledFrame(books, prefix, dealer, botId, last.userId);
      StepLocal(mid, books, last, dealer, botId);
    } else {
      assert DistinctUsers(prefix);
      WagerSettledPlayer(books, prefix, dealer, botId, i);
      StepFrame(mid, last, dealer, botId, players[i].userId);
    }
  }

  /**
    Wager settlement leaves the rank table's rows in place, changes nothing when
    no dealer hand was dealt, and never touches the dealer or anyone without a result.
   */
  lemma MonetarySettlementFrame(books: Books, players: seq<PlayerResult>, botId: UserId, u: UserId)
    ensures MonetarySettled(books, players, botId).ranks.Keys == books.ranks.Keys
    ensures FindDealer(players, botId).None? ==> MonetarySettled(books, players, botId) == books
    ensures u == botId || u !in Ids(players) ==> View(MonetarySettled(books, players, botId), u) == View(books, u)
  {
    match FindDealer(players, botId)
    case None =>
    case Some(dealer) =>
      if u == botId || u !in Ids(players) {
        WagerSettledFrame(books, players, dealer, botId, u);
      }
  }

  /**
    Wager settlement of one player against a dealt dealer hand (players distinct).
    Beating the dealer credits stake + stake * multiplier, adds stake * multiplier
    to the earnings and one win; losing credits nothing, takes the stake off the
    earnings and adds one loss; a tie refunds the stake and leaves the row alone.
    A user without a rank row still gets the credit.
   */
  lemma MonetarySettlementPlayer(books: Books, players: seq<PlayerResult>, botId: UserId, p: PlayerResult)
    requires DistinctUsers(players)
    requires p in players && p.userId != botId && FindDealer(players, botId).Some?
    ensures var after := MonetarySettled(books, players, botId);
      var dealer := FindDealer(players, botId).value;
      var u := p.userId;
      var mult := GetMultiplier(p.resultScore);
      && (ComparePlayers(p, dealer) > 0 ==>
            Balance(after.ledger, u) == Balance(books.ledger, u) + p.bet + p.bet * mult
            && (u in books.ranks ==> after.ranks[u] == books.ranks[u].(earnings := books.ranks[u].earnings + p.bet * mult, wins := books.ranks[u].wins + 1)))
      && (ComparePlayers(p, dealer) < 0 ==>
            Balance(after.ledger, u) == Balance(books.ledger, u)
            && (u in books.ranks ==> after.ranks[u] == books.ranks[u].(earnings := books.ranks[u].earnings - p.bet, losses := books.ranks[u].losses + 1)))
      && (ComparePlayers(p, dealer) == 0 ==>
            Balance(after.ledger, u) == Balance(books.ledger, u) + p.bet
            && (u in books.ranks ==> after.ranks[u] == books.ranks[u]))
  {
    var dealer := FindDealer(players, botId).value;
    var i :| 0 <= i < |players| && players[i] == p;
    var step := WagerStep(books, p, dealer, botId);
    WagerSettledPlayer(books, players, dealer, botId, i);
    StepPays(books, p, dealer, botId);
    PaidAgainstView(books, step, MonetarySettled(books, players, botId), p, dealer);
  }

  /** What one player's settlement against the dealer does to that player's balance and rank row. */
  predicate PaidAgainst(before: Books, after: Books, p: PlayerResult, dealer: PlayerResult) {
    var u := p.userId;
    var mult := GetMultiplier(p.resultScore);
    && (ComparePlayers(p, dealer) > 0 ==>
          Balance(after.ledger, u) == Balance(before.ledger, u) + p.bet + p.bet * mult
          && (u in before.ranks ==> u in after.ranks && after.ranks[u] == before.ranks[u].(earnings := before.ranks[u].earnings + p.bet * mult, wins := before.ranks[u].wins + 1)))
    && (ComparePlayers(p, dealer) < 0 ==>
          Balance(after.ledger, u) == Balance(before.ledger, u)
          && (u in before.ranks ==> u in after.ranks && after.ranks[u] == before.ranks[u].(earnings := before.ranks[u].earnings - p.bet, losses := before.ranks[u].losses + 1)))
    && (ComparePlayers(p, dealer) == 0 ==>
          Balance(after.ledger, u) == Balance(before.ledger, u) + p.bet
          && (u in before.ranks ==> u in after.ranks && after.ranks[u] == before.ranks[u]))
  }

  /** One settlement pass for a player other than the dealer pays as PaidAgainst says. */
  lemma StepPays(books: Books, p: PlayerResult, dealer: PlayerResult, botId: UserId)
    requires p.userId != botId
    ensures PaidAgainst(books, WagerStep(books, p, dealer, botId), p, dealer)
  {
  }

  /** PaidAgainst only looks at the player's own balance and row. */
  lemma PaidAgainstView(before: Books, a1: Books, a2: Books, p: PlayerResult, dealer: PlayerResult)
    requires PaidAgainst(before, a1, p, dealer) && View(a1, p.userId) == View(a2, p.userId)
    ensures PaidAgainst(before, a2, p, dealer)
  {
    var u := p.userId;
    assert Balance(a1.ledger, u) == Balance(a2.ledger, u);
    assert u in a1.ranks ==> u in a2.ranks && a1.ranks[u] == a2.ranks[u];
  }
}
