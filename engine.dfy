/**
  The per-channel session state machine of the plugin (src/index.ts:189-478,
  588-623). The three database tables and the monetary ledger are fields of
  one object; every chat event is a method that updates them.
 */
module Engine {
  import opened Wrappers
  import opened Cards
  import opened Hands
  import opened Deck
  import opened Players
  import opened Compare
  import opened Settlement

  /** GameState (src/index.ts:71-75). */
  datatype GameState = Idle | Recruiting | Playing

  /** A row of bull_card_games; `updatedAt` is a timestamp in milliseconds. */
  datatype Game = Game(state: GameState, members: seq<UserId>, bets: map<UserId, int>, updatedAt: int)

  datatype Refusal = BalanceUnavailable | InsufficientFunds

  /**
    What the join middleware does with a message: hands it on to the next
    middleware, answers it with a refusal, or admits the sender.
   */
  datatype JoinOutcome = PassedOn | Refused(reason: Refusal) | Joined

  /** A game untouched for longer than ten minutes may be replaced by a new one. */
  const StaleAfter: int := 10 * 60 * 1000

  predicate NoDuplicates(s: seq<UserId>) {
    forall i, j :: 0 <= i < j < |s| ==> s[i] != s[j]
  }

  /**
    The shape every game row keeps: members are unique, only members bet, an idle
    game is empty, wager-mode members all hold a positive stake, and peer-mode
    bets are all zero.
   */
  predicate WellFormed(g: Game, monetary: bool) {
    && NoDuplicates(g.members)
    && (forall u :: u in g.bets ==> u in g.members)
    && (g.state == Idle ==> g.members == [] && g.bets == map[])
    && (monetary ==> forall u :: u in g.members ==> u in g.bets && g.bets[u] > 0)
    && (!monetary ==> forall u :: u in g.bets ==> g.bets[u] == 0)
  }

  /** `game.bets?.[userId] || 0`. */
  function Stake(bets: map<UserId, int>, u: UserId): (stake: int)
    ensures u !in bets ==> stake == 0
    ensures (forall v :: v in bets ==> bets[v] > 0) ==> (stake > 0 <==> u in bets)
  {
    if u in bets then bets[u] else 0
  }

  /** The dealer's display name, `👑 庄家 (${name || 'Bot'})`. */
  function DealerLabel(botName: string): (shown: string)
    ensures |shown| > |"👑 庄家 ()"| && shown[..|"👑 庄家 ("|] == "👑 庄家 (" && shown[|shown| - 1] == ')'
  {
    "👑 庄家 (" + (if botName == "" then "Bot" else botName) + ")"
  }

  /** A dealt hand: five cards. */
  type FiveCards = h: seq<Card> | |h| == 5
    witness [Card(Spade, Ace), Card(Spade, Two), Card(Spade, Three), Card(Spade, Four), Card(Spade, Five)]

  /** What the dealing loop settles for a participant before the hand is scored. */
  datatype Seat = Seat(userId: UserId, userName: string, hand: FiveCards, bet: int)

  /** A seat's scored hand: the record runAutoGame stores in bull_card_players. */
  function Scored(channel: ChannelId, s: Seat): PlayerResult {
    PlayerResult(channel, s.userId, s.userName, s.hand, HandScore(s.hand), ScoreName(HandScore(s.hand)), MaxCard(s.hand), s.bet)
  }

  /** Every seat scored, in order: the i-th record is the i-th seat's. */
  function ScoredAll(channel: ChannelId, seats: seq<Seat>): seq<PlayerResult> {
    seq(|seats|, i requires 0 <= i < |seats| => Scored(channel, seats[i]))
  }

  /** Scoring one more seat appends its record. */
  lemma ScoredAllStep(channel: ChannelId, seats: seq<Seat>, seat: Seat)
    ensures ScoredAll(channel, seats + [seat]) == ScoredAll(channel, seats) + [Scored(channel, seat)]
  {
    var lhs, rhs := ScoredAll(channel, seats + [seat]), ScoredAll(channel, seats) + [Scored(channel, seat)];
    forall i | 0 <= i < |lhs| ensures lhs[i] == rhs[i] {
      if i < |seats| {
        assert (seats + [seat])[i] == seats[i];
      }
    }
  }

  function Min(a: int, b: int): int {
    if a <= b then a else b
  }

  // ---------------------------------------------------------------------
  // ensureRank
  // ---------------------------------------------------------------------

  /**
    The rank table after ensureRank: a missing row is created with zero counters
    under the given name (the user id when the name is empty); an existing row
    takes the new name when one is given.
   */
  function EnsuredRank(ranks: Ranks, u: UserId, name: string): (r: Ranks)
    ensures r.Keys == ranks.Keys + {u}
    ensures forall v :: v in ranks && v != u ==> r[v] == ranks[v]
  {
    if u !in ranks then ranks[u := RankEntry(if name == "" then u else name, 0, 0, 0)]
    else if name != "" && ranks[u].userName != name then ranks[u := ranks[u].(userName := name)]
    else ranks
  }

  /** ensureRank never touches a row's counters, and running it twice is running it once. */
  lemma EnsuredRankKeepsCounters(ranks: Ranks, u: UserId, name: string)
    ensures var r := EnsuredRank(ranks, u, name);
      && (u in ranks ==> r[u].wins == ranks[u].wins && r[u].losses == ranks[u].losses && r[u].earnings == ranks[u].earnings)
      && (u !in ranks ==> r[u].wins == 0 && r[u].losses == 0 && r[u].earnings == 0)
      && (name != "" ==> r[u].userName == name)
      && EnsuredRank(r, u, name) == r
  {
  }

  // ---------------------------------------------------------------------
  // Stakes and refunds
  // ---------------------------------------------------------------------

  /** What resetGame gives back to `u`: its bet when positive, otherwise nothing. */
  function Refundable(bets: map<UserId, int>, u: UserId): nat {
    if u in bets && bets[u] > 0 then bets[u] else 0
  }

  /** The bets of the users in `keep`. */
  function Restrict(bets: map<UserId, int>, keep: set<UserId>): (r: map<UserId, int>)
    ensures r.Keys == bets.Keys * keep
    ensures forall u :: u in r ==> r[u] == bets[u]
  {
    map u | u in bets && u in keep :: bets[u]
  }

  /** The ledger once every positive bet has been credited back with monetary.gain. */
  function Refunded(ledger: Ledger, bets: map<UserId, int>): (r: Ledger)
    ensures r.Keys == ledger.Keys + (set u | u in bets && bets[u] > 0)
    ensures forall u :: Balance(r, u) == Balance(ledger, u) + Refundable(bets, u)
  {
    map u | u in ledger.Keys + (set v | v in bets && bets[v] > 0) :: Balance(ledger, u) + Refundable(bets, u)
  }

  /** The ledger once every positive bet has been charged with monetary.cost, as the joins do. */
  function Staked(ledger: Ledger, bets: map<UserId, int>): (r: Ledger)
    ensures r.Keys == ledger.Keys
    ensures forall u :: u in ledger ==> r[u] == ledger[u] - Refundable(bets, u)
  {
    map u | u in ledger :: ledger[u] - Refundable(bets, u)
  }

  /** Refunding the first users one at a time: the next user's refund is one more gain. */
  lemma RefundStep(ledger: Ledger, bets: map<UserId, int>, done: set<UserId>, u: UserId)
    requires u in bets && u !in done
    ensures Refunded(ledger, Restrict(bets, done + {u}))
         == if bets[u] > 0 then Gain(Refunded(ledger, Restrict(bets, done)), u, bets[u])
            else Refunded(ledger, Restrict(bets, done))
  {
    var before := Refunded(ledger, Restrict(bets, done));
    var after := Refunded(ledger, Restrict(bets, done + {u}));
    var expected := if bets[u] > 0 then Gain(before, u, bets[u]) else before;
    RefundStepKeys(ledger, bets, done, u);
    forall v | v in after ensures after[v] == expected[v] {
      RefundableStep(bets, done, u, v);
      assert Balance(after, v) == Balance(expected, v);
    }
  }

  lemma RefundableStep(bets: map<UserId, int>, done: set<UserId>, u: UserId, v: UserId)
    requires u in bets && u !in done
    ensures Refundable(Restrict(bets, done + {u}), v)
         == Refundable(Restrict(bets, done), v) + (if v == u then Refundable(bets, u) else 0)
  {
  }

  lemma RefundStepKeys(ledger: Ledger, bets: map<UserId, int>, done: set<UserId>, u: UserId)
    requires u in bets && u !in done
    ensures var before := Refunded(ledger, Restrict(bets, done));
      Refunded(ledger, Restrict(bets, done + {u})).Keys
      == (if bets[u] > 0 then Gain(before, u, bets[u]) else before).Keys
  {
    var r0, r1 := Restrict(bets, done), Restrict(bets, done + {u});
    assert (set v | v in r1 && r1[v] > 0) == (set v | v in r0 && r0[v] > 0) + (if bets[u] > 0 then {u} else {});
  }

  /**
    A game's stakes are exactly what a reset gives back: charging every positive
    bet and then refunding them leaves every account holder's balance as it was.
   */
  lemma RefundUndoesStakes(ledger: Ledger, bets: map<UserId, int>)
    requires forall u :: u in bets && bets[u] > 0 ==> u in ledger
    ensures Refunded(Staked(ledger, bets), bets) == ledger
  {
    var r := Refunded(Staked(ledger, bets), bets);
    assert r.Keys == ledger.Keys;
    forall u | u in ledger ensures r[u] == ledger[u] {
      assert Balance(r, u) == Balance(Staked(ledger, bets), u) + Refundable(bets, u);
    }
  }

  /** A successful wager-mode join charges the new stake on top of the earlier ones. */
  lemma JoinStakes(ledger: Ledger, bets: map<UserId, int>, u: UserId, stake: int)
    requires u !in bets && u in ledger && stake > 0
    ensures var before := Staked(ledger, bets);
      Staked(ledger, bets[u := stake]) == before[u := before[u] - stake]
  {
    var before := Staked(ledger, bets);
    var after := Staked(ledger, bets[u := stake]);
    assert after.Keys == before[u := before[u] - stake].Keys;
    forall v | v in after ensures after[v] == before[u := before[u] - stake][v] {
      assert Refundable(bets[u := stake], v) == if v == u then stake else Refundable(bets, v);
    }
  }

  /** The refund loop of resetGame: one monetary.gain per positive bet, in any order of the users. */
  method RefundAll(ledger0: Ledger, bets: map<UserId, int>) returns (ledger: Ledger)
    ensures ledger == Refunded(ledger0, bets)
  {
    ledger := ledger0;
    var pending := bets.Keys;
    RefundNothing(ledger0, bets);
    while pending != {}
      invariant pending <= bets.Keys
      invariant ledger == Refunded(ledger0, Restrict(bets, bets.Keys - pending))
      decreases |pending|
    {
      var u :| u in pending;
      RefundStep(ledger0, bets, bets.Keys - pending, u);
      if bets[u] > 0 {
        ledger := Gain(ledger, u, bets[u]);
      }
      assert bets.Keys - (pending - {u}) == (bets.Keys - pending) + {u};
      pending := pending - {u};
    }
    RestrictAll(bets, bets.Keys - pending);
  }

  lemma RefundNothing(ledger: Ledger, bets: map<UserId, int>)
    ensures Refunded(ledger, Restrict(bets, bets.Keys - bets.Keys)) == ledger
  {
    var r := Refunded(ledger, Restrict(bets, bets.Keys - bets.Keys));
    assert r.Keys == ledger.Keys;
  }

  lemma RestrictAll(bets: map<UserId, int>, keep: set<UserId>)
    requires keep == bets.Keys
    ensures Restrict(bets, keep) == bets
  {
  }

  /** handleNormalSettlement's winners loop (src/index.ts:493-496): one more win per winner that has a rank row. */
  method AddWins(table0: Ranks, winners: seq<PlayerResult>) returns (table: Ranks)
    ensures table == CreditWins(table0, winners)
  {
    table := table0;
    for i := 0 to |winners|
      invariant table == CreditWins(table0, winners[..i])
    {
      assert winners[..i + 1][..i] == winners[..i];
      var u := winners[i].userId;
      if u in table {
        table := table[u := table[u].(wins := table[u].wins + 1)];
      }
    }
    assert winners[..|winners|] == winners;
  }

  /** handleNormalSettlement's losers loop (src/index.ts:497-500): one more loss per loser that has a rank row. */
  method AddLosses(table0: Ranks, losers: seq<PlayerResult>) returns (table: Ranks)
    ensures table == CreditLosses(table0, losers)
  {
    table := table0;
    for i := 0 to |losers|
      invariant table == CreditLosses(table0, losers[..i])
    {
      assert losers[..i + 1][..i] == losers[..i];
      var u := losers[i].userId;
      if u in table {
        table := table[u := table[u].(losses := table[u].losses + 1)];
      }
    }
    assert losers[..|losers|] == losers;
  }

  /** The body of handleNormalSettlement on the rank table: pick a strongest head, split, and run both loops. */
  method SettlePeers(table0: Ranks, players: seq<PlayerResult>) returns (table: Ranks)
    ensures table == NormalSettled(table0, players)
  {
    table := table0;
    if |players| == 0 {
      return;
    }
    assert IsTop(players, Best(players));
    var top :| IsTop(players, top);
    var winners := Winners(players, top);
    var losers := Losers(players, winners);
    table := AddWins(table, winners);
    table := AddLosses(table, losers);
    SettledByAnyTop(table0, players, top);
  }

  /** One pass of the dealing loop once the hand is cut: score it and build its record. */
  method ScoreHand(channel: ChannelId, seat: Seat) returns (p: PlayerResult)
    ensures p == Scored(channel, seat)
  {
    var scoreName, scoreValue := CalculateHandValue(seat.hand);
    var maxCard := MaxCard(seat.hand);
    p := PlayerResult(channel, seat.userId, seat.userName, seat.hand, scoreValue, scoreName, maxCard, seat.bet);
  }

  /**
    One pass of handleMonetarySettlement's loop for a player other than the
    dealer (src/index.ts:521-552): a win pays stake + profit and books the profit
    and a win, a loss books the lost stake and a loss, a tie refunds the stake.
    A user without a rank row keeps none, as `database.set` on no row does nothing.
   */
  method SettleAgainstDealer(table: Ranks, accounts: Ledger, p: PlayerResult, dealer: PlayerResult, botId: UserId)
    returns (table': Ranks, accounts': Ledger)
    requires p.userId != botId
    ensures Books(table', accounts') == WagerStep(Books(table, accounts), p, dealer, botId)
  {
    table', accounts' := table, accounts;
    var diff := ComparePlayers(p, dealer);
    var u := p.userId;
    if diff > 0 {
      var profit := Profit(p);
      accounts' := Gain(accounts', u, p.bet + profit);
      if u in table' {
        table' := table'[u := table'[u].(earnings := table'[u].earnings + profit, wins := table'[u].wins + 1)];
      }
    } else if diff < 0 {
      if u in table' {
        table' := table'[u := table'[u].(earnings := table'[u].earnings - p.bet, losses := table'[u].losses + 1)];
      }
    } else {
      accounts' := Gain(accounts', u, p.bet);
    }
  }

  /** Five-card hands in a pile of n: k fit when 5k <= n, and exactly k when fewer than five are left over. */
  lemma FloorFive(n: nat, k: nat)
    ensures 5 * k <= n ==> k <= n / 5
    ensures 5 * k <= n < 5 * k + 5 ==> n / 5 == k
  {
  }

  /** Dealing with enough cards: every participant gets a hand exactly when there are at most 41. */
  lemma EveryoneDealt(participants: nat)
    ensures Min(participants, 52 * DeckCount(participants) / 5) == participants <==> participants <= 41
  {
    DeckCountCoversIff(participants);
  }

  lemma SeqAppendAssoc<T>(a: seq<T>, b: seq<T>, c: seq<T>)
    ensures a + (b + c) == (a + b) + c
  {
  }

  /**
    The invariant of the plugin's tables: every game row is well formed, every
    member has a rank row, and an armed timer belongs to a recruiting game.
   */
  ghost predicate Consistent(games: map<ChannelId, Game>, ranks: Ranks, timers: set<ChannelId>, monetary: bool) {
    && (forall c :: c in games ==> WellFormed(games[c], monetary))
    && (forall c, u :: c in games && u in games[c].members ==> u in ranks)
    && (forall c :: c in timers ==> c in games && games[c].state == Recruiting)
  }

  /**
    Writing one game row keeps the invariant when the row is well formed, its
    members have rank rows, no rank row goes away, and a timer stays armed only
    on a recruiting game.
   */
  lemma ConsistentWrite(games: map<ChannelId, Game>, ranks: Ranks, timers: set<ChannelId>, monetary: bool,
                        channel: ChannelId, g: Game, ranks': Ranks, timers': set<ChannelId>)
    requires Consistent(games, ranks, timers, monetary)
    requires WellFormed(g, monetary)
    requires ranks.Keys <= ranks'.Keys
    requires forall u :: u in g.members ==> u in ranks'
    requires timers' <= timers + {channel}
    requires channel in timers' ==> g.state == Recruiting
    ensures Consistent(games[channel := g], ranks', timers', monetary)
  {
  }

  /** Disarming a timer keeps the invariant. */
  lemma ConsistentDisarm(games: map<ChannelId, Game>, ranks: Ranks, timers: set<ChannelId>, monetary: bool, channel: ChannelId)
    requires Consistent(games, ranks, timers, monetary)
    ensures Consistent(games, ranks, timers - {channel}, monetary)
  {
  }

  // ---------------------------------------------------------------------
  // The plugin state
  // ---------------------------------------------------------------------

  class BullCard {
    /** Config: wager mode against the bot dealer instead of peer mode. */
    const enableMonetary: bool
    /** Whether the monetary service is installed. */
    const monetaryAvailable: bool
    /** Config: the message that joins a peer-mode game. */
    const entryKeyword: string
    const botId: UserId
    const botName: string

    /** bull_card_games, keyed by channel. */
    var games: map<ChannelId, Game>
    /** bull_card_rank, keyed by user. */
    var ranks: Ranks
    /** The monetary table: one balance per user. */
    var ledger: Ledger
    /** bull_card_players, grouped by channel. */
    var playerRows: map<ChannelId, seq<PlayerResult>>
    /** Channels whose recruiting timer is armed. */
    var timers: set<ChannelId>

    ghost predicate Valid()
      reads this`games, this`ranks, this`timers
    {
      Consistent(games, ranks, timers, enableMonetary)
    }

    /**
      The plugin as loaded (src/index.ts:145-186): the tables it declares hold
      whatever earlier runs left in them, and no timer is armed yet.
     */
    constructor (enableMonetary: bool, monetaryAvailable: bool, entryKeyword: string, botId: UserId, botName: string,
                 games: map<ChannelId, Game>, ranks: Ranks, ledger: Ledger, playerRows: map<ChannelId, seq<PlayerResult>>)
      requires Consistent(games, ranks, {}, enableMonetary)
      ensures Valid()
      ensures this.enableMonetary == enableMonetary && this.monetaryAvailable == monetaryAvailable
      ensures this.entryKeyword == entryKeyword && this.botId == botId && this.botName == botName
      ensures this.games == games && this.ranks == ranks && this.ledger == ledger && this.playerRows == playerRows
      ensures timers == {}
    {
      this.enableMonetary := enableMonetary;
      this.monetaryAvailable := monetaryAvailable;
      this.entryKeyword := entryKeyword;
      this.botId := botId;
      this.botName := botName;
      this.games := games;
      this.ranks := ranks;
      this.ledger := ledger;
      this.playerRows := playerRows;
      timers := {};
    }

    /** Fewest members runAutoGame plays with: one against the dealer, two among peers. */
    function MinPlayers(): (n: nat)
      ensures n >= 1
      ensures n == 1 <==> enableMonetary
    {
      if enableMonetary then 1 else 2
    }

    /** Who takes part once recruiting closes: the members, then the dealer in wager mode. */
    function Participants(members: seq<UserId>): (ps: seq<UserId>)
      ensures |members| <= |ps| && ps[..|members|] == members
      ensures enableMonetary <==> |ps| == |members| + 1
      ensures enableMonetary ==> ps[|ps| - 1] == botId
    {
      members + (if enableMonetary then [botId] else [])
    }

    /** A participant's display name: the dealer label, the rank row's name, or the user id. */
    function NameOf(u: UserId): (name: string)
      reads this`ranks
      ensures u != botId ==> name == u || (u in ranks && name == ranks[u].userName)
      ensures u != "" ==> name != ""
    {
      if u == botId then DealerLabel(botName)
      else if u in ranks && ranks[u].userName != "" then ranks[u].userName
      else u
    }

    /** A participant's stake; the dealer stakes nothing. */
    function StakeFor(bets: map<UserId, int>, u: UserId): (stake: int)
      ensures stake != 0 ==> u != botId && u in bets && stake == bets[u]
    {
      if u == botId then 0 else Stake(bets, u)
    }

    /** The ledger after a reset of `channel`'s game with the given refund flag. */
    function AfterReset(ledger0: Ledger, games0: map<ChannelId, Game>, channel: ChannelId, refund: bool): (ledger: Ledger)
      ensures forall u :: Balance(ledger0, u) <= Balance(ledger, u)
      ensures !refund || channel !in games0 || !enableMonetary || !monetaryAvailable ==> ledger == ledger0
    {
      if refund && channel in games0 && enableMonetary && monetaryAvailable then Refunded(ledger0, games0[channel].bets)
      else ledger0
    }

    /** The tests the join middleware makes before it looks at the sender's balance. */
    predicate Admissible(channel: ChannelId, userId: UserId, content: string, stake: Option<int>): (ok: bool)
      reads this`games
      ensures ok ==> channel in games && games[channel].state == Recruiting && userId !in games[channel].members
      ensures ok && enableMonetary ==> monetaryAvailable && stake.Some? && stake.value > 0
      ensures ok && !enableMonetary ==> content == entryKeyword && content != ""
    {
      && content != ""
      && channel in games && games[channel].state == Recruiting
      && userId !in games[channel].members
      && if enableMonetary then monetaryAvailable && stake.Some? && stake.value > 0
         else content == entryKeyword
    }

    /** ensureRank (src/index.ts:616-623). */
    method EnsureRank(userId: UserId, userName: string)
      modifies this
      ensures ranks == EnsuredRank(old(ranks), userId, userName)
      ensures games == old(games) && ledger == old(ledger) && playerRows == old(playerRows) && timers == old(timers)
    {
      if userId !in ranks {
        ranks := ranks[userId := RankEntry(if userName == "" then userId else userName, 0, 0, 0)];
      } else if userName != "" && ranks[userId].userName != userName {
        ranks := ranks[userId := ranks[userId].(userName := userName)];
      }
    }

    /**
      The join middleware (src/index.ts:189-259). `content` is the trimmed message;
      `stake` is its reading as a number when that is an integer (None for NaN and
      fractions). An admissible message is refused when the sender has no balance
      row or cannot cover the stake; otherwise the sender is appended to the
      members with the stake (0 in peer mode), the stake is charged, and the
      sender gets a rank row. Nothing changes unless the sender joins.
     */
    method Join(channel: ChannelId, userId: UserId, userName: string, content: string, stake: Option<int>, now: int)
      returns (outcome: JoinOutcome)
      requires Valid()
      modifies this
      ensures Valid()
      ensures outcome == PassedOn <==> !old(Admissible(channel, userId, content, stake))
      ensures outcome == Refused(BalanceUnavailable) <==>
        old(Admissible(channel, userId, content, stake)) && enableMonetary && userId !in old(ledger)
      ensures outcome == Refused(InsufficientFunds) <==>
        old(Admissible(channel, userId, content, stake)) && enableMonetary && userId in old(ledger)
        && old(ledger)[userId] < stake.value
      ensures outcome != Joined ==>
        games == old(games) && ranks == old(ranks) && ledger == old(ledger)
      ensures outcome == Joined ==>
        var g := old(games)[channel];
        var bet := if enableMonetary then stake.value else 0;
        && games == old(games)[channel := g.(members := g.members + [userId], bets := g.bets[userId := bet], updatedAt := now)]
        && ledger == (if enableMonetary then old(ledger)[userId := old(ledger)[userId] - bet] else old(ledger))
        && ranks == EnsuredRank(old(ranks), userId, userName)
      ensures playerRows == old(playerRows) && timers == old(timers)
    {
      outcome := PassedOn;
      ghost var games0, ranks0 := games, ranks;
      if content == "" {
        return;
      }
      if channel !in games || games[channel].state != Recruiting {
        return;
      }
      var game := games[channel];
      if userId in game.members {
        return;
      }
      var bet := 0;
      if enableMonetary {
        if !monetaryAvailable {
          return;
        }
        if stake.None? || stake.value <= 0 {
          return;
        }
        bet := stake.value;
        if userId !in ledger {
          outcome := Refused(BalanceUnavailable);
          return;
        }
        if ledger[userId] < bet {
          outcome := Refused(InsufficientFunds);
          return;
        }
        ledger := ledger[userId := ledger[userId] - bet];
      } else {
        if content != entryKeyword {
          return;
        }
      }
      var joined := game.(members := game.members + [userId], bets := game.bets[userId := bet], updatedAt := now);
      games := games[channel := joined];
      EnsureRank(userId, userName);
      outcome := Joined;
      assert WellFormed(joined, enableMonetary) by {
        forall u | u in joined.bets ensures u in joined.members {
          if u != userId {
            assert u in game.members;
          }
        }
      }
      assert forall u :: u in joined.members ==> u in game.members || u == userId;
      ConsistentWrite(games0, ranks0, timers, enableMonetary, channel, joined, ranks, timers);
    }

    /**
      resetGame (src/index.ts:588-614): disarms the timer; with the refund flag, a
      game row, wager mode and the monetary service, credits back every positive
      bet; then empties the game and sets it IDLE (a channel without a row keeps none).
     */
    method ResetGame(channel: ChannelId, refund: bool, now: int)
      requires Valid()
      modifies this
      ensures Valid()
      ensures timers == old(timers) - {channel}
      ensures games == if channel in old(games) then old(games)[channel := Game(Idle, [], map[], now)] else old(games)
      ensures ledger == AfterReset(old(ledger), old(games), channel, refund)
      ensures ranks == old(ranks) && playerRows == old(playerRows)
    {
      ConsistentDisarm(games, ranks, timers, enableMonetary, channel);
      timers := timers - {channel};
      if refund && channel in games && enableMonetary && monetaryAvailable {
        ledger := RefundAll(ledger, games[channel].bets);
      }
      if channel in games {
        ConsistentWrite(games, ranks, timers, enableMonetary, channel, Game(Idle, [], map[], now), ranks, timers);
        games := games[channel := Game(Idle, [], map[], now)];
      }
    }

    /**
      bullCard.来一局 (src/index.ts:288-351). The channel's timer is disarmed first.
      A game that is not IDLE blocks the start unless it has been idle for more
      than ten minutes, in which case it is reset with a refund. A start that goes
      ahead opens recruiting (with the starter as first member in peer mode),
      gives the starter a rank row and arms the timer. After a stale reset the
      new game is written over the old row, which is what the command is for;
      `StartAsWritten` is the command as the source has it.
     */
    method Start(channel: ChannelId, userId: UserId, userName: string, now: int) returns (started: bool)
      requires Valid()
      modifies this
      ensures Valid()
      ensures var busy := channel in old(games) && old(games)[channel].state != Idle;
        started <==> !busy || now - old(games)[channel].updatedAt > StaleAfter
      ensures !started ==>
        games == old(games) && ranks == old(ranks) && ledger == old(ledger) && timers == old(timers) - {channel}
      ensures started ==>
        var busy := channel in old(games) && old(games)[channel].state != Idle;
        && games == old(games)[channel := Game(Recruiting, if enableMonetary then [] else [userId], map[], now)]
        && ranks == EnsuredRank(old(ranks), userId, userName)
        && ledger == AfterReset(old(ledger), old(games), channel, busy)
        && timers == old(timers) + {channel}
      ensures playerRows == old(playerRows)
    {
      ConsistentDisarm(games, ranks, timers, enableMonetary, channel);
      timers := timers - {channel};
      if channel in games && games[channel].state != Idle {
        if now - games[channel].updatedAt > StaleAfter {
          ResetGame(channel, true, now);
        } else {
          started := false;
          return;
        }
      }
      Open(channel, userId, userName, now);
      started := true;
    }

    /**
      bullCard.来一局 as the source has it (src/index.ts:288-351), with
      `ctx.database.create` as an insert that the table rejects when its primary
      key `channelId` (src/index.ts:158) is already taken. A stale reset leaves
      the row in place and sets `game` to null, so the start goes to `create`,
      which fails: the command ends after the refund and the reset, with no new
      game, no rank row and no timer. Only a start on a missing or IDLE row opens
      recruiting.
     */
    method StartAsWritten(channel: ChannelId, userId: UserId, userName: string, now: int) returns (started: bool)
      requires Valid()
      modifies this
      ensures Valid()
      ensures started <==> channel !in old(games) || old(games)[channel].state == Idle
      ensures var busy := channel in old(games) && old(games)[channel].state != Idle;
        busy && now - old(games)[channel].updatedAt > StaleAfter ==>
          && games == old(games)[channel := Game(Idle, [], map[], now)]
          && ledger == AfterReset(old(ledger), old(games), channel, true)
          && ranks == old(ranks) && timers == old(timers) - {channel}
      ensures var busy := channel in old(games) && old(games)[channel].state != Idle;
        busy && now - old(games)[channel].updatedAt <= StaleAfter ==>
          games == old(games) && ranks == old(ranks) && ledger == old(ledger) && timers == old(timers) - {channel}
      ensures started ==>
        && games == old(games)[channel := Game(Recruiting, if enableMonetary then [] else [userId], map[], now)]
        && ranks == EnsuredRank(old(ranks), userId, userName)
        && ledger == old(ledger)
        && timers == old(timers) + {channel}
      ensures playerRows == old(playerRows)
    {
      ConsistentDisarm(games, ranks, timers, enableMonetary, channel);
      timers := timers - {channel};
      var found := channel in games;
      if found && games[channel].state != Idle {
        if now - games[channel].updatedAt > StaleAfter {
          ResetGame(channel, true, now);
          found := false;
        } else {
          started := false;
          return;
        }
      }
      if !found && channel in games {
        // create: the key is taken, so the insert is rejected and the handler stops
        started := false;
        return;
      }
      Open(channel, userId, userName, now);
      started := true;
    }

    /** The part of the start command after the stale check (src/index.ts:305-349): open recruiting and arm the timer. */
    method Open(channel: ChannelId, userId: UserId, userName: string, now: int)
      requires Valid()
      modifies this
      ensures Valid()
      ensures games == old(games)[channel := Game(Recruiting, if enableMonetary then [] else [userId], map[], now)]
      ensures ranks == EnsuredRank(old(ranks), userId, userName)
      ensures timers == old(timers) + {channel}
      ensures ledger == old(ledger) && playerRows == old(playerRows)
    {
      var initialMembers := if enableMonetary then [] else [userId];
      ghost var games0, ranks0, timers0 := games, ranks, timers;
      games := games[channel := Game(Recruiting, initialMembers, map[], now)];
      EnsureRank(userId, userName);
      timers := timers + {channel};
      ConsistentWrite(games0, ranks0, timers0, enableMonetary, channel, Game(Recruiting, initialMembers, map[], now), ranks, timers);
    }

    /** bullCard.强制结束 (src/index.ts:353-357): a reset with refund. */
    method ForceEnd(channel: ChannelId, now: int)
      requires Valid()
      modifies this
      ensures Valid()
      ensures timers == old(timers) - {channel}
      ensures games == if channel in old(games) then old(games)[channel := Game(Idle, [], map[], now)] else old(games)
      ensures ledger == AfterReset(old(ledger), old(games), channel, true)
      ensures ranks == old(ranks) && playerRows == old(playerRows)
    {
      ResetGame(channel, true, now);
    }

    /**
      The seats runAutoGame deals: each participant in turn takes the first five
      cards of what is left, until the participants or the cards run out.
     */
    function Seating(participants: seq<UserId>, bets: map<UserId, int>, deck: seq<Card>): (seats: seq<Seat>)
      reads this`ranks
      ensures |seats| <= |participants| && 5 * |seats| <= |deck|
      decreases |participants|
    {
      if |participants| == 0 || |deck| < 5 then []
      else
        [Seat(participants[0], NameOf(participants[0]), deck[..5], StakeFor(bets, participants[0]))]
        + Seating(participants[1..], bets, deck[5..])
    }

    /**
      Dealing: as many seats as there are participants or five-card slices, the
      i-th participant taking cards 5i to 5i+4 of the deck.
     */
    lemma SeatingContents(participants: seq<UserId>, bets: map<UserId, int>, deck: seq<Card>)
      ensures var r := Seating(participants, bets, deck);
        && |r| == Min(|participants|, |deck| / 5)
        && forall i :: 0 <= i < |r| ==>
             (5 * i + 5 <= |deck| && r[i] == Seat(participants[i], NameOf(participants[i]), deck[5 * i..5 * i + 5], StakeFor(bets, participants[i])))
    {
      SeatingLength(participants, bets, deck);
      SeatingAt(participants, bets, deck);
    }

    lemma {:induction false} SeatingLength(participants: seq<UserId>, bets: map<UserId, int>, deck: seq<Card>)
      ensures |Seating(participants, bets, deck)| == Min(|participants|, |deck| / 5)
      decreases |participants|
    {
      FloorFive(|deck|, 0);
      if |participants| > 0 && |deck| >= 5 {
        SeatingLength(participants[1..], bets, deck[5..]);
        FloorFive(|deck|, |deck| / 5);
        FloorFive(|deck| - 5, |deck| / 5 - 1);
      }
    }

    lemma SeatingAt(participants: seq<UserId>, bets: map<UserId, int>, deck: seq<Card>)
      ensures var r := Seating(participants, bets, deck);
        forall i :: 0 <= i < |r| ==>
          (i < |participants| && 5 * i + 5 <= |deck|
           && r[i] == Seat(participants[i], NameOf(participants[i]), deck[5 * i..5 * i + 5], StakeFor(bets, participants[i])))
    {
      var r := Seating(participants, bets, deck);
      forall i | 0 <= i < |r|
        ensures i < |participants| && 5 * i + 5 <= |deck|
        ensures r[i] == Seat(participants[i], NameOf(participants[i]), deck[5 * i..5 * i + 5], StakeFor(bets, participants[i]))
      {
        SeatingIndex(participants, bets, deck, i);
      }
    }

    /** The i-th seat, by induction on i: each step drops one participant and five cards. */
    lemma {:induction false} SeatingIndex(participants: seq<UserId>, bets: map<UserId, int>, deck: seq<Card>, i: nat)
      requires i < |Seating(participants, bets, deck)|
      ensures i < |participants| && 5 * i + 5 <= |deck|
      ensures Seating(participants, bets, deck)[i]
           == Seat(participants[i], NameOf(participants[i]), deck[5 * i..5 * i + 5], StakeFor(bets, participants[i]))
      decreases i
    {
      var r := Seating(participants, bets, deck);
      var tail := Seating(participants[1..], bets, deck[5..]);
      assert r == [Seat(participants[0], NameOf(participants[0]), deck[..5], StakeFor(bets, participants[0]))] + tail;
      if i == 0 {
        assert deck[5 * 0..5 * 0 + 5] == deck[..5];
      } else {
        assert r[i] == tail[i - 1];
        SeatingIndex(participants[1..], bets, deck[5..], i - 1);
        assert participants[1..][i - 1] == participants[i];
        assert deck[5..][5 * (i - 1)..5 * (i - 1) + 5] == deck[5 * i..5 * i + 5];
      }
    }

    /** Unique participants are dealt results of distinct users, as both settlements assume. */
    lemma DealtUsersDistinct(channel: ChannelId, participants: seq<UserId>, bets: map<UserId, int>, deck: seq<Card>)
      requires NoDuplicates(participants)
      ensures DistinctUsers(ScoredAll(channel, Seating(participants, bets, deck)))
    {
      SeatingAt(participants, bets, deck);
    }

    /** A well-formed game's participants are unique unless the bot itself joined a wager game. */
    lemma ParticipantsDistinct(g: Game)
      requires WellFormed(g, enableMonetary)
      ensures NoDuplicates(Participants(g.members)) <==> !enableMonetary || botId !in g.members
    {
      var ps := Participants(g.members);
      if enableMonetary && botId in g.members {
        var i :| 0 <= i < |g.members| && g.members[i] == botId;
        assert ps[i] == ps[|ps| - 1];
      }
    }

    /**
      A bot that joined its own wager game is dealt twice, once as a member and
      once as the dealer pushed last, so two results carry the bot's id.
     */
    lemma BotDealtTwice(channel: ChannelId, members: seq<UserId>, bets: map<UserId, int>, deck: seq<Card>)
      requires enableMonetary && botId in members && 5 * (|members| + 1) <= |deck|
      ensures var r := ScoredAll(channel, Seating(Participants(members), bets, deck));
        exists i, j :: 0 <= i < j < |r| && r[i].userId == botId && r[j].userId == botId
    {
      var ps := Participants(members);
      var r := ScoredAll(channel, Seating(ps, bets, deck));
      SeatingLength(ps, bets, deck);
      SeatingAt(ps, bets, deck);
      FloorFive(|deck|, |ps|);
      var i :| 0 <= i < |members| && members[i] == botId;
      assert ps[i] == botId && ps[|members|] == botId;
      assert r[i].userId == botId && r[|members|].userId == botId;
    }

    /** One deal: the k-th participant takes the first five of the remaining cards. */
    lemma SeatingStep(participants: seq<UserId>, bets: map<UserId, int>, rest: seq<Card>, k: nat)
      requires k < |participants| && |rest| >= 5
      ensures Seating(participants[k..], bets, rest)
           == [Seat(participants[k], NameOf(participants[k]), rest[..5], StakeFor(bets, participants[k]))]
              + Seating(participants[k + 1..], bets, rest[5..])
    {
      assert participants[k..][1..] == participants[k + 1..];
    }

    /** The dealing loop's invariant survives one more hand cut from the front of the rest. */
    lemma DealStep(participants: seq<UserId>, bets: map<UserId, int>, deck: seq<Card>, seats: seq<Seat>, rest: seq<Card>, k: nat)
      requires k < |participants| && |rest| >= 5
      requires 5 * k <= |deck| && rest == deck[5 * k..]
      requires seats + Seating(participants[k..], bets, rest) == Seating(participants, bets, deck)
      ensures 5 * (k + 1) <= |deck| && rest[5..] == deck[5 * (k + 1)..]
      ensures (seats + [Seat(participants[k], NameOf(participants[k]), rest[..5], StakeFor(bets, participants[k]))])
              + Seating(participants[k + 1..], bets, rest[5..]) == Seating(participants, bets, deck)
    {
      var seat := Seat(participants[k], NameOf(participants[k]), rest[..5], StakeFor(bets, participants[k]));
      var tail := Seating(participants[k + 1..], bets, rest[5..]);
      SeatingStep(participants, bets, rest, k);
      SeqAppendAssoc(seats, [seat], tail);
    }

    /**
      The dealing loop of runAutoGame (src/index.ts:419-455): `deck.splice(0, 5)`
      per participant, stopping early once fewer than five cards are left; each
      hand is scored as it is dealt.
     */
    method DealHands(channel: ChannelId, participants: seq<UserId>, bets: map<UserId, int>, deck: seq<Card>)
      returns (results: seq<PlayerResult>, rest: seq<Card>)
      ensures results == ScoredAll(channel, Seating(participants, bets, deck))
      ensures 5 * |results| <= |deck| && rest == deck[5 * |results|..]
    {
      results := [];
      rest := deck;
      ghost var seats: seq<Seat> := [];
      ghost var full := Seating(participants, bets, deck);
      var k := 0;
      while k < |participants|
        invariant 0 <= k <= |participants| && |seats| == k
        invariant 5 * k <= |deck| && rest == deck[5 * k..]
        invariant seats + Seating(participants[k..], bets, rest) == full
        invariant results == ScoredAll(channel, seats) && |results| == k
      {
        var userId := participants[k];
        var name := NameOf(userId);
        var bet := StakeFor(bets, userId);
        if |rest| < 5 {
          break;
        }
        var hand := rest[..5];
        var seat := Seat(userId, name, hand, bet);
        DealStep(participants, bets, deck, seats, rest, k);
        rest := rest[5..];
        var p := ScoreHand(channel, seat);
        ScoredAllStep(channel, seats, seat);
        seats := seats + [seat];
        results := results + [p];
        k := k + 1;
      }
      SeatingDone(participants[k..], bets, rest);
      assert seats + [] == seats;
    }

    /** Dealing stops once the participants or the five-card slices run out. */
    lemma SeatingDone(participants: seq<UserId>, bets: map<UserId, int>, rest: seq<Card>)
      requires |participants| == 0 || |rest| < 5
      ensures Seating(participants, bets, rest) == []
    {
    }

    /**
      The recruiting timer firing (src/index.ts:343-346) and runAutoGame up to the
      display (src/index.ts:382-455). Only a RECRUITING game is played. With fewer
      members than MinPlayers the game is reset with a refund. Otherwise the game
      turns PLAYING, a shuffled shoe of DeckCount decks is dealt to the
      participants, and their results replace the channel's player rows.
     */
    method RunAutoGame(channel: ChannelId, random: nat -> nat, now: int)
      returns (dealt: Option<seq<PlayerResult>>, ghost shoe: seq<Card>)
      requires Valid()
      modifies this
      ensures Valid()
      ensures timers == old(timers) - {channel} && ranks == old(ranks)
      ensures !old(channel in games && games[channel].state == Recruiting) ==>
        dealt == None && games == old(games) && ledger == old(ledger) && playerRows == old(playerRows)
      ensures old(channel in games && games[channel].state == Recruiting && |games[channel].members| < MinPlayers()) ==>
        dealt == None && games == old(games)[channel := Game(Idle, [], map[], now)]
        && ledger == AfterReset(old(ledger), old(games), channel, true) && playerRows == old(playerRows)
      ensures old(channel in games && games[channel].state == Recruiting && |games[channel].members| >= MinPlayers()) ==>
        var g := old(games)[channel];
        var participants := Participants(g.members);
        && dealt.Some?
        && games == old(games)[channel := g.(state := Playing)]
        && ledger == old(ledger)
        && playerRows == old(playerRows)[channel := dealt.value]
        && |shoe| == 52 * DeckCount(|participants|)
        && (forall c: Card :: multiset(shoe)[c] == DeckCount(|participants|))
        && dealt.value == ScoredAll(channel, Seating(participants, g.bets, shoe))
    {
      ConsistentDisarm(games, ranks, timers, enableMonetary, channel);
      timers := timers - {channel};
      dealt := None;
      shoe := [];
      if channel !in games || games[channel].state != Recruiting {
        return;
      }
      if |games[channel].members| < MinPlayers() {
        ResetGame(channel, true, now);
        return;
      }
      var results;
      results, shoe := Play(channel, random);
      dealt := Some(results);
    }

    /** The game moves to Playing: later join messages are turned away (src/index.ts:398-399). */
    method Lock(channel: ChannelId)
      requires Valid() && channel in games && games[channel].state == Recruiting && channel !in timers
      modifies this`games
      ensures Valid()
      ensures games == old(games)[channel := old(games)[channel].(state := Playing)]
    {
      var locked := games[channel].(state := Playing);
      ConsistentWrite(games, ranks, timers, enableMonetary, channel, locked, ranks, timers);
      games := games[channel := locked];
    }

    /** runAutoGame with enough members (src/index.ts:398-455): lock the game, shuffle, deal and store the hands. */
    method Play(channel: ChannelId, random: nat -> nat) returns (results: seq<PlayerResult>, ghost shoe: seq<Card>)
      requires Valid() && channel in games && games[channel].state == Recruiting && channel !in timers
      modifies this`games, this`playerRows
      ensures Valid()
      ensures var g := old(games)[channel];
        var participants := Participants(g.members);
        && games == old(games)[channel := g.(state := Playing)]
        && playerRows == old(playerRows)[channel := results]
        && |shoe| == 52 * DeckCount(|participants|)
        && (forall c: Card :: multiset(shoe)[c] == DeckCount(|participants|))
        && results == ScoredAll(channel, Seating(participants, g.bets, shoe))
      ensures ranks == old(ranks) && ledger == old(ledger) && timers == old(timers)
    {
      var game := games[channel];
      var participants := Participants(game.members);
      ghost var seats;
      results, shoe, seats := DealShoe(channel, participants, game.bets, random);
      Lock(channel);
      playerRows := playerRows[channel := results];
      assert seats == Seating(participants, game.bets, shoe);
    }

    /** createShuffledDeck and the dealing loop (src/index.ts:411-455): a full shoe, dealt and scored. */
    method DealShoe(channel: ChannelId, participants: seq<UserId>, bets: map<UserId, int>, random: nat -> nat)
      returns (results: seq<PlayerResult>, ghost shoe: seq<Card>, ghost seats: seq<Seat>)
      ensures |shoe| == 52 * DeckCount(|participants|)
      ensures forall c: Card :: multiset(shoe)[c] == DeckCount(|participants|)
      ensures seats == Seating(participants, bets, shoe) && results == ScoredAll(channel, seats)
    {
      var deck := CreateShuffledDeck(DeckCount(|participants|), random);
      shoe := deck;
      var rest;
      results, rest := DealHands(channel, participants, bets, deck);
      seats := Seating(participants, bets, deck);
    }

    /** handleNormalSettlement's loops (src/index.ts:482-502), with any strongest result as the head of the sort. */
    method NormalSettlement(players: seq<PlayerResult>)
      modifies this
      ensures ranks == NormalSettled(old(ranks), players)
      ensures games == old(games) && ledger == old(ledger) && playerRows == old(playerRows) && timers == old(timers)
    {
      ranks := SettlePeers(ranks, players);
    }

    /** handleMonetarySettlement's loop (src/index.ts:512-554): every player against the dealer's hand. */
    method MonetarySettlement(players: seq<PlayerResult>)
      modifies this
      ensures Books(ranks, ledger) == MonetarySettled(old(Books(ranks, ledger)), players, botId)
      ensures games == old(games) && playerRows == old(playerRows) && timers == old(timers)
    {
      var found := FindDealer(players, botId);
      if found.None? {
        return;
      }
      var dealer := found.value;
      var table, accounts := ranks, ledger;
      ghost var books0 := Books(table, accounts);
      for i := 0 to |players|
        invariant Books(table, accounts) == WagerSettled(books0, players[..i], dealer, botId)
        invariant unchanged(this)
      {
        var p := players[i];
        assert players[..i + 1] == players[..i] + [p];
        assert WagerSettled(books0, players[..i + 1], dealer, botId) == WagerStep(Books(table, accounts), p, dealer, botId);
        if p.userId == botId {
          continue;
        }
        table, accounts := SettleAgainstDealer(table, accounts, p, dealer, botId);
      }
      assert players[..|players|] == players;
      ranks, ledger := table, accounts;
    }

    /**
      The end of runAutoGame (src/index.ts:470-478): the mode's settlement over the
      dealt results, then a reset without refund.
     */
    method FinishGame(channel: ChannelId, results: seq<PlayerResult>, now: int)
      requires Valid()
      modifies this
      ensures Valid()
      ensures enableMonetary ==> Books(ranks, ledger) == MonetarySettled(old(Books(ranks, ledger)), results, botId)
      ensures !enableMonetary ==> ranks == NormalSettled(old(ranks), results) && ledger == old(ledger)
      ensures games == if channel in old(games) then old(games)[channel := Game(Idle, [], map[], now)] else old(games)
      ensures timers == old(timers) - {channel} && playerRows == old(playerRows)
    {
      if enableMonetary {
        MonetarySettlement(results);
      } else {
        NormalSettlement(results);
      }
      ResetGame(channel, false, now);
    }
  }
}
