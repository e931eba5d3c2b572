# Bull card (斗牛) game engine, in Dafny

This is a model of the game engine of the koishi chat plugin `koishi-plugin-bull-card`, all of it in `src/index.ts`.

In a chat channel, a player starts a round with `bullCard.来一局`. Others join while the round is RECRUITING:
- in peer mode, by sending the entry keyword;
- in wager mode, by sending a positive integer stake, which is charged at once.

When the recruiting timer fires, the round turns PLAYING. A shoe of two or four shuffled decks is dealt in five-card slices, one to each participant. In wager mode the bot dealer is dealt last. Every hand is then scored:

| score | hand |
|---|---|
| 13 | five-small bull |
| 12 | five-flower bull |
| 11 | bomb |
| 10 | bull-bull |
| 1..9 | bull-N |
| 0 | no bull |

Scores are compared lexicographically with the strongest card as tie-break. The round is then settled:
- **Peer mode:** every hand equal to the best one wins and all other hands lose.
- **Wager mode:** each player is paid against the dealer, at a multiplier that depends on the score.

After settlement the channel returns to IDLE.

The project is built from these modules:

| module | file | contents |
|---|---|---|
| `Wrappers` | `cards.dfy` | `Option` |
| `Cards` | `cards.dfy` | suits, ranks, and the three weight tables |
| `Hands` | `hands.dfy` | the hand evaluator: `calculateHandValue` with its helpers, and `calculateMaxCard` |
| `Deck` | `deck.dfy` | `createShuffledDeck` and the deck-count policy |
| `Players` | `players.dfy` | the `bull_card_players` record `PlayerResult` and the user and channel id types |
| `Compare` | `compare.dfy` | `comparePlayers` and `getMultiplier` |
| `Settlement` | `settlement.dfy` | both settlement modes, as functions of the rank table and the ledger before settlement, with their properties |
| `Engine` | `engine.dfy` | the class `BullCard` |

The class `BullCard` holds:
- the tables `bull_card_games`, `bull_card_rank` and `bull_card_players`;
- the monetary ledger;
- the set of channels whose timer is armed.

Each chat event is a method that updates these fields. The methods are the join middleware, start, force-end, the timer firing via `RunAutoGame`, and the end of a round via `FinishGame`. Each loop of the source is a method proved against a function:
- `CalculateHandValue` against `HandScore`;
- `DealHands` against `Seating`;
- the settlement loops against `NormalSettled` and `MonetarySettled`;
- the refund loop against `Refunded`.

The properties the game rules promise are lemmas about those functions. `BullCard.Valid` is the invariant every event preserves:
- game rows are well formed;
- members are unique and every member has a rank row;
- wager-mode members hold positive stakes;
- an armed timer belongs to a recruiting game.

The project models these external inputs as follows:
- `Date.now()` is the parameter `now`.
- `Math.random` in the shuffle is a parameter `random: nat -> nat`. The swap partner of position `i` is `random(i) % (i + 1)`, so any choice in `[0, i]` is allowed.
- The message text is given already trimmed. Its reading as a stake is given as an `Option<int>`, where `None` covers NaN and fractions.

## Model

| member | source | states |
|---|---|---|
| Cards.CardPoint | src/index.ts:139-142 | every card is worth 1..10: its rank value, capped at 10 for J, Q, K |
| Cards.IndicesRoundTrip | src/index.ts:105-127 | the suit and rank orders that deck construction walks list every suit and rank exactly once |
| Cards.WeightsIdentifyCard | src/index.ts:134-138 | two cards with equal rank value and suit weight are the same card, and conversely |
| Cards.StrongerIsStrictTotalOrder | src/index.ts:645-653 | the (rank value, suit weight) order of calculateMaxCard is irreflexive, asymmetric, transitive and total |
| Hands.HandScore | src/index.ts:655-678 | every hand scores between 0 and 13 |
| Hands.IsBomb | src/index.ts:686-690 | the tally loop answers true exactly when some rank occurs exactly four times |
| Hands.IsFiveSmallBull | src/index.ts:680-682 | true exactly when the point total is at most 10 and every card is an A, 2, 3 or 4 (the ranks worth less than 5 points) |
| Hands.IsFiveFlowerBull | src/index.ts:683-685 | true exactly when every card is a J, Q or K (rank value above 10), and then every card is worth 10 points |
| Hands.ScoreName | src/index.ts:659-677 | the label shown for a score is never empty, and it is "没牛" exactly for score 0 |
| Hands.ScoreNamesDistinct | src/index.ts:659-677 | two scores with the same label are the same score, so the label identifies the score |
| Hands.BestValidPair | src/index.ts:663-674 | the nested pair loops yield -1 when no pair leaves a multiple of ten; otherwise they yield a value in 1..10 that no valid pair exceeds and some valid pair reaches, with 0 remapped to 10 |
| Hands.ScanPairsOf | src/index.ts:665-672 | one pass of the inner pair loop never lowers the running maximum, leaves it at least the bull value of every valid pair that starts at position i, and keeps a valid pair that reaches it |
| Hands.CalculateHandValue | src/index.ts:655-678 | the returned score is the hand's score (special hands first, then the best pair) and the name is the one that belongs to that score |
| Hands.MaxCard | src/index.ts:645-653 | the tie-break card is in the hand, no card of the hand is stronger, and of equal cards the first is kept |
| Hands.Keep | src/index.ts:646-652 | the reduce callback keeps the current card exactly when it is strictly stronger (higher rank value, or equal rank and heavier suit), and the card kept is beaten by neither input |
| Hands.ValidPairHasTotalNiu | src/index.ts:663-672 | every pair that leaves a multiple of ten has the bull value of the whole hand's total |
| Hands.NiuScoreIsBestPair | src/index.ts:663-677 | the numeric score is the maximum bull value over valid pairs; it lies in 1..10 exactly when some pair is valid, and it is 0 otherwise |
| Hands.SpecialHandsFirst | src/index.ts:655-661 | score 13 iff five-small; 12 iff five-flower and not five-small; 11 iff bomb and neither of those; every other score is the numeric bull score |
| Hands.FiveOfAKindIsNoBomb | src/index.ts:686-690 | five cards of one rank, possible with two or four decks, are not a bomb |
| Hands.FiveOfAKindScore | src/index.ts:655-690 | five of a kind scores 13 for A or 2, 12 for J/Q/K, 10 for tens and 0 for 3..9 |
| Deck.DeckCount | src/index.ts:411 | the shoe has 4 decks when more than five take part, otherwise 2 |
| Deck.CreateShuffledDeck | src/index.ts:625-639 | the shoe holds 52 × n cards and every card exactly n times; the swap loop keeps the multiset |
| Deck.PushDeck | src/index.ts:628-632 | pushing one deck, suit by suit and rank by rank, adds 52 cards, one more copy of every card |
| Deck.Shuffle | src/index.ts:634-637 | the Fisher-Yates swap loop, whatever the random choices, leaves the array a permutation of its old contents |
| Deck.DeckCountCoversIff | src/index.ts:411 | the shoe has five cards for every participant exactly when there are at most 41 |
| Compare.CompareIsLexicographic | src/index.ts:562-569 | comparePlayers is positive, negative or zero exactly as (score, rank value, suit weight) compares lexicographically |
| Compare.ComparePlayers | src/index.ts:562-569 | unequal scores decide the sign; on equal scores the result is positive exactly when the first tie-break card is stronger and negative exactly when the second one is |
| Compare.CompareZeroIff | src/index.ts:562-569 | two results compare equal exactly when score and tie-break card are equal |
| Compare.CompareAntisymmetric | src/index.ts:562-569 | comparing b with a gives the negation of comparing a with b |
| Compare.CompareTransitive | src/index.ts:562-569 | stronger, at-least-as-strong and equal are all transitive |
| Compare.CompareTotal | src/index.ts:562-569 | any two results are ordered one way or the other, or equal |
| Compare.GetMultiplier | src/index.ts:572-578 | the multiplier is 1, 2, 3 or 4 |
| Compare.MultiplierMonotone | src/index.ts:572-578 | a higher score never pays a smaller multiplier |
| Settlement.Gain | src/index.ts:535 | monetary.gain raises one account by the amount and leaves all others alone |
| Settlement.Best | src/index.ts:485-489 | a non-empty result list has a result at least as strong as all of them |
| Settlement.Winners | src/index.ts:491 | no longer than the list of results, and every winner is one of the results and compares equal to the top result |
| Settlement.Losers | src/index.ts:492 | no longer than the list of results, and every loser is one of the results and is not among the winners |
| Settlement.CreditWins | src/index.ts:493-496 | crediting wins creates and removes no rank rows |
| Settlement.CreditLosses | src/index.ts:497-500 | crediting losses creates and removes no rank rows |
| Settlement.NormalSettled | src/index.ts:482-502 | peer settlement creates and removes no rank rows |
| Settlement.WinnersMembership | src/index.ts:491 | a result is a winner iff it is among the players and equal to the top |
| Settlement.LosersMembership | src/index.ts:492 | a result is a loser iff it is among the players and not a winner |
| Settlement.WinnersOfEqualTops | src/index.ts:489-491 | two tops that compare equal pick the same winners |
| Settlement.WinnersIndependentOfTop | src/index.ts:485-491 | any strongest result as the head of the sort gives the same winner list; the winners do not depend on how the sort breaks ties |
| Settlement.SettledByAnyTop | src/index.ts:485-502 | crediting the winners equal to any strongest result and the losers outside them yields the peer settlement |
| Settlement.WinnersLosersPartition | src/index.ts:491-492 | winners and losers together are the players, as a multiset and per user |
| Settlement.PeerWinners | src/index.ts:485-492 | the top wins; every winner equals the top and is at least as strong as every player; every loser is weaker than the top; every player wins or loses |
| Settlement.CreditWinsEffect | src/index.ts:493-496 | each row's wins go up by the number of that user's winning results and nothing else changes |
| Settlement.CreditLossesEffect | src/index.ts:497-500 | each row's losses go up by the number of that user's losing results and nothing else changes |
| Settlement.NormalSettlementEffect | src/index.ts:482-502 | with distinct players, the winners' and losers' ids split the players' ids; each winner's wins and each loser's losses rise by exactly one; nothing else in the rank table changes |
| Settlement.FindDealer | src/index.ts:513-514 | the dealer's result is the first result with the bot's id; there is none exactly when the bot was not dealt |
| Settlement.Profit | src/index.ts:531-532 | for a non-negative bet the profit lies between one and four times the bet, and for a score of 11 or more it is exactly four times the bet |
| Settlement.WagerStep | src/index.ts:518-552 | one settlement pass creates and removes no rank rows |
| Settlement.WagerSettled | src/index.ts:518-552 | the settlement loop creates and removes no rank rows |
| Settlement.MonetarySettled | src/index.ts:512-554 | wager settlement creates and removes no rank rows |
| Settlement.StepFrame | src/index.ts:518-552 | one settlement pass touches only that player's balance and rank row |
| Settlement.WagerSettledPlayer | src/index.ts:518-552 | with distinct players, each player's balance and rank row after the loop are the outcome of its own pass against the dealer |
| Settlement.MonetarySettlementFrame | src/index.ts:512-554 | without a dealer hand nothing changes; the dealer and users who did not play keep their balance and rank row, even when a user holds several results |
| Settlement.MonetarySettlementPlayer | src/index.ts:518-552 | beating the dealer pays bet + bet × multiplier and adds that profit to earnings with one win; losing pays nothing, takes the bet off earnings and adds one loss; a tie refunds the bet and leaves the row alone |
| Settlement.StepPays | src/index.ts:524-552 | one pass for a non-dealer player pays the win, loss or tie outcome against the dealer |
| Engine.EnsuredRank | src/index.ts:616-623 | ensureRank adds at most the user's row and leaves other rows alone |
| Engine.EnsuredRankKeepsCounters | src/index.ts:616-623 | ensureRank never changes counters; a new row starts at zero; a given name is stored; a second call changes nothing |
| Engine.Refunded | src/index.ts:592-607 | after the refunds, every user's balance is raised by that user's positive bet and by nothing else |
| Engine.Staked | src/index.ts:227 | charging the stakes lowers every account by its positive bet |
| Engine.Stake | src/index.ts:430 | a user without a bet stakes 0; when every recorded bet is positive, the stake is positive exactly for the users who placed a bet |
| Engine.DealerLabel | src/index.ts:425 | the dealer's shown name is the bot's name slot inside "👑 庄家 (" and ")", and the slot is never empty |
| Engine.RefundUndoesStakes | src/index.ts:592-607 | refunding a round's bets gives back exactly what the joins charged |
| Engine.JoinStakes | src/index.ts:227 | a successful join charges its stake on top of the earlier ones |
| Engine.SettlePeers | src/index.ts:493-500 | the winners loop then the losers loop leave the rank table equal to the peer settlement |
| Engine.RefundAll | src/index.ts:594-604 | the refund loop over the bets, in any order, ends at the refunded ledger |
| Engine.AddWins | src/index.ts:493-496 | the winners loop computes the win crediting |
| Engine.AddLosses | src/index.ts:497-500 | the losers loop computes the loss crediting |
| Engine.ScoreHand | src/index.ts:438-452 | a dealt hand's record carries its score, its name and its tie-break card |
| Engine.SettleAgainstDealer | src/index.ts:521-552 | one pass of the wager loop for a non-dealer is one settlement step |
| Engine.EveryoneDealt | src/index.ts:411-438 | every participant receives a hand exactly when there are at most 41 |
| Engine.BullCard.constructor | src/index.ts:145-186 | the plugin loads over whatever consistent tables earlier runs left, with no armed timer |
| Engine.BullCard.EnsureRank | src/index.ts:616-623 | ensureRank creates a missing row with zero counters or renames an existing one, as EnsuredRank states, and touches no other table |
| Engine.BullCard.Admissible | src/index.ts:190-237 | a message is taken as a join only when its channel is recruiting and its sender is not yet a member, and then either it is the entry keyword (peer mode) or monetary is present and its stake is a positive integer (wager mode) |
| Engine.BullCard.Join | src/index.ts:189-258 | a message is passed on exactly when it is empty, the channel is not recruiting, the sender is a member, or it is not the keyword (peer) or a positive integer stake with the monetary service present (wager). It is refused when the balance cannot be read or does not cover the stake. Otherwise the sender is appended to members with the stake, the stake is charged, and a rank row is ensured; nothing changes unless the sender joins; the invariant is kept |
| Engine.BullCard.ResetGame | src/index.ts:588-614 | reset disarms the timer, refunds every positive bet when asked in wager mode with the monetary service, and leaves an existing game IDLE with no members and no bets |
| Engine.BullCard.AfterReset | src/index.ts:593-606 | a reset never lowers any balance, and the ledger is untouched unless a refund is asked for a known channel in wager mode with monetary present |
| Engine.BullCard.Start | src/index.ts:288-351 | a start succeeds exactly when the channel is idle, or busy and untouched for more than ten minutes, in which case it is first reset with a refund and the new game is written over the old row. A success opens recruiting (starter as first member in peer mode), ensures the rank row and arms the timer; a refusal changes nothing but disarms the timer |
| Engine.BullCard.StartAsWritten | src/index.ts:288-351 | with `create` rejecting a taken primary key, a start succeeds only on a missing or IDLE row; a stale busy game is refunded and reset to IDLE and the start then fails, with no rank row and no timer; a fresh busy game blocks the start; the invariant is kept |
| Engine.BullCard.MinPlayers | src/index.ts:390 | at least one participant is needed, and exactly one in wager mode (two in peer mode) |
| Engine.BullCard.Participants | src/index.ts:402-406 | the channel's members come first and in order, followed by exactly one more entry, the bot, in wager mode only |
| Engine.BullCard.Open | src/index.ts:305-349 | opening writes a RECRUITING game with the initial members and no bets, ensures the rank row and arms the timer |
| Engine.BullCard.ForceEnd | src/index.ts:353-357 | force-end is a reset with refund |
| Engine.BullCard.NameOf | src/index.ts:421-429 | a player other than the bot is shown by its stored rank name or by its id, and a non-empty id never shows as an empty name |
| Engine.BullCard.StakeFor | src/index.ts:422-430 | a non-zero stake in a dealt result is the recorded bet of a player who bet, and never belongs to the bot |
| Engine.BullCard.Seating | src/index.ts:419-440 | the loop seats no more players than there are participants, and each seat takes its own five cards from the shoe |
| Engine.BullCard.SeatingContents | src/index.ts:419-455 | dealing gives min(participants, cards / 5) seats, the i-th participant taking cards 5i..5i+4 with the dealer label or rank name and its stake |
| Engine.BullCard.SeatingLength | src/index.ts:419-434 | the dealing loop seats min(participants, cards / 5) players: it stops at the first participant with fewer than five cards left |
| Engine.BullCard.SeatingAt | src/index.ts:419-455 | the i-th seat belongs to the i-th participant and holds cards 5i..5i+4 of the shoe |
| Engine.BullCard.SeatingIndex | src/index.ts:419-440 | the i-th seat of any seating is the i-th participant, shown by its name, with its stake and cards 5i..5i+4 of the shoe |
| Engine.BullCard.DealtUsersDistinct | src/index.ts:419-455 | unique participants are dealt results of distinct users, the premise of both settlements |
| Engine.BullCard.ParticipantsDistinct | src/index.ts:402-406 | the participants of a well-formed game are unique exactly unless the bot itself joined a wager game |
| Engine.BullCard.BotDealtTwice | src/index.ts:402-455 | a bot that joined its own wager game is dealt as a member and again as the dealer, so two dealt results carry the bot's id |
| Engine.BullCard.DealHands | src/index.ts:419-455 | the splice loop produces the scored seating, stops when fewer than five cards are left, and leaves the undealt tail |
| Engine.BullCard.RunAutoGame | src/index.ts:382-455 | the timer event plays only a recruiting game; with too few members (1 in wager mode, 2 in peer mode) it resets with a refund; otherwise the game turns PLAYING, the shoe has DeckCount decks of each card, the dealt results replace the channel's player rows, and the ledger and rank table are untouched |
| Engine.BullCard.Lock | src/index.ts:398-399 | the game turns PLAYING and keeps the invariant |
| Engine.BullCard.Play | src/index.ts:398-455 | locking, shuffling and dealing: the results are the scored seating of the participants over a shoe of DeckCount full decks |
| Engine.BullCard.DealShoe | src/index.ts:411-455 | the shoe holds 52 cards per deck and every card exactly DeckCount times, and the results are that shoe's seating, scored |
| Engine.BullCard.NormalSettlement | src/index.ts:482-502 | the rank table after the peer-settlement loops is the peer settlement, whichever strongest result the sort puts first |
| Engine.BullCard.MonetarySettlement | src/index.ts:512-554 | the rank table and ledger after the wager loop are the wager settlement |
| Engine.BullCard.FinishGame | src/index.ts:470-478 | the round ends with the mode's settlement and a reset without refund |

## Left out

- Chat messaging and presentation are not modelled: `sendMsg`, `visualizeDeck`, the help text, the result messages, and the quickMode/`sleep` display pacing. `RunAutoGame` stops where the display begins. `FinishGame` is the settlement and reset that follow it, so other events may happen between the two.
- The koishi database calls are in-memory maps that the methods reassign. A `set` on a missing row does nothing. A `gain` on a missing account creates the account.
- `ctx.database.create` after a stale reset: `Engine.BullCard.Start` writes the new game over the old row, as intended. `Engine.BullCard.StartAsWritten` is the start as written, where the insert is rejected (see Findings).
- The `getUser` lookup is left out: the ledger is keyed directly by user id.
- The `try`/`catch` around ledger calls is not modelled. A failed balance read is the `BalanceUnavailable` refusal. A refund that throws is not modelled.
- Timers are the set of channels with an armed timer (`ctx.setTimeout`, `clearGameTimer`). The timer firing is the explicit `RunAutoGame` event. Its delay (`waitTimeout`) is not modelled.
- Engine.BullCard.Start: as in the source, a start that is refused still disarms the running game's timer. The invariant then allows a RECRUITING game with no timer. That game is never played, and its stakes stay charged until a force-end, or until a start more than ten minutes after the game's last update resets it with a refund.
- `parseFloat` and `Number.isInteger` are floating-point parsing. The join input is the already-parsed stake.
- The earnings column is a `double` in the database and an `int` here. Stakes are integers, so `Math.floor(bet * multiplier)` is exact.
- The leaderboard command's sort and top-10 slice are display only.
- Authority levels and the config schema are not modelled.
- Engine.BullCard.NormalSettlement:
  - The model does not sort. It takes any strongest result as the head of the sorted list, since every such choice gives the same winners (`WinnersIndependentOfTop`).
  - The winners are filtered from the unsorted list, so the model keeps the players' order rather than the sorted order. Order does not matter for the rank updates.
  - `winners.includes(p)` compares references in JavaScript. Here it compares values, which is the same because distinct players have distinct ids.
- Engine.BullCard.RunAutoGame: with more than 41 participants the four-deck shoe runs out and the dealing loop stops early. In wager mode the dealer is pushed last and so is then not dealt. Settlement then returns without paying anyone, and the reset that follows gives no refund, so every stake charged at the joins is kept. The model states this behaviour (`EveryoneDealt`, `MonetarySettlementFrame`) and does not change it.
- Deck.CreateShuffledDeck: the shuffle is proved to keep the multiset of cards. Uniformity of the permutation is not claimed, because the model does not include randomness.
- Engine.BullCard.Join: the bot's own id is not excluded from joining, just as in the source.
- Engine.BullCard.Play: when the bot has joined its own wager game, the model deals it twice and stores both results (`BotDealtTwice`). `FinishGame` then settles and resets that round. In the source, `bull_card_players` has the primary key (channelId, userId) (src/index.ts:173), so the dealer's `create` (453) is rejected and runAutoGame throws. The rows created before it stay, the game stays PLAYING with every stake charged, and the round is neither settled (471-475) nor reset (478). The model does not capture that failure: it is exact only when the participants are unique (`ParticipantsDistinct`).
- Every event is atomic here: a method reads and writes the tables in one step. In the source each handler awaits between its reads and its writes, and the host does not serialise a channel's events, so these interleavings are not modelled:
  - Two joins in one channel can both read the game (src/index.ts:194), both charge their stakes (227), and both write members and bets (243). The second write drops the first member, whose stake is then never refunded or settled.
  - A join that read RECRUITING before runAutoGame's lock (384-399) can write after it. That member is never dealt, and the reset without refund at the end of the round (478) drops the bet.
  - What `Valid`'s stake clauses and `RefundUndoesStakes` say about a real run holds only if the host serialises a channel's events.
- Engine.BullCard.RunAutoGame is more permissive than the source: it can be called when the channel has no armed timer, while the source runs it only from the timer. When a timer is armed, `Valid` guarantees the game is RECRUITING, so that call goes through the gate.

## Findings

| source | as written | input that shows it | evidently intended | confidence | as-written member | corrected member |
|---|---|---|---|---|---|---|
| src/index.ts:295-318 | after a stale reset, `game = null` sends the start to `ctx.database.create`. The reset left the row in place, so the insert meets the taken primary key `channelId` (158) and is rejected. The command ends after the refund and the reset, with no new game, no rank row and no timer | a channel whose game is RECRUITING or PLAYING and was last updated more than ten minutes ago, followed by `bullCard.来一局` | the stale game is replaced by a new recruiting game, the starter gets a rank row and the timer is armed | medium, not executed | Engine.BullCard.StartAsWritten | Engine.BullCard.Start |
