/** The record of one participant's hand in one deal (src/index.ts:85-94). */
module Players {
  import opened Cards

  type UserId = string
  type ChannelId = string

  /** A row of bull_card_players: one participant's hand in one deal and what it scored. */
  datatype PlayerResult = PlayerResult(
    channelId: ChannelId,
    userId: UserId,
    userName: string,
    hand: seq<Card>,
    resultScore: int,
    resultName: string,
    maxCard: Card,
    bet: int)
}
