/** What the bot's Tron and Telegram calls give back, as the `/bet` and `/tip` plugins both see it. */
module Outcomes {

  /** What a transfer call gives back: it raised, it answered without a "transaction" key, or it sent. */
  datatype SendResult = Raised | NoTransaction | Sent(txId: string)

  /** A chat message, by chat id and message id. */
  datatype MessageRef = MessageRef(chatId: int, msgId: int)
}
