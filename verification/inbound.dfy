/** The parts of a Telegram update that the message handler reads
    (main.py:40-44, 52-54), and the bot's own identity. */
module Inbound {
  import opened Wrappers
  import opened Memory

  /** `effective_chat.type` of a chat that delivers ordinary messages; only
      `Private` matters to the gate. */
  datatype ChatKind = Private | Group | Supergroup

  datatype Chat = Chat(id: ChatId, kind: ChatKind)

  /** `message.from_user`: its id and first name. */
  datatype Sender = Sender(id: UserId, firstName: string)

  /** An ordinary text message. `replyAuthor` is the id of the author of the
      message it replies to; it is `None` both when the message is not a
      reply and when the replied-to message has no author. */
  datatype Message = Message(chat: Chat, sender: Sender, text: string, replyAuthor: Option<UserId>)

  /** `context.bot`: the bot's own user id and username. */
  datatype BotIdentity = BotIdentity(id: UserId, username: string)
}
