/**
  The value types the bot exchanges with the message-routing framework:
  the inbound `Context` and the outbound `Reply`.
 */
module Bridge {
  import opened Common

  /** The kind of an inbound message; only plain text is answered by this bot. */
  datatype ContextType = Text | NonText(name: string)

  /** An inbound request: its kind and the `session_id` it belongs to. */
  datatype Context = Context(kind: ContextType, sessionId: string)

  /** The two reply kinds this bot emits. */
  datatype ReplyType = TextReply | ErrorReply

  /** `Reply(type, content)`, where the content may be `None`. */
  datatype Reply = Reply(kind: ReplyType, content: Option<string>)
}
