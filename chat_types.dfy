/** Records shared by the chat service handlers and the client state. */
module ChatTypes {

  datatype Option<+T> = None | Some(value: T)

  /** The caller identity the identity provider hands to a handler. */
  type UserId = string

  /** A store-assigned document id; ids are never falsy. */
  type ChatId = nat

  datatype Role = System | User | Assistant

  /** One role-tagged utterance; the timestamp is an opaque clock reading. */
  datatype Message = Message(role: Role, content: string, timestamp: int)

  /** A chat document as the store keeps it under its id. */
  datatype Chat = Chat(owner: UserId, name: string, messages: seq<Message>)

  /** A chat document together with its id, as a handler returns it. */
  datatype Record = Record(id: ChatId, chat: Chat)

  /** The JSON payload a handler answers with: `{success:true, ...}` carrying a value,
      `{success:false, message}`, or `{success:false, error}`. */
  datatype Reply<T> = Ok(value: T) | Refused(message: string) | Failed(error: string)

  /** A request body: parsed, or one whose parsing throws with the given message. */
  datatype Body<T> = Parsed(value: T) | Malformed(error: string)

  const NotAuthenticated := "User not authenticated"
  const NoPermission := "Chat not found or you don't have permission"
}
