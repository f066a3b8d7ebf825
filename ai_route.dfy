/** POST /api/chat/ai: appends the caller's prompt to an owned chat, asks the completion
    provider for a reply, appends the reply and saves both in one write. */
module AiRoute {
  import opened ChatTypes
  import ChatStore

  const ChatNotFound := "Chat not found"

  /** The body `{chatId, prompt}`; a missing `prompt` is "". */
  datatype SendRequest = SendRequest(chatId: ChatId, prompt: string)

  /** A role/content pair, as the provider is sent the conversation (timestamps stripped). */
  datatype Turn = Turn(role: Role, content: string)

  /** What the completion call gives back: the first choice's role and (possibly null)
      content, or the thrown error's `response.data || message`. */
  datatype Completion = Completed(role: Role, content: Option<string>) | ProviderError(message: string)

  /** `messages.map(m => ({role: m.role, content: m.content || ""}))`. */
  function Conversation(ms: seq<Message>): (ts: seq<Turn>)
    ensures |ts| == |ms|
    ensures forall i :: 0 <= i < |ms| ==> ts[i] == Turn(ms[i].role, ms[i].content)
  {
    if ms == [] then [] else Conversation(ms[..|ms| - 1]) + [Turn(ms[|ms| - 1].role, ms[|ms| - 1].content)]
  }

  /** The provider sees the stored conversation, in order, followed by the new prompt. */
  lemma ConversationAppend(ms: seq<Message>, m: Message)
    ensures Conversation(ms + [m]) == Conversation(ms) + [Turn(m.role, m.content)]
  {
  }

  /** The stored reply: the provider's role, its content or "" when that is null, and a fresh timestamp. */
  function ReplyMessage(c: Completion, answeredAt: int): (m: Message)
    requires c.Completed?
    ensures m.role == c.role && m.timestamp == answeredAt
    ensures c.content.None? ==> m.content == ""
    ensures c.content.Some? ==> m.content == c.content.value
  {
    Message(c.role, match c.content case Some(s) => s case None => "", answeredAt)
  }

  /** `provider` stands for the completion call; `dbError` is the message the database throws
      with on connecting or looking up, `saveError` the one `save()` throws with;
      `askedAt` and `answeredAt` are the clock readings of lines 40 and 57. */
  method Post(store: ChatStore.Store, caller: Option<UserId>, body: Body<SendRequest>,
              provider: seq<Turn> -> Completion, dbError: Option<string>, saveError: Option<string>,
              askedAt: int, answeredAt: int)
    returns (r: Reply<Message>)
    requires store.Valid()
    modifies store
    ensures store.Valid()
    // the handler never answers with an `error` key: every failure is `{success:false, message}`
    ensures !r.Failed?
    // the only write is the final save, so every failure leaves the store as it was
    ensures !r.Ok? ==> store.chats == old(store.chats)
    ensures body.Malformed? ==> r == Refused(body.error)
    ensures body.Parsed? && caller.None? ==> r == Refused(NotAuthenticated)
    ensures body.Parsed? && caller.Some? && dbError.Some? ==> r == Refused(dbError.value)
    // an absent chat and a chat of another user are both "not found"
    ensures body.Parsed? && caller.Some? && dbError.None? && !old(store.Owns(caller.value, body.value.chatId)) ==>
      r == Refused(ChatNotFound)
    ensures body.Parsed? && caller.Some? && dbError.None? && old(store.Owns(caller.value, body.value.chatId)) ==>
      var id := body.value.chatId;
      var stored := old(store.chats[id]).messages;
      var asked := Message(User, body.value.prompt, askedAt);
      var completion := provider(Conversation(stored + [asked]));
      && (completion.ProviderError? ==> r == Refused(completion.message))
      && (completion.Completed? && saveError.Some? ==> r == Refused(saveError.value))
      && (completion.Completed? && saveError.None? ==>
            var reply := ReplyMessage(completion, answeredAt);
            && r == Ok(reply)
            && store.chats == old(store.chats)[id := old(store.chats[id]).(messages := stored + [asked, reply])])
  {
    if body.Malformed? {
      return Refused(body.error);
    }
    var SendRequest(chatId, prompt) := body.value;
    if caller.None? {
      return Refused(NotAuthenticated);
    }
    if dbError.Some? {
      return Refused(dbError.value);
    }
    var data := store.FindOne(chatId, caller.value);
    if data.None? {
      return Refused(ChatNotFound);
    }
    var messages := data.value.messages;
    var userPrompt := Message(User, prompt, askedAt);
    messages := messages + [userPrompt];
    var completion := provider(Conversation(messages));
    if completion.ProviderError? {
      return Refused(completion.message);
    }
    var message := ReplyMessage(completion, answeredAt);
    messages := messages + [message];
    if saveError.Some? {
      return Refused(saveError.value);
    }
    assert messages == data.value.messages + [userPrompt, message];
    store.Save(chatId, data.value.(messages := messages));
    r := Ok(message);
  }
}
