/** POST /api/chat/delete: the owner of a chat removes it and gets its last snapshot back. */
module DeleteRoute {
  import opened ChatTypes
  import ChatStore

  const IdRequired := "Chat ID is required"

  /** The body `{chatId}`; a missing or empty `chatId` is `None`. */
  datatype DeleteRequest = DeleteRequest(chatId: Option<ChatId>)

  /** The request passes the parsing, identity and required-field guards. */
  predicate Admissible(caller: Option<UserId>, body: Body<DeleteRequest>)
  {
    body.Parsed? && caller.Some? && body.value.chatId.Some?
  }

  method Post(store: ChatStore.Store, caller: Option<UserId>, body: Body<DeleteRequest>, dbError: Option<string>)
    returns (r: Reply<Record>)
    requires store.Valid()
    modifies store
    ensures store.Valid()
    // the body is read before the identity is checked
    ensures body.Malformed? ==> r == Failed(body.error) && store.chats == old(store.chats)
    ensures body.Parsed? && caller.None? ==> r == Refused(NotAuthenticated) && store.chats == old(store.chats)
    ensures body.Parsed? && caller.Some? && body.value.chatId.None? ==>
      r == Refused(IdRequired) && store.chats == old(store.chats)
    ensures Admissible(caller, body) && dbError.Some? ==> r == Failed(dbError.value) && store.chats == old(store.chats)
    // an id that is absent and an id that belongs to someone else get the same answer
    ensures Admissible(caller, body) && dbError.None? && !old(store.Owns(caller.value, body.value.chatId.value)) ==>
      r == Refused(NoPermission) && store.chats == old(store.chats)
    // exactly the owned chat goes, and the answer is its snapshot
    ensures Admissible(caller, body) && dbError.None? && old(store.Owns(caller.value, body.value.chatId.value)) ==>
      var id := body.value.chatId.value;
      && r == Ok(Record(id, old(store.chats[id])))
      && id !in store.chats
      && store.chats == old(store.chats) - {id}
  {
    if body.Malformed? {
      return Failed(body.error);
    }
    if caller.None? {
      return Refused(NotAuthenticated);
    }
    var chatId := body.value.chatId;
    if chatId.None? {
      return Refused(IdRequired);
    }
    if dbError.Some? {
      return Failed(dbError.value);
    }
    var deleted := store.FindOneAndDelete(chatId.value, caller.value);
    if deleted.None? {
      return Refused(NoPermission);
    }
    r := Ok(deleted.value);
  }
}
