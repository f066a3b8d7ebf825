/** POST /api/chat/rename: the owner of a chat gives it a new, non-empty name. */
module RenameRoute {
  import opened ChatTypes
  import ChatStore

  const FieldsRequired := "Chat ID and new name are required"

  /** The body `{chatId, name}`; a missing or empty `chatId` is `None`, a missing `name` is "". */
  datatype RenameRequest = RenameRequest(chatId: Option<ChatId>, name: string)

  /** The request passes the identity and required-field guards. */
  predicate Admissible(caller: Option<UserId>, body: Body<RenameRequest>)
  {
    caller.Some? && body.Parsed? && body.value.chatId.Some? && body.value.name != ""
  }

  method Post(store: ChatStore.Store, caller: Option<UserId>, body: Body<RenameRequest>, dbError: Option<string>)
    returns (r: Reply<Record>)
    requires store.Valid()
    modifies store
    ensures store.Valid()
    // the identity is checked before the body is read
    ensures caller.None? ==> r == Refused(NotAuthenticated) && store.chats == old(store.chats)
    ensures caller.Some? && body.Malformed? ==> r == Failed(body.error) && store.chats == old(store.chats)
    // falsy fields are refused before any store access
    ensures caller.Some? && body.Parsed? && (body.value.chatId.None? || body.value.name == "") ==>
      r == Refused(FieldsRequired) && store.chats == old(store.chats)
    ensures Admissible(caller, body) && dbError.Some? ==> r == Failed(dbError.value) && store.chats == old(store.chats)
    // an id that is absent and an id that belongs to someone else get the same answer
    ensures Admissible(caller, body) && dbError.None? && !old(store.Owns(caller.value, body.value.chatId.value)) ==>
      r == Refused(NoPermission) && store.chats == old(store.chats)
    // only the owned chat's name changes, and the answer is the renamed chat
    ensures Admissible(caller, body) && dbError.None? && old(store.Owns(caller.value, body.value.chatId.value)) ==>
      var id := body.value.chatId.value;
      && r == Ok(Record(id, old(store.chats[id]).(name := body.value.name)))
      && store.chats == old(store.chats)[id := r.value.chat]
  {
    if caller.None? {
      return Refused(NotAuthenticated);
    }
    if body.Malformed? {
      return Failed(body.error);
    }
    var RenameRequest(chatId, name) := body.value;
    if chatId.None? || name == "" {
      return Refused(FieldsRequired);
    }
    if dbError.Some? {
      return Failed(dbError.value);
    }
    var updated := store.FindOneAndUpdateName(chatId.value, caller.value, name);
    if updated.None? {
      return Refused(NoPermission);
    }
    r := Ok(updated.value);
  }
}
