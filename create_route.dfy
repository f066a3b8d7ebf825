/** POST /api/chat/create: a signed-in caller gets a fresh chat seeded with one system message. */
module CreateRoute {
  import opened ChatTypes
  import ChatStore

  const DefaultName := "New Chat"
  const SeedContent := "Chat started"

  /** `caller` is the identity provider's user id; `dbError` is the message the
      database throws with when it cannot be reached or refuses the insert;
      `now` is the clock reading stamped on the seed message. */
  method Post(store: ChatStore.Store, caller: Option<UserId>, dbError: Option<string>, now: int)
    returns (r: Reply<Record>)
    requires store.Valid()
    modifies store
    ensures store.Valid()
    ensures caller.None? ==> r == Refused(NotAuthenticated) && store.chats == old(store.chats)
    ensures caller.Some? && dbError.Some? ==> r == Failed(dbError.value) && store.chats == old(store.chats)
    ensures caller.Some? && dbError.None? ==>
      && r.Ok?
      && r.value.chat == Chat(caller.value, DefaultName, [Message(System, SeedContent, now)])
      && r.value.id !in old(store.chats)
      && store.chats == old(store.chats)[r.value.id := r.value.chat]
  {
    if caller.None? {
      return Refused(NotAuthenticated);
    }
    var chatData := Chat(caller.value, DefaultName, [Message(System, SeedContent, now)]);
    if dbError.Some? {
      return Failed(dbError.value);
    }
    var id := store.Create(chatData);
    r := Ok(Record(id, chatData));
  }
}
