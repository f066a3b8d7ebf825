/** The chat collection: a map from document id to chat, with the owner-scoped
    operations the handlers use (create, find, find-and-update, find-and-delete, save). */
module ChatStore {
  import opened ChatTypes

  class Store {
    var chats: map<ChatId, Chat>
    /** The next id the store hands out; every stored id lies below it. */
    var nextId: ChatId

    ghost predicate Valid()
      reads this
    {
      forall id :: id in chats ==> id < nextId
    }

    constructor ()
      ensures Valid() && chats == map[]
    {
      chats := map[];
      nextId := 0;
    }

    /** The filter `{_id: id, userId: owner}` matches a stored chat. */
    predicate Owns(owner: UserId, id: ChatId)
      reads this
      ensures Owns(owner, id) ==> id in chats && chats[id].owner == owner
      ensures Valid() && Owns(owner, id) ==> id < nextId
    {
      id in chats && chats[id].owner == owner
    }

    /** `findOne({_id: id, userId: owner})`: a chat is only ever visible to its owner. */
    function FindOne(id: ChatId, owner: UserId): (r: Option<Chat>)
      reads this
      ensures r.Some? <==> Owns(owner, id)
      ensures r.Some? ==> r.value == chats[id] && r.value.owner == owner
    {
      if id in chats && chats[id].owner == owner then Some(chats[id]) else None
    }

    /** `create(c)`: inserts under a fresh id and leaves every stored chat as it was. */
    method Create(c: Chat) returns (id: ChatId)
      requires Valid()
      modifies this
      ensures Valid()
      ensures id !in old(chats) && chats == old(chats)[id := c]
    {
      id := nextId;
      chats := chats[id := c];
      nextId := nextId + 1;
    }

    /** `findOneAndUpdate({_id: id, userId: owner}, {name}, {new: true})`. */
    method FindOneAndUpdateName(id: ChatId, owner: UserId, name: string) returns (r: Option<Record>)
      requires Valid()
      modifies this
      ensures Valid() && nextId == old(nextId)
      ensures old(Owns(owner, id)) ==>
        r == Some(Record(id, old(chats[id]).(name := name))) && chats == old(chats)[id := r.value.chat]
      ensures !old(Owns(owner, id)) ==> r == None && chats == old(chats)
    {
      if id in chats && chats[id].owner == owner {
        var updated := chats[id].(name := name);
        chats := chats[id := updated];
        r := Some(Record(id, updated));
      } else {
        r := None;
      }
    }

    /** `findOneAndDelete({_id: id, userId: owner})`: answers the removed document. */
    method FindOneAndDelete(id: ChatId, owner: UserId) returns (r: Option<Record>)
      requires Valid()
      modifies this
      ensures Valid() && nextId == old(nextId)
      ensures old(Owns(owner, id)) ==> r == Some(Record(id, old(chats[id]))) && chats == old(chats) - {id}
      ensures !old(Owns(owner, id)) ==> r == None && chats == old(chats)
    {
      if id in chats && chats[id].owner == owner {
        r := Some(Record(id, chats[id]));
        chats := chats - {id};
      } else {
        r := None;
      }
    }

    /** `document.save()` on a document loaded from the store: writes it back under its id. */
    method Save(id: ChatId, c: Chat)
      requires Valid() && id in chats
      modifies this
      ensures Valid() && nextId == old(nextId)
      ensures chats == old(chats)[id := c]
    {
      chats := chats[id := c];
    }
  }
}
