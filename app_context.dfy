/** The client chat state: the signed-in user's chats, newest first, and the selected chat.
    Fetches on login, creates a first chat when the list comes back empty, and chooses
    the notification text for a failed call. */
module AppContext {
  import opened ChatTypes

  /** A chat as the listing endpoint returns it to the client. */
  datatype ChatView = ChatView(id: ChatId, name: string, messages: seq<Message>, updatedAt: int)

  /** An axios error: its own `message`, and the HTTP response when there was one. */
  datatype HttpResponse = HttpResponse(status: int, dataMessage: Option<string>)
  datatype ApiError = ApiError(message: string, response: Option<HttpResponse>)

  /** The listing call answers with `{success:true, data}`, with `{success:false, message}`, or throws. */
  datatype ListAnswer = Listed(list: seq<ChatView>) | NotListed(message: string) | ListThrew(error: ApiError)

  /** The create call returns (whatever its `success` flag says) or throws. */
  datatype CreateAnswer = CreateReturned | CreateThrew(error: ApiError)

  /** One round of the bootstrap: the answer to a listing call, and the answer to the
      create call that the client sends when that listing is empty. */
  datatype Round = Round(listing: ListAnswer, create: CreateAnswer)

  const BalanceExhausted := "\U{26A0}\U{FE0F} DeepSeek balance exhausted. Please recharge!"

  /** `handleApiError`: the balance notice for status 402, otherwise the response's
      `data.message` when it is a non-empty string, otherwise the error's own message. */
  function ErrorMessage(e: ApiError): (text: string)
    ensures e.response.Some? && e.response.value.status == 402 ==> text == BalanceExhausted
    ensures (e.response.None? || e.response.value.status != 402) ==>
      text == (if e.response.Some? && e.response.value.dataMessage.Some? && e.response.value.dataMessage.value != ""
               then e.response.value.dataMessage.value else e.message)
  {
    match e.response
    case Some(HttpResponse(status, dataMessage)) =>
      if status == 402 then BalanceExhausted
      else if dataMessage.Some? && dataMessage.value != "" then dataMessage.value
      else e.message
    case None => e.message
  }

  /** The balance notice is shown exactly for a 402, unless the server itself sends that very text. */
  lemma BalanceNoticeOnlyFor402(e: ApiError)
    requires e.message != BalanceExhausted
    requires e.response.Some? ==> e.response.value.dataMessage != Some(BalanceExhausted)
    ensures ErrorMessage(e) == BalanceExhausted <==> e.response.Some? && e.response.value.status == 402
  {
  }

  /** Ordered by `updatedAt`, most recent first. */
  ghost predicate NewestFirst(cs: seq<ChatView>)
  {
    forall i, j :: 0 <= i < j < |cs| ==> cs[i].updatedAt >= cs[j].updatedAt
  }

  /** Places `c` before the first chat that is not more recent than it. */
  function Insert(c: ChatView, cs: seq<ChatView>): (r: seq<ChatView>)
    requires NewestFirst(cs)
    ensures NewestFirst(r)
    ensures multiset(r) == multiset(cs) + multiset{c}
    ensures |r| == |cs| + 1
  {
    if cs == [] || c.updatedAt >= cs[0].updatedAt then [c] + cs
    else
      var rest := Insert(c, cs[1..]);
      assert cs == [cs[0]] + cs[1..];
      assert rest[0] in multiset(rest);
      [cs[0]] + rest
  }

  /** `chatsList.sort((a, b) => new Date(b.updatedAt) - new Date(a.updatedAt))`: a stable sort,
      newest first, that keeps every fetched chat exactly once. */
  function SortNewestFirst(cs: seq<ChatView>): (r: seq<ChatView>)
    ensures NewestFirst(r)
    ensures multiset(r) == multiset(cs)
    ensures |r| == |cs|
  {
    if cs == [] then []
    else
      assert cs == [cs[0]] + cs[1..];
      Insert(cs[0], SortNewestFirst(cs[1..]))
  }

  /** The head of the sorted list is one of the fetched chats and none of them is more recent. */
  lemma {:induction false} SortedHeadIsNewest(cs: seq<ChatView>)
    requires cs != []
    ensures SortNewestFirst(cs)[0] in cs
    ensures forall c :: c in cs ==> c.updatedAt <= SortNewestFirst(cs)[0].updatedAt
  {
    var r := SortNewestFirst(cs);
    assert r[0] in multiset(r);
    forall c | c in cs
      ensures c.updatedAt <= r[0].updatedAt
    {
      assert c in multiset(cs);
      assert c in multiset(r);
      var j :| 0 <= j < |r| && r[j] == c;
      if j > 0 {
        assert r[0].updatedAt >= r[j].updatedAt;
      }
    }
  }

  /** How many rounds at the start of the script list no chat at all. */
  function EmptyPrefix(rounds: seq<Round>): (k: nat)
    ensures k <= |rounds|
    ensures forall i :: 0 <= i < k ==> rounds[i].listing == Listed([])
    ensures k < |rounds| ==> rounds[k].listing != Listed([])
  {
    if rounds == [] || rounds[0].listing != Listed([]) then 0
    else 1 + EmptyPrefix(rounds[1..])
  }

  /** The notice `createNewChat` shows for one create answer. */
  function CreateNotice(answer: CreateAnswer): seq<string>
  {
    match answer
    case CreateThrew(e) => [ErrorMessage(e)]
    case CreateReturned => []
  }

  /** The notices the create calls of these rounds show, in order. */
  function CreateNotices(rounds: seq<Round>): seq<string>
  {
    if rounds == [] then []
    else CreateNotices(rounds[..|rounds| - 1]) + CreateNotice(rounds[|rounds| - 1].create)
  }

  /** The indices of the rounds whose create call returned. */
  ghost function ReturnedRounds(rounds: seq<Round>): set<int>
  {
    set i | 0 <= i < |rounds| && rounds[i].create.CreateReturned?
  }

  /** One more round adds its index exactly when its create call returned. */
  lemma ReturnedRoundsSnoc(rounds: seq<Round>)
    requires rounds != []
    ensures var last := |rounds| - 1;
      |ReturnedRounds(rounds)| == |ReturnedRounds(rounds[..last])| + if rounds[last].create.CreateReturned? then 1 else 0
  {
    var last := |rounds| - 1;
    var init := rounds[..last];
    var before := ReturnedRounds(init);
    var all := ReturnedRounds(rounds);
    if rounds[last].create.CreateReturned? {
      assert all == before + {last} by {
        forall i | i in all ensures i in before + {last} {
          if i < last { assert init[i] == rounds[i]; }
        }
      }
    } else {
      assert all == before by {
        forall i | i in all ensures i in before {
          assert init[i] == rounds[i];
        }
      }
    }
  }

  /** How many of the create calls of these rounds returned without throwing: the number of
      rounds whose create answer is `CreateReturned`. */
  function CountReturned(rounds: seq<Round>): (n: nat)
    ensures n == |ReturnedRounds(rounds)|
  {
    if rounds == [] then 0
    else
      ReturnedRoundsSnoc(rounds);
      CountReturned(rounds[..|rounds| - 1]) + if rounds[|rounds| - 1].create.CreateReturned? then 1 else 0
  }

  class Context {
    var user: Option<UserId>
    var chats: seq<ChatView>
    var selectedChat: Option<ChatView>
    /** The notifications shown so far, oldest first. */
    var notices: seq<string>

    constructor (user: Option<UserId>)
      ensures this.user == user && chats == [] && selectedChat == None && notices == []
    {
      this.user := user;
      chats := [];
      selectedChat := None;
      notices := [];
    }

    /** `createNewChat`: without a user, nothing happens. Otherwise it posts a create request;
        when that call returns, whatever its `success` flag, a refetch is started without
        being awaited; when it throws, the error notice is shown.
        Reports whether a create request was posted and whether a refetch was started. */
    method CreateNewChat(answer: CreateAnswer) returns (posted: bool, refetched: bool)
      modifies this`notices
      ensures posted == user.Some?
      ensures refetched == (user.Some? && answer.CreateReturned?)
      ensures notices == old(notices) + (if user.Some? then CreateNotice(answer) else [])
    {
      if user.None? {
        return false, false;
      }
      posted := true;
      match answer {
        case CreateReturned =>
          refetched := true;
        case CreateThrew(e) =>
          notices := notices + [ErrorMessage(e)];
          refetched := false;
      }
    }

    /** `fetchUsersChats`, driven by a script of server answers. While listings come back empty
        it calls `createNewChat` and fetches again, with no bound on the number of rounds; the
        first other answer ends it. Reports how many rounds were used, how many create requests
        were posted, and how many detached refetches `createNewChat` started. */
    method FetchUsersChats(rounds: seq<Round>) returns (used: nat, posts: nat, detached: nat)
      modifies this`chats, this`selectedChat, this`notices
      ensures var k := EmptyPrefix(rounds);
        && used == (if k < |rounds| then k + 1 else k)
        && posts == (if user.Some? then k else 0)
        && detached == (if user.Some? then CountReturned(rounds[..k]) else 0)
      // a non-empty listing: the chats, newest first, and the newest one selected
      ensures var k := EmptyPrefix(rounds);
        k < |rounds| && rounds[k].listing.Listed? ==>
          && chats == SortNewestFirst(rounds[k].listing.list)
          && chats != []
          && selectedChat == Some(chats[0])
      // any other ending leaves the chats and the selection as they were
      ensures var k := EmptyPrefix(rounds);
        !(k < |rounds| && rounds[k].listing.Listed?) ==> chats == old(chats) && selectedChat == old(selectedChat)
      ensures var k := EmptyPrefix(rounds);
        var shown := old(notices) + (if user.Some? then CreateNotices(rounds[..k]) else []);
        && (k == |rounds| || rounds[k].listing.Listed? ==> notices == shown)
        && (k < |rounds| && rounds[k].listing.NotListed? ==> notices == shown + [rounds[k].listing.message])
        && (k < |rounds| && rounds[k].listing.ListThrew? ==> notices == shown + [ErrorMessage(rounds[k].listing.error)])
    {
      ghost var k := EmptyPrefix(rounds);
      var i := 0;
      posts, detached := 0, 0;
      while i < |rounds| && rounds[i].listing == Listed([])
        invariant i <= k
        invariant posts == (if user.Some? then i else 0)
        invariant detached == (if user.Some? then CountReturned(rounds[..i]) else 0)
        invariant notices == old(notices) + (if user.Some? then CreateNotices(rounds[..i]) else [])
        invariant chats == old(chats) && selectedChat == old(selectedChat)
      {
        var posted, refetched := CreateNewChat(rounds[i].create);
        assert rounds[..i + 1][..i] == rounds[..i];
        if posted {
          posts := posts + 1;
        }
        if refetched {
          detached := detached + 1;
        }
        i := i + 1;
      }
      assert i == k;
      if i == |rounds| {
        return i, posts, detached;
      }
      match rounds[i].listing {
        case Listed(list) =>
          chats := SortNewestFirst(list);
          selectedChat := Some(chats[0]);
        case NotListed(message) =>
          notices := notices + [message];
        case ListThrew(e) =>
          notices := notices + [ErrorMessage(e)];
      }
      used := i + 1;
    }

    /** The login effect: chats are fetched only when there is a user. */
    method OnUserChange(rounds: seq<Round>)
      modifies this`chats, this`selectedChat, this`notices
      ensures user.None? ==> chats == old(chats) && selectedChat == old(selectedChat) && notices == old(notices)
      ensures user.Some? && EmptyPrefix(rounds) < |rounds| && rounds[EmptyPrefix(rounds)].listing.Listed? ==>
        chats == SortNewestFirst(rounds[EmptyPrefix(rounds)].listing.list) && selectedChat == Some(chats[0])
      ensures user.Some? && !(EmptyPrefix(rounds) < |rounds| && rounds[EmptyPrefix(rounds)].listing.Listed?) ==>
        chats == old(chats) && selectedChat == old(selectedChat)
      ensures user.Some? ==>
        var k := EmptyPrefix(rounds);
        var shown := old(notices) + CreateNotices(rounds[..k]);
        && (k == |rounds| || rounds[k].listing.Listed? ==> notices == shown)
        && (k < |rounds| && rounds[k].listing.NotListed? ==> notices == shown + [rounds[k].listing.message])
        && (k < |rounds| && rounds[k].listing.ListThrew? ==> notices == shown + [ErrorMessage(rounds[k].listing.error)])
    {
      if user.Some? {
        var _, _, _ := FetchUsersChats(rounds);
      }
    }
  }

  /** Bootstrapping has no retry bound: for every n, a server that lists nothing n times makes
      the client post n create requests before it settles on the first non-empty listing. */
  lemma {:induction false} EmptyPrefixOfEmptyRounds(n: nat, empty: Round, final: Round)
    requires empty.listing == Listed([]) && final.listing != Listed([])
    ensures EmptyPrefix(seq(n, _ => empty) + [final]) == n
  {
    if n > 0 {
      var rs := seq(n, _ => empty) + [final];
      assert rs[1..] == seq(n - 1, _ => empty) + [final];
      EmptyPrefixOfEmptyRounds(n - 1, empty, final);
    }
  }
}
