/** The message composer: an optimistic append of the prompt, the call to the send endpoint,
    and the typing reveal of the reply as an ordered list of states. */
module PromptBox {
  import opened ChatTypes
  import opened AppContext

  const LoginFirst := "Login to send message"
  const WaitForResponse := "Wait for the previous prompt response"
  /** The TypeError thrown when the request body reads `_id` of a null selection. */
  const NoSelection := "Cannot read properties of null (reading '_id')"

  /** What the send endpoint answers with: `{success:true, data}` carrying the stored reply,
      or `{success:false, message}`. */
  datatype AiPayload = Delivered(data: Message) | Declined(message: string)

  /** The axios call returns a payload, or throws with a message. */
  datatype SendAnswer = Responded(payload: AiPayload) | RequestThrew(message: string)

  // ----- `String.prototype.split(" ")` and `Array.prototype.join(" ")` -----

  /** `s.split(" ")`: the pieces between single spaces; "" gives [""], and two spaces in a row give an empty piece. */
  function Split(s: string): (ts: seq<string>)
    ensures |ts| >= 1
    ensures forall i :: 0 <= i < |ts| ==> ' ' !in ts[i]
    decreases |s|
  {
    if s == [] then [""]
    else if s[0] == ' ' then [""] + Split(s[1..])
    else
      var rest := Split(s[1..]);
      [[s[0]] + rest[0]] + rest[1..]
  }

  /** `ts.join(" ")`: the pieces in order with one space between neighbours; the text starts
      with the first piece. */
  function Join(ts: seq<string>): (s: string)
    ensures ts != [] ==> ts[0] <= s
  {
    if ts == [] then ""
    else if |ts| == 1 then ts[0]
    else Join(ts[..|ts| - 1]) + " " + ts[|ts| - 1]
  }

  lemma {:induction false} JoinCons(a: string, ts: seq<string>)
    requires ts != []
    ensures Join([a] + ts) == a + " " + Join(ts)
    decreases |ts|
  {
    var s := [a] + ts;
    if |ts| > 1 {
      var init := ts[..|ts| - 1];
      var last := ts[|ts| - 1];
      assert s[..|s| - 1] == [a] + init;
      assert s[|s| - 1] == last;
      JoinCons(a, init);
      calc {
        Join(s);
        Join([a] + init) + " " + last;
        a + " " + Join(init) + " " + last;
        a + " " + Join(ts);
      }
    } else {
      assert s[..|s| - 1] == [a];
    }
  }

  /** Splitting and joining again gives back the text: the reveal never alters the reply. */
  lemma {:induction false} JoinSplit(s: string)
    ensures Join(Split(s)) == s
    decreases |s|
  {
    if s == [] {
    } else if s[0] == ' ' {
      JoinSplit(s[1..]);
      JoinCons("", Split(s[1..]));
      assert s == " " + s[1..];
    } else {
      var rest := Split(s[1..]);
      JoinSplit(s[1..]);
      if |rest| == 1 {
        assert s == [s[0]] + s[1..];
      } else {
        assert rest == [rest[0]] + rest[1..];
        JoinCons(rest[0], rest[1..]);
        JoinCons([s[0]] + rest[0], rest[1..]);
        assert s == [s[0]] + s[1..];
      }
    }
  }

  lemma {:induction false} SplitToken(a: string)
    requires ' ' !in a
    ensures Split(a) == [a]
    decreases |a|
  {
    if a != [] {
      SplitToken(a[1..]);
      assert a == [a[0]] + a[1..];
    }
  }

  lemma {:induction false} SplitAfterToken(a: string, rest: string)
    requires ' ' !in a
    ensures Split(a + " " + rest) == [a] + Split(rest)
    decreases |a|
  {
    var s := a + " " + rest;
    if a == [] {
      assert s[1..] == rest;
    } else {
      assert s[1..] == a[1..] + " " + rest;
      SplitAfterToken(a[1..], rest);
      assert a == [a[0]] + a[1..];
    }
  }

  /** Joining space-free tokens and splitting again gives back the tokens. */
  lemma {:induction false} SplitJoin(ts: seq<string>)
    requires ts != []
    requires forall i :: 0 <= i < |ts| ==> ' ' !in ts[i]
    ensures Split(Join(ts)) == ts
    decreases |ts|
  {
    if |ts| == 1 {
      SplitToken(ts[0]);
    } else {
      assert ts == [ts[0]] + ts[1..];
      JoinCons(ts[0], ts[1..]);
      SplitAfterToken(ts[0], Join(ts[1..]));
      SplitJoin(ts[1..]);
    }
  }

  // ----- the typing reveal -----

  /** Reveal step i shows the first i + 1 tokens of the reply, joined by single spaces. */
  function TypingSteps(content: string, shownAt: int): (steps: seq<Message>)
    ensures |steps| == |Split(content)| >= 1
    ensures forall i :: 0 <= i < |steps| ==> steps[i].role == Assistant && steps[i].timestamp == shownAt
    ensures steps[0].content == Split(content)[0]
  {
    var ts := Split(content);
    seq(|ts|, i requires 0 <= i < |ts| => Message(Assistant, Join(ts[..i + 1]), shownAt))
  }

  /** The reveal has one step per token, every step an assistant message; the last step is the whole reply. */
  lemma TypingEndsWithReply(content: string, shownAt: int)
    ensures |TypingSteps(content, shownAt)| == |Split(content)| >= 1
    ensures forall i :: 0 <= i < |Split(content)| ==>
      TypingSteps(content, shownAt)[i] == Message(Assistant, Join(Split(content)[..i + 1]), shownAt)
    ensures TypingSteps(content, shownAt)[|Split(content)| - 1] == Message(Assistant, content, shownAt)
  {
    var ts := Split(content);
    assert ts[..|ts|] == ts;
    JoinSplit(content);
  }

  /** An empty reply gives exactly one step, which shows "". */
  lemma TypingOfEmptyReply(shownAt: int)
    ensures TypingSteps("", shownAt) == [Message(Assistant, "", shownAt)]
  {
    assert Split("") == [""];
    assert Join([""][..1]) == "";
  }

  /** Each step shows the previous step's text followed by a space and the next token. */
  lemma {:induction false} TypingGrowsByOneToken(content: string, shownAt: int, i: nat)
    requires i + 1 < |Split(content)|
    ensures TypingSteps(content, shownAt)[i + 1].content
            == TypingSteps(content, shownAt)[i].content + " " + Split(content)[i + 1]
  {
    var ts := Split(content);
    var longer := ts[..i + 2];
    assert longer[..|longer| - 1] == ts[..i + 1];
    assert Join(longer) == Join(ts[..i + 1]) + " " + ts[i + 1];
  }

  lemma {:induction false} JoinPrefix(ts: seq<string>, n: nat)
    requires 1 <= n <= |ts|
    ensures |Join(ts[..n])| <= |Join(ts)| && Join(ts[..n]) == Join(ts)[..|Join(ts[..n])|]
    decreases |ts|
  {
    if n < |ts| {
      var init := ts[..|ts| - 1];
      assert init[..n] == ts[..n];
      JoinPrefix(init, n);
    } else {
      assert ts[..n] == ts;
    }
  }

  /** Every step shows a prefix of the reply: the text only ever grows towards the full reply. */
  lemma TypingShowsPrefixes(content: string, shownAt: int, i: nat)
    requires i < |Split(content)|
    ensures TypingSteps(content, shownAt)[i].content <= content
  {
    JoinPrefix(Split(content), i + 1);
    JoinSplit(content);
  }

  /** The `forEach` over the tokens: step i is scheduled i * 100 ms after the reply arrives;
      here the steps are listed in that order. */
  method ScheduleTyping(content: string, shownAt: int) returns (steps: seq<Message>)
    ensures steps == TypingSteps(content, shownAt)
  {
    var messageTokens := Split(content);
    steps := [];
    var i := 0;
    while i < |messageTokens|
      invariant i <= |messageTokens|
      invariant |steps| == i
      invariant forall j :: 0 <= j < i ==> steps[j] == Message(Assistant, Join(messageTokens[..j + 1]), shownAt)
    {
      steps := steps + [Message(Assistant, Join(messageTokens[..i + 1]), shownAt)];
      i := i + 1;
    }
  }

  /** `messages.slice(0, -1)`. */
  function AllButLast(ms: seq<Message>): (r: seq<Message>)
    ensures ms == [] ==> r == []
    ensures ms != [] ==> r + [ms[|ms| - 1]] == ms
  {
    if ms == [] then [] else ms[..|ms| - 1]
  }

  /** After the placeholder is appended and every step has fired, the chat ends with the full reply. */
  lemma TypingSettles(ms: seq<Message>, content: string, shownAt: int)
    ensures var steps := TypingSteps(content, shownAt);
      AllButLast(ms + [Message(Assistant, "", shownAt)]) + [steps[|steps| - 1]]
      == ms + [Message(Assistant, content, shownAt)]
  {
    TypingEndsWithReply(content, shownAt);
    assert (ms + [Message(Assistant, "", shownAt)])[..|ms|] == ms;
  }

  // ----- merging into the chat list -----

  /** `chats.map(chat => chat._id === id ? {...chat, messages: [...chat.messages, m]} : chat)`. */
  function AppendToMatching(cs: seq<ChatView>, id: ChatId, m: Message): (r: seq<ChatView>)
    ensures |r| == |cs|
    ensures forall i :: 0 <= i < |cs| && cs[i].id != id ==> r[i] == cs[i]
    ensures forall i :: 0 <= i < |cs| && cs[i].id == id ==> r[i] == cs[i].(messages := cs[i].messages + [m])
  {
    if cs == [] then []
    else
      var head := if cs[0].id == id then cs[0].(messages := cs[0].messages + [m]) else cs[0];
      [head] + AppendToMatching(cs[1..], id, m)
  }

  // ----- the submit button -----

  /** The characters `String.prototype.trim` removes (the ones this model lists). */
  predicate IsSpace(c: char)
  {
    || c == ' ' || c == '\t' || c == '\n' || c == '\r' || c == '\U{000B}' || c == '\U{000C}'
    || c == '\U{00A0}' || c == '\U{FEFF}' || c == '\U{2028}' || c == '\U{2029}'
  }

  /** Every character is whitespace. */
  predicate Blank(s: string)
  {
    forall i :: 0 <= i < |s| ==> IsSpace(s[i])
  }

  /** Drops the leading whitespace: what is left is a suffix that is empty or starts with a
      non-space, and everything dropped is whitespace. */
  function TrimStart(s: string): (r: string)
    ensures |r| <= |s| && r == s[|s| - |r|..]
    ensures Blank(s[..|s| - |r|])
    ensures r == [] <==> Blank(s)
    ensures r != [] ==> !IsSpace(r[0])
    decreases |s|
  {
    if s != [] && IsSpace(s[0]) then
      var r := TrimStart(s[1..]);
      assert s[..|s| - |r|] == [s[0]] + s[1..][..|s| - 1 - |r|];
      r
    else s
  }

  /** Drops the trailing whitespace: what is left is a prefix that is empty or ends with a
      non-space, and everything dropped is whitespace. */
  function TrimEnd(s: string): (r: string)
    ensures |r| <= |s| && r == s[..|r|]
    ensures Blank(s[|r|..])
    ensures r == [] <==> Blank(s)
    ensures r != [] ==> !IsSpace(r[|r| - 1])
    decreases |s|
  {
    if s != [] && IsSpace(s[|s| - 1]) then
      var r := TrimEnd(s[..|s| - 1]);
      assert s[|r|..] == s[..|s| - 1][|r|..] + [s[|s| - 1]];
      r
    else s
  }

  /** `s.trim()`: the text between a whitespace-only head and a whitespace-only tail; empty
      exactly for an all-whitespace text, and otherwise starting and ending with a non-space. */
  function Trim(s: string): (r: string)
    ensures r == [] <==> Blank(s)
    ensures r != [] ==> !IsSpace(r[0]) && !IsSpace(r[|r| - 1])
    ensures var lo := |s| - |TrimStart(s)|;
      && lo + |r| <= |s| && r == s[lo..lo + |r|]
      && Blank(s[..lo]) && Blank(s[lo + |r|..])
  {
    var t := TrimStart(s);
    var r := TrimEnd(t);
    MiddleOfSuffix(s, t, r);
    r
  }

  /** A prefix `r` of a suffix `t` of `s` is the slice of `s` that starts where `t` does. */
  lemma MiddleOfSuffix(s: string, t: string, r: string)
    requires |t| <= |s| && t == s[|s| - |t|..]
    requires |r| <= |t| && r == t[..|r|]
    ensures var lo := |s| - |t|; lo + |r| <= |s| && r == s[lo..lo + |r|] && s[lo + |r|..] == t[|r|..]
  {
  }

  /** `disabled={!prompt.trim() || isLoading}`: the button submits only a draft with some
      non-space character, and only while no send is in flight. */
  predicate SubmitEnabled(prompt: string, isLoading: bool)
    ensures SubmitEnabled(prompt, isLoading) <==> !isLoading && exists i :: 0 <= i < |prompt| && !IsSpace(prompt[i])
  {
    Trim(prompt) != "" && !isLoading
  }

  class Composer {
    /** The draft in the text area. */
    var prompt: string
    /** The page's `isLoading` flag, handed to the composer with its setter. */
    var isLoading: bool
    const ctx: Context

    constructor (ctx: Context)
      ensures this.ctx == ctx && prompt == "" && !isLoading
    {
      this.ctx := ctx;
      prompt := "";
      isLoading := false;
    }

    /** `sendPrompt`. `answer` is what the send endpoint does; `sentAt` and `shownAt` are the
        clock readings stamped on the user message and on the reply placeholder. Returns the
        reveal steps still to fire; the flag is already clear when it returns. */
    method SendPrompt(answer: SendAnswer, sentAt: int, shownAt: int) returns (pending: seq<Message>)
      modifies this, ctx`chats, ctx`selectedChat, ctx`notices
      // the `finally` clears the flag on every path, a rejected submission included
      ensures !isLoading
      ensures ctx.user.None? ==>
        && ctx.notices == old(ctx.notices) + [LoginFirst]
        && prompt == old(prompt) && ctx.chats == old(ctx.chats) && ctx.selectedChat == old(ctx.selectedChat)
        && pending == []
      ensures ctx.user.Some? && old(isLoading) ==>
        && ctx.notices == old(ctx.notices) + [WaitForResponse]
        && prompt == old(prompt) && ctx.chats == old(ctx.chats) && ctx.selectedChat == old(ctx.selectedChat)
        && pending == []
      ensures ctx.user.Some? && !old(isLoading) && old(ctx.selectedChat).None? ==>
        && ctx.notices == old(ctx.notices) + [NoSelection]
        && prompt == old(prompt) && ctx.chats == old(ctx.chats) && ctx.selectedChat == None
        && pending == []
      // accepted: the draft, whatever it is, is appended as a user message to the selected
      // chat and to its entry in the list
      ensures ctx.user.Some? && !old(isLoading) && old(ctx.selectedChat).Some? ==>
        var sel := old(ctx.selectedChat).value;
        var asked := Message(User, old(prompt), sentAt);
        var listed := AppendToMatching(old(ctx.chats), sel.id, asked);
        var shown := sel.(messages := sel.messages + [asked]);
        && (answer.Responded? && answer.payload.Delivered? ==>
              var data := answer.payload.data;
              && prompt == ""
              && ctx.notices == old(ctx.notices)
              && ctx.chats == AppendToMatching(listed, sel.id, data)
              && ctx.selectedChat == Some(shown.(messages := shown.messages + [Message(Assistant, "", shownAt)]))
              && pending == TypingSteps(data.content, shownAt))
        // a declined request or a thrown call: the draft comes back and the optimistic message stays
        && (answer.Responded? && answer.payload.Declined? ==>
              && prompt == old(prompt)
              && ctx.notices == old(ctx.notices) + [answer.payload.message]
              && ctx.chats == listed && ctx.selectedChat == Some(shown)
              && pending == [])
        && (answer.RequestThrew? ==>
              && prompt == old(prompt)
              && ctx.notices == old(ctx.notices) + [answer.message]
              && ctx.chats == listed && ctx.selectedChat == Some(shown)
              && pending == [])
    {
      var promptCopy := prompt;
      pending := [];
      if ctx.user.None? {
        ctx.notices := ctx.notices + [LoginFirst];
        isLoading := false;
        return;
      }
      if isLoading {
        ctx.notices := ctx.notices + [WaitForResponse];
        isLoading := false;
        return;
      }
      isLoading := true;
      prompt := "";
      if ctx.selectedChat.None? {
        ctx.notices := ctx.notices + [NoSelection];
        prompt := promptCopy;
        isLoading := false;
        return;
      }
      var selected := ctx.selectedChat.value;
      var userPrompt := Message(User, promptCopy, sentAt);
      ctx.chats := AppendToMatching(ctx.chats, selected.id, userPrompt);
      var current := ctx.selectedChat.value;
      ctx.selectedChat := Some(current.(messages := current.messages + [userPrompt]));
      match answer {
        case Responded(Delivered(data)) =>
          var assistantMessage := Message(Assistant, "", shownAt);
          current := ctx.selectedChat.value;
          ctx.selectedChat := Some(current.(messages := current.messages + [assistantMessage]));
          pending := ScheduleTyping(data.content, shownAt);
          ctx.chats := AppendToMatching(ctx.chats, selected.id, data);
        case Responded(Declined(message)) =>
          ctx.notices := ctx.notices + [message];
          prompt := promptCopy;
        case RequestThrew(message) =>
          ctx.notices := ctx.notices + [message];
          prompt := promptCopy;
      }
      isLoading := false;
    }

    /** `handleKeyDown`: Enter without Shift calls `sendPrompt` directly, without the blank
        check the submit button has; every other key leaves everything as it was. */
    method HandleKeyDown(key: string, shiftKey: bool, answer: SendAnswer, sentAt: int, shownAt: int)
      returns (pending: seq<Message>)
      modifies this, ctx`chats, ctx`selectedChat, ctx`notices
      ensures !(key == "Enter" && !shiftKey) ==>
        && prompt == old(prompt) && isLoading == old(isLoading) && pending == []
        && ctx.chats == old(ctx.chats) && ctx.selectedChat == old(ctx.selectedChat) && ctx.notices == old(ctx.notices)
      ensures key == "Enter" && !shiftKey && ctx.user.Some? && !old(isLoading) && old(ctx.selectedChat).Some? ==>
        && ctx.selectedChat.Some?
        && |ctx.selectedChat.value.messages| > |old(ctx.selectedChat).value.messages|
        && ctx.selectedChat.value.messages[|old(ctx.selectedChat).value.messages|] == Message(User, old(prompt), sentAt)
    {
      pending := [];
      if key == "Enter" && !shiftKey {
        pending := SendPrompt(answer, sentAt, shownAt);
      }
    }

    /** One reveal timer firing: the last message of the currently selected chat is replaced by
        the step's message; the messages before it and their number stay as they were. */
    method TypeStep(step: Message)
      requires ctx.selectedChat.Some?
      modifies ctx`selectedChat
      ensures ctx.selectedChat.Some?
      ensures var before := old(ctx.selectedChat).value;
        ctx.selectedChat.value == before.(messages := AllButLast(before.messages) + [step])
      ensures var before := old(ctx.selectedChat).value.messages;
        var after := ctx.selectedChat.value.messages;
        && |after| == (if before == [] then 1 else |before|)
        && after[..|after| - 1] == AllButLast(before)
        && after[|after| - 1] == step
    {
      var prev := ctx.selectedChat.value;
      var updatedMessages := AllButLast(prev.messages) + [step];
      ctx.selectedChat := Some(prev.(messages := updatedMessages));
    }

    /** The reveal timers firing in schedule order with nothing in between: the selected chat
        ends with the last step in place of its last message. */
    method PlayTyping(steps: seq<Message>)
      requires ctx.selectedChat.Some?
      modifies ctx`selectedChat
      ensures ctx.selectedChat.Some?
      ensures steps == [] ==> ctx.selectedChat == old(ctx.selectedChat)
      ensures steps != [] ==>
        var before := old(ctx.selectedChat).value;
        ctx.selectedChat.value == before.(messages := AllButLast(before.messages) + [steps[|steps| - 1]])
    {
      var i := 0;
      while i < |steps|
        invariant i <= |steps|
        invariant ctx.selectedChat.Some?
        invariant i == 0 ==> ctx.selectedChat == old(ctx.selectedChat)
        invariant i > 0 ==>
          var before := old(ctx.selectedChat).value;
          ctx.selectedChat.value == before.(messages := AllButLast(before.messages) + [steps[i - 1]])
      {
        ghost var prev := ctx.selectedChat.value.messages;
        TypeStep(steps[i]);
        if i > 0 {
          assert AllButLast(prev) == AllButLast(old(ctx.selectedChat).value.messages);
        }
        i := i + 1;
      }
    }
  }
}
