# Chat records: server handlers and client state

A model of the chat core of a Next.js chat application. Signed-in users create,
rename, delete and converse in named chats. Each chat is backed by a completion
provider.

- **Server.** Four request handlers (create, rename, delete, send), each a chain of
  guards followed by store operations. Create checks only the caller and inserts a
  seeded chat. Rename checks the caller, the body and the required fields, then does one
  owner-scoped find-and-update. Delete reads the body, then checks the caller and the
  id, then does one owner-scoped find-and-delete. Send reads the body and checks the
  caller, loads the chat with an owner-scoped find, asks the completion provider, and
  writes the chat back with `save`. The store is a class
  `ChatStore.Store` holding a map from chat id to `Chat(owner, name, messages)`, with
  the operations the handlers use: create, find-one, find-one-and-update,
  find-one-and-delete, save. Each handler is a `Post` method in its own module.
- **Client state** (`AppContext.Context`). Holds the user, `chats`, `selectedChat` and
  the notifications shown. `FetchUsersChats` sorts a fetched list newest first and
  selects its head. On an empty list it calls `CreateNewChat` and fetches again, with no
  bound. `ErrorMessage` chooses the text of an error notification.
- **Composer** (`PromptBox.Composer`). Holds the draft `prompt` and the `isLoading`
  flag. `SendPrompt` appends the draft optimistically to the selected chat and to its
  entry in the list, then calls the send endpoint. On failure it restores the draft. On
  success it lists the typing-reveal steps: step i shows the first i + 1 pieces of
  `content.split(" ")` joined by `" "`.

The outside world enters as parameters:
- the caller's identity, as `Option<UserId>`;
- the request body, as `Body`, which is either parsed or malformed;
- database failures, as `dbError` and `saveError` messages;
- the completion provider, as a function from the conversation to a `Completion`;
- clock readings, as integers;
- the server's answers to the client, as `SendAnswer`, `ListAnswer` and `CreateAnswer`.

The listing endpoint that the client fetches from is not part of this model. Its answers
are inputs, given as a script of `Round`s. Each round holds one listing answer and the
answer to the create call that an empty listing triggers.

Where the code is surprising, the model follows it:
- `sendPrompt` has no empty-text check. Only the submit button is disabled for a blank
  draft; Enter calls `sendPrompt` directly.
- A submission rejected because a send is in flight still clears `isLoading`, because the
  `finally` runs on that early return.
- `isLoading` is cleared before the reveal steps fire. The flag covers the network round
  trip only.
- On a provider failure the send handler never reaches `save`. So the user message is
  **not** persisted, and the stored chat is unchanged.
- The bootstrap recursion has no retry bound.
- Every owner-scoped lookup answers the same way for an absent id and for another
  user's id.
- The stored reply takes the role the provider returns, not a fixed `assistant` role.

## Model

| member | source | states |
|---|---|---|
| `ChatStore.Store.Owns` | app/api/chat/ai/route.js:30 | the filter `{_id, userId}` matches only a stored chat whose owner is the caller, and in a valid store only an id already handed out |
| `ChatStore.Store.FindOne` | app/api/chat/ai/route.js:30 | finds a chat exactly when the caller owns it, and answers that stored chat |
| `ChatStore.Store.Create` | app/api/chat/create/route.js:31 | inserts under an id not in use; every existing chat is unchanged |
| `ChatStore.Store.FindOneAndUpdateName` | app/api/chat/rename/route.js:29-33 | for an owned chat, only its name changes and the updated document is answered; otherwise nothing changes and nothing is answered |
| `ChatStore.Store.FindOneAndDelete` | app/api/chat/delete/route.js:28 | for an owned chat, exactly that id is removed and its snapshot answered; otherwise nothing changes |
| `ChatStore.Store.Save` | app/api/chat/ai/route.js:61 | writes the loaded document back under its id; no other chat changes |
| `CreateRoute.Post` | app/api/chat/create/route.js:6-42 | no user: not-authenticated refusal, nothing inserted; database error: `{success:false, error}`, nothing inserted; otherwise exactly one new chat under a fresh id, owned by the caller, named "New Chat", holding only the system message "Chat started", and answered as the created record |
| `RenameRoute.Post` | app/api/chat/rename/route.js:6-50 | identity checked before the body; a missing id or empty name refused before any store access; absent and not-owned ids get the same permission refusal with the store unchanged; on success only the owned chat's name changes and the renamed chat is answered; a throw answers with an `error` key |
| `DeleteRoute.Post` | app/api/chat/delete/route.js:6-45 | body read before the identity check; missing id refused before store access; absent and not-owned ids get the same refusal with the store unchanged; on success exactly that chat is removed, its id is gone and its snapshot is answered |
| `AiRoute.Post` | app/api/chat/ai/route.js:17-71 | never answers with an `error` key; every failure leaves the store unchanged (including a provider failure, since `save` is not reached); absent and not-owned chats are both "Chat not found"; the provider is asked with the stored conversation followed by the new user message; on success the stored chat gains exactly the user message then the reply, and only the reply is answered |
| `AiRoute.Conversation` | app/api/chat/ai/route.js:47-50 | the provider's input keeps every message's role and content, in order, and drops timestamps |
| `AiRoute.ConversationAppend` | app/api/chat/ai/route.js:42-50 | the provider sees the stored conversation followed by the new prompt as its last turn |
| `AiRoute.ReplyMessage` | app/api/chat/ai/route.js:54-58 | the stored reply carries the provider's role and its content, or "" when the content is null |
| `AppContext.ErrorMessage` | context/AppContext.jsx:64-70 | status 402 gives the balance notice; otherwise the response's non-empty `data.message`, falling back to the error's own message |
| `AppContext.BalanceNoticeOnlyFor402` | context/AppContext.jsx:65-68 | the balance notice appears if and only if the status is 402, unless the server itself sends that text |
| `AppContext.Insert` | context/AppContext.jsx:51 | inserting into a newest-first list keeps it newest first and adds exactly that chat |
| `AppContext.SortNewestFirst` | context/AppContext.jsx:51 | the sorted list is ordered by `updatedAt`, newest first, and is a permutation of the fetched list |
| `AppContext.SortedHeadIsNewest` | context/AppContext.jsx:51-53 | the selected head is one of the fetched chats, and no fetched chat is more recent |
| `AppContext.EmptyPrefix` | context/AppContext.jsx:46-48 | counts the leading empty listings: all earlier rounds are empty, and the one it stops at is not |
| `AppContext.CountReturned` | context/AppContext.jsx:25-30 | the number of detached refetches equals the number of rounds whose create call returned without throwing, whatever its `success` flag |
| `AppContext.ReturnedRoundsSnoc` | context/AppContext.jsx:25-30 | one more round adds one returned create call exactly when that round's create call did not throw |
| `AppContext.EmptyPrefixOfEmptyRounds` | context/AppContext.jsx:46-48 | for every n, n empty listings before a final answer make the bootstrap run n create rounds: there is no retry bound |
| `AppContext.Context.constructor` | context/AppContext.jsx:16-17 | starts with no chats and no selection |
| `AppContext.Context.CreateNewChat` | context/AppContext.jsx:20-34 | does nothing without a user; otherwise posts once; refetches after any create call that does not throw, whatever its `success` flag; shows `ErrorMessage` when the call throws |
| `AppContext.Context.FetchUsersChats` | context/AppContext.jsx:37-61 | one create call per leading empty listing, with no bound; a non-empty listing sets `chats` to its newest-first sort and selects the head; a `success:false` listing shows its message; a throw shows `ErrorMessage`; both failures leave `chats` and the selection unchanged |
| `AppContext.Context.OnUserChange` | context/AppContext.jsx:73-77 | with no user nothing is fetched and nothing changes; with a user the fetch runs with the endings of `FetchUsersChats`: a non-empty listing is sorted and its head selected; a `success:false` listing or a throw shows its message and leaves `chats` and the selection unchanged; every create call that throws shows its notice first |
| `PromptBox.Split` | components/PromptBox.jsx:75 | `split(" ")` gives at least one piece and no piece contains a space |
| `PromptBox.Join` | components/PromptBox.jsx:92 | `join(" ")` of at least one piece starts with the first piece |
| `PromptBox.JoinSplit` | components/PromptBox.jsx:75-92 | joining the split pieces with `" "` gives back the reply exactly |
| `PromptBox.SplitJoin` | components/PromptBox.jsx:75-92 | splitting the join of space-free pieces gives back the pieces |
| `PromptBox.ScheduleTyping` | components/PromptBox.jsx:90-101 | the `forEach` schedules one step per piece, in order, step i showing the first i + 1 pieces |
| `PromptBox.TypingSteps` | components/PromptBox.jsx:90-92 | one reveal step per piece of `split(" ")`, at least one; every step is an assistant message stamped with the reply time; the first step shows the first piece |
| `PromptBox.TypingEndsWithReply` | components/PromptBox.jsx:90-101 | at least one step, each an assistant message; the last step shows the full reply |
| `PromptBox.TypingOfEmptyReply` | components/PromptBox.jsx:75-92 | an empty reply gives exactly one step, showing "" |
| `PromptBox.TypingGrowsByOneToken` | components/PromptBox.jsx:92 | each step shows the previous step's text, then a space, then the next piece |
| `PromptBox.TypingShowsPrefixes` | components/PromptBox.jsx:92 | every step shows a prefix of the reply |
| `PromptBox.TypingSettles` | components/PromptBox.jsx:84-101 | the empty placeholder followed by all the steps leaves the chat ending with the full reply |
| `PromptBox.AllButLast` | components/PromptBox.jsx:95 | `slice(0, -1)`: empty for an empty list; otherwise the list without its last message, which put back gives the list |
| `PromptBox.AppendToMatching` | components/PromptBox.jsx:53-59 | chats whose id differs are unchanged; chats whose id matches gain exactly that message at the end; length and order are kept |
| `PromptBox.TrimStart` | components/PromptBox.jsx:236 | the leading whitespace is dropped: the result is a suffix of the draft, everything before it is whitespace, and it is empty or starts with a non-space |
| `PromptBox.TrimEnd` | components/PromptBox.jsx:236 | the trailing whitespace is dropped: the result is a prefix, everything after it is whitespace, and it is empty or ends with a non-space |
| `PromptBox.Trim` | components/PromptBox.jsx:236 | `prompt.trim()` is the contiguous slice of the draft between a whitespace-only head and a whitespace-only tail; it is empty exactly when every character is whitespace, and otherwise starts and ends with a non-space |
| `PromptBox.SubmitEnabled` | components/PromptBox.jsx:236 | the submit button is enabled if and only if no send is in flight and the draft holds a non-space character |
| `PromptBox.Composer.constructor` | app/page.jsx:13 | the draft starts empty and no send is in flight |
| `PromptBox.Composer.SendPrompt` | components/PromptBox.jsx:37-121 | `isLoading` is false on return on every path. No user, or a send in flight: the matching notice, and draft, chats and selection unchanged. Accepted: the draft, even if blank, is appended as a user message to the selected chat and to its list entry, and every other chat is unchanged. Failure payload or throw: the draft is restored and the optimistic message kept. Success: the draft stays "", an empty assistant placeholder is appended to the selection, the server's reply is appended once to the list entry, and the typing steps are returned |
| `PromptBox.Composer.HandleKeyDown` | components/PromptBox.jsx:30-35 | Enter without Shift sends the draft as it is, blank or not; any other key changes nothing |
| `PromptBox.Composer.TypeStep` | components/PromptBox.jsx:91-99 | a timer replaces only the last message of the currently selected chat; the messages before it are unchanged, and so is their number, except that an empty chat gets one message |
| `PromptBox.Composer.PlayTyping` | components/PromptBox.jsx:90-101 | firing all steps in order leaves the selection with the last step in place of its last message |

## Left out

- JSX rendering and styling are not modelled. This covers the page's mirrored message
  list, scrolling, the sidebar markup, the chat label placeholder and the layout.
- The sidebar's own `createNewChat` is not modelled. Its selection races with an
  unawaited fetch.
- Authentication is not modelled. The caller is an optional user id. Token retrieval and
  bearer headers are absent.
- Mongoose, `connectDB`, the provider SDK and `maxDuration` are not modelled. The store
  is a map. Database failures are the `dbError` and `saveError` parameters. The
  provider is a function parameter. `models/Chat` is not part of this model, so schema
  validation and whether the store keeps `updatedAt` are not captured.
- Real time is not modelled. This covers `Date.now()`, the `i * 100` ms timer delays and
  `new Date(updatedAt)` parsing. Timestamps are opaque integers, and the typing reveal
  is an ordered list of states.
- Interleavings are not modelled. The steps of `PlayTyping` fire with nothing between
  them. The model does not capture a timer landing after the user selects another chat.
  `TypeStep`'s contract shows what would happen then: that chat's last message would be
  overwritten.
- `CreateNewChat` reports the refetch it starts but does not apply it. That refetch is
  not awaited and races with the awaited refetch in `FetchUsersChats`.
- Toast display, axios transport and HTTP status codes are not modelled, apart from the
  402 choice in `ErrorMessage`. Notifications are a list of texts. Success messages such
  as "Chat created" are not modelled.
- A missing `prompt` field is modelled as "". Stored message content is always a string,
  so the `|| ""` on stored messages is the identity here.
- A missing `chatId` in a send request is not modelled. It is passed to Mongoose's id
  casting, which is outside this model.
- Only the empty string counts as a falsy `name` in the rename guard, and a non-string
  `name` is not modelled.
- `IsSpace` covers the ASCII whitespace, no-break space, byte-order mark and line/paragraph
  separators. The other Unicode space separators that `String.prototype.trim` removes
  are not listed.
- `PromptBox.NoSelection` is the TypeError text of one JavaScript engine (V8). Other
  engines word the same error differently.
- `PromptBox.Composer.SendPrompt`: with no selected chat, the model takes the path where
  reading `_id` throws and the draft is restored. The state updaters queued before that
  point would also fail while React renders; that is not modelled.
- `AppContext.SortNewestFirst`: the comparator is modelled on integer timestamps, so
  invalid dates (`NaN`) are not captured. Stability is by construction of the insertion
  sort, not stated as a lemma.
- The listing endpoint `/api/chat/get` is not part of this model. Its answers are
  inputs.
