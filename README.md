# Chat client session and conversation state, in Dafny

This project models the state logic of a small React chat client. In the client, a
user opens chat sessions with a question-answering service, resumes old sessions
from a history sidebar, and exchanges messages in a chat window. Almost all of the
client is view code. The modelled core is the deterministic state changes inside
its components and its API module:

- **History normaliser** (`HistoryFormat`). This is the flattening of a fetched chat
  history into `{sender, text, type}` messages. Each `{user, bot}` entry gives its
  user message, then one bot message per answer. A `bot` string gives one message.
  A `bot` array gives one message per fragment, with "No response available." for
  a falsy `content`. A non-array payload gives no messages.
- **Chat window** (`ChatInterfaceComponent.ChatInterface`). It holds the `messages`,
  `input` and `typing` state, the history-loading effect, and the two phases of a
  send. The first phase echoes the user's text. The second is the awaited answer
  and the one-second timer callback, which append the bot's reply, or the fallback
  "I couldn't generate a relevant response.".
- **Chat page** (`ChatPageComponent.ChatPage`). It holds the active session, the
  shown history, the list of available chats and the loading flag. It has handlers
  for selecting a chat and starting a new one. It chooses the loading view, the
  chat window or the landing view.
- **History sidebar** (`ChatHistoryComponent.ChatHistory`). It turns the fetch
  outcome into the list, the error text or the loading state. It handles the "New
  Chat" button and clicks on entries. `View` renders the list with a `Chat n` title
  fallback and highlights the current entry.
- **API service** (`ApiService`). It builds `session_<timestamp>` ids. It shapes
  each request's result: `[]` on any failure, the caller's session id echoed back,
  "Error retrieving response." when a send fails. It also keeps the module-level
  `activeSession`, which is created only when there is none.

JavaScript values travel as `Js.Value`, a JSON-like datatype. The module `Js` also
defines truthiness, `||`, property reads, array spread and `===`. A property read
on `null` or `undefined` gives `None`, which stands for the TypeError JavaScript
throws. The model keeps the consequences of that TypeError: a null history entry
aborts the load, and a null answer makes the timer callback throw. Every awaited
request is an input of type `Js.Settled`: it is fulfilled with a value or rejected.
`Date.now()` is the natural-number input `now`.

The client does not do the following, so the model does not either:

- a pending placeholder that is replaced later;
- queuing of sends;
- guards against stale responses;
- a persisted local list of session ids;
- de-duplication of the session list;
- a placeholder text for a missing `user` field. The code emits `chat.user`
  verbatim, even when it is undefined.

## Model

| member | source | states |
|---|---|---|
| HistoryFormat.FragmentText | src/components/ChatInterface.js:20-24 | A fragment's text is its `content` when truthy, else "No response available." (also for `""`). It is never falsy. Reading fails exactly when the fragment is null or undefined. |
| HistoryFormat.FragmentMessages | src/components/ChatInterface.js:19-24 | `bot.map`: exactly one bot message per fragment, in order. It succeeds exactly when no fragment is null or undefined. |
| HistoryFormat.BotMessages | src/components/ChatInterface.js:18-27 | An array `bot` yields as many bot messages as elements. A string yields exactly one, with that string as text. Any other value yields none. Message k carries the k-th expected text. |
| HistoryFormat.EntryMessages | src/components/ChatInterface.js:17-28 | One entry yields its user message first, with `chat.user` verbatim, then its bot messages. It has 1 + bot-count messages and fails exactly when the entry or a fragment is null or undefined. |
| FlatMap.Flatten | src/components/ChatInterface.js:17-29 | The flattening step of `flatMap`: the result's length is the sum of the pieces' lengths. |
| FlatMap.FlattenAt | src/components/ChatInterface.js:17-29 | Element i of piece j lands at position (lengths of the pieces before j) + i of the flattened result, so pieces keep their order and their contents. |
| HistoryFormat.EntriesMessages | src/components/ChatInterface.js:17-29 | The flat-map succeeds exactly when every entry can be read. Its length is the sum over entries of 1 + bot count. |
| HistoryFormat.Normalize | src/components/ChatInterface.js:16-34 | A non-array payload gives the empty list. An array payload gives the flattened entries, and fails exactly when some entry can't be read. |
| HistoryFormat.EntryMessageAt | src/components/ChatInterface.js:17-29 | Entry j's messages fit in the history, and its i-th message sits at the sum of the widths (1 + bot count) of the entries before it, plus i. |
| HistoryFormat.EntryLayout | src/components/ChatInterface.js:28 | Entry j's user message, with `chat.user` verbatim, sits at the sum of the widths of the entries before it. So entry order is kept. |
| HistoryFormat.EntryBotAt | src/components/ChatInterface.js:19-28 | Entry j's k-th bot message sits right after its user message, at offset + 1 + k, with the k-th fragment's text (or the string answer). So answer order is kept. |
| HistoryFormat.UserTextsMatchEntries | src/components/ChatInterface.js:28 | The user-kind messages of a normalised history are exactly one per entry, in entry order, each carrying the entry's `user` value unchanged. |
| HistoryFormat.NormalizeAtLeastEntries | src/components/ChatInterface.js:17-29 | A normalised array history has at least as many messages as entries. |
| HistoryFormat.SingleEntry | src/components/ChatInterface.js:17-29 | A one-entry history normalises to exactly that entry's messages. |
| HistoryFormat.StringAnswerExample | src/components/ChatInterface.js:25-28 | `[{user:"hi", bot:"hello"}]` gives `[User "hi", Bot "hello"]`. |
| HistoryFormat.FragmentAnswerExample | src/components/ChatInterface.js:19-28 | `[{user:"hi", bot:[{content:"a"},{content:"b"}]}]` gives `[User "hi", Bot "a", Bot "b"]`. |
| HistoryFormat.EmptyFragmentExample | src/components/ChatInterface.js:22 | A fragment with `content: ""` is shown as "No response available.". |
| Text.Trim | src/components/ChatInterface.js:42 | `input.trim()` is the input with its leading and trailing ECMAScript white space removed: a contiguous piece of it, with only white space before and after, and with no white space at either end. It is empty exactly when every character is white space. |
| ChatInterfaceComponent.ReplyMessage | src/components/ChatInterface.js:54-58 | The bot reply carries `response` when truthy, else "I couldn't generate a relevant response.". Its text is never falsy. |
| ChatInterfaceComponent.ChatInterface.constructor | src/components/ChatInterface.js:6-8 | Starts with no messages, empty input, not typing. |
| ChatInterfaceComponent.ChatInterface.SetInput | src/components/ChatInterface.js:116 | The change handler sets `input`. |
| ChatInterfaceComponent.ChatInterface.LoadHistory | src/components/ChatInterface.js:10-38 | A falsy session id loads nothing. Otherwise a fulfilled fetch sets messages to the normalised history, and a non-array payload empties the list. A rejected fetch or a throwing flattening leaves messages unchanged. |
| ChatInterfaceComponent.ChatInterface.SendMessage | src/components/ChatInterface.js:41-47 | Blank input changes nothing and sends nothing. Otherwise the user message is appended after the unchanged earlier messages, input is cleared, typing is set, and the typed text is what gets sent. |
| ChatInterfaceComponent.ChatInterface.Settle | src/components/ChatInterface.js:49-65 | A fulfilled answer appends exactly one bot message (response or fallback, never falsy) and clears typing. A rejected one appends nothing and clears typing. A null answer throws in the timer and changes nothing. |
| SessionList.NewChatEntry | src/components/ChatPage.js:48 | The new list entry has `session_id` = the new id and `title` = "New Chat". |
| SessionList.Prepend | src/components/ChatPage.js:47-50 | `[entry, ...list]` puts the entry first and keeps every old element in order. For an array it grows the list by exactly one and removes no duplicates. It fails exactly when the list can't be spread. |
| ChatPageComponent.ChoosePanel | src/components/ChatPage.js:112-120 | The panel is the loading view iff loading, else the chat window iff the active session is truthy, else the landing view. |
| ChatPageComponent.ChatPage.constructor | src/components/ChatPage.js:9-12 | No active session, empty history, loading, no chats. |
| ChatPageComponent.ChatPage.LoadSessions | src/components/ChatPage.js:16-26 | Loading ends false whether the fetch succeeded or threw. On success the list is replaced. On failure it is untouched. |
| ChatPageComponent.ChatPage.ChatSelect | src/components/ChatPage.js:32-36 | The selected id becomes active. The history becomes the one given, and `[]` only when it was omitted (undefined), not when it is null. |
| ChatPageComponent.ChatPage.NewChat | src/components/ChatPage.js:39-54 | On success the new id becomes active, the history is emptied, and a "New Chat" entry is prepended. On a rejected start or an unreadable result, the active session, history and list are all unchanged. |
| ChatHistoryComponent.DisplayTitle | src/components/ChatHistory.js:72 | The title is `chat.title` when truthy, else "Chat " followed by the digits of index + 1, without a leading zero. It is never falsy. |
| ChatHistoryComponent.Highlighted | src/components/ChatHistory.js:66 | An entry is highlighted iff `currentChat === chat.session_id`: equal primitive values; never two arrays or objects (reference identity is not modelled, see Left out). |
| ChatHistoryComponent.View | src/components/ChatHistory.js:57-72 | Loading beats a truthy error, and a truthy error beats the list (an empty error text would be falsy and show the list). When nothing is loading and no error is truthy, a render that does not throw shows the list. The list has one entry per chat, keyed by `session_id`, with its display title, and is highlighted iff `currentChat === session_id`. |
| ChatHistoryComponent.NewChatShownFirst | src/components/ChatHistory.js:37-38 | After "New Chat" with a primitive id, the shown list starts with the new entry, titled "New Chat" and highlighted. The old entries follow in order, each one place down: an untitled one is renumbered ("Chat 1" becomes "Chat 2"), and one whose id equals the new id is highlighted too. |
| ChatHistoryComponent.ChatHistory.constructor | src/components/ChatHistory.js:5-8 | No chats, loading, no error, the given initial chat id current. |
| ChatHistoryComponent.ChatHistory.LoadChats | src/components/ChatHistory.js:11-29 | An empty list (length 0) gives "No chat history found." and keeps the chats. Any other list replaces the chats and clears the error. A throw gives "Failed to load chat history." and keeps the chats. Loading is false afterwards in every case. |
| ChatHistoryComponent.ChatHistory.NewChat | src/components/ChatHistory.js:34-40 | The new id becomes current and the "New Chat" entry is prepended. The same id is passed to `onSelectChat`. |
| ChatHistoryComponent.ChatHistory.Select | src/components/ChatHistory.js:67-70 | The clicked entry's `session_id` becomes current and is the id passed to `onSelectChat`. |
| ApiService.GenerateSessionId | src/services/api.js:17 | The id is "session_" followed by decimal digits that read back as the timestamp, with no leading zero unless the timestamp is 0. |
| ApiService.SessionIdsMatchTimestamps | src/services/api.js:17 | Two ids are equal iff their timestamps are equal, so ids made in the same millisecond collide. |
| ApiService.FetchChatSessions | src/services/api.js:20-28 | Gives `chat_sessions` when truthy, else `[]`, and `[]` on any error. The result is never falsy. |
| ApiService.FetchChatHistory | src/services/api.js:30-38 | Gives `chat_history` when truthy, else `[]`, and `[]` on any error. The result is never falsy. |
| ApiService.StartNewChat | src/services/api.js:40-43 | The result's `session_id` is "session_" + timestamp and its `chat_history` is empty. |
| ApiService.SendMessage | src/services/api.js:45-53 | The caller's `session_id` always comes back. A readable answer passes its history and response through. On error the history is empty and the response is "Error retrieving response.". |
| ApiService.LazySession | src/services/api.js:58-60 | A truthy session is kept. A falsy one becomes a fresh generated id. The result is always truthy. |
| ApiService.LazySessionStable | src/services/api.js:58-60 | Once a session exists, any number of later calls, at any timestamps, leave it unchanged. |
| ApiService.AgenticReply | src/services/api.js:67-77 | The reply names the given session. Its response is the answer's `response` when readable, else "Error retrieving response.". |
| ApiService.Api.constructor | src/services/api.js:14 | `activeSession` starts null. |
| ApiService.Api.SendAgenticMessage | src/services/api.js:57-78 | `activeSession` is assigned only when falsy and is truthy afterwards. The reply's `session_id` equals the module's `activeSession` after the call, on success and on failure. |

## Left out

- Rendering is not modelled: the JSX, framer-motion animation, CSS classes and the "GUY is thinking..." markup. Only the choices of what to show are modelled (`ChoosePanel`, `View`). `HomeLanding.js` (a static view) and `App.js` (routing) are not part of this model.
- The axios instance and HTTP transport (`src/services/api.js:4-10`) are left out. Each request is an input that is fulfilled with a response object or rejected. The URLs and the query parameters sent are left out, so `ApiService.SendMessage` takes no query and `ApiService.FetchChatHistory` takes no session id. Their results do not depend on them.
- `console` logging is left out.
- Real time is left out. `Date.now()` is an input natural. Ids are not claimed unique: equal timestamps give equal ids.
- The 1000 ms timer is left out. `ChatInterface.Settle` is the awaited answer and the timer callback taken together. The moment between the answer arriving and the timer firing is not a separate state.
- React scheduling, effect re-runs and interleaved sends are not modelled. Each handler runs to completion on the current state.
- Cross-file wiring is not modelled. The components call `ApiService.fetchChatHistory`, `generateAnswer`, `fetchAllChats`, `getSessionId` and `startNewSession` on the default export, which is the axios instance. Prop names also differ between caller and callee (`onChatSelect`/`onSelectChat`, `activeSession`/`sessionId`). Each component's logic takes its own inputs as parameters instead.
- The exported `chatSessions` array (`src/services/api.js:13`) is left out: it is never changed.
- JavaScript numbers are integers here: no fractions, no NaN. `===` on two arrays or objects compares references, which a value model cannot see, so the model never treats them as identical. A string's `length` counts code points, not UTF-16 units. It is only compared with 0, so the outcome is the same.
- ChatPageComponent.ChatPage.NewChat: when `availableChats` holds a truthy value that cannot be spread (an object from the server, say), the source's state updater throws while React renders. The model keeps the list unchanged instead.
- ChatHistoryComponent.ChatHistory.NewChat: likewise, a `chats` value that cannot be spread is kept unchanged, where the source's updater throws during rendering.
- ChatHistoryComponent.View: a render that throws (`chats` without `map`, or a null entry) is `None`. What React then does (unmounting the tree) is not modelled.
