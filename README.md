# Chat session store and sidebar dates, modelled in Dafny

This project models the state logic of a browser chat screen that imitates a
conversational assistant. The screen keeps a list of messages, an input box,
a "waiting for the reply" flag, a list of saved chats (newest first) and the
id of the current chat. Its handlers send a message, start a new chat, open a
saved chat and delete one. A saved chat is a `ChatData` record with an id, a
title, its messages and two timestamps. The sidebar labels each chat with a
relative date.

Files and modules:

- `chat_types.dfy`, module `ChatTypes`: the `Message` and `ChatData` records,
  the `User | Assistant` sender, `Option`, and two predicates on a chat list.
  `HasId` says some entry carries an id. `DistinctIds` says no two entries
  share one.
- `chat_text.dfy`, module `ChatText`: the text rules the handlers use.
  - the send guard `!inputValue.trim()`, with JavaScript's set of white-space characters;
  - the 30-character title rule;
  - the reversed echo and the canned openings of the simulated reply;
  - `Date.now().toString()` as the decimal string of a clock reading.
- `chat_history.dfy`, module `ChatHistory`: the list transformations.
  Update-by-id is the `map`, delete is the `filter`, lookup is the `find`.
- `chat_interface.dfy`, module `ChatInterface`: the class `ChatSession`.
  - Its fields are the five pieces of screen state.
  - Two more fields hold what the send handler keeps across its wait: the
    text as typed and the message list with the user's message.
  - A ghost field `stored` stands for browser storage.
  - `Valid()` is the class invariant, and every handler keeps it, given that
    storage writes succeed (see "## Left out"):
    - a current chat id names an entry of the history;
    - the saved messages of the current chat are a prefix of the messages on
      screen (the screen runs ahead by the user messages whose reply failed or is still awaited);
    - storage holds exactly the history, or no entry at all while the
      history is empty (as after mounting with nothing stored);
    - while a reply is awaited, the screen ends with the user's non-blank
      message and the input box is empty.
- `chat_sidebar.dfy`, module `ChatSidebar`: `formatDate` sorts a millisecond
  difference into four day buckets.
- `chat_scenarios.dfy`, module `ChatScenarios`: client methods that walk
  through the screen's usage scenarios, proved from the handlers' contracts
  alone. The scenarios are: a first message and its reply, a failed reply,
  blank input, and deleting the chat on screen.

The send handler is split into `BeginSend`, `CompleteSend(reply, now)` and
`FailSend`, so that the Idle → Loading → Idle cycle can be stated.
`HandleSendMessage` composes them: its reply is `None` when the reply call
failed. Clock readings, the reply text and the random choice of opening are
parameters.

## Model

| member | source | states |
|---|---|---|
| ChatText.Trim | src/components/ChatInterface.tsx:66 | the trimmed text is no longer than the input, and when non-empty neither starts nor ends with white space |
| ChatText.TrimIsSlice | src/components/ChatInterface.tsx:66 | the trimmed text is a slice of the input with only white space cut off before and after it; with the contract of `Trim`, it is the input minus all its leading and trailing white space |
| ChatText.BlankIffAllWhitespace | src/components/ChatInterface.tsx:66 | the send guard refuses a text exactly when every character is white space (the empty text included) |
| ChatText.Title | src/components/ChatInterface.tsx:104 | a title is at most 33 characters; a text of at most 30 characters is its own title; a longer one gives its first 30 characters followed by "..." |
| ChatText.TitleIsTextIff | src/components/ChatInterface.tsx:104 | a title equals its text exactly when the text has at most 30 characters, or is 33 characters already ending in "..." |
| ChatText.Reverse | src/components/ChatInterface.tsx:62 | the reversal has the input's length, and position k holds the input's character at length-1-k |
| ChatText.ReverseInvolutive | src/components/ChatInterface.tsx:62 | reversing twice gives the text back |
| ChatText.SimulatedReply | src/components/ChatInterface.tsx:53-62 | the simulated reply's length is the opening's, plus one, plus the message's, plus the closing sentence's |
| ChatText.SimulatedReplyEchoes | src/components/ChatInterface.tsx:62 | the reply is the chosen opening and a space, then the message reversed, then the fixed closing sentence; reversing the middle gives the message back |
| ChatText.DecimalString | src/components/ChatInterface.tsx:69 | an id made from a clock reading is a non-empty string of decimal digits without a leading zero, unless the reading is 0 |
| ChatText.DecimalRoundTrip | src/components/ChatInterface.tsx:69 | reading an id back as a number gives the clock reading it was made from |
| ChatText.DecimalInjective | src/components/ChatInterface.tsx:84 | two ids are equal exactly when their clock readings are equal, so the assistant's id (reading + 1) never equals the user's (same reading) |
| ChatText.IntegerString | src/components/ChatSidebar.tsx:33 | the printed day count is non-empty, starts with "-" exactly when the count is negative, and every other character is a decimal digit; the digits have no leading zero unless the count is 0 |
| ChatText.IntegerStringValue | src/components/ChatSidebar.tsx:33 | the digits of the printed day count denote its magnitude |
| ChatText.IntegerStringInjective | src/components/ChatSidebar.tsx:33 | two day counts print the same exactly when they are equal |
| ChatHistory.UpdateChat | src/components/ChatInterface.tsx:95-99 | same length and order; every entry keeps its id, title and creation time; entries with the id get the new messages and update time; all other entries are unchanged |
| ChatHistory.UpdateChatAbsent | src/components/ChatInterface.tsx:95-99 | updating an id that no entry carries leaves the list unchanged |
| ChatHistory.UpdateChatKeepsIds | src/components/ChatInterface.tsx:95-99 | updating keeps exactly the same ids, and keeps distinct ids distinct |
| ChatHistory.RemoveChat | src/components/ChatInterface.tsx:135 | no entry with the id is left; the list does not grow; deleting an absent id leaves the list unchanged |
| ChatHistory.RemoveChatMembers | src/components/ChatInterface.tsx:135 | an entry survives a delete exactly when it was in the list and has another id |
| ChatHistory.RemoveChatKeepsOthers | src/components/ChatInterface.tsx:135 | every other id is still present after the delete |
| ChatHistory.RemoveChatAppend | src/components/ChatInterface.tsx:135 | deleting distributes over concatenation, so the entries kept stay in their relative order |
| ChatHistory.CountId | src/components/ChatInterface.tsx:135 | the number of entries carrying an id is zero exactly when no entry carries it |
| ChatHistory.RemoveChatLength | src/components/ChatInterface.tsx:135 | a delete shortens the list by exactly the number of entries with that id |
| ChatHistory.RemoveChatOne | src/components/ChatInterface.tsx:135 | with distinct ids, deleting an id that is present removes exactly one entry |
| ChatHistory.RemoveChatKeepsDistinct | src/components/ChatInterface.tsx:135 | a delete keeps distinct ids distinct |
| ChatHistory.FindChat | src/components/ChatInterface.tsx:126 | a chat is found exactly when some entry carries the id, and the chat found carries that id and is an entry of the list |
| ChatHistory.FindChatFirst | src/components/ChatInterface.tsx:126 | the chat found is the first entry carrying the id |
| ChatHistory.FindAfterRemove | src/components/ChatInterface.tsx:134-147 | deleting one id does not change what a lookup of any other id finds |
| ChatHistory.FindAfterUpdate | src/components/ChatInterface.tsx:94-100 | after a send into a present chat, looking that chat up finds the new messages |
| ChatInterface.UserMessage | src/components/ChatInterface.tsx:68-73 | the user's message carries the text exactly as typed (untrimmed), sender user, the clock reading as timestamp, and the decimal form of that reading as id |
| ChatInterface.AssistantMessage | src/components/ChatInterface.tsx:83-88 | the assistant's message carries the reply and sender assistant; its id is the clock reading plus one, unlike a user id made at that reading |
| ChatInterface.NewChat | src/components/ChatInterface.tsx:102-108 | a new chat is named by the clock reading, titled by the title rule (at most 33 characters), holds the final messages, and is created and updated at that reading |
| ChatInterface.RecordExchange | src/components/ChatInterface.tsx:93-111 | the result is an `Exchange`: the history to save and the id then current. With a current chat (`IsSet`: a non-null, non-empty id, the truthiness test at :94; `Some("")` counts as none), only the entries with its id change and the length is kept; without one, a new chat goes in front of the unchanged old list, which grows by one; either way, when the current id named an entry, the resulting current id names an entry whose messages are the final messages |
| ChatInterface.EmptyIdStartsNewChat | src/components/ChatInterface.tsx:94-110 | an empty current id is falsy: the exchange puts a new chat, whose id is non-empty, in front of the unchanged history, even when an entry with the empty id exists |
| ChatInterface.RecordExchangeKeepsDistinct | src/components/ChatInterface.tsx:101-110 | if the new chat's id is fresh, an exchange keeps distinct ids distinct (the code itself does not ensure freshness) |
| ChatInterface.ChatSession.Mount | src/components/ChatInterface.tsx:31-41 | with stored chats, the history is the stored list; a non-empty list makes its first chat current and shown; nothing stored or an empty list leaves no current chat and an empty screen |
| ChatInterface.ChatSession.Save | src/components/ChatInterface.tsx:43-46 | storage is overwritten with the whole list and the list is shown; nothing else changes |
| ChatInterface.ChatSession.SetInput | src/components/ChatInterface.tsx:219 | only the input text changes |
| ChatInterface.ChatSession.BeginSend | src/components/ChatInterface.tsx:65-78 | a blank input changes nothing; otherwise the user's message is appended, the input is cleared, the text as typed is kept for the reply, and loading starts; history, current chat and storage are untouched |
| ChatInterface.ChatSession.CompleteSend | src/components/ChatInterface.tsx:80-111 | the assistant's message is appended after the user's; the current chat (a non-empty id, see `EmptyIdStartsNewChat`) is updated, or, with no id or the empty id, a chat titled after the sent text is created in front and made current; storage holds the new history; loading ends |
| ChatInterface.ChatSession.FailSend | src/components/ChatInterface.tsx:112-116 | loading ends; the user's message stays; no assistant message; history, current chat and storage unchanged |
| ChatInterface.ChatSession.HandleSendMessage | src/components/ChatInterface.tsx:65-117 | blank input: no change; a reply: the screen grows by the user's then the assistant's message, the history and current id are those `RecordExchange` gives, and storage holds that history; a failure: the user's message is appended and the input cleared, and nothing else changes; loading always ends |
| ChatInterface.ChatSession.StartNewChat | src/components/ChatInterface.tsx:119-123 | empty screen, no current chat, history untouched |
| ChatInterface.ChatSession.LoadChat | src/components/ChatInterface.tsx:125-132 | an unknown id changes nothing; otherwise the first chat with the id is shown and becomes current |
| ChatInterface.ChatSession.DeleteChat | src/components/ChatInterface.tsx:134-147 | history and storage become the filtered list; if the deleted chat was current, the first remaining chat is shown and current, or, when none remain, no chat and an empty screen; otherwise current chat and screen unchanged. The comparison is `===`, so a current empty id is matched by deleting the empty id, unlike the truthiness test of the send handler |
| ChatSidebar.WholeDays | src/components/ChatSidebar.tsx:29 | the day count is the floor of the difference divided by 86 400 000 ms |
| ChatSidebar.FormatDate | src/components/ChatSidebar.tsx:26-35 | "Today" exactly for [0, 1 day); "Yesterday" exactly for [1, 2 days); "d days ago" exactly for negative differences and [2, 7 days), with d the floored count; the calendar date exactly from 7 days on; [-1 day, 0) gives -1 days ago |
| ChatSidebar.WholeDaysUnique | src/components/ChatSidebar.tsx:29 | the day count is the one whole-day window the difference falls in |
| ChatSidebar.SameDaySameLabel | src/components/ChatSidebar.tsx:29-34 | the label depends only on the floored day count |
| ChatSidebar.LabelText | src/components/ChatSidebar.tsx:31-34 | the texts "Today" and "Yesterday", and for a day count d the printed d followed by " days ago"; only the calendar date has no modelled text |
| ChatSidebar.DaysAgoTextInjective | src/components/ChatSidebar.tsx:33 | the "days ago" text names its day count: different counts show different texts |
| ChatSidebar.FutureShowsMinusOne | src/components/ChatSidebar.tsx:29-33 | a chat dated up to a day in the future is shown as "-1 days ago", not "Today" |

## Left out

- Rendering and styling are not modelled. This covers src/components/ChatMessage.tsx, the markup of ChatInterface.tsx from line 149 and of ChatSidebar.tsx from line 37. It also covers `scrollToBottom`, `messagesEndRef` and the `sidebarOpen` flag.
- Browser storage is the ghost field `stored`, which `Save` overwrites with the whole list. `JSON.stringify` and `JSON.parse` are not modelled.
  - `Mount` receives the stored list already parsed.
  - The code has no guard for malformed stored data, and dates are not revived as `Date` objects. A load that falls back to an empty list on malformed data would be a hardening the code does not have, so it is not modelled.
- The reply delay (`setTimeout`) and the random choice of opening are not modelled. `CompleteSend` takes the reply as a parameter, and `SimulatedReply` takes the index of the opening.
- The clock is a parameter, because `Date.now()` and `new Date()` are reads of it. The source reads the clock several times within one step; the model uses one reading per step. The assistant's id is that reading plus one.
- Ids are not unique in the code. A chat id equals the millisecond of the reply, so two sends in the same millisecond collide. Distinctness is proved only under a freshness assumption (`RecordExchangeKeepsDistinct`).
- `console.error` on a failed reply is not modelled.
- ChatInterface.ChatSession.CompleteSend: storage writes are assumed to succeed (`Save` cannot fail). In the code, a throwing `localStorage.setItem` inside `saveChatHistory` (lines 44, 100, 110) is caught by the send handler's `catch` (line 112) after the assistant's message is already on screen (line 91) and before `setChatHistory` (line 45) runs. In the new-chat branch, `setCurrentChatId` (line 109) has already run, so the current id then names no entry of the history and later sends in that conversation update nothing. The model does not capture this path, and `Valid()` (the current id names an entry) would not hold on it.
- ChatInterface.ChatSession.DeleteChat: storage writes are assumed to succeed. In the code, a throwing save at line 136 is not caught, and the delete then changes nothing.
- ChatInterface.ChatSession.Mount: `loadChatHistory` runs once, on mount (lines 19-21). It is therefore modelled on the initial state only, not as a method callable later.
- ChatInterface.ChatSession.StartNewChat: requires that no reply is awaited. The source leaves the new-chat button and the sidebar active while a reply is awaited. The handler finishing a send then works on the messages, history and current chat it captured when the send began, and the model does not capture those stale values.
- ChatInterface.ChatSession.LoadChat: requires that no reply is awaited, for the same reason.
- ChatInterface.ChatSession.DeleteChat: requires that no reply is awaited, for the same reason.
- ChatInterface.ChatSession.SetInput: requires that no reply is awaited, because the input box is disabled then (line 223).
- ChatInterface.ChatSession.BeginSend: requires that no reply is awaited, because the input box and the send button are disabled then (lines 223, 227).
- JavaScript strings are sequences of UTF-16 code units. `slice(0, 30)` and `split('')` work on code units, so they can split a surrogate pair. The model works on Unicode characters, so texts outside the Basic Multilingual Plane differ.
- `formatDate` divides in floating point before `Math.floor`. The model uses exact integer floor division. The two agree for any difference that real clocks produce (well below 2^53 ms). An invalid date (`NaN`) is not modelled.
- The locale-formatted calendar date (`toLocaleDateString`) and message times (`toLocaleTimeString`) are not modelled. `LabelText` gives no text for that bucket.
- File attachments are not part of this code: the send handler has no attachment path.
