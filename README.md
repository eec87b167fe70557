# ollama-ui core, modelled in Dafny

ollama-ui is a chat front end for an Ollama model server, with a small Express
server that stores chats and their messages. This project models the parts of
it that hold logic, and proves what each part promises:

- `ChatRoutes` (chat_store.dfy): the server's chat routes over an in-memory
  store. A class `ChatStore` holds the chats and messages, serial id counters
  and a clock. It creates chats, lists them, saves a batch of messages in one
  all-or-nothing transaction, and lists one chat's messages.
- `Schema` (schema.dfy): the record shapes and the schema's validation rules:
  required fields, the `role` enumeration and the time defaults.
- `QueryClient` (query_client.dfy): the client's request helper. It covers
  base URL selection, removal of the `/api/ollama` proxy prefix, headers and
  body, the ok-check of `apiRequest`, and the 401 and non-ok decisions of
  query functions. `apiRequest` is modelled as written, including its
  JavaScript truthiness test on the data, and beside it a corrected version
  that sends forms as forms (see Findings). The pages send the version as
  written.
- `MessageInput` (message_input.dfy): the message composer as a class
  `Composer`. Its state is the draft, the active slash command, the
  command-list flag and the attached files. Each event handler is a method.
- `ChatPage` (chat_page.dfy): the chat page. It picks the endpoint by prompt
  prefix, builds the form data, and appends to the local transcript, whose
  ids are derived from its length.
- `Home` (home.dfy): the new-conversation flow. It derives the
  title, then runs five steps (create the chat, save the user's message, ask
  the model, save the reply, navigate). A failure at any step aborts the
  rest. `Run` drives a `Page` through a whole run.
- `Sidebar` (sidebar.dfy): the rename and delete dialogs and the collapse
  toggle, as a class `Panel`.
- `MessageView` (message_view.dfy): how a message is shown. This covers the
  author label, the language named by a `language-…` class, the choice
  between highlighted and plain code, and removal of the trailing newline.
- `Text` (text.dfy): the JavaScript string operations the code relies on:
  `trim`, `startsWith`, `replace` with a string pattern, `\w`, and decimal
  rendering with `parseInt` as its inverse.
- `Wrappers` (wrappers.dfy): `Option` and `Result`.

Requests, responses and the database are values: a request is a `Request`
record, each response is a parameter, and the database is the store's
sequences. `Date.now` is the store's clock, which advances by one on each
insert.

## Model

| member | source | states |
|---|---|---|
| ChatRoutes.TitleOrDefault | server/routes/chat.ts:18 | A missing or empty title becomes `Nuevo Chat`; any other title is kept verbatim, untrimmed; the result is never empty |
| ChatRoutes.ChatStore.constructor | server/routes/chat.ts:8-22 | An empty store, valid, with serial ids starting at 1 |
| ChatRoutes.ChatStore.ListChats | server/routes/chat.ts:8-11 | Every stored chat, none added or lost, in non-decreasing `createdAt` order; reads the store only |
| ChatRoutes.ChatStore.CreateChat | server/routes/chat.ts:14-22 | Appends exactly one chat, with a fresh id, the defaulted title and the current time, and returns it; earlier chats and all messages are unchanged; the store stays valid |
| ChatRoutes.ChatStore.SaveMessages | server/routes/chat.ts:25-46 | The result is the batch outcome. On success the saved rows are appended after the existing messages and the counters move past them. On failure the store is unchanged. Chats are untouched and the store stays valid |
| ChatRoutes.ChatStore.ListMessages | server/routes/chat.ts:48-56 | Exactly the stored messages of the given chat, each once: strictly increasing in id and in `timestamp`, so ordered by `timestamp`; an id with no messages gives `[]` |
| ChatRoutes.InsertBatch | server/routes/chat.ts:29-43 | The insert loop inside the transaction: stops at the first rejected message and otherwise collects the saved rows; its result equals the batch outcome `SaveBatch` |
| ChatRoutes.InsertAtSpec | server/routes/chat.ts:31-39 | The insert of message `k` succeeds iff it has a known role and non-empty content; the row then has id `firstId + k`, the path's chat id, the message's role and content, and time `now + k`; otherwise it fails with the missing or invalid fields |
| ChatRoutes.CollectAll | server/routes/chat.ts:29-43 | A transaction succeeds iff every insert succeeds, and then its rows are the inserts' rows one for one, in order |
| ChatRoutes.CollectRows | server/routes/chat.ts:29-43 | When every insert yields its own row, the transaction yields exactly those rows |
| ChatRoutes.CollectFirstFailure | server/routes/chat.ts:29-43 | After accepted inserts, the first rejected one decides the transaction's error |
| ChatRoutes.SaveBatchRows | server/routes/chat.ts:29-43 | A saved batch has one row per incoming message, in input order. Row `k` has the path's chat id, the message's role and content, and consecutive id and timestamp |
| ChatRoutes.SaveBatchFails | server/routes/chat.ts:29-43 | A batch fails iff one of its messages violates the schema; so an empty batch succeeds with no rows |
| ChatRoutes.CommitBatch | server/routes/chat.ts:29-45 | Appending a saved batch keeps the stored rows valid and strictly ordered by id and timestamp |
| ChatRoutes.AppendRowsValid | server/db/index.ts:40 | Rows stamped with consecutive ids and times after the counters keep the store valid and ordered |
| ChatRoutes.ChatRowsLater | server/db/index.ts:25 | Chat rows stay valid as the clock moves forward |
| ChatRoutes.OfChat | server/routes/chat.ts:54 | The `where chatId = …` filter keeps exactly the messages of the chat and never lengthens its input |
| ChatRoutes.OfChatAppend | server/routes/chat.ts:54 | Filtering a concatenation is the concatenation of the filtered parts |
| ChatRoutes.OfChatAll | server/routes/chat.ts:54 | A sequence of one chat's messages is its own filter |
| ChatRoutes.OfChatNone | server/routes/chat.ts:54 | A sequence with no message of the chat filters to nothing |
| ChatRoutes.OfChatOrdered | server/routes/chat.ts:51-55 | Filtering keeps the insertion order, so the result is ordered by timestamp |
| ChatRoutes.ListAfterSave | server/routes/chat.ts:29-55 | After a batch is saved to a chat, listing that chat gives the earlier listing followed by the batch, in order |
| ChatRoutes.ListOtherAfterSave | server/routes/chat.ts:29-55 | Saving a batch to one chat leaves the listing of any other chat as it was |
| Schema.ParseRole | server/db/index.ts:34-38 | A role is accepted iff it is `user` or `assistant`, and the accepted role has that name |
| Schema.ParseRoleName | server/db/index.ts:34-38 | Reading a role's name back gives the role |
| Schema.ChatErrors | server/db/index.ts:24 | A chat is rejected iff its title is missing or empty, with the single error `Required(title)` |
| Schema.RoleError | server/db/index.ts:34-38 | The role path has no error iff the role is present and in the enumeration; at most one error is reported |
| Schema.MessageErrors | server/db/index.ts:28-39 | A message has no errors iff `chatId`, a declared `role` and a non-empty `content` are all present |
| Schema.MessageErrorPaths | server/db/index.ts:28-39 | Each failing path is reported by its own error and only then: a missing `chatId`, `role`, `content`, or a role outside the enumeration |
| Schema.NewChat | server/db/index.ts:23-26 | A chat is stored iff it has a title; its `createdAt` is the given time or, when absent, now; otherwise the title error |
| Schema.NewMessage | server/db/index.ts:28-41 | A message is stored iff it passes validation. Its fields are copied, and `timestamp` is the given time or, when absent, now. Otherwise it fails with every path's error |
| QueryClient.ConfiguredOr | src/lib/queryClient.ts:3-5 | An unset or empty variable falls back to the default; a set one is used as is |
| QueryClient.ConfigFrom | src/lib/queryClient.ts:3-5 | The two base URLs come from their variables or the defaults `https://ollama.com` and `http://localhost:3000`, and are never empty |
| QueryClient.RequestUrl | src/lib/queryClient.ts:19-26 | A path under `/api/ollama` is fetched from the model server, with that prefix removed; any other path goes unchanged to the API base |
| QueryClient.RequestUrlExamples | src/lib/queryClient.ts:19-26 | `/api/ollama/api/generate` becomes the model server's `/api/generate`; `/api/chats` goes to the API base |
| QueryClient.PrefixNotSegmentBounded | src/lib/queryClient.ts:19-21 | The prefix test is on characters, so `/api/ollamafoo` goes to the model server as `foo` |
| QueryClient.ApiRequestAsWritten | src/lib/queryClient.ts:26-30 | As written: the caller's verb and URL; a JSON content type and a body are sent iff the data is truthy in JavaScript (present and not `''`, `0` or `false`); a plain object's body is its JSON, and a form becomes the empty JSON object |
| QueryClient.FormDataLost | src/lib/queryClient.ts:28-29 | As written, two forms with different prompts produce identical requests |
| QueryClient.FalsyDataDropped | src/lib/queryClient.ts:28-29 | As written, the falsy payloads `''`, `0` and `false` produce the same request as no data: no content type and no body |
| QueryClient.ApiRequest | src/lib/queryClient.ts:26-30 | Corrected, keeping the truthiness test: a truthy plain object goes as JSON with a JSON content type; a form goes as a multipart body with its entries and no explicit content type; falsy or absent data gives no body |
| QueryClient.ApiRequestKeepsPayload | src/lib/queryClient.ts:26-30 | The corrected request is injective in the payloads it sends: two truthy payloads that give the same request are equal |
| QueryClient.AsWrittenAgreesOnJson | src/lib/queryClient.ts:28-29 | The written and corrected requests agree iff there is no data or the data is a plain object |
| QueryClient.ApiResponse | src/lib/queryClient.ts:32-37 | An ok response (status 200-299) is returned unchanged; any other fails with `API request failed: <status>` |
| QueryClient.ApiFailureStatus | src/lib/queryClient.ts:34 | The status can be parsed back out of that error |
| QueryClient.ThrowIfResNotOk | src/lib/queryClient.ts:7-12 | No error iff the response is ok; otherwise the status, `: `, and the body, or the status text when the body is empty |
| QueryClient.NotOkMessageParts | src/lib/queryClient.ts:9-10 | That message splits back into the status digits, `: ` and the reported text |
| QueryClient.QueryOutcome | src/lib/queryClient.ts:45-55 | `null` iff the behaviour is `returnNull` and the status is 401. Otherwise a non-ok response fails with the `throwIfResNotOk` message and an ok one yields its body |
| QueryClient.DefaultQueryNeverNull | src/lib/queryClient.ts:61 | With the default `throw` behaviour no query yields `null`, and a 401 fails like any other status |
| MessageInput.CommandMatch | src/components/chat/message-input.tsx:84 | `^\/\w+` matches a slash and the longest run of word characters after it, and matches nothing iff the value does not start with a slash followed by a word character |
| MessageInput.RecognisedCommandSpec | src/components/chat/message-input.tsx:83-87 | A value selects a command iff it starts with one of the three labels and the label is not followed by a further word character |
| MessageInput.RecognisedCommandExamples | src/components/chat/message-input.tsx:83-87 | `/code hola` selects `/code`; `/codex` selects nothing |
| MessageInput.SubmitButtonMatchesGuard | src/components/chat/message-input.tsx:188-191 | An enabled composer's send button is enabled iff a submit would send; a disabled composer's button is always disabled |
| MessageInput.CommandShape | src/components/chat/message-input.tsx:16-24 | Every label starts with `/` and ends in a non-space character |
| MessageInput.ComposedWithCommand | src/components/chat/message-input.tsx:40-44 | With a command active, the sent text starts with the command. It is the command alone for a blank draft. Otherwise it is the command, a space and the draft without trailing whitespace |
| MessageInput.Composer.constructor | src/components/chat/message-input.tsx:27-29 | Empty draft, no command, list closed, no files |
| MessageInput.Composer.HandleChange | src/components/chat/message-input.tsx:80-99 | A value that selects a command makes it active, and the trimmed rest becomes the draft. Any other value becomes the draft verbatim and leaves the command as it was. A lone `/` also opens the list |
| MessageInput.Composer.HandleSubmit | src/components/chat/message-input.tsx:33-53 | Sends iff the trimmed draft is non-empty or files are attached. The composed text and the files are sent, then the draft, command and files are cleared. Otherwise nothing changes |
| MessageInput.Composer.HandleKeyDown | src/components/chat/message-input.tsx:55-71 | Enter without Shift submits as above. `/` on an empty draft opens the list and leaves the draft. Backspace at cursor 0 with a command active clears the draft and the command. Nothing else changes |
| MessageInput.Composer.HandleCommandClick | src/components/chat/message-input.tsx:73-78 | The picked label becomes active, the draft is cleared and the list closes |
| MessageInput.Composer.HandleFileChange | src/components/chat/message-input.tsx:101-105 | Choosing files submits at once iff the draft is not blank and files were chosen; otherwise the files are kept attached |
| MessageInput.Composer.ClearCommand | src/components/chat/message-input.tsx:125-128 | The chip's close button clears the command and the draft only |
| MessageInput.Composer.SetShowCommands | src/components/chat/message-input.tsx:161 | The list opening or closing changes only its flag |
| MessageInput.SubmitTypedCommand | src/components/chat/message-input.tsx:40-46 | Typing `/code hola` into a fresh composer and submitting sends `/code hola` |
| MessageInput.TypedCommandText | src/components/chat/message-input.tsx:89 | The draft left by `/code hola` is `hola`, and the composed text is `/code hola` again |
| MessageInput.SubmitUnknownCommand | src/components/chat/message-input.tsx:92-98 | Typing `/codex` and submitting sends `/codex` with no command |
| MessageInput.UnknownCommandText | src/components/chat/message-input.tsx:92-98 | `/codex` selects no command and is its own composed text |
| MessageInput.SubmitBlank | src/components/chat/message-input.tsx:35-39 | Typing only whitespace and submitting sends nothing |
| ChatPage.EndpointOfLabel | src/pages/chat.tsx:25-32 | A prompt starting with a label goes to that label's endpoint, whatever the order of the tests |
| ChatPage.EndpointOfCommand | src/pages/chat.tsx:25-32 | A prompt composed with an active command goes to that command's endpoint |
| ChatPage.EndpointDefault | src/pages/chat.tsx:25 | A prompt not starting with `/` goes to `/api/chat` |
| ChatPage.CodexSelectsCode | src/pages/chat.tsx:26 | The prefix test is not word-bounded: `/codex…` selects the code endpoint |
| ChatPage.FormEntries | src/pages/chat.tsx:16-23 | The form has the prompt first, then `file0`, `file1`, … holding the files in order |
| ChatPage.FormNamesDistinct | src/pages/chat.tsx:17-21 | No two form entries share a name |
| ChatPage.BuildFormData | src/pages/chat.tsx:16-23 | The entry-by-entry loop builds exactly that form |
| ChatPage.MutationRequest | src/pages/chat.tsx:15-40 | As written: the request goes to the prompt's endpoint with a JSON content type; with a file list its body is `{}`, without one it is `{ prompt }` |
| ChatPage.MutationCarriesPrompt | src/pages/chat.tsx:34-38 | The intended request, the same payload through the corrected helper, carries the prompt first and every file after it, in order, as a form; without a file list it is `{ prompt }` as JSON |
| ChatPage.AsWrittenPromptLost | src/pages/chat.tsx:34-38 | As written, every prompt sent with a file list reaches the server as `{}` |
| ChatPage.WithUserMessage | src/pages/chat.tsx:61-70 | Sending appends one user message with id length + 1; earlier messages are unchanged |
| ChatPage.WithReply | src/pages/chat.tsx:41-50 | A reply appends one assistant message with the response and id length + 2; earlier messages are unchanged |
| ChatPage.TranscriptIdsCollide | src/pages/chat.tsx:41-70 | Length-derived ids collide: message, reply, message give ids 1, 3, 3 |
| ChatPage.Page.constructor | src/pages/chat.tsx:11 | An empty transcript, nothing pending |
| ChatPage.Page.HandleSend | src/pages/chat.tsx:61-72 | Appends the user's message and issues the prompt's request as `apiRequest` builds it |
| ChatPage.Page.OnSuccess | src/pages/chat.tsx:41-51 | Appends the reply as the assistant's message |
| ChatPage.Page.OnError | src/pages/chat.tsx:52-58 | Shows the error toast and keeps the transcript |
| Home.ChatTitleSpec | src/pages/home.tsx:72-73 | The title has at most 33 characters. It is the message itself when the message has at most 30, and otherwise the first 30 characters followed by `...` |
| Home.LongMessageOwnTitle | src/pages/home.tsx:72-73 | The converse fails: a 33-character message ending in `...` is its own title |
| Home.StoredTitle | src/pages/home.tsx:71-74 | The server keeps the derived title of a non-empty message as it is |
| Home.MessagesPathId | src/pages/home.tsx:86 | The chat id read back from a messages path is the id it was built from |
| Home.CreateChatSent | src/pages/home.tsx:71-74 | The chat is created on the API server with the derived title, as JSON |
| Home.SaveSent | src/pages/home.tsx:84-97 | Both saves go, as JSON, to the chat's messages path on the API server, with the role and the content |
| Home.GenerateSent | src/pages/home.tsx:105-113 | The model call goes to the model server's `/api/generate` with the original message as prompt and `stream: false` |
| Home.Reached | src/pages/home.tsx:69-136 | A run sends one to four requests, fewer than four only after a failure |
| Home.Page.constructor | src/pages/home.tsx:55-58 | Not loading, no label, empty input, no requests |
| Home.Page.Step | src/pages/home.tsx:70-71 | Shows a step's label and sends its request |
| Home.Page.Abort | src/pages/home.tsx:137-149 | Shows the error and resets `isLoading` and the label; earlier requests stay done |
| Home.Page.HandleSendMessage | src/pages/home.tsx:64-74 | A blank message changes nothing, the kept draft included; otherwise loading starts and the chat creation is sent |
| Home.Page.OnChatCreated | src/pages/home.tsx:80-97 | On success the user's message is saved to the new chat; on failure the run aborts with the error |
| Home.Page.OnUserMessageSaved | src/pages/home.tsx:103-113 | On success the model is asked; on failure the run aborts |
| Home.Page.OnModelReplied | src/pages/home.tsx:119-132 | On success the model's response is saved as the assistant's message; on failure the run aborts |
| Home.Page.OnReplySaved | src/pages/home.tsx:134-136 | On success the page navigates to `/chat/<id>`; on failure the run aborts |
| Home.Page.Cancel | src/pages/home.tsx:211-214 | Resets only `isLoading` and the label; the run's phase is untouched |
| Home.Page.HandleRecommendationClick | src/pages/home.tsx:60-62 | The example becomes the input value |
| Home.Run | src/pages/home.tsx:64-150 | A blank message sends nothing. Otherwise the requests are the steps' calls in order, up to the first failure, with one label per request in order. The page navigates iff every step succeeded; otherwise the first error is shown and loading is reset |
| Home.FailureStopsLaterSteps | src/pages/home.tsx:137-149 | A failed first step leaves only the chat creation sent; a failure in the first two steps means the model is never called |
| Sidebar.RenameEvent | src/components/layout/sidebar.tsx:56-58 | Rename fires iff a chat is selected and the name is not blank, with the chat's id and the untrimmed name |
| Sidebar.DeleteEvent | src/components/layout/sidebar.tsx:65-67 | Delete fires iff a chat is selected, with its id |
| Sidebar.RenameExamples | src/components/layout/sidebar.tsx:56-58 | A name of spaces is refused; a name with surrounding spaces is passed on with them |
| Sidebar.Panel.constructor | src/components/layout/sidebar.tsx:49-54 | Expanded, nothing selected, dialogs closed |
| Sidebar.Panel.HandleRename | src/components/layout/sidebar.tsx:56-63 | When rename fires, the dialog closes and the selection and draft are cleared. Otherwise nothing changes |
| Sidebar.Panel.HandleDelete | src/components/layout/sidebar.tsx:65-71 | When delete fires, the dialog closes and the selection is cleared. Otherwise nothing changes |
| Sidebar.Panel.OpenRenameDialog | src/components/layout/sidebar.tsx:73-77 | Selects the chat, preloads its title and opens the dialog |
| Sidebar.Panel.OpenDeleteDialog | src/components/layout/sidebar.tsx:79-82 | Selects the chat and opens the dialog |
| Sidebar.Panel.SetNewChatName | src/components/layout/sidebar.tsx:194 | Typing changes only the draft name |
| Sidebar.Panel.SetRenameDialogOpen | src/components/layout/sidebar.tsx:180-209 | Cancel or closing changes only the open flag; selection and draft are kept |
| Sidebar.Panel.SetDeleteDialogOpen | src/components/layout/sidebar.tsx:211-230 | Cancel or closing changes only the open flag; the selection is kept |
| Sidebar.Panel.ToggleCollapse | src/components/layout/sidebar.tsx:95 | Flips the collapsed flag and nothing else |
| Sidebar.CollapseTwice | src/components/layout/sidebar.tsx:95 | Toggling twice restores the panel |
| Sidebar.RenameUnchangedTitle | src/components/layout/sidebar.tsx:56-77 | Opening the rename dialog and saving at once renames to the current title iff that title is not blank |
| MessageView.AuthorLabelSpec | src/components/chat/message.tsx:25-43 | The label is `Tú` iff the role is `user`, and `Asistente` otherwise; a stored message is labelled by its own role |
| MessageView.LanguageMatchFrom | src/components/chat/message.tsx:55-57 | The unanchored search finds the leftmost `language-` followed by a word character, or reports that there is none |
| MessageView.CodeLanguageSpec | src/components/chat/message.tsx:55-57 | A found language is a non-empty, maximal run of word characters right after a `language-` in the class. None is found iff no `language-` is followed by a word character |
| MessageView.MatchedLanguage | src/components/chat/message.tsx:55-61 | The captured run follows the prefix and cannot be extended |
| MessageView.CodeLanguageExample | src/components/chat/message.tsx:55-57 | `hljs language-python` gives `python`, and no class gives nothing |
| MessageView.StripTrailingNewlineSpec | src/components/chat/message.tsx:65-68 | One trailing newline is removed if present, otherwise the text is kept; stripping undoes appending a newline, and a second newline survives |
| MessageView.RenderCode | src/components/chat/message.tsx:58-77 | Highlighted iff not inline and a language is found. A highlighted block is shown in that language without its trailing newline; anything else is plain code, as it is |
| Text.TrimSpec | src/components/chat/message-input.tsx:36 | `trim` removes exactly the leading and trailing whitespace: the result is a slice, starts and ends with non-whitespace, and is empty iff the input is blank |
| Text.IndexFrom | src/lib/queryClient.ts:21 | The leftmost occurrence of a pattern at or after a position, or none |
| Text.ReplaceAtStart | src/lib/queryClient.ts:21 | Replacing a prefix by nothing drops exactly that prefix |
| Text.ReplaceFirstPlaces | src/lib/queryClient.ts:21 | `replace` leaves a string without the pattern unchanged and otherwise replaces only the leftmost occurrence |
| Text.TrimEndAppend | src/components/chat/message-input.tsx:41-44 | Trailing whitespace is dropped from the second part only, unless that part is all whitespace |
| Text.TrimJoin | src/components/chat/message-input.tsx:41-44 | Trimming `a + " " + b` gives `a` for a blank `b`, and otherwise `a`, a space and `b` without trailing whitespace |
| Text.WordRun | src/components/chat/message-input.tsx:84 | The longest word-character prefix, as a greedy `\w+` takes it |
| Text.WordRunUnique | src/components/chat/message-input.tsx:84 | A word-character prefix that a non-word character follows is the greedy match |
| Text.NatToString | src/pages/home.tsx:86 | The rendering of a number is non-empty and all digits |
| Text.ParseNatToString | server/routes/chat.ts:35 | Parsing a rendered number gives the number back |
| Text.NatToStringInjective | src/pages/chat.tsx:21 | Different numbers render differently |

## Left out

- I/O is outside the model: the database driver and connection, the Express
  wiring, `fetch`, logging, toasts, navigation and rendering. Responses are
  parameters; a request is a value.
- The 500 path of the messages listing (server/routes/chat.ts:57-60) is a
  database failure, which the in-memory store cannot have. The second,
  identical messages handler (server/routes/chat.ts:64-72) is shadowed by the
  first and is modelled once.
- Rename and delete exist only as sidebar callbacks: the server has no such
  routes, so nothing is renamed or deleted in the store.
- The save route does not check that the chat exists, and neither does the
  model. The ids the routes parse from the path are integers already parsed.
- Ids: the routes treat ids as integers, while the schema declares object ids;
  the model uses integers throughout. The home page reads the new chat's id
  as `chat._id`, which the model takes as the id the server returned
  (`Replies.chatId`).
- The clock: `Date.now` becomes a counter that advances on every insert, so
  no two rows share a timestamp. Equal timestamps, and the order the
  database gives them, are not modelled.
- The home page's save bodies also carry `chatId` and `timestamp`, which the
  route ignores. `Home.SaveCall` sends `chatId` and leaves out the
  client-side timestamp, which is a clock reading.
- The `!res.ok` checks after each `apiRequest` on the home page
  (src/pages/home.tsx:76-78, 99-101, 115-117) can never fire, since
  `apiRequest` already fails on a non-ok response. The error shown is
  therefore always `API request failed: <status>`, and `Home.FirstError` says so.
- `res.json()` failing on a malformed body is not modelled; the parsed fields
  (the chat id, the model's `response`) are given with each response.
- `Home.Page.Cancel`: Cancel resets the indicator only. A run in progress
  goes on; interleaving Cancel with the awaits is not modelled.
- The home page passes `value` and `onChange` to the composer, which ignores
  them. A recommendation click therefore sets only the page's `inputValue`,
  which `Home.Page.HandleRecommendationClick` models; it never reaches the
  draft.
- `trim` removes a fixed set of whitespace characters, not every Unicode
  space separator, and `\w` is ASCII letters, digits and `_`.
- Home.ChatTitleSpec: states "the first 30 characters plus `...` when
  longer" in one direction only. The converse is false (`Home.LongMessageOwnTitle`).
- Home.ChatTitleSpec: lengths count Unicode scalar values, not the UTF-16
  code units that `length` and `slice` count. A character outside the Basic
  Multilingual Plane counts once here and twice in the page, so the page may
  cut such a message shorter, or through the middle of that character.
- QueryClient.ApiRequestKeepsPayload: stated for truthy payloads only. A
  falsy payload sends no body, exactly like no data, in the corrected helper
  too, since it keeps the truthiness test (`QueryClient.FalsyDataDropped`).
- ChatRoutes.ChatStore.SaveMessages: its contract gives the new message
  sequence. That a later listing ends with the batch is stated separately,
  by `ChatRoutes.ListAfterSave` about that sequence.
- MessageView: the role is compared as the raw string the message carries;
  the author icon and the card colours follow the same test and are not
  modelled separately.
- The visual parts of the message view (markdown rendering, the other
  components) are rendering only.

## Findings

| source | as written | input that shows it | evidently intended | confidence | as-written member | corrected member |
|---|---|---|---|---|---|---|
| src/lib/queryClient.ts:28-29 with src/pages/chat.tsx:34-38 | `apiRequest` sends any data as `JSON.stringify(data)` with a JSON content type, and `JSON.stringify` of a `FormData` is `{}`. The chat page sends a `FormData` whenever the composer passes a file list, which it always does | any prompt sent from the chat page, e.g. `hola` with no files: the server receives `{}` | a form goes as a multipart body carrying the prompt and the files | not executed | QueryClient.ApiRequestAsWritten, QueryClient.FormDataLost, ChatPage.AsWrittenPromptLost | QueryClient.ApiRequest, QueryClient.ApiRequestKeepsPayload, ChatPage.MutationCarriesPrompt |
