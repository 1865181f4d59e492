# Chat companion: store, chat turn and client state in Dafny

This project models the logic core of a small chat application. The application is a React client talking to an
Express server that keeps conversations in memory and asks a chat-completion service for replies. The model covers:

- **`MemStorage`** (`Storage.MemStorage`): two maps kept in step. One maps a conversation id to its record, the
  other maps the id to the ordered message list. There is also a user table numbered by a counter. The class
  invariant `Valid` says:
  - both maps have the same keys;
  - each record carries its own key;
  - message `i` of a conversation has id `i + 1` and names that conversation;
  - `insertionOrder` lists every key exactly once.

  `insertionOrder` models the iteration order of a JavaScript `Map`: a key set again keeps its place, and a
  deleted key leaves. `getConversations` is a stable newest-first sort over that order.
- **`ChatService.generateResponse`** (`ChatService`): the completion request is built by a loop, proved equal to the
  function `Prompt`. The title, summary and insights rules are functions of the message count and the current
  fields. The reply, title, summary and insights generators are opaque functions passed in as `Oracles`. The method
  also returns the list of collaborator calls it made, so "a title is asked for only when …" can be stated.
- **The HTTP handlers** (`Routes`), as methods over the store:
  - `GET /api/conversations`, `GET /api/conversations/:id` and `POST /api/conversations`.
  - The `/api/chat` turn: validate, get or create the conversation, store the user's message, build the request,
    store the reply. Its outcome is a `Completion` parameter.
  - Two quirks of the source are stated and proved:
    - The user's text is sent twice at the end of the request.
    - An unknown conversation id opens a conversation under a *fresh* id. `RepeatedClientId` shows that two turns
      under a client-chosen id therefore land in two different conversations, and the second request carries
      nothing of the first.
- **The client chat state** (`ChatContext`):
  - The pure updaters handed to `setConversations`: prepend, append a message to the matching id, and merge the
    reply fields with `||`.
  - The active-conversation lookup.
  - The class `ChatProvider`, whose methods are `startNewConversation`, `loadConversations` and the two halves of
    `sendMessage` around its request. `BeginSend` raises the typing flag and `FinishSend` lowers it.
- **Message rendering** (`ChatMessageView`): assistant text is split into paragraphs on blank lines, and a paragraph
  holding `"\n- "` becomes an optional title plus list items. JavaScript's `split` and `includes` are modelled
  exactly, with round-trip lemmas back to the content.

JavaScript truthiness of a possibly missing string is `Option<string>` with `Truthy` (present and non-empty). Clock
readings are an integer `now` parameter, with one reading per request. Generated ids (`nanoid`) are parameters.

## Model

| member | source | states |
|---|---|---|
| Shared.RoleOf | server/services/chat-service.ts:68 | a message from the user goes out under the user role, anything else under the assistant role, never the system role |
| Storage.ChosenId | server/storage.ts:111 | the supplied id is used when truthy, otherwise the fresh one |
| Storage.Patched | server/storage.ts:137-141 | only supplied title/summary/insights change, `updatedAt` becomes now, `id` and `createdAt` are kept; an empty update only refreshes `updatedAt` |
| Storage.SortNewestFirst | server/storage.ts:96 | the listing is ordered by `createdAt` descending and is a permutation of its input |
| Storage.InsertKeepsOrder | server/storage.ts:96 | inserting into a newest-first list keeps it newest-first and adds exactly that element |
| Storage.SortIsStable | server/storage.ts:96 | conversations created at the same time keep their map order (the sort is stable) |
| Storage.ListedFacts | server/storage.ts:91-95 | mapping distinct ids to their records with messages attached gives distinct conversations, position by position |
| Storage.ReorderedListingFacts | server/storage.ts:89-97 | any reordering of the listing (the sorted one in particular) holds each stored id's current conversation, every id, and no id twice |
| Storage.PutKeepsAgreement | server/storage.ts:121-122 | storing a record with an empty list keeps the two maps and the iteration order in step, a new key joining the order last |
| Storage.AppendKeepsAgreement | server/storage.ts:164-181 | refreshing a record and appending a message numbered length + 1 keeps the tables in step and the numbering sequential |
| Storage.PatchKeepsAgreement | server/storage.ts:143 | replacing a stored record by one with the same id keeps the tables in step |
| Storage.RemoveKeepsAgreement | server/storage.ts:152-153 | deleting a key from both maps and from the iteration order keeps them in step |
| Storage.RemoveAbsent | server/storage.ts:152-153 | deleting a key that is not stored changes neither map nor the iteration order |
| Storage.PutKeepsStamps | server/storage.ts:117-118 | a record created no later than it is touched, and touched no later than now, keeps every record's timestamps ordered |
| Storage.WithoutDistinct | server/storage.ts:152 | deleting a key from the iteration order keeps it duplicate-free and removes exactly that key |
| Storage.WithoutAbsent | server/storage.ts:152 | deleting an absent key leaves the iteration order as it was |
| Storage.MemStorage.constructor | server/storage.ts:63-68 | empty maps, counter at 1, invariant established |
| Storage.MemStorage.CreateUser | server/storage.ts:81-86 | the new user gets the current counter value as its id, the counter advances by one, conversations untouched |
| Storage.MemStorage.GetConversation | server/storage.ts:99-108 | nothing exactly when the id is absent; otherwise the stored record with that id's message list |
| Storage.MemStorage.GetConversations | server/storage.ts:89-97 | every stored conversation exactly once, each equal to what `getConversation` returns, sorted by `createdAt` descending |
| Storage.MemStorage.CreateConversation | server/storage.ts:110-128 | stores a record with `createdAt == updatedAt == now` and an empty list under the chosen id, overwriting an existing one; a new id joins the iteration order last; the invariant and timestamp order are kept |
| Storage.MemStorage.UpdateConversation | server/storage.ts:130-149 | unknown id fails with the state unchanged; otherwise only that record is patched, messages are kept and the result carries them |
| Storage.MemStorage.DeleteConversation | server/storage.ts:151-154 | the id leaves both maps and the iteration order; deleting an absent id changes nothing |
| Storage.MemStorage.AddMessage | server/storage.ts:157-184 | unknown id fails with the state unchanged; otherwise the message, numbered previous length + 1, is appended to that list only, and only that record's `updatedAt` changes |
| ChatService.Prompt | server/services/chat-service.ts:61-71 | the request has one entry more than the history, starts with the system message, and maps each message in order to its role with its content unchanged |
| ChatService.BuildPrompt | server/services/chat-service.ts:61-71 | the loop builds exactly `Prompt(history)` |
| ChatService.PromptAppend | server/services/chat-service.ts:66-70 | one more message in the history adds exactly its own entry, under its role, at the end of the request |
| ChatService.NextTitle | server/services/chat-service.ts:81-83 | with two or more messages and an empty or default title the generated title is used, or "New conversation" when it is falsy; a meaningful title and short conversations are left alone |
| ChatService.NextSummary | server/services/chat-service.ts:85-87 | with two or more messages and an empty summary the generated summary is used, or "" when falsy; otherwise unchanged |
| ChatService.NextInsights | server/services/chat-service.ts:89-92 | no insights below four messages; from four on, the generator's result |
| ChatService.ShortConversationAsksOnlyForReply | server/services/chat-service.ts:81-92 | below two messages only the reply is requested |
| ChatService.SecondMessageAsksForTitleAndSummary | server/services/chat-service.ts:81-87 | a fresh conversation with two or three messages requests reply, title and summary, in that order, and no insights |
| ChatService.FourthMessageAsksForInsights | server/services/chat-service.ts:90-92 | from four messages on, insights are requested, as the last call |
| ChatService.GenerateResponse | server/services/chat-service.ts:59-100 | a throwing reply call fails after that one call; otherwise the reply is the completion's content and title, summary and insights follow the rules above, with exactly the calls they need |
| Routes.AsPrompts | server/routes.ts:73-76 | one entry per stored message, in order, with its content and role |
| Routes.ChatPrompt | server/routes.ts:73-78 | the stored history under its roles followed by the user's text once more as a user entry |
| Routes.UserTextSentTwice | server/routes.ts:67-78 | after the user's message is stored, the last two request entries both carry the user's text |
| Routes.ReplyText | server/routes.ts:85 | a missing or empty completion gives the fixed fallback reply; the reply is never empty |
| Routes.ListConversations | server/routes.ts:14-22 | answers exactly 200 with the store's `getConversations` listing: every stored conversation once, with its record and messages, newest first |
| Routes.GetConversation | server/routes.ts:25-36 | 404 with "Conversation not found" exactly when the id is absent, otherwise 200 with the conversation and its messages |
| Routes.CreateConversation | server/routes.ts:39-50 | 201; a falsy title becomes "New conversation" and a falsy summary ""; stored under a fresh id with no messages, the id joins the listing order when new, and the user table and counter stay |
| Routes.Chat | server/routes.ts:53-99 | a falsy id or message gives 400 and leaves the store unchanged; an unknown id opens a "New conversation" under the fresh id, which joins the listing order; the user message is stored before the completion; a throw gives 500 with the apology and keeps the user message; success stores the reply after it and answers 200 with it; the user table and counter stay |
| Routes.OpenConversation | server/routes.ts:61-64 | a known id is kept as it is with the listing order unchanged; an unknown one creates a default conversation under the fresh id, appended to the listing order; the user table and counter stay |
| Routes.StoreUserMessage | server/routes.ts:67-78 | the user message is appended and the request is built from the stored list plus the text; listing order, user table and counter stay |
| Routes.StoreReply | server/routes.ts:88 | the reply is appended as the next assistant message and only that conversation's `updatedAt` changes; listing order, user table and counter stay |
| Routes.Converse | server/routes.ts:66-91 | on a stored conversation: user message, then the reply message or a 500 with only the user message kept; listing order, user table and counter stay |
| Routes.Answer | server/routes.ts:80-97 | a throwing completion gives the 500 apology and changes nothing more; otherwise the reply (or the fallback) is stored as the next assistant message and answered with 200 |
| Routes.RepeatedClientId | server/routes.ts:61-64 | two turns under an id the server does not know, with two distinct fresh ids and any completions that return, store two conversations of two messages each; the second request holds only the new text, twice, and the client's id is never stored |
| Routes.UnknownIdTurn | server/routes.ts:61-91 | one turn under an unknown id, with any completion that returns, stores a two-message conversation under the fresh id, leaves every other conversation's messages as they were and never stores the client's id |
| ChatContext.UpdateWhere | client/src/context/chat-context.tsx:147-153 | same length; each conversation with the id is transformed, every other one is kept |
| ChatContext.WithUserMessage | client/src/context/chat-context.tsx:201-207 | the message is appended to the end of each conversation with that id; ids, order and all other conversations are unchanged |
| ChatContext.Merged | client/src/context/chat-context.tsx:177-183 | the assistant's message is appended; title, summary and insights take the answer's value when truthy and keep the old one otherwise |
| ChatContext.WithReply | client/src/context/chat-context.tsx:228-240 | the matching conversations get the merge, all others are unchanged |
| ChatContext.ReplyOnlyAnswerKeepsFields | client/src/context/chat-context.tsx:180-182 | an answer with only `reply`, as the server sends, changes nothing but the message list |
| ChatContext.FindById | client/src/context/chat-context.tsx:80 | the first conversation with the id, or nothing exactly when none has it |
| ChatContext.ActiveOf | client/src/context/chat-context.tsx:79-81 | nothing when no id is active, otherwise the first match |
| ChatContext.FirstMessageStartsConversation | client/src/context/chat-context.tsx:136-153 | with nothing active, the new conversation is on top holding just the user's message and the rest of the list follows |
| ChatContext.ChatProvider.constructor | client/src/context/chat-context.tsx:72-76 | empty list, nothing active, all flags false |
| ChatContext.ChatProvider.SetActiveConversationId | client/src/context/chat-context.tsx:73 | the id becomes active, nothing else changes |
| ChatContext.ChatProvider.StartNewConversation | client/src/context/chat-context.tsx:107-121 | one default conversation is prepended, the rest kept; it becomes active (and is the active conversation for a non-empty id); the mobile sidebar closes |
| ChatContext.ChatProvider.LoadConversations | client/src/context/chat-context.tsx:84-104 | an array replaces the list and activates its first entry only if the list is non-empty and nothing is active; any other body changes nothing; a failure starts a new conversation only when the list is empty |
| ChatContext.ChatProvider.BeginSend | client/src/context/chat-context.tsx:124-156 | with an active id the user message goes to that conversation; otherwise a new one is prepended, made active and receives it; the typing flag is raised |
| ChatContext.ChatProvider.FinishSend | client/src/context/chat-context.tsx:158-191 | an answer is merged into the target conversation, a failure changes no conversation; either way the typing flag is lowered |
| ChatMessageView.Includes | client/src/components/chat/chat-message.tsx:23 | true exactly when the separator occurs at some position |
| ChatMessageView.Split | client/src/components/chat/chat-message.tsx:21 | at least one piece, and the first piece is a prefix of the text; together with `FirstPieceEndsAtFirstOccurrence` and `RestSplitsRest` this fixes the cuts at the leftmost occurrences, left to right without overlap |
| ChatMessageView.FirstPieceEndsAtFirstOccurrence | client/src/components/chat/chat-message.tsx:21 | no occurrence of the separator starts inside the first piece, and when there is more than one piece an occurrence starts right after it: the first cut is at the leftmost occurrence |
| ChatMessageView.RestSplitsRest | client/src/components/chat/chat-message.tsx:21 | when there is more than one piece, the remaining pieces are exactly the split of the text after the first piece and its separator |
| ChatMessageView.JoinSplit | client/src/components/chat/chat-message.tsx:21 | joining the pieces with the separator gives back the text |
| ChatMessageView.PiecesLackSeparator | client/src/components/chat/chat-message.tsx:24 | no piece contains the separator |
| ChatMessageView.SplitsIffIncludes | client/src/components/chat/chat-message.tsx:23-24 | the text splits into more than one piece exactly when it contains the separator |
| ChatMessageView.RenderParagraph | client/src/components/chat/chat-message.tsx:23-41 | a paragraph without the dash line is one block holding it whole; a bullet block has at least one item |
| ChatMessageView.BulletParagraphFacts | client/src/components/chat/chat-message.tsx:24-32 | the title is the text before the first dash line and is absent exactly when that text is empty; the items are the remaining pieces, none holding a dash line; title and items joined back give the paragraph |
| ChatMessageView.RenderParagraphRoundTrip | client/src/components/chat/chat-message.tsx:21-41 | every block reads back as its paragraph |
| ChatMessageView.RenderBlocks | client/src/components/chat/chat-message.tsx:21-42 | one block per paragraph, in order |
| ChatMessageView.Render | client/src/components/chat/chat-message.tsx:10-51 | a user message is one unsplit bubble; only assistant messages are split |
| ChatMessageView.RenderRoundTrip | client/src/components/chat/chat-message.tsx:12-42 | an assistant bubble has one block per blank-line paragraph, none spanning a blank line, and reads back as the content; more than one block exactly when the content has a blank line |

## Left out

- `getUser` and `getUserByUsername` (server/storage.ts:71-79): lookups that nothing in the core calls; only the
  `createUser` counter is modelled.
- The 500 answers of the list, get and create handlers: the in-memory store never throws on those paths.
- Routes.Chat: the dead 404 branch after re-reading the conversation is modelled, and it is proved unreachable. A
  throwing store call is not modelled, because the store only throws on unknown ids and the handler never passes
  one. The completion either throws or returns a possibly missing content.
- Routes.Chat: one clock reading `now` stands for every `new Date()` of a turn, so the user message, the reply and
  `updatedAt` share a timestamp.
- The completion model name and any request options: not observable in the model.
- ChatService.GenerateResponse: the system prompt constant holds only the opening sentence of the persona text. Its
  position and role are what the model states.
- `ChatService` is not called by any route; the `/api/chat` handler makes its own request, as the source does.
- Message timestamps and ids on the client: ISO-8601 strings and `nanoid()` values are parameters, and string date
  parsing in the server's sort is replaced by comparing integers.
- Async interleaving: two requests in flight on one conversation, and React's batching of state updates. Each
  operation is atomic and sequential. `sendMessage` is split at its request into `BeginSend` and `FinishSend`.
  Between them the closure keeps the target id it captured.
- ChatContext.ChatProvider.FinishSend: a body without `reply` (an error answer that did not throw) is not modelled.
  The answer is either a parsed `ChatReply` or a failure.
- `setIsMobileSidebarOpen` and `setIsInsightPanelOpen`: plain setters with no logic. The model keeps both flags and
  states which operations change them.
- The untyped insights payload is carried as an opaque `Insights` value and never inspected.
- JSX markup and CSS classes of the message bubble: only the block structure (paragraphs, titles, items) is modelled.
