# A verified model of the ProspectIQ CRM chat client

ProspectIQ is a React single-page client for an AI sales assistant. The user chats with an agent
over a WebSocket. The agent streams its answer token by token and reports its internal actions as
bullets. It can also create CRM entities (leads, tasks, meetings, notes), which the page shows as
cards. Stored conversations are fetched back and turned into display messages. Leads can be
imported in bulk into sales pipelines. A voice button records audio and encodes it as a WAV file.

This project models that client's logic in Dafny and proves properties of the model. There is
one module per source file, plus two shared modules:

- `Common`: JavaScript's whitespace class, `trim`, ASCII lower-casing, substring search, and
  `||` on optional strings.
- `ChatModel` (`messages.dfy`): messages, conversations, stored transcript entries, socket
  events, and the duplicate-detection hashes of entity cards.
- `Transcript` (`transcript.dfy`): `transformConversationMessages` and
  `flushPendingIntoLastAssistant` from `src/pages/Index.tsx`.
  - They are kept as loops over sequences, each proved equal to a recursive specification
    (`Scan`, `Flush`).
  - Lemmas characterise that specification: which messages appear, with which ids and roles,
    and which bullets end up where.
- `ChatPage` (`chatpage.dfy`): the socket-event handler and the send, like and dislike handlers
  of `src/pages/Index.tsx`.
  - The pure `setMessages`/`setConversations` updaters are functions. The page's state is a
    class whose methods update its fields.
  - Lemmas cover streaming, deduplication of cards, conversation-id reconciliation and reaction
    toggling.
- `ChatSocket` (`socket.dfy`): the socket session of `src/hooks/useChatSocket.ts`.
  - The browser's socket is a serial number with a ready state.
  - Browser callbacks and timers are explicit steps whose outcomes ("writing threw",
    "constructing threw") are parameters.
- `Personalization` (`personalization.dfy`): the settings store of
  `src/context/PersonalizationContext.tsx`.
- `SuggestedPrompts` (`prompts.dfy`): the rotating prompt of `src/components/SuggestedPrompts.tsx`.
- `Sidebar` (`sidebar.dfy`): the conversation filter of `src/components/ChatSidebar.tsx`.
- `LeadImport` (`leadimport.dfy`): the bulk-import dialog of `src/components/leadImportModal.tsx`.
  - It covers phone normalisation, re-indexing after a removal, default pipeline selection,
    validation, and grouping by pipeline.
  - The grouping is proved to be a partition of the leads in first-appearance order.
  - It also covers the success and failure counts and the dialog state.
- `Markdown` (`markdown.dfy`): `stripMarkdown` of `src/lib/utils.ts`.
  - It models eleven global regular-expression replacements, each as a left-to-right scan with
    the regex's own matching rules, followed by `trim`.
- `Wav` and `VoiceRecorder` (`wav.dfy`): `audioBufferToWav` and the record button of
  `src/components/VoiceRecorder.tsx`.
  - The encoder writes into an `array` and is proved to produce exactly the specified byte
    layout.

`Date.now()` becomes a `stamp` parameter. Ids built from it carry the source's prefixes
(`assistant-`, `lead-`, `conv_`, ...). Server answers, parse results and browser outcomes are
parameters too.

## Model

| member | source | states |
|---|---|---|
| Common.Trim | src/pages/Index.tsx:188 | `trim()` returns the slice of the input that starts after its leading whitespace and has no whitespace at either end |
| Common.TrimDrops | src/pages/Index.tsx:188 | everything `trim()` removes, at the front and at the back, is whitespace |
| Common.ToLower | src/components/ChatSidebar.tsx:31 | lower-casing keeps the length and maps each character on its own |
| Common.ToLowerIdempotent | src/components/ChatSidebar.tsx:31 | lower-casing twice is lower-casing once |
| Common.Or | src/pages/Index.tsx:166-168 | the logical-or fallback of an optional string: a present non-empty value is the result, an absent or empty one gives the default; so the result is the default exactly when the value is absent, empty, or equal to it |
| ChatModel.Field | src/pages/Index.tsx:284-295 | reading a key of the event's data is defined exactly when the key is present, and then gives its value |
| ChatModel.CardHash | src/pages/Index.tsx:299-378 | each card kind has a hash exactly when the message holds a card of that kind; the hash is the bar-joined trimmed fields of that kind |
| ChatModel.JoinInjective | src/pages/Index.tsx:299-303 | joining two equally long lists of bar-free parts with a bar gives the same string exactly when the lists are equal |
| ChatModel.Join3Injective | src/pages/Index.tsx:299-303 | two three-part bar-free joins are equal exactly when their parts are equal |
| ChatModel.LeadHashInjective | src/pages/Index.tsx:299-303 | two leads with bar-free fields hash alike exactly when their trimmed name, email and mobile agree |
| ChatModel.TrimNoBar | src/pages/Index.tsx:300-302 | trimming a bar-free field leaves it bar-free |
| Transcript.Render | src/pages/Index.tsx:193-230 | a non-action entry becomes a message with the entry's id, not streaming; it is a user message exactly for type "user"; it carries buffered bullets exactly when it is an assistant entry and the buffer is non-empty; it carries a lead, task, meeting or note card exactly for an entry of that type that holds one, and then the entry's card with empty text; every other message has the entry's content, or "" when it has none; only an assistant entry passes on its `liked` and `feedback` |
| Transcript.LastAssistant | src/pages/Index.tsx:156-157 | the backward search finds an assistant message after which only user messages follow, and finds none exactly when every message is a user message |
| Transcript.LastAssistantIs | src/pages/Index.tsx:156-157 | an assistant message followed only by user messages is the one the backward search finds |
| Transcript.Merge | src/pages/Index.tsx:158-171 | merging appends the buffered bullets to the message's bullets, keeps a non-empty summary and done label or else uses "Actions" and "Done", keeps the body, and changes nothing but the activity panel |
| Transcript.Flush | src/pages/Index.tsx:154-183 | an empty buffer changes nothing; otherwise the last assistant message receives the bullets and nothing else changes; without one, a new empty assistant message carrying exactly the bullets is appended |
| Transcript.FlushLength | src/pages/Index.tsx:154-183 | flushing adds a message exactly when the buffer is non-empty and every message is a user message |
| Transcript.FlushPendingIntoLastAssistant | src/pages/Index.tsx:154-183 | the backward loop computes `Flush` |
| Transcript.TransformConversationMessages | src/pages/Index.tsx:185-234 | the loop followed by the flush computes `Transform`, the recursive scan followed by `Flush` |
| Transcript.NonActions | src/pages/Index.tsx:187-191 | the entries that are not actions, no more of them than there were entries |
| Transcript.Cut | src/pages/Index.tsx:201-203 | the position just after the last "assistant" entry: no "assistant" entry lies beyond it |
| Transcript.ScanPending | src/pages/Index.tsx:187-206 | the buffer the loop ends with holds exactly the non-empty trimmed action texts that follow the last "assistant" entry, in arrival order |
| Transcript.PendingExtends | src/pages/Index.tsx:187-191 | an entry that is not "assistant" extends the buffer by its action text, if it has one, and keeps the rest |
| Transcript.ScanCount | src/pages/Index.tsx:185-231 | the loop emits one message per non-action entry, in order, with the entry's id, as a user message exactly for type "user" |
| Transcript.ScanGrows | src/pages/Index.tsx:185-231 | the messages of a prefix of the transcript are a prefix of the messages of the whole transcript |
| Transcript.ScanLast | src/pages/Index.tsx:193-230 | a final non-action entry adds exactly its own rendering, with the buffer attached when it is an assistant entry |
| Transcript.ScanRendersEntry | src/pages/Index.tsx:193-230 | the message at position "number of earlier non-action entries" is entry j rendered with the buffer pending just before it (assistant entries only) |
| Transcript.TransformLength | src/pages/Index.tsx:185-234 | the transcript has one message per non-action entry, plus one synthetic message exactly when bullets remain and every message is a user message |
| ChatPage.Shell | src/pages/Index.tsx:247 | the streaming shell is an empty assistant message, marked streaming, with no bullets |
| ChatPage.UpdateWhere | src/pages/Index.tsx:253 | `prev.map(m => m.id === id ? f(m) : m)`: same length, matching messages updated, others kept |
| ChatPage.AppendToken | src/pages/Index.tsx:250-253 | a token is appended to the content of the messages with the streaming id, and nothing else changes |
| ChatPage.TokensConcatenate | src/pages/Index.tsx:250-253 | two tokens in a row append their concatenation |
| ChatPage.StreamedContent | src/pages/Index.tsx:250-253 | any run of tokens appends the concatenation of the run |
| ChatPage.AppendBullet | src/pages/Index.tsx:265-281 | an agent action appends its text as a bullet of the streaming message, and the other messages are kept |
| ChatPage.AgentActionKeeps | src/pages/Index.tsx:270-278 | an appended bullet keeps earlier bullets, the panel's summary, done label and body, and the rest of the message |
| ChatPage.Window | src/pages/Index.tsx:305 | `slice(-10)` is the last min(10, n) messages |
| ChatPage.AddCard | src/pages/Index.tsx:304-307 | a card is appended unless a card of the same kind with the same hash is among the last ten messages, in which case nothing changes |
| ChatPage.AddCardIdempotent | src/pages/Index.tsx:304-307 | delivering the same card twice adds it at most once |
| ChatPage.OldDuplicateIgnored | src/pages/Index.tsx:305 | when no card of the kind is among the last ten messages, the card is appended even if an older duplicate exists |
| ChatPage.KindOf | src/pages/Index.tsx:283-361 | the content types "lead", "task", "meeting" and "note" select exactly the four card kinds |
| ChatPage.LeadCandidate | src/pages/Index.tsx:285-297 | the lead card has id `lead-<stamp>`, name defaulting to "Lead", status defaulting to "New", and email, mobile and reference copied |
| ChatPage.TaskCandidate | src/pages/Index.tsx:311-324 | a task card has id `task-<stamp>`, name "Task", priority "MEDIUM" and status "NEW" by default, and description, due date and lead id copied |
| ChatPage.MeetingCandidate | src/pages/Index.tsx:337-350 | the meeting card has id `meeting-<stamp>`, title "Meeting", status "SCHEDULED" and type "VIRTUAL" by default, and description, lead id and link copied |
| ChatPage.NoteCandidate | src/pages/Index.tsx:363-373 | the note card has id `note-<stamp>`, subject "Note" and description "" by default, and the lead id copied |
| ChatPage.Candidate | src/pages/Index.tsx:283-383 | every candidate card has a hash of its own kind |
| ChatPage.ReplaceFirstUnderscore | src/pages/Index.tsx:392 | `replace("_", " ")` replaces only the first underscore, if any, and keeps every other character |
| ChatPage.OnContentGenerated | src/pages/Index.tsx:282-396 | a successful lead/task/meeting/note event with data goes through card deduplication; any other event appends a notice message |
| ChatPage.StreamAfter | src/pages/Index.tsx:241-407 | `llm_start` and `agent_action` keep an existing streaming id or open `assistant-<stamp>`; `error` and `complete` clear it; other events keep it |
| ChatPage.OpenTurn | src/pages/Index.tsx:241-249 | a shell is appended exactly when no message is streaming |
| ChatPage.SecondStartAddsNothing | src/pages/Index.tsx:241-249 | a second `llm_start` in the same turn changes nothing, and one adds at most one message |
| ChatPage.TokenTargetsOpenTurn | src/pages/Index.tsx:250-253 | a token without an open turn changes nothing; with one, only the streaming message grows, by the token |
| ChatPage.FirstActionOpensTurn | src/pages/Index.tsx:256-281 | an agent action outside a turn appends one streaming message `assistant-<stamp>` whose only bullet is the action text |
| ChatPage.IndexOf | src/pages/Index.tsx:413-414 | `findIndex` gives the first position with the id, and none exactly when no conversation has it |
| ChatPage.Reconcile | src/pages/Index.tsx:412-426 | when both the temporary and the server's id are listed, the temporary entry is removed; when only the temporary one is, it is renamed in place; otherwise nothing changes |
| ChatPage.ReconcileKeepsIdsUnique | src/pages/Index.tsx:412-426 | reconciling keeps conversation ids unique, and the server's id is listed afterwards exactly when it or the temporary id was listed before |
| ChatPage.DropUnique | src/pages/Index.tsx:416-418 | removing one entry keeps ids unique and keeps every other id findable |
| ChatPage.RenameUnique | src/pages/Index.tsx:420-424 | renaming one entry to an unused id keeps ids unique and makes the new id findable |
| ChatPage.NewConversationTitle | src/pages/Index.tsx:573 | a title is the content when it is at most 30 characters, else its first 30 characters followed by "..." |
| ChatPage.ReactionOf | src/pages/Index.tsx:603 | `find(...)?.liked`: the reaction of the first message with the id, and none when there is no such message |
| ChatPage.SetLiked | src/pages/Index.tsx:608-640 | setting a reaction changes only the `liked` field of the messages with the id |
| ChatPage.LikeTarget | src/pages/Index.tsx:605-617 | a like clears an existing like and otherwise sets one |
| ChatPage.DislikeTarget | src/pages/Index.tsx:630-640 | a dislike clears an existing dislike and otherwise sets one |
| ChatPage.ReactionAfterSet | src/pages/Index.tsx:608-640 | after setting a message's reaction, reading it back gives that reaction |
| ChatPage.LikeToggles | src/pages/Index.tsx:601-624 | after a successful like, the message is liked exactly when it was not liked before, and it is never disliked |
| ChatPage.DislikeToggles | src/pages/Index.tsx:626-645 | after a successful dislike, the message is disliked exactly when it was not disliked before, and it is never liked |
| ChatPage.DoubleLike | src/pages/Index.tsx:601-624 | liking twice restores the original reaction when it was a like and clears it otherwise |
| ChatPage.ChatPageState.OnStreamEvent | src/pages/Index.tsx:237-404 | every event but `complete` updates the messages, the streaming id and the loading flag as the pure event functions say |
| ChatPage.ChatPageState.OnComplete | src/pages/Index.tsx:405-439 | `complete` ends the turn, moves to the server's conversation id when it differs from the temporary one, reconciles the list, and, when there is a conversation to refetch, replaces the messages by the transform of what the fetch returns (`[]` when it fails) |
| ChatPage.ChatPageState.HandleSocketEvent | src/pages/Index.tsx:237-440 | the handler dispatches on the event and leaves the state the event functions describe, a failed refetch after `complete` included |
| ChatPage.FailedRefetchEmptiesChat | src/pages/Index.tsx:429-437 | a `complete` whose refetch fails, which the fetch reports as an empty transcript, leaves no messages; with neither a server nor an active conversation id the messages are kept |
| ChatPage.ChatPageState.HandleSendMessage | src/pages/Index.tsx:553-599 | the user message is appended; a conversation `conv_<stamp>` with a truncated title is created when none is active; the payload carries the content and the conversation; a failed send appends the connection-error message and stops loading |
| ChatPage.ChatPageState.CloseFeedbackFor | src/pages/Index.tsx:610-613 | the feedback box closes only when it belongs to the message |
| ChatPage.ChatPageState.HandleLike | src/pages/Index.tsx:601-624 | without an active conversation nothing changes; otherwise an accepted request toggles the like, and the message's feedback box closes either way |
| ChatPage.ChatPageState.HandleDislike | src/pages/Index.tsx:626-645 | clearing a dislike waits for the server and closes the message's feedback box; a new dislike is shown at once and opens the feedback box for the message with empty text |
| ChatSocket.BodyOf | src/hooks/useChatSocket.ts:176-196 | an import body exactly for `type: "import_leads"`, with the leads, pipeline and ids; otherwise a chat body with the message and ids, the conversation id dropped when empty, and `planner` true exactly when it was true |
| ChatSocket.StorageDecision | src/hooks/useChatSocket.ts:142-157 | reconnect exactly when ids are known and the session is down; re-handshake exactly when not reconnecting and the open socket is connected |
| ChatSocket.ClientIdAfter | src/hooks/useChatSocket.ts:102-107 | `connected` and `handshake_ack` frames with a non-empty user id set the client id; nothing else changes it |
| ChatSocket.SocketSession.constructor | src/hooks/useChatSocket.ts:55-58 | a new session has no socket, is disconnected, and has no timer and no client id |
| ChatSocket.SocketSession.Cleanup | src/hooks/useChatSocket.ts:60-72 | cleanup cancels the reconnect timer, asks the current socket (if any) to close, drops it, and marks the session disconnected |
| ChatSocket.SocketSession.Connect | src/hooks/useChatSocket.ts:74-130 | connecting cleans up, then holds a fresh socket in the connecting state, never one the session asked to close; when the constructor throws, it holds none and schedules a reconnect exactly when auto-reconnecting |
| ChatSocket.SocketSession.ReconnectTimerFires | src/hooks/useChatSocket.ts:117-128 | the stored reconnect timer runs `connect`, with `Connect`'s outcome, and the uncancellable timers stay pending |
| ChatSocket.SocketSession.ConnectTimerFires | src/hooks/useChatSocket.ts:117-145 | one uncancellable timer (a storage update's, or a reconnect timer whose handle `onclose` overwrote) runs `connect`, closing the current socket even when it is open, with `Connect`'s outcome and one pending timer fewer |
| ChatSocket.SocketSession.OnOpen | src/hooks/useChatSocket.ts:80-95 | opening marks the session connected and the socket open, and writes the handshake with the option ids or the configured ids unless writing throws; timers, client id, serials and the frames handed on are unchanged |
| ChatSocket.SocketSession.OnMessage | src/hooks/useChatSocket.ts:97-112 | a parsed frame updates the client id and is handed to the page; a non-JSON frame changes nothing; the socket, the connection flag, the timers, serials and written frames are unchanged |
| ChatSocket.SocketSession.OnClose | src/hooks/useChatSocket.ts:114-120 | closing disconnects, drops the socket, and stores a reconnect timer when auto-reconnecting; a timer already stored becomes uncancellable, as its handle is overwritten; nothing else changes |
| ChatSocket.SocketSession.HandleStorageUpdate | src/hooks/useChatSocket.ts:138-157 | as `StorageDecision` says, a storage update starts one more uncancellable connect timer, re-sends the handshake, or, when that write throws, connects at once with `Connect`'s outcome; in each case every other field is stated unchanged |
| ChatSocket.SocketSession.BrowserCloses | src/hooks/useChatSocket.ts:174-175 | a socket that the browser starts closing keeps its serial and is Closing or Closed, so `send` refuses it until `onclose` runs |
| ChatSocket.SocketSession.Send | src/hooks/useChatSocket.ts:174-203 | sending succeeds exactly when the socket exists, is open and writing does not throw; only then is the body written |
| Personalization.SafeParse | src/context/PersonalizationContext.tsx:42-54 | nothing stored gives nothing; stored text gives a value exactly when it parses to an object or an array; an object gives its fields |
| Personalization.Merge | src/context/PersonalizationContext.tsx:59-67 | `{...base, ...partial}`: each field is the partial's when present, else the base's |
| Personalization.InitialWithoutStoredObject | src/context/PersonalizationContext.tsx:57-60 | without a stored object the initial settings are exactly the defaults |
| Personalization.MergeWholeReplaces | src/context/PersonalizationContext.tsx:66-68 | updating with every field replaces the settings |
| Personalization.MergeTwice | src/context/PersonalizationContext.tsx:66-68 | two updates in a row equal one update in which the later partial's fields win |
| Personalization.SettingsStore.constructor | src/context/PersonalizationContext.tsx:57-64 | the store starts with the defaults merged with the stored partial, and persists them |
| Personalization.SettingsStore.UpdateSettings | src/context/PersonalizationContext.tsx:62-68 | an update merges the partial into the settings and persists the result |
| Personalization.SettingsStore.ResetSettings | src/context/PersonalizationContext.tsx:70-72 | a reset restores and persists the defaults: remember on, empty context, professional tone, general domain, internals shown |
| SuggestedPrompts.BasePrompts | src/components/SuggestedPrompts.tsx:10-55 | a known domain gives its own five prompts, an unknown domain the general ones |
| SuggestedPrompts.Personalized | src/components/SuggestedPrompts.tsx:58-60 | the personalised prompt is the fixed lead-in plus the context, cut to 80 characters and followed by "..." when longer |
| SuggestedPrompts.Prompts | src/components/SuggestedPrompts.tsx:54-64 | the personalised prompt comes first exactly when a context is remembered and non-empty; the domain's prompts follow |
| SuggestedPrompts.CurrentPrompt | src/components/SuggestedPrompts.tsx:80 | the prompt at the index, or the first one when the index is out of range; always one of the prompts |
| SuggestedPrompts.PromptRotator.constructor | src/components/SuggestedPrompts.tsx:49-50 | rotation starts at the first prompt, visible |
| SuggestedPrompts.PromptRotator.FadeOut | src/components/SuggestedPrompts.tsx:67-68 | the interval hides the prompt and keeps the index |
| SuggestedPrompts.PromptRotator.Advance | src/components/SuggestedPrompts.tsx:71-74 | the timeout moves to the next prompt modulo the number of prompts and shows it |
| SuggestedPrompts.PromptRotator.Current | src/components/SuggestedPrompts.tsx:80 | the shown prompt is `CurrentPrompt` of the settings' prompts |
| Sidebar.KeepMatching | src/components/ChatSidebar.tsx:33 | every kept conversation's lower-cased title contains the query |
| Sidebar.FilterConversations | src/components/ChatSidebar.tsx:30-34 | a blank query keeps the list; otherwise every kept title matches the trimmed, lower-cased query |
| Sidebar.FilterMembership | src/components/ChatSidebar.tsx:30-34 | a conversation is shown exactly when it is listed and the query is blank or its title matches |
| Sidebar.FilterIsSubList | src/components/ChatSidebar.tsx:30-34 | the shown conversations keep the list's order |
| Sidebar.FilterIdempotent | src/components/ChatSidebar.tsx:30-34 | filtering the filtered list again changes nothing |
| Sidebar.KeepMembership | src/components/ChatSidebar.tsx:33 | `filter` keeps exactly the listed conversations that match |
| Sidebar.KeepIsSubList | src/components/ChatSidebar.tsx:33 | `filter` keeps the order of the list |
| Sidebar.KeepIdempotent | src/components/ChatSidebar.tsx:33 | `filter` twice is `filter` once |
| LeadImport.StripSpaces | src/components/leadImportModal.tsx:69 | `replace(/\s+/g, "")` leaves no whitespace and keeps exactly the other characters |
| LeadImport.StripSpacesConcat | src/components/leadImportModal.tsx:69 | stripping distributes over concatenation |
| LeadImport.StripSpacesKeeps | src/components/leadImportModal.tsx:69 | a phone without whitespace is unchanged |
| LeadImport.NormalizePhone | src/components/leadImportModal.tsx:68-69 | an absent or empty phone becomes "", any other phone loses its whitespace |
| LeadImport.NormalizePhoneIdempotent | src/components/leadImportModal.tsx:68-69 | normalising a normalised phone changes nothing |
| LeadImport.NormalizeLead | src/components/leadImportModal.tsx:80-83 | a lead keeps every field and gains or replaces `phone` with a whitespace-free value |
| LeadImport.NormalizeLeads | src/components/leadImportModal.tsx:80-83 | every lead is normalised, in order |
| LeadImport.RemoveAt | src/components/leadImportModal.tsx:157 | removing index k drops exactly element k and shifts the rest down; an out-of-range index changes nothing |
| LeadImport.ReindexSetMembership | src/components/leadImportModal.tsx:161-166 | after removing k, indices below k stay expanded, k is dropped, and indices above k move down by one |
| LeadImport.ReindexSetAdd | src/components/leadImportModal.tsx:161-166 | re-indexing one more index adds its shifted value, unless it is the removed one |
| LeadImport.ReindexExpanded | src/components/leadImportModal.tsx:161-166 | the loop over the expanded set computes the re-indexed set |
| LeadImport.ReindexOnEntries | src/components/leadImportModal.tsx:169-175 | re-indexing the entries visited so far keeps entries below k, drops k, and moves entries above k down with their pipelines |
| LeadImport.ReindexMapEntries | src/components/leadImportModal.tsx:169-175 | after removing k, selections below k stay, k's is dropped, and those above k move down by one with their pipelines |
| LeadImport.ReindexOnSkip | src/components/leadImportModal.tsx:171-172 | visiting the removed index adds nothing |
| LeadImport.ReindexOnAdd | src/components/leadImportModal.tsx:171-174 | visiting another index adds its pipeline at its shifted index |
| LeadImport.ReindexSelections | src/components/leadImportModal.tsx:169-175 | the loop over the selection entries computes the re-indexed selections |
| LeadImport.ToggleExpand | src/components/leadImportModal.tsx:178-186 | toggling flips the index's membership and leaves the others alone |
| LeadImport.ToggleTwice | src/components/leadImportModal.tsx:178-186 | toggling twice restores the set |
| LeadImport.AllTo | src/components/leadImportModal.tsx:94-101 | every lead index, and only those, maps to the first pipeline |
| LeadImport.DefaultSelections | src/components/leadImportModal.tsx:88-104 | with pipelines and leads and no selection yet, every lead selects the first pipeline; otherwise the selections are kept |
| LeadImport.FillDefaults | src/components/leadImportModal.tsx:97-99 | the `forEach` loop computes the defaults |
| LeadImport.ApplyDefaults | src/components/leadImportModal.tsx:88-104 | the effect computes `DefaultSelections` |
| LeadImport.MissingPipelines | src/components/leadImportModal.tsx:190-192 | the lead indices without a non-empty pipeline, and only those |
| LeadImport.MissingPhones | src/components/leadImportModal.tsx:201-203 | the lead indices without a non-empty phone, and only those |
| LeadImport.Validate | src/components/leadImportModal.tsx:190-211 | import is refused for a missing pipeline exactly when some lead has none; for a missing phone exactly when all have pipelines and some lead lacks a phone, with the number missing; otherwise every lead has both |
| LeadImport.FindGroup | src/components/leadImportModal.tsx:218 | the group of a pipeline, if one exists, and none exactly when no group has the pipeline |
| LeadImport.AddKeepsPartition | src/components/leadImportModal.tsx:216-223 | adding the next lead to its pipeline's group, or to a new group, keeps the partition property |
| LeadImport.AddNewGroup | src/components/leadImportModal.tsx:218-220 | a lead with a new pipeline opens a last group holding just that lead |
| LeadImport.AddToExisting | src/components/leadImportModal.tsx:221-222 | a lead with a known pipeline is appended to that group's leads and indices |
| LeadImport.GroupedIsPartition | src/components/leadImportModal.tsx:214-223 | the groups have distinct pipelines and are ordered by first lead; each group lists, in input order, exactly the leads that selected its pipeline, together with their indices; every lead is placed |
| LeadImport.PlacedOnce | src/components/leadImportModal.tsx:214-223 | no lead is placed in two groups or twice in one |
| LeadImport.GroupLeads | src/components/leadImportModal.tsx:214-223 | the grouping loop computes `Grouped`, which is a partition |
| LeadImport.GroupedSizes | src/components/leadImportModal.tsx:232-288 | the leads in groups whose request succeeded (or failed) are exactly the leads whose pipeline succeeded (or failed) |
| LeadImport.LeadsWhereSplit | src/components/leadImportModal.tsx:232-288 | every lead's pipeline either succeeded or failed |
| LeadImport.CountsCoverAllLeads | src/components/leadImportModal.tsx:228-290 | the success and failure counts add up to the number of leads |
| LeadImport.CountOutcomes | src/components/leadImportModal.tsx:228-290 | the counting loop sums the sizes of the accepted and of the refused groups |
| LeadImport.CanImport | src/components/leadImportModal.tsx:317-318 | import is enabled exactly when there are as many selections as leads, at least one lead, and no import running |
| LeadImport.KeysBelow | src/components/leadImportModal.tsx:317-318 | a set of indices below n has at most n elements, and exactly n when it holds every index below n |
| LeadImport.CanImportMeansAllSelected | src/components/leadImportModal.tsx:317-318 | import is enabled exactly when every lead has a selection, there is a lead, and no import is running |
| LeadImport.ImportDialog.constructor | src/components/leadImportModal.tsx:79-87 | a dialog starts with the normalised leads and no selections, expansions, pipelines or status |
| LeadImport.ImportDialog.Reset | src/components/leadImportModal.tsx:79-104 | new leads are normalised and clear the expansions; the selections are cleared and then, through the default-pipeline effect the new leads trigger, filled with the first pipeline when pipelines are loaded |
| LeadImport.ImportDialog.PipelinesFetched | src/components/leadImportModal.tsx:88-137 | fetched pipelines are stored, an empty list opens the create-pipeline dialog, and the default-pipeline effect the new list triggers runs |
| LeadImport.ImportDialog.FillDefaultPipelines | src/components/leadImportModal.tsx:88-104 | the default-pipeline effect: the selections become `DefaultSelections` |
| LeadImport.ImportDialog.FieldChange | src/components/leadImportModal.tsx:143-147 | one field of one lead is set, and the default-pipeline effect the new leads trigger runs |
| LeadImport.ImportDialog.PipelineChange | src/components/leadImportModal.tsx:149-154 | one lead's pipeline is set |
| LeadImport.ImportDialog.RemoveLead | src/components/leadImportModal.tsx:156-176 | the lead is removed, the expansions and selections are re-indexed, and the default-pipeline effect runs on the re-indexed selections |
| LeadImport.ImportDialog.Toggle | src/components/leadImportModal.tsx:178-186 | one lead's expansion flips |
| LeadImport.ImportDialog.OpenCreatePipeline | src/components/leadImportModal.tsx:490-493 | the create dialog opens for the lead |
| LeadImport.ImportDialog.OnCreate | src/components/leadImportModal.tsx:690-705 | a created pipeline is appended and selected for the lead that asked for it, otherwise the default-pipeline effect runs; the create dialog closes |
| LeadImport.ImportDialog.ImportClick | src/components/leadImportModal.tsx:188-308 | a failed validation sets the refusal and sends nothing; otherwise the leads are grouped and the status reports the counts; any success count with its failures accounts for every lead |
| Markdown.CharRun | src/lib/utils.ts:16-36 | a greedy character-class run: every character in it is in the class, and the next one is not |
| Markdown.FindDelim | src/lib/utils.ts:18-28 | a found closing delimiter lies at or after the start and fits in the text |
| Markdown.FindDelimFirst | src/lib/utils.ts:18-28 | the lazy scan stops at the first occurrence of the delimiter |
| Markdown.MatchAt | src/lib/utils.ts:16-36 | a match of any step is non-empty and inside the text |
| Markdown.ReplaceAtMatch | src/lib/utils.ts:16-36 | at a match, global replacement emits the replacement and resumes after the match |
| Markdown.SpanReplaced | src/lib/utils.ts:16-36 | a span matched by a step is replaced by its captured text |
| Markdown.StripMarkdown | src/lib/utils.ts:11-38 | empty input is returned unchanged; the result has no whitespace at either end, and every whitespace character in it is a single space between non-space characters |
| Markdown.CollapseIsCollapsed | src/lib/utils.ts:36 | `replace(/\s+/g, ' ')` leaves only single spaces |
| Markdown.TrimKeepsCollapsed | src/lib/utils.ts:37 | trimming keeps whitespace collapsed |
| Markdown.CollapsedConcat | src/lib/utils.ts:36 | two collapsed pieces joined without adjacent whitespace are collapsed |
| Markdown.CollapsedSlice | src/lib/utils.ts:37 | any slice of collapsed text is collapsed |
| Markdown.HeaderMarker | src/lib/utils.ts:16 | at a line start, one to six `#` and the whitespace after them are removed |
| Markdown.EmphasisMatch | src/lib/utils.ts:18 | `**x**`, `__x__`, `*x*` and `_x_` match with `x` captured |
| Markdown.EmphasisSpan | src/lib/utils.ts:18 | such a span is replaced by its inner text |
| Markdown.InlineCodeSpan | src/lib/utils.ts:20 | `` `x` `` with non-empty, backtick-free `x` is replaced by `x` |
| Markdown.DelimitedSpan | src/lib/utils.ts:18-28 | a delimited span on one line, without the delimiter inside, matches with its inner text captured |
| Markdown.LinkTarget | src/lib/utils.ts:24 | `](url)` with a non-empty url without `)` is a link target |
| Markdown.LinkMatch | src/lib/utils.ts:24 | `[text](url)` matches with `text` captured |
| Markdown.LinkSpan | src/lib/utils.ts:24 | `[text](url)` is replaced by `text` |
| Markdown.StrikethroughMatch | src/lib/utils.ts:28 | `~~x~~` matches with `x` captured |
| Markdown.StrikethroughSpan | src/lib/utils.ts:28 | `~~x~~` is replaced by `x` |
| Wav.ReadLE16 | src/components/VoiceRecorder.tsx:147-152 | the two bytes `setUint16(.., true)` writes read back as the value modulo 2^16 |
| Wav.ReadLE32 | src/components/VoiceRecorder.tsx:143-154 | the four bytes `setUint32(.., true)` writes read back as the value modulo 2^32 |
| Wav.HeaderTags | src/components/VoiceRecorder.tsx:142-153 | "RIFF", "WAVE", "fmt " and "data" sit at offsets 0, 8, 12 and 36 |
| Wav.RiffFields | src/components/VoiceRecorder.tsx:142-144 | the RIFF chunk's size field, at offset 4, holds 36 plus the data size, modulo 2^32 |
| Wav.FmtFields | src/components/VoiceRecorder.tsx:145-152 | the `fmt ` chunk holds sub-chunk size 16, PCM format 1, the channel count, the sample rate, the byte rate, the block align and 16 bits per sample, each reduced to its field width |
| Wav.DataFields | src/components/VoiceRecorder.tsx:153-154 | the data chunk's size field holds 2·length·channels modulo 2^32 |
| Wav.HeaderFields | src/components/VoiceRecorder.tsx:143-154 | the header's size, format, channel, rate, byte-rate, block-align, depth and data-size fields hold the source's values at their offsets |
| Wav.Clamp | src/components/VoiceRecorder.tsx:160 | samples are clamped to the 16-bit range used: unchanged inside it, the bound outside it |
| Wav.Int16IsLE16 | src/components/VoiceRecorder.tsx:161 | `setInt16` writes the bytes `setUint16` writes for the same value |
| Wav.ReadInt16LE | src/components/VoiceRecorder.tsx:161 | a signed sample reads back as itself |
| Wav.WavFileLength | src/components/VoiceRecorder.tsx:132 | the file is 44 + 2·length·channels bytes long |
| Wav.FramesLength | src/components/VoiceRecorder.tsx:158-164 | n interleaved frames take 2·n·channels bytes |
| Wav.FramePartSample | src/components/VoiceRecorder.tsx:159-163 | channel k's sample sits at byte 2k of its frame |
| Wav.FramesPrefix | src/components/VoiceRecorder.tsx:158-164 | the first i frames are a prefix of the first n |
| Wav.FramesSample | src/components/VoiceRecorder.tsx:158-164 | sample i of channel c sits right after i whole frames and c earlier samples |
| Wav.SampleLayout | src/components/VoiceRecorder.tsx:157-164 | sample i of channel c sits at offset 44 + 2(i·channels + c) and reads back as the clamped sample |
| Wav.Put | src/components/VoiceRecorder.tsx:136-140 | writing bytes at an offset sets them and leaves earlier bytes alone |
| Wav.WriteHeader | src/components/VoiceRecorder.tsx:142-154 | the first 44 bytes of the buffer become the header |
| Wav.WriteFrame | src/components/VoiceRecorder.tsx:159-163 | the inner loop writes one frame after what was written before |
| Wav.WriteFrames | src/components/VoiceRecorder.tsx:157-164 | the outer loop writes every frame after the header |
| Wav.AudioBufferToWav | src/components/VoiceRecorder.tsx:127-167 | the encoder returns a fresh buffer of 44 + 2·length·channels bytes holding exactly the header followed by the interleaved clamped samples |
| VoiceRecorder.Recorder.StartRecording | src/components/VoiceRecorder.tsx:21-65 | with microphone access the recorder records and the button shows it; a refusal changes nothing |
| VoiceRecorder.Recorder.StopRecording | src/components/VoiceRecorder.tsx:67-73 | only a recording media recorder is stopped, which moves the button to processing |
| VoiceRecorder.Recorder.ProcessingDone | src/components/VoiceRecorder.tsx:111-113 | processing ends whatever the transcription did |
| VoiceRecorder.Recorder.HandleClick | src/components/VoiceRecorder.tsx:116-124 | a click does nothing while disabled or processing; otherwise it stops a recording or starts one |

## Left out

- The rendering of every component (JSX, styling, scrolling, toasts and animations) is left out.
  Only the state these components compute is modelled.
- `Date.now()` becomes a `stamp` parameter. The one call to `handleSendMessage` uses a single
  stamp for the user message id, the conversation id and the error message id, where the source
  reads the clock each time.
- The network is left out. This covers `getConversationMessages`, `reactToMessage`, the
  pipeline fetch, the per-pipeline import requests and the transcription request. Their
  results are parameters: `refetched`, `ok`, `fetched`, `accepted` and the end of processing.
  - `getConversationMessages` (src/api/conversations.ts) answers every failure with `[]`, so a
    failed refetch is `refetched == []`.
  - A failed pipeline fetch behaves like fetching an empty list, so it is modelled that way.
  - `OnComplete` applies the refetched transcript at once. The ordering of that asynchronous
    fetch against later events is not modelled.
- The URL and browser history updates (`setConversationIdInUrl`) are left out; they do not
  affect the modelled state.
- `JSON.parse` and `JSON.stringify` are abstract. `SafeParse` receives the parse result, the
  socket receives an already-parsed frame, and frames are written as values.
  - The handshake's ISO timestamp is not modelled.
  - The type names of the frames are not modelled.
- The 25-second ping interval of the socket hook is left out, because it changes no modelled
  state.
- The socket handlers do not check which socket fired them. A late `onclose` from a socket
  that `connect` already replaced clears the new socket too. `OnClose` models this as the
  source does, any socket closing the session; the serials in `closed` only record what was
  asked to close.
- Only the refetch after `complete` clears a shell's streaming flag. `error` clears the
  streaming id but leaves the shell marked streaming, so the transcript can then hold more
  than one streaming message. The model follows the code here, and it states no
  "one streaming message" invariant.
- `${evt.text}` and `Error: ${evt.message}` would render an absent text or error message as
  "undefined". The model takes the action text and the error message as strings.
- Common.ToLower: only ASCII letters are lower-cased, because Unicode case mapping is not
  available as a definition.
- Strings are sequences of code points. JavaScript counts UTF-16 code units in `slice(0, 30)`,
  `slice(0, 80)` and `length`, so titles and prompts of text outside the Basic Multilingual
  Plane can be cut differently.
- `Object.entries` lists integer-like keys first, in ascending order, and other keys in insertion
  order. LeadImport.GroupedIsPartition states the groups in insertion order. Only the counts
  depend on the request order, and they do not change with it.
- LeadImport.ImportDialog.FieldChange requires an index inside the list. On an out-of-range
  index the source would write a sparse array entry.
- The request body of each per-pipeline import, including the `parseFloat` of the geo
  coordinates, is not modelled. Only whether each pipeline's request succeeded is modelled, as
  the `accepted` set.
- `getMemberId` and `getBusinessId` of `src/config.ts` become the constants `configMember` and
  `configBusiness` of the socket session. The message routing of `src/App.tsx` into local
  storage is not part of this model; only the `localStorageUpdated` event it raises is.
- The two-second timer that closes the dialog after a successful import is not modelled. The
  same goes for the dialog's close handler and the create-pipeline dialog's `onClose`.
- `isImporting` and `isLoadingPipelines`, the loading flags, are left out. `CanImport` takes
  `isImporting` as a parameter.
- Markdown: the Images step never fires on `![alt](url)` with a non-empty alt, because the
  Links step has already replaced `[alt](url)`. The model keeps the source's order, so this
  holds in the model too, but no lemma states it.
- Markdown.StripMarkdown: idempotence is not claimed. A second pass can remove markers that the
  first pass exposed, for example `**` that became adjacent.
  - The bold/italic step's back-reference is characterised only for spans whose inner text
    holds no `*` or `_`.
- Wav.AudioBufferToWav: samples are taken already multiplied by 0x7FFF and truncated to
  integers. The floating-point clamp, the multiplication and NaN samples are not modelled.
- The microphone stream, the `MediaRecorder` events, WebM decoding and the transcription
  request are left out. `StartRecording` takes whether access succeeded, and `ProcessingDone`
  ends processing.
- SuggestedPrompts.BasePrompts: `PROMPTS_BY_DOMAIN[domain]` reads a plain object literal, and `??`
  falls back only on `undefined`. A domain named after an inherited `Object.prototype` member
  (`constructor`, `toString`, `toLocaleString`, `valueOf`, `hasOwnProperty`, `isPrototypeOf`,
  `propertyIsEnumerable`, `__proto__`, `__defineGetter__`, `__defineSetter__`,
  `__lookupGetter__`, `__lookupSetter__`) finds that member and not the general list. The model
  treats such a domain as unknown and gives the general prompts.
- SuggestedPrompts.Prompts: for those domain names the source has no prompt list. With a
  remembered context, spreading the member throws a TypeError. Without one, the rotation runs over
  a function or an object and the prompt shown is `undefined`. The model's `5 <= |r| <= 6` bound
  holds only under the reading above.
- LeadImport.GroupLeads: `leadsByPipeline[pipelineId]` reads a plain object too. A pipeline id such
  as `constructor` or `__proto__` finds an inherited member, so LeadImport.FindGroup's "no group
  yet" case is skipped and `.leads.push` throws before any request is sent. Pipeline ids come from
  the server; the model treats every id as an ordinary key.
- The JSX handlers that only forward to a modelled operation, such as input `onChange`, are not
  modelled separately.
