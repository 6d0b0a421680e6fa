# Household notice board: a Dafny model

This project models the core of a household notice board. Family members post
short notices ("messages") with a priority, and can list and remove them. A Rust
server keeps them, and a React client shows them.

- **Server store** (`storage.dfy`, module `Storage`): the class `FileStorage`
  holds two tables and a "last updated" time. Messages are keyed by id and
  client statuses by client id. The model covers creation, partial update,
  deletion, client registration and marking a client offline, all of which
  change these tables in place. It also covers the listing: it filters out
  expired messages and sorts by priority rank, newest first within a rank. It
  covers the five-minute online window and the statistics too.
- **Wire types** (`models.dfy`, modules `Wrappers` and `Models`): `Message`,
  `Priority` with its lowercase text encoding, the `CreateMessage` and
  `UpdateMessage` request bodies, and the pagination query.
- **HTTP handlers** (`handlers.dfy`, module `Handlers`): how each handler maps
  the store's answer to a status code and body. This includes the UUID gate
  in front of the id-taking handlers, the page and page-size normalisation,
  and the update that the toggle handler builds.
- **Board controller** (`board.dfy`, module `Board`): the client's four state
  cells (`messages`, `showForm`, `loading`, `error`) and its four asynchronous
  handlers. There are two forms. One is a pure step function over a
  `BoardState` value, with lemmas over any sequence of events. The other is
  the class `NoticeBoard`, whose methods update the cells step by step and are
  proved equal to that step function. A ghost log records every request sent.
- **Composer** (`form.dfy`, module `Form`): trimming as JavaScript's `trim`
  does, the required-field check, and the class `MessageForm`. The class
  resets to its defaults after an accepted submit and changes one field per
  input event. It is mounted only while the composer is open, so closing the
  composer (its cancel button or the header button) drops its edits.
- **Message list** (`roster.dfy`, module `Roster`): the total mappings from a
  priority string to a colour class, a label and an icon. Also the
  empty-state branch, one card per message, and the confirmation gate in front
  of deletion.

Things the model takes as parameters instead of computing them:
- The fresh UUID and the current time (`Uuid::new_v4`, `Utc::now`).
- Whether writing `data.json` succeeds (`writeOk`).
- The UUID parser (`parse`).
- The store operations each handler calls.
- The outcome of each round trip the browser makes (`Response`).

Timestamps are whole seconds. `num_minutes()` rounds toward zero; `TruncDiv`
models that rounding.

The four listing handlers (`get_messages`, `get_active_messages`,
`get_clients` and `get_stats`, src/handlers.rs:23-39 and src/handlers.rs:125-141)
share one mapping, `Handlers.JsonOr500`.

Behaviour of the code that a reader might not expect:
- The error banner is never cleared; no operation sets `error` back to null.
- A failed first load leaves `loading` false with an empty list.
- An accepted creation closes the composer after its reload, even when that
  reload fails.
- The composer hands a complete form to the board and resets itself at once,
  before the POST completes (src/frontend/components/MessageForm.tsx:31-37).
  When the server refuses the POST, the composer stays open but empty, and what
  was typed is lost (`Form.MessageForm.SubmitTo`).

Facts about the code as written that the model keeps:
- `create_message` (src/storage.rs:72-81) does not set `enabled`, so
  src/storage.rs as written does not compile. The model gives the new message `enabled = false`,
  which is bool's default.
- `update_message` ignores the `enabled` field of an update. So the toggle
  endpoint sends an update that leaves the stored flag as it was
  (`Handlers.ToggleLeavesStoredFlag`).
- The store changes its tables before it writes the file. When the write
  fails, the handler reports 500, but the change stays in memory.
- `mark_client_offline` writes the file even when the client id is unknown.
- `NoticeBoard.tsx` passes `onToggleEnabled` to the list, but `MessageList`
  neither declares nor uses it, so the list offers no toggle action.

## Model

| member | source | states |
|---|---|---|
| Models.EncodePriority | src/models.rs:18-25 | the lowercase name of a priority decodes back to that priority |
| Models.DecodePriority | src/models.rs:18-25 | decoding succeeds exactly for "low", "normal", "high" and "urgent" |
| Models.EncodeDecode | src/models.rs:18-25 | every string that decodes is the encoding of the priority it decodes to |
| Storage.ExpiryIsFinal | src/storage.rs:101-104 | the expiry filter keeps a message with no expiry at every time, and a message it drops stays dropped at every later time |
| Storage.WholeMinutes | src/storage.rs:212-212 | `num_minutes()` of a time difference: the whole minutes it holds, truncated toward zero for negative differences too |
| Storage.IsOnline | src/storage.rs:211-212 | with minutes truncated toward zero, "online" is exactly: flagged online and last seen less than 300 seconds before now (a future last-seen counts) |
| Storage.Rank | src/storage.rs:110-115 | every priority has a sort rank between 1 and 4 |
| Storage.RankOrdersPriorities | src/storage.rs:110-115 | ranks order Urgent < High < Normal < Low, and different priorities have different ranks |
| Storage.Insert | src/storage.rs:109-120 | inserting into a list in listing order keeps it in that order and adds exactly that one element |
| Storage.SortForListing | src/storage.rs:109-120 | the result is a permutation of the input, ordered by rank and then by creation time, newest first |
| Storage.NewMessage | src/storage.rs:72-81 | the stored message copies the request's fields and takes the given id, with created and updated both at now; enabled is false, bool's default, since the code does not set it |
| Storage.ApplyUpdate | src/storage.rs:137-153 | each field supplied as Some replaces the stored one; id, creation time and enabled are kept; updated time becomes now |
| Storage.UpdateKeepsExpiry | src/storage.rs:150-152 | an update never clears an existing expiry |
| Storage.EmptyUpdateOnlyTouches | src/storage.rs:137-154 | an update naming no field changes only the update time |
| Storage.UpdateIdempotent | src/storage.rs:137-154 | applying an update twice at the same time equals applying it once |
| Storage.UpdateIgnoresEnabled | src/storage.rs:137-153 | the update's enabled field has no effect on the stored message |
| Storage.FileStorage.constructor | src/storage.rs:13-18 | the default store is empty, with last-updated at the epoch |
| Storage.FileStorage.CreateMessage | src/storage.rs:68-91 | exactly the fresh id's entry is set to the new message; clients unchanged; last-updated is now; a failed write yields an error but keeps the entry |
| Storage.FileStorage.GetMessages | src/storage.rs:94-123 | the result holds exactly the stored messages whose expiry is absent or after now, each once, in listing order |
| Storage.FileStorage.GetMessage | src/storage.rs:126-129 | returns the entry filed under the id, or None when there is none |
| Storage.FileStorage.UpdateMessage | src/storage.rs:132-162 | an absent id gives None and changes nothing; a present one is replaced by the updated message, last-updated becomes now, and the re-read message is returned |
| Storage.FileStorage.DeleteMessage | src/storage.rs:165-180 | the id is absent afterwards; the result is whether it was present; last-updated changes and the file is written only when something was removed |
| Storage.FileStorage.UpdateClientStatus | src/storage.rs:185-194 | inserts or replaces the entry under the client's own id; last-updated becomes now |
| Storage.FileStorage.GetClients | src/storage.rs:197-200 | returns every stored client status exactly once |
| Storage.FileStorage.GetOnlineClients | src/storage.rs:203-217 | returns exactly the stored clients that are online at now, each once |
| Storage.FileStorage.MarkClientOffline | src/storage.rs:220-232 | a known client becomes offline with last-seen now; an unknown id leaves clients and last-updated unchanged |
| Storage.FileStorage.GetStats | src/storage.rs:235-259 | active count is the number of unexpired messages (the length of the listing) and is at most the total; online count uses the listing's online predicate and is at most the client total |
| Handlers.JsonOr500 | src/handlers.rs:23-30 | a listing handler answers 200 with the store's value on success and 500 on a store error |
| Handlers.CreateMessage | src/handlers.rs:13-21 | 201 with the stored message on success, 500 on a store error |
| Handlers.NormalizePage | src/handlers.rs:45-45 | the page is at least 1: a missing page or 0 becomes 1, any other value is kept |
| Handlers.NormalizePageSize | src/handlers.rs:46-46 | the page size is in 1..100: missing becomes 10, 0 becomes 1, above 100 becomes 100, in-range values are kept |
| Handlers.GetMessagesPaginated | src/handlers.rs:41-52 | the store is asked for the normalised page and size; its result maps to 200 or 500 |
| Handlers.FoundOr404 | src/handlers.rs:60-64 | Ok(Some m) gives 200 with m, Ok(None) gives 404, an error gives 500 |
| Handlers.GetMessage | src/handlers.rs:54-65 | a malformed id gives 400; otherwise the store's lookup maps to 200, 404 or 500 |
| Handlers.UpdateMessage | src/handlers.rs:67-79 | a malformed id gives 400; otherwise the store's update result maps to 200, 404 or 500 |
| Handlers.DeleteMessage | src/handlers.rs:81-92 | 204 exactly when the id parses and the store removed something; 404 when nothing was removed; 500 on error; 400 for a malformed id |
| Handlers.ToggleUpdate | src/handlers.rs:107-115 | the toggle's update names only enabled, set to the negation of the current flag |
| Handlers.ToggleMessageEnabled | src/handlers.rs:94-122 | a malformed id gives 400, an unknown message 404, a read error 500; otherwise the store is sent the toggle update and its result maps to 200, 404 or 500 |
| Handlers.MalformedIdNeverReachesStore | src/handlers.rs:58-98 | for get, update, delete and toggle, a malformed id gives 400 whatever the store would answer |
| Handlers.ToggleOfMissingNeverUpdates | src/handlers.rs:100-105 | toggling an unknown message gives 404 whatever the update would do |
| Handlers.ToggleLeavesStoredFlag | src/handlers.rs:107-117 | applied by the store, the toggle's update leaves enabled unchanged and only moves the update time |
| Board.ErrorText | src/frontend/components/NoticeBoard.tsx:36-42 | a non-2xx response shows the handler's fixed text; a thrown Error shows its message; anything else thrown shows "An error occurred" |
| Board.AfterFetch | src/frontend/components/NoticeBoard.tsx:33-46 | a 2xx load replaces the list; a failed one keeps the list and sets the error; loading is false either way |
| Board.AfterMutation | src/frontend/components/NoticeBoard.tsx:69-99 | an accepted delete or toggle is followed by a reload; a refused one sets the error and keeps the list |
| Board.Step | src/frontend/components/NoticeBoard.tsx:33-99 | only a successful reload changes the list; loading ends with the first reload; a set error stays set |
| Board.MutationReloadsOnce | src/frontend/components/NoticeBoard.tsx:48-99 | each mutation sends its own request first, then exactly one reload if accepted and none if refused |
| Board.AcceptedCreateClosesForm | src/frontend/components/NoticeBoard.tsx:62-63 | an accepted creation closes the composer, even when the reload after it fails and the list stays as it was |
| Board.RefusedCreateKeepsForm | src/frontend/components/NoticeBoard.tsx:58-66 | a refused creation only sets the error (composer and list unchanged) and sends no reload |
| Board.ListIsLastSnapshot | src/frontend/components/NoticeBoard.tsx:35-40 | after any run of events, the list is what the last successful reload returned, or the initial list if none succeeded |
| Board.LoadingUntilFirstReload | src/frontend/components/NoticeBoard.tsx:43-45 | loading stays true exactly until the first reload has completed, and never becomes true again |
| Board.ErrorNeverCleared | src/frontend/components/NoticeBoard.tsx:31-99 | once an error is set, it stays set through any run of events |
| Board.NoticeBoard.constructor | src/frontend/components/NoticeBoard.tsx:28-31 | starts with an empty list, composer closed, loading, no error, and nothing sent |
| Board.NoticeBoard.FetchMessages | src/frontend/components/NoticeBoard.tsx:33-46 | sends one GET; the new state is the load step of the old one |
| Board.NoticeBoard.CreateMessage | src/frontend/components/NoticeBoard.tsx:48-67 | sends the POST and, only if accepted, one GET; the new state is the create step of the old one |
| Board.NoticeBoard.DeleteMessage | src/frontend/components/NoticeBoard.tsx:69-83 | sends the DELETE and, only if accepted, one GET; the list never changes without a reload |
| Board.NoticeBoard.ToggleMessageEnabled | src/frontend/components/NoticeBoard.tsx:85-99 | sends the toggle POST and, only if accepted, one GET; the list never changes without a reload |
| Board.NoticeBoard.ToggleShowForm | src/frontend/components/NoticeBoard.tsx:131-131 | the header button negates showForm and sends nothing |
| Board.NoticeBoard.Cancel | src/frontend/components/NoticeBoard.tsx:157-157 | the composer's cancel sets showForm to false and sends nothing |
| Form.TrimStart | src/frontend/components/MessageForm.tsx:26-26 | the result is a suffix of the input; everything removed is white space; it does not start with white space |
| Form.TrimEnd | src/frontend/components/MessageForm.tsx:26-26 | the result is a prefix of the input; everything removed is white space; it does not end with white space |
| Form.BlankIffAllSpace | src/frontend/components/MessageForm.tsx:26-26 | a field is empty after trimming exactly when all of its characters are white space |
| Form.Complete | src/frontend/components/MessageForm.tsx:26-26 | a form may be submitted exactly when title, content and author each hold a character that is not white space |
| Form.InitialFormIncomplete | src/frontend/components/MessageForm.tsx:16-21 | the initial form (empty texts, priority normal) cannot be submitted |
| Form.OptionsAreThePriorities | src/frontend/components/MessageForm.tsx:112-115 | the selector's option values are exactly the four decodable priority names, with no repeats |
| Form.MessageForm.constructor | src/frontend/components/MessageForm.tsx:16-21 | the form starts empty with priority normal |
| Form.MessageForm.HandleSubmit | src/frontend/components/MessageForm.tsx:23-38 | a submission is handed over iff title, content and author are non-empty after trimming. An accepted one is handed over once, untrimmed, and resets the form. A rejected one raises the alert and leaves the form unchanged |
| Form.MessageForm.HandleChange | src/frontend/components/MessageForm.tsx:40-45 | sets only the named field; a selector choice becomes the priority whose encoding is the chosen value |
| Form.MessageForm.SubmitTo | src/frontend/components/MessageForm.tsx:23-38 | wired to the board's creation handler: a complete form is posted and reset at once; when the POST is refused, the composer stays as open as it was with the form emptied; an incomplete form changes nothing on the board |
| Form.MessageForm.CancelOn | src/frontend/components/NoticeBoard.tsx:153-160 | the cancel button closes the composer as the board's cancel step does; the form is unmounted, so its edits are dropped and it holds the defaults |
| Form.MessageForm.ToggleOn | src/frontend/components/NoticeBoard.tsx:130-160 | the header button flips the composer as the board's toggle step does; closing unmounts the form and opening mounts a fresh one, so either way it holds the defaults |
| Roster.PriorityColor | src/frontend/components/MessageList.tsx:12-25 | each recognised priority maps to its own colour class (red for urgent, orange for high, blue for normal, grey for low); every string maps to one of the four |
| Roster.PriorityLabel | src/frontend/components/MessageList.tsx:27-40 | "urgent", "high", "normal" and "low" map to "🔴 紧急", "🟠 高", "🔵 普通" and "🟢 低"; every string maps to one of the four |
| Roster.PriorityIcon | src/frontend/components/MessageList.tsx:42-55 | "urgent", "high", "normal" and "low" map to "🚨", "⚡", "📌" and "📝"; every string maps to one of the four |
| Roster.UnknownPriorityFallbacks | src/frontend/components/MessageList.tsx:12-55 | an unrecognised priority gets normal's label "🔵 普通" and icon, but low's colour, which differs from normal's |
| Roster.KnownPrioritiesDistinct | src/frontend/components/MessageList.tsx:12-55 | the four recognised priorities get four different labels, icons and colours |
| Roster.CardFor | src/frontend/components/MessageList.tsx:81-136 | a card is keyed by the message id and shows its title, author, raw creation time, content, and priority badge, icon and colour |
| Roster.CardsFor | src/frontend/components/MessageList.tsx:80-82 | one card per message, in input order, each keyed by its message's id |
| Roster.Render | src/frontend/components/MessageList.tsx:68-82 | an empty list renders the empty state and no card; a non-empty one renders its cards |
| Roster.DeleteClick | src/frontend/components/MessageList.tsx:126-130 | onDelete is called with the message's id exactly when the confirmation is accepted |
| Roster.FirstNoticeScenario | src/frontend/components/NoticeBoard.tsx:101-103 | an empty first load shows the empty state; an accepted "high" creation then sends POST and one GET and shows one card with the high badge, with no error |

## Left out

- Reading and writing `data.json` (`FileStorage::new`, `save_to_file`): the model does not cover the file system, JSON, or the fallback to an empty store when the file is corrupt. A write's success is the `writeOk` parameter. The constructor is the default empty store.
- `RwLock`, `async`/`await` and tokio: the store is modelled as sequential, and each method runs as one step.
- `Uuid::new_v4`, `Utc::now` and `Uuid::parse_str` are nondeterministic or external. They are parameters (`id`, `now`, `parse`).
- `mark_client_offline` reads the clock twice, once for `last_seen` and once for `last_updated`. The model uses one `now` for both.
- Timestamps are whole seconds. The online window is the same at any precision, but sub-second differences in the sort order are not modelled.
- The storage functions `get_active_messages` and `get_active_messages_paginated` are not defined in the store's source. Their results, and the `PaginatedResponse` they produce, are opaque parameters of the handlers.
- Serializing `Message` to JSON is modelled only for the priority's lowercase encoding. Serde's field names are not modelled.
- Storage.SortForListing: the library's stable merge sort is replaced by an insertion sort with the same postcondition. The input comes from iterating a hash map in no fixed order, so ties on both keys may come in any order in either case.
- `src/main.rs` (routing, static files, binding) and `rsbuild.config.ts` are configuration and I/O, and are not part of this model.
- The client's `fetch` and JSON decoding are abstracted as a `Response` outcome for each round trip. The model does not cover concurrent, interleaved handlers or their last-writer-wins races.
- JSX markup, CSS classes other than the priority colours, and `formatDate` (which depends on locale formatting) are left out. A card carries the raw creation-time string.
- The form's `handleChange` also accepts `expires_at` as a field name, but no input is wired to it, so it is not modelled.
- Form.MessageForm.HandleSubmit: the browser's own check of the inputs marked `required` (src/frontend/components/MessageForm.tsx:67, 82 and 98) is not modelled, because it lives in the input components, which are not part of this model. If those components pass the attribute on, a literally empty field is blocked before `handleSubmit` runs, so the alert fires only for fields that hold nothing but white space.
