# Telegram chat relay — session core, in Dafny

This project models the per-user conversation core of a Telegram bot that
relays messages to a local language model (Ollama) and streams the answer
back by editing one placeholder message.

- **Records and seeding** (`models.dfy`, module `Models`). These are the `User` and
  `Context` rows. The `users` table is keyed on the unique `platform_user_id`.
  `add_admins_to_db` is an insert-if-absent loop over `ADMIN_IDS`.
- **Conversation store** (`store.dfy`, module `ConversationStore`). The
  append-only `contexts` table is a sequence of rows
  `(session_id, entry_id, user_id, entry)`. The module gives the next session id
  (`1 + max(session_id)`), loads one session ordered by `entry_id`, and builds the
  row that recording a turn appends. Its lemmas cover contiguous `entry_id`s, the
  append/load round trip and the session-id collision.
- **Streaming dispatcher** (`streaming.dfy`, module `Streaming`). This is the
  sentence-end predicate and a reference definition of the successive flushes.
  `Dispatch` is the `async for` loop over the fragments. The lemmas show that
  each flush is a prefix of the reply and a proper prefix of every later flush.
- **Bot** (`telegram_bot.dfy`, module `TelegramBot`). The class `Bot` holds the
  `active_sessions` cache, the `dp['waiting_for_user_id']` slot, a log of
  everything sent to the transport, the database and `ADMIN_IDS`. Each handler
  is a method that changes this state in place, and each is proved equal to a
  function on a `Snapshot` of the state. The lemmas about those functions state
  the following:
  - the authorization gate;
  - lazy hydration;
  - that a turn keeps the cache a mirror of the store;
  - the first-turn round trip;
  - the pending-authorization hand-off.
- `text.dfy` (module `Text`) models Python's `str.strip()`. `wrappers.dfy` holds
  `Option`.

Modelling choices:
- One `UserId` type (a string) stands for both the integer Telegram id and the
  string `platform_user_id` column. `str(id)` is the identity.
- `json.dumps`/`json.loads` are the identity on an `Entry(role, content)`.
- The inference client is a parameter `generate: seq<Entry> -> seq<string>`,
  any total function from the history to a finite fragment list. The ensures
  can therefore say which history it was handed.
- `ORDER BY entry_id` is a stable sort. Rows that share an `entry_id` keep
  table order, which SQLite does not promise.
- The Python exceptions the code can hit are modelled as results:
  - `AttributeError`: `create_new_session` on a missing user row, after the cache was reset.
  - `KeyError`: `add_context_entry` for an uncached user, before anything changes.
  - `IntegrityError`: a null `session_id`, after the cache append.

The code behaves differently from what its comments and a reader might expect in these places, and the model follows the code:
- The sentence-end test accepts only ASCII `.`, `!`, `?` as the last character.
  It does not accept full-width terminators or trailing whitespace
  (`Streaming.SentenceEndExamples`).
- Session ids are `1 + max` over stored rows only. Two sessions created with no
  row written in between get the same id. Loading that session then returns
  both users' turns (`ConversationStore.SharedSessionId`,
  `TelegramBot.BackToBackSessionsShareId`). The cache-mirrors-store property
  `CoherentFor` therefore holds per user, and recording a turn preserves it.
  It is not a global invariant.
- A failure of the inference stream is not handled by the code, and is not modelled.

## Model

| member | source | states |
|---|---|---|
| `Text.Strip` | bot/telegram_bot.py:96 | The typed id is the input with only whitespace (Python's `isspace` set) removed around it, and it neither starts nor ends with whitespace |
| `Text.StripIdempotent` | bot/telegram_bot.py:96 | Stripping a stripped id changes nothing |
| `Models.NewUser` | models.py:29-41 | A new user row has `is_admin` false, `is_authorized` false and no active session |
| `Models.AdminRecord` | models.py:19-24 | A seeded admin row has platform "Telegram", the admin's id, `is_admin` and `is_authorized` set |
| `Models.Db.AddAdminsToDb` | models.py:15-26 | Afterwards every id in `ADMIN_IDS` has a row. Existing rows are untouched (a non-admin is not promoted). Only missing admins are added, as admin records. The contexts table is unchanged and ids stay unique keys |
| `Models.SeedingDeterministic` | models.py:15-26 | The seeding postcondition determines the resulting user table |
| `Models.SeedingIdempotent` | models.py:15-26 | A second `add_admins_to_db` adds no row and changes nothing |
| `ConversationStore.MaxSessionId` | bot/telegram_bot.py:171 | `max(session_id)` is None exactly on an empty table; otherwise it bounds every stored id and is one of them |
| `ConversationStore.NextSessionId` | bot/telegram_bot.py:171-172 | The allocated id exceeds every stored session id. It is 1 on an empty table and otherwise one more than a stored id |
| `ConversationStore.RowsOf` | bot/telegram_bot.py:128 | A row is in the filtered list exactly when it is in the table and has that session; none when no row has it |
| `ConversationStore.RowsOfCounts` | bot/telegram_bot.py:128 | Filtering keeps each row of the session exactly as many times as the table holds it, and no row of another session |
| `ConversationStore.RowsOfAppend` | bot/telegram_bot.py:128 | Filtering keeps table order: a row appended to the table is appended to its own session's rows and to no other session's |
| `ConversationStore.InsertByEntryId` | bot/telegram_bot.py:128-129 | Inserting into rows sorted by `entry_id` keeps them sorted and adds exactly that row |
| `ConversationStore.SortByEntryId` | bot/telegram_bot.py:128-129 | `order_by(entry_id)` yields a permutation of the rows sorted by `entry_id` |
| `ConversationStore.FreshSessionIsEmpty` | bot/telegram_bot.py:170-182 | A newly allocated session has no stored rows, so an empty cache mirrors it |
| `ConversationStore.AppendToSession` | bot/telegram_bot.py:128-130 | A row whose `entry_id` is at least every id in its session is loaded last |
| `ConversationStore.AppendToOtherSession` | bot/telegram_bot.py:128-130 | A row of another session does not change what a session loads |
| `ConversationStore.CoherentAppend` | bot/telegram_bot.py:185-200 | Recording a turn keeps a cache that mirrors its session mirroring it, one entry longer |
| `ConversationStore.EntryIdsContiguous` | bot/telegram_bot.py:190-195 | k recorded turns append the entries to the cache and one row each. The rows' `entry_id`s run from the old cache length upward: 0..k-1 from an empty cache |
| `ConversationStore.CoherentAppendAll` | bot/telegram_bot.py:185-200 | Coherence of cache and store survives any number of recorded turns |
| `ConversationStore.FreshSessionRoundTrip` | bot/telegram_bot.py:124-132 | Turns recorded into a freshly allocated session load back exactly, in order |
| `ConversationStore.SharedSessionId` | bot/telegram_bot.py:170-182 | Two users who each start a session before either records a turn share the id. Loading it then returns both users' turns (as a multiset under any order of ties, and in table order under the stable sort), both with `entry_id` 0, so the first cache no longer mirrors the store |
| `Streaming.FlushesArePrefixes` | bot/telegram_bot.py:145-155 | Every flushed text ends with `.`, `!` or `?` and is a prefix of the final reply |
| `Streaming.FlushesGrow` | bot/telegram_bot.py:149-155 | Each flush is a proper prefix of every later one, so no two consecutive edits repeat a text |
| `Streaming.LastFlushIsReply` | bot/telegram_bot.py:149-155 | When the reply ends a sentence, the last "..." edit already showed all of it |
| `Streaming.FlushCount` | bot/telegram_bot.py:145-155 | There is at most one intermediate edit per fragment |
| `Streaming.Dispatch` | bot/telegram_bot.py:140-155 | `full_response` is the concatenation of the fragments. The edits are the successive flushes, each followed by "...", and one is made after a fragment exactly when the text ends a sentence and differs from the last flush |
| `Streaming.SentenceEndExamples` | bot/telegram_bot.py:149 | "Hello world." flushes; "Hello world" and an unchanged "Done!" do not; "完成了。" and "Done. " are not sentence ends |
| `TelegramBot.SessionCreated` | bot/telegram_bot.py:170-182 | A new session empties the user's cache. Its id is `NextSessionId`, i.e. `1 + max` and above every stored session id, and only that user's `active_session_id` changes to it; the empty cache mirrors it. A missing user raises `AttributeError` after the cache reset |
| `TelegramBot.EntryAdded` | bot/telegram_bot.py:185-200 | Recording grows the user's cache by exactly the entry and writes one row `(session, old cache length, user, entry)`. An uncached user raises and nothing changes; a null session raises after the cache append |
| `TelegramBot.EntryAddedKeepsCoherent` | bot/telegram_bot.py:185-200 | Recording into the user's own active session succeeds and keeps the cache mirroring the store |
| `TelegramBot.EntriesAdded` | bot/telegram_bot.py:185-200 | `add_context_entry` called once per entry, in order. User rows, the transport log and the pending slot stay as they were |
| `TelegramBot.EntriesAddedAppends` | bot/telegram_bot.py:185-200 | k calls of `add_context_entry` change cache and table exactly as `AppendEntries` describes |
| `TelegramBot.EntriesAddedRows` | bot/telegram_bot.py:190-195 | k calls append the entries to the cache and one row each to the table. The earlier rows are kept, and the new rows' `entry_id`s run up from the old cache length |
| `TelegramBot.EntriesAddedKeepCoherent` | bot/telegram_bot.py:185-200 | Any number of turns recorded into the user's own session keep the cache mirroring the store |
| `TelegramBot.Hydrated` | bot/telegram_bot.py:124-132 | The three hydration branches. A cached user is left alone and the store is not read. Otherwise a user with a session gets exactly that session loaded ordered by `entry_id`, with `Done`. Otherwise the state is exactly that of `create_new_session`: a new empty session that mirrors the store, or, for a missing user, an emptied cache and `AttributeError`. Other users are untouched |
| `TelegramBot.HydrationIdempotent` | bot/telegram_bot.py:124-132 | Hydrating twice is the same as hydrating once |
| `TelegramBot.BackToBackSessionsShareId` | bot/telegram_bot.py:170-182 | Two session creations with no row written in between return the same id |
| `TelegramBot.Streamed` | bot/telegram_bot.py:140-167 | The transport gets "typing...", then each flush with "...", then, for a user with a session id, a final edit showing the reply exactly when the reply is non-empty. Other users are untouched, and no denial is sent |
| `TelegramBot.StreamedKeepsCoherent` | bot/telegram_bot.py:157-160 | A non-empty reply is recorded as exactly one assistant entry, an empty one records nothing, and coherence is kept |
| `TelegramBot.MessageHandled` | bot/telegram_bot.py:40-49 | An unauthorized sender gets exactly one denial reply and the state is otherwise unchanged |
| `TelegramBot.TurnTouchesOnlySender` | bot/telegram_bot.py:113-167 | A turn changes only the sender's cache and user row, the table and the transport log only grow, and an authorized sender is never sent the denial |
| `TelegramBot.TurnShape` | bot/telegram_bot.py:124-167 | For any authorized user (cached users with a session id), whether or not the cache mirrors the store: the turn succeeds, the history handed to the client ends with the prompt, the cache becomes that history plus the non-empty reply, and the transport log is placeholder, flushes, then final edit |
| `TelegramBot.TurnKeepsCoherent` | bot/telegram_bot.py:124-167 | For a user whose cache mirrors the store, who has no session, or who is uncached with a stored session whose `entry_id`s index its rows (first message after a restart): the history handed to the client ends with the prompt, the cache grows by the prompt and the non-empty reply and keeps mirroring the store, and the transport log is placeholder, flushes, then final edit |
| `TelegramBot.FirstTurnRoundTrip` | bot/telegram_bot.py:124-167 | A user with no session gets session `1 + max`. The client sees a one-entry history, and the stored session loads as prompt then reply |
| `TelegramBot.UserIdInputHandled` | bot/telegram_bot.py:93-110 | A message from the pending admin authorizes the stripped id, sends "User <id> has been authorized." or "... has been added and authorized." after the earlier log, and clears the slot. An existing row only gains `is_authorized`; a missing one is created as a Telegram non-admin. Any other message is a normal turn |
| `TelegramBot.CallbackHandled` | bot/telegram_bot.py:83-90 | An admin's callback answers the query, asks for the user id and sets the pending slot to that admin. A non-admin's answers with the refusal and leaves the slot as it was. The earlier log is kept, and users, cache and store are untouched |
| `TelegramBot.AuthorizeCommandHandled` | bot/telegram_bot.py:73-80 | Behind the gate, the command appends exactly one reply to the log: the button prompt for an id in `ADMIN_IDS`, the refusal otherwise. No other state changes |
| `TelegramBot.GrantOpensGate` | bot/telegram_bot.py:83-110 | After an admin's callback and typed id, the user with that id passes the gate and the slot is cleared |
| `TelegramBot.Bot.GetActiveContext` | bot/telegram_bot.py:203-204 | The cached session, or `[]` for a user with none |
| `TelegramBot.Bot.CreateNewSession` | bot/telegram_bot.py:170-182 | The in-place update equals `SessionCreated` |
| `TelegramBot.Bot.ResetContext` | bot/telegram_bot.py:207-209 | `reset_context` has the effect of `create_new_session` |
| `TelegramBot.Bot.AddContextEntry` | bot/telegram_bot.py:185-200 | The in-place update equals `EntryAdded` |
| `TelegramBot.Bot.Hydrate` | bot/telegram_bot.py:124-132 | The in-place update equals `Hydrated` |
| `TelegramBot.Bot.HandleMessage` | bot/telegram_bot.py:113-167 | The wrapped handler's in-place update equals `MessageHandled` |
| `TelegramBot.Bot.HandleUserIdInput` | bot/telegram_bot.py:93-110 | The in-place update equals `UserIdInputHandled` |
| `TelegramBot.Bot.HandleAuthorizeCallback` | bot/telegram_bot.py:83-90 | The in-place update equals `CallbackHandled` |
| `TelegramBot.Bot.AuthorizeUserCommand` | bot/telegram_bot.py:73-80 | The in-place update equals `AuthorizeCommandHandled` |

## Left out

- aiogram wiring: handler registration and its order, `/start`, the two `/reset` registrations and their routing, keyboards and buttons, `ParseMode`, the `commands` list. Sends and edits appear only as an output log, without chat or message ids.
- The global `asyncio.Lock` and async suspension points. Each handler call is one atomic step, which is what the lock provides.
- `bot/ollama_integration.py`. It becomes an arbitrary function from the history to a finite list of fragments. Its declared `prompt: str` is handed the history list, and how the Ollama client treats that is not part of this model. Exceptions raised mid-stream are not handled by the code and not modelled.
- SQLAlchemy and SQLite: engine, sessions, autoflush, commit. The session's unusable state after a failed commit is not modelled. A raised `IntegrityError` leaves the cache appended and the table unchanged, and later calls behave as if nothing were pending.
- JSON encoding. It is treated as the identity on `(role, content)`.
- Timestamps (`created_at`, `joined_at`, `last_active`), the `username`, `email` and surrogate `id` columns, and the unused `Platform` table.
- `main.py` and `utils/config.py`. `ADMIN_IDS` is a parameter (a set of user ids).
- Messages without text (stickers, photos and the like), whose `message.text` is `None`. `TelegramBot.UserIdInputHandled` and `TelegramBot.MessageHandled` take the text as a string. The model therefore does not capture two outcomes. From the pending admin, `None.strip()` raises `AttributeError` and the slot stays set. From anyone else, an entry with `None` content is recorded and handed to the client.
- Logging.
