/**
 * The per-user conversation core of the Telegram front end: the in-memory
 * session cache beside the `contexts` table, the authorization gate, the
 * pending-authorization slot and one message's turn (hydrate, record the
 * prompt, stream the reply, record the reply).
 *
 * Each handler is a method of `Bot` that changes the bot's state in place;
 * its effect is specified by a function of the same state taken as a value
 * (`Snapshot`), and the properties of the handlers are lemmas about those
 * functions.
 */
module TelegramBot {
  import opened Wrappers
  import opened Text
  import opened Models
  import opened ConversationStore
  import opened Streaming

  const NotAuthorized: string := "You are not authorized to use this bot."
  const NoPermission: string := "You do not have permission to authorize users."
  const AskForUserId: string := "Please enter the user ID you want to authorize:"
  const ClickToAuthorize: string := "Click the button below to authorize a user."
  const Typing: string := "typing..."

  /** What the bot pushes to the transport, in order. */
  datatype Out =
    | Send(text: string)                      // message.answer / bot.send_message
    | Edit(text: string)                      // bot.edit_message_text on the "typing..." placeholder
    | AnswerCallback(notice: Option<string>)  // bot.answer_callback_query

  /** The Python exceptions the core can raise. */
  datatype Failure =
    | KeyError        // appending to the cache of a user who has none
    | AttributeError  // `.active_session_id` of a user row that does not exist
    | IntegrityError  // a `contexts` row with a null `session_id`

  datatype Status = Done | Raised(failure: Failure)

  datatype Outcome<T> = Ok(value: T) | Fails(failure: Failure)

  /** The state the core reads and writes, as a value. */
  datatype Snapshot = Snapshot(
    activeSessions: map<UserId, seq<Entry>>,
    users: map<UserId, User>,
    contexts: seq<ContextRow>,
    waitingForUserId: Option<UserId>,
    outbox: seq<Out>)

  /** `requires_authorization`: a user row exists for the sender and has `is_authorized` set. */
  predicate IsAuthorized(users: map<UserId, User>, u: UserId)
  {
    u in users && users[u].isAuthorized
  }

  /** Python truthiness of `active_session_id`: neither `None` nor 0. */
  predicate HasSession(sessionId: Option<int>)
  {
    sessionId.Some? && sessionId.value != 0
  }

  /** The one reply a user who fails the gate gets; nothing else changes. */
  function Denied(s: Snapshot): Snapshot
  {
    s.(outbox := s.outbox + [Send(NotAuthorized)])
  }

  /** The cache of `u` mirrors the stored rows of `u`'s active session. */
  ghost predicate CoherentFor(s: Snapshot, u: UserId)
  {
    && u in s.activeSessions && u in s.users && s.users[u].activeSessionId.Some?
    && Coherent(s.contexts, s.users[u].activeSessionId.value, s.activeSessions[u])
  }

  /** Only the cache entry and the user row of `u` may differ, and the table only grows. */
  ghost predicate OthersUnchanged(s: Snapshot, s': Snapshot, u: UserId)
  {
    && s.activeSessions.Keys <= s'.activeSessions.Keys <= s.activeSessions.Keys + {u}
    && (forall v :: v in s.activeSessions && v != u ==> s'.activeSessions[v] == s.activeSessions[v])
    && s'.users.Keys == s.users.Keys
    && (forall v :: v in s.users && v != u ==> s'.users[v] == s.users[v])
    && s.contexts <= s'.contexts
    && s'.waitingForUserId == s.waitingForUserId
  }

  /**
   * `create_new_session`: allocates `1 + max(session_id)`, empties the
   * cache of `u`, and points the user at the new session. A missing user row
   * raises after the cache was already reset.
   */
  function SessionCreated(s: Snapshot, u: UserId): (r: (Snapshot, Outcome<int>))
    ensures r.0.activeSessions == s.activeSessions[u := []]
    ensures r.0.contexts == s.contexts && r.0.outbox == s.outbox && r.0.waitingForUserId == s.waitingForUserId
    ensures u !in s.users ==> r.0.users == s.users && r.1 == Fails(AttributeError)
    ensures u in s.users ==> && r.1 == Ok(NextSessionId(s.contexts))
                             && (forall i :: 0 <= i < |s.contexts| ==> s.contexts[i].sessionId < r.1.value)
                             && r.0.users == s.users[u := s.users[u].(activeSessionId := Some(r.1.value))]
                             && CoherentFor(r.0, u)
  {
    var newId := NextSessionId(s.contexts);
    var s' := s.(activeSessions := s.activeSessions[u := []]);
    if u in s.users then
      FreshSessionIsEmpty(s.contexts);
      (s'.(users := s.users[u := s.users[u].(activeSessionId := Some(newId))]), Ok(newId))
    else
      (s', Fails(AttributeError))
  }

  /**
   * `add_context_entry`: appends `e` to the cache of `u` and writes one row
   * whose `entry_id` is the cache length before the append. An uncached
   * user raises before anything changes; a null session id raises after the
   * cache append, when the row is committed.
   */
  function EntryAdded(s: Snapshot, sessionId: Option<int>, u: UserId, e: Entry): (r: (Snapshot, Status))
    ensures u !in s.activeSessions ==> r == (s, Raised(KeyError))
    ensures u in s.activeSessions ==>
      && r.0.activeSessions == s.activeSessions[u := s.activeSessions[u] + [e]]
      && r.0.users == s.users && r.0.outbox == s.outbox && r.0.waitingForUserId == s.waitingForUserId
      && (sessionId == None ==> r.0.contexts == s.contexts && r.1 == Raised(IntegrityError))
      && (sessionId != None ==>
            && r.1 == Done
            && r.0.contexts == s.contexts + [ContextRow(sessionId.value, |s.activeSessions[u]|, u, e)])
  {
    if u !in s.activeSessions then (s, Raised(KeyError))
    else
      var cache := s.activeSessions[u];
      var s' := s.(activeSessions := s.activeSessions[u := cache + [e]]);
      if sessionId.None? then (s', Raised(IntegrityError))
      else (s'.(contexts := s.contexts + [NewRow(sessionId.value, u, cache, e)]), Done)
  }

  /** Recording a turn for `u` into `u`'s own session keeps `u`'s cache coherent. */
  lemma {:induction false} EntryAddedKeepsCoherent(s: Snapshot, u: UserId, e: Entry)
    requires CoherentFor(s, u)
    ensures EntryAdded(s, s.users[u].activeSessionId, u, e).1 == Done
    ensures CoherentFor(EntryAdded(s, s.users[u].activeSessionId, u, e).0, u)
  {
    CoherentAppend(s.contexts, s.users[u].activeSessionId.value, u, s.activeSessions[u], e);
  }

  /** `add_context_entry` called once per entry of `es`, in order, into session `sessionId`. */
  function EntriesAdded(s: Snapshot, sessionId: int, u: UserId, es: seq<Entry>): (r: Snapshot)
    ensures u in s.activeSessions ==> u in r.activeSessions
    ensures r.users == s.users && r.outbox == s.outbox && r.waitingForUserId == s.waitingForUserId
  {
    if es == [] then s
    else EntryAdded(EntriesAdded(s, sessionId, u, es[..|es| - 1]), Some(sessionId), u, es[|es| - 1]).0
  }

  /** k calls of `add_context_entry` append exactly what `AppendEntries` describes, to cache and table. */
  lemma {:induction false} EntriesAddedAppends(s: Snapshot, sessionId: int, u: UserId, es: seq<Entry>)
    requires u in s.activeSessions
    ensures var r := EntriesAdded(s, sessionId, u, es);
      (r.activeSessions[u], r.contexts) == AppendEntries(sessionId, u, s.activeSessions[u], s.contexts, es)
  {
    if es != [] {
      EntriesAddedAppends(s, sessionId, u, es[..|es| - 1]);
    }
  }

  /**
   * k calls of `add_context_entry` grow the cache by exactly the entries and
   * write one row each, whose `entry_id`s count up from the old cache length.
   */
  lemma {:induction false} EntriesAddedRows(s: Snapshot, sessionId: int, u: UserId, es: seq<Entry>)
    requires u in s.activeSessions
    ensures var r := EntriesAdded(s, sessionId, u, es);
      && r.activeSessions[u] == s.activeSessions[u] + es
      && |r.contexts| == |s.contexts| + |es| && r.contexts[..|s.contexts|] == s.contexts
      && forall i :: 0 <= i < |es| ==>
           r.contexts[|s.contexts| + i] == ContextRow(sessionId, |s.activeSessions[u]| + i, u, es[i])
  {
    EntriesAddedAppends(s, sessionId, u, es);
    EntryIdsContiguous(sessionId, u, s.activeSessions[u], s.contexts, es);
  }

  /** Recording any number of turns into `u`'s own session keeps `u`'s cache coherent. */
  lemma {:induction false} EntriesAddedKeepCoherent(s: Snapshot, u: UserId, es: seq<Entry>)
    requires CoherentFor(s, u)
    ensures CoherentFor(EntriesAdded(s, s.users[u].activeSessionId.value, u, es), u)
  {
    var sid := s.users[u].activeSessionId.value;
    var r := EntriesAdded(s, sid, u, es);
    var after := AppendEntries(sid, u, s.activeSessions[u], s.contexts, es);
    EntriesAddedAppends(s, sid, u, es);
    assert r.activeSessions[u] == after.0 && r.contexts == after.1;
    CoherentAppendAll(sid, u, s.activeSessions[u], s.contexts, es);
  }

  /**
   * Lazy hydration (the head of `handle_message`): a cached user is left
   * alone; otherwise the user's active session is loaded ordered by
   * `entry_id`, or a new session is created when the user has none.
   */
  function Hydrated(s: Snapshot, u: UserId): (r: (Snapshot, Status))
    ensures u in s.activeSessions ==> r == (s, Done)
    ensures u in r.0.activeSessions
    ensures OthersUnchanged(s, r.0, u) && r.0.contexts == s.contexts && r.0.outbox == s.outbox
    ensures u !in s.activeSessions && u in s.users && HasSession(s.users[u].activeSessionId) ==>
      && r.1 == Done
      && r.0 == s.(activeSessions := s.activeSessions[u := SessionEntries(s.contexts, s.users[u].activeSessionId.value)])
    ensures u !in s.activeSessions && !(u in s.users && HasSession(s.users[u].activeSessionId)) ==>
      r.0 == SessionCreated(s, u).0
    ensures u !in s.activeSessions && u in s.users && !HasSession(s.users[u].activeSessionId) ==>
      r.1 == Done && r.0.activeSessions[u] == [] && CoherentFor(r.0, u)
    ensures r.1 == Raised(AttributeError) <==> u !in s.activeSessions && u !in s.users
  {
    if u in s.activeSessions then (s, Done)
    else if u in s.users && HasSession(s.users[u].activeSessionId) then
      (s.(activeSessions := s.activeSessions[u := SessionEntries(s.contexts, s.users[u].activeSessionId.value)]), Done)
    else
      var (s', created) := SessionCreated(s, u);
      (s', if created.Ok? then Done else Raised(created.failure))
  }

  function FlushEdits(flushed: seq<string>): (edits: seq<Out>)
  {
    seq(|flushed|, i requires 0 <= i < |flushed| => Edit(flushed[i] + Ellipsis))
  }

  /**
   * The streaming half of `handle_message`, once the prompt is recorded:
   * the inference client gets the cache of `u`, the placeholder is sent, each
   * flush edits it with an ellipsis, and a non-empty reply is recorded and
   * shown by a final edit.
   */
  function Streamed(s: Snapshot, u: UserId, generate: seq<Entry> -> seq<string>): (r: (Snapshot, Status))
    requires u in s.activeSessions && u in s.users
    ensures OthersUnchanged(s, r.0, u) && r.0.activeSessions.Keys == s.activeSessions.Keys
    ensures s.outbox <= r.0.outbox
    ensures forall i :: |s.outbox| <= i < |r.0.outbox| ==> r.0.outbox[i] != Send(NotAuthorized)
    ensures s.users[u].activeSessionId.Some? ==>
      var fragments := generate(s.activeSessions[u]);
      r.0.outbox == s.outbox + [Send(Typing)] + FlushEdits(Flushes(fragments))
                    + (if Concat(fragments) == "" then [] else [Edit(Concat(fragments))])
  {
    var fragments := generate(s.activeSessions[u]);
    var reply := Concat(fragments);
    var s' := s.(outbox := s.outbox + [Send(Typing)] + FlushEdits(Flushes(fragments)));
    if reply == "" then (s', Done)
    else
      var (s'', stored) := EntryAdded(s', s'.users[u].activeSessionId, u, Entry(AssistantRole, reply));
      if stored.Raised? then (s'', stored) else (s''.(outbox := s''.outbox + [Edit(reply)]), Done)
  }

  /** A streamed reply keeps a coherent cache coherent, growing it by the reply when there is one. */
  lemma {:induction false} StreamedKeepsCoherent(s: Snapshot, u: UserId, generate: seq<Entry> -> seq<string>)
    requires CoherentFor(s, u)
    ensures var reply := Concat(generate(s.activeSessions[u]));
      var r := Streamed(s, u, generate);
      && r.1 == Done && CoherentFor(r.0, u)
      && r.0.activeSessions[u] == s.activeSessions[u] + (if reply == "" then [] else [Entry(AssistantRole, reply)])
  {
    var fragments := generate(s.activeSessions[u]);
    var reply := Concat(fragments);
    var s' := s.(outbox := s.outbox + [Send(Typing)] + FlushEdits(Flushes(fragments)));
    assert CoherentFor(s', u);
    if reply != "" {
      EntryAddedKeepsCoherent(s', u, Entry(AssistantRole, reply));
    }
  }

  /** `handle_message` behind its `requires_authorization` wrapper: one whole turn. */
  function MessageHandled(s: Snapshot, u: UserId, text: string, generate: seq<Entry> -> seq<string>): (r: (Snapshot, Status))
    ensures !IsAuthorized(s.users, u) ==> r == (Denied(s), Done)
  {
    if !IsAuthorized(s.users, u) then (Denied(s), Done)
    else
      var (s1, hydration) := Hydrated(s, u);
      if hydration.Raised? then (s1, hydration)
      else
        var (s2, recorded) := EntryAdded(s1, s1.users[u].activeSessionId, u, Entry(UserRole, text));
        if recorded.Raised? then (s2, recorded)
        else Streamed(s2, u, generate)
  }

  lemma OthersUnchangedTrans(a: Snapshot, b: Snapshot, c: Snapshot, u: UserId)
    requires OthersUnchanged(a, b, u) && OthersUnchanged(b, c, u)
    ensures OthersUnchanged(a, c, u)
  {
  }

  /**
   * A turn touches only the sender: no other user's cache or row changes,
   * the table and the transport log only grow, and an authorized sender is
   * never sent the denial.
   */
  lemma {:induction false} TurnTouchesOnlySender(s: Snapshot, u: UserId, text: string, generate: seq<Entry> -> seq<string>)
    ensures var r := MessageHandled(s, u, text, generate);
      && OthersUnchanged(s, r.0, u) && s.outbox <= r.0.outbox
      && (IsAuthorized(s.users, u) ==> forall i :: |s.outbox| <= i < |r.0.outbox| ==> r.0.outbox[i] != Send(NotAuthorized))
  {
    if IsAuthorized(s.users, u) {
      var (s1, hydration) := Hydrated(s, u);
      if hydration.Done? {
        var (s2, recorded) := EntryAdded(s1, s1.users[u].activeSessionId, u, Entry(UserRole, text));
        assert OthersUnchanged(s1, s2, u);
        OthersUnchangedTrans(s, s1, s2, u);
        if recorded.Done? {
          var r := Streamed(s2, u, generate);
          OthersUnchangedTrans(s, s2, r.0, u);
          assert r == MessageHandled(s, u, text, generate);
        }
      }
    }
  }

  /** The history `handle_message` hands to the inference client: the hydrated cache plus the prompt. */
  function History(s: Snapshot, u: UserId, text: string): seq<Entry>
  {
    var s1 := Hydrated(s, u).0;
    s1.activeSessions[u] + [Entry(UserRole, text)]
  }

  /**
   * One authorized turn for a user whose cache mirrors the store, who has
   * no session yet, or who is not cached but has a stored session whose
   * `entry_id`s index its rows (the first message after a restart): the inference client sees the history ending with
   * the prompt; the cache grows by the prompt and, when the reply is
   * non-empty, by the reply; the transport gets the placeholder, the "..."
   * flushes and a final edit showing the reply exactly when it is non-empty;
   * and the cache still mirrors the store.
   */
  lemma {:induction false} TurnKeepsCoherent(s: Snapshot, u: UserId, text: string, generate: seq<Entry> -> seq<string>)
    requires IsAuthorized(s.users, u)
    requires || CoherentFor(s, u)
             || (u !in s.activeSessions && !HasSession(s.users[u].activeSessionId))
             || (u !in s.activeSessions && HasSession(s.users[u].activeSessionId)
                 && Coherent(s.contexts, s.users[u].activeSessionId.value,
                             SessionEntries(s.contexts, s.users[u].activeSessionId.value)))
    ensures var history := History(s, u, text);
      var reply := Concat(generate(history));
      var r := MessageHandled(s, u, text, generate);
      && history[|history| - 1] == Entry(UserRole, text)
      && r.1 == Done
      && CoherentFor(r.0, u)
      && r.0.activeSessions[u] == history + (if reply == "" then [] else [Entry(AssistantRole, reply)])
      && r.0.outbox == s.outbox + [Send(Typing)] + FlushEdits(Flushes(generate(history)))
                       + (if reply == "" then [] else [Edit(reply)])
  {
    var s1 := Hydrated(s, u).0;
    assert CoherentFor(s1, u);
    EntryAddedKeepsCoherent(s1, u, Entry(UserRole, text));
    StreamedKeepsCoherent(EntryAdded(s1, s1.users[u].activeSessionId, u, Entry(UserRole, text)).0, u, generate);
  }

  /**
   * The shape of any turn of an authorized user whose row names a session
   * whenever the user is cached (an uncached user always gets one from
   * hydration), whether or not the cache mirrors the store: the client sees
   * the history ending with the prompt, the cache grows by the prompt and the
   * non-empty reply, and the transport gets the placeholder, the "..."
   * flushes and the final edit.
   */
  lemma {:induction false} TurnShape(s: Snapshot, u: UserId, text: string, generate: seq<Entry> -> seq<string>)
    requires IsAuthorized(s.users, u)
    requires u in s.activeSessions ==> s.users[u].activeSessionId.Some?
    ensures var history := History(s, u, text);
      var reply := Concat(generate(history));
      var r := MessageHandled(s, u, text, generate);
      && history[|history| - 1] == Entry(UserRole, text)
      && r.1 == Done
      && r.0.activeSessions[u] == history + (if reply == "" then [] else [Entry(AssistantRole, reply)])
      && r.0.outbox == s.outbox + [Send(Typing)] + FlushEdits(Flushes(generate(history)))
                       + (if reply == "" then [] else [Edit(reply)])
  {
    var s1 := Hydrated(s, u).0;
    assert s1.users[u].activeSessionId.Some?;
    var s2 := EntryAdded(s1, s1.users[u].activeSessionId, u, Entry(UserRole, text)).0;
    assert s2.activeSessions[u] == History(s, u, text);
  }

  /**
   * The first message of a user with no session: a session numbered
   * `1 + max(session_id)` is created, the inference client sees a one-entry
   * history, and the stored session then holds the prompt and the reply.
   */
  lemma {:induction false} FirstTurnRoundTrip(s: Snapshot, u: UserId, text: string, generate: seq<Entry> -> seq<string>)
    requires IsAuthorized(s.users, u) && u !in s.activeSessions && !HasSession(s.users[u].activeSessionId)
    ensures var n := NextSessionId(s.contexts);
      var prompt := Entry(UserRole, text);
      var reply := Concat(generate([prompt]));
      var r := MessageHandled(s, u, text, generate);
      && History(s, u, text) == [prompt]
      && r.0.users[u].activeSessionId == Some(n)
      && SessionEntries(r.0.contexts, n) == [prompt] + (if reply == "" then [] else [Entry(AssistantRole, reply)])
  {
    TurnKeepsCoherent(s, u, text, generate);
  }

  /**
   * Hydration is idempotent: a second hydration of the same user reads
   * nothing and changes nothing.
   */
  lemma {:induction false} HydrationIdempotent(s: Snapshot, u: UserId)
    ensures Hydrated(Hydrated(s, u).0, u) == (Hydrated(s, u).0, Done)
  {
  }

  /**
   * Session ids come from the stored rows only: two users who start a new
   * session one after the other, with no turn recorded in between, are
   * given the same id.
   */
  lemma {:induction false} BackToBackSessionsShareId(s: Snapshot, a: UserId, b: UserId)
    requires a in s.users && b in s.users
    ensures var (s1, first) := SessionCreated(s, a);
      var second := SessionCreated(s1, b).1;
      first.Ok? && second == first && second.value == NextSessionId(s.contexts)
  {
  }

  /**
   * `handle_user_id_input`: a message from the admin who holds the pending
   * slot authorizes the user whose id is the stripped text (creating a
   * Telegram user if absent) and clears the slot; any other message is a
   * conversational turn.
   */
  function UserIdInputHandled(s: Snapshot, u: UserId, text: string, generate: seq<Entry> -> seq<string>): (r: (Snapshot, Status))
    ensures s.waitingForUserId != Some(u) ==> r == MessageHandled(s, u, text, generate)
    ensures s.waitingForUserId == Some(u) ==>
      var id := Strip(text);
      && r.1 == Done && r.0.waitingForUserId == None
      && IsAuthorized(r.0.users, id)
      && r.0.users.Keys == s.users.Keys + {id}
      && (forall v :: v in s.users && v != id ==> r.0.users[v] == s.users[v])
      && (id in s.users ==> r.0.users[id] == s.users[id].(isAuthorized := true))
      && (id !in s.users ==> r.0.users[id].platform == Telegram && !r.0.users[id].isAdmin
                             && r.0.users[id].platformUserId == id && r.0.users[id].activeSessionId == None)
      && r.0.activeSessions == s.activeSessions && r.0.contexts == s.contexts
      && r.0.outbox == s.outbox + [Send("User " + id + (if id in s.users then " has been authorized." else " has been added and authorized."))]
  {
    if s.waitingForUserId == Some(u) then
      var id := Strip(text);
      var s' := if id in s.users then
          s.(users := s.users[id := s.users[id].(isAuthorized := true)],
             outbox := s.outbox + [Send("User " + id + " has been authorized.")])
        else
          s.(users := s.users[id := NewUser(Telegram, id).(isAuthorized := true)],
             outbox := s.outbox + [Send("User " + id + " has been added and authorized.")]);
      (s'.(waitingForUserId := None), Done)
    else
      MessageHandled(s, u, text, generate)
  }

  /**
   * `handle_authorize_callback`: an administrator's button press takes the
   * pending slot; anyone else gets a refusal and the slot stays as it was.
   */
  function CallbackHandled(s: Snapshot, adminIds: set<UserId>, u: UserId): (r: Snapshot)
    ensures r.activeSessions == s.activeSessions && r.users == s.users && r.contexts == s.contexts
    ensures u in adminIds ==> r.waitingForUserId == Some(u) && r.outbox == s.outbox + [AnswerCallback(None), Send(AskForUserId)]
    ensures u !in adminIds ==> r.waitingForUserId == s.waitingForUserId && r.outbox == s.outbox + [AnswerCallback(Some(NoPermission))]
  {
    if u in adminIds then
      s.(outbox := s.outbox + [AnswerCallback(None), Send(AskForUserId)], waitingForUserId := Some(u))
    else
      s.(outbox := s.outbox + [AnswerCallback(Some(NoPermission))])
  }

  /** `authorize_user_command` behind the gate: answers with the button prompt for admins only. */
  function AuthorizeCommandHandled(s: Snapshot, adminIds: set<UserId>, u: UserId): (r: Snapshot)
    ensures !IsAuthorized(s.users, u) ==> r == Denied(s)
    ensures r == s.(outbox := r.outbox)
    ensures IsAuthorized(s.users, u) ==> r.outbox == s.outbox + [Send(if u in adminIds then ClickToAuthorize else NoPermission)]
  {
    if !IsAuthorized(s.users, u) then Denied(s)
    else if u in adminIds then s.(outbox := s.outbox + [Send(ClickToAuthorize)])
    else s.(outbox := s.outbox + [Send(NoPermission)])
  }

  /**
   * The authorization hand-off: after an administrator presses the button
   * and then types an id, the user with that id passes the gate.
   */
  lemma {:induction false} GrantOpensGate(s: Snapshot, adminIds: set<UserId>, admin: UserId, text: string, generate: seq<Entry> -> seq<string>)
    requires admin in adminIds
    ensures var s1 := CallbackHandled(s, adminIds, admin);
      var s2 := UserIdInputHandled(s1, admin, text, generate).0;
      && IsAuthorized(s2.users, Strip(text))
      && s2.waitingForUserId == None
  {
  }

  /**
   * The bot process: the `active_sessions` cache, the pending slot
   * `dp['waiting_for_user_id']`, the transport log, the database session and
   * the configured `ADMIN_IDS`.
   */
  class Bot {
    const db: Db
    const adminIds: set<UserId>
    var activeSessions: map<UserId, seq<Entry>>
    var waitingForUserId: Option<UserId>
    var outbox: seq<Out>

    ghost predicate Valid()
      reads this, db
    {
      db.Valid()
    }

    function State(): Snapshot
      reads this, db
    {
      Snapshot(activeSessions, db.users, db.contexts, waitingForUserId, outbox)
    }

    constructor (db: Db, adminIds: set<UserId>)
      requires db.Valid()
      ensures Valid() && this.db == db && this.adminIds == adminIds
      ensures State() == Snapshot(map[], db.users, db.contexts, None, [])
    {
      this.db := db;
      this.adminIds := adminIds;
      activeSessions := map[];
      waitingForUserId := None;
      outbox := [];
    }

    /** `get_active_context`: the cached session of `u`, or `[]` for a user with none. */
    function GetActiveContext(u: UserId): (r: seq<Entry>)
      reads this
      ensures u in activeSessions ==> r == activeSessions[u]
      ensures u !in activeSessions ==> r == []
    {
      if u in activeSessions then activeSessions[u] else []
    }

    method CreateNewSession(u: UserId) returns (r: Outcome<int>)
      requires Valid()
      modifies this, db
      ensures Valid()
      ensures (State(), r) == SessionCreated(old(State()), u)
    {
      var newSessionId := NextSessionId(db.contexts);
      activeSessions := activeSessions[u := []];
      if u in db.users {
        db.users := db.users[u := db.users[u].(activeSessionId := Some(newSessionId))];
        r := Ok(newSessionId);
      } else {
        r := Fails(AttributeError);
      }
    }

    /** `reset_context`: starts a new session for `u`. */
    method ResetContext(u: UserId) returns (r: Outcome<int>)
      requires Valid()
      modifies this, db
      ensures Valid()
      ensures (State(), r) == SessionCreated(old(State()), u)
    {
      r := CreateNewSession(u);
    }

    method AddContextEntry(sessionId: Option<int>, u: UserId, e: Entry) returns (st: Status)
      requires Valid()
      modifies this, db
      ensures Valid()
      ensures (State(), st) == EntryAdded(old(State()), sessionId, u, e)
    {
      if u !in activeSessions {
        return Raised(KeyError);
      }
      activeSessions := activeSessions[u := activeSessions[u] + [e]];
      if sessionId.None? {
        return Raised(IntegrityError);
      }
      db.contexts := db.contexts + [ContextRow(sessionId.value, |activeSessions[u]| - 1, u, e)];
      st := Done;
    }

    method Hydrate(u: UserId) returns (st: Status)
      requires Valid()
      modifies this, db
      ensures Valid()
      ensures (State(), st) == Hydrated(old(State()), u)
    {
      if u !in activeSessions {
        if u in db.users && HasSession(db.users[u].activeSessionId) {
          activeSessions := activeSessions[u := SessionEntries(db.contexts, db.users[u].activeSessionId.value)];
        } else {
          var created := CreateNewSession(u);
          return if created.Ok? then Done else Raised(created.failure);
        }
      }
      st := Done;
    }

    method HandleMessage(u: UserId, text: string, generate: seq<Entry> -> seq<string>) returns (st: Status)
      requires Valid()
      modifies this, db
      ensures Valid()
      ensures (State(), st) == MessageHandled(old(State()), u, text, generate)
    {
      if !IsAuthorized(db.users, u) {
        outbox := outbox + [Send(NotAuthorized)];
        return Done;
      }
      ghost var s0 := State();
      st := Hydrate(u);
      if st.Raised? {
        return;
      }
      ghost var s1 := State();
      st := AddContextEntry(db.users[u].activeSessionId, u, Entry(UserRole, text));
      assert (State(), st) == EntryAdded(s1, s1.users[u].activeSessionId, u, Entry(UserRole, text));
      if st.Raised? {
        return;
      }
      ghost var s2 := State();
      // the list handed to the client is the cache itself, so it includes the prompt
      var history := GetActiveContext(u);
      outbox := outbox + [Send(Typing)];
      var fullResponse, edits := Dispatch(generate(history));
      var flushEdits := seq(|edits|, i requires 0 <= i < |edits| => Edit(edits[i]));
      assert flushEdits == FlushEdits(Flushes(generate(history)));
      outbox := outbox + flushEdits;
      if fullResponse != "" {
        ghost var s3 := State();
        st := AddContextEntry(db.users[u].activeSessionId, u, Entry(AssistantRole, fullResponse));
        assert (State(), st) == EntryAdded(s3, s3.users[u].activeSessionId, u, Entry(AssistantRole, fullResponse));
        if st.Raised? {
          return;
        }
        outbox := outbox + [Edit(fullResponse)];
      }
      assert (State(), st) == Streamed(s2, u, generate);
    }

    method HandleUserIdInput(u: UserId, text: string, generate: seq<Entry> -> seq<string>) returns (st: Status)
      requires Valid()
      modifies this, db
      ensures Valid()
      ensures (State(), st) == UserIdInputHandled(old(State()), u, text, generate)
    {
      ghost var s0 := State();
      if waitingForUserId == Some(u) {
        var id := Strip(text);
        if id in db.users {
          db.users := db.users[id := db.users[id].(isAuthorized := true)];
          outbox := outbox + [Send("User " + id + " has been authorized.")];
        } else {
          db.users := db.users[id := NewUser(Telegram, id).(isAuthorized := true)];
          outbox := outbox + [Send("User " + id + " has been added and authorized.")];
        }
        waitingForUserId := None;
        st := Done;
      } else {
        assert UserIdInputHandled(s0, u, text, generate) == MessageHandled(s0, u, text, generate);
        st := HandleMessage(u, text, generate);
      }
    }

    method HandleAuthorizeCallback(u: UserId)
      requires Valid()
      modifies this
      ensures Valid()
      ensures State() == CallbackHandled(old(State()), adminIds, u)
    {
      if u in adminIds {
        outbox := outbox + [AnswerCallback(None), Send(AskForUserId)];
        waitingForUserId := Some(u);
      } else {
        outbox := outbox + [AnswerCallback(Some(NoPermission))];
      }
    }

    method AuthorizeUserCommand(u: UserId)
      requires Valid()
      modifies this
      ensures Valid()
      ensures State() == AuthorizeCommandHandled(old(State()), adminIds, u)
    {
      if !IsAuthorized(db.users, u) {
        outbox := outbox + [Send(NotAuthorized)];
      } else if u in adminIds {
        outbox := outbox + [Send(ClickToAuthorize)];
      } else {
        outbox := outbox + [Send(NoPermission)];
      }
    }
  }
}
