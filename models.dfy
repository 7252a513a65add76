/**
 * The persistent records of the chat relay (the `users` and `contexts`
 * tables) and the start-up seeding of the configured administrators.
 */
module Models {
  import opened Wrappers

  /** The platform-scoped user id, the `platform_user_id` column (a string). */
  type UserId = string

  /** Who produced a conversation turn: `'user'` or `'assistant'`. */
  datatype Role = UserRole | AssistantRole

  /** One `{role, content}` turn; stored as JSON, which is taken as the identity on this record. */
  datatype Entry = Entry(role: Role, content: string)

  /**
   * A row of the `users` table. `platform_user_id` is unique, which the
   * table below gets by keying users on it.
   */
  datatype User = User(
    platform: string,
    platformUserId: UserId,
    isAdmin: bool,
    isAuthorized: bool,
    activeSessionId: Option<int>)

  /** A row of the append-only `contexts` table. */
  datatype ContextRow = ContextRow(sessionId: int, entryId: int, userId: UserId, data: Entry)

  const Telegram: string := "Telegram"

  /** A user created with the column defaults: not admin, not authorized, no active session. */
  function NewUser(platform: string, id: UserId): (u: User)
    ensures u.platformUserId == id && u.platform == platform
    ensures !u.isAdmin && !u.isAuthorized && u.activeSessionId == None
  {
    User(platform, id, false, false, None)
  }

  /** The row `add_admins_to_db` creates for a configured administrator. */
  function AdminRecord(id: UserId): (u: User)
    ensures u.platform == Telegram && u.platformUserId == id
    ensures u.isAdmin && u.isAuthorized && u.activeSessionId == None
  {
    NewUser(Telegram, id).(isAdmin := true, isAuthorized := true)
  }

  /**
   * `after` is what seeding `adminIds` into `before` produces: every
   * administrator has a row, existing rows are untouched, and only missing
   * administrators are added, as fresh admin records.
   */
  ghost predicate SeedsFrom(before: map<UserId, User>, after: map<UserId, User>, adminIds: set<UserId>)
  {
    && after.Keys == before.Keys + adminIds
    && (forall id :: id in before ==> after[id] == before[id])
    && (forall id :: id in adminIds && id !in before ==> after[id] == AdminRecord(id))
  }

  /** Seeding is a function of its inputs: two tables that both seed from `before` agree. */
  lemma {:induction false} SeedingDeterministic(before: map<UserId, User>, a: map<UserId, User>, b: map<UserId, User>, adminIds: set<UserId>)
    requires SeedsFrom(before, a, adminIds) && SeedsFrom(before, b, adminIds)
    ensures a == b
  {
    forall id | id in a
      ensures a[id] == b[id]
    {
      if id in before {
      } else {
        assert id in adminIds;
      }
    }
  }

  /**
   * `add_admins_to_db` is idempotent: seeding an already seeded table
   * changes nothing.
   */
  lemma {:induction false} SeedingIdempotent(before: map<UserId, User>, once: map<UserId, User>, twice: map<UserId, User>, adminIds: set<UserId>)
    requires SeedsFrom(before, once, adminIds) && SeedsFrom(once, twice, adminIds)
    ensures twice == once
  {
    assert SeedsFrom(once, once, adminIds);
    SeedingDeterministic(once, once, twice, adminIds);
  }

  /** The database session: the `users` table keyed by `platform_user_id`, and the `contexts` table. */
  class Db {
    var users: map<UserId, User>
    var contexts: seq<ContextRow>

    /** Every user row sits under its own `platform_user_id`. */
    ghost predicate Valid()
      reads this
    {
      forall id :: id in users ==> users[id].platformUserId == id
    }

    constructor (users0: map<UserId, User>, contexts0: seq<ContextRow>)
      requires forall id :: id in users0 ==> users0[id].platformUserId == id
      ensures Valid() && users == users0 && contexts == contexts0
    {
      users := users0;
      contexts := contexts0;
    }

    /** `add_admins_to_db`: insert an admin row for every configured id that has none. */
    method AddAdminsToDb(adminIds: set<UserId>)
      requires Valid()
      modifies this
      ensures Valid()
      ensures SeedsFrom(old(users), users, adminIds)
      ensures contexts == old(contexts)
    {
      var remaining := adminIds;
      while remaining != {}
        invariant remaining <= adminIds
        invariant Valid() && contexts == old(contexts)
        invariant users.Keys == old(users).Keys + (adminIds - remaining)
        invariant forall id :: id in old(users) ==> users[id] == old(users)[id]
        invariant forall id :: id in adminIds - remaining && id !in old(users) ==> users[id] == AdminRecord(id)
        decreases remaining
      {
        var adminId :| adminId in remaining;
        if adminId !in users {
          users := users[adminId := AdminRecord(adminId)];
        }
        remaining := remaining - {adminId};
      }
    }
  }
}
