/**
 * The conversation store: the append-only `contexts` table seen as a
 * sequence of rows, with the three queries the bot makes of it — the
 * largest session id, one session's entries ordered by `entry_id`, and the
 * row that recording a turn appends.
 */
module ConversationStore {
  import opened Wrappers
  import opened Models

  /** `max(Context.session_id)`: `None` on an empty table. */
  function MaxSessionId(rows: seq<ContextRow>): (m: Option<int>)
    ensures m == None <==> rows == []
    ensures m.Some? ==> (forall i :: 0 <= i < |rows| ==> rows[i].sessionId <= m.value)
    ensures m.Some? ==> (exists i :: 0 <= i < |rows| && rows[i].sessionId == m.value)
  {
    if rows == [] then None
    else
      var last := rows[|rows| - 1].sessionId;
      match MaxSessionId(rows[..|rows| - 1])
      case None => Some(last)
      case Some(m) => if m < last then Some(last) else Some(m)
  }

  /**
   * The id `create_new_session` allocates: `(max or 0) + 1`. It exceeds every
   * stored session id, is 1 on an empty table and otherwise one more than a
   * stored id. It depends on the stored rows only, so two allocations with no
   * row written in between yield the same id.
   */
  function NextSessionId(rows: seq<ContextRow>): (r: int)
    ensures forall i :: 0 <= i < |rows| ==> rows[i].sessionId < r
    ensures rows == [] ==> r == 1
    ensures rows != [] ==> exists i :: 0 <= i < |rows| && r == rows[i].sessionId + 1
  {
    var m := match MaxSessionId(rows) case None => 0 case Some(v) => v;
    m + 1
  }

  /** The rows of one session, in table order (`filter_by(session_id=s)`). */
  function RowsOf(rows: seq<ContextRow>, s: int): (r: seq<ContextRow>)
    ensures forall row :: row in r <==> row in rows && row.sessionId == s
    ensures (forall i :: 0 <= i < |rows| ==> rows[i].sessionId != s) ==> r == []
    ensures |r| <= |rows|
  {
    if rows == [] then []
    else
      var last := rows[|rows| - 1];
      RowsOf(rows[..|rows| - 1], s) + (if last.sessionId == s then [last] else [])
  }

  ghost predicate SortedByEntryId(rs: seq<ContextRow>)
  {
    forall i, j :: 0 <= i < j < |rs| ==> rs[i].entryId <= rs[j].entryId
  }

  /** Puts `x` after every row whose `entry_id` is at most its own (a stable insertion). */
  function InsertByEntryId(rs: seq<ContextRow>, x: ContextRow): (r: seq<ContextRow>)
    requires SortedByEntryId(rs)
    ensures SortedByEntryId(r)
    ensures multiset(r) == multiset(rs) + multiset{x}
    ensures |r| == |rs| + 1
  {
    if rs == [] || rs[|rs| - 1].entryId <= x.entryId then rs + [x]
    else
      var init, last := rs[..|rs| - 1], rs[|rs| - 1];
      assert rs == init + [last];
      var r' := InsertByEntryId(init, x);
      forall y | y in r' ensures y.entryId <= last.entryId {
        assert y in multiset(r');
        if y != x { assert y in multiset(init); }
      }
      r' + [last]
  }

  /** `order_by(Context.entry_id)`: a stable sort, ties left in table order. */
  function SortByEntryId(rs: seq<ContextRow>): (r: seq<ContextRow>)
    ensures SortedByEntryId(r)
    ensures multiset(r) == multiset(rs) && |r| == |rs|
  {
    if rs == [] then []
    else
      assert rs == rs[..|rs| - 1] + [rs[|rs| - 1]];
      InsertByEntryId(SortByEntryId(rs[..|rs| - 1]), rs[|rs| - 1])
  }

  function Entries(rs: seq<ContextRow>): (es: seq<Entry>)
  {
    seq(|rs|, i requires 0 <= i < |rs| => rs[i].data)
  }

  /** The entries hydration loads for session `s`: its rows ordered by `entry_id`, decoded. */
  function SessionEntries(rows: seq<ContextRow>, s: int): seq<Entry>
  {
    Entries(SortByEntryId(RowsOf(rows, s)))
  }

  /** The row `add_context_entry` writes: its `entry_id` is the cache length before the append. */
  function NewRow(sessionId: int, u: UserId, cache: seq<Entry>, e: Entry): ContextRow
  {
    ContextRow(sessionId, |cache|, u, e)
  }

  /** `es` recorded one by one into session `sessionId`: the cache and the table afterwards. */
  function AppendEntries(sessionId: int, u: UserId, cache: seq<Entry>, rows: seq<ContextRow>, es: seq<Entry>)
    : (seq<Entry>, seq<ContextRow>)
  {
    if es == [] then (cache, rows)
    else
      var (c, r) := AppendEntries(sessionId, u, cache, rows, es[..|es| - 1]);
      var e := es[|es| - 1];
      (c + [e], r + [NewRow(sessionId, u, c, e)])
  }

  /**
   * The cache `cache` mirrors session `s` of the table: loading the session
   * gives back the cache, and every stored `entry_id` of the session is an
   * index into it.
   */
  ghost predicate Coherent(rows: seq<ContextRow>, s: int, cache: seq<Entry>)
  {
    && SessionEntries(rows, s) == cache
    && forall i :: 0 <= i < |rows| && rows[i].sessionId == s ==> 0 <= rows[i].entryId < |cache|
  }

  /** A freshly allocated session has no stored rows, so it loads as empty. */
  lemma {:induction false} FreshSessionIsEmpty(rows: seq<ContextRow>)
    ensures Coherent(rows, NextSessionId(rows), [])
  {
  }

  lemma {:induction false} EntriesAppend(rs: seq<ContextRow>, x: ContextRow)
    ensures Entries(rs + [x]) == Entries(rs) + [x.data]
  {
  }

  /** Sorting a table whose new last row has the largest `entry_id` keeps that row last. */
  lemma {:induction false} SortAppendLargest(rs: seq<ContextRow>, x: ContextRow)
    requires forall row :: row in rs ==> row.entryId <= x.entryId
    ensures SortByEntryId(rs + [x]) == SortByEntryId(rs) + [x]
  {
    var rs' := rs + [x];
    assert rs'[..|rs'| - 1] == rs && rs'[|rs'| - 1] == x;
    var sorted := SortByEntryId(rs);
    if sorted != [] {
      var last := sorted[|sorted| - 1];
      assert last in multiset(sorted);
      assert last in multiset(rs);
      assert last.entryId <= x.entryId;
    }
    assert SortByEntryId(rs') == InsertByEntryId(sorted, x);
  }

  /** A row whose `entry_id` is at least every id already in the session lands at the end on loading. */
  lemma {:induction false} AppendToSession(rows: seq<ContextRow>, s: int, row: ContextRow)
    requires row.sessionId == s
    requires forall i :: 0 <= i < |rows| && rows[i].sessionId == s ==> rows[i].entryId <= row.entryId
    ensures SessionEntries(rows + [row], s) == SessionEntries(rows, s) + [row.data]
  {
    var rows' := rows + [row];
    assert rows'[..|rows'| - 1] == rows;
    var inSession := RowsOf(rows, s);
    assert RowsOf(rows', s) == inSession + [row];
    forall r | r in inSession ensures r.entryId <= row.entryId {
      var i :| 0 <= i < |rows| && rows[i] == r;
    }
    SortAppendLargest(inSession, row);
    EntriesAppend(SortByEntryId(inSession), row);
  }

  /** A row of another session does not change what this session loads. */
  lemma {:induction false} AppendToOtherSession(rows: seq<ContextRow>, s: int, row: ContextRow)
    requires row.sessionId != s
    ensures SessionEntries(rows + [row], s) == SessionEntries(rows, s)
  {
    var rows' := rows + [row];
    assert rows'[..|rows'| - 1] == rows;
    assert RowsOf(rows', s) == RowsOf(rows, s);
  }

  /** Recording a turn keeps cache and table coherent. */
  lemma {:induction false} CoherentAppend(rows: seq<ContextRow>, s: int, u: UserId, cache: seq<Entry>, e: Entry)
    requires Coherent(rows, s, cache)
    ensures Coherent(rows + [NewRow(s, u, cache, e)], s, cache + [e])
  {
    AppendToSession(rows, s, NewRow(s, u, cache, e));
  }

  /**
   * Recording `es` one by one appends exactly `es` to the cache and one row
   * per entry to the table, whose `entry_id`s continue the cache's indices in
   * order: 0, 1, ..., k-1 when the cache started empty.
   */
  lemma {:induction false} EntryIdsContiguous(s: int, u: UserId, cache: seq<Entry>, rows: seq<ContextRow>, es: seq<Entry>)
    ensures AppendEntries(s, u, cache, rows, es).0 == cache + es
    ensures |AppendEntries(s, u, cache, rows, es).1| == |rows| + |es|
    ensures AppendEntries(s, u, cache, rows, es).1[..|rows|] == rows
    ensures forall i :: 0 <= i < |es| ==>
      AppendEntries(s, u, cache, rows, es).1[|rows| + i] == ContextRow(s, |cache| + i, u, es[i])
  {
    if es != [] {
      var init := es[..|es| - 1];
      EntryIdsContiguous(s, u, cache, rows, init);
      assert cache + init + [es[|es| - 1]] == cache + es;
    }
  }

  /** Coherence survives recording any number of turns. */
  lemma {:induction false} CoherentAppendAll(s: int, u: UserId, cache: seq<Entry>, rows: seq<ContextRow>, es: seq<Entry>)
    requires Coherent(rows, s, cache)
    ensures Coherent(AppendEntries(s, u, cache, rows, es).1, s, AppendEntries(s, u, cache, rows, es).0)
  {
    if es != [] {
      CoherentAppendAll(s, u, cache, rows, es[..|es| - 1]);
      var (c, r) := AppendEntries(s, u, cache, rows, es[..|es| - 1]);
      CoherentAppend(r, s, u, c, es[|es| - 1]);
    }
  }

  /**
   * Round trip: the turns recorded into a freshly allocated session are
   * exactly what loading that session yields, in order.
   */
  lemma {:induction false} FreshSessionRoundTrip(u: UserId, rows: seq<ContextRow>, es: seq<Entry>)
    ensures var s := NextSessionId(rows);
      SessionEntries(AppendEntries(s, u, [], rows, es).1, s) == es
  {
    var s := NextSessionId(rows);
    FreshSessionIsEmpty(rows);
    CoherentAppendAll(s, u, [], rows, es);
    var after := AppendEntries(s, u, [], rows, es);
    assert SessionEntries(after.1, s) == after.0;
    EntryIdsContiguous(s, u, [], rows, es);
    assert after.0 == [] + es == es;
  }

  /** Appending one row extends the session it belongs to and no other. */
  lemma {:induction false} RowsOfAppend(rows: seq<ContextRow>, row: ContextRow, s: int)
    ensures RowsOf(rows + [row], s) == RowsOf(rows, s) + (if row.sessionId == s then [row] else [])
  {
    assert (rows + [row])[..|rows|] == rows;
  }

  /** Filtering keeps every row of the session as often as the table holds it, and no other row. */
  lemma {:induction false} RowsOfCounts(rows: seq<ContextRow>, s: int)
    ensures forall x :: multiset(RowsOf(rows, s))[x] == (if x.sessionId == s then multiset(rows)[x] else 0)
  {
    if rows != [] {
      var init, last := rows[..|rows| - 1], rows[|rows| - 1];
      assert rows == init + [last];
      RowsOfCounts(init, s);
      RowsOfAppend(init, last, s);
    }
  }

  /** Two rows appended to a session with no stored rows are its rows, in the order written. */
  lemma {:induction false} TwoRowsOf(rows: seq<ContextRow>, s: int, first: ContextRow, second: ContextRow)
    requires RowsOf(rows, s) == []
    requires first.sessionId == s && second.sessionId == s
    ensures RowsOf(rows + [first] + [second], s) == [first, second]
  {
    RowsOfAppend(rows, first, s);
    RowsOfAppend(rows + [first], second, s);
  }

  lemma {:induction false} EntriesPair(first: ContextRow, second: ContextRow)
    ensures Entries([first, second]) == [first.data, second.data]
    ensures multiset(Entries([first, second])) == multiset{first.data, second.data}
  {
  }

  /** Sorting two rows already in `entry_id` order leaves them as they are, ties included. */
  lemma {:induction false} SortOrderedPair(first: ContextRow, second: ContextRow)
    requires first.entryId <= second.entryId
    ensures SortByEntryId([first, second]) == [first, second]
  {
    var one := [first];
    assert SortByEntryId(one) == one by {
      assert one[..0] == [];
    }
    assert [first, second] == one + [second];
    SortAppendLargest(one, second);
  }

  /**
   * Session ids are allocated from stored rows only. Two users who each get
   * a new session before either records a turn share the id, and loading
   * that session afterwards returns both users' turns, two rows with
   * `entry_id` 0: the first user's cache no longer mirrors the store.
   */
  lemma {:induction false} SharedSessionId(rows: seq<ContextRow>, a: UserId, b: UserId, ea: Entry, eb: Entry)
    ensures var s := NextSessionId(rows);
      var rowsA := rows + [NewRow(s, a, [], ea)];
      var rowsAB := rowsA + [NewRow(NextSessionId(rows), b, [], eb)];
      && Coherent(rowsA, s, [ea])
      && multiset(SessionEntries(rowsAB, s)) == multiset{ea, eb}
      && SessionEntries(rowsAB, s) == [ea, eb]
      && !Coherent(rowsAB, s, [ea])
  {
    var s := NextSessionId(rows);
    var empty: seq<Entry> := [];
    var rowA, rowB := NewRow(s, a, empty, ea), NewRow(s, b, empty, eb);
    FreshSessionIsEmpty(rows);
    CoherentAppend(rows, s, a, empty, ea);
    assert empty + [ea] == [ea];
    TwoRowsOf(rows, s, rowA, rowB);
    SortOrderedPair(rowA, rowB);
    EntriesPair(rowA, rowB);
  }
}
