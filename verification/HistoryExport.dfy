/** alerts.py: streaming the matching alert history page by page while ingest keeps changing the table. */
module HistoryExport {
  import opened Prelude
  import opened Model

  /** What the export sees of a row: when it was last received, and whether it meets the request's conditions. */
  datatype Row = Row(lastReceivedAt: Time, wanted: bool)

  type Table = map<nat, Row>

  /** The sort key: newest first, then highest id first. */
  function NewestFirst(at: Time, id: nat): (k: Key)
    ensures -k.1 == id && -k.0 == at
  {
    (-at, 0 - id)
  }

  function KeyOf(t: Table, id: nat): Key
    requires id in t
  {
    NewestFirst(t[id].lastReceivedAt, id)
  }

  predicate Beyond(cursor: Option<Key>, k: Key) {
    cursor.None? || Before(cursor.value, k)
  }

  /** The wanted rows strictly after the cursor. */
  function Remaining(t: Table, cursor: Option<Key>): set<Key> {
    set id | id in t && t[id].wanted && Beyond(cursor, KeyOf(t, id)) :: KeyOf(t, id)
  }

  function Min(a: nat, b: nat): nat {
    if a < b then a else b
  }

  function Page(t: Table, cursor: Option<Key>, limit: nat): (rows: seq<Key>)
    ensures |rows| <= limit
    ensures Increasing(rows) && forall k :: k in rows ==> k in Remaining(t, cursor)
  {
    var all := Ascending(Remaining(t, cursor));
    assert forall i :: 0 <= i < |all| ==> all[i] in all;
    all[..Min(limit, |all|)]
  }

  /** Everything emitted from page `p` on; page `p` queries the table as it then is. */
  function Emitted(tables: nat -> Table, p: nat, cursor: Option<Key>, size: nat, room: nat): (out: seq<Key>)
    requires size >= 1
    ensures |out| <= room
    decreases room
  {
    if room == 0 then []
    else
      var limit := Min(size, room);
      var rows := Page(tables(p), cursor, limit);
      if |rows| < limit then rows else rows + Emitted(tables, p + 1, Some(rows[|rows| - 1]), size, room - |rows|)
  }

  lemma EmittedUnfolds(tables: nat -> Table, p: nat, cursor: Option<Key>, size: nat, room: nat)
    requires size >= 1 && room > 0
    ensures var limit := Min(size, room);
            var rows := Page(tables(p), cursor, limit);
            Emitted(tables, p, cursor, size, room)
            == if |rows| < limit then rows
               else rows + Emitted(tables, p + 1, Some(rows[|rows| - 1]), size, room - |rows|)
  {
    hide Page;
  }

  /** _stream_history_ndjson */
  method Export(tables: nat -> Table, size: nat, cap: nat) returns (out: seq<Key>)
    requires size >= 1
    ensures out == Emitted(tables, 0, None, size, cap)
  {
    hide Page, Emitted;
    var cursor: Option<Key> := None;
    out := [];
    var p := 0;
    while |out| < cap
      invariant |out| <= cap
      invariant Emitted(tables, 0, None, size, cap) == out + Emitted(tables, p, cursor, size, cap - |out|)
      decreases cap - |out|
    {
      var limit := Min(size, cap - |out|);
      var rows := Page(tables(p), cursor, limit);
      EmittedUnfolds(tables, p, cursor, size, cap - |out|);
      ghost var before := out;
      if rows == [] { return; }
      out := out + rows;
      cursor := Some(rows[|rows| - 1]);
      if |rows| < limit { return; }
      p := p + 1;
      assert before + (rows + Emitted(tables, p, cursor, size, cap - |out|))
        == out + Emitted(tables, p, cursor, size, cap - |out|);
    }
  }

  // ---- order ----

  /** What is emitted comes strictly in order, all of it after the cursor. */
  lemma {:induction false} EmittedInOrder(tables: nat -> Table, p: nat, cursor: Option<Key>, size: nat, room: nat)
    requires size >= 1
    ensures Increasing(Emitted(tables, p, cursor, size, room))
    ensures forall k :: k in Emitted(tables, p, cursor, size, room) ==> Beyond(cursor, k)
    decreases room
  {
    hide Page, Emitted;
    if room > 0 {
      EmittedUnfolds(tables, p, cursor, size, room);
      var limit := Min(size, room);
      var rows := Page(tables(p), cursor, limit);
      PageIsBeyond(tables(p), cursor, limit);
      if |rows| == limit {
        var last := rows[|rows| - 1];
        EmittedInOrder(tables, p + 1, Some(last), size, room - |rows|);
        JoinInOrder(cursor, rows, Emitted(tables, p + 1, Some(last), size, room - |rows|), last);
      }
    }
  }

  lemma PageIsBeyond(t: Table, cursor: Option<Key>, limit: nat)
    ensures forall k :: k in Page(t, cursor, limit) ==> Beyond(cursor, k)
  {
    hide Page;
  }

  lemma JoinInOrder(cursor: Option<Key>, a: seq<Key>, b: seq<Key>, last: Key)
    requires Increasing(a) && Increasing(b) && a != [] && a[|a| - 1] == last
    requires forall k :: k in a ==> Beyond(cursor, k)
    requires forall k :: k in b ==> Beyond(Some(last), k)
    ensures Increasing(a + b)
    ensures forall k :: k in a + b ==> Beyond(cursor, k)
  {
    assert last in a;
    forall j | 0 <= j < |b| ensures Before(last, b[j]) { assert b[j] in b; }
    forall k | k in b ensures Beyond(cursor, k) { assert Beyond(Some(last), k); }
  }

  // ---- no row twice ----

  /** Rows keep their ids and are only ever received again later. */
  ghost predicate OnlyLater(tables: nat -> Table) {
    forall p: nat, q: nat, id :: p <= q && id in tables(p) && id in tables(q)
      ==> tables(p)[id].lastReceivedAt <= tables(q)[id].lastReceivedAt
  }

  /** Where an emitted key came from: a page no earlier than `p`, and a row of the table that page saw. */
  lemma {:induction false} EmittedFrom(tables: nat -> Table, p: nat, cursor: Option<Key>, size: nat, room: nat,
                                       i: nat) returns (q: nat)
    requires size >= 1 && i < |Emitted(tables, p, cursor, size, room)|
    ensures p <= q
    ensures var k := Emitted(tables, p, cursor, size, room)[i];
            k.1 <= 0 && -k.1 in tables(q) && tables(q)[-k.1].wanted && k == KeyOf(tables(q), -k.1)
    decreases room
  {
    hide Page;
    var limit := Min(size, room);
    var rows := Page(tables(p), cursor, limit);
    if i < |rows| {
      q := p;
      assert Emitted(tables, p, cursor, size, room)[i] == rows[i] && rows[i] in rows;
      assert rows[i] in Remaining(tables(p), cursor);
    } else {
      q := EmittedFrom(tables, p + 1, Some(rows[|rows| - 1]), size, room - |rows|, i - |rows|);
    }
  }

  /** Pages go forward: a later emitted key came from the same page or a later one. */
  lemma {:induction false} PagesGoForward(tables: nat -> Table, p: nat, cursor: Option<Key>, size: nat, room: nat,
                                          i: nat, j: nat) returns (q: nat, r: nat)
    requires size >= 1 && i < j < |Emitted(tables, p, cursor, size, room)|
    ensures p <= q <= r
    ensures var out := Emitted(tables, p, cursor, size, room);
            && out[i].1 <= 0 && -out[i].1 in tables(q) && out[i] == KeyOf(tables(q), -out[i].1)
            && out[j].1 <= 0 && -out[j].1 in tables(r) && out[j] == KeyOf(tables(r), -out[j].1)
    decreases room
  {
    hide Page;
    var limit := Min(size, room);
    var rows := Page(tables(p), cursor, limit);
    var out := Emitted(tables, p, cursor, size, room);
    if i < |rows| {
      q := p;
      assert out[i] == rows[i] && rows[i] in rows && rows[i] in Remaining(tables(p), cursor);
      r := EmittedFrom(tables, p, cursor, size, room, j);
    } else {
      q, r := PagesGoForward(tables, p + 1, Some(rows[|rows| - 1]), size, room - |rows|, i - |rows|, j - |rows|);
    }
  }

  /** However the table changes meanwhile, the stream never emits a row twice, and never more than the cap. */
  lemma NoRowTwice(tables: nat -> Table, size: nat, cap: nat, i: nat, j: nat)
    requires size >= 1 && OnlyLater(tables) && i < j < |Emitted(tables, 0, None, size, cap)|
    ensures Emitted(tables, 0, None, size, cap)[i].1 != Emitted(tables, 0, None, size, cap)[j].1
    ensures |Emitted(tables, 0, None, size, cap)| <= cap
  {
    hide KeyOf, OnlyLater;
    hide Emitted;
    EmittedInOrder(tables, 0, None, size, cap);
    var q, r := PagesGoForward(tables, 0, None, size, cap, i, j);
    var out := Emitted(tables, 0, None, size, cap);
    assert Before(out[i], out[j]);
    NeverEarlierAgain(tables, q, r);
  }

  /** Seen again later, a row does not sort after where it was seen before. */
  lemma NeverEarlierAgain(tables: nat -> Table, q: nat, r: nat)
    requires OnlyLater(tables) && q <= r
    ensures forall id :: id in tables(q) && id in tables(r) ==> !Before(KeyOf(tables(q), id), KeyOf(tables(r), id))
  {
  }

  // ---- no steady row missed ----

  /** The row matches throughout and is not received again while the export runs. */
  ghost predicate Steady(tables: nat -> Table, id: nat, at: Time) {
    forall p: nat :: id in tables(p) && tables(p)[id] == Row(at, true)
  }

  lemma {:induction false} SteadyFrom(tables: nat -> Table, p: nat, cursor: Option<Key>, size: nat, room: nat,
                                      id: nat, at: Time)
    requires size >= 1 && Steady(tables, id, at) && Beyond(cursor, NewestFirst(at, id))
    ensures var out := Emitted(tables, p, cursor, size, room);
            NewestFirst(at, id) in out || (|out| == room && forall k :: k in out ==> Before(k, NewestFirst(at, id)))
    decreases room
  {
    hide Page, Emitted, Steady;
    if room > 0 {
      EmittedUnfolds(tables, p, cursor, size, room);
      var limit := Min(size, room);
      var rows := Page(tables(p), cursor, limit);
      PageReachesSteady(tables, p, cursor, limit, id, at);
      if NewestFirst(at, id) !in rows {
        var last := rows[|rows| - 1];
        assert last in rows;
        SteadyFrom(tables, p + 1, Some(last), size, room - |rows|, id, at);
      }
    } else {
      assert Emitted(tables, p, cursor, size, 0) == [];
    }
  }

  lemma PageReachesSteady(tables: nat -> Table, p: nat, cursor: Option<Key>, limit: nat, id: nat, at: Time)
    requires Steady(tables, id, at) && Beyond(cursor, NewestFirst(at, id))
    ensures var key, rows := NewestFirst(at, id), Page(tables(p), cursor, limit);
            key in rows || (|rows| == limit && forall k :: k in rows ==> Before(k, key))
  {
    hide Ascending;
    var key := NewestFirst(at, id);
    assert tables(p)[id] == Row(at, true) && KeyOf(tables(p), id) == key;
    assert key in Remaining(tables(p), cursor);
    PageReaches(Ascending(Remaining(tables(p), cursor)), Page(tables(p), cursor, limit), limit, key);
  }

  /** A key of a sorted list is among the first `limit`, or all of those come before it. */
  lemma PageReaches(all: seq<Key>, rows: seq<Key>, limit: nat, key: Key)
    requires Increasing(all) && rows == all[..Min(limit, |all|)] && key in all
    ensures key in rows || (|rows| == limit && forall k :: k in rows ==> Before(k, key))
  {
    var i :| 0 <= i < |all| && all[i] == key;
    if i < |rows| { assert rows[i] == key; }
    forall k | k in rows && i >= |rows| ensures Before(k, key) {
      var j :| 0 <= j < |rows| && rows[j] == k;
      assert all[j] == k;
    }
  }

  ghost predicate ExactlyOnce(out: seq<Key>, key: Key) {
    exists i :: 0 <= i < |out| && out[i] == key && forall j :: 0 <= j < |out| && out[j] == key ==> j == i
  }

  lemma SortedOnce(out: seq<Key>, key: Key)
    requires Increasing(out) && key in out
    ensures ExactlyOnce(out, key)
  {
    var i :| 0 <= i < |out| && out[i] == key;
    forall j | 0 <= j < |out| && j != i ensures out[j] != key {
      if j < i { assert Before(out[j], out[i]); } else { assert Before(out[i], out[j]); }
    }
  }

  /**
   A row that keeps matching with an unchanged timestamp is emitted exactly once, unless the cap stops the
   stream before reaching it.
   */
  lemma SteadyRowsAreEmitted(tables: nat -> Table, size: nat, cap: nat, id: nat, at: Time)
    requires size >= 1 && Steady(tables, id, at)
    ensures var out, key := Emitted(tables, 0, None, size, cap), NewestFirst(at, id);
            || ExactlyOnce(out, key)
            || (|out| == cap && key !in out && forall k :: k in out ==> Before(k, key))
  {
    hide Emitted, Steady, Increasing, ExactlyOnce;
    var out, key := Emitted(tables, 0, None, size, cap), NewestFirst(at, id);
    SteadyFrom(tables, 0, None, size, cap, id, at);
    EmittedInOrder(tables, 0, None, size, cap);
    if key in out { SortedOnce(out, key); }
  }

  // ---- a table that stands still ----

  /** What remains after the first `n` rows of a static table is the rest of its sorted list. */
  lemma RemainingAfter(t: Table, n: nat)
    requires n < |Ascending(Remaining(t, None))|
    ensures Ascending(Remaining(t, Some(Ascending(Remaining(t, None))[n]))) == Ascending(Remaining(t, None))[n + 1..]
  {
    hide Ascending;
    var all := Ascending(Remaining(t, None));
    var rest := all[n + 1..];
    var left := Remaining(t, Some(all[n]));
    forall k ensures k in rest <==> k in left {
      RemainingSplit(t, all[n], k);
      TailOf(all, n, k);
    }
    AscendingUnique(left, rest);
  }

  lemma RemainingSplit(t: Table, cursor: Key, k: Key)
    ensures k in Remaining(t, Some(cursor)) <==> k in Remaining(t, None) && Before(cursor, k)
  {
    if k in Remaining(t, None) && Before(cursor, k) {
      var id :| id in t && t[id].wanted && KeyOf(t, id) == k;
      assert Beyond(Some(cursor), KeyOf(t, id));
    }
  }

  lemma TailOf(all: seq<Key>, n: nat, k: Key)
    requires Increasing(all) && n < |all|
    ensures k in all[n + 1..] <==> k in all && Before(all[n], k)
  {
    if k in all {
      var i :| 0 <= i < |all| && all[i] == k;
      if i > n { assert all[n + 1..][i - n - 1] == k; }
    }
    if k in all[n + 1..] {
      var i :| 0 <= i < |all[n + 1..]| && all[n + 1..][i] == k;
      assert all[n + 1 + i] == k;
    }
  }

  /** Emitting from where `done` rows of a static table have been emitted. */
  function CursorAt(all: seq<Key>, done: nat): Option<Key>
    requires done <= |all|
  {
    if done == 0 then None else Some(all[done - 1])
  }

  /** One page of a static table, from where `done` rows have been emitted. */
  lemma StaticPage(t: Table, done: nat, limit: nat)
    requires done <= |Ascending(Remaining(t, None))|
    ensures var all := Ascending(Remaining(t, None));
            Page(t, CursorAt(all, done), limit) == all[done..][..Min(limit, |all| - done)]
  {
    hide Ascending, Remaining;
    if done > 0 { RemainingAfter(t, done - 1); }
    var all := Ascending(Remaining(t, None));
    assert all[0..] == all;
  }

  lemma {:induction false} StaticFrom(t: Table, p: nat, done: nat, size: nat, room: nat)
    requires size >= 1 && done <= |Ascending(Remaining(t, None))|
    ensures var all := Ascending(Remaining(t, None));
            Emitted(_ => t, p, CursorAt(all, done), size, room) == all[done..][..Min(room, |all| - done)]
    decreases room
  {
    hide Ascending, Remaining, Emitted, Page;
    var all := Ascending(Remaining(t, None));
    var rest, cursor := all[done..], CursorAt(all, done);
    if room > 0 {
      var limit := Min(size, room);
      EmittedUnfolds(_ => t, p, cursor, size, room);
      StaticPage(t, done, limit);
      if limit <= |rest| {
        assert CursorAt(all, done + limit) == Some(rest[..limit][limit - 1]);
        StaticFrom(t, p + 1, done + limit, size, room - limit);
        CutTwice(rest, limit, room);
        assert rest[limit..] == all[done + limit..];
      }
    } else {
      EmittedNothing(t, p, cursor, size);
    }
  }

  lemma EmittedNothing(t: Table, p: nat, cursor: Option<Key>, size: nat)
    requires size >= 1
    ensures Emitted(_ => t, p, cursor, size, 0) == []
  {
  }

  lemma CutTwice(rest: seq<Key>, limit: nat, room: nat)
    requires limit <= |rest| && limit <= room
    ensures rest[..limit] + rest[limit..][..Min(room - limit, |rest| - limit)] == rest[..Min(room, |rest|)]
  {
  }

  /** On a static table the stream is the sorted list cut at the cap, whatever the page size. */
  lemma StaticExport(t: Table, size: nat, cap: nat)
    requires size >= 1
    ensures var all := Ascending(Remaining(t, None));
            Emitted(_ => t, 0, None, size, cap) == all[..Min(cap, |all|)]
  {
    var all := Ascending(Remaining(t, None));
    StaticFrom(t, 0, 0, size, cap);
    hide *;
    assert all[0..] == all;
  }
}
