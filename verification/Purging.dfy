/** retention.py, over whole purges: deleting in batches amounts to deleting in one go. */
module Purging {
  import opened Prelude
  import opened Model
  import opened Staging
  import opened Retention
  import opened Invariants

  // ---- outbox rows ----

  /** A linked row is parked, so an aggregate's child is never itself due for deletion. */
  lemma ChildrenAreNotExpired(db: DB, ids: set<nat>, cutoff: Time)
    requires RowsOk(db)
    ensures ChildRows(db, ids) !! ExpiredRows(db, cutoff)
  {
    forall r | r in ChildRows(db, ids) ensures r !in ExpiredRows(db, cutoff) {
      assert Linked(db, db.outbox[r]);
    }
  }

  lemma RowsGoKeepsRows(before: DB, after: DB)
    requires RowsOk(before) && RowsGo(before, after)
    ensures RowsOk(after)
  {
    forall r | r in after.outbox ensures Shaped(after.outbox[r]) && Linked(after, after.outbox[r]) {
      assert Linked(before, before.outbox[r]);
    }
  }

  lemma PurgeRowsKeepsRows(db: DB, ids: set<nat>)
    requires RowsOk(db)
    ensures RowsOk(PurgeRows(db, ids))
    ensures RowsGo(db, PurgeRows(db, ids))
  {
    PurgeRowsGo(db, ids);
    RowsGoKeepsRows(db, PurgeRows(db, ids));
  }

  lemma SameRows(a: DB, b: DB, db: DB)
    requires RowsGo(db, a) && RowsGo(db, b) && a.outbox.Keys == b.outbox.Keys
    ensures a == b
  {
    assert a.outbox == b.outbox by {
      forall r | r in a.outbox.Keys ensures r in b.outbox && a.outbox[r] == b.outbox[r] {}
    }
  }

  lemma GoTwice(a: DB, b: DB, c: DB)
    requires RowsGo(a, b) && RowsGo(b, c)
    ensures RowsGo(a, c)
  {
  }

  lemma PurgeRowsTwice(db: DB, first: set<nat>, second: set<nat>)
    requires RowsOk(db)
    ensures PurgeRows(PurgeRows(db, first), second) == PurgeRows(db, first + second)
  {
    var half := PurgeRows(db, first);
    PurgeRowsKeepsRows(db, first);
    PurgeRowsKeepsRows(half, second);
    PurgeRowsKeepsRows(db, first + second);
    PurgeRowsGo(db, first);
    PurgeRowsGo(half, second);
    PurgeRowsGo(db, first + second);
    hide PurgeRows, RowsOk;
    GoTwice(db, half, PurgeRows(half, second));
    SecondChildren(db, half, first, second);
    SameRows(PurgeRows(half, second), PurgeRows(db, first + second), db);
  }

  lemma SecondChildren(db: DB, half: DB, first: set<nat>, second: set<nat>)
    requires RowsGo(db, half) && half.outbox.Keys == db.outbox.Keys - first - ChildRows(db, first)
    ensures half.outbox.Keys - second - ChildRows(half, second)
            == db.outbox.Keys - (first + second) - ChildRows(db, first + second)
  {
  }

  lemma ExpiredShrinks(db: DB, ids: set<nat>, cutoff: Time)
    requires RowsOk(db)
    ensures ExpiredRows(PurgeRows(db, ids), cutoff) == ExpiredRows(db, cutoff) - ids
  {
    hide PurgeRows, RowsOk;
    PurgeRowsGo(db, ids);
    ChildrenAreNotExpired(db, ids, cutoff);
  }

  lemma RowsAreThere(db: DB, ids: set<nat>, cutoff: Time)
    ensures ChildRows(db, ids) <= db.outbox.Keys && ExpiredRows(db, cutoff) <= db.outbox.Keys
  {
  }

  lemma ThreeParts(a: set<nat>, b: set<nat>, all: set<nat>)
    requires a !! b && a <= all && b <= all
    ensures |all - a - b| + |a| + |b| == |all|
  {
    assert all == (all - a - b) + (a + b);
    assert |a + b| == |a| + |b|;
  }

  /** No child is counted twice: the rows one batch removes are its own plus its aggregates' children. */
  lemma PurgeRowsCount(db: DB, ids: set<nat>, cutoff: Time)
    requires RowsOk(db) && ids <= ExpiredRows(db, cutoff)
    ensures |PurgeRows(db, ids).outbox| + |ids| + |ChildRows(db, ids)| == |db.outbox|
  {
    hide PurgeRows, RowsOk, ExpiredRows, ChildRows;
    PurgeRowsGo(db, ids);
    ChildrenAreNotExpired(db, ids, cutoff);
    RowsAreThere(db, ids, cutoff);
    ThreeParts(ids, ChildRows(db, ids), db.outbox.Keys);
  }

  /** The whole outbox purge removes a row exactly when it is settled and old, or was folded into one that is. */
  lemma PurgedRowsAre(db: DB, cutoff: Time, r: nat)
    requires RowsOk(db) && r in db.outbox
    ensures var after, row := PurgeRows(db, ExpiredRows(db, cutoff)), db.outbox[r];
            && (r !in after.outbox <==>
                  || ((row.status == Delivered || row.status == Dead) && row.createdAt < cutoff)
                  || (row.digestedInto.Some?
                      && var whole := db.outbox[row.digestedInto.value];
                         (whole.status == Delivered || whole.status == Dead) && whole.createdAt < cutoff))
            && (r in after.outbox ==>
                  && after.outbox[r] == row
                  && (row.digestedInto.Some? ==> row.digestedInto.value in after.outbox))
  {
    hide PurgeRows;
    PurgeRowsGo(db, ExpiredRows(db, cutoff));
    assert Linked(db, db.outbox[r]);
  }

  // ---- timers ----

  lemma TimersTwice(db: DB, first: set<nat>, second: set<nat>)
    ensures DeleteTimers(DeleteTimers(db, first), second) == DeleteTimers(db, first + second)
  {
    assert DeleteTimers(DeleteTimers(db, first), second).actions == DeleteTimers(db, first + second).actions;
  }

  lemma DeleteTimersKeepsRest(db: DB, ids: set<nat>)
    ensures DeleteTimers(db, ids) == db.(actions := DeleteTimers(db, ids).actions)
  {
  }

  lemma ExpiredTimersShrink(db: DB, ids: set<nat>, cutoff: Time)
    ensures ExpiredTimers(DeleteTimers(db, ids), cutoff) == ExpiredTimers(db, cutoff) - ids
    ensures ExpiredTimers(db, cutoff) <= db.actions.Keys
  {
    hide TimerExpired;
  }

  lemma TimersCount(db: DB, ids: set<nat>)
    requires ids <= db.actions.Keys
    ensures |DeleteTimers(db, ids).actions| + |ids| == |db.actions|
  {
    var left := DeleteTimers(db, ids).actions.Keys;
    assert left + ids == db.actions.Keys && left !! ids;
    assert |left + ids| == |left| + |ids|;
  }

  /** The timer purge removes exactly the timers settled before the cutoff. */
  lemma PurgedTimersAre(db: DB, cutoff: Time, k: nat)
    requires k in db.actions
    ensures var after := DeleteTimers(db, ExpiredTimers(db, cutoff));
            && after == db.(actions := after.actions)
            && (k !in after.actions
                <==> (db.actions[k].status == Done || db.actions[k].status == Cancelled)
                     && db.actions[k].processedAt.Some? && db.actions[k].processedAt.value < cutoff)
            && (k in after.actions ==> after.actions[k] == db.actions[k])
  {
  }

  // ---- events ----

  lemma AboutRowsGo(db: DB, ids: set<nat>)
    requires RowsOk(db)
    ensures RowsOk(DeleteRows(db, RowsAbout(db, ids)))
    ensures RowsGo(db, DeleteRows(db, RowsAbout(db, ids)))
    ensures DeleteRows(db, RowsAbout(db, ids)).outbox.Keys == db.outbox.Keys - RowsAbout(db, ids)
  {
    forall r | r in RowsAbout(db, ids) ensures !db.outbox[r].isDigest { assert Shaped(db.outbox[r]); }
    RemovingOrdinaryRows(db, RowsAbout(db, ids));
    RowsGoKeepsRows(db, DeleteRows(db, RowsAbout(db, ids)));
    hide Shaped;
  }

  lemma PurgeEventsKeepsRows(db: DB, ids: set<nat>)
    requires RowsOk(db)
    ensures RowsOk(PurgeEvents(db, ids))
  {
    hide DeleteRows;
    AboutRowsGo(db, ids);
    var rows, after := DeleteRows(db, RowsAbout(db, ids)), PurgeEvents(db, ids);
    assert after.outbox == rows.outbox && after.channels == rows.channels;
    forall r | r in after.outbox ensures Shaped(after.outbox[r]) && Linked(after, after.outbox[r]) {
      assert Linked(rows, rows.outbox[r]);
    }
  }

  /** What an event purge leaves, table by table. */
  lemma PurgeEventsLeaves(db: DB, ids: set<nat>)
    requires RowsOk(db)
    ensures var after := PurgeEvents(db, ids);
            && after == db.(outbox := after.outbox, events := db.events - ids, actions := after.actions)
            && after.outbox == db.outbox - RowsAbout(db, ids)
            && after.actions == db.actions - TimersAbout(db, ids)
  {
    AboutRowsGo(db, ids);
    hide RowsOk;
    var rows := DeleteRows(db, RowsAbout(db, ids));
    assert rows.outbox == db.outbox - RowsAbout(db, ids);
    assert DeleteEvents(rows, ids).events == db.events - ids;
    assert DeleteEvents(rows, ids).actions == db.actions - TimersAbout(db, ids);
  }

  function TimersAbout(db: DB, ids: set<nat>): set<nat> {
    set k | k in db.actions && db.actions[k].event.Some? && db.actions[k].event.value in ids
  }

  lemma PurgeEventsTwice(db: DB, first: set<nat>, second: set<nat>)
    requires RowsOk(db)
    ensures PurgeEvents(PurgeEvents(db, first), second) == PurgeEvents(db, first + second)
  {
    hide RowsOk, PurgeEvents;
    var half := PurgeEvents(db, first);
    PurgeEventsKeepsRows(db, first);
    PurgeEventsLeaves(db, first);
    PurgeEventsLeaves(half, second);
    PurgeEventsLeaves(db, first + second);
    assert RowsAbout(half, second) + RowsAbout(db, first) == RowsAbout(db, first + second);
    assert TimersAbout(half, second) + TimersAbout(db, first) == TimersAbout(db, first + second);
    hide RowsAbout, TimersAbout;
    RemovedTwice(db.outbox, RowsAbout(db, first), RowsAbout(half, second));
    RemovedTwice(db.actions, TimersAbout(db, first), TimersAbout(half, second));
    RemovedTwice(db.events, first, second);
  }

  lemma RemovedTwice<V>(m: map<nat, V>, first: set<nat>, second: set<nat>)
    ensures (m - first) - second == m - (second + first) == m - (first + second)
  {
  }

  lemma ExpiredEventsShrink(db: DB, ids: set<nat>, resolvedCutoff: Time, testCutoff: Time)
    requires RowsOk(db)
    ensures ExpiredEvents(PurgeEvents(db, ids), resolvedCutoff, testCutoff)
            == ExpiredEvents(db, resolvedCutoff, testCutoff) - ids
  {
    hide PurgeEvents, EventExpired, RowsOk;
    PurgeEventsLeaves(db, ids);
  }

  lemma EventsCount(db: DB, ids: set<nat>)
    requires RowsOk(db) && ids <= db.events.Keys
    ensures |PurgeEvents(db, ids).events| + |ids| == |db.events|
  {
    hide PurgeEvents, RowsOk;
    PurgeEventsLeaves(db, ids);
    var left := PurgeEvents(db, ids).events.Keys;
    assert left + ids == db.events.Keys && left !! ids;
    assert |left + ids| == |left| + |ids|;
  }

  /**
   The whole event purge: a firing event that is not a test survives whatever the cutoffs, an event goes exactly
   when it expired, and no row, timer or link is left pointing at something that is gone.
   */
  lemma PurgedEventsAre(db: DB, resolvedCutoff: Time, testCutoff: Time, e: nat)
    requires RowsOk(db) && e in db.events
    ensures var after := PurgeEvents(db, ExpiredEvents(db, resolvedCutoff, testCutoff));
            && (e !in after.events
                <==> if db.events[e].isTest then db.events[e].lastReceivedAt < testCutoff
                     else db.events[e].status == Resolved && db.events[e].lastReceivedAt < resolvedCutoff)
            && (e in after.events ==> after.events[e] == db.events[e])
            && (forall r :: r in after.outbox && after.outbox[r].event == Some(e) ==> e in after.events)
            && (forall k :: k in after.actions && after.actions[k].event == Some(e) ==> e in after.events)
            && (forall r :: r in after.outbox && after.outbox[r].digestedInto.Some? ==>
                  after.outbox[r].digestedInto.value in after.outbox)
            && (forall r :: r in db.outbox && r !in after.outbox ==>
                  db.outbox[r].event.Some? && db.outbox[r].event.value in db.events
                  && db.outbox[r].event.value !in after.events)
  {
    hide DeleteRows, RowsOk;
    AboutRowsGo(db, ExpiredEvents(db, resolvedCutoff, testCutoff));
  }
}
