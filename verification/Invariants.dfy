/** What every step of the notification engine keeps true of its tables. */
module Invariants {
  import opened Prelude
  import opened Model
  import opened Staging
  import opened Dispatch
  import opened Delivery
  import opened Retention

  /** An ordinary row holds one notification; only an aggregate holds many, and only an ordinary row is parked. */
  predicate Shaped(row: OutboxRow) {
    && (row.isDigest ==> row.event.None? && row.payload.Batch? && !row.status.Digested? && row.digestedInto.None?)
    && (!row.isDigest ==> row.payload.Single?)
    && (row.status.Digested? ==> row.event.Some?)
  }

  /** A linked row is still parked, and points at an aggregate of its own channel. */
  predicate Linked(db: DB, row: OutboxRow) {
    row.digestedInto.Some? ==>
      && row.status.Digested? && row.digestedInto.value in db.outbox
      && db.outbox[row.digestedInto.value].isDigest && db.outbox[row.digestedInto.value].channel == row.channel
  }

  predicate RowsOk(db: DB) {
    forall r :: r in db.outbox ==>
      Shaped(db.outbox[r]) && Linked(db, db.outbox[r]) && db.outbox[r].channel in db.channels
  }

  predicate SameKey(a: OutboxRow, b: OutboxRow) {
    a.event.Some? && a.event == b.event && a.channel == b.channel && a.trigger == b.trigger
  }

  predicate UniqueKeys(db: DB) {
    forall r, q :: r in db.outbox && q in db.outbox && SameKey(db.outbox[r], db.outbox[q]) ==> r == q
  }

  /** A flush timer belongs to no event. */
  predicate TimersOk(db: DB) {
    forall k :: k in db.actions && db.actions[k].kind.DigestFlush? ==> db.actions[k].event.None?
  }

  predicate WillFlush(a: ScheduledAction, c: nat) {
    IsFlush(a, c) && (a.status.Waiting? || a.status.Claimed?)
  }

  ghost predicate FlushComing(db: DB, c: nat) {
    exists k :: k in db.actions && WillFlush(db.actions[k], c)
  }

  /** No parked row is stranded: while its channel lives, a flush timer for it is waiting or in flight. */
  ghost predicate NoneStranded(db: DB) {
    forall r :: r in db.outbox && AwaitsFlush(db.outbox[r], db.outbox[r].channel)
      && LiveChannel(db.channels, db.outbox[r].channel)
      ==> FlushComing(db, db.outbox[r].channel)
  }

  /** `sources` lists the rows aggregate `a` was made from; those still in the table are linked to it, and no others. */
  ghost predicate MadeFrom(db: DB, a: nat, sources: seq<nat>)
    requires a in db.outbox && db.outbox[a].payload.Batch?
  {
    var notes := db.outbox[a].payload.notes;
    && |sources| == |notes| >= 2 && db.outbox[a].payload.count == |notes|
    && (forall i, j :: 0 <= i < j < |sources| ==> sources[i] != sources[j])
    && (forall i :: 0 <= i < |sources| ==> sources[i] < db.nextRow)
    && (forall i :: 0 <= i < |sources| && sources[i] in db.outbox ==>
          db.outbox[sources[i]].digestedInto == Some(a) && db.outbox[sources[i]].payload == Single(notes[i]))
    && (forall r :: r in db.outbox && db.outbox[r].digestedInto == Some(a) ==> r in sources)
  }

  /** Every aggregate carries exactly the notifications of the rows linked into it, each once. */
  ghost predicate BatchesOk(db: DB) {
    forall a :: a in db.outbox && db.outbox[a].isDigest ==>
      db.outbox[a].payload.Batch? && exists sources :: MadeFrom(db, a, sources)
  }

  ghost predicate OutboxInv(db: DB) {
    FreshIds(db) && RowsOk(db) && UniqueKeys(db) && BatchesOk(db)
  }

  ghost predicate Inv(db: DB) {
    OutboxInv(db) && TimersOk(db) && NoneStranded(db)
  }

  lemma InvIds(db: DB)
    requires Inv(db)
    ensures FreshIds(db) && RowsOk(db)
  {
  }

  // ---- how the outbox may change ----

  predicate SameIdentity(a: OutboxRow, b: OutboxRow) {
    && a.event == b.event && a.channel == b.channel && a.trigger == b.trigger
    && a.payload == b.payload && a.isDigest == b.isDigest && a.createdAt == b.createdAt
  }

  /** A surviving row keeps its identity; its link is only ever set, and only to an aggregate made in this step. */
  ghost predicate Evolves(before: DB, after: DB) {
    && before.nextRow <= after.nextRow
    && (forall r :: r in after.outbox && r in before.outbox ==>
          && SameIdentity(before.outbox[r], after.outbox[r])
          && (after.outbox[r].digestedInto == before.outbox[r].digestedInto
              || (before.outbox[r].digestedInto.None? && after.outbox[r].digestedInto.Some?
                  && after.outbox[r].digestedInto.value >= before.nextRow)))
    && (forall r :: r in after.outbox && r !in before.outbox ==>
          before.nextRow <= r && after.outbox[r].digestedInto.None?)
  }

  lemma EvolvingKeepsBatch(before: DB, after: DB, a: nat)
    requires FreshIds(before) && Evolves(before, after)
    requires a in before.outbox && a in after.outbox && before.outbox[a].payload.Batch?
    requires exists sources :: MadeFrom(before, a, sources)
    ensures after.outbox[a].payload.Batch? && exists sources :: MadeFrom(after, a, sources)
  {
    var sources :| MadeFrom(before, a, sources);
    forall i | 0 <= i < |sources| && sources[i] in after.outbox
      ensures after.outbox[sources[i]].digestedInto == Some(a)
              && after.outbox[sources[i]].payload == Single(before.outbox[a].payload.notes[i])
    {
      assert sources[i] in before.outbox;
    }
    assert MadeFrom(after, a, sources);
  }

  lemma EvolvingKeepsBatches(before: DB, after: DB)
    requires FreshIds(before) && BatchesOk(before) && Evolves(before, after)
    requires forall a :: a in after.outbox && after.outbox[a].isDigest ==> a in before.outbox
    ensures BatchesOk(after)
  {
    forall a | a in after.outbox && after.outbox[a].isDigest
      ensures after.outbox[a].payload.Batch? && exists sources :: MadeFrom(after, a, sources)
    {
      EvolvingKeepsBatch(before, after, a);
    }
  }

  // ---- staging ----

  /** A new ordinary row under a free key keeps the outbox in order. */
  lemma AddRowKeepsOutbox(db: DB, row: OutboxRow)
    requires OutboxInv(db) && row.channel in db.channels
    requires !row.isDigest && row.payload.Single? && row.digestedInto.None?
             && (row.status.Digested? ==> row.event.Some?)
    requires row.event.Some? ==> !KeyTaken(db, row.event.value, row.channel, row.trigger)
    ensures OutboxInv(AddRow(db, row)) && Evolves(db, AddRow(db, row))
  {
    EvolvingKeepsBatches(db, AddRow(db, row));
  }

  /** The outbox part of the invariant does not look at timers. */
  lemma OutboxFrame(before: DB, after: DB)
    requires OutboxInv(before) && FreshIds(after)
    requires after.outbox == before.outbox && after.channels == before.channels && after.nextRow == before.nextRow
    ensures OutboxInv(after)
  {
    EvolvingKeepsBatches(before, after);
  }

  /** Rows keep identity and link; none becomes parked, and none that is linked leaves the parked state. */
  ghost predicate OutboxTurn(before: DB, after: DB) {
    && after.outbox.Keys == before.outbox.Keys && after.channels == before.channels && after.nextRow == before.nextRow
    && FreshIds(after)
    && (forall r :: r in before.outbox ==>
          && SameIdentity(before.outbox[r], after.outbox[r])
          && after.outbox[r].digestedInto == before.outbox[r].digestedInto
          && (after.outbox[r].status.Digested? ==> before.outbox[r].status.Digested?)
          && (before.outbox[r].digestedInto.Some? && before.outbox[r].status.Digested?
              ==> after.outbox[r].status.Digested?))
  }

  lemma OutboxTurnKeeps(before: DB, after: DB)
    requires OutboxInv(before) && OutboxTurn(before, after)
    ensures OutboxInv(after)
  {
    hide BatchesOk, UniqueKeys, RowsOk, Evolves;
    OutboxTurnEvolves(before, after);
    EvolvingKeepsBatches(before, after);
    OutboxTurnKeepsKeys(before, after);
    OutboxTurnKeepsRows(before, after);
  }

  lemma OutboxTurnEvolves(before: DB, after: DB)
    requires OutboxTurn(before, after)
    ensures Evolves(before, after)
    ensures forall a :: a in after.outbox && after.outbox[a].isDigest ==> a in before.outbox
  {
  }

  lemma OutboxTurnKeepsRows(before: DB, after: DB)
    requires RowsOk(before) && OutboxTurn(before, after)
    ensures RowsOk(after)
  {
    forall r | r in after.outbox
      ensures Shaped(after.outbox[r]) && Linked(after, after.outbox[r]) && after.outbox[r].channel in after.channels
    {
      assert Shaped(before.outbox[r]) && Linked(before, before.outbox[r]);
    }
  }

  lemma OutboxTurnKeepsKeys(before: DB, after: DB)
    requires UniqueKeys(before) && OutboxTurn(before, after)
    ensures UniqueKeys(after)
  {
  }

  /** Timers only ever added: flushes that were coming still are. */
  lemma StrandedFrame(before: DB, after: DB)
    requires forall k :: k in before.actions ==> k in after.actions && after.actions[k] == before.actions[k]
    ensures forall c :: FlushComing(before, c) ==> FlushComing(after, c)
  {
    forall c | FlushComing(before, c) ensures FlushComing(after, c) {
      var k :| k in before.actions && WillFlush(before.actions[k], c);
      assert WillFlush(after.actions[k], c);
    }
  }

  lemma EnsureFlushSchedules(db: DB, c: nat, now: Time)
    requires FreshIds(db) && c in db.channels
    ensures var after := EnsureFlush(db, c, now).0;
            && FlushComing(after, c) && ExtendsTimers(db, after) && (TimersOk(db) ==> TimersOk(after))
            && after.outbox == db.outbox && after.channels == db.channels && after.nextRow == db.nextRow
  {
    var after := EnsureFlush(db, c, now).0;
    if WaitingFlushes(db, c) != {} {
      var k :| k in WaitingFlushes(db, c);
      assert WillFlush(after.actions[k], c);
    } else {
      assert WillFlush(after.actions[db.nextAction], c);
    }
  }

  lemma AddRowFrame(db: DB, row: OutboxRow)
    requires FreshIds(db)
    ensures TimersOk(db) ==> TimersOk(AddRow(db, row))
    ensures forall d :: FlushComing(db, d) ==> FlushComing(AddRow(db, row), d)
    ensures forall d, r :: d != row.channel && r in AddRow(db, row).outbox && AwaitsFlush(AddRow(db, row).outbox[r], d)
                           ==> r in db.outbox
  {
    hide FlushComing;
    StrandedFrame(db, AddRow(db, row));
  }

  lemma QueuedRowStrandsNone(db: DB, row: OutboxRow)
    requires FreshIds(db) && NoneStranded(db) && !row.status.Digested?
    ensures NoneStranded(AddRow(db, row))
  {
    hide FlushComing;
    AddRowFrame(db, row);
  }

  lemma FreshStagingKeeps(db: DB, event: nat, rule: Option<nat>, c: nat, trigger: Trigger, note: Note, now: Time)
    requires Inv(db) && c in db.channels && !KeyTaken(db, event, c, trigger)
    ensures var status := if NeedsParking(db, c, now) then Digested else Pending;
            var added := AddRow(db, FreshRow(Some(event), rule, c, trigger, note, status, now));
            && OutboxInv(added) && Evolves(db, added) && TimersOk(added)
            && (forall d :: FlushComing(db, d) ==> FlushComing(added, d))
            && (NeedsParking(db, c, now) || NoneStranded(added))
            && (forall d, r :: d != c && r in added.outbox && AwaitsFlush(added.outbox[r], d) ==> r in db.outbox)
  {
    InvIds(db);
    hide OutboxInv, NeedsParking, KeyTaken, Evolves, FreshIds, NoneStranded, TimersOk, FlushComing;
    var status := if NeedsParking(db, c, now) then Digested else Pending;
    var row := FreshRow(Some(event), rule, c, trigger, note, status, now);
    AddRowKeepsOutbox(db, row);
    AddRowFrame(db, row);
    if row.status.Pending? { QueuedRowStrandsNone(db, row); }
  }

  lemma ParkingStrandsNone(db: DB, row: OutboxRow, c: nat, now: Time)
    requires FreshIds(db) && NoneStranded(db) && c in db.channels && row.channel == c
    ensures NoneStranded(EnsureFlush(AddRow(db, row), c, now).0)
  {
    hide EnsureFlush;
    var added := AddRow(db, row);
    EnsureFlushSchedules(added, c, now);
    StrandedFrame(db, EnsureFlush(added, c, now).0);
  }

  lemma StageRowKeeps(db: DB, event: nat, rule: Option<nat>, c: nat, trigger: Trigger, note: Note, now: Time)
    requires Inv(db) && c in db.channels
    ensures Inv(StageRow(db, event, rule, c, trigger, note, now).0)
    ensures Evolves(db, StageRow(db, event, rule, c, trigger, note, now).0)
  {
    if !KeyTaken(db, event, c, trigger) {
      FreshStagingKeeps(db, event, rule, c, trigger, note, now);
      if NeedsParking(db, c, now) {
        var row := FreshRow(Some(event), rule, c, trigger, note, Digested, now);
        var added := AddRow(db, row);
        assert FreshIds(db) && FreshIds(added);
        EnsureFlushSchedules(added, c, now);
        ParkingStrandsNone(db, row, c, now);
        OutboxFrame(added, EnsureFlush(added, c, now).0);
      }
    }
    hide OutboxInv, NeedsParking, KeyTaken, EnsureFlush, NoneStranded, TimersOk;
  }

  lemma {:induction false} StageAllKeeps(db: DB, event: nat, rule: Option<nat>, cs: seq<nat>, trigger: Trigger,
                                         note: Note, now: Time)
    requires Inv(db) && forall c :: c in cs ==> c in db.channels
    ensures Inv(StageAll(db, event, rule, cs, trigger, note, now).0)
  {
    if cs != [] {
      var front := cs[..|cs| - 1];
      StageAllKeeps(db, event, rule, front, trigger, note, now);
      var (before, ok) := StageAll(db, event, rule, front, trigger, note, now);
      if ok { StageRowKeeps(before, event, rule, cs[|cs| - 1], trigger, note, now); }
    }
  }

  lemma EnsureFollowUpKeeps(db: DB, kind: ActionKind, event: nat, rule: nat, dueAt: Time)
    requires Inv(db) && !kind.DigestFlush?
    ensures Inv(EnsureFollowUp(db, kind, event, rule, dueAt).0)
    ensures ExtendsTimers(db, EnsureFollowUp(db, kind, event, rule, dueAt).0)
  {
    var after := EnsureFollowUp(db, kind, event, rule, dueAt).0;
    OutboxFrame(db, after);
    StrandedFrame(db, after);
  }

  // ---- timers ----

  /** Only timers change, and none that was coming for a channel stops coming. */
  ghost predicate TimersTurn(before: DB, after: DB) {
    && after.outbox == before.outbox && after.channels == before.channels
    && after.nextRow == before.nextRow && after.nextAction == before.nextAction
    && after.actions.Keys <= before.actions.Keys
    && (forall c :: FlushComing(before, c) ==> FlushComing(after, c))
  }

  lemma TimersTurnKeeps(before: DB, after: DB)
    requires Inv(before) && TimersTurn(before, after) && TimersOk(after)
    ensures Inv(after)
  {
    OutboxFrame(before, after);
  }

  lemma ClaimTimersKeeps(db: DB, claimed: seq<Key>, now: Time)
    requires Inv(db) && forall key :: key in claimed ==> key in DueTimers(db, now)
    ensures Inv(ClaimTimers(db, claimed, now))
  {
    var after := ClaimTimers(db, claimed, now);
    forall k | k in db.actions && (db.actions[k].dueAt, k) in claimed ensures db.actions[k].status.Waiting? {
      assert (db.actions[k].dueAt, k) in DueTimers(db, now);
    }
    forall c | FlushComing(db, c) ensures FlushComing(after, c) {
      var k :| k in db.actions && WillFlush(db.actions[k], c);
      assert WillFlush(after.actions[k], c);
    }
    TimersTurnKeeps(db, after);
  }

  lemma RecoverTimersKeeps(db: DB, cutoff: Time)
    requires Inv(db)
    ensures Inv(RecoverTimers(db, cutoff))
  {
    var after := RecoverTimers(db, cutoff);
    forall c | FlushComing(db, c) ensures FlushComing(after, c) {
      var k :| k in db.actions && WillFlush(db.actions[k], c);
      assert WillFlush(after.actions[k], c);
    }
    TimersTurnKeeps(db, after);
  }

  /** Cancelling an event's timers never touches a flush timer: those carry no event. */
  lemma CancelPendingKeeps(db: DB, event: nat, now: Time)
    requires Inv(db)
    ensures Inv(CancelPending(db, event, now))
    ensures forall k :: k in db.actions && db.actions[k].kind.DigestFlush? ==>
                          CancelPending(db, event, now).actions[k] == db.actions[k]
  {
    var after := CancelPending(db, event, now);
    forall c | FlushComing(db, c) ensures FlushComing(after, c) {
      var k :| k in db.actions && WillFlush(db.actions[k], c);
      assert WillFlush(after.actions[k], c);
    }
    TimersTurnKeeps(db, after);
  }

  lemma DeleteTimersKeeps(db: DB, ids: set<nat>, cutoff: Time)
    requires Inv(db) && ids <= ExpiredTimers(db, cutoff)
    ensures Inv(DeleteTimers(db, ids))
  {
    var after := DeleteTimers(db, ids);
    forall c | FlushComing(db, c) ensures FlushComing(after, c) {
      var k :| k in db.actions && WillFlush(db.actions[k], c);
      assert WillFlush(after.actions[k], c);
    }
    TimersTurnKeeps(db, after);
  }

  // ---- dispatch ----

  lemma ParkedDistinct(db: DB, c: nat)
    ensures forall i, j :: 0 <= i < j < |Parked(db, c)| ==> Parked(db, c)[i] != Parked(db, c)[j]
  {
    forall i, j | 0 <= i < j < |Parked(db, c)| ensures Parked(db, c)[i] != Parked(db, c)[j] {
      ParkedInOrder(db, c, i, j);
    }
  }

  function Flushed(db: DB, c: nat, now: Time): DB
    requires |Parked(db, c)| >= 2
  {
    var parked := Parked(db, c);
    var added := AddRow(db, Aggregate(db, c, parked, now));
    added.(outbox := LinkAll(added.outbox, parked, db.nextRow))
  }

  lemma FlushedLinks(db: DB, c: nat, now: Time)
    requires FreshIds(db) && |Parked(db, c)| >= 2
    ensures var after := Flushed(db, c, now);
            && after.outbox.Keys == db.outbox.Keys + {db.nextRow} && after.outbox[db.nextRow].event.None?
            && after.outbox[db.nextRow].status.Pending?
            && (forall r :: r in db.outbox ==>
                  after.outbox[r] == (if AwaitsFlush(db.outbox[r], c)
                                      then db.outbox[r].(digestedInto := Some(db.nextRow)) else db.outbox[r]))
  {
  }

  lemma FlushedEvolves(db: DB, c: nat, now: Time)
    requires FreshIds(db) && RowsOk(db) && |Parked(db, c)| >= 2 && c in db.channels
    ensures Evolves(db, Flushed(db, c, now)) && FreshIds(Flushed(db, c, now)) && RowsOk(Flushed(db, c, now))
  {
    hide Parked, LinkAll;
    FlushedLinks(db, c, now);
    FlushedRow(db, c, now);
    assert Flushed(db, c, now).actions == db.actions && Flushed(db, c, now).nextAction == db.nextAction;
    assert Flushed(db, c, now).channels == db.channels && Flushed(db, c, now).nextRow == db.nextRow + 1;
    hide Flushed;
  }

  lemma FlushedRow(db: DB, c: nat, now: Time)
    requires FreshIds(db) && |Parked(db, c)| >= 2
    ensures db.nextRow in Flushed(db, c, now).outbox
    ensures Flushed(db, c, now).outbox[db.nextRow] == Aggregate(db, c, Parked(db, c), now)
  {
  }

  /** The new aggregate is made from the parked rows, in order, and links them all. */
  lemma FlushedMakesBatch(db: DB, c: nat, now: Time)
    requires FreshIds(db) && RowsOk(db) && |Parked(db, c)| >= 2
    ensures var after := Flushed(db, c, now);
            && db.nextRow in after.outbox && after.outbox[db.nextRow].payload.Batch?
            && MadeFrom(after, db.nextRow, Parked(db, c))
  {
    var after := Flushed(db, c, now);
    var parked := Parked(db, c);
    ParkedDistinct(db, c);
    assert after.outbox[db.nextRow] == Aggregate(db, c, parked, now);
    forall i | 0 <= i < |parked|
      ensures var p: nat := parked[i];
              p in after.outbox && p < after.nextRow
              && after.outbox[p] == db.outbox[p].(digestedInto := Some(db.nextRow))
    {
      assert parked[i] in parked;
    }
    forall r | r in after.outbox && after.outbox[r].digestedInto == Some(db.nextRow) ensures r in parked {
      assert r != db.nextRow;
    }
  }

  lemma FlushedKeepsKeys(db: DB, c: nat, now: Time)
    requires FreshIds(db) && UniqueKeys(db) && |Parked(db, c)| >= 2
    ensures UniqueKeys(Flushed(db, c, now))
  {
    hide Flushed;
    FlushedLinks(db, c, now);
  }

  lemma FlushedStrandsNone(db: DB, c: nat, now: Time)
    requires FreshIds(db) && NoneStranded(db) && |Parked(db, c)| >= 2
    ensures NoneStranded(Flushed(db, c, now))
    ensures forall r :: r in Flushed(db, c, now).outbox ==> !AwaitsFlush(Flushed(db, c, now).outbox[r], c)
  {
    FlushedLinks(db, c, now);
    StrandedFrame(db, Flushed(db, c, now));
  }

  lemma FlushedKeeps(db: DB, c: nat, now: Time)
    requires Inv(db) && |Parked(db, c)| >= 2 && c in db.channels
    ensures Inv(Flushed(db, c, now))
    ensures forall r :: r in Flushed(db, c, now).outbox ==> !AwaitsFlush(Flushed(db, c, now).outbox[r], c)
  {
    hide BatchesOk, UniqueKeys, NoneStranded;
    FlushedEvolves(db, c, now);
    FlushedKeepsBatches(db, c, now);
    FlushedKeepsKeys(db, c, now);
    FlushedStrandsNone(db, c, now);
  }

  lemma FlushedKeepsBatches(db: DB, c: nat, now: Time)
    requires OutboxInv(db) && |Parked(db, c)| >= 2 && c in db.channels
    ensures BatchesOk(Flushed(db, c, now))
  {
    var after := Flushed(db, c, now);
    FlushedEvolves(db, c, now);
    FlushedMakesBatch(db, c, now);
    forall a | a in after.outbox && after.outbox[a].isDigest
      ensures after.outbox[a].payload.Batch? && exists sources :: MadeFrom(after, a, sources)
    {
      if a != db.nextRow { EvolvingKeepsBatch(db, after, a); }
    }
  }

  /** A lone parked row goes back to the ordinary queue. */
  lemma RestoreKeeps(db: DB, c: nat, r: nat)
    requires Inv(db) && Parked(db, c) == [r]
    ensures r in db.outbox
    ensures var after := PutRow(db, r, db.outbox[r].(status := Pending));
            Inv(after) && forall q :: q in after.outbox ==> !AwaitsFlush(after.outbox[q], c)
  {
    hide Parked, OutboxInv;
    assert r in Parked(db, c);
    assert FreshIds(db) by { InvIds(db); }
    var after := PutRow(db, r, db.outbox[r].(status := Pending));
    OutboxTurnKeeps(db, after);
    StrandedFrame(db, after);
    forall q | q in after.outbox ensures !AwaitsFlush(after.outbox[q], c) {
      assert AwaitsFlush(db.outbox[q], c) ==> q in Parked(db, c);
    }
  }

  /** After a flush that completes, nothing is left waiting for one on that channel. */
  lemma FlushEmptiesChannel(db: DB, a: ScheduledAction, now: Time, fault: Fault, c: nat)
    requires Inv(db) && a.channel == Some(c) && DispatchFlush(db, a, now, fault).Completed?
    ensures Inv(DispatchFlush(db, a, now, fault).db)
    ensures Parked(DispatchFlush(db, a, now, fault).db, c) == []
  {
    var after := DispatchFlush(db, a, now, fault).db;
    var parked := Parked(db, c);
    if |parked| == 1 {
      RestoreKeeps(db, c, parked[0]);
    } else if |parked| >= 2 {
      assert after == Flushed(db, c, now);
      FlushedKeeps(db, c, now);
    }
    assert forall id :: id !in Parked(after, c);
  }

  lemma StageUnderKeeps(db: DB, event: nat, rule: nat, cs: seq<nat>, trigger: Trigger, note: Note, now: Time,
                        fault: Fault)
    requires Inv(db) && forall c :: c in cs ==> c in db.channels
    ensures Inv(StageUnder(db, event, rule, cs, trigger, note, now, fault).0)
  {
    StageAllKeeps(db, event, Some(rule), cs, trigger, note, now);
    if fault.After? && fault.staged < |cs| {
      StageAllKeeps(db, event, Some(rule), cs[..fault.staged], trigger, note, now);
    }
  }

  lemma EscalationKeeps(db: DB, a: ScheduledAction, note: Note, now: Time, fault: Fault)
    requires Inv(db)
    ensures var o := DispatchEscalation(db, a, note, now, fault); o.Skipped? || Inv(o.db)
  {
    if a.event.Some? && a.rule.Some? && a.rule.value in db.rules {
      var rule := db.rules[a.rule.value];
      StageUnderKeeps(db, a.event.value, a.rule.value, Allowed(db, rule.team, rule.escalationChannels),
                      OnEscalation, note, now, fault);
    }
  }

  lemma RenotifyKeeps(db: DB, k: nat, a: ScheduledAction, note: Note, now: Time, fault: Fault)
    requires Inv(db)
    ensures var o := DispatchRenotify(db, k, a, note, now, fault); o.Skipped? || Inv(o.db)
  {
    hide Inv;
    if a.event.Some? && a.rule.Some? && a.rule.value in db.rules {
      var event, r := a.event.value, a.rule.value;
      var cs := Live(db, db.rules[r].channels);
      StageUnderKeeps(db, event, r, cs, OnRenotify(k), note, now, fault);
      if db.rules[r].renotifyInterval.Some? {
        EnsureFollowUpKeeps(StageUnder(db, event, r, cs, OnRenotify(k), note, now, fault).0,
                            Renotify, event, r, now + db.rules[r].renotifyInterval.value * MINUTE);
      }
    }
  }

  lemma HandleKeeps(db: DB, k: nat, note: Note, now: Time, fault: Fault)
    requires Inv(db) && k in db.actions
    ensures var o := Handle(db, k, note, now, fault); o.Skipped? || Inv(o.db)
  {
    var a := db.actions[k];
    match a.kind {
      case Escalation => EscalationKeeps(db, a, note, now, fault);
      case Renotify => RenotifyKeeps(db, k, a, note, now, fault);
      case DigestFlush =>
        if DispatchFlush(db, a, now, fault).Completed? { FlushEmptiesChannel(db, a, now, fault, a.channel.value); }
      case UnknownKind =>
    }
  }

  /** Settling one timer strands nobody if it was not a flush, or its channel is gone or has nothing parked. */
  lemma SettleKeeps(db: DB, k: nat, status: ActionStatus, now: Time)
    requires Inv(db) && k in db.actions && (status.Done? || status.Cancelled?)
    requires forall c :: IsFlush(db.actions[k], c) ==> !LiveChannel(db.channels, c) || Parked(db, c) == []
    ensures Inv(Settle(db, k, status, now))
  {
    var after := Settle(db, k, status, now);
    OutboxFrame(db, after);
    forall r | r in after.outbox && AwaitsFlush(after.outbox[r], after.outbox[r].channel)
               && LiveChannel(after.channels, after.outbox[r].channel)
      ensures FlushComing(after, after.outbox[r].channel)
    {
      var c := db.outbox[r].channel;
      assert r in Parked(db, c);
      var q :| q in db.actions && WillFlush(db.actions[q], c);
      assert q != k;
      assert WillFlush(after.actions[q], c);
    }
  }

  lemma DispatchKeeps(db: DB, k: nat, note: Note, now: Time, fault: Fault)
    requires Inv(db) && k in db.actions
    ensures Inv(DispatchTimer(db, k, note, now, fault))
  {
    HandleKeeps(db, k, note, now, fault);
    HandleKeepsTimer(db, k, note, now, fault);
    match Handle(db, k, note, now, fault) {
      case Completed(after) =>
        if db.actions[k].kind.DigestFlush? {
          FlushEmptiesChannel(db, db.actions[k], now, fault, db.actions[k].channel.value);
        }
        SettleKeeps(after, k, Done, now);
      case Skipped =>
        SettleKeeps(db, k, Cancelled, now);
      case Raised(after) =>
        RequeueKeeps(after, k, now);
    }
  }

  lemma RequeueKeeps(db: DB, k: nat, now: Time)
    requires Inv(db) && k in db.actions
    ensures Inv(db.(actions := db.actions[k := db.actions[k].(status := Waiting, dueAt := now + RETRY_BACKOFF)]))
  {
    var after := db.(actions := db.actions[k := db.actions[k].(status := Waiting, dueAt := now + RETRY_BACKOFF)]);
    forall c | FlushComing(db, c) ensures FlushComing(after, c) {
      var q :| q in db.actions && WillFlush(db.actions[q], c);
      assert WillFlush(after.actions[q], c);
    }
    TimersTurnKeeps(db, after);
  }

  // ---- delivery ----

  /** Only unparked rows change, none becomes parked, and every row keeps its identity and link. */
  ghost predicate RowsTurn(before: DB, after: DB) {
    && after == before.(outbox := after.outbox) && after.outbox.Keys == before.outbox.Keys
    && (forall r :: r in before.outbox && after.outbox[r] != before.outbox[r] ==>
          && !before.outbox[r].status.Digested? && !after.outbox[r].status.Digested?
          && SameIdentity(before.outbox[r], after.outbox[r])
          && after.outbox[r].digestedInto == before.outbox[r].digestedInto)
  }

  lemma RowsTurnKeeps(before: DB, after: DB)
    requires Inv(before) && RowsTurn(before, after)
    ensures Inv(after)
  {
    hide OutboxInv, FlushComing;
    InvIds(before);
    assert FreshIds(after);
    assert OutboxTurn(before, after);
    hide RowsOk, FreshIds;
    OutboxTurnKeeps(before, after);
    StrandedFrame(before, after);
  }

  lemma ClaimRowsKeeps(db: DB, claimed: seq<Key>, worker: nat, now: Time)
    requires Inv(db) && forall key :: key in claimed ==> key in DueRows(db, now)
    ensures Inv(ClaimRows(db, claimed, worker, now))
  {
    forall r | r in db.outbox && (db.outbox[r].nextAttemptAt, r) in claimed ensures db.outbox[r].status.Pending? {
      assert (db.outbox[r].nextAttemptAt, r) in DueRows(db, now);
    }
    RowsTurnKeeps(db, ClaimRows(db, claimed, worker, now));
  }

  lemma RecoverLeasesKeeps(db: DB, cutoff: Time)
    requires Inv(db)
    ensures Inv(RecoverLeases(db, cutoff))
  {
    hide Inv;
    RowsTurnKeeps(db, RecoverLeases(db, cutoff));
  }

  lemma PutRowKeeps(db: DB, r: nat, row: OutboxRow)
    requires Inv(db) && r in db.outbox && !db.outbox[r].status.Digested? && !row.status.Digested?
    requires SameIdentity(db.outbox[r], row) && row.digestedInto == db.outbox[r].digestedInto
    ensures Inv(PutRow(db, r, row))
  {
    RowsTurnKeeps(db, PutRow(db, r, row));
  }

  lemma DeliveredKeeps(db: DB, r: nat, now: Time)
    requires Inv(db) && r in db.outbox && !db.outbox[r].status.Digested? && StartsRenotify(db, db.outbox[r])
    ensures Inv(ScheduleRenotify(PutRow(db, r, MarkDelivered(db.outbox[r], now)),
                                 db.outbox[r].event.value, db.outbox[r].rule.value, now).0)
  {
    hide Inv;
    var row := db.outbox[r];
    PutRowKeeps(db, r, MarkDelivered(row, now));
    EnsureFollowUpKeeps(PutRow(db, r, MarkDelivered(row, now)), Renotify, row.event.value, row.rule.value,
                        now + db.rules[row.rule.value].renotifyInterval.value * MINUTE);
  }

  lemma DeliverKeeps(db: DB, r: nat, attempt: Attempt, now: Time)
    requires Inv(db) && r in db.outbox && !db.outbox[r].status.Digested?
    ensures Inv(Deliver(db, r, attempt, now))
  {
    hide Inv;
    var row := db.outbox[r];
    PutRowKeeps(db, r, MarkDead(row));
    PutRowKeeps(db, r, MarkDelivered(row, now));
    if attempt.Fails? { PutRowKeeps(db, r, MarkFailure(row, now, attempt.jitter)); }
    if StartsRenotify(db, row) { DeliveredKeeps(db, r, now); }
  }

  // ---- retention ----

  /** Rows disappear and nothing else happens; a linked row never outlives its aggregate. */
  ghost predicate RowsGo(before: DB, after: DB) {
    && after == before.(outbox := after.outbox) && after.outbox.Keys <= before.outbox.Keys
    && (forall r :: r in after.outbox ==> after.outbox[r] == before.outbox[r])
    && (forall r :: r in after.outbox && after.outbox[r].digestedInto.Some? ==>
          after.outbox[r].digestedInto.value in after.outbox)
  }

  lemma RowsGoKeeps(before: DB, after: DB)
    requires Inv(before) && RowsGo(before, after)
    ensures Inv(after)
  {
    EvolvingKeepsBatches(before, after);
    StrandedFrame(before, after);
  }

  /** Nothing points at an ordinary row, so removing some sets no link to null. */
  lemma RemovingOrdinaryRows(db: DB, ids: set<nat>)
    requires RowsOk(db) && forall r :: r in ids && r in db.outbox ==> !db.outbox[r].isDigest
    ensures RowsGo(db, DeleteRows(db, ids))
  {
  }

  /** The purge takes an aggregate's children along, so no surviving row loses its link. */
  lemma PurgeRowsGo(db: DB, ids: set<nat>)
    requires RowsOk(db)
    ensures RowsGo(db, PurgeRows(db, ids))
    ensures PurgeRows(db, ids).outbox.Keys == db.outbox.Keys - ids - ChildRows(db, ids)
  {
    RemovingOrdinaryRows(db, ChildRows(db, ids));
  }

  lemma PurgeRowsKeeps(db: DB, ids: set<nat>)
    requires Inv(db)
    ensures Inv(PurgeRows(db, ids))
  {
    PurgeRowsGo(db, ids);
    RowsGoKeeps(db, PurgeRows(db, ids));
  }

  lemma PurgeEventsKeeps(db: DB, ids: set<nat>)
    requires Inv(db)
    ensures Inv(PurgeEvents(db, ids))
  {
    var rowsGone := DeleteRows(db, RowsAbout(db, ids));
    RemovingOrdinaryRows(db, RowsAbout(db, ids));
    RowsGoKeeps(db, rowsGone);
    var after := PurgeEvents(db, ids);
    forall c | FlushComing(rowsGone, c) ensures FlushComing(after, c) {
      var k :| k in rowsGone.actions && WillFlush(rowsGone.actions[k], c);
      assert WillFlush(after.actions[k], c);
    }
    TimersTurnKeeps(rowsGone, after);
  }
}
