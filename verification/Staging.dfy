/** routing.py: staging one outbox row under storm control, and the timers staging leaves behind. */
module Staging {
  import opened Prelude
  import opened Model

  const DIGEST_RATE_WINDOW: int := HOUR

  /** A failed staging is an exception: two waiting timers where the lookup tolerates at most one. */
  datatype Staged = Inserted | Duplicate | Failed

  /** Rows that count toward a channel's rate: any status, aggregates excluded. */
  function RecentRows(db: DB, c: nat, since: Time): set<nat> {
    set r | r in db.outbox && db.outbox[r].channel == c && !db.outbox[r].isDigest && db.outbox[r].createdAt >= since
  }

  predicate NeedsParking(db: DB, c: nat, now: Time)
    requires c in db.channels
  {
    var ch := db.channels[c];
    || ch.digestMode.Always?
    || (ch.digestMode.Auto? && ch.rateLimit.Some? && ch.rateLimit.value != 0
        && |RecentRows(db, c, now - DIGEST_RATE_WINDOW)| >= ch.rateLimit.value)
  }

  /** The unique key (event, channel, trigger); rows without an event are outside it. */
  predicate HasKey(row: OutboxRow, event: nat, c: nat, trigger: Trigger) {
    row.event == Some(event) && row.channel == c && row.trigger == trigger
  }

  predicate KeyTaken(db: DB, event: nat, c: nat, trigger: Trigger) {
    exists r :: r in db.outbox && HasKey(db.outbox[r], event, c, trigger)
  }

  predicate IsFlush(a: ScheduledAction, c: nat) {
    a.kind.DigestFlush? && a.channel == Some(c)
  }

  predicate IsFollowUp(a: ScheduledAction, kind: ActionKind, event: nat, rule: nat) {
    a.kind == kind && a.event == Some(event) && a.rule == Some(rule)
  }

  function WaitingFlushes(db: DB, c: nat): set<nat> {
    set k | k in db.actions && IsFlush(db.actions[k], c) && db.actions[k].status.Waiting?
  }

  function WaitingFollowUps(db: DB, kind: ActionKind, event: nat, rule: nat): set<nat> {
    set k | k in db.actions && IsFollowUp(db.actions[k], kind, event, rule) && db.actions[k].status.Waiting?
  }

  function AddAction(db: DB, a: ScheduledAction): DB {
    db.(actions := db.actions[db.nextAction := a], nextAction := db.nextAction + 1)
  }

  function AddRow(db: DB, row: OutboxRow): DB {
    db.(outbox := db.outbox[db.nextRow := row], nextRow := db.nextRow + 1)
  }

  function FlushTimer(db: DB, c: nat, now: Time): ScheduledAction
    requires c in db.channels
  {
    ScheduledAction(DigestFlush, None, None, Some(c), now + db.channels[c].digestWindowMinutes * MINUTE, Waiting, None)
  }

  function FollowUpTimer(kind: ActionKind, event: nat, rule: nat, dueAt: Time): ScheduledAction {
    ScheduledAction(kind, Some(event), Some(rule), None, dueAt, Waiting, None)
  }

  /** _ensure_digest_flush_scheduled: the flag is false when the lookup raises. */
  function EnsureFlush(db: DB, c: nat, now: Time): (DB, bool)
    requires c in db.channels
  {
    var waiting := WaitingFlushes(db, c);
    if |waiting| >= 2 then (db, false)
    else if waiting != {} then (db, true)
    else (AddAction(db, FlushTimer(db, c, now)), true)
  }

  /** The lookup-then-insert shared by escalation and renotify scheduling. */
  function EnsureFollowUp(db: DB, kind: ActionKind, event: nat, rule: nat, dueAt: Time): (DB, bool) {
    var waiting := WaitingFollowUps(db, kind, event, rule);
    if |waiting| >= 2 then (db, false)
    else if waiting != {} then (db, true)
    else (AddAction(db, FollowUpTimer(kind, event, rule, dueAt)), true)
  }

  function FreshRow(event: Option<nat>, rule: Option<nat>, c: nat, trigger: Trigger, note: Note, status: RowStatus,
                    now: Time)
    : OutboxRow
  {
    OutboxRow(event, rule, c, trigger, Single(note), status, 0, false, None, now, None, None, now, None)
  }

  /** stage_outbox_row. A failure leaves the row in: the savepoint around it has already been released. */
  function StageRow(db: DB, event: nat, rule: Option<nat>, c: nat, trigger: Trigger, note: Note, now: Time)
    : (DB, Staged)
    requires c in db.channels
  {
    var parked := NeedsParking(db, c, now);
    if KeyTaken(db, event, c, trigger) then (db, Duplicate)
    else
      var added := AddRow(db, FreshRow(Some(event), rule, c, trigger, note, if parked then Digested else Pending, now));
      if !parked then (added, Inserted)
      else
        var (ensured, ok) := EnsureFlush(added, c, now);
        (ensured, if ok then Inserted else Failed)
  }

  /** One row per channel, in order, up to the first failure. */
  function StageAll(db: DB, event: nat, rule: Option<nat>, cs: seq<nat>, trigger: Trigger, note: Note, now: Time)
    : (r: (DB, bool))
    requires forall c :: c in cs ==> c in db.channels
    ensures r.0.channels == db.channels && r.0.rules == db.rules && r.0.events == db.events
  {
    if cs == [] then (db, true)
    else
      var (before, ok) := StageAll(db, event, rule, cs[..|cs| - 1], trigger, note, now);
      if !ok then (before, false)
      else
        var (after, staged) := StageRow(before, event, rule, cs[|cs| - 1], trigger, note, now);
        (after, !staged.Failed?)
  }

  // ---- what staging does ----

  /** The keys already notified for. */
  function Keys(db: DB): set<(nat, nat, Trigger)> {
    set r | r in db.outbox && db.outbox[r].event.Some? ::
      (db.outbox[r].event.value, db.outbox[r].channel, db.outbox[r].trigger)
  }

  lemma KeysAre(db: DB, event: nat, c: nat, trigger: Trigger)
    ensures (event, c, trigger) in Keys(db) <==> KeyTaken(db, event, c, trigger)
  {
    if KeyTaken(db, event, c, trigger) {
      var r :| r in db.outbox && HasKey(db.outbox[r], event, c, trigger);
      assert (db.outbox[r].event.value, db.outbox[r].channel, db.outbox[r].trigger) in Keys(db);
    }
  }

  lemma StageRowAddsKey(db: DB, event: nat, rule: Option<nat>, c: nat, trigger: Trigger, note: Note, now: Time)
    requires c in db.channels && db.nextRow !in db.outbox
    ensures Keys(StageRow(db, event, rule, c, trigger, note, now).0) == Keys(db) + {(event, c, trigger)}
  {
    var after := StageRow(db, event, rule, c, trigger, note, now).0;
    KeysAre(db, event, c, trigger);
    if !KeyTaken(db, event, c, trigger) {
      assert after.outbox[db.nextRow].event == Some(event);
      forall key ensures key in Keys(after) <==> key in Keys(db) + {(event, c, trigger)} {
        if key in Keys(db) {
          var r :| r in db.outbox && db.outbox[r].event.Some?
            && key == (db.outbox[r].event.value, db.outbox[r].channel, db.outbox[r].trigger);
          assert r in after.outbox && after.outbox[r] == db.outbox[r];
        }
      }
    }
  }

  predicate FreshIds(db: DB) {
    && (forall r :: r in db.outbox ==> r < db.nextRow)
    && (forall k :: k in db.actions ==> k < db.nextAction)
  }

  function KeysFor(event: nat, cs: seq<nat>, trigger: Trigger): set<(nat, nat, Trigger)> {
    set c | c in cs :: (event, c, trigger)
  }

  lemma StageRowKeepsIds(db: DB, event: nat, rule: Option<nat>, c: nat, trigger: Trigger, note: Note, now: Time)
    requires FreshIds(db) && c in db.channels
    ensures var after := StageRow(db, event, rule, c, trigger, note, now).0;
            FreshIds(after) && Keys(after) == Keys(db) + {(event, c, trigger)}
  {
    hide NeedsParking, Keys;
    StageRowAddsKey(db, event, rule, c, trigger, note, now);
  }

  lemma StageAllUnfolds(db: DB, event: nat, rule: Option<nat>, front: seq<nat>, last: nat, trigger: Trigger,
                        note: Note, now: Time)
    requires last in db.channels && forall c :: c in front ==> c in db.channels
    ensures var (before, ok) := StageAll(db, event, rule, front, trigger, note, now);
            StageAll(db, event, rule, front + [last], trigger, note, now)
            == if !ok then (before, false)
               else (StageRow(before, event, rule, last, trigger, note, now).0,
                     !StageRow(before, event, rule, last, trigger, note, now).1.Failed?)
  {
    hide StageRow;
    assert (front + [last])[..|front|] == front;
  }

  /** Staging for many channels adds exactly their keys; staging that stops early adds those it reached. */
  lemma {:induction false} StageAllAddsKeys(db: DB, event: nat, rule: Option<nat>, cs: seq<nat>, trigger: Trigger,
                                            note: Note, now: Time)
    requires FreshIds(db) && forall c :: c in cs ==> c in db.channels
    ensures FreshIds(StageAll(db, event, rule, cs, trigger, note, now).0)
    ensures var (after, ok) := StageAll(db, event, rule, cs, trigger, note, now);
            && Keys(db) <= Keys(after) <= Keys(db) + KeysFor(event, cs, trigger)
            && (ok ==> Keys(after) == Keys(db) + KeysFor(event, cs, trigger))
  {
    if cs == [] {
      assert KeysFor(event, cs, trigger) == {};
    } else {
      hide StageAll, StageRow, Keys, FreshIds;
      var front, last := cs[..|cs| - 1], cs[|cs| - 1];
      assert cs == front + [last];
      StageAllAddsKeys(db, event, rule, front, trigger, note, now);
      StageAllUnfolds(db, event, rule, front, last, trigger, note, now);
      var (before, ok) := StageAll(db, event, rule, front, trigger, note, now);
      assert KeysFor(event, cs, trigger) == KeysFor(event, front, trigger) + {(event, last, trigger)};
      hide KeysFor;
      if ok { StageRowKeepsIds(before, event, rule, last, trigger, note, now); }
    }
  }

  /** Staging raises: the notification is new and must be parked, but two flush timers already wait. */
  predicate StagingBlocked(db: DB, event: nat, c: nat, trigger: Trigger, now: Time)
    requires c in db.channels
  {
    !KeyTaken(db, event, c, trigger) && NeedsParking(db, c, now) && |WaitingFlushes(db, c)| >= 2
  }

  /** When the lookup cannot raise, staging either inserts the row or finds its key taken. */
  lemma StagingFailsExactlyWhen(db: DB, event: nat, rule: Option<nat>, c: nat, trigger: Trigger, note: Note, now: Time)
    requires c in db.channels
    ensures StageRow(db, event, rule, c, trigger, note, now).1.Failed? <==> StagingBlocked(db, event, c, trigger, now)
  {
    var added := AddRow(db, FreshRow(Some(event), rule, c, trigger, note, Digested, now));
    assert WaitingFlushes(added, c) == WaitingFlushes(db, c);
  }

  lemma AddRowLeavesOthers(db: DB, row: OutboxRow, event: nat, c: nat, trigger: Trigger, now: Time)
    requires FreshIds(db) && c in db.channels && row.channel != c
    ensures StagingBlocked(AddRow(db, row), event, c, trigger, now) <==> StagingBlocked(db, event, c, trigger, now)
  {
    var after := AddRow(db, row);
    assert RecentRows(after, c, now - DIGEST_RATE_WINDOW) == RecentRows(db, c, now - DIGEST_RATE_WINDOW);
    assert WaitingFlushes(after, c) == WaitingFlushes(db, c);
    assert KeyTaken(after, event, c, trigger) <==> KeyTaken(db, event, c, trigger) by {
      if r :| r in db.outbox && HasKey(db.outbox[r], event, c, trigger) {
        assert r in after.outbox && after.outbox[r] == db.outbox[r];
      }
    }
  }

  lemma EnsureFlushLeavesOthers(db: DB, d: nat, event: nat, c: nat, trigger: Trigger, now: Time)
    requires FreshIds(db) && c in db.channels && d in db.channels && c != d
    ensures var after := EnsureFlush(db, d, now).0;
            StagingBlocked(after, event, c, trigger, now) <==> StagingBlocked(db, event, c, trigger, now)
  {
    var after := EnsureFlush(db, d, now).0;
    assert WaitingFlushes(after, c) == WaitingFlushes(db, c);
    assert RecentRows(after, c, now - DIGEST_RATE_WINDOW) == RecentRows(db, c, now - DIGEST_RATE_WINDOW);
  }

  /** Staging for one channel decides nothing about another. */
  lemma StageRowLeavesOthers(db: DB, event: nat, rule: Option<nat>, d: nat, trigger: Trigger, note: Note, now: Time,
                             c: nat)
    requires FreshIds(db) && c in db.channels && d in db.channels && c != d
    ensures var after := StageRow(db, event, rule, d, trigger, note, now).0;
            StagingBlocked(after, event, c, trigger, now) <==> StagingBlocked(db, event, c, trigger, now)
  {
    hide StagingBlocked, NeedsParking, KeyTaken, EnsureFlush;
    var parked := NeedsParking(db, d, now);
    var row := FreshRow(Some(event), rule, d, trigger, note, if parked then Digested else Pending, now);
    AddRowLeavesOthers(db, row, event, c, trigger, now);
    EnsureFlushLeavesOthers(AddRow(db, row), d, event, c, trigger, now);
  }

  lemma {:induction false} StageAllLeavesOthers(db: DB, event: nat, rule: Option<nat>, cs: seq<nat>, trigger: Trigger,
                                                note: Note, now: Time, c: nat)
    requires FreshIds(db) && (forall d :: d in cs ==> d in db.channels) && c in db.channels && c !in cs
    ensures var after := StageAll(db, event, rule, cs, trigger, note, now).0;
            StagingBlocked(after, event, c, trigger, now) <==> StagingBlocked(db, event, c, trigger, now)
  {
    hide StageRow, StagingBlocked;
    if cs != [] {
      var front, d := cs[..|cs| - 1], cs[|cs| - 1];
      StageAllLeavesOthers(db, event, rule, front, trigger, note, now, c);
      StageAllAddsKeys(db, event, rule, front, trigger, note, now);
      var (before, ok) := StageAll(db, event, rule, front, trigger, note, now);
      if ok { StageRowLeavesOthers(before, event, rule, d, trigger, note, now, c); }
    }
  }

  /** Staging for many channels raises exactly when it would for one of them alone. */
  lemma {:induction false} StageAllFailsExactlyWhen(db: DB, event: nat, rule: Option<nat>, cs: seq<nat>,
                                                    trigger: Trigger, note: Note, now: Time)
    requires FreshIds(db) && forall c :: c in cs ==> c in db.channels
    ensures !StageAll(db, event, rule, cs, trigger, note, now).1
            <==> exists c :: c in cs && StagingBlocked(db, event, c, trigger, now)
  {
    if cs != [] {
      hide StageAll, StageRow;
      var front, last := cs[..|cs| - 1], cs[|cs| - 1];
      assert cs == front + [last];
      StageAllFailsExactlyWhen(db, event, rule, front, trigger, note, now);
      StageAllUnfolds(db, event, rule, front, last, trigger, note, now);
      StageAllAddsKeys(db, event, rule, front, trigger, note, now);
      var (before, ok) := StageAll(db, event, rule, front, trigger, note, now);
      StagingFailsExactlyWhen(before, event, rule, last, trigger, note, now);
      if last in front {
        assert ok ==> (event, last, trigger) in Keys(before);
        KeysAre(before, event, last, trigger);
      } else {
        StageAllLeavesOthers(db, event, rule, front, trigger, note, now, last);
      }
      hide StagingBlocked, Keys, FreshIds;
    }
  }

  /** Parking looks only at when a channel's ordinary rows were created, not at what became of them. */
  lemma ParkingDependsOnlyOnCreation(a: DB, b: DB, c: nat, now: Time)
    requires c in a.channels && c in b.channels && a.channels[c] == b.channels[c]
    requires forall r :: (r in a.outbox && a.outbox[r].channel == c && !a.outbox[r].isDigest)
                         <==> (r in b.outbox && b.outbox[r].channel == c && !b.outbox[r].isDigest)
    requires forall r :: r in a.outbox && r in b.outbox && a.outbox[r].channel == c && !a.outbox[r].isDigest ==>
                           a.outbox[r].createdAt == b.outbox[r].createdAt
    ensures NeedsParking(a, c, now) == NeedsParking(b, c, now)
  {
    assert RecentRows(a, c, now - DIGEST_RATE_WINDOW) == RecentRows(b, c, now - DIGEST_RATE_WINDOW);
  }
}
