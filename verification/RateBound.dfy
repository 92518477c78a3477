/** Storm control's promise over whole runs: no hour, wherever it starts, admits more than the limit. */
module RateBound {
  import opened Prelude
  import opened Model
  import opened Staging
  import opened Dispatch
  import opened Delivery
  import opened Retention
  import opened Invariants
  import opened Runs
  import opened Carriers

  /** An ordinary row queued for delivery, as staging inserts it when it does not park. */
  predicate Queued(row: OutboxRow, c: nat) {
    row.channel == c && !row.isDigest && row.status.Pending? && !row.trigger.OnReport?
  }

  /** The rows one step inserted straight into the queue of channel `c`. */
  ghost function Admitted(before: DB, after: DB, c: nat): set<nat> {
    set r | r in after.outbox && r !in before.outbox && Queued(after.outbox[r], c)
  }

  /** Every row admitted to channel `c` during the first `n` steps of a run. */
  ghost function History(dbs: seq<DB>, c: nat, n: nat): set<nat>
    requires n < |dbs|
  {
    if n == 0 then {} else History(dbs, c, n - 1) + Admitted(dbs[n - 1], dbs[n], c)
  }

  /** The surviving rows of `rows` created in the hour that starts at `w`, both ends included. */
  ghost function InHour(db: DB, rows: set<nat>, w: Time): set<nat> {
    set r | r in rows && r in db.outbox && w <= db.outbox[r].createdAt <= w + DIGEST_RATE_WINDOW
  }

  predicate Limits(db: DB, c: nat, limit: nat) {
    c in db.channels && db.channels[c].digestMode.Auto? && db.channels[c].rateLimit == Some(limit) && limit > 0
  }

  ghost predicate Bounded(db: DB, c: nat, limit: nat, rows: set<nat>) {
    && (forall r :: r in rows ==> r < db.nextRow)
    && (forall r :: r in rows && r in db.outbox ==> db.outbox[r].channel == c && !db.outbox[r].isDigest)
    && (forall w :: |InHour(db, rows, w)| <= limit)
  }

  predicate BornBy(db: DB, now: Time) {
    forall r :: r in db.outbox ==> db.outbox[r].createdAt <= now
  }

  /** A step that admits nothing only lets the hours thin out. */
  lemma QuietStepKeeps(before: DB, after: DB, c: nat, limit: nat, rows: set<nat>)
    requires Bounded(before, c, limit, rows) && Aged(before, after) && Admitted(before, after, c) == {}
    ensures Bounded(after, c, limit, rows + Admitted(before, after, c))
  {
    assert rows + Admitted(before, after, c) == rows;
    forall w ensures |InHour(after, rows, w)| <= limit {
      SubsetIsSmaller(InHour(after, rows, w), InHour(before, rows, w));
    }
  }

  /** One admitted row: fewer than `limit` ordinary rows were created in the hour up to now. */
  lemma HourAfterAdmitting(db: DB, row: OutboxRow, now: Time, c: nat, limit: nat, rows: set<nat>, w: Time)
    requires FreshIds(db) && Bounded(db, c, limit, rows) && BornBy(db, now)
    requires |RecentRows(db, c, now - DIGEST_RATE_WINDOW)| < limit
    requires row.createdAt == now
    ensures |InHour(AddRow(db, row), rows + {db.nextRow}, w)| <= limit
  {
    var before, after := InHour(db, rows, w), InHour(AddRow(db, row), rows + {db.nextRow}, w);
    if w <= now <= w + DIGEST_RATE_WINDOW {
      var recent := RecentRows(db, c, now - DIGEST_RATE_WINDOW);
      assert before <= recent;
      SubsetIsSmaller(before, recent);
      assert after <= before + {db.nextRow};
      SubsetIsSmaller(after, before + {db.nextRow});
    } else {
      assert after <= before;
      SubsetIsSmaller(after, before);
    }
  }

  lemma AdmittingKeeps(db: DB, row: OutboxRow, now: Time, c: nat, limit: nat, rows: set<nat>)
    requires FreshIds(db) && Bounded(db, c, limit, rows) && BornBy(db, now)
    requires |RecentRows(db, c, now - DIGEST_RATE_WINDOW)| < limit
    requires row.createdAt == now && Queued(row, c)
    ensures Bounded(AddRow(db, row), c, limit, rows + {db.nextRow})
  {
    hide InHour, RecentRows;
    forall w ensures |InHour(AddRow(db, row), rows + {db.nextRow}, w)| <= limit {
      HourAfterAdmitting(db, row, now, c, limit, rows, w);
    }
  }

  /** Staging under a free key adds one fresh row; the timers it may add are beside the point here. */
  lemma StagedOutbox(db: DB, event: nat, rule: Option<nat>, d: nat, trigger: Trigger, note: Note, now: Time)
    requires d in db.channels
    ensures var after := StageRow(db, event, rule, d, trigger, note, now).0;
            var status := if NeedsParking(db, d, now) then Digested else Pending;
            var staged := if KeyTaken(db, event, d, trigger) then db
                          else AddRow(db, FreshRow(Some(event), rule, d, trigger, note, status, now));
            after.outbox == staged.outbox && after.nextRow == staged.nextRow
  {
  }

  /** The one place a row is admitted. */
  lemma StagingKeeps(db: DB, event: nat, rule: Option<nat>, d: nat, trigger: Trigger, note: Note, now: Time,
                     c: nat, limit: nat, rows: set<nat>)
    requires FreshIds(db) && Bounded(db, c, limit, rows) && BornBy(db, now) && Limits(db, c, limit) && d in db.channels
    ensures var after := StageRow(db, event, rule, d, trigger, note, now).0;
            Bounded(after, c, limit, rows + Admitted(db, after, c)) && BornBy(after, now)
  {
    hide Bounded, StageRow, KeyTaken;
    var after := StageRow(db, event, rule, d, trigger, note, now).0;
    StagedOutbox(db, event, rule, d, trigger, note, now);
    if Admitted(db, after, c) == {} {
      StageRowAppends(db, event, rule, d, trigger, note, now);
      QuietStepKeeps(db, after, c, limit, rows);
    } else {
      var row := FreshRow(Some(event), rule, d, trigger, note, Pending, now);
      assert d == c && !NeedsParking(db, c, now);
      assert Admitted(db, AddRow(db, row), c) == {db.nextRow};
      AdmittingKeeps(db, row, now, c, limit, rows);
      SameOutbox(db, AddRow(db, row), after, c, limit, rows);
    }
  }

  lemma {:induction false} StagingAllKeeps(db: DB, event: nat, rule: Option<nat>, ds: seq<nat>, trigger: Trigger,
                                           note: Note, now: Time, c: nat, limit: nat, rows: set<nat>)
    requires FreshIds(db) && Bounded(db, c, limit, rows) && BornBy(db, now) && Limits(db, c, limit)
    requires forall d :: d in ds ==> d in db.channels
    ensures var after := StageAll(db, event, rule, ds, trigger, note, now).0;
            Bounded(after, c, limit, rows + Admitted(db, after, c)) && BornBy(after, now)
  {
    hide StageRow, Bounded;
    if ds == [] {
      QuietStepKeeps(db, db, c, limit, rows);
    } else {
      var front, d := ds[..|ds| - 1], ds[|ds| - 1];
      StagingAllKeeps(db, event, rule, front, trigger, note, now, c, limit, rows);
      StageAllAppends(db, event, rule, front, trigger, note, now);
      var (mid, ok) := StageAll(db, event, rule, front, trigger, note, now);
      if ok {
        var after := StageRow(mid, event, rule, d, trigger, note, now).0;
        StagingKeeps(mid, event, rule, d, trigger, note, now, c, limit, rows + Admitted(db, mid, c));
        StageRowAppends(mid, event, rule, d, trigger, note, now);
        assert rows + Admitted(db, mid, c) + Admitted(mid, after, c) == rows + Admitted(db, after, c);
      }
    }
  }

  lemma StagingUnderKeeps(db: DB, event: nat, rule: nat, ds: seq<nat>, trigger: Trigger, note: Note, now: Time,
                          fault: Fault, c: nat, limit: nat, rows: set<nat>)
    requires FreshIds(db) && Bounded(db, c, limit, rows) && BornBy(db, now) && Limits(db, c, limit)
    requires forall d :: d in ds ==> d in db.channels
    ensures var after := StageUnder(db, event, rule, ds, trigger, note, now, fault).0;
            Bounded(after, c, limit, rows + Admitted(db, after, c)) && BornBy(after, now)
  {
    hide StageAll, Bounded;
    QuietStepKeeps(db, db, c, limit, rows);
    StagingAllKeeps(db, event, Some(rule), ds, trigger, note, now, c, limit, rows);
    if fault.After? && fault.staged < |ds| {
      StagingAllKeeps(db, event, Some(rule), ds[..fault.staged], trigger, note, now, c, limit, rows);
    }
  }

  /** Only the outbox matters here. */
  lemma SameOutbox(before: DB, after: DB, other: DB, c: nat, limit: nat, rows: set<nat>)
    requires Bounded(after, c, limit, rows + Admitted(before, after, c))
    requires other.outbox == after.outbox && other.nextRow == after.nextRow
    ensures Bounded(other, c, limit, rows + Admitted(before, other, c))
  {
    assert Admitted(before, other, c) == Admitted(before, after, c);
    forall w ensures |InHour(other, rows + Admitted(before, other, c), w)| <= limit {
      assert InHour(other, rows + Admitted(before, other, c), w) == InHour(after, rows + Admitted(before, after, c), w);
    }
  }

  lemma FollowUpKeeps(db: DB, k: nat, note: Note, now: Time, fault: Fault, c: nat, limit: nat, rows: set<nat>)
    requires FreshIds(db) && Bounded(db, c, limit, rows) && BornBy(db, now) && Limits(db, c, limit)
    requires k in db.actions && (db.actions[k].kind.Escalation? || db.actions[k].kind.Renotify?)
    ensures var after := DispatchTimer(db, k, note, now, fault);
            Bounded(after, c, limit, rows + Admitted(db, after, c)) && BornBy(after, now)
  {
    hide StageUnder, Bounded, DispatchTimer;
    var a := db.actions[k];
    var after := DispatchTimer(db, k, note, now, fault);
    QuietStepKeeps(db, db, c, limit, rows);
    if after.outbox == db.outbox && after.nextRow == db.nextRow {
      SameOutbox(db, db, after, c, limit, rows);
    } else {
      FollowUpStaged(db, k, note, now, fault);
      var event, r := a.event.value, a.rule.value;
      StagingUnderKeeps(db, event, r, Recipients(db, a), TriggerFor(a, k), note, now, fault, c, limit, rows);
      SameOutbox(db, StageUnder(db, event, r, Recipients(db, a), TriggerFor(a, k), note, now, fault).0, after, c,
                 limit, rows);
    }
  }

  /** A follow-up dispatch that changes the outbox leaves it as staging for its recipients does. */
  lemma FollowUpStaged(db: DB, k: nat, note: Note, now: Time, fault: Fault)
    requires FreshIds(db) && k in db.actions && (db.actions[k].kind.Escalation? || db.actions[k].kind.Renotify?)
    ensures var a := db.actions[k];
            var after := DispatchTimer(db, k, note, now, fault);
            || (after.outbox == db.outbox && after.nextRow == db.nextRow)
            || (a.event.Some? && a.rule.Some? && a.rule.value in db.rules
                && var staged := StageUnder(db, a.event.value, a.rule.value, Recipients(db, a), TriggerFor(a, k),
                                            note, now, fault).0;
                   after.outbox == staged.outbox && after.nextRow == staged.nextRow)
  {
    hide StageUnder;
  }

  lemma OldRowsAdmitNothing(db: DB, after: DB, c: nat, now: Time)
    requires BornBy(db, now) && Aged(db, after) && after.outbox.Keys <= db.outbox.Keys
    ensures Admitted(db, after, c) == {} && BornBy(after, now)
  {
  }

  lemma UpdatesAdmitNothing(db: DB, s: Step, now: Time, c: nat)
    requires Inv(db) && Enabled(db, s) && BornBy(db, now) && Updates(s)
    ensures Admitted(db, Apply(db, s, now), c) == {} && BornBy(Apply(db, s, now), now)
  {
    InvIds(db);
    hide Inv, RowsOk, Apply;
    RowIds(db, s, now);
    StepAges(db, s, now);
    OldRowsAdmitNothing(db, Apply(db, s, now), c, now);
  }

  /** Apart from staging, no step inserts a row that could be delivered on its own, except a report. */
  lemma OtherStepsAdmitNothing(db: DB, s: Step, now: Time, c: nat)
    requires Inv(db) && Enabled(db, s) && BornBy(db, now)
    requires !s.StageOne? && (s.DispatchOne? ==> db.actions[s.timer].kind.DigestFlush?
                                                 || db.actions[s.timer].kind.UnknownKind?)
    ensures Admitted(db, Apply(db, s, now), c) == {} && BornBy(Apply(db, s, now), now)
  {
    InvIds(db);
    hide Inv, RowsOk, DispatchTimer;
    if s.DispatchOne? {
      FlushAdmitsNothing(db, s.timer, s.payload, now, s.fault, c);
    } else if Updates(s) {
      UpdatesAdmitNothing(db, s, now, c);
    }
  }

  lemma FlushAdmitsNothing(db: DB, k: nat, note: Note, now: Time, fault: Fault, c: nat)
    requires FreshIds(db) && BornBy(db, now) && k in db.actions
    requires db.actions[k].kind.DigestFlush? || db.actions[k].kind.UnknownKind?
    ensures var after := DispatchTimer(db, k, note, now, fault); Admitted(db, after, c) == {} && BornBy(after, now)
  {
    hide Flushed, Parked, LinkAll;
    var a := db.actions[k];
    if a.kind.DigestFlush? && DispatchFlush(db, a, now, fault).Completed? && |Parked(db, a.channel.value)| >= 2 {
      FlushedIsDispatched(db, a, now, fault);
      FlushedLinks(db, a.channel.value, now);
      FlushedRow(db, a.channel.value, now);
    }
  }

  lemma StepKeepsBound(db: DB, s: Step, now: Time, c: nat, limit: nat, rows: set<nat>)
    requires Inv(db) && Enabled(db, s) && Limits(db, c, limit) && Bounded(db, c, limit, rows) && BornBy(db, now)
    ensures var after := Apply(db, s, now); Bounded(after, c, limit, rows + Admitted(db, after, c))
                                            && BornBy(after, now)
  {
    StepAges(db, s, now);
    if s.StageOne? {
      StagingKeeps(db, s.event, s.origin, s.channel, s.trigger, s.note, now, c, limit, rows);
      QuietStepKeeps(db, db, c, limit, rows);
    } else if s.DispatchOne? && (db.actions[s.timer].kind.Escalation? || db.actions[s.timer].kind.Renotify?) {
      FollowUpKeeps(db, s.timer, s.payload, now, s.fault, c, limit, rows);
    } else {
      OtherStepsAdmitNothing(db, s, now, c);
      QuietStepKeeps(db, Apply(db, s, now), c, limit, rows);
    }
    hide Inv, Bounded, Aged, StageRow, DispatchTimer, Deliver, ForgetRule, ClaimRows, RecoverLeases, PurgeRows,
      PurgeEvents, ClaimTimers, RecoverTimers, EnsureFollowUp, CancelPending, DeleteTimers;
  }

  /**
   The rate bound. Over any run in which channel `c` stays on 'auto' with limit L, starting with nothing
   admitted, every closed one-hour window holds at most L surviving rows that staging put straight into
   the queue. The limit is positive: the endpoints refuse any other, and the code reads zero as no limit.
   */
  lemma {:induction false} RateBounded(dbs: seq<DB>, steps: seq<Timed>, c: nat, limit: nat, n: nat, now: Time)
    requires IsRun(dbs, steps) && n < |dbs| && limit > 0
    requires forall i :: 0 <= i < n ==> Limits(dbs[i], c, limit)
    requires n < |steps| ==> now == steps[n].at
    requires n == |steps| > 0 ==> now == steps[n - 1].at
    requires if |steps| > 0 then BornBy(dbs[0], steps[0].at) else BornBy(dbs[0], now)
    ensures Bounded(dbs[n], c, limit, History(dbs, c, n)) && BornBy(dbs[n], now)
  {
    hide Inv, Apply;
    if n > 0 {
      var s, at := steps[n - 1].step, steps[n - 1].at;
      RateBounded(dbs, steps, c, limit, n - 1, at);
      RunKeepsInv(dbs, steps, n - 1);
      StepKeepsBound(dbs[n - 1], s, at, c, limit, History(dbs, c, n - 1));
    } else {
      assert forall w :: InHour(dbs[0], {}, w) == {};
    }
  }

  // ---- the rows a purge takes ----

  /** The rows a step purges. */
  function Purged(db: DB, s: Step): set<nat> {
    match s
    case PurgeOutboxBatch(ids, _) => ids + ChildRows(db, ids)
    case PurgeEventBatch(ids, _, _) => RowsAbout(db, ids)
    case _ => {}
  }

  predicate InWindow(row: OutboxRow, w: Time) {
    w <= row.createdAt <= w + DIGEST_RATE_WINDOW
  }

  /** The step purges none of channel `c`'s rows created in the hour from `w`. */
  predicate Spares(db: DB, s: Step, c: nat, w: Time) {
    forall r :: r in Purged(db, s) && r in db.outbox && db.outbox[r].channel == c ==> !InWindow(db.outbox[r], w)
  }

  /** Every row admitted to channel `c` in the hour from `w`, during the first `n` steps, whatever became of it. */
  ghost function AdmittedIn(dbs: seq<DB>, c: nat, n: nat, w: Time): set<nat>
    requires n < |dbs|
  {
    if n == 0 then {}
    else AdmittedIn(dbs, c, n - 1, w)
         + (set r | r in Admitted(dbs[n - 1], dbs[n], c) && InWindow(dbs[n].outbox[r], w))
  }

  lemma SparedRowsStay(db: DB, s: Step, now: Time, r: nat)
    requires Inv(db) && Enabled(db, s) && r in db.outbox && r !in Purged(db, s)
    ensures r in Apply(db, s, now).outbox
  {
    hide Inv;
    InvIds(db);
    if s.PurgeOutboxBatch? {
      PurgeRowsGo(db, s.rows);
    } else if !s.PurgeEventBatch? {
      StepKeepsRows(db, s, now);
    }
    hide StageRow, DispatchTimer, Deliver, PurgeRows;
  }

  /** While purges spare the hour, its rows are still in the table to be counted. */
  lemma {:induction false} SparedHourIsWhole(dbs: seq<DB>, steps: seq<Timed>, c: nat, n: nat, w: Time)
    requires IsRun(dbs, steps) && n < |dbs|
    requires forall i :: 0 <= i < n ==> Spares(dbs[i], steps[i].step, c, w)
    ensures AdmittedIn(dbs, c, n, w) <= InHour(dbs[n], History(dbs, c, n), w)
    ensures forall r :: r in AdmittedIn(dbs, c, n, w) ==> r in dbs[n].outbox && dbs[n].outbox[r].channel == c
  {
    hide Inv, Apply, Purged;
    if n > 0 {
      var before, s, at := dbs[n - 1], steps[n - 1].step, steps[n - 1].at;
      SparedHourIsWhole(dbs, steps, c, n - 1, w);
      RunKeepsInv(dbs, steps, n - 1);
      StepAges(before, s, at);
      forall r | r in AdmittedIn(dbs, c, n - 1, w)
        ensures r in dbs[n].outbox && dbs[n].outbox[r].channel == c && InWindow(dbs[n].outbox[r], w)
      {
        SparedRowsStay(before, s, at, r);
        assert SameIdentity(before.outbox[r], dbs[n].outbox[r]);
      }
    }
  }

  /**
   The bound on every row ever admitted, delivered and purged ones included: while the purges spare the hour that
   starts at `w`, no more than L rows went straight into the queue in it.
   */
  lemma HourAdmitsAtMostLimit(dbs: seq<DB>, steps: seq<Timed>, c: nat, limit: nat, n: nat, now: Time, w: Time)
    requires IsRun(dbs, steps) && n < |dbs| && limit > 0
    requires forall i :: 0 <= i < n ==> Limits(dbs[i], c, limit) && Spares(dbs[i], steps[i].step, c, w)
    requires n < |steps| ==> now == steps[n].at
    requires n == |steps| > 0 ==> now == steps[n - 1].at
    requires if |steps| > 0 then BornBy(dbs[0], steps[0].at) else BornBy(dbs[0], now)
    ensures |AdmittedIn(dbs, c, n, w)| <= limit
  {
    hide IsRun, History, AdmittedIn, InHour, Spares;
    RateBounded(dbs, steps, c, limit, n, now);
    SparedHourIsWhole(dbs, steps, c, n, w);
    SubsetIsSmaller(AdmittedIn(dbs, c, n, w), InHour(dbs[n], History(dbs, c, n), w));
  }

  lemma StepKeepsRows(db: DB, s: Step, now: Time)
    requires Inv(db) && Enabled(db, s) && !s.PurgeOutboxBatch? && !s.PurgeEventBatch?
    ensures db.outbox.Keys <= Apply(db, s, now).outbox.Keys
  {
    hide Inv, StageRow, DispatchTimer, FreshIds;
    match s {
      case StageOne(e, rule, c, trigger, note) =>
        InvIds(db);
        StageRowAppends(db, e, rule, c, trigger, note, now);
      case DispatchOne(k, note, fault) =>
        InvIds(db);
        DispatchKeepsRows(db, k, note, now, fault);
      case StageReport(_, _) =>
      case _ => RowIds(db, s, now);
    }
  }

  lemma DispatchKeepsRows(db: DB, k: nat, note: Note, now: Time, fault: Fault)
    requires FreshIds(db) && k in db.actions
    ensures db.outbox.Keys <= DispatchTimer(db, k, note, now, fault).outbox.Keys
  {
    hide DispatchEscalation, DispatchRenotify, Parked, Aggregate;
    var a := db.actions[k];
    match a.kind {
      case Escalation => EscalationAppends(db, a, note, now, fault);
      case Renotify => RenotifyAppends(db, k, a, note, now, fault);
      case DigestFlush =>
      case UnknownKind =>
    }
  }
}
