/** One carrier per notification, over whole runs: how rows age, and what a digest flush does. */
module Carriers {
  import opened Prelude
  import opened Model
  import opened Staging
  import opened Dispatch
  import opened Delivery
  import opened Retention
  import opened Invariants
  import opened Runs

  // ---- how rows age ----

  /** Rows are only ever appended, and a new one is linked to nothing. */
  ghost predicate Appends(before: DB, after: DB) {
    && before.nextRow <= after.nextRow && before.nextAction <= after.nextAction
    && (forall r :: r in before.outbox ==> r in after.outbox && after.outbox[r] == before.outbox[r])
    && (forall r :: r in after.outbox && r !in before.outbox ==>
          before.nextRow <= r && after.outbox[r].digestedInto.None?)
  }

  /** Ids are not reused, identities do not change, a link is for good, and so is leaving the parked state. */
  ghost predicate Aged(before: DB, after: DB) {
    && before.nextRow <= after.nextRow
    && (forall r :: r in after.outbox && r in before.outbox ==>
          && SameIdentity(before.outbox[r], after.outbox[r])
          && (before.outbox[r].digestedInto.Some? ==> after.outbox[r].digestedInto == before.outbox[r].digestedInto)
          && (!before.outbox[r].status.Digested? ==> !after.outbox[r].status.Digested?))
    && (forall r :: r in after.outbox && r !in before.outbox ==> before.nextRow <= r)
  }

  lemma AgedTransitive(a: DB, b: DB, c: DB)
    requires FreshIds(a) && Aged(a, b) && Aged(b, c)
    ensures Aged(a, c)
  {
  }

  lemma StageRowAppends(db: DB, event: nat, rule: Option<nat>, c: nat, trigger: Trigger, note: Note, now: Time)
    requires FreshIds(db) && c in db.channels
    ensures Appends(db, StageRow(db, event, rule, c, trigger, note, now).0)
  {
  }

  lemma {:induction false} StageAllAppends(db: DB, event: nat, rule: Option<nat>, cs: seq<nat>, trigger: Trigger,
                                           note: Note, now: Time)
    requires FreshIds(db) && forall c :: c in cs ==> c in db.channels
    ensures FreshIds(StageAll(db, event, rule, cs, trigger, note, now).0)
    ensures Appends(db, StageAll(db, event, rule, cs, trigger, note, now).0)
  {
    if cs != [] {
      var front := cs[..|cs| - 1];
      StageAllAppends(db, event, rule, front, trigger, note, now);
      var (before, ok) := StageAll(db, event, rule, front, trigger, note, now);
      if ok {
        StageRowAppends(before, event, rule, cs[|cs| - 1], trigger, note, now);
        StageRowKeepsTimers(before, event, rule, cs[|cs| - 1], trigger, note, now);
        hide StageRow;
      }
    }
  }

  lemma StageUnderAppends(db: DB, event: nat, rule: nat, cs: seq<nat>, trigger: Trigger, note: Note, now: Time,
                          fault: Fault)
    requires FreshIds(db) && forall c :: c in cs ==> c in db.channels
    ensures Appends(db, StageUnder(db, event, rule, cs, trigger, note, now, fault).0)
  {
    hide StageAll;
    StageAllAppends(db, event, Some(rule), cs, trigger, note, now);
    if fault.After? && fault.staged < |cs| {
      StageAllAppends(db, event, Some(rule), cs[..fault.staged], trigger, note, now);
    }
  }

  lemma EscalationAppends(db: DB, a: ScheduledAction, note: Note, now: Time, fault: Fault)
    requires FreshIds(db)
    ensures var o := DispatchEscalation(db, a, note, now, fault); o.Skipped? || Appends(db, o.db)
  {
    hide StageUnder;
    if a.event.Some? && a.rule.Some? && a.rule.value in db.rules {
      var rule := db.rules[a.rule.value];
      StageUnderAppends(db, a.event.value, a.rule.value, Allowed(db, rule.team, rule.escalationChannels), OnEscalation,
                        note, now, fault);
    }
  }

  lemma RenotifyAppends(db: DB, k: nat, a: ScheduledAction, note: Note, now: Time, fault: Fault)
    requires FreshIds(db)
    ensures var o := DispatchRenotify(db, k, a, note, now, fault); o.Skipped? || Appends(db, o.db)
  {
    hide StageUnder;
    if a.event.Some? && a.rule.Some? && a.rule.value in db.rules {
      StageUnderAppends(db, a.event.value, a.rule.value, Live(db, db.rules[a.rule.value].channels), OnRenotify(k),
                        note, now, fault);
    }
  }

  lemma FlushedAges(db: DB, c: nat, now: Time)
    requires FreshIds(db) && RowsOk(db) && |Parked(db, c)| >= 2
    ensures Aged(db, Flushed(db, c, now))
  {
    FlushedLinks(db, c, now);
    hide Flushed;
  }

  lemma FlushedIsDispatched(db: DB, a: ScheduledAction, now: Time, fault: Fault)
    requires DispatchFlush(db, a, now, fault).Completed? && |Parked(db, a.channel.value)| >= 2
    ensures DispatchFlush(db, a, now, fault).db == Flushed(db, a.channel.value, now)
  {
    hide Parked, Aggregate, LinkAll;
  }

  lemma FlushAges(db: DB, a: ScheduledAction, now: Time, fault: Fault)
    requires FreshIds(db) && RowsOk(db)
    ensures var o := DispatchFlush(db, a, now, fault); o.Skipped? || Aged(db, o.db)
  {
    hide Parked, LinkAll, Aggregate, Flushed;
    if DispatchFlush(db, a, now, fault).Completed? && |Parked(db, a.channel.value)| >= 2 {
      FlushedIsDispatched(db, a, now, fault);
      FlushedAges(db, a.channel.value, now);
    }
  }

  lemma DispatchAges(db: DB, k: nat, note: Note, now: Time, fault: Fault)
    requires FreshIds(db) && RowsOk(db) && k in db.actions
    ensures Aged(db, DispatchTimer(db, k, note, now, fault))
  {
    hide DispatchEscalation, DispatchRenotify, DispatchFlush;
    var a := db.actions[k];
    match a.kind {
      case Escalation => EscalationAppends(db, a, note, now, fault);
      case Renotify => RenotifyAppends(db, k, a, note, now, fault);
      case DigestFlush => FlushAges(db, a, now, fault);
      case UnknownKind =>
    }
  }

  /** Steps that leave the outbox alone. */
  predicate Quiet(s: Step) {
    s.PlanEscalation? || s.CancelTimers? || s.ClaimDueTimers? || s.RecoverStaleTimers? || s.PurgeTimerBatch?
    || s.WriteEvent? || s.WriteChannel? || s.WriteRule?
  }

  lemma QuietStepsKeepRows(db: DB, s: Step, now: Time)
    requires FreshIds(db) && Enabled(db, s) && Quiet(s)
    ensures Apply(db, s, now).outbox == db.outbox && Apply(db, s, now).nextRow == db.nextRow
  {
    hide EnsureFollowUp, CancelPending, ClaimTimers, RecoverTimers, DeleteTimers, Ascending, Take, FreshIds;
    match s {
      case PlanEscalation(e, r) =>
        FollowUpKeepsRows(db, Escalation, e, r, now + db.rules[r].escalationAfter.value * MINUTE);
      case CancelTimers(e) => TimerStepsKeepRows(db, e, now, 0, [], {});
      case ClaimDueTimers(limit) => TimerStepsKeepRows(db, 0, now, 0, Take(Ascending(DueTimers(db, now)), limit), {});
      case RecoverStaleTimers(cutoff) => TimerStepsKeepRows(db, 0, now, cutoff, [], {});
      case PurgeTimerBatch(ids, _) => TimerStepsKeepRows(db, 0, now, 0, [], ids);
      case _ =>
    }
  }

  lemma RowUpdatesKeepIds(db: DB, keys: seq<Key>, worker: nat, now: Time, cutoff: Time, rule: nat)
    ensures ClaimRows(db, keys, worker, now).outbox.Keys == db.outbox.Keys
    ensures RecoverLeases(db, cutoff).outbox.Keys == db.outbox.Keys
    ensures ForgetRule(db, rule).outbox.Keys == db.outbox.Keys
  {
  }

  lemma DeliverKeepsIds(db: DB, r: nat, attempt: Attempt, now: Time)
    requires r in db.outbox
    ensures Deliver(db, r, attempt, now).outbox.Keys == db.outbox.Keys
  {
    hide EnsureFollowUp, Usable, StartsRenotify, Backoff;
    var row := db.outbox[r];
    if StartsRenotify(db, row) {
      RenotifyStarts(db, row);
      FollowUpKeepsRows(PutRow(db, r, MarkDelivered(row, now)), Renotify, row.event.value, row.rule.value,
                        now + db.rules[row.rule.value].renotifyInterval.value * MINUTE);
    }
  }

  /** Steps other than staging, reporting and dispatching add no row, and only purges remove any. */
  predicate Updates(s: Step) {
    !s.StageOne? && !s.StageReport? && !s.DispatchOne?
  }

  lemma RowIds(db: DB, s: Step, now: Time)
    requires Inv(db) && Enabled(db, s) && Updates(s)
    ensures Apply(db, s, now).outbox.Keys <= db.outbox.Keys
    ensures !s.PurgeOutboxBatch? && !s.PurgeEventBatch? ==> Apply(db, s, now).outbox.Keys == db.outbox.Keys
  {
    InvIds(db);
    hide Inv, RowsOk, FreshIds, Ascending, Take, ClaimRows, RecoverLeases, ForgetRule, Deliver, PurgeRows, DeleteRows,
      EnsureFollowUp, CancelPending, ClaimTimers, RecoverTimers, DeleteTimers;
    match s {
      case ClaimDueRows(worker, limit) =>
        RowUpdatesKeepIds(db, Take(Ascending(DueRows(db, now)), limit), worker, now, 0, 0);
      case RecoverStaleLeases(cutoff) => RowUpdatesKeepIds(db, [], 0, now, cutoff, 0);
      case DropRule(r) => RowUpdatesKeepIds(db, [], 0, now, 0, r);
      case DeliverOne(r, attempt) => DeliverKeepsIds(db, r, attempt, now);
      case PurgeOutboxBatch(ids, _) => PurgeRowsGo(db, ids);
      case PurgeEventBatch(ids, _, _) =>
        OrdinaryRowsAbout(db, ids);
        RemovingOrdinaryRows(db, RowsAbout(db, ids));
      case _ => QuietStepsKeepRows(db, s, now);
    }
  }

  lemma PurgeStepAges(db: DB, s: Step, now: Time)
    requires FreshIds(db) && RowsOk(db) && Enabled(db, s) && (s.PurgeOutboxBatch? || s.PurgeEventBatch?)
    ensures Aged(db, Apply(db, s, now))
  {
    hide PurgeRows, DeleteRows, FreshIds, Aged, RowsOk;
    match s {
      case PurgeOutboxBatch(ids, _) => PurgeRowsGo(db, ids);
      case PurgeEventBatch(ids, _, _) =>
        OrdinaryRowsAbout(db, ids);
        RemovingOrdinaryRows(db, RowsAbout(db, ids));
    }
    GoneRowsAge(db, Apply(db, s, now));
  }

  lemma AppendedAges(db: DB, after: DB)
    requires FreshIds(db) && Appends(db, after)
    ensures Aged(db, after)
  {
  }

  lemma StepAges(db: DB, s: Step, now: Time)
    requires Inv(db) && Enabled(db, s)
    ensures Aged(db, Apply(db, s, now))
  {
    assert FreshIds(db) && RowsOk(db);
    hide Inv, StageRow, EnsureFollowUp, CancelPending, DispatchTimer, Deliver, ForgetRule, ClaimRows, RecoverLeases,
      ClaimTimers, RecoverTimers, PurgeRows, DeleteRows, DeleteTimers, RowsOk, Ascending, Take, FreshIds, Aged, Appends;
    match s {
      case StageOne(e, rule, c, trigger, note) =>
        StageRowAppends(db, e, rule, c, trigger, note, now);
        AppendedAges(db, StageRow(db, e, rule, c, trigger, note, now).0);
        SameRowsAge(db, db);
      case DropRule(r) => ForgetAges(db, r);
      case ClaimDueRows(worker, limit) => ClaimAges(db, worker, limit, now);
      case DeliverOne(r, attempt) => DeliverAges(db, r, attempt, now);
      case RecoverStaleLeases(cutoff) => RecoverAges(db, cutoff);
      case DispatchOne(k, note, fault) => DispatchAges(db, k, note, now, fault);
      case StageReport(c, note) => AddedRowAges(db, FreshRow(None, None, c, OnReport, note, Pending, now));
      case PurgeOutboxBatch(_, _) => PurgeStepAges(db, s, now);
      case PurgeEventBatch(_, _, _) => PurgeStepAges(db, s, now);
      case _ =>
        QuietStepsKeepRows(db, s, now);
        SameRowsAge(db, Apply(db, s, now));
    }
  }

  lemma SameRowsAge(db: DB, after: DB)
    requires FreshIds(db) && after.outbox == db.outbox && after.nextRow == db.nextRow
    ensures Aged(db, after)
  {
  }

  lemma GoneRowsAge(db: DB, after: DB)
    requires FreshIds(db) && after.outbox.Keys <= db.outbox.Keys && after.nextRow == db.nextRow
    requires forall r :: r in after.outbox ==> after.outbox[r] == db.outbox[r]
    ensures Aged(db, after)
  {
  }

  lemma AddedRowAges(db: DB, row: OutboxRow)
    requires FreshIds(db)
    ensures Aged(db, AddRow(db, row))
  {
  }

  /** An aggregate belongs to no event. */
  lemma OrdinaryRowsAbout(db: DB, ids: set<nat>)
    requires RowsOk(db)
    ensures forall r :: r in RowsAbout(db, ids) && r in db.outbox ==> !db.outbox[r].isDigest
  {
  }

  lemma FollowUpKeepsRows(db: DB, kind: ActionKind, event: nat, rule: nat, dueAt: Time)
    ensures EnsureFollowUp(db, kind, event, rule, dueAt).0.outbox == db.outbox
    ensures EnsureFollowUp(db, kind, event, rule, dueAt).0.nextRow == db.nextRow
  {
  }

  /** Cancelling, claiming, recovering and purging timers leaves the outbox alone. */
  lemma TimerStepsKeepRows(db: DB, event: nat, now: Time, cutoff: Time, claimed: seq<Key>, ids: set<nat>)
    ensures CancelPending(db, event, now) == db.(actions := CancelPending(db, event, now).actions)
    ensures ClaimTimers(db, claimed, now) == db.(actions := ClaimTimers(db, claimed, now).actions)
    ensures RecoverTimers(db, cutoff) == db.(actions := RecoverTimers(db, cutoff).actions)
    ensures DeleteTimers(db, ids) == db.(actions := DeleteTimers(db, ids).actions)
  {
  }

  lemma DeliverAges(db: DB, r: nat, attempt: Attempt, now: Time)
    requires FreshIds(db) && r in db.outbox && !db.outbox[r].status.Digested?
    ensures Aged(db, Deliver(db, r, attempt, now))
  {
    hide WaitingFollowUps, EnsureFollowUp, Usable, StartsRenotify, Backoff, Aged, FreshIds;
    var row := db.outbox[r];
    PutRowAges(db, r, MarkDead(row));
    PutRowAges(db, r, MarkDelivered(row, now));
    SameRowsAge(db, db);
    if attempt.Fails? { PutRowAges(db, r, MarkFailure(row, now, attempt.jitter)); }
    if StartsRenotify(db, row) {
      RenotifyStarts(db, row);
      var delivered := PutRow(db, r, MarkDelivered(row, now));
      var dueAt := now + db.rules[row.rule.value].renotifyInterval.value * MINUTE;
      FollowUpKeepsRows(delivered, Renotify, row.event.value, row.rule.value, dueAt);
      AgedFrame(db, delivered, EnsureFollowUp(delivered, Renotify, row.event.value, row.rule.value, dueAt).0);
    }
  }

  lemma RenotifyStarts(db: DB, row: OutboxRow)
    requires StartsRenotify(db, row)
    ensures row.event.Some? && row.rule.Some? && row.rule.value in db.rules
            && db.rules[row.rule.value].renotifyInterval.Some?
  {
  }

  lemma PutRowAges(db: DB, r: nat, row: OutboxRow)
    requires FreshIds(db) && r in db.outbox && !db.outbox[r].status.Digested? && !row.status.Digested?
    requires SameIdentity(db.outbox[r], row) && row.digestedInto == db.outbox[r].digestedInto
    ensures Aged(db, PutRow(db, r, row))
  {
  }

  lemma AgedFrame(db: DB, a: DB, b: DB)
    requires Aged(db, a) && b.outbox == a.outbox && b.nextRow == a.nextRow
    ensures Aged(db, b)
  {
  }

  lemma ForgetAges(db: DB, rule: nat)
    requires FreshIds(db)
    ensures Aged(db, ForgetRule(db, rule))
  {
  }

  lemma RecoverAges(db: DB, cutoff: Time)
    requires FreshIds(db)
    ensures Aged(db, RecoverLeases(db, cutoff))
  {
  }

  lemma ClaimAges(db: DB, worker: nat, limit: nat, now: Time)
    requires FreshIds(db)
    ensures Aged(db, ClaimRows(db, Take(Ascending(DueRows(db, now)), limit), worker, now))
  {
  }

  lemma {:induction false} RunAges(dbs: seq<DB>, steps: seq<Timed>, i: nat, j: nat)
    requires IsRun(dbs, steps) && i <= j < |dbs|
    ensures Inv(dbs[i]) && Inv(dbs[j]) && Aged(dbs[i], dbs[j])
  {
    hide Apply, Aged, Inv, FreshIds, Enabled;
    RunKeepsInv(dbs, steps, i);
    RunKeepsInv(dbs, steps, j);
    if i == j {
      AgedReflexive(dbs[i]);
    } else {
      RunAges(dbs, steps, i, j - 1);
      InvIds(dbs[i]);
      StepAges(dbs[j - 1], steps[j - 1].step, steps[j - 1].at);
      AgedTransitive(dbs[i], dbs[j - 1], dbs[j]);
    }
  }

  /** A row that is there early and late in a run is there throughout: ids are never reused. */
  lemma RowNeverReturns(dbs: seq<DB>, steps: seq<Timed>, i: nat, k: nat, j: nat, r: nat)
    requires IsRun(dbs, steps) && i <= k <= j < |dbs| && r in dbs[i].outbox && r in dbs[j].outbox
    ensures r in dbs[k].outbox
  {
    RunKeepsInv(dbs, steps, i);
    InvIds(dbs[i]);
    RunAges(dbs, steps, i, k);
    RunAges(dbs, steps, k, j);
    hide IsRun, Inv;
  }

  lemma AgedReflexive(db: DB)
    ensures Aged(db, db)
  {
  }

  /**
   One carrier per notification. If a row is ever linked into an aggregate, then at every other moment of
   the run it is parked: it was never claimed, sent or settled on its own before, nor will it be, and the
   only aggregate it is ever linked into is that one, which carries its notification.
   */
  lemma OneCarrier(dbs: seq<DB>, steps: seq<Timed>, i: nat, j: nat, r: nat)
    requires IsRun(dbs, steps) && i < |dbs| && j < |dbs| && r in dbs[i].outbox && r in dbs[j].outbox
    requires dbs[i].outbox[r].digestedInto.Some?
    ensures dbs[j].outbox[r].status.Digested?
    ensures dbs[j].outbox[r].digestedInto.Some? ==> dbs[j].outbox[r].digestedInto == dbs[i].outbox[r].digestedInto
    ensures i <= j ==> dbs[j].outbox[r].digestedInto == dbs[i].outbox[r].digestedInto
    ensures var a := dbs[i].outbox[r].digestedInto.value;
            && a in dbs[i].outbox && dbs[i].outbox[a].isDigest && dbs[i].outbox[a].payload.Batch?
            && NoteOf(dbs[i].outbox[r]) in dbs[i].outbox[a].payload.notes
  {
    hide IsRun;
    if i <= j { RunAges(dbs, steps, i, j); } else { RunAges(dbs, steps, j, i); }
    LinkedIsCarried(dbs[i], r);
  }

  /** A linked row is parked, and its aggregate carries its notification. */
  lemma LinkedIsCarried(db: DB, r: nat)
    requires Inv(db) && r in db.outbox && db.outbox[r].digestedInto.Some?
    ensures db.outbox[r].status.Digested?
    ensures var a := db.outbox[r].digestedInto.value;
            && a in db.outbox && db.outbox[a].isDigest && db.outbox[a].payload.Batch?
            && NoteOf(db.outbox[r]) in db.outbox[a].payload.notes
  {
    var a := db.outbox[r].digestedInto.value;
    assert Linked(db, db.outbox[r]);
    var sources :| MadeFrom(db, a, sources);
    var p :| 0 <= p < |sources| && sources[p] == r;
    assert db.outbox[r].payload == Single(db.outbox[a].payload.notes[p]);
  }

  /** What one completed flush does: nothing, one row back in the queue, or one aggregate of all of them. */
  lemma FlushOutcome(db: DB, a: ScheduledAction, now: Time, c: nat)
    requires Inv(db) && a.channel == Some(c) && LiveChannel(db.channels, c)
    ensures DispatchFlush(db, a, now, NoFault).Completed?
    ensures |Parked(db, c)| == 0 ==> DispatchFlush(db, a, now, NoFault).db == db
    ensures |Parked(db, c)| == 1 ==>
              Parked(db, c)[0] in db.outbox
              && DispatchFlush(db, a, now, NoFault).db
                 == PutRow(db, Parked(db, c)[0], db.outbox[Parked(db, c)[0]].(status := Pending))
    ensures |Parked(db, c)| >= 2 ==> BatchedInOrder(db, DispatchFlush(db, a, now, NoFault).db, c, Parked(db, c))
  {
    var parked := Parked(db, c);
    if |parked| >= 2 {
      FlushedBatch(db, c, now);
    } else if |parked| == 1 {
      assert parked[0] in parked;
    }
    hide Inv, Flushed;
  }

  /** One new queued aggregate on the channel, made from the parked rows, oldest first. */
  ghost predicate BatchedInOrder(before: DB, after: DB, c: nat, parked: seq<nat>) {
    && (forall r :: r in parked ==> r in before.outbox)
    && after.outbox.Keys == before.outbox.Keys + {before.nextRow}
    && after.outbox[before.nextRow].channel == c && after.outbox[before.nextRow].status.Pending?
    && after.outbox[before.nextRow].payload.Batch? && MadeFrom(after, before.nextRow, parked)
    && after.outbox[before.nextRow].payload.notes == Notes(before, parked)
    && (forall i, j :: 0 <= i < j < |parked| ==> CreatedAt(before, parked, i) <= CreatedAt(before, parked, j))
    && (forall i :: 0 <= i < |parked| ==>
          after.outbox[before.nextRow].payload.windowStartedAt <= CreatedAt(before, parked, i))
  }

  ghost function CreatedAt(db: DB, ids: seq<nat>, i: nat): Time
    requires i < |ids| && forall r :: r in ids ==> r in db.outbox
  {
    db.outbox[ids[i]].createdAt
  }

  lemma FlushedBatch(db: DB, c: nat, now: Time)
    requires FreshIds(db) && RowsOk(db) && |Parked(db, c)| >= 2
    ensures BatchedInOrder(db, Flushed(db, c, now), c, Parked(db, c))
  {
    hide Flushed, MadeFrom, RowsOk, Parked;
    var parked := Parked(db, c);
    FlushedLinks(db, c, now);
    FlushedMakesBatch(db, c, now);
    FlushedRow(db, c, now);
    forall i, j | 0 <= i < j < |parked|
      ensures CreatedAt(db, parked, i) <= CreatedAt(db, parked, j)
    {
      ParkedInOrder(db, c, i, j);
    }
    assert parked[0] in db.outbox;
    assert CreatedAt(db, parked, 0) == Aggregate(db, c, parked, now).payload.windowStartedAt;
  }
}
