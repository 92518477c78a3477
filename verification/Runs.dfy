/**
 Runs of the notification engine. Every committed transaction is one step, and steps of different
 workers and requests interleave freely; an ingest transaction is cut into its single stagings, which
 only adds interleavings.
 */
module Runs {
  import opened Prelude
  import opened Model
  import opened Staging
  import opened Dispatch
  import opened Delivery
  import opened Retention
  import opened Invariants

  datatype Step =
    | StageOne(event: nat, origin: Option<nat>, channel: nat, trigger: Trigger, note: Note)
    | PlanEscalation(event: nat, rule: nat)
    | CancelTimers(event: nat)
    | WriteEvent(event: nat, row: AlertEvent)
    | WriteChannel(channel: nat, settings: Channel)
    | WriteRule(rule: nat, body: RoutingRule)
    | DropRule(rule: nat)
    | StageReport(channel: nat, note: Note)
    | ClaimDueRows(worker: nat, limit: nat)
    | DeliverOne(id: nat, attempt: Attempt)
    | RecoverStaleLeases(cutoff: Time)
    | ClaimDueTimers(limit: nat)
    | DispatchOne(timer: nat, payload: Note, fault: Fault)
    | RecoverStaleTimers(cutoff: Time)
    | PurgeOutboxBatch(rows: set<nat>, cutoff: Time)
    | PurgeTimerBatch(timers: set<nat>, cutoff: Time)
    | PurgeEventBatch(events: set<nat>, resolvedCutoff: Time, testCutoff: Time)

  /**
   What the callers guarantee: ids come from the tables, a channel is never undeleted, a parked row is never
   claimed.
   */
  predicate Enabled(db: DB, s: Step) {
    match s
    case StageOne(_, _, c, trigger, _) => c in db.channels && (trigger.OnFiring? || trigger.OnResolved?)
    case PlanEscalation(_, r) => r in db.rules && db.rules[r].escalationAfter.Some?
    case CancelTimers(_) => true
    case WriteEvent(_, _) => true
    case WriteChannel(c, settings) => c in db.channels && db.channels[c].deleted ==> settings.deleted
    case WriteRule(_, _) => true
    case DropRule(_) => true
    case StageReport(c, _) => c in db.channels
    case ClaimDueRows(_, _) => true
    case DeliverOne(r, _) => r in db.outbox && !db.outbox[r].status.Digested?
    case RecoverStaleLeases(_) => true
    case ClaimDueTimers(_) => true
    case DispatchOne(k, _, _) => k in db.actions
    case RecoverStaleTimers(_) => true
    case PurgeOutboxBatch(ids, cutoff) => ids <= ExpiredRows(db, cutoff)
    case PurgeTimerBatch(ids, cutoff) => ids <= ExpiredTimers(db, cutoff)
    case PurgeEventBatch(ids, rc, tc) => ids <= ExpiredEvents(db, rc, tc)
  }

  /** Deleting a rule nulls the references to it (ON DELETE SET NULL). */
  function ForgetRule(db: DB, rule: nat): DB {
    db.(rules := map r | r in db.rules && r != rule :: db.rules[r],
        outbox := map r | r in db.outbox ::
          if db.outbox[r].rule == Some(rule) then db.outbox[r].(rule := None) else db.outbox[r],
        actions := map k | k in db.actions ::
          if db.actions[k].rule == Some(rule) then db.actions[k].(rule := None) else db.actions[k],
        events := map e | e in db.events ::
          if db.events[e].suppressedBy == Some(rule) then db.events[e].(suppressedBy := None) else db.events[e])
  }

  /** A staging that raises rolls its transaction back. */
  function Committed(db: DB, after: DB, ok: bool): DB {
    if ok then after else db
  }

  function Apply(db: DB, s: Step, now: Time): DB
    requires FreshIds(db) && Enabled(db, s)
  {
    match s
    case StageOne(e, rule, c, trigger, note) =>
      var (after, staged) := StageRow(db, e, rule, c, trigger, note, now);
      Committed(db, after, !staged.Failed?)
    case PlanEscalation(e, r) =>
      var (after, ok) := EnsureFollowUp(db, Escalation, e, r, now + db.rules[r].escalationAfter.value * MINUTE);
      Committed(db, after, ok)
    case CancelTimers(e) => CancelPending(db, e, now)
    case WriteEvent(e, row) => db.(events := db.events[e := row])
    case WriteChannel(c, settings) => db.(channels := db.channels[c := settings])
    case WriteRule(r, body) => db.(rules := db.rules[r := body])
    case DropRule(r) => ForgetRule(db, r)
    case StageReport(c, note) => AddRow(db, FreshRow(None, None, c, OnReport, note, Pending, now))
    case ClaimDueRows(worker, limit) => ClaimRows(db, Take(Ascending(DueRows(db, now)), limit), worker, now)
    case DeliverOne(r, attempt) => Deliver(db, r, attempt, now)
    case RecoverStaleLeases(cutoff) => RecoverLeases(db, cutoff)
    case ClaimDueTimers(limit) => ClaimTimers(db, Take(Ascending(DueTimers(db, now)), limit), now)
    case DispatchOne(k, note, fault) => DispatchTimer(db, k, note, now, fault)
    case RecoverStaleTimers(cutoff) => RecoverTimers(db, cutoff)
    case PurgeOutboxBatch(ids, _) => PurgeRows(db, ids)
    case PurgeTimerBatch(ids, _) => DeleteTimers(db, ids)
    case PurgeEventBatch(ids, _, _) => PurgeEvents(db, ids)
  }

  /** Events and rules are not part of the invariant, and a channel only ever goes from live to deleted. */
  lemma ConfigurationKeeps(db: DB, after: DB)
    requires Inv(db) && after == db.(events := after.events, rules := after.rules, channels := after.channels)
    requires db.channels.Keys <= after.channels.Keys
    requires forall c :: LiveChannel(after.channels, c) && c in db.channels ==> LiveChannel(db.channels, c)
    ensures Inv(after)
  {
    EvolvingKeepsBatches(db, after);
    StrandedFrame(db, after);
  }

  lemma ForgetRuleKeepsOutbox(db: DB, rule: nat)
    requires OutboxInv(db)
    ensures OutboxInv(ForgetRule(db, rule))
  {
    var after := ForgetRule(db, rule);
    assert FreshIds(after);
    OutboxTurnKeeps(db, after);
    hide OutboxInv;
  }

  lemma ForgetRuleKeeps(db: DB, rule: nat)
    requires Inv(db)
    ensures Inv(ForgetRule(db, rule))
  {
    hide OutboxInv;
    ForgetRuleKeepsOutbox(db, rule);
    var after := ForgetRule(db, rule);
    forall c | FlushComing(db, c) ensures FlushComing(after, c) {
      var k :| k in db.actions && WillFlush(db.actions[k], c);
      assert WillFlush(after.actions[k], c);
    }
  }

  lemma StageReportKeeps(db: DB, c: nat, note: Note, now: Time)
    requires Inv(db) && c in db.channels
    ensures Inv(AddRow(db, FreshRow(None, None, c, OnReport, note, Pending, now)))
  {
    var after := AddRow(db, FreshRow(None, None, c, OnReport, note, Pending, now));
    AddRowKeepsOutbox(db, after.outbox[db.nextRow]);
    StrandedFrame(db, after);
  }

  /** Deleting expired rows and changing the configuration keep it. */
  lemma UpkeepKeepsInv(db: DB, s: Step, now: Time)
    requires Inv(db) && Enabled(db, s)
    requires s.WriteEvent? || s.WriteChannel? || s.WriteRule? || s.DropRule? || s.PurgeOutboxBatch?
             || s.PurgeTimerBatch? || s.PurgeEventBatch?
    ensures FreshIds(db) && Inv(Apply(db, s, now))
  {
    hide Inv, PurgeRows, PurgeEvents, DeleteTimers, ForgetRule;
    assert FreshIds(db) by { InvIds(db); }
    match s {
      case WriteEvent(_, _) => ConfigurationKeeps(db, Apply(db, s, now));
      case WriteChannel(_, _) => ConfigurationKeeps(db, Apply(db, s, now));
      case WriteRule(_, _) => ConfigurationKeeps(db, Apply(db, s, now));
      case DropRule(r) => ForgetRuleKeeps(db, r);
      case PurgeOutboxBatch(ids, _) => PurgeRowsKeeps(db, ids);
      case PurgeTimerBatch(ids, cutoff) => DeleteTimersKeeps(db, ids, cutoff);
      case PurgeEventBatch(ids, _, _) => PurgeEventsKeeps(db, ids);
    }
  }

  /** Every step keeps the invariant: one carrier per notification, unique keys, nobody stranded. */
  lemma StepKeepsInv(db: DB, s: Step, now: Time)
    requires Inv(db) && Enabled(db, s)
    ensures Inv(Apply(db, s, now))
  {
    hide Inv, StageRow, EnsureFollowUp, CancelPending, DispatchTimer, Deliver, ClaimRows, RecoverLeases, ClaimTimers,
      RecoverTimers, PurgeRows, PurgeEvents, DeleteTimers, ForgetRule, Ascending, Take;
    InvIds(db);
    match s {
      case StageOne(e, rule, c, trigger, note) => StageRowKeeps(db, e, rule, c, trigger, note, now);
      case PlanEscalation(e, r) =>
        EnsureFollowUpKeeps(db, Escalation, e, r, now + db.rules[r].escalationAfter.value * MINUTE);
      case CancelTimers(e) => CancelPendingKeeps(db, e, now);
      case StageReport(c, note) => StageReportKeeps(db, c, note, now);
      case ClaimDueRows(worker, limit) =>
        TakenAreDue(DueRows(db, now), limit);
        ClaimRowsKeeps(db, Take(Ascending(DueRows(db, now)), limit), worker, now);
      case DeliverOne(r, attempt) => DeliverKeeps(db, r, attempt, now);
      case RecoverStaleLeases(cutoff) => RecoverLeasesKeeps(db, cutoff);
      case ClaimDueTimers(limit) =>
        TakenAreDue(DueTimers(db, now), limit);
        ClaimTimersKeeps(db, Take(Ascending(DueTimers(db, now)), limit), now);
      case DispatchOne(k, note, fault) => DispatchKeeps(db, k, note, now, fault);
      case RecoverStaleTimers(cutoff) => RecoverTimersKeeps(db, cutoff);
      case _ => UpkeepKeepsInv(db, s, now);
    }
  }

  // ---- runs ----

  datatype Timed = Timed(step: Step, at: Time)

  /** A run from tables that satisfy the invariant (empty ones do), under a clock that never goes back. */
  ghost predicate IsRun(dbs: seq<DB>, steps: seq<Timed>) {
    && |dbs| == |steps| + 1
    && Inv(dbs[0])
    && (forall i :: 0 <= i < |steps| ==>
          FreshIds(dbs[i]) && Enabled(dbs[i], steps[i].step) && dbs[i + 1] == Apply(dbs[i], steps[i].step, steps[i].at))
    && (forall i, j :: 0 <= i < j < |steps| ==> steps[i].at <= steps[j].at)
  }

  lemma EmptyTablesOk(events: map<nat, AlertEvent>, channels: map<nat, Channel>, rules: map<nat, RoutingRule>)
    ensures Inv(DB(map[], map[], events, channels, rules, 0, 0))
  {
  }

  /** Safety over whole runs: the invariant holds in every reachable state. */
  lemma {:induction false} RunKeepsInv(dbs: seq<DB>, steps: seq<Timed>, n: nat)
    requires IsRun(dbs, steps) && n < |dbs|
    ensures Inv(dbs[n])
  {
    hide Inv, Apply;
    if n > 0 {
      RunKeepsInv(dbs, steps, n - 1);
      StepKeepsInv(dbs[n - 1], steps[n - 1].step, steps[n - 1].at);
    }
  }

  /** In every reachable state, a parked row on a live channel has a flush waiting or in flight. */
  lemma NoRowIsEverStranded(dbs: seq<DB>, steps: seq<Timed>, n: nat, r: nat)
    requires IsRun(dbs, steps) && n < |dbs| && r in dbs[n].outbox
    requires dbs[n].outbox[r].status.Digested? && dbs[n].outbox[r].digestedInto.None?
    requires LiveChannel(dbs[n].channels, dbs[n].outbox[r].channel)
    ensures FlushComing(dbs[n], dbs[n].outbox[r].channel)
  {
    hide IsRun;
    RunKeepsInv(dbs, steps, n);
    assert AwaitsFlush(dbs[n].outbox[r], dbs[n].outbox[r].channel);
  }
}
