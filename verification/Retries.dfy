/** The life of a queued row: leases, bounded retries, and what one worker guarantees that two do not. */
module Retries {
  import opened Prelude
  import opened Model
  import opened Staging
  import opened Dispatch
  import opened Delivery
  import opened Retention
  import opened Invariants
  import opened Runs
  import opened Carriers
  import opened RateBound

  predicate RowLife(row: OutboxRow) {
    && (row.status.InProgress? <==> row.lockedBy.Some?)
    && (row.lockedBy.Some? <==> row.lockedAt.Some?)
    && row.attempts <= MAX_ATTEMPTS
    && (row.attempts == MAX_ATTEMPTS ==> row.status.Dead?)
    && (row.status.Digested? ==> row.attempts == 0)
  }

  predicate Life(db: DB) {
    forall r :: r in db.outbox ==> RowLife(db.outbox[r])
  }

  /** Only a row whose lease is still held is delivered. */
  predicate SoleWorker(db: DB, s: Step) {
    s.DeliverOne? && s.id in db.outbox ==> db.outbox[s.id].status.InProgress?
  }

  // ---- the three things that can happen to a row's lease ----

  predicate ClaimedNow(before: DB, s: Step, after: DB, r: nat) {
    s.ClaimDueRows? && r in before.outbox && r in after.outbox
    && before.outbox[r].status.Pending? && after.outbox[r].status.InProgress?
  }

  predicate FailedNow(before: DB, s: Step, r: nat) {
    s.DeliverOne? && s.id == r && r in before.outbox && s.attempt.Fails? && Usable(before, before.outbox[r].channel)
  }

  predicate RecoveredNow(before: DB, s: Step, after: DB, r: nat) {
    s.RecoverStaleLeases? && r in before.outbox && r in after.outbox
    && before.outbox[r].status.InProgress? && after.outbox[r].status.Pending?
  }

  function One(b: bool): nat { if b then 1 else 0 }

  /** Claims not yet answered for by a failure or a recovery. */
  function Open(row: OutboxRow): nat {
    if row.status.InProgress? || row.status.Delivered? || (row.status.Dead? && row.attempts < MAX_ATTEMPTS) then 1
      else 0
  }

  /** How one step moves one row. */
  ghost predicate RowMoves(before: DB, s: Step, after: DB, r: nat)
    requires r in before.outbox && r in after.outbox
  {
    var row, next := before.outbox[r], after.outbox[r];
    && RowLife(next)
    && next.attempts == row.attempts + One(FailedNow(before, s, r))
    && Open(next) + One(FailedNow(before, s, r)) + One(RecoveredNow(before, s, after, r))
       == Open(row) + One(ClaimedNow(before, s, after, r))
    && (Settled(row) ==> next == row.(rule := next.rule))
  }

  lemma ClaimMoves(db: DB, worker: nat, limit: nat, now: Time, r: nat)
    requires r in db.outbox && RowLife(db.outbox[r])
    ensures var after := ClaimRows(db, Take(Ascending(DueRows(db, now)), limit), worker, now);
            RowMoves(db, ClaimDueRows(worker, limit), after, r)
  {
    TakenAreDue(DueRows(db, now), limit);
    if (db.outbox[r].nextAttemptAt, r) in Take(Ascending(DueRows(db, now)), limit) {
      assert (db.outbox[r].nextAttemptAt, r) in DueRows(db, now);
    }
  }

  lemma DeliverMoves(db: DB, id: nat, attempt: Attempt, now: Time, r: nat)
    requires id in db.outbox && db.outbox[id].status.InProgress? && r in db.outbox && RowLife(db.outbox[r])
    ensures RowMoves(db, DeliverOne(id, attempt), Deliver(db, id, attempt, now), r)
  {
  }

  /** A flush turns only parked rows: it links them, or puts a lone one back in the queue. */
  predicate FlushTurns(row: OutboxRow, next: OutboxRow) {
    next == row
    || (row.status.Digested?
        && (next == row.(status := Pending) || next == row.(digestedInto := next.digestedInto)))
  }

  lemma FlushedTurns(db: DB, c: nat, now: Time, r: nat)
    requires FreshIds(db) && r in db.outbox && |Parked(db, c)| >= 2
    ensures r in Flushed(db, c, now).outbox && FlushTurns(db.outbox[r], Flushed(db, c, now).outbox[r])
  {
    hide Flushed;
    FlushedLinks(db, c, now);
  }

  lemma FlushMoves(db: DB, a: ScheduledAction, now: Time, fault: Fault, r: nat)
    requires FreshIds(db) && r in db.outbox
    ensures var o := DispatchFlush(db, a, now, fault);
            o.Skipped? || (r in o.db.outbox && FlushTurns(db.outbox[r], o.db.outbox[r]))
  {
    if DispatchFlush(db, a, now, fault).Completed? {
      var c := a.channel.value;
      if |Parked(db, c)| >= 2 {
        FlushedTurns(db, c, now, r);
      } else if |Parked(db, c)| == 1 {
        assert Parked(db, c)[0] in Parked(db, c);
      }
    }
    hide FlushTurns;
  }

  lemma DispatchTurns(db: DB, k: nat, note: Note, now: Time, fault: Fault, r: nat)
    requires FreshIds(db) && k in db.actions && r in db.outbox
    ensures r in DispatchTimer(db, k, note, now, fault).outbox
    ensures FlushTurns(db.outbox[r], DispatchTimer(db, k, note, now, fault).outbox[r])
  {
    hide DispatchEscalation, DispatchRenotify, DispatchFlush;
    var a := db.actions[k];
    match a.kind {
      case Escalation => EscalationAppends(db, a, note, now, fault);
      case Renotify => RenotifyAppends(db, k, a, note, now, fault);
      case DigestFlush => FlushMoves(db, a, now, fault, r);
      case UnknownKind =>
    }
  }

  lemma ForgetMoves(db: DB, rule: nat, r: nat)
    requires r in db.outbox && RowLife(db.outbox[r])
    ensures RowMoves(db, DropRule(rule), ForgetRule(db, rule), r)
  {
  }

  lemma RecoverMoves(db: DB, cutoff: Time, r: nat)
    requires r in db.outbox && RowLife(db.outbox[r])
    ensures RowMoves(db, RecoverStaleLeases(cutoff), RecoverLeases(db, cutoff), r)
  {
  }

  predicate TouchesRows(s: Step) {
    s.DropRule? || s.ClaimDueRows? || s.RecoverStaleLeases? || s.DeliverOne? || s.DispatchOne?
  }

  lemma IdsAreSmall(db: DB, r: nat)
    requires FreshIds(db) && r in db.outbox
    ensures r < db.nextRow
  {
  }

  lemma PurgesLeaveRows(db: DB, ids: set<nat>, r: nat)
    requires RowsOk(db) && r in db.outbox
    ensures r in PurgeRows(db, ids).outbox ==> PurgeRows(db, ids).outbox[r] == db.outbox[r]
    ensures r in PurgeEvents(db, ids).outbox ==> PurgeEvents(db, ids).outbox[r] == db.outbox[r]
  {
    hide RowsOk, PurgeRows, DeleteRows;
    PurgeRowsGo(db, ids);
    OrdinaryRowsAbout(db, ids);
    RemovingOrdinaryRows(db, RowsAbout(db, ids));
  }

  lemma OtherStepsLeaveRows(db: DB, s: Step, now: Time, r: nat)
    requires Inv(db) && Enabled(db, s) && !TouchesRows(s) && r in db.outbox && r in Apply(db, s, now).outbox
    ensures Apply(db, s, now).outbox[r] == db.outbox[r]
  {
    hide Inv, Apply, Enabled;
    InvIds(db);
    if Quiet(s) { QuietStepsKeepRows(db, s, now); } else { AddingOrPurgingLeavesRows(db, s, now, r); }
  }

  lemma AddingOrPurgingLeavesRows(db: DB, s: Step, now: Time, r: nat)
    requires Inv(db) && Enabled(db, s) && !TouchesRows(s) && !Quiet(s) && r in db.outbox
    requires FreshIds(db) && r in Apply(db, s, now).outbox
    ensures Apply(db, s, now).outbox[r] == db.outbox[r]
  {
    assert RowsOk(db);
    hide Inv, StageRow, PurgeRows, PurgeEvents, RowsOk, FreshIds;
    match s {
      case StageOne(e, rule, c, trigger, note) => StageRowAppends(db, e, rule, c, trigger, note, now);
      case StageReport(_, _) => assert r != db.nextRow by { IdsAreSmall(db, r); }
      case PurgeOutboxBatch(ids, _) => PurgesLeaveRows(db, ids, r);
      case PurgeEventBatch(ids, _, _) => PurgesLeaveRows(db, ids, r);
    }
  }

  lemma StepMoves(db: DB, s: Step, now: Time, r: nat)
    requires Inv(db) && Enabled(db, s) && SoleWorker(db, s)
    requires r in db.outbox && RowLife(db.outbox[r]) && r in Apply(db, s, now).outbox
    ensures RowMoves(db, s, Apply(db, s, now), r)
  {
    if s.DispatchOne? {
      DispatchTurns(db, s.timer, s.payload, now, s.fault, r);
      UnmovedIsBalanced(db, s, DispatchTimer(db, s.timer, s.payload, now, s.fault), r);
    } else if TouchesRows(s) {
      RowStepMoves(db, s, now, r);
    } else {
      OtherStepsLeaveRows(db, s, now, r);
      UnmovedIsBalanced(db, s, Apply(db, s, now), r);
    }
    hide Inv, DispatchTimer, RowMoves, RowLife, SoleWorker, StageRow, EnsureFollowUp, Deliver, ClaimRows, ForgetRule,
      RecoverLeases, PurgeRows, PurgeEvents, DeleteTimers, CancelPending, ClaimTimers, RecoverTimers;
  }

  lemma RowStepMoves(db: DB, s: Step, now: Time, r: nat)
    requires FreshIds(db) && Enabled(db, s) && SoleWorker(db, s) && r in db.outbox && RowLife(db.outbox[r])
    requires TouchesRows(s) && !s.DispatchOne? && r in Apply(db, s, now).outbox
    ensures RowMoves(db, s, Apply(db, s, now), r)
  {
    hide Deliver, ClaimRows, ForgetRule, RecoverLeases, RowMoves;
    match s {
      case DropRule(rule) => ForgetMoves(db, rule, r);
      case RecoverStaleLeases(cutoff) => RecoverMoves(db, cutoff, r);
      case ClaimDueRows(worker, limit) => ClaimMoves(db, worker, limit, now, r);
      case DeliverOne(id, attempt) => DeliverMoves(db, id, attempt, now, r);
    }
  }

  lemma UnmovedIsBalanced(before: DB, s: Step, after: DB, r: nat)
    requires r in before.outbox && r in after.outbox && RowLife(before.outbox[r])
    requires FlushTurns(before.outbox[r], after.outbox[r])
    requires !s.ClaimDueRows? && !s.RecoverStaleLeases? && !s.DeliverOne?
    ensures RowMoves(before, s, after, r)
  {
  }

  /** A row that appears in a step starts its life with no attempt and no lease. */
  lemma NewRowsAreUntried(db: DB, s: Step, now: Time, r: nat)
    requires Inv(db) && Enabled(db, s) && r !in db.outbox && r in Apply(db, s, now).outbox
    ensures RowLife(Apply(db, s, now).outbox[r]) && Apply(db, s, now).outbox[r].attempts == 0
    ensures Open(Apply(db, s, now).outbox[r]) == 0
  {
    hide Inv, Apply, Enabled;
    InvIds(db);
    if Updates(s) { RowIds(db, s, now); } else { AddedRowIsUntried(db, s, now, r); }
  }

  lemma AddedRowIsUntried(db: DB, s: Step, now: Time, r: nat)
    requires FreshIds(db) && Enabled(db, s) && !Updates(s) && r !in db.outbox && r in Apply(db, s, now).outbox
    ensures Untried(Apply(db, s, now).outbox[r])
  {
    hide StageRow, DispatchTimer;
    match s {
      case StageOne(e, rule, c, trigger, note) => StagedOutbox(db, e, rule, c, trigger, note, now);
      case DispatchOne(k, note, fault) => DispatchedRowsUntried(db, k, note, now, fault, r);
      case StageReport(_, _) =>
    }
  }

  predicate Untried(row: OutboxRow) {
    row.attempts == 0 && row.lockedBy.None? && row.lockedAt.None? && (row.status.Pending? || row.status.Digested?)
  }

  lemma {:induction false} StagedRowsUntried(db: DB, event: nat, rule: Option<nat>, cs: seq<nat>, trigger: Trigger,
                                             note: Note, now: Time)
    requires FreshIds(db) && forall c :: c in cs ==> c in db.channels
    ensures var after := StageAll(db, event, rule, cs, trigger, note, now).0;
            forall r :: r in after.outbox && r !in db.outbox ==> Untried(after.outbox[r])
  {
    if cs != [] {
      var front := cs[..|cs| - 1];
      StagedRowsUntried(db, event, rule, front, trigger, note, now);
      StageAllAppends(db, event, rule, front, trigger, note, now);
      var (before, ok) := StageAll(db, event, rule, front, trigger, note, now);
      if ok { StagedOutbox(before, event, rule, cs[|cs| - 1], trigger, note, now); }
      hide StageRow;
    }
  }

  lemma StagedUnderUntried(db: DB, event: nat, rule: nat, cs: seq<nat>, trigger: Trigger, note: Note, now: Time,
                           fault: Fault)
    requires FreshIds(db) && forall c :: c in cs ==> c in db.channels
    ensures var after := StageUnder(db, event, rule, cs, trigger, note, now, fault).0;
            forall r :: r in after.outbox && r !in db.outbox ==> Untried(after.outbox[r])
  {
    hide StageAll;
    StagedRowsUntried(db, event, Some(rule), cs, trigger, note, now);
    if fault.After? && fault.staged < |cs| {
      StagedRowsUntried(db, event, Some(rule), cs[..fault.staged], trigger, note, now);
    }
  }

  lemma EscalationUntried(db: DB, a: ScheduledAction, note: Note, now: Time, fault: Fault)
    requires FreshIds(db)
    ensures var o := DispatchEscalation(db, a, note, now, fault);
            o.Skipped? || forall r :: r in o.db.outbox && r !in db.outbox ==> Untried(o.db.outbox[r])
  {
    hide StageUnder;
    if a.event.Some? && a.rule.Some? && a.rule.value in db.rules {
      var rule := db.rules[a.rule.value];
      StagedUnderUntried(db, a.event.value, a.rule.value, Allowed(db, rule.team, rule.escalationChannels),
                         OnEscalation, note, now, fault);
    }
  }

  lemma RenotifyUntried(db: DB, k: nat, a: ScheduledAction, note: Note, now: Time, fault: Fault)
    requires FreshIds(db)
    ensures var o := DispatchRenotify(db, k, a, note, now, fault);
            o.Skipped? || forall r :: r in o.db.outbox && r !in db.outbox ==> Untried(o.db.outbox[r])
  {
    hide StageUnder;
    if a.event.Some? && a.rule.Some? && a.rule.value in db.rules {
      StagedUnderUntried(db, a.event.value, a.rule.value, Live(db, db.rules[a.rule.value].channels), OnRenotify(k),
                         note, now, fault);
    }
  }

  lemma FlushUntried(db: DB, a: ScheduledAction, now: Time, fault: Fault)
    requires FreshIds(db)
    ensures var o := DispatchFlush(db, a, now, fault);
            o.Skipped? || forall r :: r in o.db.outbox && r !in db.outbox ==> Untried(o.db.outbox[r])
  {
    hide Flushed;
    if DispatchFlush(db, a, now, fault).Completed? {
      var c := a.channel.value;
      if |Parked(db, c)| >= 2 {
        FlushedLinks(db, c, now);
        FlushedRow(db, c, now);
      } else if |Parked(db, c)| == 1 {
        assert Parked(db, c)[0] in Parked(db, c);
      }
    }
  }

  lemma DispatchedRowsUntried(db: DB, k: nat, note: Note, now: Time, fault: Fault, r: nat)
    requires FreshIds(db) && k in db.actions && r !in db.outbox && r in DispatchTimer(db, k, note, now, fault).outbox
    ensures Untried(DispatchTimer(db, k, note, now, fault).outbox[r])
  {
    hide DispatchEscalation, DispatchRenotify, DispatchFlush;
    var a := db.actions[k];
    match a.kind {
      case Escalation => EscalationUntried(db, a, note, now, fault);
      case Renotify => RenotifyUntried(db, k, a, note, now, fault);
      case DigestFlush => FlushUntried(db, a, now, fault);
      case UnknownKind =>
    }
  }

  /** Leases and attempt counts stay in order: 'in_progress' exactly while the lock fields are set. */
  lemma StepKeepsLife(db: DB, s: Step, now: Time)
    requires Inv(db) && Enabled(db, s) && SoleWorker(db, s) && Life(db)
    ensures Life(Apply(db, s, now))
  {
    forall r | r in Apply(db, s, now).outbox ensures RowLife(Apply(db, s, now).outbox[r]) {
      if r in db.outbox { StepMoves(db, s, now, r); } else { NewRowsAreUntried(db, s, now, r); }
    }
    hide Inv, Apply;
  }

  // ---- one worker, and what it has in hand ----

  /** The rows whose delivery the worker still owes: those it claimed in its batch and has not come to yet. */
  type Hands = set<nat>

  /**
   One worker's loop: it claims a batch, and recovers leases, only with empty hands, and delivers only a row it
   holds. A crash, or a row passed over, may empty its hands at any moment.
   */
  ghost predicate Works(before: DB, s: Step, after: DB, held: Hands, left: Hands) {
    match s
    case ClaimDueRows(_, _) => held == {} && forall r :: r in left ==> ClaimedNow(before, s, after, r)
    case DeliverOne(r, _) => r in held && left <= held - {r}
    case RecoverStaleLeases(_) => held == {} && left == {}
    case _ => left <= held
  }

  /** A run in which a single worker, starting with empty hands, does all the claiming, delivering and recovering. */
  ghost predicate WorkerRun(dbs: seq<DB>, steps: seq<Timed>, hands: seq<Hands>) {
    && IsRun(dbs, steps) && Life(dbs[0]) && |hands| == |dbs| && hands[0] == {}
    && forall i :: 0 <= i < |steps| ==> Works(dbs[i], steps[i].step, dbs[i + 1], hands[i], hands[i + 1])
  }

  predicate HeldInProgress(db: DB, held: Hands) {
    forall r :: r in held ==> r < db.nextRow && (r in db.outbox ==> db.outbox[r].status.InProgress?)
  }

  lemma DeliveryLeavesOthers(db: DB, id: nat, attempt: Attempt, now: Time, r: nat)
    requires id in db.outbox && r in db.outbox && r != id
    ensures r in Deliver(db, id, attempt, now).outbox && Deliver(db, id, attempt, now).outbox[r] == db.outbox[r]
  {
    hide Usable, Backoff, StartsRenotify, MarkFailure, WaitingFollowUps;
    if StartsRenotify(db, db.outbox[id]) { RenotifyStarts(db, db.outbox[id]); }
  }

  /** A row in progress stays so until it is delivered or its lease is recovered. */
  lemma InProgressStays(db: DB, s: Step, now: Time, r: nat)
    requires Inv(db) && Enabled(db, s) && r in db.outbox && r in Apply(db, s, now).outbox
    requires db.outbox[r].status.InProgress? && !s.RecoverStaleLeases? && !(s.DeliverOne? && s.id == r)
    ensures Apply(db, s, now).outbox[r].status.InProgress?
  {
    hide Inv, Apply, Enabled;
    InvIds(db);
    if TouchesRows(s) {
      TouchedStaysInProgress(db, s, now, r);
    } else {
      OtherStepsLeaveRows(db, s, now, r);
    }
  }

  lemma TouchedStaysInProgress(db: DB, s: Step, now: Time, r: nat)
    requires FreshIds(db) && Enabled(db, s) && r in db.outbox && TouchesRows(s) && r in Apply(db, s, now).outbox
    requires db.outbox[r].status.InProgress? && !s.RecoverStaleLeases? && !(s.DeliverOne? && s.id == r)
    ensures Apply(db, s, now).outbox[r].status.InProgress?
  {
    hide FreshIds, DispatchTimer, Deliver, ClaimRows, ForgetRule, Ascending, Take;
    match s {
      case DispatchOne(k, note, fault) => DispatchTurns(db, k, note, now, fault, r);
      case DeliverOne(id, attempt) => DeliveryLeavesOthers(db, id, attempt, now, r);
      case DropRule(rule) => ForgottenRow(db, rule, r);
      case ClaimDueRows(worker, limit) => ClaimedRow(db, Take(Ascending(DueRows(db, now)), limit), worker, now, r);
    }
  }

  lemma ForgottenRow(db: DB, rule: nat, r: nat)
    requires r in db.outbox
    ensures r in ForgetRule(db, rule).outbox
    ensures ForgetRule(db, rule).outbox[r] == db.outbox[r].(rule := ForgetRule(db, rule).outbox[r].rule)
  {
  }

  lemma ClaimedRow(db: DB, claimed: seq<Key>, worker: nat, now: Time, r: nat)
    requires r in db.outbox
    ensures var after := ClaimRows(db, claimed, worker, now);
            r in after.outbox && (after.outbox[r] == db.outbox[r] || after.outbox[r].status.InProgress?)
  {
  }

  /** One step of the worker's loop: what it delivers is in progress, and so is what it still holds afterwards. */
  lemma WorkKeepsHeld(db: DB, s: Step, now: Time, held: Hands, left: Hands)
    requires Inv(db) && Enabled(db, s) && HeldInProgress(db, held)
    requires FreshIds(db) && Works(db, s, Apply(db, s, now), held, left)
    ensures SoleWorker(db, s) && HeldInProgress(Apply(db, s, now), left)
  {
    hide Inv, Apply, Enabled, FreshIds;
    var after := Apply(db, s, now);
    StepAges(db, s, now);
    forall r | r in left ensures r < after.nextRow && (r in after.outbox ==> after.outbox[r].status.InProgress?) {
      if s.ClaimDueRows? {
        IdsAreSmall(db, r);
      } else if r in after.outbox {
        InProgressStays(db, s, now, r);
      }
    }
  }

  lemma {:induction false} WorkerRunHolds(dbs: seq<DB>, steps: seq<Timed>, hands: seq<Hands>, n: nat)
    requires WorkerRun(dbs, steps, hands) && n < |dbs|
    ensures HeldInProgress(dbs[n], hands[n])
  {
    hide Inv, Apply, Enabled, Works;
    if n > 0 {
      WorkerRunHolds(dbs, steps, hands, n - 1);
      RunKeepsInv(dbs, steps, n - 1);
      WorkKeepsHeld(dbs[n - 1], steps[n - 1].step, steps[n - 1].at, hands[n - 1], hands[n]);
    }
  }

  /** A single worker never delivers a row whose lease it has lost. */
  lemma WorkerRunIsSole(dbs: seq<DB>, steps: seq<Timed>, hands: seq<Hands>, i: nat)
    requires WorkerRun(dbs, steps, hands) && i < |steps|
    ensures SoleWorker(dbs[i], steps[i].step)
  {
    hide Inv, Apply, Enabled, SoleWorker, Works;
    WorkerRunHolds(dbs, steps, hands, i);
    RunKeepsInv(dbs, steps, i);
    WorkKeepsHeld(dbs[i], steps[i].step, steps[i].at, hands[i], hands[i + 1]);
  }

  /** With a single worker, in every reachable state: 'in_progress' exactly while the lock fields are set, and so on. */
  lemma {:induction false} LeasesInOrder(dbs: seq<DB>, steps: seq<Timed>, hands: seq<Hands>, n: nat)
    requires WorkerRun(dbs, steps, hands) && n < |dbs|
    ensures Life(dbs[n])
  {
    if n > 0 {
      LeasesInOrder(dbs, steps, hands, n - 1);
      WorkerRunIsSole(dbs, steps, hands, n - 1);
      RunKeepsInv(dbs, steps, n - 1);
      StepKeepsLife(dbs[n - 1], steps[n - 1].step, steps[n - 1].at);
    }
    hide Inv, Apply, Enabled, Works, Life;
  }

  /** 'delivered' and 'dead' are absorbing with a single worker: only the reference to a deleted rule is cleared. */
  lemma {:induction false} SettledForGood(dbs: seq<DB>, steps: seq<Timed>, hands: seq<Hands>, i: nat, j: nat, r: nat)
    requires WorkerRun(dbs, steps, hands) && i <= j < |dbs| && r in dbs[i].outbox && r in dbs[j].outbox
    requires Settled(dbs[i].outbox[r])
    ensures dbs[j].outbox[r] == dbs[i].outbox[r].(rule := dbs[j].outbox[r].rule)
  {
    hide Inv, Apply, Enabled, Works, Life;
    if i < j {
      RowNeverReturns(dbs, steps, i, j - 1, j, r);
      SettledForGood(dbs, steps, hands, i, j - 1, r);
      LeasesInOrder(dbs, steps, hands, j - 1);
      WorkerRunIsSole(dbs, steps, hands, j - 1);
      RunKeepsInv(dbs, steps, j - 1);
      LifeOf(dbs[j - 1], r);
      StepMoves(dbs[j - 1], steps[j - 1].step, steps[j - 1].at, r);
    }
  }

  lemma LifeOf(db: DB, r: nat)
    requires Life(db) && r in db.outbox
    ensures RowLife(db.outbox[r])
  {
  }

  // ---- bounded retries over a run ----

  ghost function Claims(dbs: seq<DB>, steps: seq<Timed>, r: nat, n: nat): nat
    requires n <= |steps| && |dbs| == |steps| + 1
  {
    if n == 0 then 0 else Claims(dbs, steps, r, n - 1) + One(ClaimedNow(dbs[n - 1], steps[n - 1].step, dbs[n], r))
  }

  ghost function Failures(dbs: seq<DB>, steps: seq<Timed>, r: nat, n: nat): nat
    requires n <= |steps| && |dbs| == |steps| + 1
  {
    if n == 0 then 0 else Failures(dbs, steps, r, n - 1) + One(FailedNow(dbs[n - 1], steps[n - 1].step, r))
  }

  ghost function Recoveries(dbs: seq<DB>, steps: seq<Timed>, r: nat, n: nat): nat
    requires n <= |steps| && |dbs| == |steps| + 1
  {
    if n == 0 then 0 else Recoveries(dbs, steps, r, n - 1) + One(RecoveredNow(dbs[n - 1], steps[n - 1].step, dbs[n], r))
  }

  /** The failures and the open claim a row brings into the run. */
  function BroughtIn(db: DB, r: nat): (nat, nat) {
    if r in db.outbox then (db.outbox[r].attempts, Open(db.outbox[r])) else (0, 0)
  }

  /** The ledger of one row: what it brought into the run, and what happened to it since. */
  ghost predicate Balanced(dbs: seq<DB>, steps: seq<Timed>, r: nat, n: nat)
    requires n <= |steps| && |dbs| == |steps| + 1
  {
    var (failed, open) := BroughtIn(dbs[0], r);
    if r in dbs[n].outbox then
      && failed + Failures(dbs, steps, r, n) == dbs[n].outbox[r].attempts
      && open + Claims(dbs, steps, r, n)
         == Failures(dbs, steps, r, n) + Recoveries(dbs, steps, r, n) + Open(dbs[n].outbox[r])
    else r >= dbs[n].nextRow ==>
      && failed == 0 && open == 0
      && Claims(dbs, steps, r, n) == 0 && Failures(dbs, steps, r, n) == 0 && Recoveries(dbs, steps, r, n) == 0
  }

  lemma {:induction false} RunIsBalanced(dbs: seq<DB>, steps: seq<Timed>, hands: seq<Hands>, r: nat, n: nat)
    requires WorkerRun(dbs, steps, hands) && n <= |steps|
    ensures Balanced(dbs, steps, r, n)
  {
    hide Apply, Enabled, Inv, Works;
    RunKeepsInv(dbs, steps, n);
    InvIds(dbs[n]);
    if n > 0 {
      var db, s, now := dbs[n - 1], steps[n - 1].step, steps[n - 1].at;
      RunIsBalanced(dbs, steps, hands, r, n - 1);
      RunKeepsInv(dbs, steps, n - 1);
      LeasesInOrder(dbs, steps, hands, n - 1);
      WorkerRunIsSole(dbs, steps, hands, n - 1);
      StepAges(db, s, now);
      if r in dbs[n].outbox {
        if r in db.outbox { StepMoves(db, s, now, r); } else { NewRowsAreUntried(db, s, now, r); }
      }
    }
  }

  /**
   Bounded retries. In a single-worker run a row, whether it was queued before the run or staged in it, is attempted
   at most eight times plus once for every lease that had to be recovered, counting what it had behind it; it fails
   at most eight times, and a row still in the queue failed at most seven.
   */
  lemma RetriesAreBounded(dbs: seq<DB>, steps: seq<Timed>, hands: seq<Hands>, r: nat, n: nat)
    requires WorkerRun(dbs, steps, hands) && n <= |steps| && r in dbs[n].outbox
    ensures var (failed, open) := BroughtIn(dbs[0], r);
            && failed + Failures(dbs, steps, r, n) <= MAX_ATTEMPTS
            && failed + open + Claims(dbs, steps, r, n) <= MAX_ATTEMPTS + Recoveries(dbs, steps, r, n)
            && (dbs[n].outbox[r].status.Pending? || dbs[n].outbox[r].status.InProgress? ==>
                  failed + Failures(dbs, steps, r, n) <= MAX_ATTEMPTS - 1)
  {
    assert n < |dbs|;
    hide WorkerRun;
    RunIsBalanced(dbs, steps, hands, r, n);
    LeasesInOrder(dbs, steps, hands, n);
    LifeOf(dbs[n], r);
  }

  // ---- the backoff schedule ----

  lemma {:induction false} Pow2Grows(a: nat, b: nat)
    requires a <= b
    ensures Pow2(a) <= Pow2(b)
  {
    if a < b { Pow2Grows(a, b - 1); }
  }

  /** Waits never shrink from one failure to the next, jitter aside, and stop growing at half an hour. */
  lemma WaitsNeverShrink(a: nat, b: nat)
    requires a <= b
    ensures Backoff(a) <= Backoff(b) <= MAX_BACKOFF_SECONDS * SECOND
  {
    Pow2Grows(a, b);
  }

  /** What a row looks like after failing at the given times, and how long it was told to wait in all. */
  ghost function FailAll(row: OutboxRow, times: seq<Time>, jitters: seq<int>): (OutboxRow, int)
    requires |times| == |jitters|
  {
    if times == [] then (row, 0)
    else
      var last := |times| - 1;
      var (before, waited) := FailAll(row, times[..last], jitters[..last]);
      var after := MarkFailure(before, times[last], jitters[last]);
      (after, waited + if after.status.Pending? then after.nextAttemptAt - times[last] else 0)
  }

  ghost function BackoffSum(n: nat): int {
    if n == 0 then 0 else BackoffSum(n - 1) + Backoff(n)
  }

  lemma {:induction false} FailuresAddUp(row: OutboxRow, times: seq<Time>, jitters: seq<int>)
    requires |times| == |jitters| <= MAX_ATTEMPTS && row.attempts == 0
    requires forall i :: 0 <= i < |jitters| ==> 0 <= jitters[i] <= JITTER_MAX_SECONDS * SECOND
    ensures var (after, waited) := FailAll(row, times, jitters);
            var waits := if |times| == MAX_ATTEMPTS then MAX_ATTEMPTS - 1 else |times|;
            && after.attempts == |times|
            && (|times| == MAX_ATTEMPTS <==> times != [] && after.status.Dead?)
            && BackoffSum(waits) <= waited <= BackoffSum(waits) + waits * JITTER_MAX_SECONDS * SECOND
  {
    if times != [] {
      var last := |times| - 1;
      FailuresAddUp(row, times[..last], jitters[..last]);
    }
  }

  /** Exhausting all eight attempts schedules between 5460 and 5565 seconds of waiting, then the row is dead. */
  lemma ExhaustionTakes(row: OutboxRow, times: seq<Time>, jitters: seq<int>)
    requires |times| == |jitters| == MAX_ATTEMPTS && row.attempts == 0
    requires forall i :: 0 <= i < |jitters| ==> 0 <= jitters[i] <= JITTER_MAX_SECONDS * SECOND
    ensures FailAll(row, times, jitters).0.status.Dead?
    ensures 5460 * SECOND <= FailAll(row, times, jitters).1 <= 5565 * SECOND
  {
    FailuresAddUp(row, times, jitters);
    assert Pow2(1) == 2 && Pow2(2) == 4 && Pow2(3) == 8 && Pow2(4) == 16 && Pow2(5) == 32 && Pow2(6) == 64
      && Pow2(7) == 128;
    assert BackoffSum(3) == (60 + 120 + 240) * SECOND;
    assert BackoffSum(5) == (60 + 120 + 240 + 480 + 960) * SECOND;
    assert BackoffSum(7) == 5460 * SECOND;
  }
}
