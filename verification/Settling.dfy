/**
 When a settled row moves again. 'delivered' and 'dead' are meant to be final; `deliver` does not look at the status it
 overwrites, so a worker that lost its lease can undo either. Exactly which deliveries do.
 */
module Settling {
  import opened Prelude
  import opened Model
  import opened Staging
  import opened Dispatch
  import opened Delivery
  import opened Retention
  import opened Invariants
  import opened Runs
  import opened Carriers
  import opened OneTimer
  import opened Retries

  /** A late failure that may be tried again: it puts the row back in the queue, whatever its status was. */
  predicate Requeues(db: DB, s: Step, r: nat)
    requires r in db.outbox
  {
    s.DeliverOne? && s.id == r && s.attempt.Fails? && Usable(db, db.outbox[r].channel)
    && db.outbox[r].attempts + 1 < MAX_ATTEMPTS
  }

  /** A late outcome that takes 'delivered' back: a failure, or finding that there is nothing to deliver with. */
  predicate TakesBack(db: DB, s: Step, r: nat)
    requires r in db.outbox
  {
    s.DeliverOne? && s.id == r
    && (!Usable(db, db.outbox[r].channel) || s.attempt.UnknownType? || s.attempt.InvalidConfig? || s.attempt.Fails?)
  }

  /** A late outcome that revives a 'dead' row: a failure with attempts to spare, or a send whose lookup is fine. */
  predicate Revives(db: DB, s: Step, r: nat)
    requires r in db.outbox
  {
    s.DeliverOne? && s.id == r && Usable(db, db.outbox[r].channel)
    && ((s.attempt.Fails? && db.outbox[r].attempts + 1 < MAX_ATTEMPTS)
        || (s.attempt.Succeeds? && !LookupRaises(db, db.outbox[r])))
  }

  /** What one delivery makes of a row's status, whatever it was before. */
  lemma StatusAfter(db: DB, r: nat, attempt: Attempt, now: Time)
    requires r in db.outbox
    ensures var row := db.outbox[r];
            var after := Deliver(db, r, attempt, now).outbox;
            && r in after
            && after[r].status
               == if !Usable(db, row.channel) || attempt.UnknownType? || attempt.InvalidConfig? then Dead
                  else if attempt.Fails? then if row.attempts + 1 < MAX_ATTEMPTS then Pending else Dead
                  else if attempt.Succeeds? && !LookupRaises(db, row) then Delivered
                  else row.status
  {
    hide Backoff, Usable, WaitingFollowUps, EnsureFollowUp;
    var row := db.outbox[r];
    if StartsRenotify(db, row) {
      var delivered := PutRow(db, r, MarkDelivered(row, now));
      RowsAreNoTimers(db, r, MarkDelivered(row, now), row.event.value, row.rule.value);
      EnsureRaises(delivered, Renotify, row.event.value, row.rule.value);
    }
  }

  lemma ClaimsOnlyPending(db: DB, worker: nat, limit: nat, now: Time, r: nat)
    requires r in db.outbox && !db.outbox[r].status.Pending?
    ensures var after := ClaimRows(db, Take(Ascending(DueRows(db, now)), limit), worker, now).outbox;
            r in after && after[r] == db.outbox[r]
  {
    hide Ascending, Take;
    TakenAreDue(DueRows(db, now), limit);
  }

  /** Nothing but its own delivery changes a settled row's status. */
  lemma OnlyDeliveryMoves(db: DB, s: Step, now: Time, r: nat)
    requires Inv(db) && Enabled(db, s) && r in db.outbox && Settled(db.outbox[r]) && r in Apply(db, s, now).outbox
    requires !(s.DeliverOne? && s.id == r)
    ensures Apply(db, s, now).outbox[r].status == db.outbox[r].status
  {
    hide Inv, Apply, Enabled;
    InvIds(db);
    if TouchesRows(s) {
      TouchedStaysSettled(db, s, now, r);
    } else {
      OtherStepsLeaveRows(db, s, now, r);
    }
  }

  lemma TouchedStaysSettled(db: DB, s: Step, now: Time, r: nat)
    requires FreshIds(db) && Enabled(db, s) && r in db.outbox && Settled(db.outbox[r]) && TouchesRows(s)
    requires r in Apply(db, s, now).outbox && !(s.DeliverOne? && s.id == r)
    ensures Apply(db, s, now).outbox[r].status == db.outbox[r].status
  {
    hide FreshIds, DispatchTimer, Deliver, ClaimRows, ForgetRule, Ascending, Take;
    match s {
      case DispatchOne(k, note, fault) => DispatchTurns(db, k, note, now, fault, r);
      case DeliverOne(id, attempt) => DeliveryLeavesOthers(db, id, attempt, now, r);
      case DropRule(rule) => ForgottenRow(db, rule, r);
      case ClaimDueRows(worker, limit) => ClaimsOnlyPending(db, worker, limit, now, r);
      case RecoverStaleLeases(_) =>
    }
  }

  /** A settled row stays settled through a step exactly unless the step is a late failure that may be tried again. */
  lemma SettledUnlessRequeued(db: DB, s: Step, now: Time, r: nat)
    requires Inv(db) && Enabled(db, s) && r in db.outbox && Settled(db.outbox[r]) && r in Apply(db, s, now).outbox
    ensures Settled(Apply(db, s, now).outbox[r]) <==> !Requeues(db, s, r)
  {
    InvIds(db);
    hide Inv, FreshIds, Deliver, Usable, LookupRaises;
    if s.DeliverOne? && s.id == r {
      StatusAfter(db, r, s.attempt, now);
    } else {
      hide Apply;
      OnlyDeliveryMoves(db, s, now, r);
    }
  }

  /** A delivered row stays delivered exactly unless a late outcome takes it back. */
  lemma DeliveredUnlessTakenBack(db: DB, s: Step, now: Time, r: nat)
    requires Inv(db) && Enabled(db, s) && r in db.outbox && r in Apply(db, s, now).outbox
    requires db.outbox[r].status.Delivered?
    ensures Apply(db, s, now).outbox[r].status.Delivered? <==> !TakesBack(db, s, r)
  {
    InvIds(db);
    hide Inv, FreshIds, Deliver, Usable, LookupRaises;
    if s.DeliverOne? && s.id == r {
      StatusAfter(db, r, s.attempt, now);
    } else {
      hide Apply;
      OnlyDeliveryMoves(db, s, now, r);
    }
  }

  /** A dead row stays dead exactly unless a late outcome revives it. */
  lemma DeadUnlessRevived(db: DB, s: Step, now: Time, r: nat)
    requires Inv(db) && Enabled(db, s) && r in db.outbox && r in Apply(db, s, now).outbox
    requires db.outbox[r].status.Dead?
    ensures Apply(db, s, now).outbox[r].status.Dead? <==> !Revives(db, s, r)
  {
    InvIds(db);
    hide Inv, FreshIds, Deliver, Usable, LookupRaises;
    if s.DeliverOne? && s.id == r {
      StatusAfter(db, r, s.attempt, now);
    } else {
      hide Apply;
      OnlyDeliveryMoves(db, s, now, r);
    }
  }

  // ---- over whole runs ----

  /** In state `k` of a run the row is there, and settled. */
  predicate SettledAt(dbs: seq<DB>, k: nat, r: nat) {
    k < |dbs| && r in dbs[k].outbox && Settled(dbs[k].outbox[r])
  }

  predicate DeliveredAt(dbs: seq<DB>, k: nat, r: nat) {
    k < |dbs| && r in dbs[k].outbox && dbs[k].outbox[r].status.Delivered?
  }

  /** Step `k` of a run is not a late failure that puts the row back. */
  predicate Spared(dbs: seq<DB>, steps: seq<Timed>, k: nat, r: nat) {
    k < |dbs| && k < |steps| && r in dbs[k].outbox && !Requeues(dbs[k], steps[k].step, r)
  }

  predicate NotTakenBack(dbs: seq<DB>, steps: seq<Timed>, k: nat, r: nat) {
    k < |dbs| && k < |steps| && r in dbs[k].outbox && !TakesBack(dbs[k], steps[k].step, r)
  }

  /** 'delivered' and 'dead' are absorbing in a run exactly while no late failure puts the row back. */
  lemma {:induction false} SettledOverRuns(dbs: seq<DB>, steps: seq<Timed>, i: nat, j: nat, r: nat)
    requires IsRun(dbs, steps) && i <= j < |dbs| && SettledAt(dbs, i, r) && r in dbs[j].outbox
    ensures (forall k :: i <= k <= j ==> SettledAt(dbs, k, r)) <==> forall k :: i <= k < j ==> Spared(dbs, steps, k, r)
  {
    hide Inv, Apply, Enabled, FreshIds, Requeues, Settled;
    if i < j {
      RowNeverReturns(dbs, steps, i, j - 1, j, r);
      SettledOverRuns(dbs, steps, i, j - 1, r);
      RunKeepsInv(dbs, steps, j - 1);
      if SettledAt(dbs, j - 1, r) {
        SettledUnlessRequeued(dbs[j - 1], steps[j - 1].step, steps[j - 1].at, r);
        assert dbs[j] == Apply(dbs[j - 1], steps[j - 1].step, steps[j - 1].at);
      }
      assert (forall k :: i <= k <= j ==> SettledAt(dbs, k, r))
        <==> (forall k :: i <= k <= j - 1 ==> SettledAt(dbs, k, r)) && SettledAt(dbs, j, r);
      assert (forall k :: i <= k < j ==> Spared(dbs, steps, k, r))
        <==> (forall k :: i <= k < j - 1 ==> Spared(dbs, steps, k, r)) && Spared(dbs, steps, j - 1, r);
    }
  }

  /** And 'delivered' itself exactly while no late outcome takes it back. */
  lemma {:induction false} DeliveredOverRuns(dbs: seq<DB>, steps: seq<Timed>, i: nat, j: nat, r: nat)
    requires IsRun(dbs, steps) && i <= j < |dbs| && DeliveredAt(dbs, i, r) && r in dbs[j].outbox
    ensures (forall k :: i <= k <= j ==> DeliveredAt(dbs, k, r))
            <==> forall k :: i <= k < j ==> NotTakenBack(dbs, steps, k, r)
  {
    hide Inv, Apply, Enabled, FreshIds, TakesBack;
    if i < j {
      RowNeverReturns(dbs, steps, i, j - 1, j, r);
      DeliveredOverRuns(dbs, steps, i, j - 1, r);
      RunKeepsInv(dbs, steps, j - 1);
      if DeliveredAt(dbs, j - 1, r) {
        DeliveredUnlessTakenBack(dbs[j - 1], steps[j - 1].step, steps[j - 1].at, r);
        assert dbs[j] == Apply(dbs[j - 1], steps[j - 1].step, steps[j - 1].at);
      }
      assert (forall k :: i <= k <= j ==> DeliveredAt(dbs, k, r))
        <==> (forall k :: i <= k <= j - 1 ==> DeliveredAt(dbs, k, r)) && DeliveredAt(dbs, j, r);
      assert (forall k :: i <= k < j ==> NotTakenBack(dbs, steps, k, r))
        <==> (forall k :: i <= k < j - 1 ==> NotTakenBack(dbs, steps, k, r)) && NotTakenBack(dbs, steps, j - 1, r);
    }
  }
}
