/** Nothing too early and nothing held back: when timers are claimed and notifications go out, over whole runs. */
module Timely {
  import opened Prelude
  import opened Model
  import opened Staging
  import opened Dispatch
  import opened Delivery
  import opened Retention
  import opened Invariants
  import opened Runs
  import opened Carriers
  import opened RateBound
  import opened TimerSafety
  import opened OneTimer
  import opened Effects

  // ---- one step and one timer ----

  predicate TouchesTimer(s: Step, k: nat) {
    s.ClaimDueTimers? || s.RecoverStaleTimers? || s.CancelTimers? || s.DropRule? || (s.DispatchOne? && s.timer == k)
  }

  /** What adding timers leaves: the old ones as they were, and new ones under new ids. */
  ghost predicate AddsTimers(before: DB, after: DB) {
    && before.nextAction <= after.nextAction
    && (forall k :: k in after.actions && k in before.actions ==> after.actions[k] == before.actions[k])
    && (forall k :: k in after.actions && k !in before.actions ==> before.nextAction <= k)
  }

  lemma EnsureAddsTimers(db: DB, kind: ActionKind, event: nat, rule: nat, dueAt: Time)
    requires FreshIds(db)
    ensures AddsTimers(db, EnsureFollowUp(db, kind, event, rule, dueAt).0)
  {
  }

  lemma DeliverAddsTimers(db: DB, r: nat, attempt: Attempt, now: Time)
    requires FreshIds(db) && r in db.outbox
    ensures AddsTimers(db, Deliver(db, r, attempt, now))
  {
    hide EnsureFollowUp, Usable, Backoff;
    var row := db.outbox[r];
    if StartsRenotify(db, row) {
      EnsureAddsTimers(PutRow(db, r, MarkDelivered(row, now)), Renotify, row.event.value, row.rule.value,
                       now + db.rules[row.rule.value].renotifyInterval.value * MINUTE);
    }
  }

  /** Dispatching one timer leaves every other as it was. */
  lemma HandleAddsTimers(db: DB, k: nat, note: Note, now: Time, fault: Fault)
    requires FreshIds(db) && k in db.actions
    ensures var o := Handle(db, k, note, now, fault); o.Skipped? || AddsTimers(db, o.db)
  {
    hide StageUnder, EnsureFollowUp, Parked, LinkAll, Aggregate;
    var a := db.actions[k];
    if FollowsUp(a) && a.event.Some? && a.rule.Some? && a.rule.value in db.rules {
      var event, r, trigger := a.event.value, a.rule.value, TriggerFor(a, k);
      StageUnderAddsTimers(db, event, r, Recipients(db, a), trigger, note, now, fault);
      StageUnderKeepsRest(db, event, r, Recipients(db, a), trigger, note, now, fault);
      var staged := StageUnder(db, event, r, Recipients(db, a), trigger, note, now, fault).0;
      if db.rules[r].renotifyInterval.Some? {
        EnsureAddsTimers(staged, Renotify, event, r, now + db.rules[r].renotifyInterval.value * MINUTE);
      }
    }
  }

  lemma StageUnderAddsTimers(db: DB, event: nat, rule: nat, cs: seq<nat>, trigger: Trigger, note: Note, now: Time,
                             fault: Fault)
    requires FreshIds(db) && forall c :: c in cs ==> c in db.channels
    ensures AddsTimers(db, StageUnder(db, event, rule, cs, trigger, note, now, fault).0)
  {
    hide StageAll;
    StageAllAddsTimers(db, event, Some(rule), cs, trigger, note, now);
    if fault.After? && fault.staged < |cs| {
      StageAllAddsTimers(db, event, Some(rule), cs[..fault.staged], trigger, note, now);
    }
  }

  lemma StageRowAddsTimers(db: DB, event: nat, rule: Option<nat>, c: nat, trigger: Trigger, note: Note, now: Time)
    requires FreshIds(db) && c in db.channels
    ensures AddsTimers(db, StageRow(db, event, rule, c, trigger, note, now).0)
  {
    hide NeedsParking, KeyTaken, WaitingFlushes;
  }

  lemma {:induction false} StageAllAddsTimers(db: DB, event: nat, rule: Option<nat>, cs: seq<nat>, trigger: Trigger,
                                              note: Note, now: Time)
    requires FreshIds(db) && forall c :: c in cs ==> c in db.channels
    ensures AddsTimers(db, StageAll(db, event, rule, cs, trigger, note, now).0)
  {
    if cs != [] {
      var front := cs[..|cs| - 1];
      StageAllAddsTimers(db, event, rule, front, trigger, note, now);
      StageAllAddsKeys(db, event, rule, front, trigger, note, now);
      StageAllKeepsTimers(db, event, rule, front, trigger, note, now);
      var (before, ok) := StageAll(db, event, rule, front, trigger, note, now);
      if ok {
        StageRowAddsTimers(before, event, rule, cs[|cs| - 1], trigger, note, now);
        StageRowKeepsTimers(before, event, rule, cs[|cs| - 1], trigger, note, now);
      }
      hide StageRow;
    }
  }

  /** Ids of timers are never used again. */
  lemma TimerIdsAreNew(db: DB, s: Step, now: Time)
    requires Inv(db) && Enabled(db, s)
    ensures FreshIds(db) && db.nextAction <= Apply(db, s, now).nextAction
    ensures forall k :: k in Apply(db, s, now).actions && k !in db.actions ==> db.nextAction <= k
  {
    InvIds(db);
    hide Inv, FreshIds, StageRow, DispatchTimer, Deliver, EnsureFollowUp, Handle, Ascending, Take;
    match s {
      case StageOne(e, rule, c, trigger, note) => StageRowAddsTimers(db, e, rule, c, trigger, note, now);
      case PlanEscalation(e, r) =>
        EnsureAddsTimers(db, Escalation, e, r, now + db.rules[r].escalationAfter.value * MINUTE);
      case DeliverOne(r, attempt) => DeliverAddsTimers(db, r, attempt, now);
      case DispatchOne(k, note, fault) => DispatchLeavesOthers(db, k, note, now, fault);
      case _ =>
    }
  }

  lemma DispatchLeavesOthers(db: DB, k: nat, note: Note, now: Time, fault: Fault)
    requires FreshIds(db) && k in db.actions
    ensures var after := DispatchTimer(db, k, note, now, fault);
            && db.nextAction <= after.nextAction
            && (forall j :: j in after.actions && j !in db.actions ==> db.nextAction <= j)
            && (forall j :: j in after.actions && j in db.actions && j != k ==> after.actions[j] == db.actions[j])
  {
    hide Handle;
    HandleKeepsTimer(db, k, note, now, fault);
    HandleAddsTimers(db, k, note, now, fault);
  }

  /** A step that is none of a timer's business leaves it as it was. */
  lemma OtherStepsLeaveTimer(db: DB, s: Step, now: Time, k: nat)
    requires Inv(db) && Enabled(db, s) && !TouchesTimer(s, k)
    requires FreshIds(db) && k in db.actions && k in Apply(db, s, now).actions
    ensures Apply(db, s, now).actions[k] == db.actions[k]
  {
    hide Inv, FreshIds, StageRow, DispatchTimer, Deliver, EnsureFollowUp, Handle, Ascending, Take;
    match s {
      case StageOne(e, rule, c, trigger, note) => StageRowAddsTimers(db, e, rule, c, trigger, note, now);
      case PlanEscalation(e, r) =>
        EnsureAddsTimers(db, Escalation, e, r, now + db.rules[r].escalationAfter.value * MINUTE);
      case DeliverOne(r, attempt) => DeliverAddsTimers(db, r, attempt, now);
      case DispatchOne(j, note, fault) => DispatchLeavesOthers(db, j, note, now, fault);
      case _ =>
    }
  }

  /** A waiting timer that is not dispatched keeps its due time, and is claimed only once that has passed. */
  lemma WaitingTimerStep(db: DB, s: Step, now: Time, k: nat)
    requires Inv(db) && Enabled(db, s) && FreshIds(db) && k in db.actions && k in Apply(db, s, now).actions
    requires !db.actions[k].status.Claimed? && !(s.DispatchOne? && s.timer == k)
    ensures var after := Apply(db, s, now).actions[k];
            if after.status.Claimed? then db.actions[k].status == Waiting && db.actions[k].dueAt <= now
            else after.dueAt == db.actions[k].dueAt
  {
    hide Inv, FreshIds, ClaimTimers, RecoverTimers, CancelPending, Ascending, Take;
    if !TouchesTimer(s, k) {
      OtherStepsLeaveTimer(db, s, now, k);
      hide Apply;
    } else if s.ClaimDueTimers? {
      TimersClaimed(db, s.limit, now, k);
    } else if s.RecoverStaleTimers? {
      ClaimsTakenBack(db, s.cutoff, k);
    } else if s.CancelTimers? {
      TimersCancelled(db, s.event, now, k);
    }
  }

  // ---- no timer is claimed early ----

  /** Step `i` of the run claims timer `k`. */
  ghost predicate ClaimedAt(dbs: seq<DB>, i: nat, k: nat) {
    i + 1 < |dbs| && k in dbs[i].actions && !dbs[i].actions[k].status.Claimed?
    && k in dbs[i + 1].actions && dbs[i + 1].actions[k].status.Claimed?
  }

  /** The scheduler dispatches only timers that were claimed. */
  ghost predicate ClaimedFirst(dbs: seq<DB>, steps: seq<Timed>, i: nat, j: nat, k: nat) {
    forall q :: i <= q < j && q < |steps| && steps[q].step.DispatchOne? && steps[q].step.timer == k ==>
      exists p :: i <= p < q && ClaimedAt(dbs, p, k)
  }

  lemma {:induction false} UntilClaimed(dbs: seq<DB>, steps: seq<Timed>, i: nat, j: nat, k: nat)
    requires IsRun(dbs, steps) && i <= j < |dbs| && k in dbs[i].actions && !dbs[i].actions[k].status.Claimed?
    requires ClaimedFirst(dbs, steps, i, j, k) && forall p :: i <= p < j ==> !ClaimedAt(dbs, p, k)
    ensures k < dbs[j].nextAction
    ensures k in dbs[j].actions ==>
              !dbs[j].actions[k].status.Claimed? && dbs[j].actions[k].dueAt == dbs[i].actions[k].dueAt
  {
    hide Inv, Apply, Enabled;
    RunKeepsInv(dbs, steps, i);
    InvIds(dbs[i]);
    if i < j {
      UntilClaimed(dbs, steps, i, j - 1, k);
      RunKeepsInv(dbs, steps, j - 1);
      TimerIdsAreNew(dbs[j - 1], steps[j - 1].step, steps[j - 1].at);
      assert !ClaimedAt(dbs, j - 1, k);
      if k in dbs[j].actions {
        WaitingTimerStep(dbs[j - 1], steps[j - 1].step, steps[j - 1].at, k);
      }
    }
  }

  /** In every run a timer is claimed no earlier than it was due when it was last seen waiting. */
  lemma {:induction false} NoTimerIsClaimedEarly(dbs: seq<DB>, steps: seq<Timed>, i: nat, j: nat, k: nat)
    requires IsRun(dbs, steps) && i <= j < |steps| && k in dbs[i].actions && dbs[i].actions[k].status == Waiting
    requires ClaimedFirst(dbs, steps, i, j, k) && ClaimedAt(dbs, j, k)
    ensures dbs[i].actions[k].dueAt <= steps[j].at
    decreases j
  {
    hide Inv, Apply, Enabled;
    if p :| i <= p < j && ClaimedAt(dbs, p, k) {
      NoTimerIsClaimedEarly(dbs, steps, i, p, k);
    } else {
      UntilClaimed(dbs, steps, i, j, k);
      RunKeepsInv(dbs, steps, j);
      assert !(steps[j].step.DispatchOne? && steps[j].step.timer == k) by { DispatchedIsNotClaimed(dbs, steps, j, k); }
      WaitingTimerStep(dbs[j], steps[j].step, steps[j].at, k);
    }
  }

  lemma DispatchedIsNotClaimed(dbs: seq<DB>, steps: seq<Timed>, j: nat, k: nat)
    requires IsRun(dbs, steps) && j < |steps| && ClaimedAt(dbs, j, k)
    ensures !(steps[j].step.DispatchOne? && steps[j].step.timer == k)
  {
    hide Inv, Handle, Enabled, Raises;
    if steps[j].step.DispatchOne? && steps[j].step.timer == k {
      TimerIsSettled(dbs[j], k, steps[j].step.payload, steps[j].at, steps[j].step.fault);
      hide DispatchTimer, HasWork;
    }
  }

  /** An escalation planned for `m` minutes later is not claimed before those have passed. */
  lemma EscalationIsNotEarly(dbs: seq<DB>, steps: seq<Timed>, i: nat, j: nat, e: nat, r: nat, minutes: int)
    requires IsRun(dbs, steps) && i < j < |steps| && steps[i].step == PlanEscalation(e, r)
    requires r in dbs[i].rules && dbs[i].rules[r].escalationAfter == Some(minutes)
    requires var k := dbs[i].nextAction;
             && dbs[i + 1].nextAction > k
             && ClaimedFirst(dbs, steps, i + 1, j, k) && ClaimedAt(dbs, j, k)
    ensures steps[i].at + minutes * 60_000_000 <= steps[j].at
  {
    hide Inv, Apply, Enabled, ClaimedAt, ClaimedFirst;
    EscalationIsPlanned(dbs[i], e, r, steps[i].at);
    NoTimerIsClaimedEarly(dbs, steps, i + 1, j, dbs[i].nextAction);
  }

  /** And a reminder started by a delivery, not before the rule's interval has passed. */
  lemma ReminderIsNotEarly(dbs: seq<DB>, steps: seq<Timed>, i: nat, j: nat, row: nat, minutes: int)
    requires IsRun(dbs, steps) && i < j < |steps| && steps[i].step == DeliverOne(row, Succeeds) && row in dbs[i].outbox
    requires StartsReminders(dbs[i], dbs[i].outbox[row])
    requires dbs[i].rules[dbs[i].outbox[row].rule.value].renotifyInterval == Some(minutes)
    requires var k := dbs[i].nextAction;
             && dbs[i + 1].nextAction > k
             && ClaimedFirst(dbs, steps, i + 1, j, k) && ClaimedAt(dbs, j, k)
    ensures steps[i].at + minutes * 60_000_000 <= steps[j].at
  {
    hide Inv, Enabled, ClaimedAt, ClaimedFirst, Deliver;
    if CanCarry(dbs[i], dbs[i].outbox[row].channel) {
      SentRowIsDelivered(dbs[i], row, steps[i].at);
    } else {
      UndeliverableRowDies(dbs[i], row, Succeeds, steps[i].at);
    }
    hide Apply;
    NoTimerIsClaimedEarly(dbs, steps, i + 1, j, dbs[i].nextAction);
  }

  // ---- no notification is held back ----

  /** An ordinary row of the channel, created at `since` or later. */
  predicate Recent(row: OutboxRow, c: nat, since: Time) {
    row.channel == c && !row.isDigest && row.createdAt >= since
  }

  /** The channel's ordinary rows created since then, among those there at the start and those the run added. */
  ghost function Born(dbs: seq<DB>, c: nat, n: nat, since: Time): set<nat>
    requires n < |dbs|
  {
    if n == 0 then set r | r in dbs[0].outbox && Recent(dbs[0].outbox[r], c, since)
    else Born(dbs, c, n - 1, since)
         + set r | r in dbs[n].outbox && r !in dbs[n - 1].outbox && Recent(dbs[n].outbox[r], c, since)
  }

  lemma {:induction false} RecentWasBorn(dbs: seq<DB>, steps: seq<Timed>, c: nat, n: nat, since: Time)
    requires IsRun(dbs, steps) && n < |dbs|
    ensures forall r :: r in dbs[n].outbox && Recent(dbs[n].outbox[r], c, since) ==> r in Born(dbs, c, n, since)
  {
    hide Inv, Apply, Enabled;
    if n > 0 {
      RecentWasBorn(dbs, steps, c, n - 1, since);
      RunKeepsInv(dbs, steps, n - 1);
      StepAges(dbs[n - 1], steps[n - 1].step, steps[n - 1].at);
      forall r | r in dbs[n].outbox && Recent(dbs[n].outbox[r], c, since) ensures r in Born(dbs, c, n, since) {
        if r in dbs[n - 1].outbox { assert SameIdentity(dbs[n - 1].outbox[r], dbs[n].outbox[r]); }
      }
    }
  }

  lemma FewNewsGoesOut(db: DB, e: nat, rule: Option<nat>, c: nat, trigger: Trigger, note: Note, now: Time, limit: nat)
    requires FreshIds(db) && c in db.channels && (trigger.OnFiring? || trigger.OnResolved?)
    requires db.channels[c].digestMode == Auto && db.channels[c].rateLimit == Some(limit)
    requires IsNews(db, e, c, trigger) && |LastHour(db, c, now)| < limit
    ensures var after := Apply(db, StageOne(e, rule, c, trigger, note), now);
            db.nextRow in after.outbox && after.outbox[db.nextRow].status == Pending
  {
    hide StageRow, NeedsParking, IsNews, LastHour, FreshIds;
    NewsIsStaged(db, e, rule, c, trigger, note, now);
    StagingFailsExactlyWhen(db, e, rule, c, trigger, note, now);
    ParkedExactlyWhen(db, c, now);
  }

  /**
   The other side of the rate bound: on an 'auto' channel with limit L, news staged after an hour in which fewer than
   L ordinary notifications of the channel came up goes straight into the queue, whatever became of those.
   */
  lemma NoNewsIsHeldBack(dbs: seq<DB>, steps: seq<Timed>, n: nat, e: nat, rule: Option<nat>, c: nat, trigger: Trigger,
                         note: Note, limit: nat)
    requires IsRun(dbs, steps) && n < |steps| && steps[n].step == StageOne(e, rule, c, trigger, note)
    requires c in dbs[n].channels && dbs[n].channels[c].digestMode == Auto
             && dbs[n].channels[c].rateLimit == Some(limit)
    requires IsNews(dbs[n], e, c, trigger) && |Born(dbs, c, n, steps[n].at - 3_600_000_000)| < limit
    ensures dbs[n].nextRow in dbs[n + 1].outbox && dbs[n + 1].outbox[dbs[n].nextRow].status == Pending
  {
    hide Inv, Apply, FreshIds, IsNews;
    var db, now := dbs[n], steps[n].at;
    RunKeepsInv(dbs, steps, n);
    InvIds(db);
    RecentWasBorn(dbs, steps, c, n, now - 3_600_000_000);
    assert LastHour(db, c, now) <= Born(dbs, c, n, now - 3_600_000_000);
    hide LastHour, Born;
    SubsetIsSmaller(LastHour(db, c, now), Born(dbs, c, n, now - 3_600_000_000));
    FewNewsGoesOut(db, e, rule, c, trigger, note, now, limit);
  }
}
