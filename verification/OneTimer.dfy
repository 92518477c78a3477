/**
 At most one timer waits per channel, or per alert and rule: promised by the lookups, and exactly when a step
 keeps it.
 */
module OneTimer {
  import opened Prelude
  import opened Model
  import opened Staging
  import opened Dispatch
  import opened Delivery
  import opened Retention
  import opened Invariants
  import opened Runs
  import opened Carriers
  import opened TimerSafety

  // ---- when a dispatch raises ----

  /** A follow-up that is not skipped: its alert is open and its rule still asks for it. */
  predicate StillWanted(db: DB, a: ScheduledAction) {
    && Actionable(db, a) && a.rule.Some? && a.rule.value in db.rules
    && var rule := db.rules[a.rule.value];
       rule.enabled && if a.kind.Escalation? then rule.escalationEnabled && Recipients(db, a) != []
         else Renotifies(rule)
  }

  /**
   A fault strikes while the recipients are staged; renotify also fails after the last one, escalation has
   nothing left.
   */
  predicate StrikesStaging(db: DB, a: ScheduledAction, fault: Fault)
    requires a.rule.Some? && a.rule.value in db.rules
  {
    fault.After? && (a.kind.Renotify? || fault.staged < |Recipients(db, a)|)
  }

  /** A lookup that tolerates one waiting timer meets two: for a recipient to be parked, or for the next cycle. */
  predicate LookupBlocked(db: DB, k: nat, now: Time)
    requires k in db.actions && StillWanted(db, db.actions[k])
  {
    var a := db.actions[k];
    || (exists c :: c in Recipients(db, a) && StagingBlocked(db, a.event.value, c, TriggerFor(a, k), now))
    || (a.kind.Renotify? && |WaitingFollowUps(db, Renotify, a.event.value, a.rule.value)| >= 2)
  }

  /** Whether dispatching timer `k` ends in an exception, decided by the tables before the call and by what strikes. */
  predicate Raises(db: DB, k: nat, now: Time, fault: Fault)
    requires k in db.actions
  {
    var a := db.actions[k];
    match a.kind
    case UnknownKind => false
    case DigestFlush => !fault.NoFault?
    case _ =>
      fault.Early? || (StillWanted(db, a) && (StrikesStaging(db, a, fault) || LookupBlocked(db, k, now)))
  }

  lemma StageRowLeavesFollowUps(db: DB, event: nat, origin: Option<nat>, c: nat, trigger: Trigger, note: Note,
                                now: Time, kind: ActionKind, e: nat, rule: nat)
    requires FreshIds(db) && c in db.channels
    ensures WaitingFollowUps(StageRow(db, event, origin, c, trigger, note, now).0, kind, e, rule)
            == WaitingFollowUps(db, kind, e, rule)
  {
    hide NeedsParking, KeyTaken, WaitingFlushes;
  }

  lemma {:induction false} StageAllLeavesFollowUps(db: DB, event: nat, origin: Option<nat>, cs: seq<nat>,
                                                   trigger: Trigger, note: Note, now: Time, kind: ActionKind,
                                                   e: nat, rule: nat)
    requires FreshIds(db) && forall c :: c in cs ==> c in db.channels
    ensures WaitingFollowUps(StageAll(db, event, origin, cs, trigger, note, now).0, kind, e, rule)
            == WaitingFollowUps(db, kind, e, rule)
  {
    hide StageRow, WaitingFollowUps;
    if cs != [] {
      var front := cs[..|cs| - 1];
      StageAllLeavesFollowUps(db, event, origin, front, trigger, note, now, kind, e, rule);
      StageAllAddsKeys(db, event, origin, front, trigger, note, now);
      var (before, ok) := StageAll(db, event, origin, front, trigger, note, now);
      if ok { StageRowLeavesFollowUps(before, event, origin, cs[|cs| - 1], trigger, note, now, kind, e, rule); }
    }
  }

  lemma StageUnderLeavesFollowUps(db: DB, event: nat, origin: nat, cs: seq<nat>, trigger: Trigger, note: Note,
                                  now: Time, fault: Fault, kind: ActionKind, e: nat, rule: nat)
    requires FreshIds(db) && forall c :: c in cs ==> c in db.channels
    ensures WaitingFollowUps(StageUnder(db, event, origin, cs, trigger, note, now, fault).0, kind, e, rule)
            == WaitingFollowUps(db, kind, e, rule)
  {
    hide StageAll, WaitingFollowUps;
    StageAllLeavesFollowUps(db, event, Some(origin), cs, trigger, note, now, kind, e, rule);
    if fault.After? && fault.staged < |cs| {
      StageAllLeavesFollowUps(db, event, Some(origin), cs[..fault.staged], trigger, note, now, kind, e, rule);
    }
  }

  lemma StageUnderFailsExactlyWhen(db: DB, event: nat, origin: nat, cs: seq<nat>, trigger: Trigger, note: Note,
                                   now: Time, fault: Fault)
    requires FreshIds(db) && forall c :: c in cs ==> c in db.channels
    ensures !StageUnder(db, event, origin, cs, trigger, note, now, fault).1
            <==> fault.Early? || (fault.After? && fault.staged < |cs|)
                 || exists c :: c in cs && StagingBlocked(db, event, c, trigger, now)
  {
    hide StageAll, StagingBlocked;
    StageAllFailsExactlyWhen(db, event, Some(origin), cs, trigger, note, now);
  }

  /** The handler raises exactly when `Raises` says so, whatever the text it stages. */
  lemma RaisesExactlyWhen(db: DB, k: nat, note: Note, now: Time, fault: Fault)
    requires FreshIds(db) && k in db.actions
    ensures Handle(db, k, note, now, fault).Raised? <==> Raises(db, k, now, fault)
  {
    hide StageUnder, EnsureFollowUp, StagingBlocked, WaitingFollowUps, Allowed, Live, Parked;
    var a := db.actions[k];
    if FollowsUp(a) && StillWanted(db, a) {
      var event, r, cs := a.event.value, a.rule.value, Recipients(db, a);
      StageUnderFailsExactlyWhen(db, event, r, cs, TriggerFor(a, k), note, now, fault);
      StageUnderLeavesFollowUps(db, event, r, cs, TriggerFor(a, k), note, now, fault, Renotify, event, r);
      StageUnderKeepsRest(db, event, r, cs, TriggerFor(a, k), note, now, fault);
      EnsureRaises(StageUnder(db, event, r, cs, TriggerFor(a, k), note, now, fault).0, Renotify, event, r);
    }
  }

  lemma EnsureRaises(db: DB, kind: ActionKind, event: nat, rule: nat)
    ensures forall dueAt :: var (after, ok) := EnsureFollowUp(db, kind, event, rule, dueAt);
                            && (ok <==> |WaitingFollowUps(db, kind, event, rule)| < 2)
                            && after.outbox == db.outbox && (!ok ==> after == db)
  {
  }

  /** The timers one step puts back to waiting: the one whose dispatch raises, or those whose claim went stale. */
  function PutBack(db: DB, s: Step, now: Time): set<nat>
    requires Enabled(db, s)
  {
    if s.DispatchOne? then if Raises(db, s.timer, now, s.fault) then {s.timer} else {}
    else if s.RecoverStaleTimers? then set k | k in db.actions && StaleClaim(db.actions[k], s.cutoff)
    else {}
  }

  // ---- one flush timer per channel ----

  predicate OneWaiting(db: DB, c: nat) {
    |WaitingFlushes(db, c)| <= 1
  }

  /** Those of `timers` that flush channel `c`. */
  function FlushesAmong(db: DB, timers: set<nat>, c: nat): set<nat> {
    set k | k in timers && k in db.actions && IsFlush(db.actions[k], c)
  }

  lemma EnsureFlushOneWaiting(db: DB, d: nat, now: Time, c: nat)
    requires FreshIds(db) && d in db.channels && OneWaiting(db, c)
    ensures OneWaiting(EnsureFlush(db, d, now).0, c)
  {
    var after := EnsureFlush(db, d, now).0;
    if after != db {
      assert WaitingFlushes(after, c) == WaitingFlushes(db, c) + (if c == d then {db.nextAction} else {});
      hide WaitingFlushes, FreshIds;
      assert c == d ==> WaitingFlushes(db, c) == {};
      assert WaitingFlushes(db, c) + {} == WaitingFlushes(db, c);
    }
  }

  lemma StageRowOneWaiting(db: DB, event: nat, rule: Option<nat>, d: nat, trigger: Trigger, note: Note, now: Time,
                           c: nat)
    requires FreshIds(db) && d in db.channels && OneWaiting(db, c)
    ensures OneWaiting(StageRow(db, event, rule, d, trigger, note, now).0, c)
  {
    hide EnsureFlush, NeedsParking, KeyTaken;
    var added := AddRow(db, FreshRow(Some(event), rule, d, trigger, note, Digested, now));
    assert WaitingFlushes(added, c) == WaitingFlushes(db, c);
    EnsureFlushOneWaiting(added, d, now, c);
    var queued := AddRow(db, FreshRow(Some(event), rule, d, trigger, note, Pending, now));
    assert WaitingFlushes(queued, c) == WaitingFlushes(db, c);
  }

  lemma {:induction false} StageAllOneWaiting(db: DB, event: nat, rule: Option<nat>, ds: seq<nat>, trigger: Trigger,
                                              note: Note, now: Time, c: nat)
    requires FreshIds(db) && OneWaiting(db, c) && forall d :: d in ds ==> d in db.channels
    ensures OneWaiting(StageAll(db, event, rule, ds, trigger, note, now).0, c)
  {
    if ds != [] {
      var front := ds[..|ds| - 1];
      StageAllOneWaiting(db, event, rule, front, trigger, note, now, c);
      StageAllAppends(db, event, rule, front, trigger, note, now);
      var (before, ok) := StageAll(db, event, rule, front, trigger, note, now);
      if ok { StageRowOneWaiting(before, event, rule, ds[|ds| - 1], trigger, note, now, c); }
      hide StageRow;
    }
  }

  lemma StageUnderOneWaiting(db: DB, event: nat, rule: nat, ds: seq<nat>, trigger: Trigger, note: Note, now: Time,
                             fault: Fault, c: nat)
    requires FreshIds(db) && OneWaiting(db, c) && forall d :: d in ds ==> d in db.channels
    ensures OneWaiting(StageUnder(db, event, rule, ds, trigger, note, now, fault).0, c)
  {
    hide StageAll;
    StageAllOneWaiting(db, event, Some(rule), ds, trigger, note, now, c);
    if fault.After? && fault.staged < |ds| {
      StageAllOneWaiting(db, event, Some(rule), ds[..fault.staged], trigger, note, now, c);
    }
  }

  lemma EscalationOneWaiting(db: DB, a: ScheduledAction, note: Note, now: Time, fault: Fault, c: nat)
    requires FreshIds(db) && OneWaiting(db, c)
    ensures var o := DispatchEscalation(db, a, note, now, fault); o.Skipped? || OneWaiting(o.db, c)
  {
    hide StageUnder;
    if a.event.Some? && a.rule.Some? && a.rule.value in db.rules {
      var rule := db.rules[a.rule.value];
      StageUnderOneWaiting(db, a.event.value, a.rule.value, Allowed(db, rule.team, rule.escalationChannels),
                           OnEscalation, note, now, fault, c);
    }
  }

  lemma FollowUpLeavesFlushes(db: DB, kind: ActionKind, event: nat, rule: nat, dueAt: Time, c: nat)
    requires FreshIds(db) && !kind.DigestFlush?
    ensures WaitingFlushes(EnsureFollowUp(db, kind, event, rule, dueAt).0, c) == WaitingFlushes(db, c)
  {
  }

  lemma RenotifyOneWaiting(db: DB, k: nat, a: ScheduledAction, note: Note, now: Time, fault: Fault, c: nat)
    requires FreshIds(db) && OneWaiting(db, c)
    ensures var o := DispatchRenotify(db, k, a, note, now, fault); o.Skipped? || OneWaiting(o.db, c)
  {
    hide StageUnder, EnsureFollowUp;
    if a.event.Some? && a.rule.Some? && a.rule.value in db.rules {
      var event, r := a.event.value, a.rule.value;
      var ds := Live(db, db.rules[r].channels);
      StageUnderOneWaiting(db, event, r, ds, OnRenotify(k), note, now, fault, c);
      StageUnderKeepsRest(db, event, r, ds, OnRenotify(k), note, now, fault);
      if db.rules[r].renotifyInterval.Some? {
        FollowUpLeavesFlushes(StageUnder(db, event, r, ds, OnRenotify(k), note, now, fault).0, Renotify, event, r,
                              now + db.rules[r].renotifyInterval.value * MINUTE, c);
      }
    }
  }

  lemma HandleOneWaiting(db: DB, k: nat, note: Note, now: Time, fault: Fault, c: nat)
    requires FreshIds(db) && k in db.actions && OneWaiting(db, c)
    ensures var o := Handle(db, k, note, now, fault); o.Skipped? || OneWaiting(o.db, c)
    ensures var o := Handle(db, k, note, now, fault);
            IsFlush(db.actions[k], c) && !o.Skipped? ==> WaitingFlushes(o.db, c) == WaitingFlushes(db, c)
  {
    hide DispatchEscalation, DispatchRenotify;
    var a := db.actions[k];
    match a.kind {
      case Escalation => EscalationOneWaiting(db, a, note, now, fault, c);
      case Renotify => RenotifyOneWaiting(db, k, a, note, now, fault, c);
      case DigestFlush =>
      case UnknownKind =>
    }
  }

  lemma RequeueWaiting(db: DB, k: nat, now: Time, c: nat)
    requires k in db.actions
    ensures var after := db.(actions := db.actions[k := db.actions[k].(status := Waiting,
                                                                       dueAt := now + RETRY_BACKOFF)]);
            WaitingFlushes(after, c) == WaitingFlushes(db, c) + (if IsFlush(db.actions[k], c) then {k} else {})
  {
  }

  lemma SettleWaiting(db: DB, k: nat, status: ActionStatus, now: Time, c: nat)
    requires k in db.actions && !status.Waiting? && OneWaiting(db, c)
    ensures OneWaiting(Settle(db, k, status, now), c)
  {
    SubsetIsSmaller(WaitingFlushes(Settle(db, k, status, now), c), WaitingFlushes(db, c));
  }

  /** A step that puts no second flush timer back beside a waiting one. */
  predicate LeavesOneFlush(db: DB, s: Step, now: Time, c: nat)
    requires Enabled(db, s)
  {
    |WaitingFlushes(db, c) + FlushesAmong(db, PutBack(db, s, now), c)| <= 1
  }

  lemma DispatchedWaiting(db: DB, k: nat, note: Note, now: Time, fault: Fault, c: nat)
    requires FreshIds(db) && k in db.actions && OneWaiting(db, c)
    ensures OneWaiting(DispatchTimer(db, k, note, now, fault), c)
            <==> |WaitingFlushes(db, c) + FlushesAmong(db, PutBack(db, DispatchOne(k, note, fault), now), c)| <= 1
  {
    hide Handle, WaitingFlushes, Settle, FreshIds, Raises;
    HandleOneWaiting(db, k, note, now, fault, c);
    HandleKeepsTimer(db, k, note, now, fault);
    RaisesExactlyWhen(db, k, note, now, fault);
    assert WaitingFlushes(db, c) + {} == WaitingFlushes(db, c);
    assert FlushesAmong(db, {k}, c) == if IsFlush(db.actions[k], c) then {k} else {};
    match Handle(db, k, note, now, fault) {
      case Completed(after) => SettleWaiting(after, k, Done, now, c);
      case Skipped => SettleWaiting(db, k, Cancelled, now, c);
      case Raised(after) =>
        RequeueWaiting(after, k, now, c);
        assert WaitingFlushes(after, c) + {} == WaitingFlushes(after, c);
    }
  }

  lemma DispatchOneWaiting(db: DB, k: nat, note: Note, now: Time, fault: Fault, c: nat)
    requires FreshIds(db) && k in db.actions && OneWaiting(db, c)
    ensures var s := DispatchOne(k, note, fault);
            OneWaiting(Apply(db, s, now), c) <==> LeavesOneFlush(db, s, now, c)
  {
    hide DispatchTimer, WaitingFlushes, FlushesAmong, PutBack, FreshIds;
    DispatchedWaiting(db, k, note, now, fault, c);
  }

  lemma RecoverOneWaiting(db: DB, cutoff: Time, now: Time, c: nat)
    requires FreshIds(db)
    ensures var s := RecoverStaleTimers(cutoff);
            OneWaiting(Apply(db, s, now), c) <==> LeavesOneFlush(db, s, now, c)
  {
    hide FreshIds, WaitingFlushes, FlushesAmong, PutBack, RecoverTimers;
    RecoveredWaiting(db, cutoff, now, c);
  }

  lemma OthersPutNoFlushBack(db: DB, s: Step, now: Time, c: nat)
    requires Enabled(db, s) && !s.DispatchOne? && !s.RecoverStaleTimers? && OneWaiting(db, c)
    ensures LeavesOneFlush(db, s, now, c)
  {
    hide Enabled, WaitingFlushes;
    assert FlushesAmong(db, {}, c) == {};
    assert WaitingFlushes(db, c) + {} == WaitingFlushes(db, c);
  }

  lemma RecoveredWaiting(db: DB, cutoff: Time, now: Time, c: nat)
    ensures WaitingFlushes(RecoverTimers(db, cutoff), c)
            == WaitingFlushes(db, c) + FlushesAmong(db, PutBack(db, RecoverStaleTimers(cutoff), now), c)
  {
  }

  /** At most one waiting flush timer survives a step exactly when the step puts no second one back. */
  lemma OneFlushUnlessPutBack(db: DB, s: Step, now: Time, c: nat)
    requires Inv(db) && Enabled(db, s) && OneWaiting(db, c)
    ensures OneWaiting(Apply(db, s, now), c) <==> LeavesOneFlush(db, s, now, c)
  {
    InvIds(db);
    hide Inv, FreshIds, Apply, OneWaiting, LeavesOneFlush;
    if s.DispatchOne? {
      DispatchOneWaiting(db, s.timer, s.payload, now, s.fault, c);
    } else if s.RecoverStaleTimers? {
      RecoverOneWaiting(db, s.cutoff, now, c);
    } else {
      StepOneWaiting(db, s, now, c);
      OthersPutNoFlushBack(db, s, now, c);
    }
  }

  lemma StepOneWaiting(db: DB, s: Step, now: Time, c: nat)
    requires FreshIds(db) && Enabled(db, s) && OneWaiting(db, c) && !s.DispatchOne? && !s.RecoverStaleTimers?
    ensures OneWaiting(Apply(db, s, now), c)
  {
    var after := Apply(db, s, now);
    if s.StageOne? {
      StageRowOneWaiting(db, s.event, s.origin, s.channel, s.trigger, s.note, now, c);
    } else {
      OtherTimersOnlyLeave(db, s, now, c);
      SubsetIsSmaller(WaitingFlushes(after, c), WaitingFlushes(db, c));
    }
    hide StageRow, Apply;
  }

  lemma OtherTimersOnlyLeave(db: DB, s: Step, now: Time, c: nat)
    requires FreshIds(db) && Enabled(db, s) && !s.DispatchOne? && !s.RecoverStaleTimers? && !s.StageOne?
    ensures WaitingFlushes(Apply(db, s, now), c) <= WaitingFlushes(db, c)
  {
    hide Deliver, EnsureFollowUp;
    match s {
      case PlanEscalation(e, r) =>
        FollowUpLeavesFlushes(db, Escalation, e, r, now + db.rules[r].escalationAfter.value * MINUTE, c);
      case DeliverOne(r, attempt) => DeliverLeavesFlushes(db, r, attempt, now, c);
      case _ =>
    }
  }

  lemma DeliverLeavesFlushes(db: DB, r: nat, attempt: Attempt, now: Time, c: nat)
    requires FreshIds(db) && r in db.outbox
    ensures WaitingFlushes(Deliver(db, r, attempt, now), c) == WaitingFlushes(db, c)
  {
    hide EnsureFollowUp;
    var row := db.outbox[r];
    if StartsRenotify(db, row) {
      FollowUpLeavesFlushes(PutRow(db, r, MarkDelivered(row, now)), Renotify, row.event.value, row.rule.value,
                            now + db.rules[row.rule.value].renotifyInterval.value * MINUTE, c);
    }
  }

  /** Over whole runs: from one waiting flush timer at most there is never a second, exactly while none is put back. */
  lemma {:induction false} OneFlushOverRuns(dbs: seq<DB>, steps: seq<Timed>, n: nat, c: nat)
    requires IsRun(dbs, steps) && n < |dbs| && OneWaiting(dbs[0], c)
    ensures (forall i :: 0 <= i <= n ==> OneWaiting(dbs[i], c))
            <==> forall i :: 0 <= i < n ==> LeavesOneFlush(dbs[i], steps[i].step, steps[i].at, c)
  {
    hide Inv, Apply, FreshIds, OneWaiting, LeavesOneFlush;
    if n > 0 {
      var last := dbs[n - 1];
      OneFlushOverRuns(dbs, steps, n - 1, c);
      RunKeepsInv(dbs, steps, n - 1);
      if OneWaiting(last, c) {
        OneFlushUnlessPutBack(last, steps[n - 1].step, steps[n - 1].at, c);
        assert dbs[n] == Apply(last, steps[n - 1].step, steps[n - 1].at);
      }
      assert (forall i :: 0 <= i <= n ==> OneWaiting(dbs[i], c))
        <==> (forall i :: 0 <= i <= n - 1 ==> OneWaiting(dbs[i], c)) && OneWaiting(dbs[n], c);
    }
  }

  // ---- one escalation and one renotify timer per alert and rule ----

  predicate OneFollowUp(db: DB, kind: ActionKind, event: nat, rule: nat) {
    |WaitingFollowUps(db, kind, event, rule)| <= 1
  }

  /** Those of `timers` that follow up on `event` for `rule`. */
  function FollowUpsAmong(db: DB, timers: set<nat>, kind: ActionKind, event: nat, rule: nat): set<nat> {
    set k | k in timers && k in db.actions && IsFollowUp(db.actions[k], kind, event, rule)
  }

  /** A step that puts no second timer back beside a waiting one. */
  predicate LeavesOneFollowUp(db: DB, s: Step, now: Time, kind: ActionKind, e: nat, rule: nat)
    requires Enabled(db, s)
  {
    |WaitingFollowUps(db, kind, e, rule) + FollowUpsAmong(db, PutBack(db, s, now), kind, e, rule)| <= 1
  }

  lemma EnsureKeepsOne(db: DB, kind: ActionKind, event: nat, rule: nat, dueAt: Time, k: ActionKind, e: nat, r: nat)
    requires FreshIds(db) && OneFollowUp(db, k, e, r)
    ensures OneFollowUp(EnsureFollowUp(db, kind, event, rule, dueAt).0, k, e, r)
  {
    var after := EnsureFollowUp(db, kind, event, rule, dueAt).0;
    if after != db {
      var added := if IsFollowUp(after.actions[db.nextAction], k, e, r) then {db.nextAction} else {};
      assert WaitingFollowUps(after, k, e, r) == WaitingFollowUps(db, k, e, r) + added;
      hide WaitingFollowUps, FreshIds;
      assert added != {} ==> WaitingFollowUps(db, k, e, r) == {};
      assert WaitingFollowUps(db, k, e, r) + {} == WaitingFollowUps(db, k, e, r);
    }
  }

  lemma HandleFollowUps(db: DB, k: nat, note: Note, now: Time, fault: Fault, kind: ActionKind, e: nat, rule: nat)
    requires FreshIds(db) && k in db.actions && OneFollowUp(db, kind, e, rule)
    ensures var o := Handle(db, k, note, now, fault);
            && (o.Completed? ==> OneFollowUp(o.db, kind, e, rule))
            && (o.Raised? ==> WaitingFollowUps(o.db, kind, e, rule) == WaitingFollowUps(db, kind, e, rule))
  {
    hide StageUnder, EnsureFollowUp, WaitingFollowUps, Allowed, Live, Parked, LinkAll, Aggregate;
    var a := db.actions[k];
    if FollowsUp(a) && StillWanted(db, a) {
      var event, r, cs := a.event.value, a.rule.value, Recipients(db, a);
      StageUnderLeavesFollowUps(db, event, r, cs, TriggerFor(a, k), note, now, fault, kind, e, rule);
      StageUnderKeepsRest(db, event, r, cs, TriggerFor(a, k), note, now, fault);
      var staged := StageUnder(db, event, r, cs, TriggerFor(a, k), note, now, fault).0;
      if a.kind.Renotify? {
        EnsureRaises(staged, Renotify, event, r);
        EnsureKeepsOne(staged, Renotify, event, r, now + db.rules[r].renotifyInterval.value * MINUTE, kind, e, rule);
      }
    } else if a.kind.DigestFlush? {
      FlushLeavesTimers(db, a, now, fault);
      SameTimersSameFollowUps(db, DispatchFlush(db, a, now, fault), kind, e, rule);
    }
  }

  lemma FlushLeavesTimers(db: DB, a: ScheduledAction, now: Time, fault: Fault)
    ensures var o := DispatchFlush(db, a, now, fault); o.Skipped? || o.db.actions == db.actions
  {
    hide Parked, LinkAll, Aggregate;
  }

  lemma SameTimersSameFollowUps(db: DB, o: Outcome, kind: ActionKind, e: nat, rule: nat)
    requires o.Skipped? || o.db.actions == db.actions
    ensures o.Skipped? || WaitingFollowUps(o.db, kind, e, rule) == WaitingFollowUps(db, kind, e, rule)
  {
  }

  lemma RequeueFollowUp(db: DB, k: nat, now: Time, kind: ActionKind, e: nat, rule: nat)
    requires k in db.actions
    ensures var after := db.(actions := db.actions[k := db.actions[k].(status := Waiting,
                                                                       dueAt := now + RETRY_BACKOFF)]);
            WaitingFollowUps(after, kind, e, rule)
            == WaitingFollowUps(db, kind, e, rule) + (if IsFollowUp(db.actions[k], kind, e, rule) then {k} else {})
  {
  }

  lemma SettleFollowUp(db: DB, k: nat, status: ActionStatus, now: Time, kind: ActionKind, e: nat, rule: nat)
    requires k in db.actions && !status.Waiting? && OneFollowUp(db, kind, e, rule)
    ensures OneFollowUp(Settle(db, k, status, now), kind, e, rule)
  {
    SubsetIsSmaller(WaitingFollowUps(Settle(db, k, status, now), kind, e, rule), WaitingFollowUps(db, kind, e, rule));
  }

  lemma DispatchedFollowUps(db: DB, k: nat, note: Note, now: Time, fault: Fault, kind: ActionKind, e: nat, rule: nat)
    requires FreshIds(db) && k in db.actions && OneFollowUp(db, kind, e, rule)
    ensures var back := if Raises(db, k, now, fault) && IsFollowUp(db.actions[k], kind, e, rule) then {k} else {};
            OneFollowUp(DispatchTimer(db, k, note, now, fault), kind, e, rule)
            <==> |WaitingFollowUps(db, kind, e, rule) + back| <= 1
  {
    hide Handle, WaitingFollowUps, Settle, FreshIds, Raises, IsFollowUp;
    HandleFollowUps(db, k, note, now, fault, kind, e, rule);
    HandleKeepsTimer(db, k, note, now, fault);
    RaisesExactlyWhen(db, k, note, now, fault);
    assert WaitingFollowUps(db, kind, e, rule) + {} == WaitingFollowUps(db, kind, e, rule);
    match Handle(db, k, note, now, fault) {
      case Completed(after) => SettleFollowUp(after, k, Done, now, kind, e, rule);
      case Skipped => SettleFollowUp(db, k, Cancelled, now, kind, e, rule);
      case Raised(after) => RequeueFollowUp(after, k, now, kind, e, rule);
    }
  }

  lemma DispatchOneFollowUp(db: DB, k: nat, note: Note, now: Time, fault: Fault, kind: ActionKind, e: nat, rule: nat)
    requires FreshIds(db) && k in db.actions && OneFollowUp(db, kind, e, rule)
    ensures var s := DispatchOne(k, note, fault);
            OneFollowUp(Apply(db, s, now), kind, e, rule) <==> LeavesOneFollowUp(db, s, now, kind, e, rule)
  {
    hide DispatchTimer, WaitingFollowUps, FreshIds, Raises;
    DispatchedFollowUps(db, k, note, now, fault, kind, e, rule);
    var one := FollowUpsAmong(db, {k}, kind, e, rule);
    assert one == if IsFollowUp(db.actions[k], kind, e, rule) then {k} else {};
    assert FollowUpsAmong(db, {}, kind, e, rule) == {};
  }

  lemma RecoveredFollowUps(db: DB, cutoff: Time, now: Time, kind: ActionKind, e: nat, rule: nat)
    ensures WaitingFollowUps(RecoverTimers(db, cutoff), kind, e, rule)
            == WaitingFollowUps(db, kind, e, rule)
               + FollowUpsAmong(db, PutBack(db, RecoverStaleTimers(cutoff), now), kind, e, rule)
  {
  }

  lemma RecoverOneFollowUp(db: DB, cutoff: Time, now: Time, kind: ActionKind, e: nat, rule: nat)
    requires FreshIds(db)
    ensures var s := RecoverStaleTimers(cutoff);
            OneFollowUp(Apply(db, s, now), kind, e, rule) <==> LeavesOneFollowUp(db, s, now, kind, e, rule)
  {
    hide FreshIds, WaitingFollowUps, FollowUpsAmong, PutBack, RecoverTimers;
    RecoveredFollowUps(db, cutoff, now, kind, e, rule);
  }

  lemma DeliverKeepsOne(db: DB, r: nat, attempt: Attempt, now: Time, kind: ActionKind, e: nat, rule: nat)
    requires FreshIds(db) && r in db.outbox && OneFollowUp(db, kind, e, rule)
    ensures OneFollowUp(Deliver(db, r, attempt, now), kind, e, rule)
  {
    hide EnsureFollowUp, Usable, Backoff;
    var row := db.outbox[r];
    assert forall changed: OutboxRow :: WaitingFollowUps(PutRow(db, r, changed), kind, e, rule)
                                        == WaitingFollowUps(db, kind, e, rule);
    if StartsRenotify(db, row) {
      EnsureKeepsOne(PutRow(db, r, MarkDelivered(row, now)), Renotify, row.event.value, row.rule.value,
                     now + db.rules[row.rule.value].renotifyInterval.value * MINUTE, kind, e, rule);
    }
  }

  /** Of the other steps only these two can add a follow-up timer. */
  lemma OthersOnlyDropFollowUps(db: DB, s: Step, now: Time, kind: ActionKind, e: nat, rule: nat)
    requires FreshIds(db) && Enabled(db, s) && !s.DispatchOne? && !s.RecoverStaleTimers?
    requires !s.PlanEscalation? && !s.DeliverOne?
    ensures WaitingFollowUps(Apply(db, s, now), kind, e, rule) <= WaitingFollowUps(db, kind, e, rule)
  {
    hide StageRow, Ascending, Take;
    if s.StageOne? {
      StageRowLeavesFollowUps(db, s.event, s.origin, s.channel, s.trigger, s.note, now, kind, e, rule);
    }
  }

  /** Planning an escalation and delivering a row add a timer only where none waits. */
  lemma LookingStepsKeepOne(db: DB, s: Step, now: Time, kind: ActionKind, e: nat, rule: nat)
    requires FreshIds(db) && Enabled(db, s) && (s.PlanEscalation? || s.DeliverOne?) && OneFollowUp(db, kind, e, rule)
    ensures OneFollowUp(Apply(db, s, now), kind, e, rule)
  {
    hide FreshIds, Deliver, EnsureFollowUp, OneFollowUp;
    if s.PlanEscalation? {
      var dueAt := now + db.rules[s.rule].escalationAfter.value * MINUTE;
      EnsureKeepsOne(db, Escalation, s.event, s.rule, dueAt, kind, e, rule);
    } else {
      DeliverKeepsOne(db, s.id, s.attempt, now, kind, e, rule);
    }
  }

  lemma OthersPutNothingBack(db: DB, s: Step, now: Time, kind: ActionKind, e: nat, rule: nat)
    requires Enabled(db, s) && !s.DispatchOne? && !s.RecoverStaleTimers? && OneFollowUp(db, kind, e, rule)
    ensures LeavesOneFollowUp(db, s, now, kind, e, rule)
  {
    hide Enabled, WaitingFollowUps;
    assert FollowUpsAmong(db, {}, kind, e, rule) == {};
    assert WaitingFollowUps(db, kind, e, rule) + {} == WaitingFollowUps(db, kind, e, rule);
  }

  lemma OthersKeepOne(db: DB, s: Step, now: Time, kind: ActionKind, e: nat, rule: nat)
    requires FreshIds(db) && Enabled(db, s) && !s.DispatchOne? && !s.RecoverStaleTimers?
    requires OneFollowUp(db, kind, e, rule)
    ensures OneFollowUp(Apply(db, s, now), kind, e, rule)
  {
    hide FreshIds, Apply, Enabled, WaitingFollowUps;
    if s.PlanEscalation? || s.DeliverOne? {
      LookingStepsKeepOne(db, s, now, kind, e, rule);
    } else {
      OthersOnlyDropFollowUps(db, s, now, kind, e, rule);
      SubsetIsSmaller(WaitingFollowUps(Apply(db, s, now), kind, e, rule), WaitingFollowUps(db, kind, e, rule));
    }
  }

  /** At most one waiting timer of a kind per alert and rule survives a step exactly when it puts no second one back. */
  lemma OneFollowUpUnlessPutBack(db: DB, s: Step, now: Time, kind: ActionKind, e: nat, rule: nat)
    requires Inv(db) && Enabled(db, s) && OneFollowUp(db, kind, e, rule)
    ensures OneFollowUp(Apply(db, s, now), kind, e, rule) <==> LeavesOneFollowUp(db, s, now, kind, e, rule)
  {
    InvIds(db);
    hide Inv, FreshIds, Apply, OneFollowUp, LeavesOneFollowUp;
    if s.DispatchOne? {
      DispatchOneFollowUp(db, s.timer, s.payload, now, s.fault, kind, e, rule);
    } else if s.RecoverStaleTimers? {
      RecoverOneFollowUp(db, s.cutoff, now, kind, e, rule);
    } else {
      OthersKeepOne(db, s, now, kind, e, rule);
      OthersPutNothingBack(db, s, now, kind, e, rule);
    }
  }

  /** Over whole runs: from one waiting timer at most there is never a second, exactly while no step puts one back. */
  lemma {:induction false} OneFollowUpOverRuns(dbs: seq<DB>, steps: seq<Timed>, n: nat, kind: ActionKind, e: nat,
                                               rule: nat)
    requires IsRun(dbs, steps) && n < |dbs| && OneFollowUp(dbs[0], kind, e, rule)
    ensures (forall i :: 0 <= i <= n ==> OneFollowUp(dbs[i], kind, e, rule))
            <==> forall i :: 0 <= i < n ==> LeavesOneFollowUp(dbs[i], steps[i].step, steps[i].at, kind, e, rule)
  {
    hide Inv, Apply, FreshIds, OneFollowUp, LeavesOneFollowUp;
    if n > 0 {
      var last := dbs[n - 1];
      OneFollowUpOverRuns(dbs, steps, n - 1, kind, e, rule);
      RunKeepsInv(dbs, steps, n - 1);
      if OneFollowUp(last, kind, e, rule) {
        OneFollowUpUnlessPutBack(last, steps[n - 1].step, steps[n - 1].at, kind, e, rule);
        assert dbs[n] == Apply(last, steps[n - 1].step, steps[n - 1].at);
      }
      assert (forall i :: 0 <= i <= n ==> OneFollowUp(dbs[i], kind, e, rule))
        <==> (forall i :: 0 <= i <= n - 1 ==> OneFollowUp(dbs[i], kind, e, rule)) && OneFollowUp(dbs[n], kind, e, rule);
    }
  }
}
