/** What escalation and renotify timers may do, and what happens when one is dispatched twice. */
module TimerSafety {
  import opened Prelude
  import opened Model
  import opened Staging
  import opened Dispatch
  import opened Delivery
  import opened Retention
  import opened Invariants
  import opened Runs
  import opened Carriers

  predicate FollowsUp(a: ScheduledAction) {
    a.kind.Escalation? || a.kind.Renotify?
  }

  /** The channels timer `k` notifies, and the trigger its rows carry. */
  function Targets(db: DB, k: nat): seq<nat>
    requires k in db.actions && db.actions[k].rule.Some? && db.actions[k].rule.value in db.rules
  {
    Recipients(db, db.actions[k])
  }

  // ---- safety ----

  /** An alert that is resolved, acknowledged or gone gets no row and no successor timer, whatever goes wrong. */
  lemma NothingForClosedAlerts(db: DB, k: nat, note: Note, now: Time, fault: Fault)
    requires FreshIds(db) && k in db.actions && FollowsUp(db.actions[k]) && !Actionable(db, db.actions[k])
    ensures DispatchTimer(db, k, note, now, fault)
            == if fault.Early?
               then db.(actions := db.actions[k := db.actions[k].(status := Waiting, dueAt := now + RETRY_BACKOFF)])
               else Settle(db, k, Cancelled, now)
  {
  }

  lemma StageRowTriggers(db: DB, event: nat, rule: Option<nat>, c: nat, trigger: Trigger, note: Note, now: Time)
    requires FreshIds(db) && c in db.channels
    ensures var after := StageRow(db, event, rule, c, trigger, note, now).0;
            forall r :: r in after.outbox && r !in db.outbox ==>
              after.outbox[r].trigger == trigger && after.outbox[r].event == Some(event)
  {
  }

  lemma {:induction false} StageAllTriggers(db: DB, event: nat, rule: Option<nat>, cs: seq<nat>, trigger: Trigger,
                                            note: Note, now: Time)
    requires FreshIds(db) && forall c :: c in cs ==> c in db.channels
    ensures var after := StageAll(db, event, rule, cs, trigger, note, now).0;
            forall r :: r in after.outbox && r !in db.outbox ==>
              after.outbox[r].trigger == trigger && after.outbox[r].event == Some(event)
  {
    if cs != [] {
      var front := cs[..|cs| - 1];
      StageAllTriggers(db, event, rule, front, trigger, note, now);
      StageAllAppends(db, event, rule, front, trigger, note, now);
      var (before, ok) := StageAll(db, event, rule, front, trigger, note, now);
      if ok {
        StageRowTriggers(before, event, rule, cs[|cs| - 1], trigger, note, now);
        StageRowAppends(before, event, rule, cs[|cs| - 1], trigger, note, now);
      }
      hide StageRow;
    }
  }

  /** What a follow-up dispatch leaves in the outbox is what staging for some of its targets leaves. */
  lemma DispatchStages(db: DB, k: nat, note: Note, now: Time, fault: Fault)
    requires FreshIds(db) && k in db.actions && FollowsUp(db.actions[k]) && Actionable(db, db.actions[k])
    ensures var a := db.actions[k];
            var after := DispatchTimer(db, k, note, now, fault);
            || after.outbox == db.outbox
            || (a.rule.Some? && a.rule.value in db.rules
                && after.outbox == StageUnder(db, a.event.value, a.rule.value, Targets(db, k),
                                              TriggerFor(db.actions[k], k), note, now, fault).0.outbox)
  {
    hide StageUnder, Allowed, Live, DispatchFlush;
  }

  /** Every follow-up row a step stages is for an alert that is firing and unacknowledged at that moment. */
  lemma FollowUpsOnlyForOpenAlerts(db: DB, s: Step, now: Time, r: nat)
    requires Inv(db) && Enabled(db, s) && r !in db.outbox && r in Apply(db, s, now).outbox
    requires var t := Apply(db, s, now).outbox[r].trigger; t.OnEscalation? || t.OnRenotify?
    ensures s.DispatchOne? && s.timer in db.actions && Actionable(db, db.actions[s.timer])
    ensures Apply(db, s, now).outbox[r].event == db.actions[s.timer].event
    ensures Apply(db, s, now).outbox[r].trigger == TriggerFor(db.actions[s.timer], s.timer)
  {
    InvIds(db);
    hide Inv, StageRow, DispatchTimer, RowsOk;
    match s {
      case StageOne(e, rule, c, trigger, note) => StageRowTriggers(db, e, rule, c, trigger, note, now);
      case DispatchOne(k, note, fault) => DispatchedRowsAre(db, k, note, now, fault);
      case StageReport(_, _) =>
      case _ => RowIds(db, s, now);
    }
  }

  lemma DispatchedRowsAre(db: DB, k: nat, note: Note, now: Time, fault: Fault)
    requires FreshIds(db) && k in db.actions
    ensures var after := DispatchTimer(db, k, note, now, fault);
            forall r :: r in after.outbox && r !in db.outbox ==>
              || after.outbox[r].trigger == OnDigest
              || (FollowsUp(db.actions[k]) && Actionable(db, db.actions[k])
                  && after.outbox[r].trigger == TriggerFor(db.actions[k], k)
                  && after.outbox[r].event == db.actions[k].event)
  {
    hide DispatchTimer, StageUnder;
    var a := db.actions[k];
    if FollowsUp(a) {
      if Actionable(db, a) {
        DispatchStages(db, k, note, now, fault);
        if a.rule.Some? && a.rule.value in db.rules {
          StageUnderTriggers(db, a.event.value, a.rule.value, Targets(db, k), TriggerFor(db.actions[k], k), note, now,
                             fault);
        }
      } else {
        NothingForClosedAlerts(db, k, note, now, fault);
      }
    } else {
      FlushedRowsAre(db, k, note, now, fault);
    }
  }

  lemma StageUnderTriggers(db: DB, event: nat, rule: nat, cs: seq<nat>, trigger: Trigger, note: Note, now: Time,
                           fault: Fault)
    requires FreshIds(db) && forall c :: c in cs ==> c in db.channels
    ensures var after := StageUnder(db, event, rule, cs, trigger, note, now, fault).0;
            forall r :: r in after.outbox && r !in db.outbox ==>
              after.outbox[r].trigger == trigger && after.outbox[r].event == Some(event)
  {
    hide StageAll;
    StageAllTriggers(db, event, Some(rule), cs, trigger, note, now);
    if fault.After? && fault.staged < |cs| {
      StageAllTriggers(db, event, Some(rule), cs[..fault.staged], trigger, note, now);
    }
  }

  lemma FlushedRowsAre(db: DB, k: nat, note: Note, now: Time, fault: Fault)
    requires FreshIds(db) && k in db.actions && !FollowsUp(db.actions[k])
    ensures var after := DispatchTimer(db, k, note, now, fault);
            forall r :: r in after.outbox && r !in db.outbox ==> after.outbox[r].trigger == OnDigest
  {
    hide Flushed;
    var a := db.actions[k];
    if a.kind.DigestFlush? && DispatchFlush(db, a, now, fault).Completed? && |Parked(db, a.channel.value)| >= 2 {
      FlushedLinks(db, a.channel.value, now);
      FlushedRow(db, a.channel.value, now);
    }
  }

  // ---- idempotence ----

  lemma StageUnderKeys(db: DB, event: nat, rule: nat, cs: seq<nat>, trigger: Trigger, note: Note, now: Time,
                       fault: Fault)
    requires FreshIds(db) && forall c :: c in cs ==> c in db.channels
    ensures var (after, ok) := StageUnder(db, event, rule, cs, trigger, note, now, fault);
            && Keys(db) <= Keys(after) <= Keys(db) + KeysFor(event, cs, trigger)
            && (ok ==> Keys(after) == Keys(db) + KeysFor(event, cs, trigger))
  {
    hide StageAll;
    StageAllAddsKeys(db, event, Some(rule), cs, trigger, note, now);
    if fault.After? && fault.staged < |cs| {
      var some := cs[..fault.staged];
      StageAllAddsKeys(db, event, Some(rule), some, trigger, note, now);
      assert KeysFor(event, some, trigger) <= KeysFor(event, cs, trigger);
    }
  }

  lemma KeysOfSameOutbox(a: DB, b: DB)
    requires a.outbox == b.outbox
    ensures Keys(a) == Keys(b)
  {
  }

  /** The keys after a follow-up dispatch: all its targets' when it completes, some of them when it does not. */
  lemma DispatchKeys(db: DB, k: nat, note: Note, now: Time, fault: Fault)
    requires FreshIds(db) && k in db.actions && FollowsUp(db.actions[k]) && Actionable(db, db.actions[k])
    requires db.actions[k].rule.Some? && db.actions[k].rule.value in db.rules
    ensures var all := KeysFor(db.actions[k].event.value, Targets(db, k), TriggerFor(db.actions[k], k));
            var after := DispatchTimer(db, k, note, now, fault);
            && Keys(db) <= Keys(after) <= Keys(db) + all
            && (Handle(db, k, note, now, fault).Completed? ==> Keys(after) == Keys(db) + all)
  {
    var a := db.actions[k];
    var staged := StageUnder(db, a.event.value, a.rule.value, Targets(db, k), TriggerFor(db.actions[k], k), note, now,
                             fault).0;
    var after := DispatchTimer(db, k, note, now, fault);
    StageUnderKeys(db, a.event.value, a.rule.value, Targets(db, k), TriggerFor(db.actions[k], k), note, now, fault);
    DispatchStages(db, k, note, now, fault);
    if after.outbox == db.outbox { KeysOfSameOutbox(after, db); }
    if after.outbox == staged.outbox { KeysOfSameOutbox(after, staged); }
    if Handle(db, k, note, now, fault).Completed? { CompletedMeansAllStaged(db, k, note, now, fault); }
    hide StageUnder, DispatchTimer, Handle, Keys, KeysFor, Targets;
  }

  lemma CompletedMeansAllStaged(db: DB, k: nat, note: Note, now: Time, fault: Fault)
    requires FreshIds(db) && k in db.actions && FollowsUp(db.actions[k]) && Handle(db, k, note, now, fault).Completed?
    ensures var a := db.actions[k];
            && Actionable(db, a) && a.rule.Some? && a.rule.value in db.rules
            && var (staged, ok) := StageUnder(db, a.event.value, a.rule.value, Targets(db, k),
                                              TriggerFor(db.actions[k], k), note, now, fault);
               ok && DispatchTimer(db, k, note, now, fault).outbox == staged.outbox
  {
    hide StageUnder;
  }

  lemma DispatchKeepsConfiguration(db: DB, k: nat, note: Note, now: Time, fault: Fault)
    requires FreshIds(db) && k in db.actions && FollowsUp(db.actions[k])
    ensures var after := DispatchTimer(db, k, note, now, fault);
            && after.events == db.events && after.channels == db.channels && after.rules == db.rules
            && FreshIds(after) && k in after.actions
            && after.actions[k] == db.actions[k].(status := after.actions[k].status, dueAt := after.actions[k].dueAt,
                                                  processedAt := after.actions[k].processedAt)
  {
    hide StageUnder;
    HandleKeepsTimer(db, k, note, now, fault);
    var a := db.actions[k];
    if a.event.Some? && a.rule.Some? && a.rule.value in db.rules {
      StageUnderKeepsRest(db, a.event.value, a.rule.value, Targets(db, k), TriggerFor(db.actions[k], k), note, now,
                          fault);
    }
  }

  lemma StageUnderKeepsRest(db: DB, event: nat, rule: nat, cs: seq<nat>, trigger: Trigger, note: Note, now: Time,
                            fault: Fault)
    requires FreshIds(db) && forall c :: c in cs ==> c in db.channels
    ensures var after := StageUnder(db, event, rule, cs, trigger, note, now, fault).0;
            FreshIds(after) && after.events == db.events && after.channels == db.channels && after.rules == db.rules
  {
    StageAllAppends(db, event, Some(rule), cs, trigger, note, now);
    if fault.After? && fault.staged < |cs| {
      StageAllAppends(db, event, Some(rule), cs[..fault.staged], trigger, note, now);
    }
  }

  /**
   Redispatch is idempotent: however far a first dispatch got before it failed or was abandoned, a second one that
   completes leaves exactly the keys that a single clean dispatch would have left.
   */
  lemma RedispatchIsIdempotent(db: DB, k: nat, note: Note, first: Time, fault: Fault, again: Note, second: Time)
    requires FreshIds(db) && k in db.actions && FollowsUp(db.actions[k])
    requires Handle(db, k, note, first, NoFault).Completed?
    requires var half := DispatchTimer(db, k, note, first, fault);
             FreshIds(half) && k in half.actions && Handle(half, k, again, second, NoFault).Completed?
    ensures Keys(DispatchTimer(DispatchTimer(db, k, note, first, fault), k, again, second, NoFault))
            == Keys(DispatchTimer(db, k, note, first, NoFault))
  {
    hide DispatchTimer, Handle, Keys, KeysFor, Targets;
    var half := DispatchTimer(db, k, note, first, fault);
    DispatchKeepsConfiguration(db, k, note, first, fault);
    CompletedMeansAllStaged(db, k, note, first, NoFault);
    DispatchKeys(db, k, note, first, NoFault);
    DispatchKeys(db, k, note, first, fault);
    DispatchKeys(half, k, again, second, NoFault);
    SameTargets(db, half, k);
  }

  lemma SameTargets(a: DB, b: DB, k: nat)
    requires k in a.actions && k in b.actions && a.channels == b.channels && a.rules == b.rules
    requires a.actions[k].rule == b.actions[k].rule && a.actions[k].kind == b.actions[k].kind
    requires a.actions[k].rule.Some? && a.actions[k].rule.value in a.rules
    ensures Targets(a, k) == Targets(b, k)
  {
    var rule := a.rules[a.actions[k].rule.value];
    SameLive(a, b, rule.channels);
    SameAllowed(a, b, rule.team, rule.escalationChannels);
  }

  lemma {:induction false} SameLive(a: DB, b: DB, cs: seq<nat>)
    requires a.channels == b.channels
    ensures Live(a, cs) == Live(b, cs)
  {
    if cs != [] { SameLive(a, b, cs[1..]); }
  }

  lemma {:induction false} SameAllowed(a: DB, b: DB, team: nat, cs: seq<nat>)
    requires a.channels == b.channels
    ensures Allowed(a, team, cs) == Allowed(b, team, cs)
  {
    if cs != [] { SameAllowed(a, b, team, cs[1..]); }
  }

  // ---- each renotify cycle has a trigger of its own ----

  predicate NoRowFor(db: DB, k: nat) {
    forall r :: r in db.outbox ==> db.outbox[r].trigger != OnRenotify(k)
  }

  /** A skipped dispatch, for whatever reason, only settles its own timer: no row, no successor, no other change. */
  lemma SkippedHasNoSuccessor(db: DB, k: nat, note: Note, now: Time, fault: Fault, event: nat, rule: nat)
    requires FreshIds(db) && k in db.actions && Handle(db, k, note, now, fault).Skipped?
    ensures var after := DispatchTimer(db, k, note, now, fault);
            && after == db.(actions := after.actions) && after.actions.Keys == db.actions.Keys
            && after.actions[k].status.Cancelled?
            && (forall j :: j in db.actions && j != k ==> after.actions[j] == db.actions[j])
            && WaitingFollowUps(after, Renotify, event, rule) == WaitingFollowUps(db, Renotify, event, rule) - {k}
  {
    hide Handle;
  }

  /** A completed renotify dispatch leaves a next cycle waiting. */
  lemma CompletedRenotifyHasSuccessor(db: DB, k: nat, note: Note, now: Time)
    requires FreshIds(db) && k in db.actions && db.actions[k].kind.Renotify? && !db.actions[k].status.Waiting?
    requires Handle(db, k, note, now, NoFault).Completed?
    ensures db.actions[k].event.Some? && db.actions[k].rule.Some?
    ensures WaitingFollowUps(DispatchTimer(db, k, note, now, NoFault), Renotify,
                             db.actions[k].event.value, db.actions[k].rule.value) != {}
  {
    var a := db.actions[k];
    var event, r := a.event.value, a.rule.value;
    HandleKeepsTimer(db, k, note, now, NoFault);
    var staged := StageUnder(db, event, r, Targets(db, k), OnRenotify(k), note, now, NoFault).0;
    StageAllKeepsTimers(db, event, Some(r), Targets(db, k), OnRenotify(k), note, now);
    var scheduled := ScheduleRenotify(staged, event, r, now).0;
    var after := DispatchTimer(db, k, note, now, NoFault);
    var waiting := WaitingFollowUps(staged, Renotify, event, r);
    var q := if waiting != {} then var w :| w in waiting; w else staged.nextAction;
    assert q in scheduled.actions && IsFollowUp(scheduled.actions[q], Renotify, event, r)
      && scheduled.actions[q].status.Waiting?;
    assert q != k && after.actions[q] == scheduled.actions[q];
    assert q in WaitingFollowUps(after, Renotify, event, r);
    hide StageUnder, StageAll;
  }

  /**
   Until timer `k` is dispatched for the first time, no row carries its trigger, whether it waited from the start
   or came up on the way: the unique key cannot swallow the notifications of a new cycle.
   */
  lemma {:induction false} FreshCycle(dbs: seq<DB>, steps: seq<Timed>, n: nat, k: nat)
    requires IsRun(dbs, steps) && n < |dbs| && NoRowFor(dbs[0], k)
    requires forall i :: 0 <= i < n ==> steps[i].step.DispatchOne? ==> steps[i].step.timer != k
    ensures NoRowFor(dbs[n], k)
  {
    if n > 0 {
      var db, s, now := dbs[n - 1], steps[n - 1].step, steps[n - 1].at;
      FreshCycle(dbs, steps, n - 1, k);
      RunKeepsInv(dbs, steps, n - 1);
      StepAges(db, s, now);
      var after := Apply(db, s, now);
      forall r | r in after.outbox ensures after.outbox[r].trigger != OnRenotify(k) {
        if r in db.outbox {
          assert SameIdentity(db.outbox[r], after.outbox[r]);
        } else if after.outbox[r].trigger.OnRenotify? {
          FollowUpsOnlyForOpenAlerts(db, s, now, r);
        }
      }
      hide Inv, Apply;
    }
  }

  /** So the first completed dispatch of a cycle adds a new key for every live channel of the rule. */
  lemma FirstCycleNotifiesAll(db: DB, k: nat, note: Note, now: Time, c: nat)
    requires FreshIds(db) && k in db.actions && db.actions[k].kind.Renotify? && NoRowFor(db, k)
    requires Handle(db, k, note, now, NoFault).Completed?
    requires db.actions[k].event.Some? && db.actions[k].rule.Some? && db.actions[k].rule.value in db.rules
    requires c in db.rules[db.actions[k].rule.value].channels && LiveChannel(db.channels, c)
    ensures (db.actions[k].event.value, c, OnRenotify(k)) !in Keys(db)
    ensures (db.actions[k].event.value, c, OnRenotify(k)) in Keys(DispatchTimer(db, k, note, now, NoFault))
  {
    hide DispatchTimer, Handle;
    CompletedMeansAllStaged(db, k, note, now, NoFault);
    DispatchKeys(db, k, note, now, NoFault);
    assert c in Targets(db, k);
  }
}
