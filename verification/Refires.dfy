/**
 An alert that resolves and fires again. Its row is reopened so that it is notified on again, but the unique key
 (event, channel, trigger) still holds its first announcement and its first escalation: exactly what is sent then.
 */
module Refires {
  import opened Prelude
  import opened Model
  import opened Matching
  import opened Staging
  import opened Dispatch
  import opened Invariants
  import opened Runs
  import opened Carriers
  import opened TimerSafety
  import opened Traps
  import BrokenPatterns
  import R = Routing

  // ---- exactly what a transition and an escalation send ----

  /** A key that was free before and is taken now: a row was staged for it. */
  ghost predicate Adds(before: DB, after: DB, event: nat, c: nat, trigger: Trigger) {
    (event, c, trigger) !in Keys(before) && (event, c, trigger) in Keys(after)
  }

  /** A transition is sent to a channel exactly when the channel is notified and its key is free. */
  lemma SentExactlyWhenFree(db: DB, listing: R.Listing, t: R.Transition, id: nat, shares: seq<R.Share>, note: Note,
                            now: Time, c: nat)
    requires id in db.events && FreshIds(db) && R.Lists(db, listing)
    requires R.Route(db, listing, t, id, shares, note, now).1.Some?
    ensures Adds(db, R.Route(db, listing, t, id, shares, note, now).0, id, c, R.TriggerOf(t))
            <==> R.Notified(db, t, shares, c) && !KeyTaken(db, id, c, R.TriggerOf(t))
  {
    hide R.Route, R.Notified, R.Lists, Keys, KeyTaken, FreshIds;
    var after := R.Route(db, listing, t, id, shares, note, now).0;
    R.RoutingMeetsSpec(db, listing, t, id, shares, note, now);
    KeysAre(db, id, c, R.TriggerOf(t));
    assert (id, c, R.TriggerOf(t)) in Keys(after)
      <==> (id, c, R.TriggerOf(t)) in Keys(db) || R.Notified(db, t, shares, c);
  }

  /** A completed follow-up is sent to a channel exactly when the channel is a target and its key is free. */
  lemma FollowsUpExactlyWhenFree(db: DB, k: nat, note: Note, now: Time, fault: Fault, c: nat)
    requires FreshIds(db) && k in db.actions && FollowsUp(db.actions[k]) && Handle(db, k, note, now, fault).Completed?
    ensures db.actions[k].event.Some? && db.actions[k].rule.Some? && db.actions[k].rule.value in db.rules
    ensures var event, trigger := db.actions[k].event.value, TriggerFor(db.actions[k], k);
            Adds(db, DispatchTimer(db, k, note, now, fault), event, c, trigger)
            <==> c in Targets(db, k) && !KeyTaken(db, event, c, trigger)
  {
    hide Handle, DispatchTimer, Keys, KeyTaken, FreshIds, Targets;
    CompletedMeansAllStaged(db, k, note, now, fault);
    DispatchKeys(db, k, note, now, fault);
    KeysAre(db, db.actions[k].event.value, c, TriggerFor(db.actions[k], k));
  }

  /** A completed escalation tells nobody exactly when every target already has an escalation of this alert. */
  lemma SilentExactlyWhen(db: DB, k: nat, note: Note, now: Time, fault: Fault)
    requires FreshIds(db) && k in db.actions && db.actions[k].kind.Escalation?
    requires Handle(db, k, note, now, fault).Completed?
    ensures db.actions[k].event.Some? && db.actions[k].rule.Some? && db.actions[k].rule.value in db.rules
    ensures Keys(DispatchTimer(db, k, note, now, fault)) == Keys(db)
            <==> forall c :: c in Targets(db, k) ==> KeyTaken(db, db.actions[k].event.value, c, OnEscalation)
  {
    hide Handle, DispatchTimer, Keys, KeyTaken, FreshIds, Targets;
    CompletedMeansAllStaged(db, k, note, now, fault);
    DispatchKeys(db, k, note, now, fault);
    var event, after := db.actions[k].event.value, DispatchTimer(db, k, note, now, fault);
    forall c | c in Targets(db, k)
      ensures (event, c, OnEscalation) in Keys(after)
      ensures (event, c, OnEscalation) in Keys(db) <==> KeyTaken(db, event, c, OnEscalation)
    {
      assert (event, c, OnEscalation) in KeysFor(event, Targets(db, k), OnEscalation);
      KeysAre(db, event, c, OnEscalation);
    }
  }

  /** A key once taken is taken for as long as its row is kept: staging under it finds it taken and changes nothing. */
  lemma SentOnceWhileKept(dbs: seq<DB>, steps: seq<Timed>, i: nat, j: nat, r: nat, e: nat, c: nat, trigger: Trigger,
                          rule: Option<nat>, note: Note, now: Time)
    requires IsRun(dbs, steps) && i <= j < |dbs| && r in dbs[i].outbox && r in dbs[j].outbox
    requires HasKey(dbs[i].outbox[r], e, c, trigger) && c in dbs[j].channels
    ensures KeyTaken(dbs[j], e, c, trigger)
    ensures StageRow(dbs[j], e, rule, c, trigger, note, now) == (dbs[j], Duplicate)
  {
    hide IsRun;
    RunAges(dbs, steps, i, j);
    assert HasKey(dbs[j].outbox[r], e, c, trigger);
  }

  // ---- a run: fired, escalated, resolved, fired again ----

  const NOON: int := 12 * HOUR

  function Pager(): RoutingRule {
    RoutingRule(0, Notify, true, true, false, false, [], [], [], [], [], [0], true, Some(30), [0], None)
  }

  function Alarm(status: AlertStatus, received: Time): AlertEvent {
    AlertEvent(0, "f", 0, status, if status.Firing? then None else Some(received), "Down", None, None, map[], map[],
               Some(0), 0, received, 1, None, None, false)
  }

  function Watch(): DB {
    DB(map[], map[], map[0 := Alarm(Firing, 0)], map[0 := SomeChannel(Off)], map[0 := Pager()], 0, 0)
  }

  function Told(db: DB, trigger: Trigger, now: Time): DB {
    AddRow(db, FreshRow(Some(0), Some(0), 0, trigger, "n", Pending, now))
  }

  function Received(db: DB, status: AlertStatus, now: Time): DB {
    db.(events := db.events[0 := Alarm(status, now)])
  }

  function Fired(): DB { Told(Watch(), OnFiring, 0) }
  function Due(): DB { Planned(Fired(), 0) }
  function DueHeld(): DB { HoldTimer(Due(), 0, HALF) }
  function Escalated(): DB { Settle(Told(DueHeld(), OnEscalation, HALF), 0, Done, HALF) }
  function Over(): DB { Received(Escalated(), Resolved, HOUR) }
  function Again(): DB { Received(Over(), Firing, NOON) }
  function DueAgain(): DB { Planned(Again(), NOON) }
  function AgainHeld(): DB { HoldTimer(DueAgain(), 1, NOON + HALF) }
  function Silent(): DB { Settle(AgainHeld(), 1, Done, NOON + HALF) }

  lemma FiringStep()
    ensures Follows(Watch(), StageOne(0, Some(0), 0, OnFiring, "n"), 0, Fired())
  {
  }

  lemma PlanStep(db: DB, now: Time)
    requires FreshIds(db) && db.rules == Watch().rules && WaitingFollowUps(db, Escalation, 0, 0) == {}
    ensures Follows(db, PlanEscalation(0, 0), now, Planned(db, now))
  {
  }

  lemma ClaimStep(db: DB, k: nat, now: Time)
    requires FreshIds(db) && k in db.actions && db.actions[k].status.Waiting? && db.actions[k].dueAt <= now
    requires forall j :: j in db.actions && j != k ==> !db.actions[j].status.Waiting?
    ensures Follows(db, ClaimDueTimers(50), now, HoldTimer(db, k, now))
  {
    ClaimsTheOnlyTimer(db, k, now);
  }

  lemma StageForOne(db: DB, trigger: Trigger, note: Note, now: Time)
    requires 0 in db.channels && db.channels[0].digestMode.Off?
    ensures StageAll(db, 0, Some(0), [0], trigger, note, now)
            == (StageRow(db, 0, Some(0), 0, trigger, note, now).0, true)
  {
    hide KeyTaken;
    StageAllUnfolds(db, 0, Some(0), [], 0, trigger, note, now);
    assert [] + [0] == [0];
  }

  /** The pager's escalation completes, leaving what staging for its one channel leaves. */
  lemma PagerEscalates(db: DB, k: nat, now: Time)
    requires FreshIds(db) && db.rules == Watch().rules && db.channels == Watch().channels && k in db.actions
    requires 0 in db.events && db.events[0].status.Firing? && db.events[0].acknowledgedAt.None?
    requires db.actions[k].kind.Escalation? && db.actions[k].event == Some(0) && db.actions[k].rule == Some(0)
    ensures Handle(db, k, "n", now, NoFault) == Completed(StageRow(db, 0, Some(0), 0, OnEscalation, "n", now).0)
  {
    hide StageAll, StageRow;
    assert Allowed(db, 0, [0]) == [0];
    StageForOne(db, OnEscalation, "n", now);
  }

  lemma EscalatingStep()
    ensures Follows(DueHeld(), DispatchOne(0, "n", NoFault), HALF, Escalated())
  {
    hide Handle;
    PagerEscalates(DueHeld(), 0, HALF);
  }

  lemma TakenAgain()
    ensures 0 in AgainHeld().outbox && HasKey(AgainHeld().outbox[0], 0, 0, OnFiring)
    ensures 1 in AgainHeld().outbox && HasKey(AgainHeld().outbox[1], 0, 0, OnEscalation)
    ensures FreshIds(Again()) && FreshIds(AgainHeld()) && Again().outbox == AgainHeld().outbox == Escalated().outbox
  {
  }

  /** The second escalation completes without staging anything. */
  lemma SilentHandling()
    ensures FreshIds(AgainHeld()) && 1 in AgainHeld().actions
    ensures Handle(AgainHeld(), 1, "n", NOON + HALF, NoFault) == Completed(AgainHeld())
  {
    hide Handle;
    var db := AgainHeld();
    TakenAgain();
    assert KeyTaken(db, 0, 0, OnEscalation);
    PagerEscalates(db, 1, NOON + HALF);
  }

  lemma SilentStep()
    ensures Follows(AgainHeld(), DispatchOne(1, "n", NoFault), NOON + HALF, Silent())
  {
    hide Handle, AgainHeld;
    SilentHandling();
  }

  lemma ResolvingSteps()
    ensures Follows(Escalated(), WriteEvent(0, Alarm(Resolved, HOUR)), HOUR, Over())
    ensures Follows(Over(), CancelTimers(0), HOUR, Over())
    ensures Follows(Over(), WriteEvent(0, Alarm(Firing, NOON)), NOON, Again())
  {
    assert CancelPending(Over(), 0, HOUR).actions == Over().actions;
  }

  lemma RefiringStep()
    ensures Follows(Again(), StageOne(0, Some(0), 0, OnFiring, "n"), NOON, Again())
    ensures FreshIds(Again()) && KeyTaken(Again(), 0, 0, OnFiring)
  {
    TakenAgain();
    assert KeyTaken(Again(), 0, 0, OnFiring);
  }

  lemma {:induction false} UpToEscalated() returns (dbs: seq<DB>, steps: seq<Timed>)
    ensures IsRun(dbs, steps) && |dbs| == 5 && |steps| == 4 && steps[3].at == HALF
    ensures dbs[0] == Watch() && dbs[4] == Escalated()
  {
    hide Follows, IsRun, Fired, Due, DueHeld, Escalated;
    FiringStep();
    FirstEscalation();
    EscalatingStep();
    dbs, steps := Begin(Watch());
    dbs, steps := Then(dbs, steps, StageOne(0, Some(0), 0, OnFiring, "n"), 0, Fired());
    dbs, steps := Then(dbs, steps, PlanEscalation(0, 0), 0, Due());
    dbs, steps := Then(dbs, steps, ClaimDueTimers(50), HALF, DueHeld());
    dbs, steps := Then(dbs, steps, DispatchOne(0, "n", NoFault), HALF, Escalated());
  }

  lemma FirstEscalation()
    ensures Follows(Fired(), PlanEscalation(0, 0), 0, Due()) && Follows(Due(), ClaimDueTimers(50), HALF, DueHeld())
  {
    hide Follows;
    PlanStep(Fired(), 0);
    ClaimStep(Due(), 0, HALF);
  }

  lemma SecondEscalation()
    ensures Follows(Again(), PlanEscalation(0, 0), NOON, DueAgain())
    ensures Follows(DueAgain(), ClaimDueTimers(50), NOON + HALF, AgainHeld())
  {
    hide Follows;
    PlanStep(Again(), NOON);
    ClaimStep(DueAgain(), 1, NOON + HALF);
  }

  /**
   An alert fires, is announced and escalated, resolves, and fires again: its second announcement is staged without
   effect, and its second escalation, from a timer of its own, completes without a row.
   */
  lemma RefiredAlertTellsNobody() returns (dbs: seq<DB>, steps: seq<Timed>)
    ensures IsRun(dbs, steps) && |dbs| == 12
    ensures dbs[4] == Escalated() && dbs[5] == Over() && dbs[7] == dbs[8] == Again() && dbs[11] == Silent()
    ensures steps[7].step.StageOne?
    ensures 1 in dbs[10].actions && Handle(dbs[10], 1, "n", NOON + HALF, NoFault) == Completed(dbs[10])
    ensures dbs[11].outbox == dbs[4].outbox && 1 in dbs[11].actions && dbs[11].actions[1].status.Done?
  {
    hide Follows, IsRun, Escalated, Over, Again, DueAgain, AgainHeld, Handle;
    ResolvingSteps();
    RefiringStep();
    SecondEscalation();
    SilentHandling();
    SilentStep();
    TakenAgain();
    dbs, steps := UpToEscalated();
    dbs, steps := Then(dbs, steps, WriteEvent(0, Alarm(Resolved, HOUR)), HOUR, Over());
    dbs, steps := Then(dbs, steps, CancelTimers(0), HOUR, Over());
    dbs, steps := Then(dbs, steps, WriteEvent(0, Alarm(Firing, NOON)), NOON, Again());
    dbs, steps := Then(dbs, steps, StageOne(0, Some(0), 0, OnFiring, "n"), NOON, Again());
    dbs, steps := Then(dbs, steps, PlanEscalation(0, 0), NOON, DueAgain());
    dbs, steps := Then(dbs, steps, ClaimDueTimers(50), NOON + HALF, AgainHeld());
    dbs, steps := Then(dbs, steps, DispatchOne(1, "n", NoFault), NOON + HALF, Silent());
  }

  lemma PagerFits(re: Compiler)
    ensures Evaluate(re, Again().events[0], Pager(), Firing) == Verdict(Matched, None)
  {
    hide Evaluate;
    BrokenPatterns.MatchedMeans(re, Again().events[0], Pager(), Firing);
    R.FitsExactlyWhen(R.Transition(re, Again().events[0], Firing), Pager());
  }

  lemma AgainIsNotified(re: Compiler, shares: seq<R.Share>)
    ensures R.Notified(Again(), R.Transition(re, Again().events[0], Firing), shares, 0)
  {
    hide Evaluate;
    PagerFits(re);
    var db, t := Again(), R.Transition(re, Again().events[0], Firing);
    assert 0 in db.rules && R.Answers(t, db.rules[0], 0, false);
    assert forall r :: r in db.rules ==> !db.rules[r].action.Suppress?;
  }

  /** Routing that re-fire, too, reaches the channel and adds no row for it, however the rules are listed. */
  lemma RefireIsRoutedInVain(re: Compiler, listing: R.Listing, shares: seq<R.Share>, note: Note, now: Time)
    requires R.Lists(Again(), listing)
    requires R.Route(Again(), listing, R.Transition(re, Again().events[0], Firing), 0, shares, note, now).1.Some?
    ensures var t := R.Transition(re, Again().events[0], Firing);
            && R.Notified(Again(), t, shares, 0)
            && !Adds(Again(), R.Route(Again(), listing, t, 0, shares, note, now).0, 0, 0, OnFiring)
  {
    hide R.Route, R.Notified, R.Lists, KeyTaken, Adds, FreshIds;
    RefiringStep();
    AgainIsNotified(re, shares);
    SentExactlyWhenFree(Again(), listing, R.Transition(re, Again().events[0], Firing), 0, shares, note, now, 0);
  }
}
