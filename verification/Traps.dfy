/** Claims that look true of the engine and are not: a run that breaks each. */
module Traps {
  import opened Prelude
  import opened Model
  import opened Staging
  import opened Dispatch
  import opened Delivery
  import opened Retention
  import opened Invariants
  import opened Runs
  import opened Carriers
  import opened TimerSafety
  import opened OneTimer

  // ---- runs that break the obvious claims ----

  function SomeChannel(mode: DigestMode): Channel {
    Channel(0, false, true, false, mode, None, 5)
  }

  function Tables(mode: DigestMode): DB {
    DB(map[], map[], map[], map[0 := SomeChannel(mode)], map[], 0, 0)
  }

  lemma SingletonSorted(k: Key)
    ensures Ascending({k}) == [k]
  {
    AscendingUnique({k}, [k]);
  }

  function Claimed1(db: DB, worker: nat, now: Time): DB
    requires 0 in db.outbox
  {
    PutRow(db, 0, db.outbox[0].(status := InProgress, lockedBy := Some(worker), lockedAt := Some(now)))
  }

  lemma ClaimsTheOnlyRow(db: DB, worker: nat, now: Time)
    requires FreshIds(db) && db.outbox.Keys == {0} && db.outbox[0].status.Pending? && db.outbox[0].nextAttemptAt <= now
    ensures Apply(db, ClaimDueRows(worker, 20), now) == Claimed1(db, worker, now)
  {
    var key := (db.outbox[0].nextAttemptAt, 0);
    assert DueRows(db, now) == {key};
    SingletonSorted(key);
    assert ClaimRows(db, [key], worker, now).outbox == Claimed1(db, worker, now).outbox;
  }

  /** `after` follows `before` by the given step. */
  ghost predicate Follows(before: DB, s: Step, now: Time, after: DB) {
    FreshIds(before) && Enabled(before, s) && Apply(before, s, now) == after
  }

  lemma Then(dbs: seq<DB>, steps: seq<Timed>, s: Step, now: Time, after: DB) returns (more: seq<DB>, longer: seq<Timed>)
    requires IsRun(dbs, steps) && Follows(dbs[|dbs| - 1], s, now, after)
    requires steps == [] || steps[|steps| - 1].at <= now
    ensures more == dbs + [after] && longer == steps + [Timed(s, now)] && IsRun(more, longer)
  {
    hide Inv, Apply, Enabled, FreshIds;
    more, longer := dbs + [after], steps + [Timed(s, now)];
  }

  lemma Begin(db: DB) returns (dbs: seq<DB>, steps: seq<Timed>)
    requires db.outbox == map[] && db.actions == map[] && db.nextRow == db.nextAction == 0
    ensures dbs == [db] && steps == [] && IsRun(dbs, steps)
  {
    EmptyTablesOk(db.events, db.channels, db.rules);
    dbs, steps := [db], [];
    hide Inv;
  }

  // First run: one row, two workers.
  function Row0(): OutboxRow { FreshRow(Some(0), None, 0, OnFiring, "n", Pending, 0) }
  function Start(): DB { Tables(Off) }
  function Staged0(): DB { AddRow(Start(), Row0()) }
  function Held1(): DB { Claimed1(Staged0(), 1, 0) }
  function Held2(): DB { Claimed1(Staged0(), 2, HOUR) }
  function Sent(): DB { PutRow(Held2(), 0, MarkDelivered(Held2().outbox[0], HOUR)) }
  function Reopened(): DB { PutRow(Sent(), 0, MarkFailure(Sent().outbox[0], HOUR, 0)) }

  lemma FirstStaging()
    ensures Follows(Start(), StageOne(0, None, 0, OnFiring, "n"), 0, Staged0())
  {
  }

  lemma BothClaims()
    ensures Follows(Staged0(), ClaimDueRows(1, 20), 0, Held1())
    ensures Follows(Staged0(), ClaimDueRows(2, 20), HOUR, Held2())
  {
    hide Apply;
    ClaimsTheOnlyRow(Staged0(), 1, 0);
    ClaimsTheOnlyRow(Staged0(), 2, HOUR);
  }

  lemma LeaseLost()
    ensures Follows(Held1(), RecoverStaleLeases(MINUTE), HOUR, Staged0())
  {
    assert RecoverLeases(Held1(), MINUTE).outbox == Staged0().outbox;
  }

  lemma LastRunSteps()
    ensures Follows(Held2(), DeliverOne(0, Succeeds), HOUR, Sent())
    ensures Follows(Sent(), DeliverOne(0, Fails(0)), HOUR, Reopened())
    ensures 0 in Sent().outbox && Sent().outbox[0].status.Delivered?
    ensures 0 in Reopened().outbox && Reopened().outbox[0].status.Pending?
  {
  }

  /**
   'delivered' is not absorbing with two workers: the first one's lease is recovered while it is still
   sending, the second delivers the row, and the first one's late failure queues it again.
   */
  lemma TwoWorkersReopenADelivered() returns (dbs: seq<DB>, steps: seq<Timed>)
    ensures IsRun(dbs, steps) && |dbs| == 7
    ensures 0 in dbs[5].outbox && dbs[5].outbox[0].status.Delivered?
    ensures 0 in dbs[6].outbox && dbs[6].outbox[0].status.Pending?
  {
    hide Follows, IsRun, Staged0, Held1, Held2, Sent, Reopened;
    FirstStaging();
    BothClaims();
    LeaseLost();
    LastRunSteps();
    dbs, steps := Begin(Start());
    dbs, steps := Then(dbs, steps, StageOne(0, None, 0, OnFiring, "n"), 0, Staged0());
    dbs, steps := Then(dbs, steps, ClaimDueRows(1, 20), 0, Held1());
    dbs, steps := Then(dbs, steps, RecoverStaleLeases(MINUTE), HOUR, Staged0());
    dbs, steps := Then(dbs, steps, ClaimDueRows(2, 20), HOUR, Held2());
    dbs, steps := Then(dbs, steps, DeliverOne(0, Succeeds), HOUR, Sent());
    dbs, steps := Then(dbs, steps, DeliverOne(0, Fails(0)), HOUR, Reopened());
  }

  // Second run: a channel that always parks, and two flush timers.
  const LATER: int := 10 * MINUTE

  function Quiet(): DB { Tables(Always) }
  function ParkedOnce(): DB {
    AddAction(AddRow(Quiet(), FreshRow(Some(0), None, 0, OnFiring, "a", Digested, 0)), FlushTimer(Quiet(), 0, 0))
  }
  function FlushClaimed(): DB {
    var d := ParkedOnce();
    d.(actions := d.actions[0 := d.actions[0].(status := Claimed, dueAt := LATER)])
  }
  function ParkedTwice(): DB {
    AddAction(AddRow(FlushClaimed(), FreshRow(Some(1), None, 0, OnFiring, "b", Digested, LATER)),
              FlushTimer(FlushClaimed(), 0, LATER))
  }
  function FlushFailed(): DB {
    var d := ParkedTwice();
    d.(actions := d.actions[0 := d.actions[0].(status := Waiting, dueAt := LATER + RETRY_BACKOFF)])
  }

  lemma ParkingSteps()
    ensures Follows(Quiet(), StageOne(0, None, 0, OnFiring, "a"), 0, ParkedOnce())
    ensures Follows(FlushClaimed(), StageOne(1, None, 0, OnFiring, "b"), LATER, ParkedTwice())
  {
    assert WaitingFlushes(AddRow(Quiet(), FreshRow(Some(0), None, 0, OnFiring, "a", Digested, 0)), 0) == {};
    assert WaitingFlushes(AddRow(FlushClaimed(), FreshRow(Some(1), None, 0, OnFiring, "b", Digested, LATER)), 0) == {};
  }

  lemma ClaimingStep()
    ensures Follows(ParkedOnce(), ClaimDueTimers(50), LATER, FlushClaimed())
  {
    var d := ParkedOnce();
    var key := (d.actions[0].dueAt, 0);
    assert DueTimers(d, LATER) == {key};
    SingletonSorted(key);
    assert ClaimTimers(d, [key], LATER).actions == FlushClaimed().actions;
  }

  lemma FailingStep()
    ensures Follows(ParkedTwice(), DispatchOne(0, "", Early), LATER, FlushFailed())
    ensures WaitingFlushes(FlushFailed(), 0) == {0, 1}
    ensures FlushFailed().channels == Quiet().channels && forall r :: r in FlushFailed().outbox ==>
              !HasKey(FlushFailed().outbox[r], 2, 0, OnFiring)
  {
  }

  /** A flush that fails while a second one is already waiting: the next parked notification cannot be staged. */
  lemma TwoFlushesBlockStaging() returns (dbs: seq<DB>, steps: seq<Timed>)
    ensures IsRun(dbs, steps) && |dbs| == 5
    ensures |WaitingFlushes(dbs[4], 0)| == 2
    ensures 0 in dbs[4].channels && forall note, now :: StageRow(dbs[4], 2, None, 0, OnFiring, note, now).1.Failed?
  {
    hide Follows, IsRun, ParkedOnce, FlushClaimed, ParkedTwice, FlushFailed, StageRow;
    ParkingSteps();
    ClaimingStep();
    FailingStep();
    dbs, steps := Begin(Quiet());
    dbs, steps := Then(dbs, steps, StageOne(0, None, 0, OnFiring, "a"), 0, ParkedOnce());
    dbs, steps := Then(dbs, steps, ClaimDueTimers(50), LATER, FlushClaimed());
    dbs, steps := Then(dbs, steps, StageOne(1, None, 0, OnFiring, "b"), LATER, ParkedTwice());
    dbs, steps := Then(dbs, steps, DispatchOne(0, "", Early), LATER, FlushFailed());
    forall note, now ensures StageRow(FlushFailed(), 2, None, 0, OnFiring, note, now).1.Failed? {
      StagingFailsExactlyWhen(FlushFailed(), 2, None, 0, OnFiring, note, now);
    }
  }

  // Third run: one rule, three channels, and two renotify timers for the same alert and rule.
  const HALF: int := 30 * MINUTE

  function OpenAlert(): AlertEvent {
    AlertEvent(0, "f", 0, Firing, None, "Down", None, None, map[], map[], Some(0), 0, 0, 1, None, None, false)
  }

  function Paging(): RoutingRule {
    RoutingRule(0, Notify, true, true, true, false, [], [], [], [], [], [0, 1, 2], true, Some(30), [0], Some(30))
  }

  function Ward(): DB {
    DB(map[], map[], map[0 := OpenAlert()],
       map[0 := SomeChannel(Off), 1 := SomeChannel(Off), 2 := SomeChannel(Off)], map[0 := Paging()], 0, 0)
  }

  function Announce(db: DB, c: nat): DB {
    AddRow(db, FreshRow(Some(0), Some(0), c, OnFiring, "n", Pending, 0))
  }

  function Hold(db: DB, r: nat, now: Time): DB
    requires r in db.outbox
  {
    PutRow(db, r, db.outbox[r].(status := InProgress, lockedBy := Some(1), lockedAt := Some(now)))
  }

  function Deliver1(db: DB, r: nat, now: Time): DB
    requires r in db.outbox
  {
    AddAction(PutRow(db, r, MarkDelivered(db.outbox[r], now)), FollowUpTimer(Renotify, 0, 0, now + HALF))
  }

  function HoldTimer(db: DB, k: nat, now: Time): DB
    requires k in db.actions
  {
    db.(actions := db.actions[k := db.actions[k].(status := Claimed, dueAt := now)])
  }

  function RequeueFirst(db: DB, now: Time): DB
    requires 0 in db.actions
  {
    db.(actions := db.actions[0 := db.actions[0].(status := Waiting, dueAt := now + RETRY_BACKOFF)])
  }

  function AnnouncedOne(): DB { Announce(Ward(), 0) }
  function AnnouncedTwo(): DB { Announce(AnnouncedOne(), 1) }
  function Announced(): DB { Announce(AnnouncedTwo(), 2) }
  function FirstHeld(): DB { Hold(Announced(), 0, 0) }
  function FirstSent(): DB { Deliver1(FirstHeld(), 0, 0) }
  function CycleClaimed(): DB { HoldTimer(FirstSent(), 0, HALF) }
  function RestHeld(): DB { Hold(Hold(CycleClaimed(), 1, HALF), 2, HALF) }
  function SecondSent(): DB { Deliver1(RestHeld(), 1, HALF) }
  function CycleFailed(): DB { RequeueFirst(SecondSent(), HALF) }

  lemma AnnouncingSteps()
    ensures Follows(Ward(), StageOne(0, Some(0), 0, OnFiring, "n"), 0, AnnouncedOne())
    ensures Follows(AnnouncedOne(), StageOne(0, Some(0), 1, OnFiring, "n"), 0, AnnouncedTwo())
    ensures Follows(AnnouncedTwo(), StageOne(0, Some(0), 2, OnFiring, "n"), 0, Announced())
  {
  }

  /** The keys of the due rows, when the table can be listed. */
  lemma DueRowsAre(db: DB, due: seq<Key>, now: Time)
    requires Increasing(due)
    requires forall key :: key in due ==> key.1 >= 0 && key.1 in db.outbox && key.0 == db.outbox[key.1].nextAttemptAt
    requires forall r :: r in db.outbox ==> ((db.outbox[r].nextAttemptAt, r) in due <==>
                                             db.outbox[r].status.Pending? && db.outbox[r].nextAttemptAt <= now)
    ensures Ascending(DueRows(db, now)) == due
  {
    forall key ensures key in due <==> key in DueRows(db, now) {
      if key in due { assert (db.outbox[key.1].nextAttemptAt, key.1) == key; }
    }
    AscendingUnique(DueRows(db, now), due);
  }

  lemma ClaimsOne(db: DB, r: nat, now: Time)
    requires r in db.outbox && db.outbox[r].nextAttemptAt == 0
    ensures ClaimRows(db, [(0, r)], 1, now) == Hold(db, r, now)
  {
    assert ClaimRows(db, [(0, r)], 1, now).outbox == Hold(db, r, now).outbox;
  }

  lemma ClaimsTwo(db: DB, r: nat, q: nat, now: Time)
    requires r in db.outbox && q in db.outbox && r != q
    requires db.outbox[r].nextAttemptAt == 0 && db.outbox[q].nextAttemptAt == 0
    ensures ClaimRows(db, [(0, r), (0, q)], 1, now) == Hold(Hold(db, r, now), q, now)
  {
    assert ClaimRows(db, [(0, r), (0, q)], 1, now).outbox == Hold(Hold(db, r, now), q, now).outbox;
  }

  lemma AllAreDue()
    ensures Ascending(DueRows(Announced(), 0)) == [(0, 0), (0, 1), (0, 2)]
  {
    hide Ascending, DueRows;
    DueRowsAre(Announced(), [(0, 0), (0, 1), (0, 2)], 0);
  }

  lemma FirstClaim()
    ensures Follows(Announced(), ClaimDueRows(1, 1), 0, FirstHeld())
  {
    hide ClaimRows, Ascending, DueRows, Hold;
    AllAreDue();
    ClaimsOne(Announced(), 0, 0);
    assert Take([(0, 0), (0, 1), (0, 2)], 1) == [(0, 0)];
  }

  lemma RestAreDue()
    ensures Ascending(DueRows(CycleClaimed(), HALF)) == [(0, 1), (0, 2)]
  {
    hide Ascending, DueRows;
    DueRowsAre(CycleClaimed(), [(0, 1), (0, 2)], HALF);
  }

  lemma SecondClaim()
    ensures Follows(CycleClaimed(), ClaimDueRows(1, 20), HALF, RestHeld())
  {
    hide ClaimRows, Ascending, DueRows;
    RestAreDue();
    ClaimsTwo(CycleClaimed(), 1, 2, HALF);
    assert Take([(0, 1), (0, 2)], 20) == [(0, 1), (0, 2)];
  }

  /** A first firing delivery of the alert, and one while its timer is claimed, each start a cycle. */
  lemma DeliveryStartsCycle(db: DB, r: nat, now: Time)
    requires FreshIds(db) && r in db.outbox && r in Announced().outbox && db.channels == Ward().channels
    requires db.outbox[r] == Hold(Announced(), r, now).outbox[r] && db.rules == Ward().rules
    requires WaitingFollowUps(db, Renotify, 0, 0) == {}
    ensures Follows(db, DeliverOne(r, Succeeds), now, Deliver1(db, r, now))
  {
    assert WaitingFollowUps(PutRow(db, r, MarkDelivered(db.outbox[r], now)), Renotify, 0, 0)
        == WaitingFollowUps(db, Renotify, 0, 0);
  }

  lemma FirstSending()
    ensures Follows(FirstHeld(), DeliverOne(0, Succeeds), 0, FirstSent())
  {
    hide Follows, Deliver1;
    DeliveryStartsCycle(FirstHeld(), 0, 0);
  }

  lemma SecondSending()
    ensures Follows(RestHeld(), DeliverOne(1, Succeeds), HALF, SecondSent())
  {
    hide Follows;
    DeliveryStartsCycle(RestHeld(), 1, HALF);
  }

  lemma ClaimsTheOnlyTimer(db: DB, k: nat, now: Time)
    requires FreshIds(db) && k in db.actions && db.actions[k].status.Waiting? && db.actions[k].dueAt <= now
    requires forall j :: j in db.actions && j != k ==> !db.actions[j].status.Waiting?
    ensures Apply(db, ClaimDueTimers(50), now) == HoldTimer(db, k, now)
  {
    var key := (db.actions[k].dueAt, k);
    assert DueTimers(db, now) == {key};
    SingletonSorted(key);
    assert ClaimTimers(db, [key], now).actions == HoldTimer(db, k, now).actions;
  }

  lemma CycleClaim()
    ensures Follows(FirstSent(), ClaimDueTimers(50), HALF, CycleClaimed())
  {
    hide Apply, HoldTimer;
    ClaimsTheOnlyTimer(FirstSent(), 0, HALF);
  }

  /** A follow-up whose dispatch fails before anything is staged goes back to waiting. */
  lemma EarlyFailure(db: DB, now: Time)
    requires FreshIds(db) && 0 in db.actions && FollowsUp(db.actions[0])
    ensures Follows(db, DispatchOne(0, "", Early), now, RequeueFirst(db, now))
  {
  }

  lemma CycleFails()
    ensures Follows(SecondSent(), DispatchOne(0, "", Early), HALF, CycleFailed())
  {
    hide Follows, RequeueFirst;
    EarlyFailure(SecondSent(), HALF);
  }

  lemma TwoCyclesWait()
    ensures WaitingFollowUps(CycleFailed(), Renotify, 0, 0) == {0, 1}
    ensures 2 in CycleFailed().outbox && CycleFailed().outbox[2].status.InProgress?
    ensures StartsRenotify(CycleFailed(), CycleFailed().outbox[2])
  {
  }

  lemma ThirdIsSentInVain()
    ensures 2 in CycleFailed().outbox && forall now :: Deliver(CycleFailed(), 2, Succeeds, now) == CycleFailed()
  {
    var db := CycleFailed();
    TwoCyclesWait();
    forall now ensures Deliver(db, 2, Succeeds, now) == db {
      assert WaitingFollowUps(PutRow(db, 2, MarkDelivered(db.outbox[2], now)), Renotify, 0, 0) == {0, 1};
    }
  }

  lemma FirstCycle() returns (dbs: seq<DB>, steps: seq<Timed>)
    ensures IsRun(dbs, steps) && |dbs| == 6 && |steps| == 5 && dbs[5] == FirstSent() && steps[4].at == 0
  {
    hide Follows, IsRun, AnnouncedOne, AnnouncedTwo, Announced, FirstHeld, FirstSent;
    AnnouncingSteps();
    FirstClaim();
    FirstSending();
    dbs, steps := Begin(Ward());
    dbs, steps := Then(dbs, steps, StageOne(0, Some(0), 0, OnFiring, "n"), 0, AnnouncedOne());
    dbs, steps := Then(dbs, steps, StageOne(0, Some(0), 1, OnFiring, "n"), 0, AnnouncedTwo());
    dbs, steps := Then(dbs, steps, StageOne(0, Some(0), 2, OnFiring, "n"), 0, Announced());
    dbs, steps := Then(dbs, steps, ClaimDueRows(1, 1), 0, FirstHeld());
    dbs, steps := Then(dbs, steps, DeliverOne(0, Succeeds), 0, FirstSent());
  }

  /**
   Two renotify timers wait for one alert and rule: the second delivery finds the first timer claimed and starts
   another, then the claimed one's dispatch fails. The third delivery is sent, but its lookup raises, so the row
   keeps its lease as if nothing had been sent.
   */
  lemma TwoRenotifyTimersKeepARowInProgress() returns (dbs: seq<DB>, steps: seq<Timed>)
    ensures IsRun(dbs, steps) && |dbs| == 10
    ensures |WaitingFollowUps(dbs[9], Renotify, 0, 0)| == 2
    ensures 2 in dbs[9].outbox && dbs[9].outbox[2].status.InProgress? && StartsRenotify(dbs[9], dbs[9].outbox[2])
    ensures forall now :: Deliver(dbs[9], 2, Succeeds, now) == dbs[9]
  {
    hide Follows, IsRun, FirstSent, CycleClaimed, RestHeld, SecondSent, CycleFailed, Deliver, StartsRenotify;
    CycleClaim();
    SecondClaim();
    SecondSending();
    CycleFails();
    TwoCyclesWait();
    ThirdIsSentInVain();
    dbs, steps := FirstCycle();
    dbs, steps := Then(dbs, steps, ClaimDueTimers(50), HALF, CycleClaimed());
    dbs, steps := Then(dbs, steps, ClaimDueRows(1, 20), HALF, RestHeld());
    dbs, steps := Then(dbs, steps, DeliverOne(1, Succeeds), HALF, SecondSent());
    dbs, steps := Then(dbs, steps, DispatchOne(0, "", Early), HALF, CycleFailed());
  }

  // Fourth run: the alert re-fires while its escalation is being dispatched.
  function Planned(db: DB, now: Time): DB {
    AddAction(db, FollowUpTimer(Escalation, 0, 0, now + HALF))
  }
  function EscalationClaimed(): DB { HoldTimer(Planned(Ward(), 0), 0, HALF) }
  function EscalationFailed(): DB { RequeueFirst(Planned(EscalationClaimed(), HALF), HALF) }

  lemma PlanningStep(db: DB, now: Time)
    requires FreshIds(db) && db.rules == Ward().rules && WaitingFollowUps(db, Escalation, 0, 0) == {}
    ensures Follows(db, PlanEscalation(0, 0), now, Planned(db, now))
  {
  }

  lemma EscalationSteps()
    ensures Follows(Ward(), PlanEscalation(0, 0), 0, Planned(Ward(), 0))
    ensures Follows(Planned(Ward(), 0), ClaimDueTimers(50), HALF, EscalationClaimed())
    ensures Follows(EscalationClaimed(), PlanEscalation(0, 0), HALF, Planned(EscalationClaimed(), HALF))
  {
    hide Apply;
    PlanningStep(Ward(), 0);
    ClaimsTheOnlyTimer(Planned(Ward(), 0), 0, HALF);
    PlanningStep(EscalationClaimed(), HALF);
  }

  lemma EscalationFails()
    ensures Follows(Planned(EscalationClaimed(), HALF), DispatchOne(0, "", Early), HALF, EscalationFailed())
    ensures WaitingFollowUps(EscalationFailed(), Escalation, 0, 0) == {0, 1}
  {
    hide Follows;
    EarlyFailure(Planned(EscalationClaimed(), HALF), HALF);
  }

  /** Two escalation timers wait for one alert and rule; planning the alert's next escalation raises. */
  lemma TwoEscalationsBlockPlanning() returns (dbs: seq<DB>, steps: seq<Timed>)
    ensures IsRun(dbs, steps) && |dbs| == 5
    ensures |WaitingFollowUps(dbs[4], Escalation, 0, 0)| == 2
    ensures forall dueAt :: !EnsureFollowUp(dbs[4], Escalation, 0, 0, dueAt).1
  {
    hide Follows, IsRun, EscalationClaimed, EscalationFailed, Planned, EnsureFollowUp;
    EscalationSteps();
    EscalationFails();
    dbs, steps := Begin(Ward());
    dbs, steps := Then(dbs, steps, PlanEscalation(0, 0), 0, Planned(Ward(), 0));
    dbs, steps := Then(dbs, steps, ClaimDueTimers(50), HALF, EscalationClaimed());
    dbs, steps := Then(dbs, steps, PlanEscalation(0, 0), HALF, Planned(EscalationClaimed(), HALF));
    dbs, steps := Then(dbs, steps, DispatchOne(0, "", Early), HALF, EscalationFailed());
    EnsureRaises(EscalationFailed(), Escalation, 0, 0);
  }

  /**
   A successful firing delivery leaves a renotify timer waiting whether or not the alert has been
   acknowledged meanwhile; dispatching that timer then stages nothing and cancels it.
   */
  lemma AcknowledgedAlertsGetATimerButNoNotification(db: DB, r: nat, now: Time, k: nat, note: Note, later: Time)
    requires Inv(db) && r in db.outbox && Usable(db, db.outbox[r].channel) && StartsRenotify(db, db.outbox[r])
    requires db.outbox[r].event.value in db.events && db.events[db.outbox[r].event.value].acknowledgedAt.Some?
    requires WaitingFollowUps(db, Renotify, db.outbox[r].event.value, db.outbox[r].rule.value) == {}
    requires k == db.nextAction
    ensures var after := Deliver(db, r, Succeeds, now);
            && k in after.actions && after.actions[k].status.Waiting?
            && IsFollowUp(after.actions[k], Renotify, db.outbox[r].event.value, db.outbox[r].rule.value)
            && FreshIds(after)
            && DispatchTimer(after, k, note, later, NoFault) == Settle(after, k, Cancelled, later)
  {
    var row := db.outbox[r];
    var delivered := PutRow(db, r, MarkDelivered(row, now));
    assert WaitingFollowUps(delivered, Renotify, row.event.value, row.rule.value) == {};
    var after := Deliver(db, r, Succeeds, now);
    NothingForClosedAlerts(after, k, note, later, NoFault);
    hide Inv, DispatchTimer;
  }
}
