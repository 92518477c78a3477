/** alerts.py: acknowledging an alert, taking that back, and resolving a test alert by hand. */
module Alerts {
  import opened Prelude
  import opened Model
  import opened Staging
  import opened Matching
  import opened Dispatch
  import R = Routing
  import T = TimerSafety
  import I = Invariants
  import Runs

  function SetEvent(db: DB, e: nat, row: AlertEvent): DB {
    db.(events := db.events[e := row])
  }

  /** ack_alert: only the first acknowledgement counts. */
  function Ack(db: DB, e: nat, now: Time): DB
    requires e in db.events
  {
    if db.events[e].acknowledgedAt.Some? then db
    else CancelPending(SetEvent(db, e, db.events[e].(acknowledgedAt := Some(now))), e, now)
  }

  /** unack_alert: cancelled timers stay cancelled. */
  function Unack(db: DB, e: nat): DB
    requires e in db.events
  {
    if db.events[e].acknowledgedAt.None? then db else SetEvent(db, e, db.events[e].(acknowledgedAt := None))
  }

  datatype TestResolution = NotATest | AlreadyResolved | Routed(outcome: Option<R.RoutingOutcome>)

  function MarkResolved(db: DB, e: nat, now: Time): DB
    requires e in db.events
  {
    SetEvent(db, e, db.events[e].(status := Resolved, endsAt := Some(now)))
  }

  /** resolve_test_alert, up to its commit: the event is marked resolved, then routed as a delivered resolution is. */
  function ResolveTest(db: DB, listing: R.Listing, re: Compiler, e: nat, shares: seq<R.Share>, note: Note, now: Time)
    : (DB, TestResolution)
    requires e in db.events
  {
    if !db.events[e].isTest then (db, NotATest)
    else if db.events[e].status.Resolved? then (db, AlreadyResolved)
    else
      var resolved := MarkResolved(db, e, now);
      var (after, outcome) :=
        R.Route(resolved, listing, R.Transition(re, resolved.events[e], Resolved), e, shares, note, now);
      (after, Routed(outcome))
  }

  /**
   The first acknowledgement marks the alert with its time and cancels the alert's waiting timers, and that is
   all.
   */
  lemma FirstAckIs(db: DB, e: nat, now: Time)
    requires e in db.events && db.events[e].acknowledgedAt == None
    ensures var after := Ack(db, e, now);
            && after == db.(events := db.events[e := db.events[e].(acknowledgedAt := Some(now))],
                            actions := after.actions)
            && after.actions.Keys == db.actions.Keys
            && forall k :: k in db.actions ==>
                 after.actions[k]
                 == if db.actions[k].event == Some(e) && db.actions[k].status == ActionStatus.Waiting
                    then db.actions[k].(status := ActionStatus.Cancelled, processedAt := Some(now)) else db.actions[k]
  {
  }

  /** A second acknowledgement changes nothing, not even the time of the first. */
  lemma AckOnce(db: DB, e: nat, first: Time, second: Time)
    requires e in db.events
    ensures Ack(Ack(db, e, first), e, second) == Ack(db, e, first)
  {
  }

  /** Taking an acknowledgement back undoes it, except that the waiting timers it cancelled stay cancelled. */
  lemma UnackUndoesAllButTimers(db: DB, e: nat, now: Time)
    requires e in db.events && db.events[e].acknowledgedAt.None?
    ensures Unack(Ack(db, e, now), e) == CancelPending(db, e, now)
  {
    assert db.events[e := db.events[e].(acknowledgedAt := Some(now))][e := db.events[e]] == db.events;
  }

  /** Once acknowledged, an alert has no waiting timer, and dispatching one already in flight stages nothing. */
  lemma AcknowledgedIsQuiet(db: DB, e: nat, now: Time, k: nat, note: Note, later: Time, fault: Fault)
    requires FreshIds(db) && e in db.events && db.events[e].acknowledgedAt.None?
    requires k in db.actions && db.actions[k].event == Some(e)
             && (db.actions[k].kind.Escalation? || db.actions[k].kind.Renotify?)
    ensures var after := Ack(db, e, now);
            && R.NoneWaiting(after, e)
            && FreshIds(after) && k in after.actions
            && DispatchTimer(after, k, note, later, fault).outbox == db.outbox
  {
    hide DispatchTimer;
    var after := Ack(db, e, now);
    assert after.actions[k].event == Some(e) && after.actions[k].kind == db.actions[k].kind;
    T.NothingForClosedAlerts(after, k, note, later, fault);
  }

  /** Before it is routed, a test alert resolved by hand is exactly the alert, resolved and ended at that time. */
  lemma ResolvedTestIsMarked(db: DB, e: nat, now: Time)
    requires e in db.events
    ensures MarkResolved(db, e, now)
            == db.(events := db.events[e := db.events[e].(status := AlertStatus.Resolved, endsAt := Some(now))])
  {
  }

  /** When there is nothing to resolve: an ordinary alert is refused, and a resolved one left as it is. */
  lemma NothingToResolve(db: DB, listing: R.Listing, re: Compiler, e: nat, shares: seq<R.Share>, note: Note, now: Time)
    requires e in db.events
    ensures !db.events[e].isTest ==> ResolveTest(db, listing, re, e, shares, note, now) == (db, NotATest)
    ensures db.events[e].isTest && db.events[e].status == AlertStatus.Resolved
            ==> ResolveTest(db, listing, re, e, shares, note, now) == (db, AlreadyResolved)
  {
  }

  /** Resolving a test alert by hand leaves none of its timers waiting. */
  lemma ResolvedTestIsQuiet(db: DB, listing: R.Listing, re: Compiler, e: nat, shares: seq<R.Share>, note: Note,
                            now: Time)
    requires e in db.events && I.Inv(db) && db.events[e].isTest && db.events[e].status.Firing?
    ensures var after := ResolveTest(db, listing, re, e, shares, note, now).0;
            I.Inv(after) && R.NoneWaiting(after, e)
  {
    hide R.Route, I.Inv;
    var resolved := MarkResolved(db, e, now);
    Runs.ConfigurationKeeps(db, resolved);
    R.RoutingKeepsInv(resolved, listing, R.Transition(re, resolved.events[e], Resolved), e, shares, note, now);
  }
}
