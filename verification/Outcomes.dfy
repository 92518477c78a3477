/**
 What routing reports and records, and when it can fail: told by the rules and timers, not by how it went about
 it.
 */
module Outcomes {
  import opened Prelude
  import opened Model
  import opened Matching
  import opened Staging
  import opened Invariants
  import opened OneTimer
  import opened Routing
  import D = Dispatch

  // ---- routing raises only where a lookup meets two timers ----

  /** No channel has two flush timers waiting, and the event no two escalations of a rule. */
  ghost predicate NoDoubles(db: DB, id: nat) {
    && FreshIds(db)
    && (forall c :: OneWaiting(db, c))
    && (forall r :: OneFollowUp(db, Escalation, id, r))
  }

  lemma StageRowIsSafe(db: DB, id: nat, event: nat, rule: Option<nat>, d: nat, trigger: Trigger, note: Note, now: Time)
    requires NoDoubles(db, id) && d in db.channels
    ensures var (after, staged) := StageRow(db, event, rule, d, trigger, note, now);
            !staged.Failed? && NoDoubles(after, id)
  {
    hide StageRow, OneWaiting, OneFollowUp, WaitingFollowUps, FreshIds, NeedsParking, KeyTaken;
    var after := StageRow(db, event, rule, d, trigger, note, now).0;
    StageRowKeepsIds(db, event, rule, d, trigger, note, now);
    StagingFailsExactlyWhen(db, event, rule, d, trigger, note, now);
    assert |WaitingFlushes(db, d)| <= 1 by { OneMeans(db, d); }
    forall c ensures OneWaiting(after, c) { StageRowOneWaiting(db, event, rule, d, trigger, note, now, c); }
    forall r ensures OneFollowUp(after, Escalation, id, r) {
      StageRowLeavesFollowUps(db, event, rule, d, trigger, note, now, Escalation, id, r);
      SameFollowUps(db, after, id, r);
    }
  }

  lemma OneMeans(db: DB, c: nat)
    requires OneWaiting(db, c)
    ensures |WaitingFlushes(db, c)| <= 1
  {
  }

  lemma SameFollowUps(db: DB, after: DB, id: nat, r: nat)
    requires OneFollowUp(db, Escalation, id, r)
    requires WaitingFollowUps(after, Escalation, id, r) == WaitingFollowUps(db, Escalation, id, r)
    ensures OneFollowUp(after, Escalation, id, r)
  {
  }

  lemma {:induction false} StagePlanIsSafe(db: DB, id: nat, plan: Plan, trigger: Trigger, note: Note, now: Time)
    requires NoDoubles(db, id) && AllLive(db, plan)
    ensures var (after, created) := StagePlan(db, id, plan, trigger, note, now);
            created.Some? && NoDoubles(after, id)
  {
    hide StagePlan, StageRow, NoDoubles;
    StagePlanUnfolds(db, id, plan, trigger, note, now);
    if plan != [] {
      assert AllLive(db, plan[..|plan| - 1]);
      StagePlanIsSafe(db, id, plan[..|plan| - 1], trigger, note, now);
      var before := StagePlan(db, id, plan[..|plan| - 1], trigger, note, now).0;
      StageRowIsSafe(before, id, id, Some(plan[|plan| - 1].1), plan[|plan| - 1].0, trigger, note, now);
    }
  }

  lemma {:induction false} RouteSharesAreSafe(db: DB, listing: Listing, t: Transition, id: nat, shares: seq<Share>,
                                              note: Note, now: Time)
    requires NoDoubles(db, id)
    ensures var (after, sent) := RouteShares(db, listing, t, id, shares, note, now);
            sent.Some? && NoDoubles(after, id)
  {
    hide StagePlan, NoDoubles, PlanFor;
    if shares != [] {
      var front, last := shares[..|shares| - 1], shares[|shares| - 1];
      RouteSharesAreSafe(db, listing, t, id, front, note, now);
      var before := RouteShares(db, listing, t, id, front, note, now).0;
      StagePlanIsSafe(before, id, PlanFor(before, t, listing(last.target, true)), TriggerOf(t), note, now);
    }
  }

  lemma EnsureIsSafe(db: DB, id: nat, rule: nat, dueAt: Time)
    requires NoDoubles(db, id)
    ensures var (after, ok) := EnsureFollowUp(db, Escalation, id, rule, dueAt);
            ok && NoDoubles(after, id)
  {
    hide OneWaiting, WaitingFlushes;
    var after := EnsureFollowUp(db, Escalation, id, rule, dueAt).0;
    assert OneFollowUp(db, Escalation, id, rule);
    forall c ensures OneWaiting(after, c) {
      FollowUpLeavesFlushes(db, Escalation, id, rule, dueAt, c);
      SameFlushes(db, after, c);
    }
    forall r ensures OneFollowUp(after, Escalation, id, r) {
      EnsureKeepsOne(db, Escalation, id, rule, dueAt, Escalation, id, r);
    }
    hide OneFollowUp;
  }

  lemma SameFlushes(db: DB, after: DB, c: nat)
    requires OneWaiting(db, c) && WaitingFlushes(after, c) == WaitingFlushes(db, c)
    ensures OneWaiting(after, c)
  {
  }

  lemma {:induction false} PlanEscalationsIsSafe(db: DB, t: Transition, id: nat, rules: seq<nat>, now: Time)
    requires NoDoubles(db, id)
    ensures var (after, ok) := PlanEscalations(db, t, id, rules, now); ok && NoDoubles(after, id)
  {
    hide NoDoubles, EnsureFollowUp, Fits;
    if t.to.Firing? && rules != [] {
      var front, r := rules[..|rules| - 1], rules[|rules| - 1];
      PlanEscalationsIsSafe(db, t, id, front, now);
      var before := PlanEscalations(db, t, id, front, now).0;
      if r in db.rules && Escalates(db.rules[r]) {
        EnsureIsSafe(before, id, r, now + db.rules[r].escalationAfter.value * MINUTE);
      }
    }
  }

  lemma CancelIsSafe(db: DB, id: nat, now: Time)
    requires NoDoubles(db, id)
    ensures NoDoubles(D.CancelPending(db, id, now), id)
  {
    var after := D.CancelPending(db, id, now);
    forall c ensures OneWaiting(after, c) {
      assert OneWaiting(db, c);
      SubsetIsSmaller(WaitingFlushes(after, c), WaitingFlushes(db, c));
    }
    forall r ensures OneFollowUp(after, Escalation, id, r) {
      assert OneFollowUp(db, Escalation, id, r);
      SubsetIsSmaller(WaitingFollowUps(after, Escalation, id, r), WaitingFollowUps(db, Escalation, id, r));
    }
  }

  lemma MarkingIsSafe(db: DB, id: nat, rule: nat)
    requires NoDoubles(db, id) && id in db.events
    ensures NoDoubles(MarkSuppressed(db, id, rule), id)
  {
    var after := MarkSuppressed(db, id, rule);
    forall c ensures OneWaiting(after, c) {
      assert OneWaiting(db, c) && WaitingFlushes(after, c) == WaitingFlushes(db, c);
    }
    forall r ensures OneFollowUp(after, Escalation, id, r) {
      assert OneFollowUp(db, Escalation, id, r)
        && WaitingFollowUps(after, Escalation, id, r) == WaitingFollowUps(db, Escalation, id, r);
    }
  }

  lemma OwnPassIsSafe(db: DB, listing: Listing, t: Transition, id: nat, now: Time)
    requires NoDoubles(db, id) && id in db.events
    ensures var (after, ok) := OwnPass(db, listing, t, id, now); ok && NoDoubles(after, id)
  {
    hide NoDoubles, PlanEscalations, D.CancelPending, MarkSuppressed, Fits;
    CancelIsSafe(db, id, now);
    var cancelled := if t.to.Resolved? then D.CancelPending(db, id, now) else db;
    if t.event.team.Some? {
      var listed := listing(t.event.team.value, false);
      var suppressor := Suppressor(db, t, OfAction(db, listed, RuleAction.Suppress));
      assert cancelled.events == db.events by { CancelKeepsEvents(db, id, now); }
      if suppressor.Some? {
        MarkingIsSafe(cancelled, id, suppressor.value);
      } else {
        PlanEscalationsIsSafe(cancelled, t, id, OfAction(db, listed, RuleAction.Notify), now);
      }
    }
  }

  lemma CancelKeepsEvents(db: DB, id: nat, now: Time)
    ensures D.CancelPending(db, id, now).events == db.events
  {
  }

  /** As long as no two timers wait where a lookup tolerates one, routing does not raise. */
  lemma RoutingReturns(db: DB, listing: Listing, t: Transition, id: nat, shares: seq<Share>, note: Note, now: Time)
    requires NoDoubles(db, id) && id in db.events
    ensures Route(db, listing, t, id, shares, note, now).1.Some?
  {
    hide NoDoubles, OwnPass, StagePlan, RouteShares, PlanFor, Suppressor, OutcomeOf;
    OwnPassIsSafe(db, listing, t, id, now);
    if t.event.team.Some? {
      var passed := OwnPass(db, listing, t, id, now).0;
      var plan := PlanFor(db, t, listing(t.event.team.value, false));
      StagePlanIsSafe(passed, id, plan, TriggerOf(t), note, now);
      var own := StagePlan(passed, id, plan, TriggerOf(t), note, now).0;
      RouteSharesAreSafe(own, listing, t, id, MatchingShares(t, shares, t.event.team.value), note, now);
    }
  }

  // ---- what is reported and recorded ----

  /** The report says what the owner's rules make of the event. */
  ghost predicate Reports(db: DB, t: Transition, o: RoutingOutcome) {
    match t.event.team
    case None => o == RoutingOutcome(false, Some(UnassignedTeam), None, 0, 0)
    case Some(team) =>
      if Silenced(db, t, team, false) then
        && !o.routed && o.reason == Some(Suppressed) && o.channelsNotified == 0
        && o.suppressedBy.Some? && o.suppressedBy.value in db.rules
        && db.rules[o.suppressedBy.value].action == RuleAction.Suppress
        && Answers(t, db.rules[o.suppressedBy.value], team, false)
      else
        && o.suppressedBy == None && (o.routed <==> o.channelsNotified > 0)
        && (o.reason == Some(NoMatch) <==> forall c :: !Reaches(db, t, team, false, c))
        && (o.reason == None || o.reason == Some(NoMatch))
  }

  /** The event itself is changed only to record the rule that suppressed it. */
  ghost predicate Records(db: DB, after: DB, id: nat, o: RoutingOutcome) {
    id in db.events
    && after.events == if o.reason == Some(Suppressed)
                       then db.events[id := db.events[id].(suppressedBy := o.suppressedBy)] else db.events
  }

  lemma OwnPassRecords(db: DB, listing: Listing, t: Transition, id: nat, now: Time)
    requires id in db.events
    ensures var after := OwnPass(db, listing, t, id, now).0;
            after.events
            == if t.event.team.Some?
                  && Suppressor(db, t, OfAction(db, listing(t.event.team.value, false), RuleAction.Suppress)).Some?
               then db.events[id := db.events[id].(suppressedBy :=
                      Suppressor(db, t, OfAction(db, listing(t.event.team.value, false), RuleAction.Suppress)))]
               else db.events
  {
    hide Fits, PlanEscalations;
  }

  lemma SuppressorIs(db: DB, listing: Listing, t: Transition, team: nat)
    requires Lists(db, listing)
    ensures var found := Suppressor(db, t, OfAction(db, listing(team, false), RuleAction.Suppress));
            && (found.Some? <==> Silenced(db, t, team, false))
            && (found.Some? ==> found.value in db.rules && db.rules[found.value].action == RuleAction.Suppress
                                && Answers(t, db.rules[found.value], team, false))
  {
    hide Fits, Answers;
    forall r ensures r in db.rules ==>
      (Answers(t, db.rules[r], team, false) <==> Eligible(db, r, team, false) && Fits(t, db.rules[r])) {
      AnswersExactlyWhen(db, t, r, team, false);
    }
  }

  lemma PlanIsEmpty(db: DB, listing: Listing, t: Transition, team: nat)
    requires Lists(db, listing)
    ensures PlanFor(db, t, listing(team, false)) == [] <==> forall c :: !Reaches(db, t, team, false, c)
  {
    hide PlanFor, Reaches;
    var plan := PlanFor(db, t, listing(team, false));
    forall c ensures Planned(plan, c) <==> Reaches(db, t, team, false, c) {
      PlanForMeaning(db, listing, t, team, false, c);
    }
    if plan != [] { assert Planned(plan, plan[0].0); }
  }

  lemma RoutingReports(db: DB, listing: Listing, t: Transition, id: nat, shares: seq<Share>, note: Note, now: Time)
    requires id in db.events && Lists(db, listing)
    ensures var (after, outcome) := Route(db, listing, t, id, shares, note, now);
            outcome.Some? ==> Reports(db, t, outcome.value) && Records(db, after, id, outcome.value)
  {
    hide OwnPass, StagePlan, RouteShares, PlanFor, Silenced, Reaches, Answers, Lists;
    OwnPassRecords(db, listing, t, id, now);
    if t.event.team.Some? {
      var team := t.event.team.value;
      SuppressorIs(db, listing, t, team);
      PlanIsEmpty(db, listing, t, team);
      if Silenced(db, t, team, false) {
        SilencedPlansNothing(db, listing, t, team);
        StagePlanOfNone(OwnPass(db, listing, t, id, now).0, id, TriggerOf(t), note, now);
      }
      if Route(db, listing, t, id, shares, note, now).1.Some? { OutcomeIs(db, listing, t, id, shares, note, now); }
      hide Suppressor, Route;
    }
  }

  lemma SilencedPlansNothing(db: DB, listing: Listing, t: Transition, team: nat)
    requires Suppressor(db, t, OfAction(db, listing(team, false), RuleAction.Suppress)).Some?
    ensures PlanFor(db, t, listing(team, false)) == []
  {
    hide Fits;
  }

  lemma StagePlanOfNone(db: DB, id: nat, trigger: Trigger, note: Note, now: Time)
    ensures StagePlan(db, id, [], trigger, note, now) == (db, Some(0))
  {
  }

  lemma OutcomeIs(db: DB, listing: Listing, t: Transition, id: nat, shares: seq<Share>, note: Note, now: Time)
    requires id in db.events && t.event.team.Some? && Route(db, listing, t, id, shares, note, now).1.Some?
    ensures var (after, outcome) := Route(db, listing, t, id, shares, note, now);
            var team := t.event.team.value;
            var plan := PlanFor(db, t, listing(team, false));
            var suppressor := Suppressor(db, t, OfAction(db, listing(team, false), RuleAction.Suppress));
            && after.events == OwnPass(db, listing, t, id, now).0.events
            && outcome.value.suppressedBy == suppressor
            && outcome.value.reason == (if suppressor.Some? then Some(Suppressed)
                                        else if plan == [] then Some(NoMatch) else None)
            && (suppressor.Some? ==> outcome.value.channelsNotified == 0 && !outcome.value.routed)
            && (suppressor.None? ==> (outcome.value.routed <==> outcome.value.channelsNotified > 0))
  {
    hide OwnPass, StagePlan, RouteShares, PlanFor, Suppressor;
  }
}
