/** routing.py: one event transition becomes outbox rows, escalation timers, or a recorded suppression. */
module Routing {
  import opened Prelude
  import opened Model
  import opened Matching
  import opened Staging
  import D = Dispatch
  import Invariants

  /** An AlertShare: `notifies` is its 'view_notify' mode. */
  datatype Share = Share(owner: nat, target: nat, notifies: bool, matchers: seq<StoredMatcher>)

  /** The enabled rules of a team, in whatever order the query returns them; the flag keeps only include_shared ones. */
  type Listing = (nat, bool) -> seq<nat>

  /** One transition: the pattern engine, the event, and what it just became. */
  datatype Transition = Transition(re: Compiler, event: AlertEvent, to: AlertStatus)

  datatype Reason = UnassignedTeam | Suppressed | NoMatch

  datatype RoutingOutcome = RoutingOutcome(
    routed: bool, reason: Option<Reason>, suppressedBy: Option<nat>, channelsNotified: nat, sharedChannelsNotified: nat)

  /** The channels to notify, each with the rule it is attributed to, in dictionary order. */
  type Plan = seq<(nat, nat)>

  predicate Eligible(db: DB, r: nat, team: nat, shared: bool) {
    r in db.rules && db.rules[r].team == team && db.rules[r].enabled && (shared ==> db.rules[r].includeShared)
  }

  ghost predicate Lists(db: DB, listing: Listing) {
    forall team, shared, r :: r in listing(team, shared) <==> Eligible(db, r, team, shared)
  }

  predicate Fits(t: Transition, rule: RoutingRule) {
    Evaluate(t.re, t.event, rule, t.to).kind.Matched?
  }

  function TriggerOf(t: Transition): Trigger {
    if t.to.Firing? then OnFiring else OnResolved
  }

  function OfAction(db: DB, rules: seq<nat>, action: RuleAction): (r: seq<nat>)
    ensures forall x :: x in r <==> x in rules && x in db.rules && db.rules[x].action == action
  {
    if rules == [] then []
    else
      (if rules[0] in db.rules && db.rules[rules[0]].action == action then [rules[0]] else [])
      + OfAction(db, rules[1..], action)
  }

  /** The first suppress rule that matches. */
  function Suppressor(db: DB, t: Transition, rules: seq<nat>): (r: Option<nat>)
    ensures r.Some? ==> r.value in rules && r.value in db.rules && Fits(t, db.rules[r.value])
    ensures r.None? ==> forall x :: x in rules && x in db.rules ==> !Fits(t, db.rules[x])
  {
    if rules == [] then None
    else if rules[0] in db.rules && Fits(t, db.rules[rules[0]]) then Some(rules[0])
    else Suppressor(db, t, rules[1..])
  }

  predicate Planned(plan: Plan, c: nat) {
    exists i :: 0 <= i < |plan| && plan[i].0 == c
  }

  /** One matching rule's channels: deleted ones are passed over, ones already planned keep their rule. */
  function PlanChannels(db: DB, plan: Plan, cs: seq<nat>, rule: nat): (r: Plan)
    ensures forall c :: Planned(r, c) <==> Planned(plan, c) || (c in cs && LiveChannel(db.channels, c))
    ensures plan <= r && forall i :: |plan| <= i < |r| ==> r[i].1 == rule && !Planned(plan, r[i].0)
  {
    if cs == [] then plan
    else
      var front, c := cs[..|cs| - 1], cs[|cs| - 1];
      assert cs == front + [c];
      var before := PlanChannels(db, plan, front, rule);
      if !LiveChannel(db.channels, c) || Planned(before, c) then before
      else
        var after := before + [(c, rule)];
        assert after[|before|] == (c, rule);
        assert forall i :: 0 <= i < |before| ==> after[i] == before[i];
        assert forall d :: Planned(after, d) <==> Planned(before, d) || d == c by {
          forall d | Planned(before, d) ensures Planned(after, d) {
            var i :| 0 <= i < |before| && before[i].0 == d;
            assert after[i].0 == d;
          }
        }
        after
  }

  /** _matched_notify_channels: every matching rule contributes. */
  function MatchedChannels(db: DB, t: Transition, rules: seq<nat>): Plan {
    if rules == [] then []
    else
      var front, r := rules[..|rules| - 1], rules[|rules| - 1];
      var before := MatchedChannels(db, t, front);
      if r in db.rules && Fits(t, db.rules[r]) then PlanChannels(db, before, db.rules[r].channels, r) else before
  }

  /** A rule that reaches a channel. */
  predicate Offers(db: DB, t: Transition, r: nat, c: nat) {
    r in db.rules && Fits(t, db.rules[r]) && c in db.rules[r].channels && LiveChannel(db.channels, c)
  }

  /** The plan is the union over all matching rules, and a channel goes to the first rule that offers it. */
  lemma {:induction false} PlanIsUnion(db: DB, t: Transition, rules: seq<nat>)
    ensures forall c :: Planned(MatchedChannels(db, t, rules), c) <==> exists r :: r in rules && Offers(db, t, r, c)
    ensures forall i :: 0 <= i < |MatchedChannels(db, t, rules)| ==>
                          FirstOffer(db, t, rules, MatchedChannels(db, t, rules)[i].1,
                                     MatchedChannels(db, t, rules)[i].0)
  {
    if rules != [] {
      var front, r := rules[..|rules| - 1], rules[|rules| - 1];
      assert rules == front + [r];
      PlanIsUnion(db, t, front);
      var before, after := MatchedChannels(db, t, front), MatchedChannels(db, t, rules);
      forall c ensures Planned(after, c) <==> exists x :: x in rules && Offers(db, t, x, c) {
        assert (exists x :: x in rules && Offers(db, t, x, c))
          <==> (exists x :: x in front && Offers(db, t, x, c)) || Offers(db, t, r, c);
      }
      forall i | 0 <= i < |after| ensures FirstOffer(db, t, rules, after[i].1, after[i].0) {
        if i < |before| {
          assert after[i] == before[i];
          FirstOfferExtends(db, t, front, r, after[i].1, after[i].0);
        } else {
          assert Planned(after, after[i].0);
          forall j | 0 <= j < |front| ensures !Offers(db, t, front[j], after[i].0) {
            assert front[j] in front;
          }
          assert rules[|front|] == r;
        }
      }
      hide Fits;
    }
  }

  ghost predicate FirstOffer(db: DB, t: Transition, rules: seq<nat>, r: nat, c: nat) {
    exists k :: 0 <= k < |rules| && rules[k] == r && Offers(db, t, r, c) && forall j :: 0 <= j < k ==>
        !Offers(db, t, rules[j], c)
  }

  lemma FirstOfferExtends(db: DB, t: Transition, front: seq<nat>, last: nat, r: nat, c: nat)
    requires FirstOffer(db, t, front, r, c)
    ensures FirstOffer(db, t, front + [last], r, c)
  {
    hide Offers;
    var k :| 0 <= k < |front| && front[k] == r && Offers(db, t, r, c) && forall j :: 0 <= j < k ==>
        !Offers(db, t, front[j], c);
    assert (front + [last])[k] == r;
  }

  predicate Escalates(rule: RoutingRule) {
    rule.escalationEnabled && rule.escalationAfter.Some? && rule.escalationAfter.value != 0
  }

  /** _schedule_escalations: nothing on a resolved transition; false when a lookup raises. */
  function PlanEscalations(db: DB, t: Transition, id: nat, rules: seq<nat>, now: Time): (r: (DB, bool))
    ensures r.0 == db.(actions := r.0.actions, nextAction := r.0.nextAction)
  {
    if t.to.Resolved? || rules == [] then (db, true)
    else
      var (before, ok) := PlanEscalations(db, t, id, rules[..|rules| - 1], now);
      var r := rules[|rules| - 1];
      if !ok then (before, false)
      else if r !in db.rules || !Escalates(db.rules[r]) || !Fits(t, db.rules[r]) then (before, true)
      else EnsureFollowUp(before, Escalation, id, r, now + db.rules[r].escalationAfter.value * MINUTE)
  }

  predicate AllLive(db: DB, plan: Plan) {
    forall i :: 0 <= i < |plan| ==> LiveChannel(db.channels, plan[i].0)
  }

  /** _stage_outbox: how many rows went in, or nothing when staging raised. */
  function StagePlan(db: DB, id: nat, plan: Plan, trigger: Trigger, note: Note, now: Time): (r: (DB, Option<nat>))
    requires AllLive(db, plan)
    ensures r.0.channels == db.channels && r.0.rules == db.rules && r.0.events == db.events
  {
    if plan == [] then (db, Some(0))
    else
      var (before, created) := StagePlan(db, id, plan[..|plan| - 1], trigger, note, now);
      var (c, rule) := plan[|plan| - 1];
      assert LiveChannel(db.channels, plan[|plan| - 1].0);
      if created.None? then (before, None)
      else
        var (after, staged) := StageRow(before, id, Some(rule), c, trigger, note, now);
        (after, if staged.Failed? then None else Some(created.value + if staged.Inserted? then 1 else 0))
  }

  function PlanFor(db: DB, t: Transition, listed: seq<nat>): (plan: Plan)
    ensures AllLive(db, plan)
  {
    if Suppressor(db, t, OfAction(db, listed, RuleAction.Suppress)).Some? then []
    else
      var notifiers := OfAction(db, listed, RuleAction.Notify);
      PlanIsUnion(db, t, notifiers);
      var plan := MatchedChannels(db, t, notifiers);
      assert forall i :: 0 <= i < |plan| ==> Planned(plan, plan[i].0);
      plan
  }

  /** route_event's fan-out: each matching share's target decides for itself. */
  function RouteShares(db: DB, listing: Listing, t: Transition, id: nat, shares: seq<Share>, note: Note, now: Time)
    : (r: (DB, Option<nat>))
    ensures r.0.channels == db.channels && r.0.rules == db.rules && r.0.events == db.events
  {
    if shares == [] then (db, Some(0))
    else
      var (before, sent) := RouteShares(db, listing, t, id, shares[..|shares| - 1], note, now);
      if sent.None? then (before, None)
      else
        var plan := PlanFor(before, t, listing(shares[|shares| - 1].target, true));
        var (after, created) := StagePlan(before, id, plan, TriggerOf(t), note, now);
        (after, if created.None? then None else Some(sent.value + created.value))
  }

  predicate Opens(t: Transition, s: Share, team: nat) {
    s.owner == team && s.notifies && ShareMatches(t.re, s.matchers, t.event)
  }

  function MatchingShares(t: Transition, shares: seq<Share>, team: nat): (r: seq<Share>)
    ensures forall s :: s in r <==> s in shares && Opens(t, s, team)
  {
    if shares == [] then []
    else (if Opens(t, shares[0], team) then [shares[0]] else []) + MatchingShares(t, shares[1..], team)
  }

  function MarkSuppressed(db: DB, id: nat, rule: nat): DB
    requires id in db.events
  {
    db.(events := db.events[id := db.events[id].(suppressedBy := Some(rule))])
  }

  function OutcomeOf(suppressor: Option<nat>, planned: bool, created: nat, shared: nat): RoutingOutcome {
    if suppressor.Some? then RoutingOutcome(false, Some(Suppressed), suppressor, 0, shared)
    else if !planned then RoutingOutcome(false, Some(NoMatch), None, 0, shared)
    else RoutingOutcome(created > 0, None, None, created, shared)
  }

  /** What the owning team's own pass leaves before any row is staged: cancelled timers, a suppression, new timers. */
  function OwnPass(db: DB, listing: Listing, t: Transition, id: nat, now: Time): (r: (DB, bool))
    requires id in db.events
    ensures r.0.channels == db.channels && r.0.rules == db.rules && r.0.outbox == db.outbox && r.0.nextRow == db.nextRow
  {
    var cancelled := if t.to.Resolved? then D.CancelPending(db, id, now) else db;
    if t.event.team.None? then (cancelled, true)
    else
      var listed := listing(t.event.team.value, false);
      var suppressor := Suppressor(db, t, OfAction(db, listed, RuleAction.Suppress));
      if suppressor.Some? then (MarkSuppressed(cancelled, id, suppressor.value), true)
      else PlanEscalations(cancelled, t, id, OfAction(db, listed, RuleAction.Notify), now)
  }

  /** route_event; no outcome means that it raised. */
  function Route(db: DB, listing: Listing, t: Transition, id: nat, shares: seq<Share>, note: Note, now: Time)
    : (DB, Option<RoutingOutcome>)
    requires id in db.events
  {
    var (passed, ok) := OwnPass(db, listing, t, id, now);
    if t.event.team.None? then (passed, Some(RoutingOutcome(false, Some(UnassignedTeam), None, 0, 0)))
    else if !ok then (passed, None)
    else
      var team := t.event.team.value;
      var listed := listing(team, false);
      var plan := PlanFor(db, t, listed);
      var (own, created) := StagePlan(passed, id, plan, TriggerOf(t), note, now);
      if created.None? then (own, None)
      else
        var (after, shared) := RouteShares(own, listing, t, id, MatchingShares(t, shares, team), note, now);
        if shared.None? then (after, None)
        else
          var suppressor := Suppressor(db, t, OfAction(db, listed, RuleAction.Suppress));
          (after, Some(OutcomeOf(suppressor, plan != [], created.value, shared.value)))
  }

  // ---- the declarative reading ----

  /** An enabled rule of the team, shared if it must be, that matches the alert. */
  predicate Answers(t: Transition, rule: RoutingRule, team: nat, shared: bool) {
    rule.team == team && rule.enabled && (shared ==> rule.includeShared)
    && Evaluate(t.re, t.event, rule, t.to) == Verdict(Matched, None)
  }

  ghost predicate Silenced(db: DB, t: Transition, team: nat, shared: bool) {
    exists r :: r in db.rules && db.rules[r].action == RuleAction.Suppress && Answers(t, db.rules[r], team, shared)
  }

  /**
   Some enabled notify rule of the team that matches lists the channel, and no enabled suppress rule of it
   matches.
   */
  ghost predicate Reaches(db: DB, t: Transition, team: nat, shared: bool, c: nat) {
    && !Silenced(db, t, team, shared)
    && c in db.channels && !db.channels[c].deleted
    && exists r :: r in db.rules && db.rules[r].action == RuleAction.Notify && Answers(t, db.rules[r], team, shared)
                   && c in db.rules[r].channels
  }

  /** The share lets the other team in on the event: it is the owner's, it notifies, and its whole scope admits it. */
  ghost predicate LetsIn(t: Transition, s: Share, team: nat) {
    s.owner == team && s.notifies && forall m :: m in s.matchers ==> Admits(t.re, m, t.event)
  }

  lemma OpensExactlyWhen(t: Transition, s: Share, team: nat)
    ensures Opens(t, s, team) <==> LetsIn(t, s, team)
  {
    hide ShareMatches, Admits;
    ShareMeaning(t.re, s.matchers, t.event);
  }

  /** The owning team reaches the channel, or a team it shares the event with does. */
  ghost predicate Notified(db: DB, t: Transition, shares: seq<Share>, c: nat) {
    && t.event.team.Some?
    && (|| Reaches(db, t, t.event.team.value, false, c)
        || exists s :: s in shares && LetsIn(t, s, t.event.team.value) && Reaches(db, t, s.target, true, c))
  }

  lemma FitsExactlyWhen(t: Transition, rule: RoutingRule)
    ensures Fits(t, rule) <==> Evaluate(t.re, t.event, rule, t.to) == Verdict(Matched, None)
  {
    hide Evaluate, PassesFilters, Unblocked, LowestBlocker;
    VerdictMeaning(t.re, t.event, rule, t.to);
  }

  lemma AnswersExactlyWhen(db: DB, t: Transition, r: nat, team: nat, shared: bool)
    ensures r in db.rules ==> (Answers(t, db.rules[r], team, shared)
                               <==> Eligible(db, r, team, shared) && Fits(t, db.rules[r]))
  {
    hide Fits, Evaluate;
    if r in db.rules { FitsExactlyWhen(t, db.rules[r]); }
  }

  lemma PlanForMeaning(db: DB, listing: Listing, t: Transition, team: nat, shared: bool, c: nat)
    requires Lists(db, listing)
    ensures Planned(PlanFor(db, t, listing(team, shared)), c) <==> Reaches(db, t, team, shared, c)
  {
    hide Fits, MatchedChannels, Answers;
    var listed := listing(team, shared);
    var notifiers := OfAction(db, listed, RuleAction.Notify);
    PlanIsUnion(db, t, notifiers);
    forall r ensures r in db.rules ==>
      (Answers(t, db.rules[r], team, shared) <==> Eligible(db, r, team, shared) && Fits(t, db.rules[r])) {
      AnswersExactlyWhen(db, t, r, team, shared);
    }
    assert Silenced(db, t, team, shared) <==> Suppressor(db, t, OfAction(db, listed, RuleAction.Suppress)).Some?;
  }

  function PlanKeys(id: nat, plan: Plan, trigger: Trigger): set<(nat, nat, Trigger)> {
    set i | 0 <= i < |plan| :: (id, plan[i].0, trigger)
  }

  lemma StageRowCounts(db: DB, id: nat, rule: nat, c: nat, trigger: Trigger, note: Note, now: Time)
    requires FreshIds(db) && c in db.channels
    ensures var (after, staged) := StageRow(db, id, Some(rule), c, trigger, note, now);
            && FreshIds(after)
            && Keys(after) == Keys(db) + {(id, c, trigger)}
            && (!staged.Failed? ==> |Keys(after)| == |Keys(db)| + if staged.Inserted? then 1 else 0)
  {
    hide NeedsParking, EnsureFlush, Keys, FreshIds, KeyTaken, AddRow;
    StageRowKeepsIds(db, id, Some(rule), c, trigger, note, now);
    KeysAre(db, id, c, trigger);
    if (id, c, trigger) in Keys(db) { assert Keys(db) + {(id, c, trigger)} == Keys(db); }
  }

  lemma PlanKeysSnoc(id: nat, plan: Plan, trigger: Trigger)
    requires plan != []
    ensures PlanKeys(id, plan, trigger) == PlanKeys(id, plan[..|plan| - 1], trigger)
            + {(id, plan[|plan| - 1].0, trigger)}
  {
    var all, front, last := PlanKeys(id, plan, trigger), PlanKeys(id, plan[..|plan| - 1], trigger),
      (id, plan[|plan| - 1].0, trigger);
    forall key ensures key in all <==> key in front + {last} {
      if key in front {
        var i :| 0 <= i < |plan| - 1 && key == (id, plan[..|plan| - 1][i].0, trigger);
        assert key == (id, plan[i].0, trigger);
      }
      if key in all && key != last {
        var i :| 0 <= i < |plan| && key == (id, plan[i].0, trigger);
        assert key == (id, plan[..|plan| - 1][i].0, trigger);
      }
    }
  }

  lemma StagePlanUnfolds(db: DB, id: nat, plan: Plan, trigger: Trigger, note: Note, now: Time)
    requires AllLive(db, plan)
    ensures plan == [] ==> StagePlan(db, id, plan, trigger, note, now) == (db, Some(0))
    ensures plan != [] ==>
              var (before, created) := StagePlan(db, id, plan[..|plan| - 1], trigger, note, now);
              var (c, rule) := plan[|plan| - 1];
              && c in before.channels
              && var (after, staged) := StageRow(before, id, Some(rule), c, trigger, note, now);
                 StagePlan(db, id, plan, trigger, note, now)
                 == if created.None? then (before, None)
                    else (after, if staged.Failed? then None
                          else Some(created.value + if staged.Inserted? then 1 else 0))
  {
    hide StageRow;
    assert plan != [] ==> LiveChannel(db.channels, plan[|plan| - 1].0);
  }

  /** What has been staged so far: the plan's keys, and as many new ones as were counted. */
  ghost predicate StagedSoFar(db: DB, after: DB, id: nat, plan: Plan, trigger: Trigger, created: Option<nat>) {
    && FreshIds(after)
    && (created.Some? ==> Keys(after) == Keys(db) + PlanKeys(id, plan, trigger)
                          && |Keys(after)| == |Keys(db)| + created.value)
  }

  lemma StagesOneMore(db: DB, before: DB, id: nat, plan: Plan, trigger: Trigger, created: nat, note: Note, now: Time)
    requires plan != [] && plan[|plan| - 1].0 in before.channels
    requires StagedSoFar(db, before, id, plan[..|plan| - 1], trigger, Some(created))
    ensures var (after, staged) := StageRow(before, id, Some(plan[|plan| - 1].1), plan[|plan| - 1].0, trigger, note,
                                            now);
            StagedSoFar(db, after, id, plan, trigger, if staged.Failed? then None
                        else Some(created + if staged.Inserted? then 1 else 0))
  {
    hide StageRow, Keys, FreshIds, PlanKeys, NeedsParking, KeyTaken, EnsureFlush;
    StageRowCounts(before, id, plan[|plan| - 1].1, plan[|plan| - 1].0, trigger, note, now);
    PlanKeysSnoc(id, plan, trigger);
  }

  /** The rows staged for a plan are exactly its channels' keys, and the count is the number of new ones. */
  lemma {:induction false} StagePlanAddsKeys(db: DB, id: nat, plan: Plan, trigger: Trigger, note: Note, now: Time)
    requires FreshIds(db) && AllLive(db, plan)
    ensures var (after, created) := StagePlan(db, id, plan, trigger, note, now);
            StagedSoFar(db, after, id, plan, trigger, created)
  {
    hide StagePlan;
    StagePlanUnfolds(db, id, plan, trigger, note, now);
    if plan == [] {
      assert PlanKeys(id, plan, trigger) == {};
    } else {
      var front := plan[..|plan| - 1];
      assert AllLive(db, front);
      StagePlanAddsKeys(db, id, front, trigger, note, now);
      var (before, created) := StagePlan(db, id, front, trigger, note, now);
      hide StageRow, StagedSoFar;
      if created.Some? {
        StagesOneMore(db, before, id, plan, trigger, created.value, note, now);
      } else {
        NothingToCount(db, before, id, front, plan, trigger);
      }
    }
  }

  lemma NothingToCount(db: DB, after: DB, id: nat, front: Plan, plan: Plan, trigger: Trigger)
    requires StagedSoFar(db, after, id, front, trigger, None)
    ensures StagedSoFar(db, after, id, plan, trigger, None)
  {
  }

  lemma KeysOfPlan(id: nat, plan: Plan, trigger: Trigger, key: (nat, nat, Trigger))
    ensures key in PlanKeys(id, plan, trigger) <==> key.0 == id && key.2 == trigger && Planned(plan, key.1)
  {
    if key.0 == id && key.2 == trigger && Planned(plan, key.1) {
      var i :| 0 <= i < |plan| && plan[i].0 == key.1;
      assert key == (id, plan[i].0, trigger);
    }
  }

  /** Routing reads nothing but rules and channels, so staging in between changes no decision. */
  lemma {:induction false} ChannelsFrame(a: DB, b: DB, t: Transition, rules: seq<nat>)
    requires a.rules == b.rules && a.channels == b.channels
    ensures MatchedChannels(a, t, rules) == MatchedChannels(b, t, rules)
  {
    if rules != [] {
      var front, r := rules[..|rules| - 1], rules[|rules| - 1];
      ChannelsFrame(a, b, t, front);
      if r in a.rules { PlanChannelsFrame(a, b, MatchedChannels(a, t, front), a.rules[r].channels, r); }
      hide Fits;
    }
  }

  lemma {:induction false} PlanChannelsFrame(a: DB, b: DB, plan: Plan, cs: seq<nat>, rule: nat)
    requires a.channels == b.channels
    ensures PlanChannels(a, plan, cs, rule) == PlanChannels(b, plan, cs, rule)
  {
    if cs != [] { PlanChannelsFrame(a, b, plan, cs[..|cs| - 1], rule); }
  }

  lemma ReachesFrame(a: DB, b: DB, t: Transition, team: nat, shared: bool, c: nat)
    requires a.rules == b.rules && a.channels == b.channels
    ensures Reaches(a, t, team, shared, c) == Reaches(b, t, team, shared, c)
  {
    hide Fits;
  }

  ghost predicate ShareReaches(db: DB, t: Transition, shares: seq<Share>, c: nat) {
    exists s :: s in shares && Reaches(db, t, s.target, true, c)
  }

  lemma ShareReachesSnoc(db: DB, t: Transition, front: seq<Share>, last: Share, c: nat)
    ensures ShareReaches(db, t, front + [last], c)
            <==> ShareReaches(db, t, front, c) || Reaches(db, t, last.target, true, c)
  {
    hide Reaches;
    assert forall s :: s in front + [last] <==> s in front || s == last;
  }

  /** The keys the fan-out may add. */
  ghost predicate SharedKey(db: DB, t: Transition, id: nat, shares: seq<Share>, key: (nat, nat, Trigger)) {
    key.0 == id && key.2 == TriggerOf(t) && ShareReaches(db, t, shares, key.1)
  }

  lemma SharedKeySnoc(db: DB, before: DB, listing: Listing, t: Transition, id: nat, front: seq<Share>, last: Share,
                      key: (nat, nat, Trigger))
    requires Lists(db, listing) && before.rules == db.rules && before.channels == db.channels
    ensures SharedKey(db, t, id, front + [last], key)
            <==> SharedKey(db, t, id, front, key)
                 || key in PlanKeys(id, PlanFor(before, t, listing(last.target, true)), TriggerOf(t))
  {
    hide PlanFor, Planned, Reaches, ShareReaches, PlanKeys, TriggerOf;
    EligibleFrame(db, before, listing);
    KeysOfPlan(id, PlanFor(before, t, listing(last.target, true)), TriggerOf(t), key);
    PlanForMeaning(before, listing, t, last.target, true, key.1);
    ReachesFrame(db, before, t, last.target, true, key.1);
    ShareReachesSnoc(db, t, front, last, key.1);
  }

  /** The keys after the fan-out over some shares, and their number. */
  ghost predicate SharedSoFar(db: DB, after: DB, t: Transition, id: nat, shares: seq<Share>, sent: Option<nat>) {
    && FreshIds(after)
    && (sent.Some? ==>
          && (forall key :: key in Keys(after) <==> key in Keys(db) || SharedKey(db, t, id, shares, key))
          && |Keys(after)| == |Keys(db)| + sent.value)
  }

  lemma OneMoreShare(db: DB, before: DB, listing: Listing, t: Transition, id: nat, front: seq<Share>, last: Share,
                     sent: nat, note: Note, now: Time)
    requires Lists(db, listing) && before.rules == db.rules && before.channels == db.channels
    requires SharedSoFar(db, before, t, id, front, Some(sent))
    ensures var (after, created) :=
              StagePlan(before, id, PlanFor(before, t, listing(last.target, true)), TriggerOf(t), note, now);
            SharedSoFar(db, after, t, id, front + [last], if created.None? then None else Some(sent + created.value))
  {
    hide PlanFor, StagePlan, Keys, SharedKey, Lists, TriggerOf, FreshIds, PlanKeys;
    var plan := PlanFor(before, t, listing(last.target, true));
    StagePlanAddsKeys(before, id, plan, TriggerOf(t), note, now);
    forall key
      ensures SharedKey(db, t, id, front + [last], key)
              <==> SharedKey(db, t, id, front, key) || key in PlanKeys(id, plan, TriggerOf(t))
    {
      SharedKeySnoc(db, before, listing, t, id, front, last, key);
    }
  }

  lemma {:induction false} RouteSharesAddsKeys(db: DB, listing: Listing, t: Transition, id: nat, shares: seq<Share>,
                                               note: Note, now: Time)
    requires FreshIds(db) && Lists(db, listing)
    ensures var (after, sent) := RouteShares(db, listing, t, id, shares, note, now);
            FreshIds(after) && SharedSoFar(db, after, t, id, shares, sent)
  {
    hide RouteShares, PlanFor, StagePlan, SharedSoFar, Lists, FreshIds;
    if shares == [] {
      RouteNoShares(db, listing, t, id, note, now);
      NoShareYet(db, t, id);
    } else {
      var i := |shares| - 1;
      var front, last := shares[..i], shares[i];
      assert shares == front + [last] && shares[..i + 1] == shares;
      RouteSharesAddsKeys(db, listing, t, id, front, note, now);
      RouteSharesUnfolds(db, listing, t, id, shares, i, note, now);
      var (before, sent) := RouteShares(db, listing, t, id, front, note, now);
      if sent.Some? {
        OneMoreShare(db, before, listing, t, id, front, last, sent.value, note, now);
      } else {
        NothingShared(db, before, t, id, front, shares);
      }
    }
    var (after, sent) := RouteShares(db, listing, t, id, shares, note, now);
    SharedIsFresh(db, after, t, id, shares, sent);
  }

  lemma SharedIsFresh(db: DB, after: DB, t: Transition, id: nat, shares: seq<Share>, sent: Option<nat>)
    requires SharedSoFar(db, after, t, id, shares, sent)
    ensures FreshIds(after)
  {
  }

  lemma NoShareYet(db: DB, t: Transition, id: nat)
    requires FreshIds(db)
    ensures SharedSoFar(db, db, t, id, [], Some(0))
  {
    hide Reaches, Keys;
  }

  lemma NothingShared(db: DB, after: DB, t: Transition, id: nat, front: seq<Share>, shares: seq<Share>)
    requires SharedSoFar(db, after, t, id, front, None)
    ensures SharedSoFar(db, after, t, id, shares, None)
  {
  }

  lemma EligibleFrame(a: DB, b: DB, listing: Listing)
    requires Lists(a, listing) && a.rules == b.rules
    ensures Lists(b, listing)
  {
    forall team, shared, r ensures r in listing(team, shared) <==> Eligible(b, r, team, shared) {
      assert Eligible(a, r, team, shared) == Eligible(b, r, team, shared);
    }
  }

  lemma OwnPassKeeps(db: DB, listing: Listing, t: Transition, id: nat, now: Time)
    requires id in db.events && FreshIds(db)
    ensures var passed := OwnPass(db, listing, t, id, now).0;
            FreshIds(passed) && Keys(passed) == Keys(db)
  {
    hide Fits, PlanEscalations;
    var cancelled := if t.to.Resolved? then D.CancelPending(db, id, now) else db;
    if t.event.team.Some? {
      PlanEscalationsKeepsIds(cancelled, t, id, OfAction(db, listing(t.event.team.value, false), RuleAction.Notify),
                              now);
    }
  }

  lemma {:induction false} PlanEscalationsKeepsIds(db: DB, t: Transition, id: nat, rules: seq<nat>, now: Time)
    requires FreshIds(db)
    ensures FreshIds(PlanEscalations(db, t, id, rules, now).0)
  {
    if rules != [] {
      PlanEscalationsKeepsIds(db, t, id, rules[..|rules| - 1], now);
      hide Fits;
    }
  }

  /**
   Routing stages rows for exactly the declared channels: those the owning team reaches unless one of its own
   suppress rules matches, and those each notified team reaches; the order of rules and shares plays no part.
   The two counts it reports add up to the keys it added.
   */
  lemma RoutingMeetsSpec(db: DB, listing: Listing, t: Transition, id: nat, shares: seq<Share>, note: Note, now: Time)
    requires id in db.events && FreshIds(db) && Lists(db, listing)
    ensures var (after, outcome) := Route(db, listing, t, id, shares, note, now);
            outcome.Some? ==>
              && (forall key :: key in Keys(after) <==>
                    key in Keys(db) || (key.0 == id && key.2 == TriggerOf(t) && Notified(db, t, shares, key.1)))
              && |Keys(after)| == |Keys(db)| + outcome.value.channelsNotified + outcome.value.sharedChannelsNotified
  {
    hide PlanFor, StagePlan, RouteShares, OwnPass, Keys, Notified, Lists, OutcomeOf, PlanKeys, TriggerOf, FreshIds,
      Reaches, ShareReaches, MatchingShares, Planned;
    UnassignedIsNobodys(db, t, shares);
    var (passed, ok) := OwnPass(db, listing, t, id, now);
    OwnPassKeeps(db, listing, t, id, now);
    var (after, outcome) := Route(db, listing, t, id, shares, note, now);
    if t.event.team.Some? && outcome.Some? {
      var team := t.event.team.value;
      var plan := PlanFor(db, t, listing(team, false));
      StagePlanAddsKeys(passed, id, plan, TriggerOf(t), note, now);
      var (own, created) := StagePlan(passed, id, plan, TriggerOf(t), note, now);
      EligibleFrame(db, own, listing);
      var open := MatchingShares(t, shares, team);
      RouteSharesAddsKeys(own, listing, t, id, open, note, now);
      OutcomeCounts(db, listing, t, id, shares, note, now);
      forall key ensures key in PlanKeys(id, plan, TriggerOf(t)) || SharedKey(own, t, id, open, key)
                         <==> key.0 == id && key.2 == TriggerOf(t) && Notified(db, t, shares, key.1) {
        KeysOfPlan(id, plan, TriggerOf(t), key);
        PlanForMeaning(db, listing, t, team, false, key.1);
        SharesFrame(db, own, t, open, key.1);
        NotifiedIs(db, t, shares, team, key.1);
      }
    }
  }

  /** Whom the event is sent to, by way of the shares the fan-out picks. */
  lemma NotifiedIs(db: DB, t: Transition, shares: seq<Share>, team: nat, c: nat)
    requires t.event.team == Some(team)
    ensures Notified(db, t, shares, c)
            <==> Reaches(db, t, team, false, c) || ShareReaches(db, t, MatchingShares(t, shares, team), c)
  {
    hide Reaches, Opens, LetsIn;
    forall s ensures Opens(t, s, team) <==> LetsIn(t, s, team) { OpensExactlyWhen(t, s, team); }
  }

  lemma UnassignedIsNobodys(db: DB, t: Transition, shares: seq<Share>)
    ensures t.event.team.None? ==> forall c :: !Notified(db, t, shares, c)
  {
  }

  lemma SharesFrame(a: DB, b: DB, t: Transition, shares: seq<Share>, c: nat)
    requires a.rules == b.rules && a.channels == b.channels
    ensures ShareReaches(a, t, shares, c) == ShareReaches(b, t, shares, c)
  {
    hide Reaches;
    forall s: Share ensures Reaches(a, t, s.target, true, c) == Reaches(b, t, s.target, true, c) {
      ReachesFrame(a, b, t, s.target, true, c);
    }
  }

  /** A plan with no channels creates nothing, so the reported counts are the staged ones. */
  lemma OutcomeCounts(db: DB, listing: Listing, t: Transition, id: nat, shares: seq<Share>, note: Note, now: Time)
    requires id in db.events && t.event.team.Some? && OwnPass(db, listing, t, id, now).1
    ensures var team := t.event.team.value;
            var (own, created) := StagePlan(OwnPass(db, listing, t, id, now).0, id,
                                            PlanFor(db, t, listing(team, false)), TriggerOf(t), note, now);
            var shared := RouteShares(own, listing, t, id, MatchingShares(t, shares, team), note, now).1;
            created.Some? && shared.Some? ==>
              var outcome := Route(db, listing, t, id, shares, note, now).1;
              && outcome.Some? && outcome.value.channelsNotified == created.value
              && outcome.value.sharedChannelsNotified == shared.value
  {
    hide OwnPass, RouteShares, MatchedChannels, Fits;
  }

  // ---- timers ----

  /** A matching rule that asks for escalation after some minutes. */
  predicate DueFor(db: DB, t: Transition, r: nat) {
    r in db.rules && db.rules[r].escalationEnabled && db.rules[r].escalationAfter != None
    && db.rules[r].escalationAfter != Some(0) && Evaluate(t.re, t.event, db.rules[r], t.to) == Verdict(Matched, None)
  }

  lemma DueExactlyWhen(db: DB, t: Transition, r: nat)
    ensures DueFor(db, t, r) <==> r in db.rules && Escalates(db.rules[r]) && Fits(t, db.rules[r])
  {
    hide Fits, Evaluate;
    if r in db.rules { FitsExactlyWhen(t, db.rules[r]); }
  }

  lemma EnsureFollowUpTimers(db: DB, kind: ActionKind, id: nat, rule: nat, dueAt: Time, r: nat)
    requires FreshIds(db)
    ensures var (after, ok) := EnsureFollowUp(db, kind, id, rule, dueAt);
            && FreshIds(after) && after.rules == db.rules
            && WaitingFollowUps(after, kind, id, r)
               == WaitingFollowUps(db, kind, id, r)
                  + (if r == rule && WaitingFollowUps(db, kind, id, r) == {} then {db.nextAction} else {})
  {
    assert WaitingFollowUps(db, kind, id, rule) == {}
      ==> EnsureFollowUp(db, kind, id, rule, dueAt).0.actions[db.nextAction].event == Some(id);
  }

  lemma PlanEscalationsUnfolds(db: DB, t: Transition, id: nat, front: seq<nat>, last: nat, now: Time)
    requires t.to.Firing?
    ensures var (before, ok) := PlanEscalations(db, t, id, front, now);
            PlanEscalations(db, t, id, front + [last], now)
            == if ok && DueFor(db, t, last)
               then EnsureFollowUp(before, Escalation, id, last, now + db.rules[last].escalationAfter.value * MINUTE)
               else (before, ok)
  {
    hide EnsureFollowUp, Fits, Evaluate;
    DueExactlyWhen(db, t, last);
    assert (front + [last])[..|front|] == front;
  }

  /** How many waiting escalation timers rule `r` has after these rules were gone through. */
  ghost predicate TimerPlanned(db: DB, after: DB, t: Transition, id: nat, rules: seq<nat>, r: nat) {
    var had, has := WaitingFollowUps(db, Escalation, id, r), WaitingFollowUps(after, Escalation, id, r);
    |has| == if had == {} && r in rules && DueFor(db, t, r) then 1 else |had|
  }

  lemma TimerPlannedSkip(db: DB, before: DB, t: Transition, id: nat, front: seq<nat>, last: nat, r: nat)
    requires TimerPlanned(db, before, t, id, front, r) && !DueFor(db, t, last)
    ensures TimerPlanned(db, before, t, id, front + [last], r)
  {
    hide WaitingFollowUps, DueFor;
  }

  lemma TimerPlannedStep(db: DB, before: DB, t: Transition, id: nat, front: seq<nat>, last: nat, dueAt: Time, r: nat)
    requires FreshIds(before) && TimerPlanned(db, before, t, id, front, r) && DueFor(db, t, last)
    ensures TimerPlanned(db, EnsureFollowUp(before, Escalation, id, last, dueAt).0, t, id, front + [last], r)
  {
    hide WaitingFollowUps, DueFor, EnsureFollowUp, FreshIds;
    EnsureFollowUpTimers(before, Escalation, id, last, dueAt, r);
    var was := WaitingFollowUps(before, Escalation, id, r);
    assert was != {} ==> |was| != 0;
    assert was + {} == was;
  }

  /**
   After a firing transition each matching rule that escalates has a waiting timer, and only rules that had none
   gained one.
   */
  lemma {:induction false} EscalationsArePlanned(db: DB, t: Transition, id: nat, rules: seq<nat>, now: Time, r: nat)
    requires FreshIds(db) && t.to.Firing?
    ensures var (after, ok) := PlanEscalations(db, t, id, rules, now);
            FreshIds(after) && (ok ==> TimerPlanned(db, after, t, id, rules, r))
  {
    hide WaitingFollowUps, FreshIds, EnsureFollowUp, DueFor, TimerPlanned, PlanEscalations;
    if rules == [] {
      PlanEscalationsOfNone(db, t, id, now, r);
    } else {
      var front, last := rules[..|rules| - 1], rules[|rules| - 1];
      assert rules == front + [last];
      EscalationsArePlanned(db, t, id, front, now, r);
      PlanEscalationsUnfolds(db, t, id, front, last, now);
      var (before, ok) := PlanEscalations(db, t, id, front, now);
      if ok && DueFor(db, t, last) {
        DueForMeans(db, t, last);
        var dueAt := now + db.rules[last].escalationAfter.value * MINUTE;
        TimerPlannedStep(db, before, t, id, front, last, dueAt, r);
        EnsureFollowUpTimers(before, Escalation, id, last, dueAt, r);
      } else if ok {
        TimerPlannedSkip(db, before, t, id, front, last, r);
      }
    }
  }

  lemma PlanEscalationsOfNone(db: DB, t: Transition, id: nat, now: Time, r: nat)
    ensures PlanEscalations(db, t, id, [], now) == (db, true)
    ensures TimerPlanned(db, db, t, id, [], r)
  {
  }

  lemma DueForMeans(db: DB, t: Transition, r: nat)
    requires DueFor(db, t, r)
    ensures r in db.rules && db.rules[r].escalationAfter.Some?
  {
    hide Fits;
  }

  predicate NoneWaiting(db: DB, id: nat) {
    forall k :: k in db.actions && db.actions[k].event == Some(id) ==> !db.actions[k].status.Waiting?
  }

  lemma StageRowKeepsBoth(db: DB, id: nat, rule: nat, c: nat, trigger: Trigger, note: Note, now: Time)
    requires Invariants.Inv(db) && c in db.channels
    ensures var after := StageRow(db, id, Some(rule), c, trigger, note, now).0;
            Invariants.Inv(after) && (NoneWaiting(db, id) ==> NoneWaiting(after, id))
  {
    hide Invariants.Inv;
    Invariants.StageRowKeeps(db, id, Some(rule), c, trigger, note, now);
  }

  lemma {:induction false} StagePlanKeeps(db: DB, id: nat, plan: Plan, trigger: Trigger, note: Note, now: Time)
    requires Invariants.Inv(db) && AllLive(db, plan)
    ensures var after := StagePlan(db, id, plan, trigger, note, now).0;
            Invariants.Inv(after) && (NoneWaiting(db, id) ==> NoneWaiting(after, id))
  {
    hide Invariants.Inv, StagePlan, StageRow, NoneWaiting;
    StagePlanUnfolds(db, id, plan, trigger, note, now);
    if plan != [] {
      assert AllLive(db, plan[..|plan| - 1]);
      StagePlanKeeps(db, id, plan[..|plan| - 1], trigger, note, now);
      var (before, created) := StagePlan(db, id, plan[..|plan| - 1], trigger, note, now);
      StageRowKeepsBoth(before, id, plan[|plan| - 1].1, plan[|plan| - 1].0, trigger, note, now);
    }
  }

  lemma {:induction false} RouteSharesKeep(db: DB, listing: Listing, t: Transition, id: nat, shares: seq<Share>,
                                           note: Note, now: Time)
    requires Invariants.Inv(db)
    ensures var after := RouteShares(db, listing, t, id, shares, note, now).0;
            Invariants.Inv(after) && (NoneWaiting(db, id) ==> NoneWaiting(after, id))
  {
    hide Invariants.Inv, StagePlan, NoneWaiting, PlanFor;
    if shares != [] {
      RouteSharesKeep(db, listing, t, id, shares[..|shares| - 1], note, now);
      var before := RouteShares(db, listing, t, id, shares[..|shares| - 1], note, now).0;
      StagePlanKeeps(before, id, PlanFor(before, t, listing(shares[|shares| - 1].target, true)), TriggerOf(t), note,
                     now);
    }
  }

  lemma {:induction false} PlanEscalationsKeeps(db: DB, t: Transition, id: nat, rules: seq<nat>, now: Time)
    requires Invariants.Inv(db)
    ensures Invariants.Inv(PlanEscalations(db, t, id, rules, now).0)
  {
    hide Invariants.Inv, Fits, EnsureFollowUp, Evaluate;
    if t.to.Firing? && rules != [] {
      var front, r := rules[..|rules| - 1], rules[|rules| - 1];
      DueExactlyWhen(db, t, r);
      PlanEscalationsKeeps(db, t, id, front, now);
      var (before, ok) := PlanEscalations(db, t, id, front, now);
      if ok && DueFor(db, t, r) {
        Invariants.EnsureFollowUpKeeps(before, Escalation, id, r, now + db.rules[r].escalationAfter.value * MINUTE);
      }
    }
  }

  lemma MarkSuppressedKeeps(db: DB, id: nat, rule: nat)
    requires Invariants.Inv(db) && id in db.events
    ensures Invariants.Inv(MarkSuppressed(db, id, rule))
  {
    var after := MarkSuppressed(db, id, rule);
    assert FreshIds(after);
    Invariants.OutboxFrame(db, after);
    Invariants.StrandedFrame(db, after);
  }

  /** Routing keeps the queue's invariant, and once an event resolves none of its timers is left waiting. */
  lemma RoutingKeepsInv(db: DB, listing: Listing, t: Transition, id: nat, shares: seq<Share>, note: Note, now: Time)
    requires id in db.events && Invariants.Inv(db)
    ensures var (after, outcome) := Route(db, listing, t, id, shares, note, now);
            && Invariants.Inv(after)
            && (t.to.Resolved? ==> NoneWaiting(after, id))
  {
    var cancelled := if t.to.Resolved? then D.CancelPending(db, id, now) else db;
    Invariants.CancelPendingKeeps(db, id, now);
    assert t.to.Resolved? ==> NoneWaiting(cancelled, id);
    hide Invariants.Inv, StagePlan, NoneWaiting, PlanFor, RouteShares, PlanEscalations, D.CancelPending,
      MarkSuppressed, MatchingShares, OutcomeOf, Suppressor;
    if t.event.team.Some? {
      OwnPassKeepsInv(db, listing, t, id, now);
      var (passed, ok) := OwnPass(db, listing, t, id, now);
      var plan := PlanFor(db, t, listing(t.event.team.value, false));
      StagePlanKeeps(passed, id, plan, TriggerOf(t), note, now);
      var own := StagePlan(passed, id, plan, TriggerOf(t), note, now).0;
      RouteSharesKeep(own, listing, t, id, MatchingShares(t, shares, t.event.team.value), note, now);
    }
  }

  lemma OwnPassKeepsInv(db: DB, listing: Listing, t: Transition, id: nat, now: Time)
    requires id in db.events && Invariants.Inv(db)
    ensures var passed := OwnPass(db, listing, t, id, now).0;
            Invariants.Inv(passed) && (t.to.Resolved? ==> NoneWaiting(passed, id))
  {
    var cancelled := if t.to.Resolved? then D.CancelPending(db, id, now) else db;
    Invariants.CancelPendingKeeps(db, id, now);
    hide Invariants.Inv, Suppressor;
    if t.event.team.Some? {
      var listed := listing(t.event.team.value, false);
      PlanEscalationsKeeps(cancelled, t, id, OfAction(db, listed, RuleAction.Notify), now);
      var suppressor := Suppressor(db, t, OfAction(db, listed, RuleAction.Suppress));
      if suppressor.Some? { MarkSuppressedKeeps(cancelled, id, suppressor.value); }
    }
  }

  // ---- what the loops of the services need ----

  lemma NoEscalationsOnResolved(db: DB, t: Transition, id: nat, rules: seq<nat>, now: Time)
    requires t.to.Resolved?
    ensures PlanEscalations(db, t, id, rules, now) == (db, true)
  {
  }

  lemma {:induction false} PlanEscalationsStop(db: DB, t: Transition, id: nat, rules: seq<nat>, i: nat, now: Time)
    requires t.to.Firing? && i <= |rules| && !PlanEscalations(db, t, id, rules[..i], now).1
    ensures PlanEscalations(db, t, id, rules, now) == PlanEscalations(db, t, id, rules[..i], now)
  {
    hide PlanEscalations, Fits, EnsureFollowUp;
    if i == |rules| {
      assert rules[..i] == rules;
    } else {
      var front := rules[..|rules| - 1];
      assert front[..i] == rules[..i] && rules == front + [rules[|rules| - 1]];
      PlanEscalationsStop(db, t, id, front, i, now);
      PlanEscalationsUnfolds(db, t, id, front, rules[|rules| - 1], now);
    }
  }

  lemma {:induction false} StagePlanStops(db: DB, id: nat, plan: Plan, i: nat, trigger: Trigger, note: Note, now: Time)
    requires i <= |plan| && AllLive(db, plan) && AllLive(db, plan[..i])
    requires StagePlan(db, id, plan[..i], trigger, note, now).1.None?
    ensures StagePlan(db, id, plan, trigger, note, now) == StagePlan(db, id, plan[..i], trigger, note, now)
  {
    hide StagePlan, StageRow;
    if i == |plan| {
      assert plan[..i] == plan;
    } else {
      assert plan[..|plan| - 1][..i] == plan[..i];
      StagePlanStops(db, id, plan[..|plan| - 1], i, trigger, note, now);
      StagePlanUnfolds(db, id, plan, trigger, note, now);
    }
  }

  lemma RouteNoShares(db: DB, listing: Listing, t: Transition, id: nat, note: Note, now: Time)
    ensures RouteShares(db, listing, t, id, [], note, now) == (db, Some(0))
  {
  }

  lemma RouteNothing(db: DB, listing: Listing, t: Transition, id: nat, note: Note, now: Time)
    ensures RouteShares(db, listing, t, id, [], note, now) == (db, Some(0))
    ensures AllLive(db, []) && StagePlan(db, id, [], TriggerOf(t), note, now) == (db, Some(0))
  {
  }

  lemma StillLive(a: DB, b: DB, plan: Plan)
    requires AllLive(a, plan) && b.channels == a.channels
    ensures AllLive(b, plan)
  {
  }

  lemma RouteSharesUnfolds(db: DB, listing: Listing, t: Transition, id: nat, shares: seq<Share>, i: nat, note: Note,
                           now: Time)
    requires i < |shares|
    ensures var (before, sent) := RouteShares(db, listing, t, id, shares[..i], note, now);
            var plan := PlanFor(before, t, listing(shares[i].target, true));
            var (after, created) := StagePlan(before, id, plan, TriggerOf(t), note, now);
            RouteShares(db, listing, t, id, shares[..i + 1], note, now)
            == if sent.None? then (before, None)
               else (after, if created.None? then None else Some(sent.value + created.value))
  {
    hide StagePlan, PlanFor;
    assert shares[..i + 1][..i] == shares[..i];
  }

  lemma {:induction false} RouteSharesStop(db: DB, listing: Listing, t: Transition, id: nat, shares: seq<Share>,
                                           i: nat, note: Note, now: Time)
    requires i <= |shares| && RouteShares(db, listing, t, id, shares[..i], note, now).1.None?
    ensures RouteShares(db, listing, t, id, shares, note, now)
            == RouteShares(db, listing, t, id, shares[..i], note, now)
  {
    hide RouteShares, StagePlan, PlanFor;
    if i == |shares| {
      assert shares[..i] == shares;
    } else {
      var front := shares[..|shares| - 1];
      assert front[..i] == shares[..i] && front == shares[..|shares| - 1] && shares[..|shares| - 1 + 1] == shares;
      RouteSharesStop(db, listing, t, id, front, i, note, now);
      RouteSharesUnfolds(db, listing, t, id, shares, |shares| - 1, note, now);
    }
  }

  lemma {:induction false} SuppressorFrame(a: DB, b: DB, t: Transition, rules: seq<nat>)
    requires a.rules == b.rules
    ensures Suppressor(a, t, rules) == Suppressor(b, t, rules)
  {
    hide Fits;
    if rules != [] { SuppressorFrame(a, b, t, rules[1..]); }
  }

  lemma {:induction false} OfActionFrame(a: DB, b: DB, rules: seq<nat>, action: RuleAction)
    requires a.rules == b.rules
    ensures OfAction(a, rules, action) == OfAction(b, rules, action)
  {
    if rules != [] { OfActionFrame(a, b, rules[1..], action); }
  }

  /** Decisions read only rules and channels. */
  lemma DecisionsFrame(a: DB, b: DB, t: Transition, listed: seq<nat>)
    requires a.rules == b.rules && a.channels == b.channels
    ensures OfAction(a, listed, RuleAction.Suppress) == OfAction(b, listed, RuleAction.Suppress)
    ensures OfAction(a, listed, RuleAction.Notify) == OfAction(b, listed, RuleAction.Notify)
    ensures Suppressor(a, t, OfAction(a, listed, RuleAction.Suppress))
            == Suppressor(b, t, OfAction(b, listed, RuleAction.Suppress))
    ensures MatchedChannels(a, t, OfAction(a, listed, RuleAction.Notify))
            == MatchedChannels(b, t, OfAction(b, listed, RuleAction.Notify))
    ensures PlanFor(a, t, listed) == PlanFor(b, t, listed)
  {
    hide Suppressor, MatchedChannels, OfAction;
    OfActionFrame(a, b, listed, RuleAction.Suppress);
    OfActionFrame(a, b, listed, RuleAction.Notify);
    SuppressorFrame(a, b, t, OfAction(a, listed, RuleAction.Suppress));
    ChannelsFrame(a, b, t, OfAction(a, listed, RuleAction.Notify));
  }
}
