/**
 The notification services as they run. Every method changes the tables in place, in the order the source
 does, and is proved to have exactly the effect its specification function describes.
 */
module Engine {
  import opened Prelude
  import opened Model
  import opened Matching
  import opened Staging
  import opened Dispatch
  import opened Delivery
  import opened Retention
  import opened Invariants
  import opened Purging
  import R = Routing
  import A = Alerts
  import Ticks
  import opened Effects
  import opened Runs

  /** How a dispatch handler ends. */
  datatype Signal = Finished | SkipSignal | ExceptionRaised

  // ---- what a loop has done after its first passes ----

  lemma ClaimOneMore(db: DB, keys: seq<Key>, i: nat, now: Time)
    requires Increasing(keys) && i < |keys|
    requires forall key :: key in keys ==> key in DueTimers(db, now)
    ensures var k := keys[i].1;
            && k >= 0 && k in db.actions
            && ClaimTimers(db, keys[..i], now).actions[k] == db.actions[k]
            && ClaimTimers(db, keys[..i + 1], now).actions
               == ClaimTimers(db, keys[..i], now).actions[k := db.actions[k].(status := Claimed, dueAt := now)]
  {
    assert keys[i] in keys;
    var k := keys[i].1;
    forall j | 0 <= j < i ensures keys[j].1 != k {
      assert keys[j] in keys && Before(keys[j], keys[i]);
    }
    assert keys[..i + 1] == keys[..i] + [keys[i]];
  }

  lemma LeaseOneMore(db: DB, keys: seq<Key>, i: nat, worker: nat, now: Time)
    requires Increasing(keys) && i < |keys|
    requires forall key :: key in keys ==> key in DueRows(db, now)
    ensures var r := keys[i].1;
            && r >= 0 && r in db.outbox
            && ClaimRows(db, keys[..i], worker, now).outbox[r] == db.outbox[r]
            && ClaimRows(db, keys[..i + 1], worker, now).outbox
               == ClaimRows(db, keys[..i], worker, now).outbox
                  [r := db.outbox[r].(status := InProgress, lockedBy := Some(worker), lockedAt := Some(now))]
  {
    assert keys[i] in keys;
    var r := keys[i].1;
    forall j | 0 <= j < i ensures keys[j].1 != r {
      assert keys[j] in keys && Before(keys[j], keys[i]);
    }
    assert keys[..i + 1] == keys[..i] + [keys[i]];
  }

  lemma LinkNone(outbox: map<nat, OutboxRow>, aggregate: nat)
    ensures LinkAll(outbox, [], aggregate) == outbox
  {
  }

  lemma LinkOneMore(outbox: map<nat, OutboxRow>, ids: seq<nat>, i: nat, aggregate: nat)
    requires i < |ids| && ids[i] in outbox && ids[i] !in ids[..i]
    ensures ids[i] in LinkAll(outbox, ids[..i], aggregate)
            && LinkAll(outbox, ids[..i], aggregate)[ids[i]] == outbox[ids[i]]
    ensures LinkAll(outbox, ids[..i + 1], aggregate)
            == LinkAll(outbox, ids[..i], aggregate)[ids[i] := outbox[ids[i]].(digestedInto := Some(aggregate))]
  {
    assert ids[..i + 1] == ids[..i] + [ids[i]];
  }

  lemma StagesNothing(db: DB, event: nat, rule: Option<nat>, trigger: Trigger, note: Note, now: Time)
    ensures StageAll(db, event, rule, [], trigger, note, now) == (db, true)
  {
  }

  lemma {:induction false} StageAllStops(db: DB, event: nat, rule: Option<nat>, cs: seq<nat>, i: nat,
                                         trigger: Trigger, note: Note, now: Time)
    requires i <= |cs| && forall c :: c in cs ==> c in db.channels
    requires !StageAll(db, event, rule, cs[..i], trigger, note, now).1
    ensures StageAll(db, event, rule, cs, trigger, note, now) == StageAll(db, event, rule, cs[..i], trigger, note, now)
  {
    hide StageRow;
    if i == |cs| {
      assert cs[..i] == cs;
    } else {
      assert cs[..|cs| - 1][..i] == cs[..i];
      StageAllStops(db, event, rule, cs[..|cs| - 1], i, trigger, note, now);
    }
  }

  class Store {
    var outbox: map<nat, OutboxRow>
    var actions: map<nat, ScheduledAction>
    var events: map<nat, AlertEvent>
    var channels: map<nat, Channel>
    var rules: map<nat, RoutingRule>
    var nextRow: nat
    var nextAction: nat

    constructor (events: map<nat, AlertEvent>, channels: map<nat, Channel>, rules: map<nat, RoutingRule>)
      ensures State() == DB(map[], map[], events, channels, rules, 0, 0) && Inv(State())
    {
      this.outbox, this.actions, this.events, this.channels, this.rules := map[], map[], events, channels, rules;
      this.nextRow, this.nextAction := 0, 0;
    }

    function State(): DB
      reads this
    {
      DB(outbox, actions, events, channels, rules, nextRow, nextAction)
    }

    // ---- staging ----

    method EnsureDigestFlushScheduled(c: nat, now: Time) returns (ok: bool)
      requires c in channels
      modifies this
      ensures (State(), ok) == EnsureFlush(old(State()), c, now)
    {
      var existing := WaitingFlushes(State(), c);
      if |existing| >= 2 { return false; }
      if existing != {} { return true; }
      actions := actions[nextAction := FlushTimer(State(), c, now)];
      nextAction := nextAction + 1;
      return true;
    }

    method ScheduleFollowUp(kind: ActionKind, event: nat, rule: nat, dueAt: Time) returns (ok: bool)
      modifies this
      ensures (State(), ok) == EnsureFollowUp(old(State()), kind, event, rule, dueAt)
    {
      var existing := WaitingFollowUps(State(), kind, event, rule);
      if |existing| >= 2 { return false; }
      if existing != {} { return true; }
      actions := actions[nextAction := FollowUpTimer(kind, event, rule, dueAt)];
      nextAction := nextAction + 1;
      return true;
    }

    method StageOutboxRow(event: nat, rule: Option<nat>, c: nat, trigger: Trigger, note: Note, now: Time)
      returns (staged: Staged)
      requires c in channels
      modifies this
      ensures (State(), staged) == StageRow(old(State()), event, rule, c, trigger, note, now)
    {
      var park := NeedsParking(State(), c, now);
      if KeyTaken(State(), event, c, trigger) { return Duplicate; }
      outbox := outbox[nextRow := FreshRow(Some(event), rule, c, trigger, note, if park then Digested else Pending,
                                           now)];
      nextRow := nextRow + 1;
      if park {
        var ok := EnsureDigestFlushScheduled(c, now);
        if !ok { return Failed; }
      }
      return Inserted;
    }

    // ---- timers ----

    method ClaimDueActions(limit: nat, now: Time)
      modifies this
      ensures State() == ClaimTimers(old(State()), Take(Ascending(DueTimers(old(State()), now)), limit), now)
      ensures actions.Keys == old(actions).Keys
      ensures forall k :: k in old(actions) ==>
                actions[k] == if DueTimer(old(actions)[k], now) && |TimersAhead(old(State()), k, now)| < limit
                              then old(actions)[k].(status := Claimed, dueAt := now) else old(actions)[k]
    {
      hide Ascending, Take, Increasing;
      ghost var before := State();
      TakenAreDue(DueTimers(before, now), limit);
      var rows := Take(Ascending(DueTimers(State(), now)), limit);
      assert ClaimTimers(before, rows[..0], now).actions == actions;
      for i := 0 to |rows|
        invariant State() == ClaimTimers(before, rows[..i], now)
      {
        ClaimOneMore(before, rows, i, now);
        var k := rows[i].1;
        actions := actions[k := actions[k].(status := Claimed, dueAt := now)];
      }
      assert rows[..|rows|] == rows;
      assert State() == ClaimTimers(before, rows, now);
      forall k | k in before.actions
        ensures k in actions
        ensures actions[k] == if DueTimer(before.actions[k], now) && |TimersAhead(before, k, now)| < limit
                              then before.actions[k].(status := Claimed, dueAt := now) else before.actions[k]
      {
        TimersClaimed(before, limit, now, k);
      }
    }

    method RecoverStaleClaims(cutoff: Time) returns (recovered: nat)
      modifies this
      ensures State() == RecoverTimers(old(State()), cutoff)
      ensures recovered == |set k | k in old(actions) && StaleClaim(old(actions)[k], cutoff)|
      ensures forall k :: k in actions ==> !StaleClaim(actions[k], cutoff)
      ensures forall k :: k in old(actions) && !StaleClaim(old(actions)[k], cutoff) ==>
                            k in actions && actions[k] == old(actions)[k]
      ensures forall k :: k in old(actions) && StaleClaim(old(actions)[k], cutoff) ==>
                            k in actions && actions[k] == old(actions)[k].(status := Waiting)
      ensures Inv(old(State())) ==> Inv(State())
    {
      hide Inv;
      ghost var before := State();
      recovered := |set k | k in actions && StaleClaim(actions[k], cutoff)|;
      actions := map k | k in actions ::
        if StaleClaim(actions[k], cutoff) then actions[k].(status := Waiting) else actions[k];
      if Inv(before) { RecoverTimersKeeps(before, cutoff); }
    }

    method CancelPendingTimers(event: nat, now: Time) returns (cancelled: nat)
      modifies this
      ensures State() == CancelPending(old(State()), event, now)
      ensures cancelled == |set k | k in old(actions) && CancelledBy(old(actions)[k], event)|
      ensures R.NoneWaiting(State(), event)
      ensures forall k :: k in old(actions) && !CancelledBy(old(actions)[k], event) ==>
                            k in actions && actions[k] == old(actions)[k]
      ensures Inv(old(State())) ==> Inv(State())
      ensures Inv(old(State())) ==>
                forall k :: k in old(actions) && old(actions)[k].kind.DigestFlush? ==> actions[k] == old(actions)[k]
    {
      hide Inv;
      ghost var before := State();
      cancelled := |set k | k in actions && CancelledBy(actions[k], event)|;
      actions := map k | k in actions ::
        if CancelledBy(actions[k], event)
        then actions[k].(status := Cancelled, processedAt := Some(now)) else actions[k];
      if Inv(before) { CancelPendingKeeps(before, event, now); }
    }

    /** The loop shared by escalation and renotify dispatch. */
    method StageFor(event: nat, rule: nat, cs: seq<nat>, trigger: Trigger, note: Note, now: Time, fault: Fault)
      returns (ok: bool)
      requires (forall c :: c in cs ==> c in channels) && !fault.Early?
      modifies this
      ensures (State(), ok) == StageUnder(old(State()), event, rule, cs, trigger, note, now, fault)
    {
      hide StageAll, StageRow;
      ghost var before := State();
      assert StageAll(before, event, Some(rule), cs[..0], trigger, note, now) == (before, true)
        by { StagesNothing(before, event, Some(rule), trigger, note, now); }
      for i := 0 to |cs|
        invariant (State(), true) == StageAll(before, event, Some(rule), cs[..i], trigger, note, now)
        invariant fault.After? ==> i <= fault.staged
      {
        if fault == After(i) { return false; }
        assert cs[..i + 1] == cs[..i] + [cs[i]];
        StageAllUnfolds(before, event, Some(rule), cs[..i], cs[i], trigger, note, now);
        var staged := StageOutboxRow(event, Some(rule), cs[i], trigger, note, now);
        if staged.Failed? {
          StageAllStops(before, event, Some(rule), cs, i + 1, trigger, note, now);
          if fault.After? && fault.staged < |cs| {
            assert cs[..fault.staged][..i + 1] == cs[..i + 1];
            StageAllStops(before, event, Some(rule), cs[..fault.staged], i + 1, trigger, note, now);
          }
          return false;
        }
      }
      assert cs[..|cs|] == cs;
      return true;
    }

    method RunEscalation(a: ScheduledAction, note: Note, now: Time, fault: Fault) returns (signal: Signal)
      modifies this
      ensures Ends(DispatchEscalation(old(State()), a, note, now, fault), signal, old(State()))
    {
      if fault.Early? { return ExceptionRaised; }
      if a.event.None? || a.event.value !in events { return SkipSignal; }
      var event := events[a.event.value];
      if !event.status.Firing? || event.acknowledgedAt.Some? { return SkipSignal; }
      if a.rule.None? || a.rule.value !in rules { return SkipSignal; }
      var rule := rules[a.rule.value];
      if !rule.enabled || !rule.escalationEnabled { return SkipSignal; }
      var allowed := Allowed(State(), rule.team, rule.escalationChannels);
      if allowed == [] { return SkipSignal; }
      var ok := StageFor(a.event.value, a.rule.value, allowed, OnEscalation, note, now, fault);
      return if ok then Finished else ExceptionRaised;
    }

    method RunRenotify(k: nat, a: ScheduledAction, note: Note, now: Time, fault: Fault) returns (signal: Signal)
      modifies this
      ensures Ends(DispatchRenotify(old(State()), k, a, note, now, fault), signal, old(State()))
    {
      if fault.Early? { return ExceptionRaised; }
      if a.event.None? || a.event.value !in events { return SkipSignal; }
      var event := events[a.event.value];
      if !event.status.Firing? || event.acknowledgedAt.Some? { return SkipSignal; }
      if a.rule.None? || a.rule.value !in rules { return SkipSignal; }
      var rule := rules[a.rule.value];
      if !rule.enabled || !Renotifies(rule) { return SkipSignal; }
      ghost var before := State();
      var ok := StageFor(a.event.value, a.rule.value, Live(State(), rule.channels), OnRenotify(k), note, now, fault);
      StageUnderKeepsRules(before, a.event.value, a.rule.value, Live(before, rule.channels), OnRenotify(k), note, now,
                           fault);
      if !ok || fault.After? { return ExceptionRaised; }
      ok := ScheduleFollowUp(Renotify, a.event.value, a.rule.value, now + rule.renotifyInterval.value * MINUTE);
      return if ok then Finished else ExceptionRaised;
    }

    method RunDigestFlush(a: ScheduledAction, now: Time, fault: Fault) returns (signal: Signal)
      requires FreshIds(State())
      modifies this
      ensures Ends(DispatchFlush(old(State()), a, now, fault), signal, old(State()))
    {
      hide Parked, Aggregate, LinkAll;
      if !fault.NoFault? { return ExceptionRaised; }
      if a.channel.None? || a.channel.value !in channels || channels[a.channel.value].deleted { return SkipSignal; }
      var parked := Parked(State(), a.channel.value);
      if parked == [] { return Finished; }
      if |parked| == 1 {
        outbox := outbox[parked[0] := outbox[parked[0]].(status := Pending)];
        return Finished;
      }
      ghost var before := State();
      var aggregate := nextRow;
      outbox := outbox[aggregate := Aggregate(State(), a.channel.value, parked, now)];
      nextRow := nextRow + 1;
      ghost var added := outbox;
      LinkNone(added, aggregate);
      for i := 0 to |parked|
        invariant outbox == LinkAll(added, parked[..i], aggregate)
        invariant State() == AddRow(before, added[aggregate]).(outbox := outbox)
      {
        assert parked[i] in parked && parked[i] < aggregate;
        forall j | 0 <= j < i ensures parked[j] != parked[i] { ParkedInOrder(before, a.channel.value, j, i); }
        LinkOneMore(added, parked, i, aggregate);
        outbox := outbox[parked[i] := outbox[parked[i]].(digestedInto := Some(aggregate))];
      }
      assert parked[..|parked|] == parked;
      return Finished;
    }

    ghost predicate Ends(outcome: Outcome, signal: Signal, before: DB)
      reads this
    {
      match outcome
      case Completed(after) => signal.Finished? && State() == after
      case Skipped => signal.SkipSignal? && State() == before
      case Raised(after) => signal.ExceptionRaised? && State() == after
    }

    /** dispatch: runs the handler, then always settles the timer one way or another. */
    method DispatchAction(k: nat, note: Note, now: Time, fault: Fault)
      requires FreshIds(State()) && k in actions
      modifies this
      ensures State() == DispatchTimer(old(State()), k, note, now, fault)
    {
      HandleKeepsTimer(State(), k, note, now, fault);
      var a := actions[k];
      var signal := Finished;
      match a.kind {
        case Escalation => signal := RunEscalation(a, note, now, fault);
        case Renotify => signal := RunRenotify(k, a, note, now, fault);
        case DigestFlush => signal := RunDigestFlush(a, now, fault);
        case UnknownKind =>
      }
      match signal {
        case SkipSignal => actions := actions[k := actions[k].(status := Cancelled, processedAt := Some(now))];
        case ExceptionRaised => actions := actions[k := actions[k].(status := Waiting, dueAt := now + RETRY_BACKOFF)];
        case Finished => actions := actions[k := actions[k].(status := Done, processedAt := Some(now))];
      }
      hide DispatchEscalation, DispatchRenotify, DispatchFlush;
    }

    // ---- delivery ----

    method ClaimBatch(worker: nat, limit: nat, now: Time)
      modifies this
      ensures State() == ClaimRows(old(State()), Take(Ascending(DueRows(old(State()), now)), limit), worker, now)
      ensures outbox.Keys == old(outbox).Keys
      ensures forall r :: r in old(outbox) ==>
                outbox[r]
                == if DueRow(old(outbox)[r], now) && |RowsAhead(old(State()), r, now)| < limit
                   then old(outbox)[r].(status := InProgress, lockedBy := Some(worker), lockedAt := Some(now))
                   else old(outbox)[r]
    {
      hide Ascending, Take, Increasing;
      ghost var before := State();
      TakenAreDue(DueRows(before, now), limit);
      var rows := Take(Ascending(DueRows(State(), now)), limit);
      assert ClaimRows(before, rows[..0], worker, now).outbox == outbox;
      for i := 0 to |rows|
        invariant State() == ClaimRows(before, rows[..i], worker, now)
      {
        LeaseOneMore(before, rows, i, worker, now);
        var r := rows[i].1;
        outbox := outbox[r := outbox[r].(status := InProgress, lockedBy := Some(worker), lockedAt := Some(now))];
      }
      assert rows[..|rows|] == rows;
      assert State() == ClaimRows(before, rows, worker, now);
      forall r | r in before.outbox
        ensures r in outbox
        ensures outbox[r] == if DueRow(before.outbox[r], now) && |RowsAhead(before, r, now)| < limit
                             then before.outbox[r].(status := InProgress, lockedBy := Some(worker),
                                                    lockedAt := Some(now))
                             else before.outbox[r]
      {
        RowsClaimed(before, worker, limit, now, r);
      }
    }

    method RecoverStaleLeases(cutoff: Time) returns (recovered: nat)
      modifies this
      ensures State() == RecoverLeases(old(State()), cutoff)
      ensures recovered == |set r | r in old(outbox) && StaleLease(old(outbox)[r], cutoff)|
      ensures forall r :: r in outbox ==> !StaleLease(outbox[r], cutoff)
      ensures forall r :: r in old(outbox) && !StaleLease(old(outbox)[r], cutoff) ==>
                            r in outbox && outbox[r] == old(outbox)[r]
      ensures forall r :: r in old(outbox) && StaleLease(old(outbox)[r], cutoff) ==>
                            r in outbox && outbox[r].status.Pending? && outbox[r].attempts == old(outbox)[r].attempts
      ensures Inv(old(State())) ==> Inv(State())
    {
      hide Inv;
      ghost var before := State();
      recovered := |set r | r in outbox && StaleLease(outbox[r], cutoff)|;
      outbox := map r | r in outbox ::
        if StaleLease(outbox[r], cutoff)
        then outbox[r].(status := Pending, lockedBy := None, lockedAt := None) else outbox[r];
      if Inv(before) { RecoverLeasesKeeps(before, cutoff); }
    }

    /** deliver: when the renotify lookup raises nothing is committed, so the row keeps its lease. */
    method DeliverRow(r: nat, attempt: Attempt, now: Time)
      requires r in outbox
      modifies this
      ensures State() == Deliver(old(State()), r, attempt, now)
    {
      var row := outbox[r];
      if row.channel !in channels || channels[row.channel].deleted || !channels[row.channel].enabled
         || attempt.UnknownType? || attempt.InvalidConfig? {
        outbox := outbox[r := row.(status := Dead, lockedBy := None, lockedAt := None)];
        return;
      }
      if attempt.Breaks? { return; }
      if attempt.Fails? {
        row := row.(attempts := row.attempts + 1, lockedBy := None, lockedAt := None);
        if row.attempts >= MAX_ATTEMPTS {
          row := row.(status := Dead);
        } else {
          row := row.(status := Pending, nextAttemptAt := now + Backoff(row.attempts) + attempt.jitter);
        }
        outbox := outbox[r := row];
        return;
      }
      outbox := outbox[r := row.(status := Delivered, deliveredAt := Some(now), lockedBy := None, lockedAt := None)];
      if StartsRenotify(State(), row) {
        var ok := ScheduleFollowUp(
          Renotify, row.event.value, row.rule.value, now + rules[row.rule.value].renotifyInterval.value * MINUTE);
        if !ok { outbox := outbox[r := row]; }
      }
    }

    // ---- the workers' loops ----

    ghost predicate Valid()
      reads this
    {
      Inv(State())
    }

    /** run_tick: a row that disappeared meanwhile is passed over, and one row's failure stops no other. */
    method RunTick(worker: nat, limit: nat, mail: Ticks.Mail, now: Time) returns (claimed: nat)
      requires Valid()
      modifies this
      ensures Valid()
      ensures var keys := Take(Ascending(DueRows(old(State()), now)), limit);
              && claimed == |keys|
              && State() == Ticks.DeliverEach(ClaimRows(old(State()), keys, worker, now), keys, mail)
    {
      hide Inv, Ascending, Take, Ticks.DeliverEach, ClaimRows, Deliver;
      ghost var start := State();
      var keys := Take(Ascending(DueRows(State(), now)), limit);
      ClaimBatch(worker, limit, now);
      ghost var leased := State();
      TakenAreDue(DueRows(start, now), limit);
      ClaimRowsKeeps(start, keys, worker, now);
      Ticks.ClaimedAreNotParked(start, worker, limit, now);
      Ticks.DeliverNone(leased, mail);
      for i := 0 to |keys|
        invariant State() == Ticks.DeliverEach(leased, keys[..i], mail)
      {
        Ticks.DeliverEachUnfolds(leased, keys, i, mail);
        var r := keys[i].1;
        if r < 0 || r !in outbox { continue; }
        DeliverRow(r, mail.attempt(r), mail.clock(r));
      }
      assert keys[..|keys|] == keys;
      Ticks.DeliverEachKeeps(leased, keys, mail);
      return |keys|;
    }

    /** run_scheduler_tick */
    method RunSchedulerTick(limit: nat, world: Ticks.World, now: Time) returns (claimed: nat)
      requires Valid()
      modifies this
      ensures Valid()
      ensures var keys := Take(Ascending(DueTimers(old(State()), now)), limit);
              && claimed == |keys| && Inv(ClaimTimers(old(State()), keys, now))
              && State() == Ticks.DispatchEach(ClaimTimers(old(State()), keys, now), keys, world)
    {
      hide Inv, Ascending, Take, Ticks.DispatchEach, ClaimTimers, DispatchTimer, Handle;
      ghost var start := State();
      var keys := Take(Ascending(DueTimers(State(), now)), limit);
      ClaimDueActions(limit, now);
      ghost var held := State();
      TakenAreDue(DueTimers(start, now), limit);
      ClaimTimersKeeps(start, keys, now);
      Ticks.DispatchNone(held, world);
      for i := 0 to |keys|
        invariant State() == Ticks.DispatchEach(held, keys[..i], world)
      {
        Ticks.DispatchEachUnfolds(held, keys, i, world);
        var k := keys[i].1;
        if k < 0 || k !in actions { continue; }
        InvIds(State());
        DispatchAction(k, world.note(k), world.clock(k), world.fault(k));
      }
      assert keys[..|keys|] == keys;
      return |keys|;
    }

    // ---- retention ----

    /** SELECT ... LIMIT without an order: any `limit` of the eligible ids, or all of them when there are fewer. */
    method SelectIds(eligible: set<nat>, limit: nat) returns (ids: set<nat>)
      ensures ids <= eligible
      ensures |ids| == if limit < |eligible| then limit else |eligible|
    {
      ids := {};
      var rest := eligible;
      while |ids| < limit && rest != {}
        invariant ids + rest == eligible && ids !! rest
        invariant |ids| <= limit
        decreases |rest|
      {
        var id :| id in rest;
        ids, rest := ids + {id}, rest - {id};
      }
      assert |eligible| == |ids| + |rest|;
    }

    /** One batch: the children of the aggregates in it go first, and are counted. */
    method PurgeRowBatch(ids: set<nat>) returns (removed: nat)
      modifies this
      ensures State() == PurgeRows(old(State()), ids)
      ensures removed == |ids| + |ChildRows(old(State()), ids)|
    {
      var children := ChildRows(State(), ids);
      outbox := DeleteRows(State(), children).outbox;
      outbox := DeleteRows(State(), ids).outbox;
      removed := |ids| + |children|;
    }

    /** _purge_notification_outbox: the batches add up to one purge, and the total counts every removed row once. */
    method PurgeNotificationOutbox(cutoff: Time, batch: nat) returns (total: nat)
      requires RowsOk(State()) && batch >= 1
      modifies this
      ensures State() == PurgeRows(old(State()), ExpiredRows(old(State()), cutoff))
      ensures |outbox| + total == |old(outbox)|
    {
      hide PurgeRows, RowsOk, ExpiredRows, ChildRows;
      ghost var before := State();
      ghost var gone: set<nat> := {};
      total := 0;
      PurgeNothing(before);
      while true
        invariant gone <= ExpiredRows(before, cutoff)
        invariant State() == PurgeRows(before, gone)
        invariant |outbox| + total == |before.outbox|
        decreases |ExpiredRows(State(), cutoff)|
      {
        ghost var here := State();
        PurgeRowsKeepsRows(before, gone);
        ExpiredShrinks(before, gone, cutoff);
        var ids := SelectIds(ExpiredRows(State(), cutoff), batch);
        Shrinks(ExpiredRows(here, cutoff), ids);
        if ids == {} {
          assert gone == ExpiredRows(before, cutoff);
          return;
        }
        var removed := PurgeRowBatch(ids);
        PurgeRowsTwice(before, gone, ids);
        PurgeRowsCount(here, ids, cutoff);
        ExpiredShrinks(here, ids, cutoff);
        gone := gone + ids;
        total := total + removed;
        if |ids| < batch {
          assert gone == ExpiredRows(before, cutoff);
          return;
        }
      }
    }

    method PurgeEventBatch(ids: set<nat>)
      modifies this
      ensures State() == PurgeEvents(old(State()), ids)
    {
      outbox := DeleteRows(State(), RowsAbout(State(), ids)).outbox;
      actions := DeleteEvents(State(), ids).actions;
      events := DeleteEvents(State(), ids).events;
    }

    /** _purge_alert_events: each batch takes its events' rows first; the total counts events only. */
    method PurgeAlertEvents(resolvedCutoff: Time, testCutoff: Time, batch: nat) returns (total: nat)
      requires RowsOk(State()) && batch >= 1
      modifies this
      ensures State() == PurgeEvents(old(State()), ExpiredEvents(old(State()), resolvedCutoff, testCutoff))
      ensures |events| + total == |old(events)|
    {
      hide PurgeEvents, RowsOk, EventExpired;
      ghost var before := State();
      ghost var gone: set<nat> := {};
      ghost var all := ExpiredEvents(before, resolvedCutoff, testCutoff);
      total := 0;
      PurgeNothing(before);
      while true
        invariant gone <= all && all == ExpiredEvents(before, resolvedCutoff, testCutoff)
        invariant State() == PurgeEvents(before, gone)
        invariant |events| + total == |before.events|
        decreases |ExpiredEvents(State(), resolvedCutoff, testCutoff)|
      {
        ghost var here := State();
        PurgeEventsKeepsRows(before, gone);
        ExpiredEventsShrink(before, gone, resolvedCutoff, testCutoff);
        var ids := SelectIds(ExpiredEvents(State(), resolvedCutoff, testCutoff), batch);
        Shrinks(ExpiredEvents(here, resolvedCutoff, testCutoff), ids);
        if ids == {} {
          assert gone == all;
          return;
        }
        PurgeEventBatch(ids);
        PurgeEventsTwice(before, gone, ids);
        EventsCount(here, ids);
        ExpiredEventsShrink(here, ids, resolvedCutoff, testCutoff);
        gone := gone + ids;
        total := total + |ids|;
        if |ids| < batch {
          assert gone == all;
          return;
        }
      }
    }

    /** _delete_batches over settled timers. */
    method PurgeTimers(cutoff: Time, batch: nat) returns (total: nat)
      requires batch >= 1
      modifies this
      ensures State() == DeleteTimers(old(State()), ExpiredTimers(old(State()), cutoff))
      ensures |actions| + total == |old(actions)|
    {
      hide DeleteTimers, ExpiredTimers;
      ghost var before := State();
      ghost var gone: set<nat> := {};
      total := 0;
      PurgeNothing(before);
      while true
        invariant gone <= ExpiredTimers(before, cutoff)
        invariant State() == DeleteTimers(before, gone)
        invariant |actions| + total == |before.actions|
        decreases |ExpiredTimers(State(), cutoff)|
      {
        ghost var here := State();
        ExpiredTimersShrink(before, gone, cutoff);
        var ids := SelectIds(ExpiredTimers(State(), cutoff), batch);
        Shrinks(ExpiredTimers(here, cutoff), ids);
        if ids == {} {
          assert gone == ExpiredTimers(before, cutoff);
          return;
        }
        DeleteTimersKeepsRest(here, ids);
        actions := DeleteTimers(State(), ids).actions;
        TimersTwice(before, gone, ids);
        ExpiredTimersShrink(here, ids, cutoff);
        TimersCount(here, ids);
        gone := gone + ids;
        total := total + |ids|;
        if |ids| < batch {
          assert gone == ExpiredTimers(before, cutoff);
          return;
        }
      }
    }

    // ---- routing ----

    /** _matched_notify_channels: `setdefault` keeps the first rule that offered a channel. */
    method MatchedNotifyChannels(t: R.Transition, notifyRules: seq<nat>) returns (matched: R.Plan)
      ensures matched == R.MatchedChannels(State(), t, notifyRules)
    {
      hide R.Fits;
      matched := [];
      for i := 0 to |notifyRules|
        invariant matched == R.MatchedChannels(State(), t, notifyRules[..i])
      {
        assert notifyRules[..i + 1][..i] == notifyRules[..i];
        var id := notifyRules[i];
        if id in rules && R.Fits(t, rules[id]) {
          var cs := rules[id].channels;
          ghost var before := matched;
          for j := 0 to |cs|
            invariant matched == R.PlanChannels(State(), before, cs[..j], id)
          {
            assert cs[..j + 1][..j] == cs[..j];
            var c := cs[j];
            if c !in channels || channels[c].deleted { continue; }
            if !R.Planned(matched, c) { matched := matched + [(c, id)]; }
          }
          assert cs[..|cs|] == cs;
        }
      }
      assert notifyRules[..|notifyRules|] == notifyRules;
    }

    method ScheduleEscalations(t: R.Transition, id: nat, notifyRules: seq<nat>, now: Time) returns (ok: bool)
      modifies this
      ensures (State(), ok) == R.PlanEscalations(old(State()), t, id, notifyRules, now)
    {
      hide R.Fits, EnsureFollowUp, R.PlanEscalations, R.DueFor;
      ghost var before := State();
      if t.to.Resolved? {
        R.NoEscalationsOnResolved(before, t, id, notifyRules, now);
        return true;
      }
      assert (before, true) == R.PlanEscalations(before, t, id, [], now)
        by { R.PlanEscalationsOfNone(before, t, id, now, 0); }
      for i := 0 to |notifyRules|
        invariant (State(), true) == R.PlanEscalations(before, t, id, notifyRules[..i], now)
      {
        assert notifyRules[..i + 1] == notifyRules[..i] + [notifyRules[i]];
        R.PlanEscalationsUnfolds(before, t, id, notifyRules[..i], notifyRules[i], now);
        R.DueExactlyWhen(before, t, notifyRules[i]);
        var r := notifyRules[i];
        if r !in rules || !R.Escalates(rules[r]) || !R.Fits(t, rules[r]) { continue; }
        ok := ScheduleFollowUp(Escalation, id, r, now + rules[r].escalationAfter.value * MINUTE);
        if !ok {
          R.PlanEscalationsStop(before, t, id, notifyRules, i + 1, now);
          return false;
        }
      }
      assert notifyRules[..|notifyRules|] == notifyRules;
      return true;
    }

    method StageOutbox(id: nat, plan: R.Plan, trigger: Trigger, note: Note, now: Time) returns (created: Option<nat>)
      requires R.AllLive(State(), plan)
      modifies this
      ensures (State(), created) == R.StagePlan(old(State()), id, plan, trigger, note, now)
    {
      hide StageRow, R.StagePlan;
      ghost var before := State();
      var count := 0;
      R.StagePlanUnfolds(before, id, [], trigger, note, now);
      for i := 0 to |plan|
        invariant R.AllLive(before, plan[..i])
        invariant (State(), Some(count)) == R.StagePlan(before, id, plan[..i], trigger, note, now)
      {
        assert plan[..i + 1][..i] == plan[..i];
        R.StagePlanUnfolds(before, id, plan[..i + 1], trigger, note, now);
        var (c, rule) := plan[i];
        var staged := StageOutboxRow(id, Some(rule), c, trigger, note, now);
        if staged.Failed? {
          R.StagePlanStops(before, id, plan, i + 1, trigger, note, now);
          return None;
        }
        if staged.Inserted? { count := count + 1; }
      }
      assert plan[..|plan|] == plan;
      return Some(count);
    }

    /** _route_shared_view: the target team's own suppress rules stop it, and only it. */
    method RouteSharedView(listing: R.Listing, t: R.Transition, id: nat, target: nat, note: Note, now: Time)
      returns (created: Option<nat>)
      modifies this
      ensures var plan := R.PlanFor(old(State()), t, listing(target, true));
              (State(), created) == R.StagePlan(old(State()), id, plan, R.TriggerOf(t), note, now)
    {
      hide R.StagePlan, R.Fits;
      var listed := listing(target, true);
      R.StagePlanUnfolds(State(), id, [], R.TriggerOf(t), note, now);
      if R.Suppressor(State(), t, R.OfAction(State(), listed, RuleAction.Suppress)).Some? { return Some(0); }
      var matched := MatchedNotifyChannels(t, R.OfAction(State(), listed, RuleAction.Notify));
      assert matched == R.PlanFor(State(), t, listed);
      if matched == [] { return Some(0); }
      created := StageOutbox(id, matched, R.TriggerOf(t), note, now);
    }

    /** The owner's pass: a suppression is recorded, or the plan is made and escalations are scheduled. */
    method RouteOwn(listing: R.Listing, t: R.Transition, id: nat, now: Time)
      returns (ok: bool, suppressor: Option<nat>, matched: R.Plan)
      requires id in events && t.event.team.Some?
      modifies this
      ensures (State(), ok) == R.OwnPass(old(State()), listing, t, id, now)
      ensures var listed := listing(t.event.team.value, false);
              && suppressor == R.Suppressor(old(State()), t, R.OfAction(old(State()), listed, RuleAction.Suppress))
              && matched == R.PlanFor(old(State()), t, listed)
    {
      hide R.StagePlan, R.Fits, R.PlanEscalations, CancelPending, R.MatchedChannels, R.OfAction, R.Suppressor,
        R.Planned, R.AllLive;
      ghost var start := State();
      if t.to.Resolved? { var _ := CancelPendingTimers(id, now); }
      CancelKeepsRest(start, id, now);
      var listed := listing(t.event.team.value, false);
      suppressor := R.Suppressor(State(), t, R.OfAction(State(), listed, RuleAction.Suppress));
      R.DecisionsFrame(start, State(), t, listed);
      ok, matched := true, [];
      if suppressor.Some? {
        events := events[id := events[id].(suppressedBy := suppressor)];
      } else {
        var notifiers := R.OfAction(State(), listed, RuleAction.Notify);
        matched := MatchedNotifyChannels(t, notifiers);
        ok := ScheduleEscalations(t, id, notifiers, now);
      }
    }

    method RouteEvent(listing: R.Listing, t: R.Transition, id: nat, shares: seq<R.Share>, note: Note, now: Time)
      returns (outcome: Option<R.RoutingOutcome>)
      requires id in events
      modifies this
      ensures (State(), outcome) == R.Route(old(State()), listing, t, id, shares, note, now)
    {
      hide R.StagePlan, R.OwnPass, R.RouteShares, R.MatchingShares, R.PlanFor, R.Suppressor, R.OutcomeOf, R.AllLive,
        R.OfAction;
      ghost var start := State();
      if t.event.team.None? {
        if t.to.Resolved? { var _ := CancelPendingTimers(id, now); }
        UnassignedPass(start, listing, t, id, now);
        return Some(R.RoutingOutcome(false, Some(R.UnassignedTeam), None, 0, 0));
      }
      var ok, suppressor, matched := RouteOwn(listing, t, id, now);
      if !ok { return None; }
      ghost var passed := State();
      var open := R.MatchingShares(t, shares, t.event.team.value);
      R.RouteNothing(passed, listing, t, id, note, now);
      if matched == [] && open == [] { return Some(R.OutcomeOf(suppressor, false, 0, 0)); }
      R.StillLive(start, passed, matched);
      var created := StageOutbox(id, matched, R.TriggerOf(t), note, now);
      if created.None? { return None; }
      ghost var own := State();
      var shared := FanOut(listing, t, id, open, note, now);
      if shared.None? { return None; }
      return Some(R.OutcomeOf(suppressor, matched != [], created.value, shared.value));
    }

    /** The loop over matching shares: each target team decides for itself. */
    method FanOut(listing: R.Listing, t: R.Transition, id: nat, open: seq<R.Share>, note: Note, now: Time)
      returns (sent: Option<nat>)
      modifies this
      ensures (State(), sent) == R.RouteShares(old(State()), listing, t, id, open, note, now)
    {
      hide R.StagePlan, R.RouteShares, R.PlanFor;
      ghost var own := State();
      var shared := 0;
      R.RouteNoShares(own, listing, t, id, note, now);
      for i := 0 to |open|
        invariant (State(), Some(shared)) == R.RouteShares(own, listing, t, id, open[..i], note, now)
      {
        R.RouteSharesUnfolds(own, listing, t, id, open, i, note, now);
        var one := RouteSharedView(listing, t, id, open[i].target, note, now);
        if one.None? {
          R.RouteSharesStop(own, listing, t, id, open, i + 1, note, now);
          return None;
        }
        shared := shared + one.value;
      }
      assert open[..|open|] == open;
      return Some(shared);
    }

    // ---- acknowledgement and test alerts ----

    method AckAlert(e: nat, now: Time)
      requires e in events
      modifies this
      ensures State() == A.Ack(old(State()), e, now)
      ensures e in events && events[e].acknowledgedAt.Some?
      ensures old(events)[e].acknowledgedAt.Some? ==> State() == old(State())
      ensures old(events)[e].acknowledgedAt.None? ==> events[e].acknowledgedAt == Some(now) && R.NoneWaiting(State(), e)
      ensures events == old(events)[e := old(events)[e].(acknowledgedAt := events[e].acknowledgedAt)]
      ensures outbox == old(outbox) && channels == old(channels) && rules == old(rules)
      ensures forall k :: k in old(actions) && old(actions)[k].event != Some(e) ==>
                            k in actions && actions[k] == old(actions)[k]
      ensures Inv(old(State())) ==> Inv(State())
    {
      hide Inv;
      ghost var before := State();
      if events[e].acknowledgedAt.None? {
        events := events[e := events[e].(acknowledgedAt := Some(now))];
        if Inv(before) { ConfigurationKeeps(before, State()); }
        var _ := CancelPendingTimers(e, now);
      }
    }

    method UnackAlert(e: nat)
      requires e in events
      modifies this
      ensures State() == A.Unack(old(State()), e)
      ensures e in events && events[e].acknowledgedAt.None?
      ensures events == old(events)[e := old(events)[e].(acknowledgedAt := None)]
      ensures actions == old(actions) && outbox == old(outbox) && channels == old(channels) && rules == old(rules)
      ensures forall k :: k in actions && actions[k].event == Some(e) ==>
                            (Actionable(State(), actions[k]) <==> events[e].status.Firing?)
      ensures Inv(old(State())) ==> Inv(State())
    {
      hide Inv;
      ghost var before := State();
      if events[e].acknowledgedAt.Some? { events := events[e := events[e].(acknowledgedAt := None)]; }
      if Inv(before) { ConfigurationKeeps(before, State()); }
    }

    method ResolveTestAlert(listing: R.Listing, re: Compiler, e: nat, shares: seq<R.Share>, note: Note, now: Time)
      returns (result: A.TestResolution)
      requires e in events
      modifies this
      ensures (State(), result) == A.ResolveTest(old(State()), listing, re, e, shares, note, now)
    {
      hide R.Route;
      if !events[e].isTest { return A.NotATest; }
      if events[e].status.Resolved? { return A.AlreadyResolved; }
      events := events[e := events[e].(status := Resolved, endsAt := Some(now))];
      var outcome := RouteEvent(listing, R.Transition(re, events[e], Resolved), e, shares, note, now);
      return A.Routed(outcome);
    }
  }

  lemma UnassignedPass(db: DB, listing: R.Listing, t: R.Transition, id: nat, now: Time)
    requires id in db.events && t.event.team.None?
    ensures R.OwnPass(db, listing, t, id, now) == (if t.to.Resolved? then CancelPending(db, id, now) else db, true)
  {
  }

  lemma CancelKeepsRest(db: DB, event: nat, now: Time)
    ensures CancelPending(db, event, now) == db.(actions := CancelPending(db, event, now).actions)
  {
  }

  lemma PurgeNothing(db: DB)
    ensures PurgeRows(db, {}) == db
    ensures DeleteTimers(db, {}) == db
    ensures PurgeEvents(db, {}) == db
  {
    assert DeleteRows(db, {}).outbox == db.outbox;
    assert ChildRows(db, {}) == {} && RowsAbout(db, {}) == {};
  }

  lemma Shrinks(all: set<nat>, some: set<nat>)
    requires some <= all
    ensures some != {} ==> |all - some| < |all|
    ensures |some| == |all| ==> some == all
  {
    assert all == some + (all - some);
    assert |all| == |some| + |all - some|;
    if |some| == |all| { assert all - some == {}; }
  }

  lemma StageUnderKeepsRules(db: DB, event: nat, rule: nat, cs: seq<nat>, trigger: Trigger, note: Note, now: Time,
                             fault: Fault)
    requires forall c :: c in cs ==> c in db.channels
    ensures StageUnder(db, event, rule, cs, trigger, note, now, fault).0.rules == db.rules
  {
  }
}
