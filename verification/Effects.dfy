/**
 What each transaction of the notification engine does, said about the tables alone and in their own units, which are
 microseconds; and when, over whole runs, a timer may be claimed and a notification must go straight out.
 */
module Effects {
  import opened Prelude
  import opened Model
  import opened Staging
  import opened Dispatch
  import opened Delivery
  import opened Retention
  import opened Invariants
  import opened Runs
  import opened Carriers
  import opened TimerSafety
  import opened OneTimer

  // ---- staging ----

  /** The ordinary rows of a channel created in the hour up to `now`. */
  function LastHour(db: DB, c: nat, now: Time): set<nat> {
    set r | r in db.outbox && db.outbox[r].channel == c && !db.outbox[r].isDigest
            && db.outbox[r].createdAt >= now - 3_600_000_000
  }

  /** A notification goes straight out: no storm control, no limit to speak of, or a limit not yet reached. */
  predicate GoesOut(db: DB, c: nat, now: Time)
    requires c in db.channels
  {
    var ch := db.channels[c];
    || ch.digestMode == Off
    || (ch.digestMode == Auto && (ch.rateLimit == None || ch.rateLimit == Some(0)))
    || (ch.digestMode == Auto && ch.rateLimit.Some? && |LastHour(db, c, now)| < ch.rateLimit.value)
  }

  /** No row announces this to this channel yet. */
  predicate IsNews(db: DB, event: nat, c: nat, trigger: Trigger) {
    forall r :: r in db.outbox ==>
      db.outbox[r].event != Some(event) || db.outbox[r].channel != c || db.outbox[r].trigger != trigger
  }

  lemma ParkedExactlyWhen(db: DB, c: nat, now: Time)
    requires c in db.channels
    ensures NeedsParking(db, c, now) <==> !GoesOut(db, c, now)
  {
    assert RecentRows(db, c, now - DIGEST_RATE_WINDOW) == LastHour(db, c, now);
  }

  /** News becomes one row, queued exactly when it goes straight out and parked otherwise; nothing else is written. */
  lemma NewsIsStaged(db: DB, event: nat, rule: Option<nat>, c: nat, trigger: Trigger, note: Note, now: Time)
    requires FreshIds(db) && c in db.channels && IsNews(db, event, c, trigger)
    ensures var status := if GoesOut(db, c, now) then Pending else Digested;
            var after := StageRow(db, event, rule, c, trigger, note, now).0;
            && after.outbox == db.outbox[db.nextRow :=
                 OutboxRow(Some(event), rule, c, trigger, Single(note), status, 0, false, None, now, None, None, now,
                           None)]
            && after.events == db.events && after.channels == db.channels && after.rules == db.rules
            && (GoesOut(db, c, now) ==> after.actions == db.actions)
  {
    hide NeedsParking, GoesOut;
    ParkedExactlyWhen(db, c, now);
  }

  /** A parked notification finds a flush timer, or starts one that is due when the channel's window ends. */
  lemma ParkedNewsIsAwaited(db: DB, event: nat, rule: Option<nat>, c: nat, trigger: Trigger, note: Note, now: Time)
    requires FreshIds(db) && c in db.channels && IsNews(db, event, c, trigger) && !GoesOut(db, c, now)
    ensures var after := StageRow(db, event, rule, c, trigger, note, now).0;
            var waits := exists k :: k in db.actions && db.actions[k].kind == DigestFlush
                                     && db.actions[k].channel == Some(c) && db.actions[k].status == Waiting;
            after.actions
            == if waits then db.actions
               else db.actions[db.nextAction :=
                 ScheduledAction(DigestFlush, None, None, Some(c),
                                 now + db.channels[c].digestWindowMinutes * 60_000_000, Waiting, None)]
  {
    hide NeedsParking, GoesOut;
    ParkedExactlyWhen(db, c, now);
    var row := FreshRow(Some(event), rule, c, trigger, note, Digested, now);
    assert WaitingFlushes(AddRow(db, row), c) == WaitingFlushes(db, c);
    if k :| k in db.actions && db.actions[k].kind == DigestFlush && db.actions[k].channel == Some(c)
            && db.actions[k].status == Waiting {
      assert k in WaitingFlushes(db, c);
    }
  }

  /** What is no news changes nothing. */
  lemma OldNewsIsDropped(db: DB, event: nat, rule: Option<nat>, c: nat, trigger: Trigger, note: Note, now: Time)
    requires c in db.channels && !IsNews(db, event, c, trigger)
    ensures StageRow(db, event, rule, c, trigger, note, now) == (db, Duplicate)
  {
  }

  // ---- claiming ----

  predicate DueTimer(a: ScheduledAction, now: Time) {
    a.status == Waiting && a.dueAt <= now
  }

  predicate DueRow(row: OutboxRow, now: Time) {
    row.status == Pending && row.nextAttemptAt <= now
  }

  /** The due timers that come before timer `k`: due earlier, or at the same time with a smaller id. */
  function TimersAhead(db: DB, k: nat, now: Time): set<nat>
    requires k in db.actions
  {
    set j | j in db.actions && DueTimer(db.actions[j], now)
            && (db.actions[j].dueAt < db.actions[k].dueAt || (db.actions[j].dueAt == db.actions[k].dueAt && j < k))
  }

  function RowsAhead(db: DB, r: nat, now: Time): set<nat>
    requires r in db.outbox
  {
    set q | q in db.outbox && DueRow(db.outbox[q], now)
            && (db.outbox[q].nextAttemptAt < db.outbox[r].nextAttemptAt
                || (db.outbox[q].nextAttemptAt == db.outbox[r].nextAttemptAt && q < r))
  }

  /** Keys that carry their ids are as many as the ids. */
  lemma {:induction false} AsManyKeys(ids: set<nat>, keys: set<Key>)
    requires forall key :: key in keys ==> key.1 >= 0 && key.1 as nat in ids
    requires forall id :: id in ids ==> exists key :: key in keys && key.1 == id
    requires forall a, b :: a in keys && b in keys && a.1 == b.1 ==> a == b
    ensures |keys| == |ids|
  {
    if ids == {} {
      assert keys == {};
    } else {
      var id :| id in ids;
      var key :| key in keys && key.1 == id;
      assert forall other :: other in keys - {key} ==> other.1 != id;
      AsManyKeys(ids - {id}, keys - {key});
    }
  }

  /** A claim takes exactly the due timers with fewer than `limit` due ones ahead of them, and touches nothing else. */
  lemma TimersClaimed(db: DB, limit: nat, now: Time, k: nat)
    requires k in db.actions
    ensures var after := ClaimTimers(db, Take(Ascending(DueTimers(db, now)), limit), now);
            && after == db.(actions := after.actions) && after.actions.Keys == db.actions.Keys
            && after.actions[k]
               == if DueTimer(db.actions[k], now) && |TimersAhead(db, k, now)| < limit
                  then db.actions[k].(status := Claimed, dueAt := now) else db.actions[k]
  {
    hide Ascending, Take;
    var due, key := DueTimers(db, now), (db.actions[k].dueAt, k);
    TakenExactlyWhen(due, limit, key);
    assert key in due <==> DueTimer(db.actions[k], now);
    forall j | j in TimersAhead(db, k, now) ensures exists x :: x in KeysBefore(due, key) && x.1 == j {
      assert (db.actions[j].dueAt, j) in KeysBefore(due, key);
    }
    AsManyKeys(TimersAhead(db, k, now), KeysBefore(due, key));
  }

  /** And so does a claim of queued rows, which leaves its mark and the time on each. */
  lemma RowsClaimed(db: DB, worker: nat, limit: nat, now: Time, r: nat)
    requires r in db.outbox
    ensures var after := ClaimRows(db, Take(Ascending(DueRows(db, now)), limit), worker, now);
            && after == db.(outbox := after.outbox) && after.outbox.Keys == db.outbox.Keys
            && after.outbox[r]
               == if DueRow(db.outbox[r], now) && |RowsAhead(db, r, now)| < limit
                  then db.outbox[r].(status := InProgress, lockedBy := Some(worker), lockedAt := Some(now))
                  else db.outbox[r]
  {
    hide Ascending, Take;
    var due, key := DueRows(db, now), (db.outbox[r].nextAttemptAt, r);
    TakenExactlyWhen(due, limit, key);
    assert key in due <==> DueRow(db.outbox[r], now);
    forall q | q in RowsAhead(db, r, now) ensures exists x :: x in KeysBefore(due, key) && x.1 == q {
      assert (db.outbox[q].nextAttemptAt, q) in KeysBefore(due, key);
    }
    AsManyKeys(RowsAhead(db, r, now), KeysBefore(due, key));
  }

  /** A claim taken back: claimed, never processed, and claimed before the cutoff. */
  lemma ClaimsTakenBack(db: DB, cutoff: Time, k: nat)
    requires k in db.actions
    ensures var after := RecoverTimers(db, cutoff);
            && after == db.(actions := after.actions) && after.actions.Keys == db.actions.Keys
            && after.actions[k]
               == if db.actions[k].status == Claimed && db.actions[k].processedAt == None
                 && db.actions[k].dueAt < cutoff
                  then db.actions[k].(status := Waiting) else db.actions[k]
  {
  }

  /** A lease taken back: in progress, and locked before the cutoff. */
  lemma LeasesTakenBack(db: DB, cutoff: Time, r: nat)
    requires r in db.outbox
    ensures var after := RecoverLeases(db, cutoff);
            && after == db.(outbox := after.outbox) && after.outbox.Keys == db.outbox.Keys
            && after.outbox[r]
               == if db.outbox[r].status == InProgress && db.outbox[r].lockedAt.Some?
                 && db.outbox[r].lockedAt.value < cutoff
                  then db.outbox[r].(status := Pending, lockedBy := None, lockedAt := None) else db.outbox[r]
  {
  }

  /** Cancelling an event's timers: those waiting for it, at that time, and no others. */
  lemma TimersCancelled(db: DB, event: nat, now: Time, k: nat)
    requires k in db.actions
    ensures var after := CancelPending(db, event, now);
            && after == db.(actions := after.actions) && after.actions.Keys == db.actions.Keys
            && after.actions[k]
               == if db.actions[k].event == Some(event) && db.actions[k].status == Waiting
                  then db.actions[k].(status := Cancelled, processedAt := Some(now)) else db.actions[k]
  {
  }

  // ---- delivering ----

  predicate CanCarry(db: DB, c: nat) {
    c in db.channels && !db.channels[c].deleted && db.channels[c].enabled
  }

  /** The wait, in seconds, after the first to the seventh failure. */
  const WAITS: seq<int> := [60, 120, 240, 480, 960, 1800, 1800]

  lemma WaitsAre(n: nat)
    requires 1 <= n <= 7
    ensures Backoff(n) == WAITS[n - 1] * 1_000_000
  {
    assert Pow2(1) == 2 && Pow2(2) == 4 && Pow2(3) == 8 && Pow2(4) == 16 && Pow2(5) == 32 && Pow2(6) == 64
      && Pow2(7) == 128;
  }

  /** A row with nothing to be delivered with is dead, and keeps its count of failures. */
  lemma UndeliverableRowDies(db: DB, r: nat, attempt: Attempt, now: Time)
    requires r in db.outbox
    requires !CanCarry(db, db.outbox[r].channel) || attempt == UnknownType || attempt == InvalidConfig
    ensures Deliver(db, r, attempt, now)
            == db.(outbox := db.outbox[r := db.outbox[r].(status := Dead, lockedBy := None, lockedAt := None)])
  {
  }

  /**
   A failed row waits for its next attempt as long as the table says plus the jitter; the eighth failure is the
   last.
   */
  lemma FailedRowWaits(db: DB, r: nat, jitter: int, now: Time)
    requires r in db.outbox && CanCarry(db, db.outbox[r].channel)
    ensures var row := db.outbox[r];
            var freed := row.(attempts := row.attempts + 1, lockedBy := None, lockedAt := None);
            Deliver(db, r, Fails(jitter), now)
            == db.(outbox := db.outbox[r :=
                 if row.attempts >= 7 then freed.(status := Dead)
                 else freed.(status := Pending, nextAttemptAt := now + WAITS[row.attempts] * 1_000_000 + jitter)])
  {
    hide Backoff;
    var n := db.outbox[r].attempts + 1;
    if n <= 7 { WaitsAre(n); }
  }

  /** The rule's interval, where a delivered firing row starts a cycle of reminders. */
  predicate StartsReminders(db: DB, row: OutboxRow) {
    row.trigger == OnFiring && row.event.Some? && row.rule.Some? && row.rule.value in db.rules
    && db.rules[row.rule.value].renotifyInterval.Some? && db.rules[row.rule.value].renotifyInterval.value != 0
  }

  function Reminders(db: DB, event: nat, rule: nat): set<nat> {
    set k | k in db.actions && db.actions[k].kind == Renotify && db.actions[k].event == Some(event)
            && db.actions[k].rule == Some(rule) && db.actions[k].status == Waiting
  }

  /** A sent row is delivered at that time, and a first announcement starts a cycle unless one waits already. */
  lemma SentRowIsDelivered(db: DB, r: nat, now: Time)
    requires r in db.outbox && CanCarry(db, db.outbox[r].channel)
    ensures var row := db.outbox[r];
            var sent := db.(outbox := db.outbox[r :=
              row.(status := Delivered, deliveredAt := Some(now), lockedBy := None, lockedAt := None)]);
            var waiting := if StartsReminders(db, row) then |Reminders(db, row.event.value, row.rule.value)| else 1;
            Deliver(db, r, Succeeds, now)
            == if waiting >= 2 then db
               else if waiting == 1 then sent
               else sent.(actions := db.actions[db.nextAction :=
                            ScheduledAction(Renotify, row.event, row.rule, None,
                                            now + db.rules[row.rule.value].renotifyInterval.value * 60_000_000, Waiting,
                                            None)],
                          nextAction := db.nextAction + 1)
  {
    var row := db.outbox[r];
    if StartsReminders(db, row) {
      var sent := PutRow(db, r, MarkDelivered(row, now));
      assert WaitingFollowUps(sent, Renotify, row.event.value, row.rule.value)
        == Reminders(db, row.event.value, row.rule.value);
    }
  }

  // ---- planning and dispatching timers ----

  /** An escalation is planned for the rule's minutes ahead, unless one waits already. */
  lemma EscalationIsPlanned(db: DB, e: nat, r: nat, now: Time)
    requires FreshIds(db) && r in db.rules && db.rules[r].escalationAfter.Some?
    ensures var waits := exists k ::
              && k in db.actions && db.actions[k].kind == Escalation && db.actions[k].event == Some(e)
              && db.actions[k].rule == Some(r) && db.actions[k].status == Waiting;
            Apply(db, PlanEscalation(e, r), now)
            == if waits then db
               else db.(actions := db.actions[db.nextAction :=
                          ScheduledAction(Escalation, Some(e), Some(r), None,
                                          now + db.rules[r].escalationAfter.value * 60_000_000, Waiting, None)],
                        nextAction := db.nextAction + 1)
  {
    if k :| k in db.actions && db.actions[k].kind == Escalation && db.actions[k].event == Some(e)
            && db.actions[k].rule == Some(r) && db.actions[k].status == Waiting {
      assert k in WaitingFollowUps(db, Escalation, e, r);
    }
  }

  /** A follow-up has someone to tell and something to tell: its alert fires unacknowledged and its rule still asks. */
  predicate Pressing(db: DB, a: ScheduledAction) {
    && a.event.Some? && a.event.value in db.events && db.events[a.event.value].status == Firing
    && db.events[a.event.value].acknowledgedAt == None
    && a.rule.Some? && a.rule.value in db.rules && db.rules[a.rule.value].enabled
  }

  /** Who an escalation tells: the live escalation channels that are the team's own or consent. */
  predicate Escalatee(db: DB, rule: RoutingRule, c: nat) {
    c in rule.escalationChannels && c in db.channels && !db.channels[c].deleted
    && (db.channels[c].team == rule.team || db.channels[c].allowCrossTeam)
  }

  predicate HasWork(db: DB, a: ScheduledAction) {
    match a.kind
    case Escalation =>
      Pressing(db, a) && db.rules[a.rule.value].escalationEnabled
      && exists c :: c in db.channels && Escalatee(db, db.rules[a.rule.value], c)
    case Renotify =>
      Pressing(db, a) && db.rules[a.rule.value].renotifyInterval.Some?
      && db.rules[a.rule.value].renotifyInterval.value != 0
    case DigestFlush => a.channel.Some? && a.channel.value in db.channels && !db.channels[a.channel.value].deleted
    case UnknownKind => true
  }

  lemma HandlesExactlyWork(db: DB, k: nat, note: Note, now: Time)
    requires FreshIds(db) && k in db.actions
    ensures Handle(db, k, note, now, NoFault).Skipped? <==> !HasWork(db, db.actions[k])
  {
    hide StageUnder, EnsureFollowUp, Parked, LinkAll, Aggregate;
    var a := db.actions[k];
    if a.kind == Escalation && Pressing(db, a) {
      var rule := db.rules[a.rule.value];
      var told := Allowed(db, rule.team, rule.escalationChannels);
      assert forall c :: c in told <==> Escalatee(db, rule, c);
      if told != [] { assert told[0] in told; }
    }
  }

  /** A dispatched timer is done, cancelled for want of work, or waits one more minute after an exception. */
  lemma TimerIsSettled(db: DB, k: nat, note: Note, now: Time, fault: Fault)
    requires FreshIds(db) && k in db.actions
    ensures var after, a := DispatchTimer(db, k, note, now, fault), db.actions[k];
            && k in after.actions
            && after.actions[k]
               == if Raises(db, k, now, fault) then a.(status := Waiting, dueAt := now + 60_000_000)
                  else if HasWork(db, a) then a.(status := Done, processedAt := Some(now))
                  else a.(status := Cancelled, processedAt := Some(now))
  {
    hide Handle, Raises, HasWork;
    HandleKeepsTimer(db, k, note, now, fault);
    RaisesExactlyWhen(db, k, note, now, fault);
    if !Raises(db, k, now, fault) { FaultsOnlyRaise(db, k, note, now, fault); }
    HandlesExactlyWork(db, k, note, now);
  }

  /** A fault decides only whether an exception ends the handler, not whether it finds work. */
  lemma FaultsOnlyRaise(db: DB, k: nat, note: Note, now: Time, fault: Fault)
    requires FreshIds(db) && k in db.actions && !Handle(db, k, note, now, fault).Raised?
    ensures Handle(db, k, note, now, fault).Skipped? <==> Handle(db, k, note, now, NoFault).Skipped?
  {
    hide StageUnder, EnsureFollowUp, Parked, LinkAll, Aggregate, Allowed, Live;
  }

  // ---- flushing ----

  /** The notifications of a channel that wait for its digest. */
  function Waiters(db: DB, c: nat): set<nat> {
    set r | r in db.outbox && db.outbox[r].channel == c && db.outbox[r].status == Digested
            && db.outbox[r].digestedInto == None
  }

  /** These are the waiters, each once, in order of creation. */
  ghost predicate InTurn(db: DB, c: nat, ids: seq<nat>) {
    && |ids| == |Waiters(db, c)| && (forall r :: r in ids <==> r in Waiters(db, c))
    && forall i, j :: 0 <= i < j < |ids| ==>
         ids[i] in db.outbox && ids[j] in db.outbox && db.outbox[ids[i]].createdAt <= db.outbox[ids[j]].createdAt
  }

  lemma ParkedAreWaiters(db: DB, c: nat)
    ensures forall r :: r in Parked(db, c) <==> r in Waiters(db, c)
  {
    hide Parked;
  }

  lemma ParkedInTurn(db: DB, c: nat)
    ensures InTurn(db, c, Parked(db, c))
  {
    hide Parked, Waiters;
    var ids := Parked(db, c);
    ParkedAreWaiters(db, c);
    forall i, j | 0 <= i < j < |ids|
      ensures ids[i] != ids[j] && ids[i] in db.outbox && ids[j] in db.outbox
      ensures db.outbox[ids[i]].createdAt <= db.outbox[ids[j]].createdAt
    {
      assert ids[i] in ids && ids[j] in ids;
      ParkedInOrder(db, c, i, j);
    }
    EachOnceCount(ids, Waiters(db, c));
  }

  lemma {:induction false} EachOnceCount(ids: seq<nat>, all: set<nat>)
    requires forall r :: r in ids <==> r in all
    requires forall i, j :: 0 <= i < j < |ids| ==> ids[i] != ids[j]
    ensures |ids| == |all|
  {
    if ids == [] {
      assert all == {};
    } else {
      var front, last := ids[..|ids| - 1], ids[|ids| - 1];
      assert ids == front + [last] && last !in front;
      EachOnceCount(front, all - {last});
    }
  }

  /**
   A flush with nobody waiting changes nothing, and one with a single waiter puts that one back in the queue as
   it is.
   */
  lemma SmallFlush(db: DB, a: ScheduledAction, now: Time, c: nat)
    requires a.channel == Some(c) && c in db.channels && !db.channels[c].deleted && |Waiters(db, c)| <= 1
    ensures Waiters(db, c) == {} ==> DispatchFlush(db, a, now, NoFault) == Completed(db)
    ensures forall r :: Waiters(db, c) == {r} ==>
              DispatchFlush(db, a, now, NoFault)
              == Completed(db.(outbox := db.outbox[r := db.outbox[r].(status := Pending)]))
  {
    hide Parked, Aggregate, LinkAll;
    ParkedInTurn(db, c);
    var ids := Parked(db, c);
    if |ids| == 1 { assert ids[0] in ids; }
  }

  /**
   A flush with several waiters queues one digest for them, due at once, that carries their texts in order of creation,
   counts them and says since when; each is marked with it, and nothing else changes.
   */
  lemma DigestIsMade(db: DB, a: ScheduledAction, now: Time, c: nat) returns (ids: seq<nat>)
    requires FreshIds(db) && a.channel == Some(c) && c in db.channels && !db.channels[c].deleted
    requires |Waiters(db, c)| >= 2
    ensures InTurn(db, c, ids) && DispatchFlush(db, a, now, NoFault).Completed?
    ensures var after := DispatchFlush(db, a, now, NoFault).db;
            && after == db.(outbox := after.outbox, nextRow := db.nextRow + 1)
            && after.outbox.Keys == db.outbox.Keys + {db.nextRow}
            && (forall r :: r in db.outbox ==>
                  after.outbox[r] == if r in ids then db.outbox[r].(digestedInto := Some(db.nextRow)) else db.outbox[r])
            && var digest := after.outbox[db.nextRow];
               && digest.payload.Batch? && |digest.payload.notes| == |ids|
               && (forall i :: 0 <= i < |ids| && db.outbox[ids[i]].payload.Single? ==>
                     digest.payload.notes[i] == db.outbox[ids[i]].payload.note)
               && digest == OutboxRow(None, None, c, OnDigest,
                                      Batch(digest.payload.notes, |ids|, db.outbox[ids[0]].createdAt),
                                      Pending, 0, true, None, now, None, None, now, None)
  {
    hide Parked;
    ParkedInTurn(db, c);
    ids := Parked(db, c);
    assert ids[0] in ids && db.nextRow !in ids;
  }

  // ---- a dispatch that fails half-way ----

  /** What was staged before an exception stays: the channels reached by then have their rows, and only they. */
  lemma FailureKeepsStaged(db: DB, k: nat, note: Note, now: Time, reached: nat)
    requires FreshIds(db) && k in db.actions && FollowsUp(db.actions[k]) && HasWork(db, db.actions[k])
    requires reached < |Recipients(db, db.actions[k])|
    requires var a := db.actions[k];
             forall c :: c in Recipients(db, a) ==> !StagingBlocked(db, a.event.value, c, TriggerFor(a, k), now)
    ensures var a := db.actions[k];
            Keys(DispatchTimer(db, k, note, now, After(reached)))
            == Keys(db) + KeysFor(a.event.value, Recipients(db, a)[..reached], TriggerFor(a, k))
  {
    hide StageAll, StagingBlocked, Keys, KeysFor, Allowed, Live;
    var a := db.actions[k];
    var event, some, trigger := a.event.value, Recipients(db, a)[..reached], TriggerFor(a, k);
    assert forall c :: c in some ==> c in Recipients(db, a);
    HandlesExactlyWork(db, k, note, now);
    StageAllFailsExactlyWhen(db, event, a.rule, some, trigger, note, now);
    StageAllAddsKeys(db, event, a.rule, some, trigger, note, now);
    var staged := StageAll(db, event, a.rule, some, trigger, note, now).0;
    KeysOfSameOutbox(DispatchTimer(db, k, note, now, After(reached)), staged);
  }
}
