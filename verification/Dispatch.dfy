/** scheduler.py: claiming, dispatching and recovering timers; scheduled_actions.py: cancelling them. */
module Dispatch {
  import opened Prelude
  import opened Model
  import opened Staging

  const RETRY_BACKOFF: int := MINUTE

  /** An exception from outside the model: none, before anything was staged, or after that many channels. */
  datatype Fault = NoFault | Early | After(staged: nat)

  /** How a handler ends: normally, with nothing left to act on, or with an exception that keeps what it staged. */
  datatype Outcome = Completed(db: DB) | Skipped | Raised(db: DB)

  // ---- claiming ----

  function DueTimers(db: DB, now: Time): set<Key> {
    set k | k in db.actions && db.actions[k].status.Waiting? && db.actions[k].dueAt <= now :: (db.actions[k].dueAt, k)
  }

  function Take(keys: seq<Key>, limit: nat): seq<Key> {
    keys[..if limit < |keys| then limit else |keys|]
  }

  /** The first due keys are due keys, still in order. */
  lemma TakenAreDue(due: set<Key>, limit: nat)
    ensures Increasing(Take(Ascending(due), limit))
    ensures forall key :: key in Take(Ascending(due), limit) ==> key in due
  {
    var all := Ascending(due);
    forall key | key in Take(all, limit) ensures key in due { assert key in all; }
  }

  /** The first due keys are those with fewer than `limit` before them. */
  lemma TakenExactlyWhen(due: set<Key>, limit: nat, key: Key)
    ensures key in Take(Ascending(due), limit) <==> key in due && |KeysBefore(due, key)| < limit
  {
    hide Ascending, KeysBefore;
    var all := Ascending(due);
    if key in due {
      assert key in all;
      var i :| 0 <= i < |all| && all[i] == key;
      PlaceIsRank(due, i);
      if i < limit { assert Take(all, limit)[i] == key; }
    }
    if key in Take(all, limit) {
      var i :| 0 <= i < |Take(all, limit)| && Take(all, limit)[i] == key;
      PlaceIsRank(due, i);
      assert all[i] in all;
    }
  }

  function ClaimTimers(db: DB, claimed: seq<Key>, now: Time): DB {
    db.(actions := map k | k in db.actions ::
      if (db.actions[k].dueAt, k) in claimed then db.actions[k].(status := Claimed, dueAt := now) else db.actions[k])
  }

  predicate StaleClaim(a: ScheduledAction, cutoff: Time) {
    a.status.Claimed? && a.processedAt.None? && a.dueAt < cutoff
  }

  function RecoverTimers(db: DB, cutoff: Time): DB {
    db.(actions := map k | k in db.actions ::
      if StaleClaim(db.actions[k], cutoff) then db.actions[k].(status := Waiting) else db.actions[k])
  }

  predicate CancelledBy(a: ScheduledAction, event: nat) {
    a.event == Some(event) && a.status.Waiting?
  }

  function CancelPending(db: DB, event: nat, now: Time): DB {
    db.(actions := map k | k in db.actions ::
      if CancelledBy(db.actions[k], event)
      then db.actions[k].(status := Cancelled, processedAt := Some(now)) else db.actions[k])
  }

  // ---- handlers ----

  predicate Actionable(db: DB, a: ScheduledAction) {
    && a.event.Some? && a.event.value in db.events
    && db.events[a.event.value].status.Firing? && db.events[a.event.value].acknowledgedAt.None?
  }

  /** The live channels of `cs`, in order. */
  function Live(db: DB, cs: seq<nat>): (r: seq<nat>)
    ensures forall c :: c in r <==> c in cs && c in db.channels && !db.channels[c].deleted
  {
    if cs == [] then []
    else (if cs[0] in db.channels && !db.channels[cs[0]].deleted then [cs[0]] else []) + Live(db, cs[1..])
  }

  /** The live channels of `cs` that may still be used: same team, or consenting to cross-team use. */
  function Allowed(db: DB, team: nat, cs: seq<nat>): (r: seq<nat>)
    ensures forall c :: c in r <==> c in cs && c in db.channels && !db.channels[c].deleted
                                    && (db.channels[c].team == team || db.channels[c].allowCrossTeam)
  {
    if cs == [] then []
    else
      var c := cs[0];
      (if c in db.channels && !db.channels[c].deleted && (db.channels[c].team == team || db.channels[c].allowCrossTeam)
       then [c] else []) + Allowed(db, team, cs[1..])
  }

  /** The channels a follow-up timer notifies: the rule's consenting escalation channels, or its own live ones. */
  function Recipients(db: DB, a: ScheduledAction): (r: seq<nat>)
    requires a.rule.Some? && a.rule.value in db.rules
    ensures forall c :: c in r ==> c in db.channels && !db.channels[c].deleted
  {
    var rule := db.rules[a.rule.value];
    if a.kind.Escalation? then Allowed(db, rule.team, rule.escalationChannels) else Live(db, rule.channels)
  }

  function TriggerFor(a: ScheduledAction, k: nat): Trigger {
    if a.kind.Escalation? then OnEscalation else OnRenotify(k)
  }

  /** Stage for every channel, or until the fault strikes. */
  function StageUnder(db: DB, event: nat, rule: nat, cs: seq<nat>, trigger: Trigger, note: Note, now: Time,
                      fault: Fault)
    : (DB, bool)
    requires forall c :: c in cs ==> c in db.channels
  {
    if fault.Early? then (db, false)
    else if fault.After? && fault.staged < |cs| then
      (StageAll(db, event, Some(rule), cs[..fault.staged], trigger, note, now).0, false)
    else StageAll(db, event, Some(rule), cs, trigger, note, now)
  }

  function DispatchEscalation(db: DB, a: ScheduledAction, note: Note, now: Time, fault: Fault): Outcome {
    if fault.Early? then Raised(db)
    else if !Actionable(db, a) then Skipped
    else if a.rule.None? || a.rule.value !in db.rules then Skipped
    else
      var rule := db.rules[a.rule.value];
      if !rule.enabled || !rule.escalationEnabled then Skipped
      else
        var cs := Allowed(db, rule.team, rule.escalationChannels);
        if cs == [] then Skipped
        else
          var (after, ok) := StageUnder(db, a.event.value, a.rule.value, cs, OnEscalation, note, now, fault);
          if ok then Completed(after) else Raised(after)
  }

  function ScheduleRenotify(db: DB, event: nat, rule: nat, now: Time): (DB, bool)
    requires rule in db.rules && db.rules[rule].renotifyInterval.Some?
  {
    EnsureFollowUp(db, Renotify, event, rule, now + db.rules[rule].renotifyInterval.value * MINUTE)
  }

  predicate Renotifies(rule: RoutingRule) {
    rule.renotifyInterval.Some? && rule.renotifyInterval.value != 0
  }

  function DispatchRenotify(db: DB, k: nat, a: ScheduledAction, note: Note, now: Time, fault: Fault): Outcome {
    if fault.Early? then Raised(db)
    else if !Actionable(db, a) then Skipped
    else if a.rule.None? || a.rule.value !in db.rules then Skipped
    else
      var rule := db.rules[a.rule.value];
      if !rule.enabled || !Renotifies(rule) then Skipped
      else
        var (staged, ok) :=
          StageUnder(db, a.event.value, a.rule.value, Live(db, rule.channels), OnRenotify(k), note, now, fault);
        if !ok then Raised(staged)
        else if fault.After? then Raised(staged)
        else
          var (after, scheduled) := ScheduleRenotify(staged, a.event.value, a.rule.value, now);
          if scheduled then Completed(after) else Raised(after)
  }

  predicate AwaitsFlush(row: OutboxRow, c: nat) {
    row.channel == c && row.status.Digested? && row.digestedInto.None?
  }

  function ParkedKeys(db: DB, c: nat): set<Key> {
    set r | r in db.outbox && AwaitsFlush(db.outbox[r], c) :: (db.outbox[r].createdAt, r)
  }

  function Ids(keys: seq<Key>): (r: seq<nat>)
    requires forall i :: 0 <= i < |keys| ==> keys[i].1 >= 0
  {
    seq(|keys|, i requires 0 <= i < |keys| => keys[i].1 as nat)
  }

  /** A channel's parked rows, oldest first. */
  function Parked(db: DB, c: nat): (r: seq<nat>)
    ensures forall id :: id in r <==> id in db.outbox && AwaitsFlush(db.outbox[id], c)
  {
    var keys := Ascending(ParkedKeys(db, c));
    assert forall i :: 0 <= i < |keys| ==> keys[i] in keys;
    var r := Ids(keys);
    ParkedMembers(db, c, r);
    r
  }

  lemma ParkedMembers(db: DB, c: nat, r: seq<nat>)
    requires var keys := Ascending(ParkedKeys(db, c));
             |r| == |keys| && forall i :: 0 <= i < |keys| ==> r[i] == keys[i].1
    ensures forall id :: id in r <==> id in db.outbox && AwaitsFlush(db.outbox[id], c)
  {
    var keys := Ascending(ParkedKeys(db, c));
    forall id | id in r ensures id in db.outbox && AwaitsFlush(db.outbox[id], c) {
      var i :| 0 <= i < |r| && r[i] == id;
      assert keys[i] in keys;
    }
    forall id | id in db.outbox && AwaitsFlush(db.outbox[id], c) ensures id in r {
      var key := (db.outbox[id].createdAt, id);
      assert key in ParkedKeys(db, c);
      assert key in keys;
      var i :| 0 <= i < |keys| && keys[i] == key;
      assert r[i] == id;
    }
  }

  /** No row is parked twice, and they come in order of creation. */
  lemma ParkedInOrder(db: DB, c: nat, i: nat, j: nat)
    requires i < j < |Parked(db, c)|
    ensures Parked(db, c)[i] != Parked(db, c)[j]
    ensures db.outbox[Parked(db, c)[i]].createdAt <= db.outbox[Parked(db, c)[j]].createdAt
  {
    var keys := Ascending(ParkedKeys(db, c));
    assert keys[i] in keys && keys[j] in keys;
    assert Before(keys[i], keys[j]);
  }

  function NoteOf(row: OutboxRow): Note {
    match row.payload case Single(note) => note case Batch(_, _, _) => ""
  }

  function Notes(db: DB, ids: seq<nat>): (r: seq<Note>)
    requires forall id :: id in ids ==> id in db.outbox
  {
    seq(|ids|, i requires 0 <= i < |ids| => NoteOf(db.outbox[ids[i]]))
  }

  function Aggregate(db: DB, c: nat, ids: seq<nat>, now: Time): OutboxRow
    requires ids != [] && forall id :: id in ids ==> id in db.outbox
  {
    OutboxRow(None, None, c, OnDigest, Batch(Notes(db, ids), |ids|, db.outbox[ids[0]].createdAt),
              Pending, 0, true, None, now, None, None, now, None)
  }

  function LinkAll(outbox: map<nat, OutboxRow>, ids: seq<nat>, aggregate: nat): map<nat, OutboxRow> {
    map r | r in outbox :: if r in ids then outbox[r].(digestedInto := Some(aggregate)) else outbox[r]
  }

  function DispatchFlush(db: DB, a: ScheduledAction, now: Time, fault: Fault): Outcome {
    if !fault.NoFault? then Raised(db)
    else if a.channel.None? || a.channel.value !in db.channels || db.channels[a.channel.value].deleted then Skipped
    else
      var c := a.channel.value;
      var parked := Parked(db, c);
      if parked == [] then Completed(db)
      else if |parked| == 1 then
        Completed(db.(outbox := db.outbox[parked[0] := db.outbox[parked[0]].(status := Pending)]))
      else
        var added := AddRow(db, Aggregate(db, c, parked, now));
        Completed(added.(outbox := LinkAll(added.outbox, parked, db.nextRow)))
  }

  function Handle(db: DB, k: nat, note: Note, now: Time, fault: Fault): Outcome
    requires k in db.actions
  {
    var a := db.actions[k];
    match a.kind
    case Escalation => DispatchEscalation(db, a, note, now, fault)
    case Renotify => DispatchRenotify(db, k, a, note, now, fault)
    case DigestFlush => DispatchFlush(db, a, now, fault)
    case UnknownKind => Completed(db)
  }

  function Settle(db: DB, k: nat, status: ActionStatus, now: Time): DB
    requires k in db.actions
  {
    db.(actions := db.actions[k := db.actions[k].(status := status, processedAt := Some(now))])
  }

  /** `Handle` never touches the timer being dispatched. */
  lemma HandleKeepsTimer(db: DB, k: nat, note: Note, now: Time, fault: Fault)
    requires FreshIds(db) && k in db.actions
    ensures var o := Handle(db, k, note, now, fault);
            o.Skipped? || (k in o.db.actions && o.db.actions[k] == db.actions[k])
  {
    hide StageAll, Allowed, Live, Parked, LinkAll, Aggregate;
    var a := db.actions[k];
    if a.kind.Escalation? || a.kind.Renotify? {
      if a.event.Some? && a.rule.Some? && a.rule.value in db.rules {
        var rule := db.rules[a.rule.value];
        var cs := if a.kind.Escalation? then Allowed(db, rule.team, rule.escalationChannels)
          else Live(db, rule.channels);
        var trigger := if a.kind.Escalation? then OnEscalation else OnRenotify(k);
        StageAllKeepsTimers(db, a.event.value, a.rule, cs, trigger, note, now);
        if fault.After? && fault.staged < |cs| {
          StageAllKeepsTimers(db, a.event.value, a.rule, cs[..fault.staged], trigger, note, now);
        }
      }
    }
  }

  ghost predicate ExtendsTimers(before: DB, after: DB) {
    && FreshIds(after)
    && before.nextAction <= after.nextAction && before.nextRow <= after.nextRow
    && (forall k :: k in before.actions ==> k in after.actions && after.actions[k] == before.actions[k])
  }

  lemma StageRowKeepsTimers(db: DB, event: nat, rule: Option<nat>, c: nat, trigger: Trigger, note: Note, now: Time)
    requires FreshIds(db) && c in db.channels
    ensures ExtendsTimers(db, StageRow(db, event, rule, c, trigger, note, now).0)
  {
  }

  lemma {:induction false} StageAllKeepsTimers(db: DB, event: nat, rule: Option<nat>, cs: seq<nat>, trigger: Trigger,
                                               note: Note, now: Time)
    requires FreshIds(db) && forall c :: c in cs ==> c in db.channels
    ensures ExtendsTimers(db, StageAll(db, event, rule, cs, trigger, note, now).0)
  {
    if cs != [] {
      var front := cs[..|cs| - 1];
      StageAllKeepsTimers(db, event, rule, front, trigger, note, now);
      var (before, ok) := StageAll(db, event, rule, front, trigger, note, now);
      if ok { StageRowKeepsTimers(before, event, rule, cs[|cs| - 1], trigger, note, now); }
    }
  }

  /** dispatch: settles the timer 'done' or 'cancelled', or puts it back with a later due time. */
  function DispatchTimer(db: DB, k: nat, note: Note, now: Time, fault: Fault): DB
    requires FreshIds(db) && k in db.actions
  {
    HandleKeepsTimer(db, k, note, now, fault);
    match Handle(db, k, note, now, fault)
    case Completed(after) => Settle(after, k, Done, now)
    case Skipped => Settle(db, k, Cancelled, now)
    case Raised(after) =>
      after.(actions := after.actions[k := after.actions[k].(status := Waiting, dueAt := now + RETRY_BACKOFF)])
  }
}
