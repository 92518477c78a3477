/** outbox.py: claiming, delivering, retrying and recovering queued rows. */
module Delivery {
  import opened Prelude
  import opened Model
  import opened Staging
  import opened Dispatch

  const MAX_ATTEMPTS: nat := 8
  const BASE_BACKOFF_SECONDS: nat := 30
  const MAX_BACKOFF_SECONDS: nat := 1800
  const JITTER_MAX_SECONDS: nat := 15

  /** What the outside world does to one delivery: the channel type, its stored configuration, the send itself. */
  datatype Attempt =
    | UnknownType
    | InvalidConfig
    | Fails(jitter: int)
    | Succeeds
    | Breaks

  function DueRows(db: DB, now: Time): set<Key> {
    set r | r in db.outbox && db.outbox[r].status.Pending? && db.outbox[r].nextAttemptAt <= now ::
      (db.outbox[r].nextAttemptAt, r)
  }

  function ClaimRows(db: DB, claimed: seq<Key>, worker: nat, now: Time): DB {
    db.(outbox := map r | r in db.outbox ::
      if (db.outbox[r].nextAttemptAt, r) in claimed
      then db.outbox[r].(status := InProgress, lockedBy := Some(worker), lockedAt := Some(now)) else db.outbox[r])
  }

  predicate StaleLease(row: OutboxRow, cutoff: Time) {
    row.status.InProgress? && row.lockedAt.Some? && row.lockedAt.value < cutoff
  }

  function RecoverLeases(db: DB, cutoff: Time): DB {
    db.(outbox := map r | r in db.outbox ::
      if StaleLease(db.outbox[r], cutoff)
      then db.outbox[r].(status := Pending, lockedBy := None, lockedAt := None) else db.outbox[r])
  }

  function Pow2(n: nat): nat {
    if n == 0 then 1 else 2 * Pow2(n - 1)
  }

  /** The wait before retrying a row that has failed `attempts` times, jitter aside. */
  function Backoff(attempts: nat): int {
    var seconds := BASE_BACKOFF_SECONDS * Pow2(attempts);
    (if seconds < MAX_BACKOFF_SECONDS then seconds else MAX_BACKOFF_SECONDS) * SECOND
  }

  function MarkDead(row: OutboxRow): OutboxRow {
    row.(status := Dead, lockedBy := None, lockedAt := None)
  }

  function MarkFailure(row: OutboxRow, now: Time, jitter: int): OutboxRow {
    var failed := row.(attempts := row.attempts + 1, lockedBy := None, lockedAt := None);
    if failed.attempts >= MAX_ATTEMPTS then failed.(status := Dead)
    else failed.(status := Pending, nextAttemptAt := now + Backoff(failed.attempts) + jitter)
  }

  function MarkDelivered(row: OutboxRow, now: Time): OutboxRow {
    row.(status := Delivered, deliveredAt := Some(now), lockedBy := None, lockedAt := None)
  }

  predicate Usable(db: DB, c: nat) {
    c in db.channels && !db.channels[c].deleted && db.channels[c].enabled
  }

  function PutRow(db: DB, r: nat, row: OutboxRow): DB {
    db.(outbox := db.outbox[r := row])
  }

  /** A delivered firing row whose rule re-notifies starts, or keeps, that rule's renotify timer. */
  predicate StartsRenotify(db: DB, row: OutboxRow) {
    row.trigger.OnFiring? && row.event.Some? && row.rule.Some? && row.rule.value in db.rules
    && Renotifies(db.rules[row.rule.value])
  }

  /** deliver: the row's status is not re-checked, so a worker that lost its lease still writes. */
  function Deliver(db: DB, r: nat, attempt: Attempt, now: Time): DB
    requires r in db.outbox
  {
    var row := db.outbox[r];
    if !Usable(db, row.channel) || attempt.UnknownType? || attempt.InvalidConfig? then PutRow(db, r, MarkDead(row))
    else if attempt.Breaks? then db
    else if attempt.Fails? then PutRow(db, r, MarkFailure(row, now, attempt.jitter))
    else
      var delivered := PutRow(db, r, MarkDelivered(row, now));
      if !StartsRenotify(db, row) then delivered
      else
        var (scheduled, ok) := ScheduleRenotify(delivered, row.event.value, row.rule.value, now);
        if ok then scheduled else db
  }

  /** A successful firing delivery whose renotify lookup meets two waiting timers where it tolerates one. */
  predicate LookupRaises(db: DB, row: OutboxRow) {
    StartsRenotify(db, row) && |WaitingFollowUps(db, Renotify, row.event.value, row.rule.value)| >= 2
  }

  lemma RowsAreNoTimers(db: DB, r: nat, row: OutboxRow, event: nat, rule: nat)
    ensures WaitingFollowUps(PutRow(db, r, row), Renotify, event, rule) == WaitingFollowUps(db, Renotify, event, rule)
  {
  }
}
