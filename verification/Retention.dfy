/** retention.py: what each purge may remove, a batch at a time or in one go. */
module Retention {
  import opened Prelude
  import opened Model

  predicate Settled(row: OutboxRow) {
    row.status.Delivered? || row.status.Dead?
  }

  predicate OutboxExpired(row: OutboxRow, cutoff: Time) {
    Settled(row) && row.createdAt < cutoff
  }

  function ExpiredRows(db: DB, cutoff: Time): set<nat> {
    set r | r in db.outbox && OutboxExpired(db.outbox[r], cutoff)
  }

  predicate TimerExpired(a: ScheduledAction, cutoff: Time) {
    (a.status.Done? || a.status.Cancelled?) && a.processedAt.Some? && a.processedAt.value < cutoff
  }

  function ExpiredTimers(db: DB, cutoff: Time): set<nat> {
    set k | k in db.actions && TimerExpired(db.actions[k], cutoff)
  }

  /** Resolved events age out; test events age out on their own clock whatever their status. */
  predicate EventExpired(e: AlertEvent, resolvedCutoff: Time, testCutoff: Time) {
    if e.isTest then e.lastReceivedAt < testCutoff
    else e.status.Resolved? && e.lastReceivedAt < resolvedCutoff
  }

  function ExpiredEvents(db: DB, resolvedCutoff: Time, testCutoff: Time): set<nat> {
    set e | e in db.events && EventExpired(db.events[e], resolvedCutoff, testCutoff)
  }

  predicate LinkedInto(row: OutboxRow, ids: set<nat>) {
    row.digestedInto.Some? && row.digestedInto.value in ids
  }

  predicate AboutEvent(row: OutboxRow, ids: set<nat>) {
    row.event.Some? && row.event.value in ids
  }

  function ChildRows(db: DB, ids: set<nat>): set<nat> {
    set r | r in db.outbox && LinkedInto(db.outbox[r], ids)
  }

  function RowsAbout(db: DB, ids: set<nat>): set<nat> {
    set r | r in db.outbox && AboutEvent(db.outbox[r], ids)
  }

  /** DELETE of some rows, with the ON DELETE SET NULL of the rows that pointed at them. */
  function DeleteRows(db: DB, ids: set<nat>): DB {
    db.(outbox := map r | r in db.outbox && r !in ids ::
      if LinkedInto(db.outbox[r], ids) then db.outbox[r].(digestedInto := None) else db.outbox[r])
  }

  function DeleteTimers(db: DB, ids: set<nat>): DB {
    db.(actions := map k | k in db.actions && k !in ids :: db.actions[k])
  }

  /** DELETE of some events; their timers go with them (ON DELETE CASCADE). */
  function DeleteEvents(db: DB, ids: set<nat>): DB {
    db.(events := map e | e in db.events && e !in ids :: db.events[e],
        actions := map k | k in db.actions && !(db.actions[k].event.Some? && db.actions[k].event.value in ids) ::
          db.actions[k])
  }

  /** One batch of the outbox purge: the aggregates' children first, then the rows themselves. */
  function PurgeRows(db: DB, ids: set<nat>): DB {
    DeleteRows(DeleteRows(db, ChildRows(db, ids)), ids)
  }

  /** One batch of the event purge: the events' own outbox rows first. */
  function PurgeEvents(db: DB, ids: set<nat>): DB {
    DeleteEvents(DeleteRows(db, RowsAbout(db, ids)), ids)
  }
}
