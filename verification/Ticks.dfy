/** One poll of the outbox worker and one of the scheduler: claim a batch, then work through it row by row. */
module Ticks {
  import opened Prelude
  import opened Model
  import opened Staging
  import opened Dispatch
  import opened Delivery
  import opened Invariants
  import opened Runs
  import opened OneTimer
  import opened Retries
  import Traps
  import Carriers

  /** What the outside world does to each delivery of a batch: how it goes, and what the clock says by then. */
  datatype Mail = Mail(attempt: nat -> Attempt, clock: nat -> Time)

  /** Deliver the listed rows in turn; one that is gone by then is passed over. */
  function DeliverEach(db: DB, keys: seq<Key>, mail: Mail): DB {
    if keys == [] then db
    else
      var before := DeliverEach(db, keys[..|keys| - 1], mail);
      var r := keys[|keys| - 1].1;
      if r < 0 || r !in before.outbox then before else Deliver(before, r, mail.attempt(r), mail.clock(r))
  }

  /** What the outside world does to each dispatch of a batch: the text it stages, where it fails, and when it runs. */
  datatype World = World(note: nat -> Note, fault: nat -> Fault, clock: nat -> Time)

  function DispatchEach(db: DB, keys: seq<Key>, world: World): (after: DB)
    requires Inv(db)
    ensures Inv(after)
  {
    if keys == [] then db
    else
      var before := DispatchEach(db, keys[..|keys| - 1], world);
      var k := keys[|keys| - 1].1;
      InvIds(before);
      if k < 0 || k !in before.actions then before
      else
        DispatchKeeps(before, k, world.note(k), world.clock(k), world.fault(k));
        DispatchTimer(before, k, world.note(k), world.clock(k), world.fault(k))
  }

  /** None of the listed rows is parked: once out of that state a row never returns to it. */
  ghost predicate NoneParked(db: DB, keys: seq<Key>) {
    forall key :: key in keys ==> key.1 >= 0 && key.1 in db.outbox && !db.outbox[key.1].status.Digested?
  }

  lemma {:induction false} DeliverEachKeeps(db: DB, keys: seq<Key>, mail: Mail)
    requires Inv(db) && NoneParked(db, keys)
    ensures Inv(DeliverEach(db, keys, mail)) && Carriers.Aged(db, DeliverEach(db, keys, mail))
  {
    hide Inv, Deliver, Carriers.Aged;
    if keys == [] {
      Carriers.AgedReflexive(db);
    } else {
      var front, r := keys[..|keys| - 1], keys[|keys| - 1].1;
      assert keys[|keys| - 1] in keys && forall key :: key in front ==> key in keys;
      DeliverEachKeeps(db, front, mail);
      var before := DeliverEach(db, front, mail);
      InvIds(db);
      InvIds(before);
      if r >= 0 && r in before.outbox {
        assert !before.outbox[r].status.Digested? by { LeftParkedForGood(db, before, keys, keys[|keys| - 1]); }
        DeliverKeeps(before, r, mail.attempt(r), mail.clock(r));
        Carriers.DeliverAges(before, r, mail.attempt(r), mail.clock(r));
        Carriers.AgedTransitive(db, before, Deliver(before, r, mail.attempt(r), mail.clock(r)));
      }
    }
  }

  lemma LeftParkedForGood(db: DB, after: DB, keys: seq<Key>, key: Key)
    requires NoneParked(db, keys) && Carriers.Aged(db, after) && FreshIds(db)
    requires key in keys && key.1 >= 0 && key.1 in after.outbox
    ensures !after.outbox[key.1].status.Digested?
  {
  }

  /** Claimed rows were waiting for delivery, so none is parked. */
  lemma ClaimedAreNotParked(db: DB, worker: nat, limit: nat, now: Time)
    ensures var keys := Take(Ascending(DueRows(db, now)), limit);
            NoneParked(ClaimRows(db, keys, worker, now), keys)
  {
    var keys := Take(Ascending(DueRows(db, now)), limit);
    hide Ascending;
    TakenAreDue(DueRows(db, now), limit);
    forall key | key in keys ensures key.1 >= 0 && key.1 in db.outbox && !db.outbox[key.1].status.Digested? {
      assert key in DueRows(db, now);
    }
  }

  /**
   Delivery resolves a row in progress, with two exceptions: a failure outside the handler's own catch, and a
   successful send whose renotify lookup raises. Then, and only then, the row is still in progress afterwards.
   */
  lemma DeliveryResolvesUnless(db: DB, r: nat, attempt: Attempt, now: Time)
    requires r in db.outbox && db.outbox[r].status.InProgress?
    ensures Deliver(db, r, attempt, now).outbox[r].status.InProgress?
            <==> Usable(db, db.outbox[r].channel) && (attempt.Breaks?
                                                      || (attempt.Succeeds? && LookupRaises(db, db.outbox[r])))
    ensures Deliver(db, r, attempt, now).outbox[r].status.InProgress? ==> Deliver(db, r, attempt, now) == db
    ensures !Deliver(db, r, attempt, now).outbox[r].status.InProgress? ==>
              Deliver(db, r, attempt, now).outbox[r].lockedBy.None?
                && Deliver(db, r, attempt, now).outbox[r].lockedAt.None?
  {
    hide Backoff, Usable, WaitingFollowUps, EnsureFollowUp;
    var row := db.outbox[r];
    if StartsRenotify(db, row) {
      var delivered := PutRow(db, r, MarkDelivered(row, now));
      RowsAreNoTimers(db, r, MarkDelivered(row, now), row.event.value, row.rule.value);
      EnsureRaises(delivered, Renotify, row.event.value, row.rule.value);
    }
  }

  /** Dispatch never leaves the timer it was given claimed, and leaves it waiting exactly when it raises. */
  lemma DispatchNeverLeavesClaimed(db: DB, k: nat, note: Note, now: Time, fault: Fault)
    requires FreshIds(db) && k in db.actions
    ensures var after := DispatchTimer(db, k, note, now, fault);
            && k in after.actions && !after.actions[k].status.Claimed?
            && (after.actions[k].status.Waiting? <==> Raises(db, k, now, fault))
            && (Raises(db, k, now, fault) ==> after.actions[k].dueAt == now + RETRY_BACKOFF)
  {
    hide Handle, Raises;
    HandleKeepsTimer(db, k, note, now, fault);
    RaisesExactlyWhen(db, k, note, now, fault);
  }

  // ---- one poll is a stretch of the worker's loop ----

  /** The rows of the batch from position `i` on. */
  function Owed(keys: seq<Key>, i: nat): Hands
    requires i <= |keys| && forall key :: key in keys ==> key.1 >= 0
  {
    set j | i <= j < |keys| :: keys[j].1 as nat
  }

  /** A batch lists each row once. */
  predicate EachOnce(keys: seq<Key>) {
    && (forall key :: key in keys ==> key.1 >= 0)
    && (forall i, j :: 0 <= i < j < |keys| ==> keys[i].1 != keys[j].1)
  }

  lemma BatchListsEachOnce(db: DB, limit: nat, now: Time)
    ensures EachOnce(Take(Ascending(DueRows(db, now)), limit))
  {
    hide Ascending, Take;
    var keys := Take(Ascending(DueRows(db, now)), limit);
    TakenAreDue(DueRows(db, now), limit);
    forall i, j | 0 <= i < j < |keys| ensures keys[i].1 != keys[j].1 {
      assert keys[i] in keys && keys[j] in keys && Before(keys[i], keys[j]);
    }
  }

  /** The clock of a batch: not before the claim, and never back. */
  predicate ClockRuns(keys: seq<Key>, mail: Mail, now: Time) {
    && (forall i :: 0 <= i < |keys| ==> keys[i].1 >= 0 && now <= mail.clock(keys[i].1))
    && (forall i, j :: 0 <= i < j < |keys| ==>
          keys[i].1 >= 0 && keys[j].1 >= 0 && mail.clock(keys[i].1) <= mail.clock(keys[j].1))
  }

  lemma {:induction false} DeliverEachKeepsIds(db: DB, keys: seq<Key>, mail: Mail)
    ensures DeliverEach(db, keys, mail).outbox.Keys == db.outbox.Keys
  {
    if keys != [] {
      DeliverEachKeepsIds(db, keys[..|keys| - 1], mail);
      var before, r := DeliverEach(db, keys[..|keys| - 1], mail), keys[|keys| - 1].1;
      hide Deliver;
      if r >= 0 && r in before.outbox { Carriers.DeliverKeepsIds(before, r, mail.attempt(r), mail.clock(r)); }
    }
  }

  lemma WorkersRunExtends(dbs: seq<DB>, steps: seq<Timed>, hands: seq<Hands>, s: Step, now: Time, after: DB,
                          left: Hands)
    returns (more: seq<DB>, longer: seq<Timed>, held: seq<Hands>)
    requires WorkerRun(dbs, steps, hands) && Traps.Follows(dbs[|dbs| - 1], s, now, after)
    requires (steps == [] || steps[|steps| - 1].at <= now)
    requires Works(dbs[|dbs| - 1], s, after, hands[|hands| - 1], left)
    ensures WorkerRun(more, longer, held)
    ensures more == dbs + [after] && longer == steps + [Timed(s, now)] && held == hands + [left]
  {
    hide Inv, Apply, Enabled, FreshIds, Works, Life, Traps.Follows;
    more, longer := Traps.Then(dbs, steps, s, now, after);
    held := hands + [left];
  }

  lemma ClaimFillsHands(db: DB, worker: nat, limit: nat, now: Time)
    requires FreshIds(db)
    ensures var keys := Take(Ascending(DueRows(db, now)), limit);
            EachOnce(keys) && Works(db, ClaimDueRows(worker, limit), ClaimRows(db, keys, worker, now), {},
                                    Owed(keys, 0))
  {
    var keys := Take(Ascending(DueRows(db, now)), limit);
    hide Ascending, Take;
    BatchListsEachOnce(db, limit, now);
    TakenAreDue(DueRows(db, now), limit);
    forall r | r in Owed(keys, 0)
      ensures ClaimedNow(db, ClaimDueRows(worker, limit), ClaimRows(db, keys, worker, now), r)
    {
      var j :| 0 <= j < |keys| && keys[j].1 == r;
      assert keys[j] in keys && keys[j] in DueRows(db, now);
    }
  }

  lemma OwedShrinks(keys: seq<Key>, i: nat)
    requires EachOnce(keys) && i < |keys|
    ensures keys[i] in keys && keys[i].1 as nat in Owed(keys, i)
            && Owed(keys, i + 1) <= Owed(keys, i) - {keys[i].1 as nat}
  {
    assert keys[i] in keys;
  }

  /** One row of the batch: where it stands in the run, and that delivering it is a step of the worker's loop. */
  lemma DeliveryIsWork(leased: DB, keys: seq<Key>, i: nat, mail: Mail)
    requires Inv(leased) && NoneParked(leased, keys) && EachOnce(keys) && i < |keys|
    ensures keys[i] in keys && keys[i].1 >= 0
    ensures var r: nat, before := keys[i].1, DeliverEach(leased, keys[..i], mail);
            var after := DeliverEach(leased, keys[..i + 1], mail);
            && Traps.Follows(before, DeliverOne(r, mail.attempt(r)), mail.clock(r), after)
            && Works(before, DeliverOne(r, mail.attempt(r)), after, Owed(keys, i), Owed(keys, i + 1))
  {
    hide Inv, Deliver, DeliverEach, Carriers.Aged, NoneParked, Owed;
    OwedShrinks(keys, i);
    var r: nat, before := keys[i].1, DeliverEach(leased, keys[..i], mail);
    PrefixIsUnparked(leased, keys, i);
    DeliverEachKeeps(leased, keys[..i], mail);
    DeliverEachKeepsIds(leased, keys[..i], mail);
    DeliverEachUnfolds(leased, keys, i, mail);
    InvIds(leased);
    InvIds(before);
    StillThere(leased, before, keys, keys[i]);
  }

  lemma PrefixIsUnparked(db: DB, keys: seq<Key>, i: nat)
    requires NoneParked(db, keys) && i <= |keys|
    ensures NoneParked(db, keys[..i])
  {
    assert forall key :: key in keys[..i] ==> key in keys;
  }

  lemma StillThere(db: DB, after: DB, keys: seq<Key>, key: Key)
    requires NoneParked(db, keys) && Carriers.Aged(db, after) && FreshIds(db) && key in keys
    requires after.outbox.Keys == db.outbox.Keys
    ensures key.1 >= 0 && key.1 in after.outbox && !after.outbox[key.1].status.Digested?
  {
    assert key.1 in db.outbox.Keys;
  }

  lemma IdleWorker(db: DB)
    requires Inv(db) && Life(db)
    ensures FreshIds(db) && WorkerRun([db], [], [{}])
  {
    InvIds(db);
    hide Inv, Life;
  }

  lemma ClaimFollows(db: DB, worker: nat, limit: nat, now: Time)
    requires FreshIds(db)
    ensures Traps.Follows(db, ClaimDueRows(worker, limit), now,
                          ClaimRows(db, Take(Ascending(DueRows(db, now)), limit), worker, now))
  {
    hide FreshIds, ClaimRows, Ascending, Take, DueRows;
  }

  lemma ClaimIsWork(db: DB, worker: nat, limit: nat, now: Time)
    returns (dbs: seq<DB>, steps: seq<Timed>, hands: seq<Hands>)
    requires Inv(db) && Life(db)
    ensures var keys := Take(Ascending(DueRows(db, now)), limit);
            && EachOnce(keys) && Inv(ClaimRows(db, keys, worker, now))
            && NoneParked(ClaimRows(db, keys, worker, now), keys)
            && WorkerRun(dbs, steps, hands) && dbs == [db, ClaimRows(db, keys, worker, now)]
            && steps == [Timed(ClaimDueRows(worker, limit), now)] && hands == [{}, Owed(keys, 0)]
  {
    var keys := Take(Ascending(DueRows(db, now)), limit);
    var leased := ClaimRows(db, keys, worker, now);
    hide Inv, Life, Ascending, Take, ClaimRows, Works, FreshIds, WorkerRun, Traps.Follows, Owed, EachOnce, NoneParked;
    IdleWorker(db);
    ClaimFollows(db, worker, limit, now);
    ClaimFillsHands(db, worker, limit, now);
    ClaimedAreNotParked(db, worker, limit, now);
    TakenAreDue(DueRows(db, now), limit);
    ClaimRowsKeeps(db, keys, worker, now);
    dbs, steps, hands := WorkersRunExtends([db], [], [{}], ClaimDueRows(worker, limit), now, leased, Owed(keys, 0));
  }

  /** Where a poll stands after `i` deliveries. */
  ghost predicate Stands(start: DB, leased: DB, keys: seq<Key>, i: nat, mail: Mail, now: Time,
                         dbs: seq<DB>, steps: seq<Timed>, hands: seq<Hands>)
    requires EachOnce(keys)
  {
    && WorkerRun(dbs, steps, hands) && i <= |keys| && |dbs| == |hands| == i + 2 && |steps| == i + 1 && dbs[0] == start
    && dbs[i + 1] == DeliverEach(leased, keys[..i], mail) && hands[i + 1] == Owed(keys, i)
    && (i > 0 ==> keys[i - 1].1 >= 0) && steps[i].at == if i == 0 then now else mail.clock(keys[i - 1].1)
  }

  lemma OneMoreDelivery(start: DB, leased: DB, keys: seq<Key>, i: nat, mail: Mail, now: Time,
                        dbs: seq<DB>, steps: seq<Timed>, hands: seq<Hands>)
    returns (more: seq<DB>, longer: seq<Timed>, held: seq<Hands>)
    requires Inv(leased) && NoneParked(leased, keys) && EachOnce(keys) && ClockRuns(keys, mail, now) && i < |keys|
    requires Stands(start, leased, keys, i, mail, now, dbs, steps, hands)
    ensures Stands(start, leased, keys, i + 1, mail, now, more, longer, held)
  {
    hide Inv, NoneParked, Owed, DeliverEach, WorkerRun, Works, Traps.Follows;
    DeliveryIsWork(leased, keys, i, mail);
    var r: nat := keys[i].1;
    more, longer, held := WorkersRunExtends(dbs, steps, hands, DeliverOne(r, mail.attempt(r)), mail.clock(r),
                                            DeliverEach(leased, keys[..i + 1], mail), Owed(keys, i + 1));
  }

  /**
   One poll, as the loop performs it, is a run of single steps in the worker's discipline, from empty hands to empty
   hands, under any clock that does not go back.
   */
  lemma PollIsWork(db: DB, worker: nat, limit: nat, mail: Mail, now: Time)
    returns (dbs: seq<DB>, steps: seq<Timed>, hands: seq<Hands>)
    requires Inv(db) && Life(db)
    requires ClockRuns(Take(Ascending(DueRows(db, now)), limit), mail, now)
    ensures var keys := Take(Ascending(DueRows(db, now)), limit);
            && WorkerRun(dbs, steps, hands) && |dbs| == |hands| == |keys| + 2 && dbs[0] == db && hands[|keys| + 1] == {}
            && dbs[|keys| + 1] == DeliverEach(ClaimRows(db, keys, worker, now), keys, mail)
  {
    hide Inv, Life, Ascending, Take, DueRows, ClaimRows, WorkerRun, DeliverEach, NoneParked, ClockRuns;
    var keys := Take(Ascending(DueRows(db, now)), limit);
    var leased := ClaimRows(db, keys, worker, now);
    dbs, steps, hands := ClaimIsWork(db, worker, limit, now);
    DeliverNone(leased, mail);
    assert keys[..0] == [];
    for i := 0 to |keys|
      invariant Stands(db, leased, keys, i, mail, now, dbs, steps, hands)
    {
      dbs, steps, hands := OneMoreDelivery(db, leased, keys, i, mail, now, dbs, steps, hands);
    }
    assert keys[..|keys|] == keys;
  }

  // ---- what the loops need ----

  lemma DeliverNone(db: DB, mail: Mail)
    ensures DeliverEach(db, [], mail) == db
  {
  }

  lemma DeliverEachUnfolds(db: DB, keys: seq<Key>, i: nat, mail: Mail)
    requires i < |keys|
    ensures var before, r := DeliverEach(db, keys[..i], mail), keys[i].1;
            DeliverEach(db, keys[..i + 1], mail)
            == if r < 0 || r !in before.outbox then before else Deliver(before, r, mail.attempt(r), mail.clock(r))
  {
    hide Deliver;
    assert keys[..i + 1][..i] == keys[..i];
  }

  lemma DispatchNone(db: DB, world: World)
    requires Inv(db)
    ensures DispatchEach(db, [], world) == db
  {
  }

  lemma DispatchEachUnfolds(db: DB, keys: seq<Key>, i: nat, world: World)
    requires Inv(db) && i < |keys|
    ensures var before, k := DispatchEach(db, keys[..i], world), keys[i].1;
            && FreshIds(before)
            && DispatchEach(db, keys[..i + 1], world)
               == if k < 0 || k !in before.actions then before
                 else DispatchTimer(before, k, world.note(k), world.clock(k), world.fault(k))
  {
    hide DispatchTimer, Handle, Inv;
    InvIds(DispatchEach(db, keys[..i], world));
    assert keys[..i + 1][..i] == keys[..i];
  }
}
