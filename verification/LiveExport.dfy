/**
 The history export over the tables that ingest really writes: in every run a row is only ever received later, which
 is what keeps the stream from emitting it twice.
 */
module LiveExport {
  import opened Prelude
  import opened Model
  import opened Ingest
  import opened Heartbeat
  import X = HistoryExport

  /** Every row written at all was received at `now`; the others keep their time, and none goes away. */
  ghost predicate Stamps(b: Book, after: Book, now: Time) {
    && b.events.Keys <= after.events.Keys
    && (forall e :: e in after.events ==>
          || after.events[e].lastReceivedAt == now
          || (e in b.events && after.events[e].lastReceivedAt == b.events[e].lastReceivedAt))
  }

  ghost predicate ReceivedBy(b: Book, t: Time) {
    forall e :: e in b.events ==> b.events[e].lastReceivedAt <= t
  }

  /** No row goes away, and none is received earlier than it was. */
  ghost predicate OnlyLater(b: Book, after: Book) {
    forall e :: e in b.events ==> e in after.events && b.events[e].lastReceivedAt <= after.events[e].lastReceivedAt
  }

  // ---- one operation ----

  lemma RecordStamps(b: Book, dir: Directory, c: nat, a: Alert, startsAt: Time, now: Time)
    ensures Stamps(b, Record(b, dir, c, a, startsAt, now).0, now)
  {
    hide GetExisting, TeamOf, EndOf, Label, Alertname;
  }

  lemma {:induction false} ClosingStamps(b: Book, keys: seq<Key>, now: Time)
    ensures Stamps(b, CloseIncidents(b, keys, now), now)
  {
    if keys != [] { ClosingStamps(b, keys[..|keys| - 1], now); }
  }

  lemma IngestStamps(b: Book, dir: Directory, c: nat, a: Alert, now: Time)
    requires c in b.clusters
    ensures Stamps(b, IngestOne(b, dir, c, a, now).0, now)
  {
    hide Record, CloseIncidents, IsHeartbeat, Ascending, OpenIncidents;
    var beaten := PutCluster(b, c, b.clusters[c].(lastHeartbeatAt := Some(now), state := Healthy));
    ClosingStamps(beaten, Ascending(OpenIncidents(beaten, c)), now);
    if a.startsAt.At? { RecordStamps(b, dir, c, a, a.startsAt.time, now); }
  }

  lemma StampedIsLater(b: Book, after: Book, now: Time)
    requires Stamps(b, after, now) && ReceivedBy(b, now)
    ensures OnlyLater(b, after) && ReceivedBy(after, now)
  {
  }

  lemma LaterTransitive(a: Book, b: Book, c: Book)
    requires OnlyLater(a, b) && OnlyLater(b, c)
    ensures OnlyLater(a, c)
  {
  }

  /** A batch is worked through under one clock: each alert is read no earlier than the one before. */
  predicate InOrder(arrivals: seq<Arrival>, since: Time, at: Time) {
    && since <= at
    && (forall i :: 0 <= i < |arrivals| ==> since <= arrivals[i].at <= at)
    && (forall i, j :: 0 <= i < j < |arrivals| ==> arrivals[i].at <= arrivals[j].at)
  }

  lemma {:induction false} WebhookLater(b: Book, dir: Directory, c: nat, arrivals: seq<Arrival>, since: Time, at: Time)
    requires c in b.clusters && ReceivedBy(b, since) && InOrder(arrivals, since, at)
    ensures var after := IngestWebhook(b, dir, c, arrivals).0;
            OnlyLater(b, after) && ReceivedBy(after, if arrivals == [] then since else arrivals[|arrivals| - 1].at)
  {
    hide IngestOne;
    if arrivals != [] {
      var front, last := arrivals[..|arrivals| - 1], arrivals[|arrivals| - 1];
      WebhookLater(b, dir, c, front, since, at);
      var before := IngestWebhook(b, dir, c, front).0;
      IngestStamps(before, dir, c, last.alert, last.at);
      assert ReceivedBy(before, last.at);
      StampedIsLater(before, IngestOne(before, dir, c, last.alert, last.at).0, last.at);
      hide Stamps, ReceivedBy;
      LaterTransitive(b, before, IngestOne(before, dir, c, last.alert, last.at).0);
    }
  }

  /** A sweep's clock may lag behind, but the incident it opens is a new row. */
  lemma CheckLater(b: Book, dir: Directory, c: nat, now: Time, at: Time)
    requires Watched(b) && ReceivedBy(b, at) && now <= at
    ensures OnlyLater(b, CheckAndFlip(b, dir, c, now)) && ReceivedBy(CheckAndFlip(b, dir, c, now), at)
  {
    hide IngestOne, Incidents, BookOk, TimedOut, HeartbeatOrder, Agrees;
    if c in b.clusters && TimedOut(b.clusters[c], now) {
      FlipOpensOne(b, dir, c, now);
      NextIsUnused(b);
      var flipped := PutCluster(b, c, b.clusters[c].(state := Missing));
      IngestStamps(flipped, dir, c, SyntheticAlert(dir, c, flipped.clusters[c], now), now);
    }
  }

  lemma UpdateLater(b: Book, c: nat, p: Patch, now: Time)
    requires c in b.clusters && ReceivedBy(b, now)
    ensures OnlyLater(b, UpdateCluster(b, c, p, now)) && ReceivedBy(UpdateCluster(b, c, p, now), now)
  {
    hide CloseIncidents, Ascending, OpenIncidents;
    var put := PutCluster(b, c, ApplyPatch(b.clusters[c], p).(state := NeverSeen));
    var keys := Ascending(OpenIncidents(put, c));
    ClosingStamps(put, keys, now);
    StampedIsLater(put, CloseIncidents(put, keys, now), now);
  }

  // ---- runs ----

  /** The webhooks of a run are worked through under its clock. */
  ghost predicate ClockedWebhooks(acts: seq<Act>, times: seq<Time>)
    requires |times| == |acts| + 1
  {
    forall i :: 0 <= i < |acts| && acts[i].Webhook? ==> InOrder(acts[i].arrivals, times[i], times[i + 1])
  }

  lemma StepLater(b: Book, dir: Directory, act: Act, since: Time, at: Time)
    requires Watched(b) && ReceivedBy(b, since) && since <= at && Allowed(b, act, since, at)
    requires act.Webhook? ==> InOrder(act.arrivals, since, at)
    ensures OnlyLater(b, Perform(b, dir, act, at)) && ReceivedBy(Perform(b, dir, act, at), at)
  {
    hide Watched, IngestWebhook, CheckAndFlip, UpdateCluster, GenuineBatch;
    match act {
      case Webhook(c, arrivals) => WebhookLater(b, dir, c, arrivals, since, at);
      case Check(c, now) => CheckLater(b, dir, c, now, at);
      case Update(c, p) => UpdateLater(b, c, p, at);
      case Register(_, _) =>
    }
  }

  /** In every run a row's time of receipt never goes back, and the row never goes away. */
  lemma {:induction false} ReceiptOnlyMovesOn(dir: Directory, books: seq<Book>, acts: seq<Act>, times: seq<Time>,
                                              m: nat, n: nat)
    requires IsRun(dir, books, acts, times) && ClockedWebhooks(acts, times) && m <= n < |books|
    ensures OnlyLater(books[m], books[n]) && ReceivedBy(books[n], times[n])
  {
    hide Watched, AllBegunBy, Perform, Allowed, InOrder;
    if n > 0 {
      if m == n {
        ReceiptOnlyMovesOn(dir, books, acts, times, n - 1, n - 1);
      } else {
        ReceiptOnlyMovesOn(dir, books, acts, times, m, n - 1);
      }
      RunKeepsWatch(dir, books, acts, times, n - 1);
      StepLater(books[n - 1], dir, acts[n - 1], times[n - 1], times[n]);
      if m < n { LaterTransitive(books[m], books[n - 1], books[n]); }
    }
  }

  // ---- the export over such a run ----

  /** What the export sees of a book: when each row was last received, and whether it meets the request's conditions. */
  function Seen(b: Book, wanted: AlertEvent -> bool): X.Table {
    map e | e in b.events :: X.Row(b.events[e].lastReceivedAt, wanted(b.events[e]))
  }

  /** Page `p` is read in state `moment(p)` of the run, later pages no earlier. */
  ghost predicate ReadsForward(books: seq<Book>, moment: nat -> nat) {
    && (forall p: nat :: moment(p) < |books|)
    && (forall p: nat, q: nat :: p <= q ==> moment(p) <= moment(q))
  }

  /** What each page sees. */
  function Pages(books: seq<Book>, moment: nat -> nat, wanted: AlertEvent -> bool): nat -> X.Table {
    p => if moment(p) < |books| then Seen(books[moment(p)], wanted) else map[]
  }

  lemma PageIs(books: seq<Book>, moment: nat -> nat, wanted: AlertEvent -> bool, p: nat)
    requires moment(p) < |books|
    ensures Pages(books, moment, wanted)(p) == Seen(books[moment(p)], wanted)
  {
  }

  lemma SeenLater(a: Book, b: Book, wanted: AlertEvent -> bool, id: nat)
    requires OnlyLater(a, b) && id in Seen(a, wanted) && id in Seen(b, wanted)
    ensures Seen(a, wanted)[id].lastReceivedAt <= Seen(b, wanted)[id].lastReceivedAt
  {
  }

  lemma PagesOnlyLater(dir: Directory, books: seq<Book>, acts: seq<Act>, times: seq<Time>, moment: nat -> nat,
                       wanted: AlertEvent -> bool)
    requires IsRun(dir, books, acts, times) && ClockedWebhooks(acts, times) && ReadsForward(books, moment)
    ensures X.OnlyLater(Pages(books, moment, wanted))
  {
    var tables := Pages(books, moment, wanted);
    hide IsRun, ClockedWebhooks, Pages, Seen, OnlyLater;
    forall p: nat, q: nat, id | p <= q && id in tables(p) && id in tables(q)
      ensures tables(p)[id].lastReceivedAt <= tables(q)[id].lastReceivedAt
    {
      assert moment(p) <= moment(q) < |books|;
      ReceiptOnlyMovesOn(dir, books, acts, times, moment(p), moment(q));
      PageIs(books, moment, wanted, p);
      PageIs(books, moment, wanted, q);
      SeenLater(books[moment(p)], books[moment(q)], wanted, id);
    }
  }

  /**
   An export that runs beside webhooks, sweeps and settings changes, reading each page in some state of the run,
   never emits an alert twice, and never more than the cap.
   */
  lemma LiveExportNeverRepeats(dir: Directory, books: seq<Book>, acts: seq<Act>, times: seq<Time>, moment: nat -> nat,
                               wanted: AlertEvent -> bool, size: nat, cap: nat, i: nat, j: nat)
    requires IsRun(dir, books, acts, times) && ClockedWebhooks(acts, times) && ReadsForward(books, moment) && size >= 1
    requires i < j < |X.Emitted(Pages(books, moment, wanted), 0, None, size, cap)|
    ensures var out := X.Emitted(Pages(books, moment, wanted), 0, None, size, cap);
            out[i].1 != out[j].1 && |out| <= cap
  {
    hide IsRun, ClockedWebhooks, ReadsForward, X.Emitted, X.OnlyLater;
    PagesOnlyLater(dir, books, acts, times, moment, wanted);
    X.NoRowTwice(Pages(books, moment, wanted), size, cap, i, j);
  }
}
