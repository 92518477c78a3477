/** ingest.py: Alertmanager deliveries folded into alert event rows. */
module Ingest {
  import opened Prelude
  import opened Model
  import opened Text
  import M = Matching

  const HEARTBEAT_LOST_ALERTNAME: string := "KamClusterHeartbeatLost"

  function HeartbeatLostFingerprint(c: nat): string {
    "hb-" + Decimal(c)
  }

  datatype HeartbeatState = NeverSeen | Healthy | Missing

  datatype Cluster = Cluster(
    name: string,
    enabled: bool,
    heartbeatEnabled: bool,
    heartbeatAlertname: string,
    timeoutSeconds: nat,
    team: Option<nat>,
    state: HeartbeatState,
    lastHeartbeatAt: Option<Time>)

  /** An optional timestamp as delivered; the zero time counts as absent. */
  datatype Stamp = Absent | Malformed | At(time: Time)

  datatype Alert = Alert(
    status: AlertStatus,
    labels: map<string, string>,
    annotations: map<string, string>,
    startsAt: Stamp,
    endsAt: Stamp,
    fingerprint: string)

  /** One alert of a webhook batch and the instant it is processed at. */
  datatype Arrival = Arrival(alert: Alert, at: Time)

  datatype Kind = Created | Resolution | Reopened

  /** One call of the transition hook: the row, and what happened to it. */
  datatype Transition = Transition(kind: Kind, event: nat)

  /** What one delivered alert is counted as. */
  datatype Tally = NewFiring | NewResolved | NowResolved | NowReopened | Repeat | Heartbeat | Skipped

  datatype Counters = Counters(
    received: nat, created: nat, createdResolved: nat, resolved: nat, reopened: nat, repeats: nat,
    heartbeatsSeen: nat, skipped: nat)

  /** Teams by slug and back. */
  datatype Directory = Directory(find: string -> Option<nat>, slug: nat -> Option<string>)

  /** The rows ingest works on, and every transition it has ever announced. */
  datatype Book = Book(events: map<nat, AlertEvent>, clusters: map<nat, Cluster>, nextEvent: nat, log: seq<Transition>)

  type Identity = (nat, string, Time)

  function IdentityOf(e: AlertEvent): Identity {
    (e.cluster, e.fingerprint, e.startsAt)
  }

  /** The rows of an identity; the unique key allows one. */
  function RowsOf(b: Book, id: Identity): set<Key> {
    set e | e in b.events && IdentityOf(b.events[e]) == id :: (0, e)
  }

  function GetExisting(b: Book, id: Identity): (r: Option<nat>)
    ensures r.Some? ==> r.value in b.events && IdentityOf(b.events[r.value]) == id
    ensures r.None? ==> forall e :: e in b.events ==> IdentityOf(b.events[e]) != id
  {
    var rows := RowsOf(b, id);
    assert forall e :: e in b.events && IdentityOf(b.events[e]) == id ==> (0, e) in rows;
    if rows == {} then None else Some(Least(rows).1)
  }

  // ---- one row at a time ----

  function Label(labels: map<string, string>, key: string): Option<string> {
    if key in labels && labels[key] != "" then Some(labels[key]) else None
  }

  function Alertname(a: Alert): string {
    if "alertname" in a.labels then a.labels["alertname"] else ""
  }

  function TeamOf(dir: Directory, a: Alert): Option<nat> {
    match Label(a.labels, "kam_team") case None => None case Some(slug) => dir.find(slug)
  }

  function EndOf(a: Alert): Option<Time> {
    if a.endsAt.At? then Some(a.endsAt.time) else None
  }

  function NewRow(dir: Directory, c: nat, a: Alert, startsAt: Time, now: Time): AlertEvent {
    var severity := Label(a.labels, "severity");
    AlertEvent(
      c, a.fingerprint, startsAt, a.status, if a.status.Resolved? then EndOf(a) else None, Alertname(a),
      if severity.Some? then Some(M.Lower(severity.value)) else None, Label(a.labels, "namespace"),
      a.labels, a.annotations, TeamOf(dir, a), now, now, 1, None, None, false)
  }

  function PutEvent(b: Book, e: nat, row: AlertEvent): Book {
    b.(events := b.events[e := row])
  }

  function Announce(b: Book, kind: Kind, e: nat): Book {
    b.(log := b.log + [Transition(kind, e)])
  }

  function InsertEvent(b: Book, row: AlertEvent): Book {
    PutEvent(b, b.nextEvent, row).(nextEvent := b.nextEvent + 1)
  }

  function Redeliver(row: AlertEvent, now: Time): AlertEvent {
    row.(lastReceivedAt := now, receiveCount := row.receiveCount + 1)
  }

  /** An alert that carries a usable identity: a new row, a change of status, or a repeat. */
  function Record(b: Book, dir: Directory, c: nat, a: Alert, startsAt: Time, now: Time): (Book, Tally) {
    match GetExisting(b, (c, a.fingerprint, startsAt))
    case None =>
      var added := InsertEvent(b, NewRow(dir, c, a, startsAt, now));
      if a.status.Firing? then (Announce(added, Created, b.nextEvent), NewFiring) else (added, NewResolved)
    case Some(e) =>
      var row := Redeliver(b.events[e], now);
      if a.status.Resolved? && row.status.Firing? then
        (Announce(PutEvent(b, e, row.(status := Resolved, endsAt := EndOf(a))), Resolution, e), NowResolved)
      else if a.status.Firing? && row.status.Resolved? then
        (Announce(PutEvent(b, e, row.(status := Firing, endsAt := None)), Reopened, e), NowReopened)
      else (PutEvent(b, e, row), Repeat)
  }

  // ---- heartbeats ----

  predicate IsIncident(e: AlertEvent, c: nat) {
    e.cluster == c && e.fingerprint == HeartbeatLostFingerprint(c)
  }

  function OpenIncidents(b: Book, c: nat): set<Key> {
    set e | e in b.events && IsIncident(b.events[e], c) && b.events[e].status.Firing? :: (0, e)
  }

  function CloseIncident(b: Book, e: nat, now: Time): Book
    requires e in b.events
  {
    Announce(PutEvent(b, e, Redeliver(b.events[e], now).(status := Resolved, endsAt := Some(now))), Resolution, e)
  }

  function CloseIncidents(b: Book, keys: seq<Key>, now: Time): Book {
    if keys == [] then b
    else
      var before := CloseIncidents(b, keys[..|keys| - 1], now);
      var e := keys[|keys| - 1].1;
      if e >= 0 && e in before.events then CloseIncident(before, e, now) else before
  }

  /** resolve_heartbeat_lost_event */
  function ResolveHeartbeatLost(b: Book, c: nat, now: Time): Book {
    CloseIncidents(b, Ascending(OpenIncidents(b, c)), now)
  }

  function PutCluster(b: Book, c: nat, cluster: Cluster): Book {
    b.(clusters := b.clusters[c := cluster])
  }

  predicate IsHeartbeat(cluster: Cluster, a: Alert) {
    cluster.heartbeatEnabled && Alertname(a) == cluster.heartbeatAlertname
  }

  /** _ingest_one */
  function IngestOne(b: Book, dir: Directory, c: nat, a: Alert, now: Time): (Book, Tally)
    requires c in b.clusters
  {
    var cluster := b.clusters[c];
    if IsHeartbeat(cluster, a) then
      var beaten := PutCluster(b, c, cluster.(lastHeartbeatAt := Some(now), state := Healthy));
      (if cluster.state.Missing? then ResolveHeartbeatLost(beaten, c, now) else beaten, Heartbeat)
    else if !a.startsAt.At? then (b, Skipped)
    else Record(b, dir, c, a, a.startsAt.time, now)
  }

  function Count(k: Counters, t: Tally): Counters {
    match t
    case NewFiring => k.(created := k.created + 1)
    case NewResolved => k.(createdResolved := k.createdResolved + 1)
    case NowResolved => k.(resolved := k.resolved + 1)
    case NowReopened => k.(reopened := k.reopened + 1)
    case Repeat => k.(repeats := k.repeats + 1)
    case Heartbeat => k.(heartbeatsSeen := k.heartbeatsSeen + 1)
    case Skipped => k.(skipped := k.skipped + 1)
  }

  const NO_ALERTS: Counters := Counters(0, 0, 0, 0, 0, 0, 0, 0)

  /** ingest_webhook */
  function IngestWebhook(b: Book, dir: Directory, c: nat, arrivals: seq<Arrival>): (r: (Book, Counters))
    requires c in b.clusters
    ensures r.0.clusters.Keys == b.clusters.Keys
  {
    if arrivals == [] then (b, NO_ALERTS)
    else
      var (before, counters) := IngestWebhook(b, dir, c, arrivals[..|arrivals| - 1]);
      var last := arrivals[|arrivals| - 1];
      IngestOneKeepsClusters(before, dir, c, last.alert, last.at);
      var (after, tally) := IngestOne(before, dir, c, last.alert, last.at);
      (after, Count(counters.(received := counters.received + 1), tally))
  }

  lemma {:induction false} CloseIncidentsKeepsClusters(b: Book, keys: seq<Key>, now: Time)
    ensures CloseIncidents(b, keys, now).clusters == b.clusters
  {
    if keys != [] { CloseIncidentsKeepsClusters(b, keys[..|keys| - 1], now); }
  }

  lemma RecordKeepsClusters(b: Book, dir: Directory, c: nat, a: Alert, startsAt: Time, now: Time)
    ensures Record(b, dir, c, a, startsAt, now).0.clusters == b.clusters
  {
    hide GetExisting, NewRow, EndOf;
  }

  /** Ingest keeps every cluster, and changes only the heartbeat fields of the one that delivered. */
  lemma IngestOneKeepsClusters(b: Book, dir: Directory, c: nat, a: Alert, now: Time)
    requires c in b.clusters
    ensures var after := IngestOne(b, dir, c, a, now).0;
            && after.clusters.Keys == b.clusters.Keys
            && after.clusters == b.clusters[c := b.clusters[c].(state := after.clusters[c].state,
                                                                lastHeartbeatAt := after.clusters[c].lastHeartbeatAt)]
  {
    hide CloseIncidents, Record, OpenIncidents, Alertname;
    if IsHeartbeat(b.clusters[c], a) {
      var beaten := PutCluster(b, c, b.clusters[c].(lastHeartbeatAt := Some(now), state := Healthy));
      CloseIncidentsKeepsClusters(beaten, Ascending(OpenIncidents(beaten, c)), now);
    } else {
      if a.startsAt.At? { RecordKeepsClusters(b, dir, c, a, a.startsAt.time, now); }
      assert b.clusters == b.clusters[c := b.clusters[c]];
    }
  }

  // ---- the counters ----

  function Total(k: Counters): nat {
    k.created + k.createdResolved + k.resolved + k.reopened + k.repeats + k.heartbeatsSeen + k.skipped
  }

  /** Every alert of a batch is counted once: the seven counters add up to `received`. */
  lemma {:induction false} CountersAddUp(b: Book, dir: Directory, c: nat, arrivals: seq<Arrival>)
    requires c in b.clusters
    ensures var k := IngestWebhook(b, dir, c, arrivals).1;
            k.received == Total(k) == |arrivals|
  {
    hide IngestOne;
    if arrivals != [] { CountersAddUp(b, dir, c, arrivals[..|arrivals| - 1]); }
  }

  // ---- what every ingest keeps ----

  function Sign(t: Transition): int {
    if t.kind.Resolution? then -1 else 1
  }

  /** Openings minus closings of one row. */
  function Balance(log: seq<Transition>, e: nat): int {
    if log == [] then 0
    else
      var t := log[|log| - 1];
      Balance(log[..|log| - 1], e) + if t.event == e then Sign(t) else 0
  }

  /** Openings minus closings over the whole table. */
  function Net(log: seq<Transition>): int {
    if log == [] then 0 else Net(log[..|log| - 1]) + Sign(log[|log| - 1])
  }

  predicate IsFiring(b: Book, e: nat) {
    e in b.events && b.events[e].status.Firing?
  }

  function FiringRows(b: Book): set<nat> {
    set e | e in b.events && b.events[e].status.Firing?
  }

  predicate FreshEvents(b: Book) {
    && (forall e :: e in b.events ==> e < b.nextEvent)
    && (forall i :: 0 <= i < |b.log| ==> b.log[i].event < b.nextEvent)
  }

  predicate UniqueIdentities(b: Book) {
    forall d, e :: d in b.events && e in b.events && IdentityOf(b.events[d]) == IdentityOf(b.events[e]) ==> d == e
  }

  predicate FiringHasNoEnd(b: Book) {
    forall e :: e in b.events && b.events[e].status.Firing? ==> b.events[e].endsAt.None?
  }

  /** A row's transitions alternate between opening and closing, beginning with an opening. */
  ghost predicate Alternates(log: seq<Transition>) {
    forall n, e :: 0 <= n <= |log| ==> 0 <= Balance(log[..n], e) <= 1
  }

  /** A row is firing exactly when its last transition opened it. */
  ghost predicate LogMatches(b: Book) {
    forall e: nat :: Balance(b.log, e) == if IsFiring(b, e) then 1 else 0
  }

  ghost predicate BookOk(b: Book) {
    && FreshEvents(b) && UniqueIdentities(b) && FiringHasNoEnd(b)
    && Alternates(b.log) && LogMatches(b) && Net(b.log) == |FiringRows(b)|
  }

  /** One row is written, and announced exactly when that changes whether it is firing. */
  ghost predicate OneWrite(b: Book, after: Book, e: nat) {
    && e < after.nextEvent && b.nextEvent <= after.nextEvent
    && (e in b.events || e == b.nextEvent)
    && e in after.events && after.events == b.events[e := after.events[e]]
    && (e in b.events ==> IdentityOf(after.events[e]) == IdentityOf(b.events[e]))
    && (after.events[e].status.Firing? ==> after.events[e].endsAt.None?)
    && (if IsFiring(b, e) == IsFiring(after, e) then after.log == b.log
        else exists kind :: after.log == b.log + [Transition(kind, e)] && (kind.Resolution? <==> !IsFiring(after, e)))
  }

  lemma LogSnoc(log: seq<Transition>, t: Transition, e: nat)
    ensures Balance(log + [t], e) == Balance(log, e) + (if t.event == e then Sign(t) else 0)
    ensures Net(log + [t]) == Net(log) + Sign(t)
  {
    assert (log + [t])[..|log|] == log;
  }

  lemma AlternationGrows(log: seq<Transition>, t: Transition)
    requires Alternates(log) && forall e :: 0 <= Balance(log + [t], e) <= 1
    ensures Alternates(log + [t])
  {
    var all := log + [t];
    forall n, e | 0 <= n <= |all| ensures 0 <= Balance(all[..n], e) <= 1 {
      if n <= |log| { assert all[..n] == log[..n]; } else { assert all[..n] == all; }
    }
  }

  /** The announcement that a write makes, when it changes whether the row is firing. */
  lemma WriteAnnounces(b: Book, after: Book, e: nat) returns (t: Transition)
    requires OneWrite(b, after, e) && IsFiring(b, e) != IsFiring(after, e)
    ensures after.log == b.log + [t] && t.event == e && Sign(t) == if IsFiring(after, e) then 1 else -1
  {
    hide IdentityOf;
    var kind :| after.log == b.log + [Transition(kind, e)] && (kind.Resolution? <==> !IsFiring(after, e));
    t := Transition(kind, e);
  }

  lemma OneWriteMatches(b: Book, after: Book, e: nat)
    requires LogMatches(b) && OneWrite(b, after, e)
    ensures LogMatches(after)
  {
    hide IdentityOf, Balance;
    if IsFiring(b, e) != IsFiring(after, e) {
      var t := WriteAnnounces(b, after, e);
      forall d: nat ensures Balance(after.log, d) == if IsFiring(after, d) then 1 else 0 { LogSnoc(b.log, t, d); }
    }
  }

  lemma OneWriteAlternates(b: Book, after: Book, e: nat)
    requires LogMatches(b) && Alternates(b.log) && OneWrite(b, after, e)
    ensures Alternates(after.log)
  {
    hide Balance, Alternates, IdentityOf;
    if IsFiring(b, e) != IsFiring(after, e) {
      var t := WriteAnnounces(b, after, e);
      OneWriteMatches(b, after, e);
      AlternationGrows(b.log, t);
    }
  }

  lemma OneWriteFires(b: Book, after: Book, e: nat)
    requires OneWrite(b, after, e)
    ensures FiringRows(after) == if IsFiring(after, e) then FiringRows(b) + {e} else FiringRows(b) - {e}
    ensures e in FiringRows(b) <==> IsFiring(b, e)
  {
    hide IdentityOf;
  }

  lemma OneWriteNets(b: Book, after: Book, e: nat)
    requires Net(b.log) == |FiringRows(b)| && OneWrite(b, after, e)
    ensures Net(after.log) == |FiringRows(after)|
  {
    hide Net, IdentityOf, FiringRows;
    OneWriteFires(b, after, e);
    if IsFiring(b, e) == IsFiring(after, e) {
      assert after.log == b.log;
      if IsFiring(b, e) {
        assert FiringRows(b) + {e} == FiringRows(b);
      } else {
        assert FiringRows(b) - {e} == FiringRows(b);
      }
    } else {
      var t := WriteAnnounces(b, after, e);
      LogSnoc(b.log, t, e);
    }
  }

  lemma OneWriteKeeps(b: Book, after: Book, e: nat)
    requires BookOk(b) && OneWrite(b, after, e)
    requires e !in b.events ==> forall d :: d in b.events ==> IdentityOf(b.events[d]) != IdentityOf(after.events[e])
    ensures BookOk(after)
  {
    hide Alternates, LogMatches, Net, FiringRows, IdentityOf;
    OneWriteMatches(b, after, e);
    OneWriteAlternates(b, after, e);
    OneWriteNets(b, after, e);
  }

  /** The write made for alert `a` of cluster `c`: its row, with the alert's status and one more delivery. */
  ghost predicate Recorded(b: Book, after: Book, e: nat, c: nat, a: Alert, startsAt: Time) {
    && OneWrite(b, after, e)
    && IdentityOf(after.events[e]) == (c, a.fingerprint, startsAt)
    && after.events[e].status == a.status
    && after.events[e].receiveCount == (if e in b.events then b.events[e].receiveCount else 0) + 1
    && after.clusters == b.clusters
  }

  lemma RecordNew(b: Book, dir: Directory, c: nat, a: Alert, startsAt: Time, now: Time)
    requires FreshEvents(b) && GetExisting(b, (c, a.fingerprint, startsAt)).None?
    ensures Recorded(b, Record(b, dir, c, a, startsAt, now).0, b.nextEvent, c, a, startsAt)
  {
    hide GetExisting, TeamOf, EndOf, Label, Alertname;
    var after := Record(b, dir, c, a, startsAt, now).0;
    if a.status.Firing? { assert after.log == b.log + [Transition(Created, b.nextEvent)]; }
  }

  lemma RecordAgain(b: Book, dir: Directory, c: nat, a: Alert, startsAt: Time, now: Time)
    requires FreshEvents(b) && FiringHasNoEnd(b) && GetExisting(b, (c, a.fingerprint, startsAt)).Some?
    ensures Recorded(b, Record(b, dir, c, a, startsAt, now).0, GetExisting(b, (c, a.fingerprint, startsAt)).value, c,
                     a, startsAt)
  {
    hide GetExisting, EndOf;
    var e, after := GetExisting(b, (c, a.fingerprint, startsAt)).value, Record(b, dir, c, a, startsAt, now).0;
    if after.log != b.log {
      assert after.log == b.log + [Transition(if IsFiring(after, e) then Reopened else Resolution, e)];
    }
  }

  lemma RecordWrites(b: Book, dir: Directory, c: nat, a: Alert, startsAt: Time, now: Time) returns (e: nat)
    requires BookOk(b)
    ensures var after := Record(b, dir, c, a, startsAt, now).0;
            BookOk(after) && Recorded(b, after, e, c, a, startsAt)
    ensures e == var existing := GetExisting(b, (c, a.fingerprint, startsAt)); if existing.Some? then existing.value
            else b.nextEvent
  {
    hide Alternates, LogMatches, Net, FiringRows, GetExisting, Record, OneWrite;
    var existing := GetExisting(b, (c, a.fingerprint, startsAt));
    if existing.Some? {
      e := existing.value;
      RecordAgain(b, dir, c, a, startsAt, now);
    } else {
      e := b.nextEvent;
      RecordNew(b, dir, c, a, startsAt, now);
    }
    OneWriteKeeps(b, Record(b, dir, c, a, startsAt, now).0, e);
  }

  lemma CloseIncidentKeeps(b: Book, e: nat, now: Time)
    requires BookOk(b) && IsFiring(b, e)
    ensures BookOk(CloseIncident(b, e, now)) && OneWrite(b, CloseIncident(b, e, now), e)
  {
    hide Alternates, LogMatches, Net, FiringRows;
    assert OneWrite(b, CloseIncident(b, e, now), e);
    OneWriteKeeps(b, CloseIncident(b, e, now), e);
  }

  /** Exactly the listed rows were closed, at `now`; every other row is as it was. */
  ghost predicate ClosedRows(b: Book, after: Book, keys: seq<Key>, now: Time) {
    && after.events.Keys == b.events.Keys && after.clusters == b.clusters && after.nextEvent == b.nextEvent
    && |after.log| == |b.log| + |keys|
    && forall e :: e in b.events ==>
         if (0, e) in keys
         then after.events[e] == Redeliver(b.events[e], now).(status := Resolved, endsAt := Some(now))
         else after.events[e] == b.events[e]
  }

  lemma ClosesOneMore(b: Book, before: Book, front: seq<Key>, e: nat, now: Time)
    requires ClosedRows(b, before, front, now) && e in b.events && (0, e) !in front
    ensures ClosedRows(b, CloseIncident(before, e, now), front + [(0, e)], now)
  {
    assert |front + [(0, e)]| == |front| + 1;
    forall d | d in b.events ensures (0, d) in front + [(0, e)] <==> d == e || (0, d) in front {}
  }

  lemma SortedFront(keys: seq<Key>)
    requires Increasing(keys) && keys != []
    ensures Increasing(keys[..|keys| - 1]) && keys[|keys| - 1] !in keys[..|keys| - 1]
  {
    var front, last := keys[..|keys| - 1], keys[|keys| - 1];
    assert forall i :: 0 <= i < |front| ==> front[i] == keys[i] && Before(keys[i], last);
  }

  /** Closing incidents closes exactly the listed rows and leaves every other row as it was. */
  lemma {:induction false} CloseIncidentsKeep(b: Book, keys: seq<Key>, now: Time)
    requires BookOk(b) && Increasing(keys)
    requires forall i :: 0 <= i < |keys| ==> keys[i].0 == 0 && keys[i].1 >= 0 && IsFiring(b, keys[i].1)
    ensures BookOk(CloseIncidents(b, keys, now)) && ClosedRows(b, CloseIncidents(b, keys, now), keys, now)
  {
    if keys == [] {
      hide BookOk;
    } else {
      hide BookOk, CloseIncident, Redeliver, IdentityOf, Increasing;
      var front, last := keys[..|keys| - 1], keys[|keys| - 1];
      SortedFront(keys);
      CloseIncidentsKeep(b, front, now);
      var before := CloseIncidents(b, front, now);
      assert keys == front + [last] && last == (0, last.1);
      assert IsFiring(before, last.1);
      CloseIncidentKeeps(before, last.1, now);
      hide ClosedRows;
      ClosesOneMore(b, before, front, last.1, now);
    }
  }
}
