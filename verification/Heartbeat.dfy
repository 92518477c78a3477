/**
 heartbeat.py and the disable path of clusters.py: each cluster's deadman switch, and what whole runs of
 webhooks, sweeps and settings changes keep true of it and of the event rows.
 */
module Heartbeat {
  import opened Prelude
  import opened Model
  import opened Text
  import opened Ingest

  /** The fields of a PATCH; an absent one is left alone. */
  datatype Patch = Patch(
    enabled: Option<bool>, heartbeatEnabled: Option<bool>, heartbeatAlertname: Option<string>,
    timeoutSeconds: Option<nat>, team: Option<Option<nat>>)

  function SyntheticAlert(dir: Directory, c: nat, cluster: Cluster, now: Time): Alert {
    var labels := map["alertname" := HEARTBEAT_LOST_ALERTNAME, "cluster" := cluster.name, "severity" := "critical"];
    var slug := if cluster.team.Some? then dir.slug(cluster.team.value) else None;
    Alert(Firing, if slug.Some? then labels["kam_team" := slug.value] else labels, map[], At(now), Absent,
          HeartbeatLostFingerprint(c))
  }

  /** A healthy, watched cluster whose last heartbeat is longer ago than its timeout. */
  predicate TimedOut(cluster: Cluster, now: Time) {
    && cluster.enabled && cluster.heartbeatEnabled && cluster.state.Healthy? && cluster.lastHeartbeatAt.Some?
    && now - cluster.lastHeartbeatAt.value > cluster.timeoutSeconds * SECOND
    && cluster.heartbeatAlertname != HEARTBEAT_LOST_ALERTNAME
  }

  /** _check_and_flip_one */
  function CheckAndFlip(b: Book, dir: Directory, c: nat, now: Time): Book {
    if c !in b.clusters || !TimedOut(b.clusters[c], now) then b
    else
      var flipped := PutCluster(b, c, b.clusters[c].(state := Missing));
      IngestOne(flipped, dir, c, SyntheticAlert(dir, c, flipped.clusters[c], now), now).0
  }

  predicate DisablesWhileMissing(cluster: Cluster, p: Patch) {
    cluster.state.Missing? && (p.enabled == Some(false) || p.heartbeatEnabled == Some(false))
  }

  function Patched<T>(field: Option<T>, was: T): T {
    if field.Some? then field.value else was
  }

  function ApplyPatch(cluster: Cluster, p: Patch): Cluster {
    cluster.(enabled := Patched(p.enabled, cluster.enabled),
             heartbeatEnabled := Patched(p.heartbeatEnabled, cluster.heartbeatEnabled),
             heartbeatAlertname := Patched(p.heartbeatAlertname, cluster.heartbeatAlertname),
             timeoutSeconds := Patched(p.timeoutSeconds, cluster.timeoutSeconds),
             team := Patched(p.team, cluster.team))
  }

  /** update_cluster */
  function UpdateCluster(b: Book, c: nat, p: Patch, now: Time): Book
    requires c in b.clusters
  {
    var cluster := ApplyPatch(b.clusters[c], p);
    if DisablesWhileMissing(b.clusters[c], p) then
      ResolveHeartbeatLost(PutCluster(b, c, cluster.(state := NeverSeen)), c, now)
    else PutCluster(b, c, cluster)
  }

  // ---- agreement, one operation at a time ----

  function Incidents(b: Book, c: nat): set<nat> {
    set e | e in b.events && IsIncident(b.events[e], c)
  }

  /** Missing with exactly one firing incident, or not missing with none. */
  ghost predicate Agrees(b: Book, c: nat) {
    c in b.clusters ==> |OpenIncidents(b, c)| == if b.clusters[c].state.Missing? then 1 else 0
  }

  /** Every incident of the cluster began by `t`. */
  ghost predicate BegunBy(b: Book, c: nat, t: Time) {
    forall e :: e in Incidents(b, c) ==> b.events[e].startsAt <= t
  }

  /** The last heartbeat of a healthy cluster came after every incident; one that never came leaves no incident. */
  ghost predicate HeartbeatOrder(b: Book, c: nat) {
    c in b.clusters ==>
      && (b.clusters[c].state.Healthy? && b.clusters[c].lastHeartbeatAt.Some?
          ==> BegunBy(b, c, b.clusters[c].lastHeartbeatAt.value))
      && (b.clusters[c].lastHeartbeatAt.None? ==> Incidents(b, c) == {})
      && (b.clusters[c].state.Missing? ==> b.clusters[c].lastHeartbeatAt.Some?)
  }

  ghost predicate Watched(b: Book) {
    && BookOk(b)
    && (forall c: nat :: Agrees(b, c) && HeartbeatOrder(b, c))
    && (forall c: nat :: c !in b.clusters ==> Incidents(b, c) == {})
  }

  /** The same incidents, open or not, with the same beginnings. */
  ghost predicate SameIncidents(b: Book, after: Book, c: nat) {
    && Incidents(after, c) == Incidents(b, c)
    && (forall e :: e in Incidents(b, c) ==> after.events[e].startsAt == b.events[e].startsAt)
  }

  /** Exactly the open incidents of the cluster were closed. */
  ghost predicate IncidentsClosed(b: Book, after: Book, c: nat) {
    && after.clusters == b.clusters && after.events.Keys == b.events.Keys
    && |after.log| == |b.log| + |OpenIncidents(b, c)|
    && (forall e :: e in b.events ==> IdentityOf(after.events[e]) == IdentityOf(b.events[e]))
    && (forall e :: e in b.events && IsIncident(b.events[e], c) ==> after.events[e].status.Resolved?)
    && (forall e :: e in b.events && !IsIncident(b.events[e], c) ==> after.events[e] == b.events[e])
  }

  lemma ResolveCloses(b: Book, c: nat, now: Time)
    requires BookOk(b)
    ensures var after := ResolveHeartbeatLost(b, c, now);
            BookOk(after) && IncidentsClosed(b, after, c) && after.clusters == b.clusters
  {
    hide BookOk, CloseIncidents, HeartbeatLostFingerprint, ClosedRows;
    var keys := Ascending(OpenIncidents(b, c));
    forall i | 0 <= i < |keys| ensures keys[i].0 == 0 && keys[i].1 >= 0
      && IsFiring(b, keys[i].1) { assert keys[i] in keys; }
    CloseIncidentsKeep(b, keys, now);
    ClosedMeansClosed(b, CloseIncidents(b, keys, now), c, now);
  }

  lemma ClosedMeansClosed(b: Book, after: Book, c: nat, now: Time)
    requires ClosedRows(b, after, Ascending(OpenIncidents(b, c)), now)
    ensures IncidentsClosed(b, after, c)
  {
    hide IsIncident, Ascending, Increasing, HeartbeatLostFingerprint;
    var keys := Ascending(OpenIncidents(b, c));
    forall e | e in b.events ensures (0, e) in keys <==> IsIncident(b.events[e], c) && b.events[e].status.Firing? {
      assert (0, e) in OpenIncidents(b, c) <==> IsIncident(b.events[e], c) && b.events[e].status.Firing?;
    }
  }

  lemma ClosedIncidentsOf(b: Book, after: Book, c: nat, d: nat)
    requires IncidentsClosed(b, after, c)
    ensures SameIncidents(b, after, d)
    ensures OpenIncidents(after, d) == if d == c then {} else OpenIncidents(b, d)
  {
    hide HeartbeatLostFingerprint;
    forall e | e in b.events ensures IsIncident(after.events[e], d) == IsIncident(b.events[e], d) {
      assert IdentityOf(after.events[e]) == IdentityOf(b.events[e]);
    }
    assert d != c ==> forall e :: e in b.events && IsIncident(b.events[e], d) ==> !IsIncident(b.events[e], c);
  }

  /** A heartbeat makes the cluster healthy and closes what was open, whatever the alert carries. */
  lemma HeartbeatRecovers(b: Book, dir: Directory, c: nat, a: Alert, t: Time, now: Time)
    requires Watched(b) && c in b.clusters && IsHeartbeat(b.clusters[c], a) && BegunBy(b, c, t) && t <= now
    ensures var after := IngestOne(b, dir, c, a, now).0;
            && Watched(after) && IncidentsClosed(b, after.(clusters := b.clusters), c)
            && after.clusters == b.clusters[c := b.clusters[c].(lastHeartbeatAt := Some(now), state := Healthy)]
  {
    hide BookOk, ResolveHeartbeatLost, IsHeartbeat, IncidentsClosed, SameIncidents, OpenIncidents;
    assert Agrees(b, c);
    var beaten := PutCluster(b, c, b.clusters[c].(lastHeartbeatAt := Some(now), state := Healthy));
    var after := IngestOne(b, dir, c, a, now).0;
    BookFrame(b, beaten);
    IncidentFrame(b, beaten);
    ResolveCloses(beaten, c, now);
    if !b.clusters[c].state.Missing? { NothingToClose(b, c); }
    assert IncidentsClosed(b, after.(clusters := b.clusters), c) by {
      ClosedFrame(b, beaten, after, c);
    }
    forall d: nat ensures Agrees(after, d) && HeartbeatOrder(after, d)
      && (d !in after.clusters ==> Incidents(after, d) == {}) {
      ClosedIncidentsOf(b, after.(clusters := b.clusters), c, d);
      RecoveryKeeps(b, after, c, t, now, d);
    }
  }

  lemma RecoveryKeeps(b: Book, after: Book, c: nat, t: Time, now: Time, d: nat)
    requires Watched(b) && c in b.clusters && BegunBy(b, c, t) && t <= now
    requires SameIncidents(b, after.(clusters := b.clusters), d)
    requires OpenIncidents(after.(clusters := b.clusters), d) == if d == c then {} else OpenIncidents(b, d)
    requires after.clusters == b.clusters[c := b.clusters[c].(lastHeartbeatAt := Some(now), state := Healthy)]
    ensures Agrees(after, d) && HeartbeatOrder(after, d) && (d !in after.clusters ==> Incidents(after, d) == {})
  {
    hide BookOk, IsIncident;
    assert Agrees(b, d) && HeartbeatOrder(b, d);
    assert OpenIncidents(after, d) == OpenIncidents(after.(clusters := b.clusters), d);
    assert Incidents(after, d) == Incidents(after.(clusters := b.clusters), d);
  }

  lemma IncidentFrame(b: Book, after: Book)
    requires after == b.(clusters := after.clusters)
    ensures forall d: nat :: OpenIncidents(after, d) == OpenIncidents(b, d) && Incidents(after, d) == Incidents(b, d)
  {
    hide IsIncident;
  }

  lemma ClosedFrame(b: Book, like: Book, after: Book, c: nat)
    requires like == b.(clusters := like.clusters)
    requires IncidentsClosed(like, after, c) || (after == like && OpenIncidents(b, c) == {})
    ensures IncidentsClosed(b, after.(clusters := b.clusters), c)
  {
    hide IsIncident;
    assert OpenIncidents(like, c) == OpenIncidents(b, c);
    if OpenIncidents(b, c) == {} {
      forall e | e in b.events && IsIncident(b.events[e], c) ensures b.events[e].status.Resolved? {
        assert b.events[e].status.Firing? ==> (0, e) in OpenIncidents(b, c);
      }
    }
  }

  lemma NothingToClose(b: Book, c: nat)
    requires Agrees(b, c) && c in b.clusters && !b.clusters[c].state.Missing?
    ensures OpenIncidents(b, c) == {}
  {
  }

  /** Clusters are not part of what ingest keeps of the rows. */
  lemma BookFrame(b: Book, after: Book)
    requires BookOk(b) && after == b.(clusters := after.clusters)
    ensures BookOk(after)
  {
    hide Net, Balance, Alternates;
    assert FiringRows(after) == FiringRows(b);
    assert forall e: nat :: IsFiring(after, e) == IsFiring(b, e);
  }

  /** Any other alert leaves every incident as it is. */
  lemma OrdinaryAlertKeeps(b: Book, dir: Directory, c: nat, a: Alert, now: Time)
    requires Watched(b) && c in b.clusters && !IsHeartbeat(b.clusters[c], a)
             && a.fingerprint != HeartbeatLostFingerprint(c)
    ensures var after := IngestOne(b, dir, c, a, now).0;
            && Watched(after) && after.clusters == b.clusters && (forall d: nat :: SameIncidents(b, after, d))
  {
    hide BookOk, IsHeartbeat, Record, OneWrite, HeartbeatLostFingerprint;
    if a.startsAt.At? {
      var e := RecordWrites(b, dir, c, a, a.startsAt.time, now);
      var after := Record(b, dir, c, a, a.startsAt.time, now).0;
      forall d: nat ensures Agrees(after, d) && HeartbeatOrder(after, d) && SameIncidents(b, after, d)
                            && (d !in after.clusters ==> Incidents(after, d) == {}) {
        assert Agrees(b, d) && HeartbeatOrder(b, d);
        RecordKeepsIncidents(b, after, e, c, a, a.startsAt.time, d);
      }
    }
  }

  lemma RecordKeepsIncidents(b: Book, after: Book, e: nat, c: nat, a: Alert, startsAt: Time, d: nat)
    requires Recorded(b, after, e, c, a, startsAt) && a.fingerprint != HeartbeatLostFingerprint(c)
    ensures SameIncidents(b, after, d) && OpenIncidents(after, d) == OpenIncidents(b, d)
  {
    hide HeartbeatLostFingerprint, IsFiring;
    assert !IsIncident(after.events[e], d);
    assert e in b.events ==> !IsIncident(b.events[e], d);
    assert forall x :: x in after.events && x != e ==> x in b.events && after.events[x] == b.events[x];
  }

  lemma {:induction false} WebhookKeeps(b: Book, dir: Directory, c: nat, arrivals: seq<Arrival>, t: Time)
    requires Watched(b) && c in b.clusters && BegunBy(b, c, t) && GenuineBatch(c, arrivals, t)
    ensures var after := IngestWebhook(b, dir, c, arrivals).0;
            Watched(after) && SameEverywhere(b, after) && SameSettings(b, after)
  {
    hide Watched, IngestOne, SameEverywhere;
    if arrivals == [] {
      SameItself(b);
    } else {
      var front, last := arrivals[..|arrivals| - 1], arrivals[|arrivals| - 1];
      WebhookKeeps(b, dir, c, front, t);
      var before := IngestWebhook(b, dir, c, front).0;
      assert last in arrivals;
      ArrivalKeeps(b, before, dir, c, last, t);
    }
  }

  /** No arrival is a forged incident, and none is older than `t`. */
  predicate GenuineBatch(c: nat, arrivals: seq<Arrival>, t: Time) {
    forall x :: x in arrivals ==> x.alert.fingerprint != HeartbeatLostFingerprint(c) && t <= x.at
  }

  ghost predicate SameEverywhere(b: Book, after: Book) {
    forall d: nat :: SameIncidents(b, after, d)
  }

  /** Ingest changes no setting, only what the last heartbeat was and what it made of the cluster. */
  predicate SameSettings(b: Book, after: Book) {
    && after.clusters.Keys == b.clusters.Keys
    && forall d :: d in b.clusters ==>
         after.clusters[d] == b.clusters[d].(state := after.clusters[d].state,
                                             lastHeartbeatAt := after.clusters[d].lastHeartbeatAt)
         && (!b.clusters[d].state.Missing? ==> !after.clusters[d].state.Missing?)
  }

  lemma SameItself(b: Book)
    ensures SameEverywhere(b, b)
  {
  }

  lemma ArrivalKeeps(start: Book, b: Book, dir: Directory, c: nat, x: Arrival, t: Time)
    requires Watched(b) && SameEverywhere(start, b) && SameSettings(start, b) && c in b.clusters && BegunBy(start, c, t)
    requires x.alert.fingerprint != HeartbeatLostFingerprint(c) && t <= x.at
    ensures var after := IngestOne(b, dir, c, x.alert, x.at).0;
            Watched(after) && SameEverywhere(start, after) && SameSettings(start, after)
  {
    hide Watched, IngestOne, IsHeartbeat, HeartbeatLostFingerprint, IncidentsClosed, IsIncident;
    assert SameIncidents(start, b, c);
    assert BegunBy(b, c, t);
    var after := IngestOne(b, dir, c, x.alert, x.at).0;
    if IsHeartbeat(b.clusters[c], x.alert) {
      HeartbeatRecovers(b, dir, c, x.alert, t, x.at);
      forall d: nat ensures SameIncidents(start, after, d) {
        ClosedIncidentsOf(b, after.(clusters := b.clusters), c, d);
        IncidentFrame(after.(clusters := b.clusters), after);
        assert SameIncidents(start, b, d);
      }
    } else {
      OrdinaryAlertKeeps(b, dir, c, x.alert, x.at);
      forall d: nat ensures SameIncidents(start, after, d) {
        assert SameIncidents(start, b, d) && SameIncidents(b, after, d);
      }
    }
  }

  /** Nothing is stored yet under the identity of a new incident: every earlier one began before the last heartbeat. */
  lemma IncidentIsNew(b: Book, c: nat, now: Time)
    requires Watched(b) && c in b.clusters && TimedOut(b.clusters[c], now)
    ensures GetExisting(b, (c, HeartbeatLostFingerprint(c), now)).None?
  {
    hide BookOk, HeartbeatLostFingerprint;
    assert HeartbeatOrder(b, c);
    forall e | e in b.events && IsIncident(b.events[e], c) ensures b.events[e].startsAt < now {
      assert e in Incidents(b, c);
    }
  }

  lemma SyntheticIsOrdinary(dir: Directory, c: nat, cluster: Cluster, now: Time)
    ensures Alertname(SyntheticAlert(dir, c, cluster, now)) == HEARTBEAT_LOST_ALERTNAME
  {
  }

  /** A timeout flips the cluster and opens one new incident, announced as created; nothing else changes. */
  lemma FlipOpensOne(b: Book, dir: Directory, c: nat, now: Time)
    requires Watched(b) && c in b.clusters && TimedOut(b.clusters[c], now)
    ensures var after := CheckAndFlip(b, dir, c, now);
            && Watched(after)
            && after.clusters == b.clusters[c := b.clusters[c].(state := Missing)]
            && after.log == b.log + [Transition(Created, b.nextEvent)]
            && Incidents(after, c) == Incidents(b, c) + {b.nextEvent} && b.nextEvent !in Incidents(b, c)
            && (forall d: nat :: d != c ==> SameIncidents(b, after, d))
            && (forall t :: BegunBy(b, c, t) && now <= t ==> BegunBy(after, c, t))
            && b.nextEvent in after.events && after.events == b.events[b.nextEvent := after.events[b.nextEvent]]
  {
    hide BookOk, HeartbeatLostFingerprint, SyntheticAlert, OneWrite, NewRow, OpenIncidents, HeartbeatOrder, Agrees,
      GetExisting;
    var flipped := PutCluster(b, c, b.clusters[c].(state := Missing));
    var alert := SyntheticAlert(dir, c, flipped.clusters[c], now);
    var after := CheckAndFlip(b, dir, c, now);
    BookFrame(b, flipped);
    IncidentFrame(b, flipped);
    IncidentIsNew(b, c, now);
    SyntheticIsOrdinary(dir, c, flipped.clusters[c], now);
    assert alert.fingerprint == HeartbeatLostFingerprint(c) && alert.startsAt == At(now) && alert.status.Firing? by {
      SyntheticShape(dir, c, flipped.clusters[c], now);
    }
    assert GetExisting(flipped, (c, alert.fingerprint, now)) == GetExisting(b, (c, alert.fingerprint, now))
      by { SameLookup(b, flipped, (c, alert.fingerprint, now)); }
    var e := RecordWrites(flipped, dir, c, alert, now, now);
    NextIsUnused(b);
    InsertsIncident(b, after, c);
    FlipKeepsAgreement(b, after, c);
  }

  lemma FlipKeepsAgreement(b: Book, after: Book, c: nat)
    requires Watched(b) && c in b.clusters && b.clusters[c].state.Healthy? && b.clusters[c].lastHeartbeatAt.Some?
    requires after.clusters == b.clusters[c := b.clusters[c].(state := Missing)]
    requires OpenIncidents(after, c) == OpenIncidents(b, c) + {(0, b.nextEvent as int)}
             && (0, b.nextEvent as int) !in OpenIncidents(b, c)
    requires forall d: nat :: d != c ==> SameIncidents(b, after, d) && OpenIncidents(after, d) == OpenIncidents(b, d)
    ensures forall d: nat :: Agrees(after, d) && HeartbeatOrder(after, d)
                             && (d !in after.clusters ==> Incidents(after, d) == {})
  {
    hide BookOk, OpenIncidents, Incidents, IsIncident;
    forall d: nat ensures Agrees(after, d) && HeartbeatOrder(after, d)
      && (d !in after.clusters ==> Incidents(after, d) == {}) {
      assert Agrees(b, d) && HeartbeatOrder(b, d);
      if d == c {
        assert OpenIncidents(b, c) == {};
        assert OpenIncidents(after, c) == {(0, b.nextEvent as int)};
      } else {
        assert SameIncidents(b, after, d);
        assert d !in b.clusters ==> Incidents(b, d) == {};
      }
    }
  }

  lemma SameLookup(b: Book, after: Book, id: Identity)
    requires after.events == b.events
    ensures GetExisting(after, id) == GetExisting(b, id)
  {
    assert RowsOf(after, id) == RowsOf(b, id);
  }

  lemma SyntheticShape(dir: Directory, c: nat, cluster: Cluster, now: Time)
    ensures var a := SyntheticAlert(dir, c, cluster, now);
            a.fingerprint == HeartbeatLostFingerprint(c) && a.startsAt == At(now) && a.status.Firing?
  {
  }

  lemma NextIsUnused(b: Book)
    requires BookOk(b)
    ensures b.nextEvent !in b.events
  {
  }

  /** What one freshly inserted firing incident does to the incidents of each cluster. */
  lemma InsertsIncident(b: Book, after: Book, c: nat)
    requires b.nextEvent !in b.events
    requires b.nextEvent in after.events && after.events == b.events[b.nextEvent := after.events[b.nextEvent]]
    requires IsIncident(after.events[b.nextEvent], c) && after.events[b.nextEvent].status.Firing?
    ensures Incidents(after, c) == Incidents(b, c) + {b.nextEvent} && b.nextEvent !in Incidents(b, c)
    ensures OpenIncidents(after, c) == OpenIncidents(b, c) + {(0, b.nextEvent as int)}
            && (0, b.nextEvent as int) !in OpenIncidents(b, c)
    ensures forall d: nat :: d != c ==> SameIncidents(b, after, d) && OpenIncidents(after, d) == OpenIncidents(b, d)
  {
    hide HeartbeatLostFingerprint;
    forall d: nat | d != c ensures SameIncidents(b, after, d) && OpenIncidents(after, d) == OpenIncidents(b, d) {
      assert !IsIncident(after.events[b.nextEvent], d);
      assert Incidents(after, d) == Incidents(b, d);
    }
  }

  /** Turning a missing cluster off closes its incident; any other settings change leaves incidents alone. */
  lemma UpdateKeeps(b: Book, c: nat, p: Patch, now: Time)
    requires Watched(b) && c in b.clusters
    ensures var after := UpdateCluster(b, c, p, now);
            && Watched(after) && SameEverywhere(b, after) && c in after.clusters
            && (DisablesWhileMissing(b.clusters[c], p)
                ==> OpenIncidents(after, c) == {} && after.clusters[c].state.NeverSeen?)
            && (!DisablesWhileMissing(b.clusters[c], p)
                ==> after.events == b.events && after.clusters[c].state == b.clusters[c].state)
  {
    hide BookOk, ResolveHeartbeatLost, IsIncident, IncidentsClosed;
    var cluster := ApplyPatch(b.clusters[c], p);
    var put := PutCluster(b, c, if DisablesWhileMissing(b.clusters[c], p) then cluster.(state := NeverSeen)
                          else cluster);
    var after := UpdateCluster(b, c, p, now);
    BookFrame(b, put);
    IncidentFrame(b, put);
    ResolveCloses(put, c, now);
    forall d: nat ensures Agrees(after, d) && HeartbeatOrder(after, d) && SameIncidents(b, after, d)
                          && (d !in after.clusters ==> Incidents(after, d) == {})
                          && (DisablesWhileMissing(b.clusters[c], p) ==> OpenIncidents(after, c) == {}) {
      assert Agrees(b, d) && HeartbeatOrder(b, d);
      if DisablesWhileMissing(b.clusters[c], p) {
        ClosedIncidentsOf(put, after, c, d);
        ClosedIncidentsOf(put, after, c, c);
      }
    }
  }

  // ---- a whole sweep ----

  /** The clusters a sweep looks at: the query's own filter, before any timeout is checked. */
  function Candidates(b: Book): set<Key> {
    set c | c in b.clusters && b.clusters[c].enabled && b.clusters[c].heartbeatEnabled
      && b.clusters[c].state.Healthy? :: (0, c)
  }

  function SweepEach(b: Book, dir: Directory, keys: seq<Key>, now: Time): Book {
    if keys == [] then b
    else
      var before := SweepEach(b, dir, keys[..|keys| - 1], now);
      if keys[|keys| - 1].1 < 0 then before else CheckAndFlip(before, dir, keys[|keys| - 1].1, now)
  }

  /**
   Of the clusters listed, exactly those that had timed out are missing now; nothing else about any cluster
   changed.
   */
  ghost predicate SweptClusters(b: Book, after: Book, keys: seq<Key>, now: Time) {
    && after.clusters.Keys == b.clusters.Keys
    && forall c :: c in b.clusters ==>
         after.clusters[c] == if (0, c) in keys && TimedOut(b.clusters[c], now) then b.clusters[c].(state := Missing)
           else b.clusters[c]
  }

  lemma FlipSweeps(b: Book, before: Book, dir: Directory, front: seq<Key>, c: nat, now: Time)
    requires Watched(before) && SweptClusters(b, before, front, now) && (0, c as int) !in front
    ensures var after := CheckAndFlip(before, dir, c, now);
            Watched(after) && SweptClusters(b, after, front + [(0, c as int)], now)
  {
    hide Watched, CheckAndFlip, TimedOut, SameIncidents, Incidents, BegunBy;
    if c in before.clusters && TimedOut(before.clusters[c], now) {
      FlipOpensOne(before, dir, c, now);
    } else {
      NoFlip(before, dir, c, now);
    }
  }

  lemma {:induction false} SweepEachFlips(b: Book, dir: Directory, keys: seq<Key>, now: Time)
    requires Watched(b) && Increasing(keys) && forall i :: 0 <= i < |keys| ==> keys[i].0 == 0 && keys[i].1 >= 0
    ensures Watched(SweepEach(b, dir, keys, now)) && SweptClusters(b, SweepEach(b, dir, keys, now), keys, now)
  {
    hide Watched, CheckAndFlip, TimedOut;
    if keys != [] {
      hide SweptClusters;
      var front, last := keys[..|keys| - 1], keys[|keys| - 1];
      SweepEachFlips(b, dir, front, now);
      assert forall i :: 0 <= i < |front| ==> front[i] == keys[i] && Before(keys[i], last);
      assert keys == front + [last] && last == (0, last.1) && last !in front;
      FlipSweeps(b, SweepEach(b, dir, front, now), dir, front, last.1, now);
    }
  }

  function Sweep(b: Book, dir: Directory, now: Time): Book {
    SweepEach(b, dir, Ascending(Candidates(b)), now)
  }

  /** One sweep turns missing exactly the clusters that have timed out, and keeps the agreement. */
  lemma SweepFlipsTimedOut(b: Book, dir: Directory, now: Time, c: nat)
    requires Watched(b) && c in b.clusters
    ensures var after := Sweep(b, dir, now);
            && Watched(after) && c in after.clusters
            && after.clusters[c] == if TimedOut(b.clusters[c], now) then b.clusters[c].(state := Missing)
              else b.clusters[c]
  {
    hide Watched, SweepEach, Ascending;
    var keys := Ascending(Candidates(b));
    forall i | 0 <= i < |keys| ensures keys[i].0 == 0 && keys[i].1 >= 0 { assert keys[i] in keys; }
    SweepEachFlips(b, dir, keys, now);
    assert TimedOut(b.clusters[c], now) ==> (0, c as int) in Candidates(b);
  }

  // ---- runs ----

  datatype Act =
    | Webhook(cluster: nat, arrivals: seq<Arrival>)
    | Check(cluster: nat, sweptAt: Time)
    | Update(cluster: nat, patch: Patch)
    | Register(cluster: nat, settings: Cluster)

  /** A webhook is authenticated against an enabled cluster; a sweep's clock was read before its step ends. */
  predicate Allowed(b: Book, act: Act, since: Time, at: Time) {
    match act
    case Webhook(c, arrivals) =>
      c in b.clusters && b.clusters[c].enabled && GenuineBatch(c, arrivals, since)
    case Check(_, now) => now <= at
    case Update(c, _) => c in b.clusters
    case Register(c, settings) => c !in b.clusters && settings.state.NeverSeen? && settings.lastHeartbeatAt.None?
  }

  function Perform(b: Book, dir: Directory, act: Act, at: Time): Book
    requires act.Webhook? || act.Update? ==> act.cluster in b.clusters
  {
    match act
    case Webhook(c, arrivals) => IngestWebhook(b, dir, c, arrivals).0
    case Check(c, now) => CheckAndFlip(b, dir, c, now)
    case Update(c, p) => UpdateCluster(b, c, p, at)
    case Register(c, settings) => PutCluster(b, c, settings)
  }

  const EMPTY_BOOK: Book := Book(map[], map[], 0, [])

  /**
   A run from an empty installation under a clock that never goes back: `times[i]` is the instant state `i` was
   reached.
   */
  ghost predicate IsRun(dir: Directory, books: seq<Book>, acts: seq<Act>, times: seq<Time>) {
    && |books| == |times| == |acts| + 1
    && books[0] == EMPTY_BOOK
    && (forall i :: 0 <= i < |acts| ==>
          && times[i] <= times[i + 1] && Allowed(books[i], acts[i], times[i], times[i + 1])
          && books[i + 1] == Perform(books[i], dir, acts[i], times[i + 1]))
  }

  /** The cluster went missing in this step. */
  predicate Edge(b: Book, after: Book, c: nat) {
    c in b.clusters && c in after.clusters && !b.clusters[c].state.Missing? && after.clusters[c].state.Missing?
  }

  ghost predicate AllBegunBy(b: Book, t: Time) {
    forall c: nat :: BegunBy(b, c, t)
  }

  lemma RegisterKeeps(b: Book, c: nat, settings: Cluster)
    requires Watched(b) && c !in b.clusters && settings.state.NeverSeen? && settings.lastHeartbeatAt.None?
    ensures Watched(PutCluster(b, c, settings)) && SameEverywhere(b, PutCluster(b, c, settings))
  {
    hide BookOk, IsIncident;
    var after := PutCluster(b, c, settings);
    BookFrame(b, after);
    IncidentFrame(b, after);
    forall d: nat ensures Agrees(after, d) && HeartbeatOrder(after, d) && SameIncidents(b, after, d) {
      assert Agrees(b, d) && HeartbeatOrder(b, d);
      if d == c { NoIncidentsNoneOpen(b, c); }
    }
  }

  lemma NoIncidentsNoneOpen(b: Book, c: nat)
    requires Incidents(b, c) == {}
    ensures OpenIncidents(b, c) == {}
  {
    hide HeartbeatLostFingerprint;
    forall e | e in b.events ensures !IsIncident(b.events[e], c) {
      assert e in Incidents(b, c) <==> IsIncident(b.events[e], c);
    }
  }

  lemma SameStaysBegun(b: Book, after: Book, since: Time, at: Time)
    requires AllBegunBy(b, since) && since <= at && SameEverywhere(b, after)
    ensures AllBegunBy(after, at)
    ensures forall c: nat :: |Incidents(after, c)| == |Incidents(b, c)|
  {
    hide Incidents;
    forall c: nat ensures BegunBy(after, c, at) && |Incidents(after, c)| == |Incidents(b, c)| {
      assert BegunBy(b, c, since) && SameIncidents(b, after, c);
    }
  }

  lemma CheckStep(b: Book, dir: Directory, c: nat, now: Time, since: Time, at: Time)
    requires Watched(b) && AllBegunBy(b, since) && since <= at && now <= at
    ensures var after := CheckAndFlip(b, dir, c, now);
            && Watched(after) && AllBegunBy(after, at)
            && (forall d: nat :: |Incidents(after, d)| == |Incidents(b, d)| + if Edge(b, after, d) then 1 else 0)
  {
    hide Watched, CheckAndFlip, Incidents;
    var after := CheckAndFlip(b, dir, c, now);
    if c in b.clusters && TimedOut(b.clusters[c], now) {
      FlipOpensOne(b, dir, c, now);
      forall d: nat ensures BegunBy(after, d, at) && |Incidents(after, d)|
        == |Incidents(b, d)| + if Edge(b, after, d) then 1 else 0 {
        assert BegunBy(b, d, since) && BegunBy(b, d, at);
        assert d != c ==> SameIncidents(b, after, d);
      }
    } else {
      assert after == b by { NoFlip(b, dir, c, now); }
      SameItself(b);
      SameStaysBegun(b, b, since, at);
    }
  }

  lemma NoFlip(b: Book, dir: Directory, c: nat, now: Time)
    requires c !in b.clusters || !TimedOut(b.clusters[c], now)
    ensures CheckAndFlip(b, dir, c, now) == b
  {
  }

  /** A step keeps the agreement, and opens exactly one incident for a cluster that goes missing, none otherwise. */
  lemma StepKeepsWatch(b: Book, dir: Directory, act: Act, since: Time, at: Time)
    requires Watched(b) && AllBegunBy(b, since) && since <= at && Allowed(b, act, since, at)
    ensures var after := Perform(b, dir, act, at);
            && Watched(after) && AllBegunBy(after, at)
            && (forall d: nat :: |Incidents(after, d)| == |Incidents(b, d)| + if Edge(b, after, d) then 1 else 0)
  {
    hide Watched, CheckAndFlip, Incidents, IngestWebhook, UpdateCluster, AllBegunBy, SameEverywhere, GenuineBatch;
    var after := Perform(b, dir, act, at);
    match act {
      case Webhook(c, arrivals) =>
        assert BegunBy(b, c, since) by { BegunOne(b, c, since); }
        WebhookKeeps(b, dir, c, arrivals, since);
        SameStaysBegun(b, after, since, at);
      case Check(c, now) => CheckStep(b, dir, c, now, since, at);
      case Update(c, p) =>
        UpdateKeeps(b, c, p, at);
        UpdateNeverFlips(b, c, p, at);
        SameStaysBegun(b, after, since, at);
      case Register(c, settings) =>
        RegisterKeeps(b, c, settings);
        SameStaysBegun(b, after, since, at);
    }
  }

  lemma BegunOne(b: Book, c: nat, t: Time)
    requires AllBegunBy(b, t)
    ensures BegunBy(b, c, t)
  {
  }

  lemma UpdateNeverFlips(b: Book, c: nat, p: Patch, now: Time)
    requires Watched(b) && c in b.clusters
    ensures forall d: nat :: !Edge(b, UpdateCluster(b, c, p, now), d)
  {
    hide BookOk, ResolveHeartbeatLost, Agrees, HeartbeatOrder, IncidentsClosed;
    var cluster := ApplyPatch(b.clusters[c], p);
    var put := PutCluster(b, c, cluster.(state := NeverSeen));
    BookFrame(b, put);
    ResolveCloses(put, c, now);
  }

  lemma {:induction false} RunKeepsWatch(dir: Directory, books: seq<Book>, acts: seq<Act>, times: seq<Time>, n: nat)
    requires IsRun(dir, books, acts, times) && n < |books|
    ensures Watched(books[n]) && AllBegunBy(books[n], times[n])
  {
    hide Watched, AllBegunBy, Perform, Allowed;
    if n == 0 {
      EmptyIsWatched(times[0]);
    } else {
      RunKeepsWatch(dir, books, acts, times, n - 1);
      StepKeepsWatch(books[n - 1], dir, acts[n - 1], times[n - 1], times[n]);
    }
  }

  lemma EmptyIsWatched(t: Time)
    ensures Watched(EMPTY_BOOK) && AllBegunBy(EMPTY_BOOK, t)
  {
  }

  /**
   In every reachable state a cluster is missing exactly when it has exactly one firing incident, and otherwise
   has none.
   */
  lemma HeartbeatAgreement(dir: Directory, books: seq<Book>, acts: seq<Act>, times: seq<Time>, n: nat, c: nat)
    requires IsRun(dir, books, acts, times) && n < |books| && c in books[n].clusters
    ensures |OpenIncidents(books[n], c)| == if books[n].clusters[c].state.Missing? then 1 else 0
    ensures books[n].clusters[c].lastHeartbeatAt.None?
            ==> Incidents(books[n], c) == {} && !books[n].clusters[c].state.Missing?
  {
    hide BookOk, IsRun, Incidents, OpenIncidents;
    RunKeepsWatch(dir, books, acts, times, n);
    assert Agrees(books[n], c) && HeartbeatOrder(books[n], c);
  }

  function Edges(books: seq<Book>, c: nat, n: nat): nat
    requires n < |books|
  {
    if n == 0 then 0 else Edges(books, c, n - 1) + if Edge(books[n - 1], books[n], c) then 1 else 0
  }

  /** One incident per edge: a cluster has had as many incidents as it has gone missing. */
  lemma {:induction false} OneIncidentPerEdge(dir: Directory, books: seq<Book>, acts: seq<Act>, times: seq<Time>,
                                              n: nat, c: nat)
    requires IsRun(dir, books, acts, times) && n < |books|
    ensures |Incidents(books[n], c)| == Edges(books, c, n)
  {
    hide Watched, AllBegunBy, Perform, Allowed, Edge;
    if n == 0 {
      assert Incidents(EMPTY_BOOK, c) == {};
    } else {
      hide Incidents;
      OneIncidentPerEdge(dir, books, acts, times, n - 1, c);
      RunKeepsWatch(dir, books, acts, times, n - 1);
      StepKeepsWatch(books[n - 1], dir, acts[n - 1], times[n - 1], times[n]);
    }
  }

  // ---- rows against deliveries ----

  /** One accepted delivery: an identity and the status it carried. */
  type Delivery = (Identity, AlertStatus)

  predicate Accepts(cluster: Cluster, a: Alert) {
    !IsHeartbeat(cluster, a) && a.startsAt.At?
  }

  /** The deliveries of a batch that become rows, in order. */
  function Accepted(cluster: Cluster, c: nat, arrivals: seq<Arrival>): seq<Delivery> {
    if arrivals == [] then []
    else
      var a := arrivals[|arrivals| - 1].alert;
      Accepted(cluster, c, arrivals[..|arrivals| - 1])
      + if Accepts(cluster, a) then [((c, a.fingerprint, a.startsAt.time), a.status)] else []
  }

  /** Everything delivered in a run so far. */
  function Delivered(books: seq<Book>, acts: seq<Act>, n: nat): seq<Delivery>
    requires n <= |acts| && |books| == |acts| + 1
  {
    if n == 0 then []
    else
      Delivered(books, acts, n - 1)
      + match acts[n - 1]
        case Webhook(c, arrivals) => if c in books[n - 1].clusters
          then Accepted(books[n - 1].clusters[c], c, arrivals) else []
        case _ => []
  }

  function Times(ds: seq<Delivery>, id: Identity): nat {
    if ds == [] then 0 else Times(ds[..|ds| - 1], id) + if ds[|ds| - 1].0 == id then 1 else 0
  }

  function LastStatus(ds: seq<Delivery>, id: Identity): Option<AlertStatus> {
    if ds == [] then None
    else if ds[|ds| - 1].0 == id then Some(ds[|ds| - 1].1)
    else LastStatus(ds[..|ds| - 1], id)
  }

  /** An identity has a row exactly when it was delivered; the row has the last status and counts the deliveries. */
  ghost predicate FoldedOne(b: Book, ds: seq<Delivery>, id: Identity) {
    if Times(ds, id) == 0 then forall e :: e in b.events ==> IdentityOf(b.events[e]) != id
    else exists e :: e in b.events && FoldsInto(b, e, ds, id)
  }

  ghost predicate FoldsInto(b: Book, e: nat, ds: seq<Delivery>, id: Identity)
    requires e in b.events
  {
    IdentityOf(b.events[e]) == id && LastStatus(ds, id) == Some(b.events[e].status)
      && b.events[e].receiveCount == Times(ds, id)
  }

  predicate Ordinary(id: Identity) {
    id.1 != HeartbeatLostFingerprint(id.0)
  }

  ghost predicate Folded(b: Book, ds: seq<Delivery>) {
    forall id :: Ordinary(id) ==> FoldedOne(b, ds, id)
  }

  lemma DeliverySnoc(ds: seq<Delivery>, d: Delivery, id: Identity)
    ensures Times(ds + [d], id) == Times(ds, id) + if d.0 == id then 1 else 0
    ensures LastStatus(ds + [d], id) == if d.0 == id then Some(d.1) else LastStatus(ds, id)
  {
    assert (ds + [d])[..|ds|] == ds;
  }

  /** Recording a delivery folds it in. */
  lemma RecordFolds(b: Book, dir: Directory, c: nat, a: Alert, startsAt: Time, now: Time, ds: seq<Delivery>,
                    id: Identity)
    requires BookOk(b) && FoldedOne(b, ds, id)
    ensures FoldedOne(Record(b, dir, c, a, startsAt, now).0, ds + [((c, a.fingerprint, startsAt), a.status)], id)
  {
    hide Record, Alternates, LogMatches, Net, FiringRows, IdentityOf, Times, LastStatus, GetExisting;
    var d := ((c, a.fingerprint, startsAt), a.status);
    var after := Record(b, dir, c, a, startsAt, now).0;
    var e := RecordWrites(b, dir, c, a, startsAt, now);
    DeliverySnoc(ds, d, id);
    if d.0 == id {
      assert FoldsInto(after, e, ds + [d], id);
    } else if Times(ds, id) != 0 {
      var k :| k in b.events && FoldsInto(b, k, ds, id);
      assert k != e;
      assert FoldsInto(after, k, ds + [d], id);
    }
  }

  /** Rows other than incidents are untouched, so what they fold is too. */
  lemma FoldedFrame(b: Book, after: Book, ds: seq<Delivery>, c: nat)
    requires Folded(b, ds) && IncidentsClosed(b, after.(clusters := b.clusters), c)
    ensures Folded(after, ds)
  {
    hide HeartbeatLostFingerprint, Times, LastStatus, IncidentsClosed;
    forall id | Ordinary(id) ensures FoldedOne(after, ds, id) {
      assert FoldedOne(b, ds, id);
      OrdinaryUntouched(b, after, c, id);
      if Times(ds, id) != 0 {
        var k :| k in b.events && FoldsInto(b, k, ds, id);
        assert FoldsInto(after, k, ds, id);
      }
    }
  }

  lemma OrdinaryUntouched(b: Book, after: Book, c: nat, id: Identity)
    requires IncidentsClosed(b, after.(clusters := b.clusters), c) && Ordinary(id)
    ensures after.events.Keys == b.events.Keys
    ensures forall e :: e in b.events ==> IdentityOf(after.events[e]) == IdentityOf(b.events[e])
    ensures forall e :: e in b.events && IdentityOf(b.events[e]) == id ==> after.events[e] == b.events[e]
  {
    hide HeartbeatLostFingerprint;
  }

  lemma SameRowsFold(b: Book, after: Book, ds: seq<Delivery>)
    requires Folded(b, ds) && after.events == b.events
    ensures Folded(after, ds)
  {
    hide HeartbeatLostFingerprint, Times, LastStatus, IdentityOf;
    forall id | Ordinary(id) ensures FoldedOne(after, ds, id) {
      assert FoldedOne(b, ds, id);
      if Times(ds, id) != 0 {
        var k :| k in b.events && FoldsInto(b, k, ds, id);
        assert FoldsInto(after, k, ds, id);
      }
    }
  }

  /** A new incident is nobody else's row. */
  lemma FlipFolds(b: Book, dir: Directory, c: nat, now: Time, ds: seq<Delivery>)
    requires Watched(b) && Folded(b, ds)
    ensures Folded(CheckAndFlip(b, dir, c, now), ds)
  {
    hide Watched, CheckAndFlip, HeartbeatLostFingerprint, Times, LastStatus, IdentityOf;
    var after := CheckAndFlip(b, dir, c, now);
    if c in b.clusters && TimedOut(b.clusters[c], now) {
      FlipOpensOne(b, dir, c, now);
      assert b.nextEvent in Incidents(after, c);
      forall id | Ordinary(id) ensures FoldedOne(after, ds, id) {
        assert FoldedOne(b, ds, id);
        IncidentIsNotOrdinary(after, b.nextEvent, c, id);
        assert b.nextEvent !in b.events by { WatchedNextIsUnused(b); }
        if Times(ds, id) != 0 {
          var k :| k in b.events && FoldsInto(b, k, ds, id);
          assert FoldsInto(after, k, ds, id);
        }
      }
    } else {
      NoFlip(b, dir, c, now);
    }
  }

  lemma WatchedNextIsUnused(b: Book)
    requires Watched(b)
    ensures b.nextEvent !in b.events
  {
  }

  lemma IncidentIsNotOrdinary(b: Book, e: nat, c: nat, id: Identity)
    requires e in Incidents(b, c) && Ordinary(id)
    ensures e in b.events && IdentityOf(b.events[e]) != id
  {
    hide HeartbeatLostFingerprint;
  }

  lemma AcceptedSnoc(cluster: Cluster, c: nat, front: seq<Arrival>, x: Arrival)
    ensures Accepted(cluster, c, front + [x])
            == Accepted(cluster, c, front) + if Accepts(cluster, x.alert)
              then [((c, x.alert.fingerprint, x.alert.startsAt.time), x.alert.status)] else []
  {
    assert (front + [x])[..|front|] == front;
  }

  lemma ArrivalFolds(b: Book, dir: Directory, c: nat, x: Arrival, t: Time, ds: seq<Delivery>)
    requires Watched(b) && c in b.clusters && BegunBy(b, c, t) && Folded(b, ds) && t <= x.at
    ensures var d := ((c, x.alert.fingerprint, if x.alert.startsAt.At? then x.alert.startsAt.time else 0),
                      x.alert.status);
            Folded(IngestOne(b, dir, c, x.alert, x.at).0, if Accepts(b.clusters[c], x.alert) then ds + [d] else ds)
  {
    hide HeartbeatLostFingerprint, Times, LastStatus, IdentityOf, Record, ResolveHeartbeatLost, IncidentsClosed,
      IsHeartbeat, BookOk, Agrees, HeartbeatOrder, Folded, BegunBy;
    if IsHeartbeat(b.clusters[c], x.alert) {
      HeartbeatRecovers(b, dir, c, x.alert, t, x.at);
      FoldedFrame(b, IngestOne(b, dir, c, x.alert, x.at).0, ds, c);
    } else if x.alert.startsAt.At? {
      RecordFoldsAll(b, dir, c, x.alert, x.alert.startsAt.time, x.at, ds);
    }
  }

  lemma RecordFoldsAll(b: Book, dir: Directory, c: nat, a: Alert, startsAt: Time, now: Time, ds: seq<Delivery>)
    requires BookOk(b) && Folded(b, ds)
    ensures Folded(Record(b, dir, c, a, startsAt, now).0, ds + [((c, a.fingerprint, startsAt), a.status)])
  {
    hide BookOk, FoldedOne, Record, Ordinary;
    forall id | Ordinary(id) ensures FoldedOne(Record(b, dir, c, a, startsAt, now).0,
                                               ds + [((c, a.fingerprint, startsAt), a.status)], id) {
      RecordFolds(b, dir, c, a, startsAt, now, ds, id);
    }
  }

  lemma {:induction false} WebhookFolds(b: Book, dir: Directory, c: nat, arrivals: seq<Arrival>, t: Time,
                                        ds: seq<Delivery>)
    requires Watched(b) && c in b.clusters && BegunBy(b, c, t) && GenuineBatch(c, arrivals, t) && Folded(b, ds)
    ensures Folded(IngestWebhook(b, dir, c, arrivals).0, ds + Accepted(b.clusters[c], c, arrivals))
  {
    hide Watched, IngestOne, SameEverywhere, Folded, Accepts, Incidents;
    if arrivals == [] {
      assert ds + [] == ds;
    } else {
      var front, last := arrivals[..|arrivals| - 1], arrivals[|arrivals| - 1];
      assert arrivals == front + [last] && last in arrivals;
      assert GenuineBatch(c, front, t);
      WebhookFolds(b, dir, c, front, t, ds);
      WebhookKeeps(b, dir, c, front, t);
      var before := IngestWebhook(b, dir, c, front).0;
      StillBegun(b, before, c, t);
      var so := ds + Accepted(b.clusters[c], c, front);
      ArrivalFolds(before, dir, c, last, t, so);
      AcceptedSnoc(b.clusters[c], c, front, last);
      SameAcceptance(b.clusters[c], before.clusters[c], last.alert);
      hide Accepted;
      if Accepts(b.clusters[c], last.alert) {
        var d := ((c, last.alert.fingerprint, if last.alert.startsAt.At? then last.alert.startsAt.time else 0),
                  last.alert.status);
        AcceptedHasStart(b.clusters[c], last.alert);
        assert so + [d] == ds + (Accepted(b.clusters[c], c, front) + [d]);
      } else {
        assert Accepted(b.clusters[c], c, front) + [] == Accepted(b.clusters[c], c, front);
      }
    }
  }

  lemma AcceptedHasStart(cluster: Cluster, a: Alert)
    requires Accepts(cluster, a)
    ensures a.startsAt.At?
  {
  }

  lemma StillBegun(b: Book, after: Book, c: nat, t: Time)
    requires BegunBy(b, c, t) && SameEverywhere(b, after)
    ensures BegunBy(after, c, t)
  {
    assert SameIncidents(b, after, c);
  }

  lemma SameAcceptance(before: Cluster, after: Cluster, a: Alert)
    requires after == before.(state := after.state, lastHeartbeatAt := after.lastHeartbeatAt)
    ensures Accepts(after, a) == Accepts(before, a)
  {
  }

  lemma UpdateFolds(b: Book, c: nat, p: Patch, now: Time, ds: seq<Delivery>)
    requires Watched(b) && c in b.clusters && Folded(b, ds)
    ensures Folded(UpdateCluster(b, c, p, now), ds)
  {
    hide BookOk, Folded, ResolveHeartbeatLost, IncidentsClosed, Agrees, HeartbeatOrder;
    var after := UpdateCluster(b, c, p, now);
    var cluster := ApplyPatch(b.clusters[c], p);
    if DisablesWhileMissing(b.clusters[c], p) {
      var put := PutCluster(b, c, cluster.(state := NeverSeen));
      BookFrame(b, put);
      ResolveCloses(put, c, now);
      SameRowsFold(b, put, ds);
      assert after.(clusters := put.clusters) == after;
      FoldedFrame(put, after, ds, c);
    } else {
      SameRowsFold(b, after, ds);
    }
  }

  /**
   Ingest is a last-write fold. In every reachable state an ordinary identity has exactly one row if it was ever
   delivered and none otherwise; the row carries the status of the latest delivery and counts all of them.
   */
  lemma {:induction false} LastWriteWins(dir: Directory, books: seq<Book>, acts: seq<Act>, times: seq<Time>, n: nat)
    requires IsRun(dir, books, acts, times) && n < |books|
    ensures Folded(books[n], Delivered(books, acts, n))
    ensures UniqueIdentities(books[n]) && FiringHasNoEnd(books[n])
  {
    hide Watched, AllBegunBy, Folded, IngestWebhook, CheckAndFlip, UpdateCluster, Accepted, GenuineBatch;
    RunKeepsWatch(dir, books, acts, times, n);
    WatchedRows(books[n]);
    if n == 0 {
      NothingFolded();
    } else {
      LastWriteWins(dir, books, acts, times, n - 1);
      RunKeepsWatch(dir, books, acts, times, n - 1);
      var b, before := books[n - 1], Delivered(books, acts, n - 1);
      assert Allowed(b, acts[n - 1], times[n - 1], times[n]) && books[n] == Perform(b, dir, acts[n - 1], times[n]);
      match acts[n - 1] {
        case Webhook(c, arrivals) =>
          BegunOne(b, c, times[n - 1]);
          WebhookFolds(b, dir, c, arrivals, times[n - 1], before);
        case Check(c, now) =>
          FlipFolds(b, dir, c, now, before);
          assert before + [] == before;
        case Update(c, p) =>
          UpdateFolds(b, c, p, times[n], before);
          assert before + [] == before;
        case Register(c, settings) =>
          SameRowsFold(b, books[n], before);
          assert before + [] == before;
      }
    }
  }

  lemma WatchedRows(b: Book)
    requires Watched(b)
    ensures UniqueIdentities(b) && FiringHasNoEnd(b)
    ensures Alternates(b.log) && LogMatches(b) && Net(b.log) == |FiringRows(b)|
  {
  }

  lemma NothingFolded()
    ensures Folded(EMPTY_BOOK, [])
  {
  }

  /**
   Transitions balance. In every reachable state each row's transitions alternate beginning with an opening, a row
   is firing exactly when its last one opened it, and created + reopened - resolved is the number of firing rows.
   */
  lemma TransitionsBalance(dir: Directory, books: seq<Book>, acts: seq<Act>, times: seq<Time>, n: nat)
    requires IsRun(dir, books, acts, times) && n < |books|
    ensures Alternates(books[n].log) && LogMatches(books[n])
    ensures Net(books[n].log) == |FiringRows(books[n])|
  {
    hide *;
    RunKeepsWatch(dir, books, acts, times, n);
    WatchedRows(books[n]);
  }
}
