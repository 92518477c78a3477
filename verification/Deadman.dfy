/**
 The deadman switch against the deliveries themselves: when a cluster goes missing, told by the last heartbeat that
 arrived for it and by its settings, over whole runs; and what ingest stores of an alert, field by field.
 */
module Deadman {
  import opened Prelude
  import opened Model
  import opened Text
  import opened Ingest
  import opened Heartbeat
  import M = Matching

  // ---- heartbeats as they arrive ----

  function NameOf(a: Alert): string {
    if "alertname" in a.labels then a.labels["alertname"] else ""
  }

  /** The alert is the heartbeat the cluster is watched for. */
  predicate IsBeat(cluster: Cluster, a: Alert) {
    cluster.heartbeatEnabled && NameOf(a) == cluster.heartbeatAlertname
  }

  /** When the last heartbeat of a batch arrived, or else the earlier one. */
  function LastIn(cluster: Cluster, arrivals: seq<Arrival>, before: Option<Time>): Option<Time> {
    if arrivals == [] then before
    else
      var last := arrivals[|arrivals| - 1];
      if IsBeat(cluster, last.alert) then Some(last.at) else LastIn(cluster, arrivals[..|arrivals| - 1], before)
  }

  /** When the cluster's last heartbeat arrived, over the first `n` acts of a run. */
  function LastBeat(books: seq<Book>, acts: seq<Act>, n: nat, c: nat): Option<Time>
    requires n <= |acts| && |books| == |acts| + 1
  {
    if n == 0 then None
    else
      var before := LastBeat(books, acts, n - 1, c);
      if acts[n - 1].Webhook? && acts[n - 1].cluster == c && c in books[n - 1].clusters
      then LastIn(books[n - 1].clusters[c], acts[n - 1].arrivals, before)
      else before
  }

  lemma OneArrivalBeats(b: Book, dir: Directory, c: nat, x: Arrival)
    requires c in b.clusters
    ensures var after := IngestOne(b, dir, c, x.alert, x.at).0;
            && c in after.clusters
            && (if IsBeat(b.clusters[c], x.alert)
                then after.clusters[c] == b.clusters[c].(lastHeartbeatAt := Some(x.at), state := Healthy)
                else after.clusters[c] == b.clusters[c])
            && (forall d :: d in b.clusters && d != c ==> d in after.clusters && after.clusters[d] == b.clusters[d])
  {
    hide CloseIncidents, Record, OpenIncidents;
    var beaten := PutCluster(b, c, b.clusters[c].(lastHeartbeatAt := Some(x.at), state := Healthy));
    CloseIncidentsKeepsClusters(beaten, Ascending(OpenIncidents(beaten, c)), x.at);
    if x.alert.startsAt.At? { RecordKeepsClusters(b, dir, c, x.alert, x.alert.startsAt.time, x.at); }
  }

  /** A batch leaves its cluster as its last heartbeat left it, and no other cluster is touched. */
  lemma {:induction false} BatchBeats(b: Book, dir: Directory, c: nat, arrivals: seq<Arrival>)
    requires c in b.clusters
    ensures var after := IngestWebhook(b, dir, c, arrivals).0;
            var was := b.clusters[c];
            && c in after.clusters
            && after.clusters[c] == was.(lastHeartbeatAt := LastIn(was, arrivals, was.lastHeartbeatAt),
                                         state := after.clusters[c].state)
            && (after.clusters[c].state == if exists x :: x in arrivals && IsBeat(was, x.alert) then Healthy
                else was.state)
            && (forall d :: d in b.clusters && d != c ==> d in after.clusters && after.clusters[d] == b.clusters[d])
  {
    if arrivals != [] {
      var front, last := arrivals[..|arrivals| - 1], arrivals[|arrivals| - 1];
      assert arrivals == front + [last];
      BatchBeats(b, dir, c, front);
      OneArrivalBeats(IngestWebhook(b, dir, c, front).0, dir, c, last);
      hide IngestOne;
    }
  }

  lemma CheckKeepsBeats(b: Book, dir: Directory, c: nat, now: Time, d: nat)
    ensures var after := CheckAndFlip(b, dir, c, now);
            && (d in after.clusters <==> d in b.clusters)
            && (d in b.clusters ==> after.clusters[d] == b.clusters[d].(state := after.clusters[d].state))
            && (d in b.clusters && d != c ==> after.clusters[d] == b.clusters[d])
            && (d in b.clusters && d == c ==>
                  after.clusters[d].state == if TimedOut(b.clusters[d], now) then Missing else b.clusters[d].state)
  {
    hide Record, CloseIncidents, OpenIncidents;
    if c in b.clusters && TimedOut(b.clusters[c], now) {
      var flipped := PutCluster(b, c, b.clusters[c].(state := Missing));
      SyntheticIsOrdinary(dir, c, flipped.clusters[c], now);
      RecordKeepsClusters(flipped, dir, c, SyntheticAlert(dir, c, flipped.clusters[c], now), now, now);
    }
  }

  lemma UpdateKeepsBeats(b: Book, c: nat, p: Patch, now: Time, d: nat)
    requires c in b.clusters
    ensures var after := UpdateCluster(b, c, p, now);
            && (d in after.clusters <==> d in b.clusters)
            && (d in b.clusters ==> after.clusters[d].lastHeartbeatAt == b.clusters[d].lastHeartbeatAt)
            && (d in b.clusters && !b.clusters[d].state.Missing? ==> !after.clusters[d].state.Missing?)
  {
    hide CloseIncidents, OpenIncidents;
    var put := PutCluster(b, c, ApplyPatch(b.clusters[c], p).(state := NeverSeen));
    CloseIncidentsKeepsClusters(put, Ascending(OpenIncidents(put, c)), now);
  }

  /** The time a cluster records is that of its last heartbeat to arrive, in every reachable state. */
  lemma {:induction false} RecordsLastBeat(dir: Directory, books: seq<Book>, acts: seq<Act>, times: seq<Time>, n: nat,
                                           c: nat)
    requires IsRun(dir, books, acts, times) && n < |books|
    ensures if c in books[n].clusters then books[n].clusters[c].lastHeartbeatAt == LastBeat(books, acts, n, c)
            else LastBeat(books, acts, n, c) == None
  {
    hide IngestWebhook, CheckAndFlip, UpdateCluster, LastIn, GenuineBatch;
    if n > 0 {
      RecordsLastBeat(dir, books, acts, times, n - 1, c);
      var b := books[n - 1];
      match acts[n - 1] {
        case Webhook(d, arrivals) => BatchBeats(b, dir, d, arrivals);
        case Check(d, now) => CheckKeepsBeats(b, dir, d, now, c);
        case Update(d, p) => UpdateKeepsBeats(b, d, p, times[n], c);
        case Register(_, _) =>
      }
    }
  }

  // ---- when a cluster goes missing ----

  /** A sweep at `now` finds the cluster's last heartbeat longer ago than its timeout allows. */
  predicate Overdue(cluster: Cluster, beat: Option<Time>, now: Time) {
    beat.Some? && now - beat.value > cluster.timeoutSeconds * 1_000_000
  }

  /** A watched cluster: switched on, with a heartbeat to wait for that is not the switch's own alert. */
  predicate IsWatched(cluster: Cluster) {
    cluster.enabled && cluster.heartbeatEnabled && cluster.heartbeatAlertname != "KamClusterHeartbeatLost"
  }

  /** In any run a sweep makes a cluster missing exactly when it is watched, healthy and its last heartbeat overdue. */
  lemma MissingExactlyWhenOverdue(dir: Directory, books: seq<Book>, acts: seq<Act>, times: seq<Time>, i: nat, c: nat,
                                  now: Time)
    requires IsRun(dir, books, acts, times) && i < |acts| && acts[i] == Check(c, now) && c in books[i].clusters
    ensures c in books[i + 1].clusters
    ensures var cluster := books[i].clusters[c];
            books[i + 1].clusters[c].state == Missing
            <==> cluster.state == Missing
                 || (cluster.state == Healthy && IsWatched(cluster)
                     && Overdue(cluster, LastBeat(books, acts, i, c), now))
  {
    hide CheckAndFlip, LastBeat, Allowed;
    RecordsLastBeat(dir, books, acts, times, i, c);
    CheckKeepsBeats(books[i], dir, c, now, c);
  }

  /** A batch with a heartbeat makes its cluster healthy, whatever it was. */
  lemma BeatHeals(dir: Directory, books: seq<Book>, acts: seq<Act>, times: seq<Time>, i: nat, c: nat, x: Arrival)
    requires IsRun(dir, books, acts, times) && i < |acts| && acts[i].Webhook? && acts[i].cluster == c
    requires x in acts[i].arrivals && c in books[i].clusters && IsBeat(books[i].clusters[c], x.alert)
    ensures c in books[i + 1].clusters && books[i + 1].clusters[c].state == Healthy
  {
    hide IngestWebhook, LastIn, GenuineBatch;
    BatchBeats(books[i], dir, c, acts[i].arrivals);
  }

  /**
   Clusters that keep sending in time are never flagged: every sweep of the stretch finds a heartbeat young
   enough.
   */
  lemma {:induction false} PunctualClusterIsNeverMissing(dir: Directory, books: seq<Book>, acts: seq<Act>,
                                                         times: seq<Time>, m: nat, n: nat, c: nat)
    requires IsRun(dir, books, acts, times) && m <= n < |books|
    requires c in books[m].clusters && books[m].clusters[c].state != Missing
    requires forall i :: m <= i < n && acts[i].Check? && acts[i].cluster == c && c in books[i].clusters ==>
                           !Overdue(books[i].clusters[c], LastBeat(books, acts, i, c), acts[i].sweptAt)
    ensures c in books[n].clusters && books[n].clusters[c].state != Missing
  {
    hide IngestWebhook, CheckAndFlip, UpdateCluster, LastIn, LastBeat, GenuineBatch, TimedOut, Overdue;
    if m < n {
      PunctualClusterIsNeverMissing(dir, books, acts, times, m, n - 1, c);
      var b := books[n - 1];
      match acts[n - 1] {
        case Webhook(d, arrivals) => BatchBeats(b, dir, d, arrivals);
        case Check(d, now) =>
          CheckKeepsBeats(b, dir, d, now, c);
          if d == c { MissingExactlyWhenOverdue(dir, books, acts, times, n - 1, c, now); }
        case Update(d, p) => UpdateKeepsBeats(b, d, p, times[n], c);
        case Register(_, _) =>
      }
    }
  }

  // ---- what is stored of an alert ----

  function NonEmpty(labels: map<string, string>, key: string): Option<string> {
    if key in labels && labels[key] != "" then Some(labels[key]) else None
  }

  /** A first delivery is stored field by field, and under no other row. */
  lemma FirstDeliveryIsStored(b: Book, dir: Directory, c: nat, a: Alert, startsAt: Time, now: Time)
    requires FreshEvents(b)
    requires forall e :: e in b.events ==>
               b.events[e].cluster != c || b.events[e].fingerprint != a.fingerprint || b.events[e].startsAt != startsAt
    ensures var (after, tally) := Record(b, dir, c, a, startsAt, now);
            && b.nextEvent in after.events
            && after.events == b.events[b.nextEvent := after.events[b.nextEvent]] && after.clusters == b.clusters
            && after.log == b.log + (if a.status == Firing then [Transition(Created, b.nextEvent)] else [])
            && tally == (if a.status == Firing then NewFiring else NewResolved)
            && var row := after.events[b.nextEvent];
               && row.cluster == c && row.fingerprint == a.fingerprint && row.startsAt == startsAt
               && row.status == a.status && row.labels == a.labels && row.annotations == a.annotations
               && row.alertname == NameOf(a) && row.namespace == NonEmpty(a.labels, "namespace")
               && row.endsAt == (if a.status == Resolved && a.endsAt.At? then Some(a.endsAt.time) else None)
               && row.team == (match NonEmpty(a.labels, "kam_team") case None => None case Some(slug) => dir.find(slug))
               && (row.severity.None? <==> NonEmpty(a.labels, "severity").None?)
               && (row.severity.Some? ==>
                     M.SameButForCase(row.severity.value, a.labels["severity"])
                     && forall i :: 0 <= i < |row.severity.value| ==> !('A' <= row.severity.value[i] <= 'Z'))
               && row.firstReceivedAt == now && row.lastReceivedAt == now && row.receiveCount == 1
               && row.suppressedBy == None && row.acknowledgedAt == None && !row.isTest
  {
    hide M.SameButForCase;
    var id := (c, a.fingerprint, startsAt);
    assert GetExisting(b, id).None?;
    if NonEmpty(a.labels, "severity").Some? { LoweredSeverity(a.labels["severity"]); }
  }

  lemma LoweredSeverity(s: string)
    ensures M.SameButForCase(M.Lower(s), s)
    ensures forall i :: 0 <= i < |M.Lower(s)| ==> !('A' <= M.Lower(s)[i] <= 'Z')
  {
  }

  /** A later delivery changes only when the row was last received, how often, and whether it fires and ended. */
  lemma LaterDeliveryIsFolded(b: Book, dir: Directory, c: nat, a: Alert, startsAt: Time, now: Time, e: nat)
    requires UniqueIdentities(b) && e in b.events && b.events[e].cluster == c
             && b.events[e].fingerprint == a.fingerprint
    requires b.events[e].startsAt == startsAt && FiringHasNoEnd(b)
    ensures var (after, tally) := Record(b, dir, c, a, startsAt, now);
            var was := b.events[e];
            && after.clusters == b.clusters
            && after.events == b.events[e :=
                 was.(lastReceivedAt := now, receiveCount := was.receiveCount + 1, status := a.status,
                      endsAt := if a.status == Firing then None
                                else if was.status == Resolved then was.endsAt
                                else if a.endsAt.At? then Some(a.endsAt.time) else None)]
            && after.log == b.log + (if a.status == was.status then []
                                     else [Transition(if a.status == Firing then Reopened else Resolution, e)])
            && tally == (if a.status == was.status then Repeat
                         else if a.status == Firing then NowReopened else NowResolved)
  {
    var id := (c, a.fingerprint, startsAt);
    assert IdentityOf(b.events[e]) == id;
    assert GetExisting(b, id) == Some(e) by {
      var found := GetExisting(b, id);
      assert found.Some?;
      assert IdentityOf(b.events[found.value]) == IdentityOf(b.events[e]);
    }
    hide GetExisting;
  }

  // ---- settings, and the incidents a sweep raises and a change closes ----

  /** The cluster's open incidents: firing rows of its own under the switch's fingerprint. */
  predicate OpenIncident(e: AlertEvent, c: nat) {
    e.cluster == c && e.fingerprint == "hb-" + Decimal(c) && e.status == Firing
  }

  /**
   A settings change sets the given fields and keeps the others. Switching a missing cluster off, in either way, resets
   it and closes its open incidents; any other change leaves state and events alone.
   */
  lemma SettingsAreChanged(b: Book, c: nat, p: Patch, now: Time)
    requires BookOk(b) && c in b.clusters
    ensures var after, was := UpdateCluster(b, c, p, now), b.clusters[c];
            var off := was.state == Missing && (p.enabled == Some(false) || p.heartbeatEnabled == Some(false));
            && after.clusters == b.clusters[c := Cluster(
                 was.name,
                 if p.enabled.Some? then p.enabled.value else was.enabled,
                 if p.heartbeatEnabled.Some? then p.heartbeatEnabled.value else was.heartbeatEnabled,
                 if p.heartbeatAlertname.Some? then p.heartbeatAlertname.value else was.heartbeatAlertname,
                 if p.timeoutSeconds.Some? then p.timeoutSeconds.value else was.timeoutSeconds,
                 if p.team.Some? then p.team.value else was.team,
                 if off then NeverSeen else was.state,
                 was.lastHeartbeatAt)]
            && after.events.Keys == b.events.Keys
            && forall e :: e in b.events ==>
                 after.events[e]
                 == if off && OpenIncident(b.events[e], c)
                    then b.events[e].(status := Resolved, endsAt := Some(now), lastReceivedAt := now,
                                      receiveCount := b.events[e].receiveCount + 1)
                    else b.events[e]
  {
    hide BookOk, CloseIncidents, ClosedRows;
    var put := PutCluster(b, c, ApplyPatch(b.clusters[c], p).(state := NeverSeen));
    BookFrame(b, put);
    OpenIncidentsClose(put, c, now);
  }

  lemma OpenIncidentsClose(b: Book, c: nat, now: Time)
    requires BookOk(b)
    ensures var after := ResolveHeartbeatLost(b, c, now);
            && after.clusters == b.clusters && after.events.Keys == b.events.Keys
            && forall e :: e in b.events ==>
                 after.events[e]
                 == if OpenIncident(b.events[e], c)
                    then b.events[e].(status := Resolved, endsAt := Some(now), lastReceivedAt := now,
                                      receiveCount := b.events[e].receiveCount + 1)
                    else b.events[e]
  {
    hide BookOk, CloseIncidents, Ascending, Decimal;
    var open := OpenIncidents(b, c);
    var keys := Ascending(open);
    forall i | 0 <= i < |keys| ensures keys[i].0 == 0 && keys[i].1 >= 0 && IsFiring(b, keys[i].1) {
      assert keys[i] in keys;
    }
    CloseIncidentsKeep(b, keys, now);
    forall e | e in b.events ensures (0, e) in keys <==> OpenIncident(b.events[e], c) {
      assert (0, e) in keys <==> (0, e) in open;
    }
  }

  /** A heartbeat of a missing cluster closes its open incidents too; of any other it touches no event. */
  lemma BeatCloses(b: Book, dir: Directory, c: nat, a: Alert, now: Time)
    requires BookOk(b) && c in b.clusters && IsBeat(b.clusters[c], a)
    ensures var (after, tally) := IngestOne(b, dir, c, a, now);
            && tally == Heartbeat
            && after.clusters == b.clusters[c := b.clusters[c].(lastHeartbeatAt := Some(now), state := Healthy)]
            && after.events.Keys == b.events.Keys
            && forall e :: e in b.events ==>
                 after.events[e]
                 == if b.clusters[c].state == Missing && OpenIncident(b.events[e], c)
                    then b.events[e].(status := Resolved, endsAt := Some(now), lastReceivedAt := now,
                                      receiveCount := b.events[e].receiveCount + 1)
                    else b.events[e]
  {
    hide BookOk, ResolveHeartbeatLost, Record;
    var beaten := PutCluster(b, c, b.clusters[c].(lastHeartbeatAt := Some(now), state := Healthy));
    BookFrame(b, beaten);
    OpenIncidentsClose(beaten, c, now);
  }

  /** What is neither a heartbeat nor dated is skipped, and anything else is recorded; neither touches a cluster. */
  lemma OtherAlertsAreRecorded(b: Book, dir: Directory, c: nat, a: Alert, now: Time)
    requires c in b.clusters && !IsBeat(b.clusters[c], a)
    ensures IngestOne(b, dir, c, a, now)
            == if a.startsAt.At? then Record(b, dir, c, a, a.startsAt.time, now) else (b, Skipped)
  {
    hide Record, ResolveHeartbeatLost;
  }

  /** The incident a sweep raises is a critical firing alert of the cluster, for its team, that began at the sweep. */
  lemma IncidentIsRaised(b: Book, dir: Directory, c: nat, now: Time)
    requires Watched(b) && c in b.clusters && TimedOut(b.clusters[c], now)
    ensures var after, cluster := CheckAndFlip(b, dir, c, now), b.clusters[c];
            var slug := if cluster.team.Some? then dir.slug(cluster.team.value) else None;
            && b.nextEvent in after.events
            && var row := after.events[b.nextEvent];
               && OpenIncident(row, c) && row.alertname == "KamClusterHeartbeatLost" && row.severity == Some("critical")
               && row.startsAt == now && row.endsAt == None && row.firstReceivedAt == now && row.lastReceivedAt == now
               && row.namespace == None && !row.isTest
               && row.team == (if slug.Some? && slug.value != "" then dir.find(slug.value) else None)
               && row.labels == (if slug.Some?
                                 then map["alertname" := "KamClusterHeartbeatLost", "cluster" := cluster.name,
                                          "severity" := "critical", "kam_team" := slug.value]
                                 else map["alertname" := "KamClusterHeartbeatLost", "cluster" := cluster.name,
                                          "severity" := "critical"])
  {
    hide BookOk, Decimal, GetExisting, HeartbeatOrder, Agrees;
    var flipped := PutCluster(b, c, b.clusters[c].(state := Missing));
    IncidentIsNew(b, c, now);
    SyntheticIsOrdinary(dir, c, flipped.clusters[c], now);
    SameLookup(b, flipped, (c, HeartbeatLostFingerprint(c), now));
    CriticalIsLower();
  }

  lemma CriticalIsLower()
    ensures M.Lower("critical") == "critical"
  {
  }

  /** The clusters a sweep looks at, and how many they are. */
  function Watchable(b: Book): set<nat> {
    set c | c in b.clusters && b.clusters[c].enabled && b.clusters[c].heartbeatEnabled && b.clusters[c].state == Healthy
  }

  lemma CandidatesAre(b: Book)
    ensures forall key :: key in Candidates(b) <==> key.0 == 0 && key.1 >= 0 && key.1 as nat in Watchable(b)
    ensures |Candidates(b)| == |Watchable(b)|
  {
    forall key: Key | key.0 == 0 && key.1 >= 0 && key.1 as nat in Watchable(b) ensures key in Candidates(b) {
      assert key == (0, key.1);
    }
    OneKeyEach(Watchable(b), Candidates(b));
  }

  lemma {:induction false} OneKeyEach(ids: set<nat>, keys: set<Key>)
    requires forall key :: key in keys <==> key.0 == 0 && key.1 >= 0 && key.1 as nat in ids
    ensures |keys| == |ids|
  {
    if ids == {} {
      assert keys == {};
    } else {
      var id :| id in ids;
      assert (0, id as int) in keys;
      OneKeyEach(ids - {id}, keys - {(0, id as int)});
    }
  }
}
