/** The ingest endpoint, the heartbeat sweep and the cluster settings handler, as they change rows in place. */
module Desk {
  import opened Prelude
  import opened Model
  import opened Ingest
  import H = Heartbeat
  import D = Deadman

  lemma CloseUnfolds(b: Book, keys: seq<Key>, i: nat, now: Time)
    requires i < |keys|
    ensures CloseIncidents(b, keys[..0], now) == b
    ensures var before, e := CloseIncidents(b, keys[..i], now), keys[i].1;
            CloseIncidents(b, keys[..i + 1], now) == if e >= 0 && e in before.events
              then CloseIncident(before, e, now) else before
  {
    hide CloseIncident;
    assert keys[..i + 1][..i] == keys[..i];
  }

  lemma IngestUnfolds(b: Book, dir: Directory, c: nat, arrivals: seq<Arrival>, i: nat)
    requires c in b.clusters && i < |arrivals|
    ensures var (before, counters) := IngestWebhook(b, dir, c, arrivals[..i]);
            var (after, tally) := IngestOne(before, dir, c, arrivals[i].alert, arrivals[i].at);
            IngestWebhook(b, dir, c, arrivals[..i + 1])
              == (after, Count(counters.(received := counters.received + 1), tally))
  {
    hide IngestOne;
    assert arrivals[..i + 1][..i] == arrivals[..i];
  }

  lemma SweepUnfolds(b: Book, dir: Directory, keys: seq<Key>, i: nat, now: Time)
    requires i < |keys|
    ensures var before := H.SweepEach(b, dir, keys[..i], now);
            H.SweepEach(b, dir, keys[..i + 1], now)
            == if keys[i].1 < 0 then before else H.CheckAndFlip(before, dir, keys[i].1, now)
  {
    hide H.CheckAndFlip;
    assert keys[..i + 1][..i] == keys[..i];
  }

  class Rows {
    var events: map<nat, AlertEvent>
    var clusters: map<nat, Cluster>
    var nextEvent: nat
    var log: seq<Transition>

    constructor ()
      ensures State() == H.EMPTY_BOOK
    {
      events, clusters, nextEvent, log := map[], map[], 0, [];
    }

    function State(): Book
      reads this
    {
      Book(events, clusters, nextEvent, log)
    }

    /** The transition hook; routing itself is modelled in Routing. */
    method OnEventTransition(kind: Kind, e: nat)
      modifies this`log
      ensures log == old(log) + [Transition(kind, e)]
    {
      log := log + [Transition(kind, e)];
    }

    method ResolveHeartbeatLostEvent(c: nat, now: Time)
      modifies this
      ensures State() == ResolveHeartbeatLost(old(State()), c, now)
    {
      hide CloseIncidents;
      ghost var before := State();
      var found := Ascending(OpenIncidents(State(), c));
      assert State() == CloseIncidents(before, found[..0], now) by { CloseNone(before, now); }
      for i := 0 to |found|
        invariant State() == CloseIncidents(before, found[..i], now)
      {
        CloseUnfolds(before, found, i, now);
        var e := found[i].1;
        if e < 0 || e !in events { continue; }
        var event := events[e];
        events := events[e := event.(
          status := Resolved, endsAt := Some(now), lastReceivedAt := now, receiveCount := event.receiveCount + 1)];
        OnEventTransition(Resolution, e);
      }
      assert found[..|found|] == found;
    }

    method IngestAlert(dir: Directory, c: nat, a: Alert, now: Time) returns (tally: Tally)
      requires c in clusters
      modifies this
      ensures (State(), tally) == IngestOne(old(State()), dir, c, a, now)
    {
      hide ResolveHeartbeatLost, GetExisting;
      var cluster := clusters[c];
      if cluster.heartbeatEnabled && Alertname(a) == cluster.heartbeatAlertname {
        var wasMissing := cluster.state.Missing?;
        clusters := clusters[c := cluster.(lastHeartbeatAt := Some(now), state := Healthy)];
        if wasMissing { ResolveHeartbeatLostEvent(c, now); }
        return Heartbeat;
      }
      if !a.startsAt.At? { return Skipped; }
      var startsAt := a.startsAt.time;
      var endsAt := EndOf(a);
      var existing := GetExisting(State(), (c, a.fingerprint, startsAt));
      if existing.None? {
        var e := nextEvent;
        events, nextEvent := events[e := NewRow(dir, c, a, startsAt, now)], nextEvent + 1;
        if a.status.Resolved? { return NewResolved; }
        OnEventTransition(Created, e);
        return NewFiring;
      }
      var e := existing.value;
      events := events[e := events[e].(lastReceivedAt := now, receiveCount := events[e].receiveCount + 1)];
      if a.status.Resolved? && events[e].status.Firing? {
        events := events[e := events[e].(status := Resolved, endsAt := endsAt)];
        assert events == old(events)[e := events[e]];
        OnEventTransition(Resolution, e);
        return NowResolved;
      } else if a.status.Firing? && events[e].status.Resolved? {
        events := events[e := events[e].(status := Firing, endsAt := None)];
        assert events == old(events)[e := events[e]];
        OnEventTransition(Reopened, e);
        return NowReopened;
      }
      return Repeat;
    }

    method IngestBatch(dir: Directory, c: nat, arrivals: seq<Arrival>) returns (result: Counters)
      requires c in clusters
      modifies this
      ensures (State(), result) == IngestWebhook(old(State()), dir, c, arrivals)
    {
      hide IngestOne;
      ghost var before := State();
      result := NO_ALERTS;
      for i := 0 to |arrivals|
        invariant c in clusters
        invariant (State(), result) == IngestWebhook(before, dir, c, arrivals[..i])
      {
        IngestUnfolds(before, dir, c, arrivals, i);
        result := result.(received := result.received + 1);
        IngestOneKeepsClusters(State(), dir, c, arrivals[i].alert, arrivals[i].at);
        var tally := IngestAlert(dir, c, arrivals[i].alert, arrivals[i].at);
        result := Count(result, tally);
      }
      assert arrivals[..|arrivals|] == arrivals;
    }

    /** _check_and_flip_one: returns whether the cluster just went missing. */
    method CheckAndFlipOne(dir: Directory, c: nat, now: Time) returns (wentMissing: bool)
      modifies this
      ensures State() == H.CheckAndFlip(old(State()), dir, c, now)
      ensures wentMissing == (c in old(clusters) && H.TimedOut(old(clusters)[c], now))
      ensures wentMissing
              <==> c in old(clusters)
                   && var was := old(clusters)[c];
                      was.enabled && was.heartbeatEnabled && was.state == Healthy && was.lastHeartbeatAt.Some?
                      && now - was.lastHeartbeatAt.value > was.timeoutSeconds * 1_000_000
                      && was.heartbeatAlertname != "KamClusterHeartbeatLost"
    {
      hide IngestOne;
      if c !in clusters { return false; }
      var cluster := clusters[c];
      if !cluster.enabled || !cluster.heartbeatEnabled || !cluster.state.Healthy? { return false; }
      if cluster.lastHeartbeatAt.None? { return false; }
      if now - cluster.lastHeartbeatAt.value <= cluster.timeoutSeconds * SECOND { return false; }
      if cluster.heartbeatAlertname == HEARTBEAT_LOST_ALERTNAME { return false; }
      cluster := cluster.(state := Missing);
      clusters := clusters[c := cluster];
      var _ := IngestAlert(dir, c, H.SyntheticAlert(dir, c, cluster, now), now);
      return true;
    }

    method SweepClusters(dir: Directory, now: Time) returns (checked: nat)
      modifies this
      ensures State() == H.Sweep(old(State()), dir, now)
      ensures checked == |set c | c in old(clusters) && old(clusters)[c].enabled && old(clusters)[c].heartbeatEnabled
                                  && old(clusters)[c].state == Healthy|
    {
      D.CandidatesAre(State());
      assert D.Watchable(State()) == set c | c in old(clusters) && old(clusters)[c].enabled
                                             && old(clusters)[c].heartbeatEnabled && old(clusters)[c].state == Healthy;
      hide H.CheckAndFlip, H.Candidates, H.TimedOut;
      ghost var before := State();
      var candidates := Ascending(H.Candidates(State()));
      checked := |candidates|;
      for i := 0 to |candidates|
        invariant State() == H.SweepEach(before, dir, candidates[..i], now)
      {
        SweepUnfolds(before, dir, candidates, i, now);
        var c := candidates[i].1;
        if c < 0 { continue; }
        var _ := CheckAndFlipOne(dir, c, now);
      }
      assert candidates[..|candidates|] == candidates;
    }

    static method PatchFields(was: Cluster, p: H.Patch) returns (cluster: Cluster)
      ensures cluster == H.ApplyPatch(was, p)
    {
      cluster := was;
      if p.enabled.Some? { cluster := cluster.(enabled := p.enabled.value); }
      if p.heartbeatEnabled.Some? { cluster := cluster.(heartbeatEnabled := p.heartbeatEnabled.value); }
      if p.heartbeatAlertname.Some? { cluster := cluster.(heartbeatAlertname := p.heartbeatAlertname.value); }
      if p.timeoutSeconds.Some? { cluster := cluster.(timeoutSeconds := p.timeoutSeconds.value); }
      if p.team.Some? { cluster := cluster.(team := p.team.value); }
    }

    method UpdateClusterSettings(c: nat, p: H.Patch, now: Time)
      requires c in clusters
      modifies this
      ensures State() == H.UpdateCluster(old(State()), c, p, now)
    {
      hide ResolveHeartbeatLost, H.ApplyPatch;
      var disablingWhileMissing :=
        clusters[c].state.Missing? && (p.enabled == Some(false) || p.heartbeatEnabled == Some(false));
      var cluster := PatchFields(clusters[c], p);
      if disablingWhileMissing {
        clusters := clusters[c := cluster.(state := NeverSeen)];
        ResolveHeartbeatLostEvent(c, now);
      } else {
        clusters := clusters[c := cluster];
      }
    }
  }

  lemma CloseNone(b: Book, now: Time)
    ensures CloseIncidents(b, [], now) == b
  {
  }
}
