/** What the route and channel endpoints accept, and what they store: field by field, for every request. */
module Endpoints {
  import opened Prelude
  import opened Model
  import opened Config

  predicate Minutes(given: Option<int>) {
    given.Some? && given.value >= 1
  }

  /** A live channel of the team's own. */
  predicate Own(s: Settings, team: nat, c: nat) {
    c in s.channels && !s.channels[c].deleted && s.channels[c].team == team
  }

  /** A live channel that is the team's own or consents to other teams. */
  predicate Open(s: Settings, team: nat, c: nat) {
    c in s.channels && !s.channels[c].deleted && (s.channels[c].team == team || s.channels[c].allowCrossTeam)
  }

  /** A suppress rule sends nothing; a notify rule has its own channels, and somewhere and some time to escalate to. */
  predicate Acceptable(s: Settings, team: nat, b: RouteBody) {
    b.wellFormed
    && if b.action == Suppress then
         b.channelIds == [] && !b.escalationEnabled && b.escalationChannelIds == []
         && (b.escalationAfter == None || b.escalationAfter == Some(0)) && b.renotifyInterval == None
       else
         && b.channelIds != [] && (forall c :: c in b.channelIds ==> Own(s, team, c))
         && (b.renotifyInterval == None || Minutes(b.renotifyInterval))
         && (b.escalationEnabled ==>
               Minutes(b.escalationAfter) && b.escalationChannelIds != []
               && forall c :: c in b.escalationChannelIds ==> Open(s, team, c))
  }

  lemma AcceptedExactlyWhen(s: Settings, team: nat, b: RouteBody)
    ensures Compose(s, team, b).Some? <==> Acceptable(s, team, b)
  {
    hide Unique;
  }

  /** The stored rule is the request: escalation only where it is asked for, each channel once. */
  lemma StoredRuleIsRequest(s: Settings, team: nat, b: RouteBody)
    requires Compose(s, team, b).Some?
    ensures var rule := Compose(s, team, b).value;
            var escalates := b.action == Notify && b.escalationEnabled;
            && rule.team == team && rule.action == b.action && rule.enabled == b.enabled
            && rule.notifyOnFiring == b.notifyOnFiring && rule.notifyOnResolved == b.notifyOnResolved
            && rule.includeShared == b.includeShared && rule.clusters == b.clusters && rule.severities == b.severities
            && rule.namespacesInclude == b.namespacesInclude && rule.namespacesExclude == b.namespacesExclude
            && |rule.matchers| == |b.matchers|
            && (forall i :: 0 <= i < |b.matchers| ==>
                  rule.matchers[i]
                  == Matcher(b.matchers[i].kind, b.matchers[i].target, b.matchers[i].key, b.matchers[i].pattern, i))
            && (forall c :: c in rule.channels <==> c in b.channelIds)
            && rule.escalationEnabled == escalates
              && rule.escalationAfter == (if escalates then b.escalationAfter else None)
            && (forall c :: c in rule.escalationChannels <==> escalates && c in b.escalationChannelIds)
            && rule.renotifyInterval == (if b.action == Notify then b.renotifyInterval else None)
            && NoRepeats(rule.channels) && NoRepeats(rule.escalationChannels)
  {
  }

  /** Creating, replacing and deleting a route touch that route alone; what is not accepted changes nothing. */
  lemma RoutesAreServed(s: Settings, team: nat, r: nat, b: RouteBody)
    ensures CreateRoute(s, team, b)
            == if Acceptable(s, team, b)
               then Ok(s.(rules := s.rules[s.nextRule := Compose(s, team, b).value], nextRule := s.nextRule + 1))
               else Err(Unprocessable)
    ensures UpdateRoute(s, r, b)
            == if r !in s.rules then Err(NotFound)
               else if Acceptable(s, s.rules[r].team, b)
               then Ok(s.(rules := s.rules[r := Compose(s, s.rules[r].team, b).value]))
               else Err(Unprocessable)
    ensures DeleteRoute(s, r) == if r in s.rules then Ok(s.(rules := s.rules - {r})) else Err(NotFound)
  {
    hide Compose, Acceptable;
    AcceptedExactlyWhen(s, team, b);
    if r in s.rules { AcceptedExactlyWhen(s, s.rules[r].team, b); }
  }

  /** A rule that loses a channel to escalate to, and its escalation with the last one. */
  function LosesEscalation(rule: RoutingRule, c: nat): RoutingRule {
    var rest := Without(rule.escalationChannels, c);
    if rule.escalationEnabled && rest == []
    then rule.(escalationChannels := rest, escalationEnabled := false, escalationAfter := None)
    else rule.(escalationChannels := rest)
  }

  lemma NothingToLose(rule: RoutingRule, c: nat)
    requires c !in rule.escalationChannels && (rule.escalationEnabled ==> rule.escalationChannels != [])
    ensures LosesEscalation(rule, c) == rule
  {
    NotThere(rule.escalationChannels, c);
  }

  lemma {:induction false} NotThere(ids: seq<nat>, c: nat)
    requires c !in ids
    ensures Without(ids, c) == ids
  {
    if ids != [] {
      NotThere(ids[..|ids| - 1], c);
      assert ids == ids[..|ids| - 1] + [ids[|ids| - 1]];
    }
  }

  /**
   A patched channel has the given fields and keeps the others; other teams lose it when it takes its consent
   back.
   */
  lemma ChannelIsPatched(s: Settings, c: nat, p: ChannelPatch, r: nat)
    requires SettingsOk(s) && UpdateChannel(s, c, p).Ok? && r in s.rules
    ensures c in s.channels && !s.channels[c].deleted && p.accepted
    ensures var after, was, rule := UpdateChannel(s, c, p).value, s.channels[c], s.rules[r];
            && after == s.(channels := after.channels, rules := after.rules) && after.rules.Keys == s.rules.Keys
            && after.channels == s.channels[c := Channel(
                 was.team, false,
                 if p.enabled.Some? then p.enabled.value else was.enabled,
                 if p.allowCrossTeam.Some? then p.allowCrossTeam.value else was.allowCrossTeam,
                 if p.digestMode.Some? then p.digestMode.value else was.digestMode,
                 if p.rateLimit.Some? then p.rateLimit.value else was.rateLimit,
                 if p.digestWindowMinutes.Some? then p.digestWindowMinutes.value else was.digestWindowMinutes)]
            && !(after.channels[c].digestMode == Auto && after.channels[c].rateLimit == None)
            && after.rules[r]
               == if p.allowCrossTeam == Some(false) && was.allowCrossTeam && rule.team != was.team
                  then LosesEscalation(rule, c) else rule
  {
    hide Without, NoRepeats;
    assert RuleOk(s, s.rules[r]);
    if c !in s.rules[r].escalationChannels { NothingToLose(s.rules[r], c); }
  }

  /** When a channel patch is refused. */
  lemma PatchIsRefusedExactlyWhen(s: Settings, c: nat, p: ChannelPatch)
    ensures UpdateChannel(s, c, p) == Err(NotFound) <==> c !in s.channels || s.channels[c].deleted
    ensures UpdateChannel(s, c, p) == Err(Unprocessable)
            <==> c in s.channels && !s.channels[c].deleted
                 && (!p.accepted
                     || ((if p.digestMode.Some? then p.digestMode.value else s.channels[c].digestMode) == Auto
                         && (if p.rateLimit.Some? then p.rateLimit.value else s.channels[c].rateLimit) == None))
  {
    hide StripEscalation, OtherTeams;
  }

  /** A deleted channel stays as a tombstone, and every rule loses it, to send to and to escalate to. */
  lemma ChannelIsDeleted(s: Settings, c: nat, r: nat)
    requires SettingsOk(s) && r in s.rules
    ensures DeleteChannel(s, c).Ok? <==> c in s.channels && !s.channels[c].deleted
    ensures DeleteChannel(s, c).Err? ==> DeleteChannel(s, c) == Err(NotFound)
    ensures DeleteChannel(s, c).Ok? ==>
              var after := DeleteChannel(s, c).value;
              && after == s.(channels := after.channels, rules := after.rules) && after.rules.Keys == s.rules.Keys
              && after.channels == s.channels[c := s.channels[c].(deleted := true)]
              && after.rules[r] == LosesEscalation(s.rules[r].(channels := Without(s.rules[r].channels, c)), c)
  {
    hide Without, NoRepeats;
    assert RuleOk(s, s.rules[r]);
    var stripped := s.rules[r].(channels := Without(s.rules[r].channels, c));
    if c !in s.rules[r].escalationChannels { NothingToLose(stripped, c); }
  }
}
