/** routes.py and channels.py: the endpoints that keep every stored escalation usable. */
module Config {
  import opened Prelude
  import opened Model
  import D = Dispatch

  datatype MatcherInput = MatcherInput(kind: string, target: string, key: Option<string>, pattern: string)

  /** The body of a route request. `wellFormed` stands for the checks on severities, patterns, clusters and template. */
  datatype RouteBody = RouteBody(
    action: RuleAction,
    enabled: bool,
    notifyOnFiring: bool,
    notifyOnResolved: bool,
    includeShared: bool,
    clusters: seq<nat>,
    severities: seq<string>,
    namespacesInclude: seq<string>,
    namespacesExclude: seq<string>,
    matchers: seq<MatcherInput>,
    channelIds: seq<nat>,
    escalationEnabled: bool,
    escalationAfter: Option<int>,
    escalationChannelIds: seq<nat>,
    renotifyInterval: Option<int>,
    wellFormed: bool)

  /**
   A channel patch; absent fields are left alone. `accepted` stands for the checks on configuration, template
   and name.
   */
  datatype ChannelPatch = ChannelPatch(
    enabled: Option<bool>, allowCrossTeam: Option<bool>, rateLimit: Option<Option<nat>>, digestMode: Option<DigestMode>,
    digestWindowMinutes: Option<nat>, accepted: bool)

  datatype Settings = Settings(channels: map<nat, Channel>, rules: map<nat, RoutingRule>, nextChannel: nat,
                               nextRule: nat)

  datatype HttpError = NotFound | Unprocessable

  /** dict.fromkeys: the first occurrence of each id. */
  function Unique(ids: seq<nat>): (r: seq<nat>)
    ensures forall c :: c in r <==> c in ids
    ensures NoRepeats(r)
  {
    if ids == [] then []
    else
      var front, last := ids[..|ids| - 1], ids[|ids| - 1];
      assert ids == front + [last];
      var r := Unique(front);
      if last in r then r else r + [last]
  }

  predicate NoRepeats(ids: seq<nat>) {
    forall i, j :: 0 <= i < j < |ids| ==> ids[i] != ids[j]
  }

  // ---- validation ----

  predicate Truthy(minutes: Option<int>) {
    minutes.Some? && minutes.value != 0
  }

  /** _validate_escalation passes. */
  predicate EscalationValid(b: RouteBody) {
    if b.action.Suppress? then
      !b.escalationEnabled && b.escalationChannelIds == [] && !Truthy(b.escalationAfter) && b.renotifyInterval.None?
    else
      && (b.escalationEnabled ==> Truthy(b.escalationAfter) && b.escalationAfter.value >= 1
                                  && b.escalationChannelIds != [])
      && (b.renotifyInterval.Some? ==> b.renotifyInterval.value >= 1)
  }

  /** _resolve_channels: None is a 422. */
  function ResolveChannels(s: Settings, team: nat, action: RuleAction, ids: seq<nat>): Option<seq<nat>> {
    if action.Suppress? then (if ids != [] then None else Some([]))
    else if ids == [] then None
    else if exists c :: c in ids && (!LiveChannel(s.channels, c) || s.channels[c].team != team) then None
    else Some(Unique(ids))
  }

  predicate MayEscalateTo(s: Settings, team: nat, c: nat) {
    LiveChannel(s.channels, c) && (s.channels[c].team == team || s.channels[c].allowCrossTeam)
  }

  /** _resolve_escalation_channels */
  function ResolveEscalation(s: Settings, team: nat, ids: seq<nat>): Option<seq<nat>> {
    if exists c :: c in ids && !MayEscalateTo(s, team, c) then None else Some(Unique(ids))
  }

  // ---- endpoints ----

  function StoredMatchers(ms: seq<MatcherInput>): seq<Matcher> {
    seq(|ms|, i requires 0 <= i < |ms| => Matcher(ms[i].kind, ms[i].target, ms[i].key, ms[i].pattern, i))
  }

  function RuleFrom(team: nat, b: RouteBody, channels: seq<nat>, escalationChannels: seq<nat>): RoutingRule {
    var escalates := b.action.Notify? && b.escalationEnabled;
    RoutingRule(
      team, b.action, b.enabled, b.notifyOnFiring, b.notifyOnResolved, b.includeShared, b.clusters, b.severities,
      b.namespacesInclude, b.namespacesExclude, StoredMatchers(b.matchers), channels, escalates,
      if escalates then b.escalationAfter else None, escalationChannels,
      if b.action.Notify? then b.renotifyInterval else None)
  }

  /** What create_route and update_route share: the rule to store, or nothing on a 422. */
  function Compose(s: Settings, team: nat, b: RouteBody): Option<RoutingRule> {
    if !b.wellFormed || !EscalationValid(b) then None
    else
      var channels := ResolveChannels(s, team, b.action, b.channelIds);
      var escalation :=
        ResolveEscalation(s, team, if b.action.Notify? && b.escalationEnabled then b.escalationChannelIds else []);
      if channels.None? || escalation.None? then None else Some(RuleFrom(team, b, channels.value, escalation.value))
  }

  function CreateRoute(s: Settings, team: nat, b: RouteBody): Result<Settings, HttpError> {
    match Compose(s, team, b)
    case None => Err(Unprocessable)
    case Some(rule) => Ok(s.(rules := s.rules[s.nextRule := rule], nextRule := s.nextRule + 1))
  }

  function UpdateRoute(s: Settings, r: nat, b: RouteBody): Result<Settings, HttpError> {
    if r !in s.rules then Err(NotFound)
    else
      match Compose(s, s.rules[r].team, b)
      case None => Err(Unprocessable)
      case Some(rule) => Ok(s.(rules := s.rules[r := rule]))
  }

  function DeleteRoute(s: Settings, r: nat): Result<Settings, HttpError> {
    if r !in s.rules then Err(NotFound) else Ok(s.(rules := s.rules - {r}))
  }

  function Without(ids: seq<nat>, c: nat): (r: seq<nat>)
    ensures forall d :: d in r <==> d in ids && d != c
    ensures NoRepeats(ids) ==> NoRepeats(r)
  {
    if ids == [] then []
    else
      var front, last := ids[..|ids| - 1], ids[|ids| - 1];
      assert ids == front + [last];
      var r := Without(front, c);
      assert NoRepeats(ids) ==> last !in front;
      if last == c then r else r + [last]
  }

  /** A rule left with no escalation channel stops escalating. */
  function ClearIfEmptied(rule: RoutingRule): RoutingRule {
    if rule.escalationEnabled && rule.escalationChannels == [] then
      rule.(escalationEnabled := false, escalationAfter := None)
    else rule
  }

  /** Removing a channel from the escalation of some rules, and clearing those it empties. */
  function StripEscalation(rules: map<nat, RoutingRule>, c: nat, affected: set<nat>): map<nat, RoutingRule> {
    map r | r in rules ::
      if r in affected then ClearIfEmptied(rules[r].(escalationChannels := Without(rules[r].escalationChannels, c)))
        else rules[r]
  }

  function EscalatingTo(s: Settings, c: nat): set<nat> {
    set r | r in s.rules && c in s.rules[r].escalationChannels
  }

  function OtherTeams(s: Settings, c: nat): set<nat>
    requires c in s.channels
  {
    set r | r in s.rules && c in s.rules[r].escalationChannels && s.rules[r].team != s.channels[c].team
  }

  function Patched(ch: Channel, p: ChannelPatch): Channel {
    ch.(enabled := if p.enabled.Some? then p.enabled.value else ch.enabled,
        allowCrossTeam := if p.allowCrossTeam.Some? then p.allowCrossTeam.value else ch.allowCrossTeam,
        rateLimit := if p.rateLimit.Some? then p.rateLimit.value else ch.rateLimit,
        digestMode := if p.digestMode.Some? then p.digestMode.value else ch.digestMode,
        digestWindowMinutes := if p.digestWindowMinutes.Some? then p.digestWindowMinutes.value
          else ch.digestWindowMinutes)
  }

  predicate Revokes(ch: Channel, p: ChannelPatch) {
    p.allowCrossTeam == Some(false) && ch.allowCrossTeam
  }

  function UpdateChannel(s: Settings, c: nat, p: ChannelPatch): Result<Settings, HttpError> {
    if !LiveChannel(s.channels, c) then Err(NotFound)
    else
      var ch := Patched(s.channels[c], p);
      if !p.accepted || (ch.digestMode.Auto? && ch.rateLimit.None?) then Err(Unprocessable)
      else
        Ok(s.(channels := s.channels[c := ch],
              rules := if Revokes(s.channels[c], p) then StripEscalation(s.rules, c, OtherTeams(s, c)) else s.rules))
  }

  function StripChannel(rules: map<nat, RoutingRule>, c: nat): map<nat, RoutingRule> {
    map r | r in rules :: rules[r].(channels := Without(rules[r].channels, c))
  }

  function DeleteChannel(s: Settings, c: nat): Result<Settings, HttpError> {
    if !LiveChannel(s.channels, c) then Err(NotFound)
    else
      Ok(s.(channels := s.channels[c := s.channels[c].(deleted := true)],
            rules := StripEscalation(StripChannel(s.rules, c), c, EscalatingTo(s, c))))
  }

  function CreateChannel(s: Settings, ch: Channel, accepted: bool): Result<Settings, HttpError> {
    if !accepted || ch.deleted || (ch.digestMode.Auto? && ch.rateLimit.None?) then Err(Unprocessable)
    else Ok(s.(channels := s.channels[s.nextChannel := ch], nextChannel := s.nextChannel + 1))
  }

  // ---- the invariant ----

  /**
   Escalation that is on belongs to a notify rule, waits at least a minute and has somewhere to go; escalation that
   is off is stored as unset. Every escalation channel lives and is the team's own or consents.
   */
  predicate RuleOk(s: Settings, rule: RoutingRule) {
    && (if rule.escalationEnabled
        then rule.action.Notify? && rule.escalationAfter.Some? && rule.escalationAfter.value >= 1
          && rule.escalationChannels != []
        else rule.escalationAfter.None? && rule.escalationChannels == [])
    && (forall c :: c in rule.escalationChannels ==> MayEscalateTo(s, rule.team, c))
    && (forall c :: c in rule.channels ==> LiveChannel(s.channels, c) && s.channels[c].team == rule.team)
    && NoRepeats(rule.escalationChannels) && NoRepeats(rule.channels)
    && (rule.action.Suppress? ==> rule.channels == [] && rule.renotifyInterval.None?)
    && (rule.renotifyInterval.Some? ==> rule.renotifyInterval.value >= 1)
    && (forall i :: 0 <= i < |rule.matchers| ==> rule.matchers[i].position == i)
  }

  predicate SettingsOk(s: Settings) {
    && (forall r :: r in s.rules ==> RuleOk(s, s.rules[r]))
    && (forall c :: c in s.channels ==> c < s.nextChannel)
    && (forall c :: c in s.channels ==> s.channels[c].digestMode.Auto? ==> s.channels[c].rateLimit.Some?)
  }

  lemma ComposedIsOk(s: Settings, team: nat, b: RouteBody)
    requires Compose(s, team, b).Some?
    ensures RuleOk(s, Compose(s, team, b).value) && Compose(s, team, b).value.team == team
  {
    assert Unique([]) == [];
    assert b.escalationChannelIds != [] ==> b.escalationChannelIds[0] in Unique(b.escalationChannelIds);
    hide Unique, NoRepeats;
  }

  lemma EscalatesOnlyWhereItMay(s: Settings, rule: RoutingRule, c: nat)
    requires RuleOk(s, rule) && c in rule.escalationChannels
    ensures MayEscalateTo(s, rule.team, c)
  {
    hide NoRepeats;
  }

  lemma StrippedIsOk(s: Settings, after: Settings, rule: RoutingRule, c: nat)
    requires RuleOk(s, rule)
    requires forall d :: d != c && LiveChannel(s.channels, d) ==>
               LiveChannel(after.channels, d) && after.channels[d] == s.channels[d]
    requires c in rule.channels ==> LiveChannel(after.channels, c) && after.channels[c].team == s.channels[c].team
    ensures RuleOk(after, ClearIfEmptied(rule.(escalationChannels := Without(rule.escalationChannels, c))))
  {
    assert Without([], c) == [];
    hide Without, NoRepeats;
  }

  lemma UpdateChannelKeeps(s: Settings, c: nat, p: ChannelPatch)
    requires SettingsOk(s) && UpdateChannel(s, c, p).Ok?
    ensures SettingsOk(UpdateChannel(s, c, p).value)
  {
    hide Without, NoRepeats, ClearIfEmptied, RuleOk;
    var after := UpdateChannel(s, c, p).value;
    forall r | r in after.rules ensures RuleOk(after, after.rules[r]) {
      assert RuleOk(s, s.rules[r]);
      if Revokes(s.channels[c], p) && r in OtherTeams(s, c) {
        StrippedIsOk(s, after, s.rules[r], c);
      } else {
        if c in s.rules[r].escalationChannels { EscalatesOnlyWhereItMay(s, s.rules[r], c); }
        UntouchedIsOk(s, after, s.rules[r], c);
      }
    }
  }

  lemma UntouchedIsOk(s: Settings, after: Settings, rule: RoutingRule, c: nat)
    requires RuleOk(s, rule)
    requires forall d :: d != c && LiveChannel(s.channels, d) ==>
               LiveChannel(after.channels, d) && after.channels[d] == s.channels[d]
    requires c in rule.channels || c in rule.escalationChannels
             ==> LiveChannel(after.channels, c) && after.channels[c].team == s.channels[c].team
    requires c in rule.escalationChannels ==> MayEscalateTo(after, rule.team, c)
    ensures RuleOk(after, rule)
  {
    hide NoRepeats;
  }

  lemma DeleteChannelKeeps(s: Settings, c: nat)
    requires SettingsOk(s) && DeleteChannel(s, c).Ok?
    ensures SettingsOk(DeleteChannel(s, c).value)
  {
    hide Without, NoRepeats, ClearIfEmptied, RuleOk;
    var after := DeleteChannel(s, c).value;
    forall r | r in after.rules ensures RuleOk(after, after.rules[r]) {
      assert RuleOk(s, s.rules[r]);
      var stripped := s.rules[r].(channels := Without(s.rules[r].channels, c));
      ChannelsStripped(s, s.rules[r], c);
      if r in EscalatingTo(s, c) {
        StrippedIsOk(s, after, stripped, c);
      } else {
        UntouchedIsOk(s, after, stripped, c);
      }
    }
  }

  lemma ChannelsStripped(s: Settings, rule: RoutingRule, c: nat)
    requires RuleOk(s, rule)
    ensures RuleOk(s, rule.(channels := Without(rule.channels, c)))
  {
    if rule.channels == [] { assert Without(rule.channels, c) == []; }
    hide Without, NoRepeats;
  }

  lemma CreateChannelKeeps(s: Settings, ch: Channel, accepted: bool)
    requires SettingsOk(s) && CreateChannel(s, ch, accepted).Ok?
    ensures SettingsOk(CreateChannel(s, ch, accepted).value)
  {
    hide RuleOk, NoRepeats;
    var after := CreateChannel(s, ch, accepted).value;
    forall r | r in after.rules ensures RuleOk(after, after.rules[r]) {
      assert RuleOk(s, s.rules[r]);
      FreshChannelKeeps(s, after, s.rules[r]);
    }
  }

  lemma FreshChannelKeeps(s: Settings, after: Settings, rule: RoutingRule)
    requires RuleOk(s, rule) && forall d :: d in s.channels ==>
               d in after.channels && after.channels[d] == s.channels[d]
    ensures RuleOk(after, rule)
  {
    hide NoRepeats;
  }

  lemma RuleFrame(s: Settings, after: Settings, rule: RoutingRule)
    requires RuleOk(s, rule) && after.channels == s.channels
    ensures RuleOk(after, rule)
  {
    hide NoRepeats;
  }

  datatype Request =
    | PostRoute(team: nat, body: RouteBody)
    | PutRoute(route: nat, body: RouteBody)
    | RemoveRoute(route: nat)
    | PostChannel(channel: Channel, accepted: bool)
    | PatchChannel(id: nat, patch: ChannelPatch)
    | RemoveChannel(id: nat)

  function Serve(s: Settings, q: Request): Result<Settings, HttpError> {
    match q
    case PostRoute(team, b) => CreateRoute(s, team, b)
    case PutRoute(r, b) => UpdateRoute(s, r, b)
    case RemoveRoute(r) => DeleteRoute(s, r)
    case PostChannel(ch, accepted) => CreateChannel(s, ch, accepted)
    case PatchChannel(c, p) => UpdateChannel(s, c, p)
    case RemoveChannel(c) => DeleteChannel(s, c)
  }

  lemma ServeKeeps(s: Settings, q: Request)
    requires SettingsOk(s) && Serve(s, q).Ok?
    ensures SettingsOk(Serve(s, q).value)
  {
    var after := Serve(s, q).value;
    match q {
      case PostRoute(team, b) =>
        ComposedIsOk(s, team, b);
        hide RuleOk, Compose;
        forall r | r in after.rules ensures RuleOk(after, after.rules[r]) { RuleFrame(s, after, after.rules[r]); }
      case PutRoute(r, b) =>
        ComposedIsOk(s, s.rules[r].team, b);
        hide RuleOk, Compose;
        forall k | k in after.rules ensures RuleOk(after, after.rules[k]) { RuleFrame(s, after, after.rules[k]); }
      case RemoveRoute(_) =>
        hide RuleOk;
        forall k | k in after.rules ensures RuleOk(after, after.rules[k]) { RuleFrame(s, after, s.rules[k]); }
      case PostChannel(ch, accepted) => CreateChannelKeeps(s, ch, accepted); hide SettingsOk;
      case PatchChannel(c, p) => UpdateChannelKeeps(s, c, p); hide SettingsOk;
      case RemoveChannel(c) => DeleteChannelKeeps(s, c); hide SettingsOk;
    }
  }

  /** A failed request changes nothing. */
  function After(s: Settings, qs: seq<Request>): Settings {
    if qs == [] then s
    else
      var before := After(s, qs[..|qs| - 1]);
      match Serve(before, qs[|qs| - 1]) case Ok(after) => after case Err(_) => before
  }

  /** Across any sequence of requests every stored escalation stays usable. */
  lemma {:induction false} RequestsKeepSettings(s: Settings, qs: seq<Request>)
    requires SettingsOk(s)
    ensures SettingsOk(After(s, qs))
  {
    hide SettingsOk, Serve;
    if qs != [] {
      RequestsKeepSettings(s, qs[..|qs| - 1]);
      var before := After(s, qs[..|qs| - 1]);
      if Serve(before, qs[|qs| - 1]).Ok? { ServeKeeps(before, qs[|qs| - 1]); }
    }
  }

  // ---- reading a rule and saving it again ----

  /** The body a client sends back after reading a rule. */
  function ReadBack(rule: RoutingRule): RouteBody {
    RouteBody(
      rule.action, rule.enabled, rule.notifyOnFiring, rule.notifyOnResolved, rule.includeShared, rule.clusters,
      rule.severities, rule.namespacesInclude, rule.namespacesExclude,
      seq(|rule.matchers|, i requires 0 <= i < |rule.matchers| =>
        MatcherInput(rule.matchers[i].kind, rule.matchers[i].target, rule.matchers[i].key, rule.matchers[i].pattern)),
      rule.channels, rule.escalationEnabled, rule.escalationAfter, rule.escalationChannels, rule.renotifyInterval, true)
  }

  lemma {:induction false} UniqueStaysPut(ids: seq<nat>)
    requires NoRepeats(ids)
    ensures Unique(ids) == ids
  {
    if ids != [] {
      UniqueStaysPut(ids[..|ids| - 1]);
      assert ids == ids[..|ids| - 1] + [ids[|ids| - 1]];
    }
  }

  lemma ReadBackRule(rule: RoutingRule)
    requires forall i :: 0 <= i < |rule.matchers| ==> rule.matchers[i].position == i
    ensures StoredMatchers(ReadBack(rule).matchers) == rule.matchers
  {
  }

  /**
   Saving a rule just as it was read always passes the escalation checks, and leaves everything as it was; the save
   as a whole is refused exactly for a notify rule that has lost its last channel.
   */
  lemma ResaveIsIdentity(s: Settings, r: nat)
    requires SettingsOk(s) && r in s.rules
    ensures EscalationValid(ReadBack(s.rules[r]))
    ensures ResolveEscalation(s, s.rules[r].team, s.rules[r].escalationChannels) == Some(s.rules[r].escalationChannels)
    ensures UpdateRoute(s, r, ReadBack(s.rules[r]))
            == if s.rules[r].action.Notify? && s.rules[r].channels == [] then Err(Unprocessable) else Ok(s)
  {
    hide Unique, NoRepeats, StoredMatchers;
    var rule := s.rules[r];
    assert RuleOk(s, rule);
    UniqueStaysPut(rule.escalationChannels);
    UniqueStaysPut(rule.channels);
    UniqueStaysPut([]);
    ReadBackRule(rule);
    assert s.rules[r := rule] == s.rules;
  }

  function Plain(): Channel {
    Channel(0, false, true, false, Off, None, 5)
  }

  function ToChannel(c: nat): RouteBody {
    RouteBody(Notify, true, true, false, false, [], [], [], [], [], [c], false, None, [], None, true)
  }

  function OneChannel(): Settings {
    Settings(map[0 := Plain()], map[], 1, 0)
  }

  function OneRule(): Settings {
    Settings(map[0 := Plain()], map[0 := RuleFrom(0, ToChannel(0), [0], [])], 1, 1)
  }

  lemma RuleIsStored()
    ensures Serve(OneChannel(), PostRoute(0, ToChannel(0))) == Ok(OneRule())
  {
    hide Unique, RuleFrom;
    var s, b := OneChannel(), ToChannel(0);
    UniqueStaysPut([0]);
    UniqueStaysPut([]);
    assert ResolveChannels(s, 0, Notify, [0]) == Some([0]);
    assert ResolveEscalation(s, 0, []) == Some([]);
  }

  lemma ChannelIsStripped()
    ensures var q := Serve(OneRule(), RemoveChannel(0));
            q.Ok? && 0 in q.value.rules && q.value.rules[0].action.Notify? && q.value.rules[0].channels == []
  {
    assert Without([0], 0) == [];
  }

  /** Three accepted requests after which a stored rule can no longer be saved as read. */
  lemma DeletedChannelBlocksResave()
    ensures var qs := [PostChannel(Plain(), true), PostRoute(0, ToChannel(0)), RemoveChannel(0)];
            var s := After(Settings(map[], map[], 0, 0), qs);
            && 0 in s.rules && s.rules[0].action.Notify? && s.rules[0].channels == []
            && UpdateRoute(s, 0, ReadBack(s.rules[0])) == Err(Unprocessable)
  {
    var none := Settings(map[], map[], 0, 0);
    var qs := [PostChannel(Plain(), true), PostRoute(0, ToChannel(0)), RemoveChannel(0)];
    assert Serve(none, qs[0]) == Ok(OneChannel());
    RuleIsStored();
    ChannelIsStripped();
    RequestsKeepSettings(none, qs);
    AfterThree(none, qs);
    ResaveIsIdentity(After(none, qs), 0);
    hide After, Serve, UpdateRoute, SettingsOk, ReadBack, OneChannel, OneRule;
  }

  lemma AfterThree(s: Settings, qs: seq<Request>)
    requires |qs| == 3 && Serve(s, qs[0]).Ok? && Serve(Serve(s, qs[0]).value, qs[1]).Ok?
    requires Serve(Serve(Serve(s, qs[0]).value, qs[1]).value, qs[2]).Ok?
    ensures After(s, qs) == Serve(Serve(Serve(s, qs[0]).value, qs[1]).value, qs[2]).value
  {
    hide Serve;
    assert qs[..1][..0] == [];
    assert After(s, qs[..1]) == Serve(s, qs[0]).value;
    assert qs[..2][..1] == qs[..1];
    assert After(s, qs[..2]) == Serve(After(s, qs[..1]), qs[1]).value;
  }

  // ---- dispatch ----

  lemma {:induction false} AllowedKeepsAll(db: DB, team: nat, cs: seq<nat>)
    requires forall c :: c in cs ==> c in db.channels && !db.channels[c].deleted
                                     && (db.channels[c].team == team || db.channels[c].allowCrossTeam)
    ensures D.Allowed(db, team, cs) == cs
  {
    if cs != [] {
      AllowedKeepsAll(db, team, cs[1..]);
      assert cs == [cs[0]] + cs[1..];
    }
  }

  /** The consent filter at dispatch time drops nothing, and finds somewhere to go whenever escalation is on. */
  lemma DispatchDropsNothing(s: Settings, db: DB, r: nat)
    requires SettingsOk(s) && r in s.rules && db.channels == s.channels && db.rules == s.rules
    ensures D.Allowed(db, s.rules[r].team, s.rules[r].escalationChannels) == s.rules[r].escalationChannels
    ensures s.rules[r].escalationEnabled ==> s.rules[r].escalationChannels != []
  {
    assert RuleOk(s, s.rules[r]);
    hide NoRepeats;
    AllowedKeepsAll(db, s.rules[r].team, s.rules[r].escalationChannels);
  }

  // ---- the handlers as they change rows ----

  function ClearSome(rules: map<nat, RoutingRule>, ids: set<nat>): map<nat, RoutingRule> {
    map r | r in rules :: if r in ids then ClearIfEmptied(rules[r]) else rules[r]
  }

  function Emptied(rules: map<nat, RoutingRule>, ids: set<nat>): set<nat> {
    set r | r in ids && r in rules && rules[r].escalationEnabled && rules[r].escalationChannels == []
  }

  lemma ClearOneMore(rules: map<nat, RoutingRule>, candidates: set<nat>, cleared: set<nat>, r: nat)
    requires r in Emptied(rules, candidates) && r !in cleared
    ensures r in ClearSome(rules, cleared) && ClearSome(rules, cleared)[r] == rules[r]
    ensures ClearSome(rules, cleared + {r})
            == ClearSome(rules, cleared)[r := rules[r].(escalationEnabled := false, escalationAfter := None)]
  {
    assert ClearIfEmptied(rules[r]) == rules[r].(escalationEnabled := false, escalationAfter := None);
    hide ClearIfEmptied;
  }

  lemma OnlyEmptiedChange(rules: map<nat, RoutingRule>, candidates: set<nat>)
    ensures ClearSome(rules, Emptied(rules, candidates)) == ClearSome(rules, candidates)
    ensures ClearSome(rules, {}) == rules
  {
    forall r | r in rules && r in candidates && r !in Emptied(rules, candidates)
      ensures ClearIfEmptied(rules[r]) == rules[r] {}
    hide ClearIfEmptied;
  }

  class Admin {
    var channels: map<nat, Channel>
    var rules: map<nat, RoutingRule>
    var nextChannel: nat
    var nextRule: nat

    constructor ()
      ensures State() == Settings(map[], map[], 0, 0) && SettingsOk(State())
    {
      channels, rules, nextChannel, nextRule := map[], map[], 0, 0;
    }

    function State(): Settings
      reads this
    {
      Settings(channels, rules, nextChannel, nextRule)
    }

    /** A raised error rolls the request back: the state is as before. */
    ghost predicate Answers(result: Result<Settings, HttpError>, error: Option<HttpError>, before: Settings)
      reads this
    {
      match result
      case Ok(after) => error.None? && State() == after
      case Err(e) => error == Some(e) && State() == before
    }

    method PostRoute(team: nat, b: RouteBody) returns (error: Option<HttpError>)
      modifies this
      ensures Answers(CreateRoute(old(State()), team, b), error, old(State()))
    {
      if !b.wellFormed || !EscalationValid(b) { return Some(Unprocessable); }
      var own := ResolveChannels(State(), team, b.action, b.channelIds);
      if own.None? { return Some(Unprocessable); }
      var escalates := b.action.Notify? && b.escalationEnabled;
      var escalation := ResolveEscalation(State(), team, if escalates then b.escalationChannelIds else []);
      if escalation.None? { return Some(Unprocessable); }
      rules := rules[nextRule := RuleFrom(team, b, own.value, escalation.value)];
      nextRule := nextRule + 1;
      return None;
    }

    /** update_route: every field replaced in place, once all checks have passed. */
    method PutRoute(r: nat, b: RouteBody) returns (error: Option<HttpError>)
      modifies this
      ensures Answers(UpdateRoute(old(State()), r, b), error, old(State()))
    {
      hide ResolveChannels, ResolveEscalation, EscalationValid, StoredMatchers;
      if r !in rules { return Some(NotFound); }
      var rule := rules[r];
      if !b.wellFormed || !EscalationValid(b) { return Some(Unprocessable); }
      var own := ResolveChannels(State(), rule.team, b.action, b.channelIds);
      if own.None? { return Some(Unprocessable); }
      var escalates := b.action.Notify? && b.escalationEnabled;
      var escalation := ResolveEscalation(State(), rule.team, if escalates then b.escalationChannelIds else []);
      if escalation.None? { return Some(Unprocessable); }
      rule := rule.(action := b.action, enabled := b.enabled, notifyOnFiring := b.notifyOnFiring,
                    notifyOnResolved := b.notifyOnResolved, includeShared := b.includeShared,
                    severities := b.severities, namespacesInclude := b.namespacesInclude,
                    namespacesExclude := b.namespacesExclude, clusters := b.clusters);
      rule := rule.(escalationEnabled := escalates, escalationAfter := if escalates then b.escalationAfter else None,
                    renotifyInterval := if b.action.Notify? then b.renotifyInterval else None);
      rule := rule.(channels := own.value, escalationChannels := escalation.value,
                    matchers := StoredMatchers(b.matchers));
      rules := rules[r := rule];
      return None;
    }

    method RemoveRoute(r: nat) returns (error: Option<HttpError>)
      modifies this
      ensures Answers(DeleteRoute(old(State()), r), error, old(State()))
    {
      if r !in rules { return Some(NotFound); }
      rules := rules - {r};
      return None;
    }

    /** _clear_escalation_for_emptied_rules, for rules whose join rows have just been deleted. */
    method ClearEscalationForEmptiedRules(candidates: set<nat>) returns (cleared: set<nat>)
      modifies this`rules
      ensures rules == ClearSome(old(rules), candidates)
      ensures cleared == Emptied(old(rules), candidates)
    {
      var found := Emptied(rules, candidates);
      ghost var before := rules;
      OnlyEmptiedChange(before, candidates);
      hide ClearSome;
      cleared := {};
      var left := found;
      while left != {}
        invariant left + cleared == found && left !! cleared
        invariant rules == ClearSome(before, cleared)
        decreases |left|
      {
        var r :| r in left;
        ClearOneMore(before, candidates, cleared, r);
        rules := rules[r := rules[r].(escalationEnabled := false, escalationAfter := None)];
        left, cleared := left - {r}, cleared + {r};
      }
    }

    /** Deletes a channel's escalation join rows for some rules, then clears the rules left with none. */
    method StripEscalationRows(c: nat, affected: set<nat>)
      modifies this`rules
      ensures rules == StripEscalation(old(rules), c, affected)
    {
      hide Without, ClearIfEmptied;
      rules := map r | r in rules :: if r in affected
        then rules[r].(escalationChannels := Without(rules[r].escalationChannels, c)) else rules[r];
      var _ := ClearEscalationForEmptiedRules(affected);
    }

    method PatchChannel(c: nat, p: ChannelPatch) returns (error: Option<HttpError>)
      modifies this
      ensures Answers(UpdateChannel(old(State()), c, p), error, old(State()))
    {
      hide StripEscalation;
      if c !in channels || channels[c].deleted { return Some(NotFound); }
      var rulesBefore := rules;
      if p.allowCrossTeam == Some(false) && channels[c].allowCrossTeam {
        var affected := OtherTeams(State(), c);
        StripEscalationRows(c, affected);
      }
      var ch := Patched(channels[c], p);
      if !p.accepted || (ch.digestMode.Auto? && ch.rateLimit.None?) {
        rules := rulesBefore;
        return Some(Unprocessable);
      }
      channels := channels[c := ch];
      return None;
    }

    method RemoveChannel(c: nat) returns (error: Option<HttpError>)
      modifies this
      ensures Answers(DeleteChannel(old(State()), c), error, old(State()))
    {
      hide StripEscalation;
      if c !in channels || channels[c].deleted { return Some(NotFound); }
      var affected := EscalatingTo(State(), c);
      channels := channels[c := channels[c].(deleted := true)];
      rules := StripChannel(rules, c);
      StripEscalationRows(c, affected);
      return None;
    }
  }
}
