/** rules.py: an alert rule as a PrometheusRule object, and back. */
module PrometheusRule {
  import opened Prelude
  import opened Text
  import opened PromNumber
  import opened PromExpr

  const MANAGED_BY_LABEL: string := "app.kubernetes.io/managed-by"
  const TEAM_ID_LABEL: string := "kam/team-id"
  const TEAM_SLUG_LABEL: string := "kam/team-slug"
  const MANAGED_BY_VALUE: string := "kam"
  const KAM_TEAM_LABEL: string := "kam_team"
  const SEVERITY_LABEL: string := "severity"
  const RUNBOOK_ANNOTATION: string := "runbook_url"
  const GRAFANA_ANNOTATION: string := "kam_grafana_url"

  datatype Team = Team(id: nat, slug: string)

  datatype Mode = Builder | Promql

  datatype RuleWrite = RuleWrite(
    slug: string,
    alertName: string,
    expr: string,
    forDuration: Option<string>,
    severity: string,
    labels: map<string, string>,
    annotations: map<string, string>,
    runbookUrl: Option<string>,
    grafanaUrl: Option<string>,
    mode: Mode,
    builderState: Option<BuilderState>)

  /** The builder annotation's JSON, by what reading it back gives. */
  datatype Stored = Readable(state: BuilderState) | Unreadable

  datatype AlertRule = AlertRule(
    alert: Option<string>, expr: Option<string>, labels: map<string, string>, forDuration: Option<string>,
    annotations: map<string, string>)

  datatype Group = Group(name: string, rules: seq<AlertRule>)

  /** A live object; a missing mapping or list is an empty one, as the parser treats it. */
  datatype Manifest = Manifest(
    name: Option<string>, labels: map<string, string>, builder: Option<Stored>, groups: seq<Group>)

  /** rule_object_name */
  function ObjectName(teamId: nat, slug: string): string {
    "kam-t" + Decimal(teamId) + "-" + slug
  }

  predicate Given(field: Option<string>) {
    field.Some? && field.value != ""
  }

  /** JSON has no spelling for a non-finite number: it is written as null and refused when read. */
  function DumpJson(s: BuilderState): Stored {
    if s.threshold.NonFinite? then Unreadable else Readable(s)
  }

  function WithLink(annotations: map<string, string>, key: string, link: Option<string>): map<string, string> {
    if Given(link) then annotations[key := link.value] else annotations
  }

  function RuleAnnotations(x: RuleWrite): map<string, string> {
    WithLink(WithLink(x.annotations, RUNBOOK_ANNOTATION, x.runbookUrl), GRAFANA_ANNOTATION, x.grafanaUrl)
  }

  /** build_prometheus_rule */
  function Build(team: Team, x: RuleWrite): Manifest {
    Manifest(
      Some(ObjectName(team.id, x.slug)),
      map[MANAGED_BY_LABEL := MANAGED_BY_VALUE, TEAM_ID_LABEL := Decimal(team.id), TEAM_SLUG_LABEL := team.slug],
      if x.mode.Builder? && x.builderState.Some? then Some(DumpJson(x.builderState.value)) else None,
      [Group("kam-" + team.slug,
             [AlertRule(Some(x.alertName), Some(x.expr),
                        x.labels[KAM_TEAM_LABEL := team.slug][SEVERITY_LABEL := x.severity],
                        if Given(x.forDuration) then x.forDuration else None, RuleAnnotations(x))])])
  }

  function Get(m: map<string, string>, key: string): Option<string> {
    if key in m then Some(m[key]) else None
  }

  function OrEmpty(field: Option<string>): string {
    if field.Some? then field.value else ""
  }

  function FirstRule(m: Manifest): AlertRule {
    if m.groups != [] && m.groups[0].rules != [] then m.groups[0].rules[0]
      else AlertRule(None, None, map[], None, map[])
  }

  /** The name without its `kam-t{id}-` prefix, when the object says whose it is and the name agrees. */
  function SlugOf(name: string, teamId: string): string {
    var prefix := "kam-t" + teamId + "-";
    if teamId != "" && prefix <= name then name[|prefix|..] else name
  }

  /** The stored state, trusted only while it regenerates the expression the rule carries. */
  function TrustedState(stored: Option<Stored>, expr: string): Option<BuilderState> {
    if stored.Some? && stored.value.Readable? && Generate(stored.value.state) == expr then Some(stored.value.state)
      else None
  }

  /** parse_prometheus_rule */
  function ParseRule(m: Manifest): RuleWrite {
    var rule := FirstRule(m);
    var expr := OrEmpty(rule.expr);
    var state := TrustedState(m.builder, expr);
    RuleWrite(
      SlugOf(OrEmpty(m.name), OrEmpty(Get(m.labels, TEAM_ID_LABEL))), OrEmpty(rule.alert), expr, rule.forDuration,
      OrEmpty(Get(rule.labels, SEVERITY_LABEL)), rule.labels - {KAM_TEAM_LABEL} - {SEVERITY_LABEL},
      rule.annotations - {RUNBOOK_ANNOTATION} - {GRAFANA_ANNOTATION},
      Get(rule.annotations, RUNBOOK_ANNOTATION), Get(rule.annotations - {RUNBOOK_ANNOTATION}, GRAFANA_ANNOTATION),
      if state.Some? then Builder else Promql, state)
  }

  // ---- the same, filling and popping dictionaries step by step ----

  method BuildPrometheusRule(team: Team, x: RuleWrite) returns (m: Manifest)
    ensures m == Build(team, x)
  {
    hide Decimal, Generate;
    var labels := x.labels;
    labels := labels[KAM_TEAM_LABEL := team.slug];
    labels := labels[SEVERITY_LABEL := x.severity];
    var annotations := x.annotations;
    if Given(x.runbookUrl) { annotations := annotations[RUNBOOK_ANNOTATION := x.runbookUrl.value]; }
    if Given(x.grafanaUrl) { annotations := annotations[GRAFANA_ANNOTATION := x.grafanaUrl.value]; }
    var rule := AlertRule(Some(x.alertName), Some(x.expr), labels, None, annotations);
    if Given(x.forDuration) { rule := rule.(forDuration := x.forDuration); }
    m := Manifest(
      Some(ObjectName(team.id, x.slug)),
      map[MANAGED_BY_LABEL := MANAGED_BY_VALUE, TEAM_ID_LABEL := Decimal(team.id), TEAM_SLUG_LABEL := team.slug],
      None, [Group("kam-" + team.slug, [rule])]);
    if x.mode.Builder? && x.builderState.Some? { m := m.(builder := Some(DumpJson(x.builderState.value))); }
  }

  /** dict.pop with a default of None. */
  method Pop(m: map<string, string>, key: string) returns (rest: map<string, string>, popped: Option<string>)
    ensures rest == m - {key} && popped == Get(m, key)
  {
    popped := if key in m then Some(m[key]) else None;
    rest := m - {key};
  }

  method ParsePrometheusRule(m: Manifest) returns (x: RuleWrite)
    ensures x == ParseRule(m)
  {
    hide Generate;
    var rule := FirstRule(m);
    var labels, annotations, severity, runbook, grafana := rule.labels, rule.annotations, None, None, None;
    labels, severity := Pop(labels, KAM_TEAM_LABEL);
    labels, severity := Pop(labels, SEVERITY_LABEL);
    annotations, runbook := Pop(annotations, RUNBOOK_ANNOTATION);
    annotations, grafana := Pop(annotations, GRAFANA_ANNOTATION);
    var expr := OrEmpty(rule.expr);
    var mode, state := Promql, None;
    if m.builder.Some? && m.builder.value.Readable? && Generate(m.builder.value.state) == expr {
      mode, state := Builder, Some(m.builder.value.state);
    }
    var slug := SlugOf(OrEmpty(m.name), OrEmpty(Get(m.labels, TEAM_ID_LABEL)));
    x := RuleWrite(slug, OrEmpty(rule.alert), expr, rule.forDuration, OrEmpty(severity), labels, annotations, runbook,
                   grafana, mode, state);
  }

  // ---- names ----

  lemma SlugRecovered(teamId: nat, slug: string)
    ensures SlugOf(ObjectName(teamId, slug), Decimal(teamId)) == slug
  {
    var prefix := "kam-t" + Decimal(teamId) + "-";
    assert ObjectName(teamId, slug) == prefix + slug;
  }

  /** No two teams' rules share an object name, wherever hyphens fall in their slugs. */
  lemma ObjectNameInjective(a: nat, s: string, b: nat, t: string)
    requires ObjectName(a, s) == ObjectName(b, t)
    ensures a == b && s == t
  {
    var name := ObjectName(a, s);
    hide Decimal;
    assert name[5..] == Decimal(a) + ("-" + s);
    assert name[5..] == Decimal(b) + ("-" + t);
    IndexAt(Decimal(a), "-" + s, c => !IsDigit(c));
    IndexAt(Decimal(b), "-" + t, c => !IsDigit(c));
    assert Decimal(a) == name[5..][..|Decimal(a)|];
    assert Decimal(b) == name[5..][..|Decimal(b)|];
    DecimalInjective(a, b);
    SlugRecovered(a, s);
    SlugRecovered(b, t);
  }

  // ---- parse after build ----

  /** The regenerated expression is the stored one, and the state survives storage. */
  predicate InSync(x: RuleWrite) {
    x.mode.Builder? && x.builderState.Some? ==>
      x.builderState.value.threshold.Finite? && Generate(x.builderState.value) == x.expr
  }

  /**
   A rule that keeps the reserved keys out of its free-form maps, leaves nothing present but empty, and is in
   sync.
   */
  predicate NormalForm(x: RuleWrite) {
    && KAM_TEAM_LABEL !in x.labels && SEVERITY_LABEL !in x.labels
    && RUNBOOK_ANNOTATION !in x.annotations && GRAFANA_ANNOTATION !in x.annotations
    && x.forDuration != Some("") && x.runbookUrl != Some("") && x.grafanaUrl != Some("")
    && (x.mode.Builder? <==> x.builderState.Some?) && InSync(x)
  }

  /** The fields that parsing what was built gives back. */
  lemma ParsedFields(team: Team, x: RuleWrite)
    ensures var p := ParseRule(Build(team, x));
            && p.slug == x.slug && p.alertName == x.alertName && p.expr == x.expr && p.severity == x.severity
            && p.forDuration == (if Given(x.forDuration) then x.forDuration else None)
            && p.labels == x.labels - {KAM_TEAM_LABEL, SEVERITY_LABEL}
            && p.annotations == x.annotations - {RUNBOOK_ANNOTATION, GRAFANA_ANNOTATION}
            && p.runbookUrl == (if Given(x.runbookUrl) then x.runbookUrl else Get(x.annotations, RUNBOOK_ANNOTATION))
            && p.grafanaUrl == (if Given(x.grafanaUrl) then x.grafanaUrl else Get(x.annotations, GRAFANA_ANNOTATION))
            && p.builderState == (if x.mode.Builder? && x.builderState.Some? && InSync(x) then x.builderState else None)
            && (p.mode.Builder? <==> p.builderState.Some?)
  {
    hide Generate, Decimal;
    SlugRecovered(team.id, x.slug);
    hide ObjectName, SlugOf;
    var rule := FirstRule(Build(team, x));
    assert rule.labels - {KAM_TEAM_LABEL} - {SEVERITY_LABEL} == x.labels - {KAM_TEAM_LABEL, SEVERITY_LABEL};
    assert rule.annotations - {RUNBOOK_ANNOTATION} - {GRAFANA_ANNOTATION}
        == x.annotations - {RUNBOOK_ANNOTATION, GRAFANA_ANNOTATION};
  }

  /** Parsing what was built gives the rule back exactly when it is in normal form. */
  lemma ParseBuild(team: Team, x: RuleWrite)
    ensures ParseRule(Build(team, x)) == x <==> NormalForm(x)
  {
    ParsedFields(team, x);
    hide Generate, ParseRule, Build;
    assert KAM_TEAM_LABEL !in x.labels && SEVERITY_LABEL !in x.labels
      <==> x.labels - {KAM_TEAM_LABEL, SEVERITY_LABEL} == x.labels;
    assert RUNBOOK_ANNOTATION !in x.annotations && GRAFANA_ANNOTATION !in x.annotations
           <==> x.annotations - {RUNBOOK_ANNOTATION, GRAFANA_ANNOTATION} == x.annotations;
  }

  function Or(field: Option<string>, otherwise: string): string {
    match field case None => otherwise case Some(text) => text
  }

  /** What parsing makes of any object at all, whatever is missing from it. */
  lemma AnyObjectParses(m: Manifest)
    ensures var bare := m.groups == [] || m.groups[0].rules == [];
            var rule := if bare then AlertRule(None, None, map[], None, map[]) else m.groups[0].rules[0];
            var name := Or(m.name, "");
            var prefix := "kam-t" + Or(Get(m.labels, "kam/team-id"), "") + "-";
            var owned := "kam/team-id" in m.labels && m.labels["kam/team-id"] != "" && prefix <= name;
            var p := ParseRule(m);
            && p.slug == (if owned then name[|prefix|..] else name)
            && p.alertName == Or(rule.alert, "") && p.expr == Or(rule.expr, "") && p.forDuration == rule.forDuration
            && p.severity == (if "severity" in rule.labels then rule.labels["severity"] else "")
            && p.labels == rule.labels - {"kam_team", "severity"}
            && p.annotations == rule.annotations - {"runbook_url", "kam_grafana_url"}
            && p.runbookUrl == Get(rule.annotations, "runbook_url")
            && p.grafanaUrl == Get(rule.annotations, "kam_grafana_url")
  {
    hide Generate;
    var rule := FirstRule(m);
    assert rule.labels - {KAM_TEAM_LABEL} - {SEVERITY_LABEL} == rule.labels - {"kam_team", "severity"};
    assert rule.annotations - {RUNBOOK_ANNOTATION} - {GRAFANA_ANNOTATION}
        == rule.annotations - {"runbook_url", "kam_grafana_url"};
  }

  // ---- moving a rule to another team ----

  /** A link is either really given or its annotation is not an empty string. */
  predicate NoEmptyLink(x: RuleWrite) {
    && (Get(x.annotations, RUNBOOK_ANNOTATION) == Some("") ==> Given(x.runbookUrl))
    && (Get(x.annotations, GRAFANA_ANNOTATION) == Some("") ==> Given(x.grafanaUrl))
  }

  lemma LinksSurvive(x: RuleWrite, p: RuleWrite)
    requires p.annotations == x.annotations - {RUNBOOK_ANNOTATION, GRAFANA_ANNOTATION}
    requires p.runbookUrl == (if Given(x.runbookUrl) then x.runbookUrl else Get(x.annotations, RUNBOOK_ANNOTATION))
    requires p.grafanaUrl == (if Given(x.grafanaUrl) then x.grafanaUrl else Get(x.annotations, GRAFANA_ANNOTATION))
    ensures RuleAnnotations(p) == RuleAnnotations(x) <==> NoEmptyLink(x)
  {
    var a, b := RuleAnnotations(x), RuleAnnotations(p);
    if NoEmptyLink(x) {
      assert a == b;
    } else if Get(x.annotations, RUNBOOK_ANNOTATION) == Some("") && !Given(x.runbookUrl) {
      assert RUNBOOK_ANNOTATION in a && RUNBOOK_ANNOTATION !in b;
    } else {
      assert GRAFANA_ANNOTATION in a && GRAFANA_ANNOTATION !in b;
    }
  }

  /**
   Building a parsed rule for another team is building the original for that team, exactly when the builder state
   is in sync (or the rule is plain PromQL) and no link annotation is present but empty.
   */
  lemma RetargetCommutes(from: Team, to: Team, x: RuleWrite)
    ensures Build(to, ParseRule(Build(from, x))) == Build(to, x) <==> InSync(x) && NoEmptyLink(x)
  {
    ParsedFields(from, x);
    var p := ParseRule(Build(from, x));
    LinksSurvive(x, p);
    hide Generate, ParseRule, RuleAnnotations, ObjectName, Decimal, NoEmptyLink;
    assert p.labels[KAM_TEAM_LABEL := to.slug][SEVERITY_LABEL := p.severity]
      == x.labels[KAM_TEAM_LABEL := to.slug][SEVERITY_LABEL := x.severity];
    var built, rebuilt := Build(to, x), Build(to, p);
    assert built.groups[0].rules[0].annotations == RuleAnnotations(x);
    assert rebuilt.groups[0].rules[0].annotations == RuleAnnotations(p);
  }

  function EmptyLink(): RuleWrite {
    RuleWrite("a", "Down", "up == 0", None, "warning", map[], map[RUNBOOK_ANNOTATION := ""], None, None, Promql, None)
  }

  /** Builder mode with an expression edited by hand. */
  function HandEdited(): RuleWrite {
    RuleWrite("a", "Down", "up == 0", None, "warning", map[], map[], None, None,
              Builder, Some(BuilderState("up", [], Less, Finite(ZERO))))
  }

  /** Builder mode whose threshold JSON cannot spell. */
  function Infinite(): RuleWrite {
    var state := BuilderState("up", [], Less, NonFinite("inf"));
    RuleWrite("a", "Down", Generate(state), None, "warning", map[], map[], None, None, Builder, Some(state))
  }

  /** Three rules that moving changes: the empty annotation goes, and so does each builder state. */
  lemma MovingLoses(from: Team, to: Team)
    ensures RUNBOOK_ANNOTATION in FirstRule(Build(to, EmptyLink())).annotations
    ensures RUNBOOK_ANNOTATION !in FirstRule(Build(to, ParseRule(Build(from, EmptyLink())))).annotations
    ensures Build(to, HandEdited()).builder.Some? && Build(to, ParseRule(Build(from, HandEdited()))).builder.None?
    ensures Build(to, Infinite()).builder.Some? && Build(to, ParseRule(Build(from, Infinite()))).builder.None?
  {
    ParsedFields(from, EmptyLink());
    ParsedFields(from, HandEdited());
    ParsedFields(from, Infinite());
    assert Generate(HandEdited().builderState.value)[3] == '<' && HandEdited().expr[3] == '=';
    hide ParseRule, Decimal;
  }

  // ---- builder mode ----

  /**
   Builder mode is reported only for an expression that the stored state regenerates; a hand-edited expression is
   PromQL. When the state is identifier-shaped, no other such state generates that expression.
   */
  lemma BuilderModeIsEarned(m: Manifest, other: BuilderState)
    ensures var p := ParseRule(m);
            && (p.mode.Builder? <==> p.builderState.Some?)
            && (p.mode.Builder? <==> m.builder.Some? && m.builder.value.Readable?
                                     && Generate(m.builder.value.state) == p.expr)
            && (p.mode.Builder? && Shaped(p.builderState.value) && Shaped(other) && Generate(other) == p.expr ==>
                  other == p.builderState.value)
  {
    hide Generate;
    var p := ParseRule(m);
    if p.mode.Builder? && Shaped(p.builderState.value) && Shaped(other) && Generate(other) == p.expr {
      GenerateInjective(other, p.builderState.value);
    }
  }

  predicate Shaped(s: BuilderState) {
    Identifier(s.metric) && Keyed(s.labels) && IsThreshold(s.threshold)
  }
}
