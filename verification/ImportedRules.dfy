/** What an import decides about each rule, and what it leaves in the cluster: exactly the rules it says it wrote. */
module ImportedRules {
  import opened Prelude
  import opened Text
  import opened PromExpr
  import opened PrometheusRule
  import opened RuleImport

  /** The slug under which a verdict says a rule was written. */
  function WrittenUnder(v: Verdict): Option<string> {
    match v.action
    case Created => Some(v.slug)
    case Overwritten => Some(v.slug)
    case Renamed => v.finalSlug
    case _ => None
  }

  /** The object is the rule, for that team and under that slug: what parsing it gives, and whose it says it is. */
  ghost predicate IsRuleOf(m: Manifest, team: Team, x: RuleWrite, slug: string) {
    && m.name == Some("kam-t" + Decimal(team.id) + "-" + slug)
    && m.labels == map["app.kubernetes.io/managed-by" := "kam", "kam/team-id" := Decimal(team.id),
                       "kam/team-slug" := team.slug]
    && |m.groups| == 1 && m.groups[0].name == "kam-" + team.slug && |m.groups[0].rules| == 1
    && Get(m.groups[0].rules[0].labels, "kam_team") == Some(team.slug)
    && var p := ParseRule(m);
       && p.slug == slug && p.alertName == x.alertName && p.expr == x.expr && p.severity == x.severity
       && p.labels == x.labels - {"kam_team", "severity"}
       && p.annotations == x.annotations - {"runbook_url", "kam_grafana_url"}
       && p.forDuration == (if x.forDuration == Some("") then None else x.forDuration)
       && p.runbookUrl == (if x.runbookUrl.Some? && x.runbookUrl.value != "" then x.runbookUrl
                           else Get(x.annotations, "runbook_url"))
       && p.grafanaUrl == (if x.grafanaUrl.Some? && x.grafanaUrl.value != "" then x.grafanaUrl
                           else Get(x.annotations, "kam_grafana_url"))
       && (NormalForm(x) ==> p == x.(slug := slug))
  }

  lemma BuiltIsRule(team: Team, x: RuleWrite, slug: string)
    ensures IsRuleOf(Build(team, x.(slug := slug)), team, x, slug)
  {
    ParsedFields(team, x.(slug := slug));
    ParseBuild(team, x.(slug := slug));
    assert NormalForm(x) <==> NormalForm(x.(slug := slug)) by { hide Generate; }
    hide ParseRule, Generate, Decimal, NormalForm;
  }

  /** After the first `n` entries: every written slug holds the last rule written under it, and nothing else changed. */
  ghost predicate Holds(b: Batch, before: Objects, entries: seq<Entry>, r: Run) {
    && |r.verdicts| == |entries|
    && (forall i :: 0 <= i < |entries| && WrittenUnder(r.verdicts[i]).Some? ==>
          entries[i].Valid? && WrittenUnder(r.verdicts[i]).value in r.claimed)
    && (forall i :: 0 <= i < |entries| && WrittenUnder(r.verdicts[i]).Some? && IsLast(r.verdicts, i) ==>
          HoldsRule(b, r.objects, WrittenUnder(r.verdicts[i]).value, entries[i]))
    && (forall name :: (name in before || name in r.objects) && Unwritten(b, r.verdicts, name) ==>
          name in before && name in r.objects && r.objects[name] == before[name])
  }

  ghost predicate HoldsRule(b: Batch, objects: Objects, slug: string, entry: Entry) {
    entry.Valid? && Name(b, slug) in objects && IsRuleOf(objects[Name(b, slug)], b.team, entry.rule, slug)
  }

  /** No later verdict writes under the same slug. */
  ghost predicate IsLast(verdicts: seq<Verdict>, i: nat)
    requires i < |verdicts|
  {
    forall j :: i < j < |verdicts| ==> WrittenUnder(verdicts[j]) != WrittenUnder(verdicts[i])
  }

  /** No verdict writes under that name. */
  ghost predicate Unwritten(b: Batch, verdicts: seq<Verdict>, name: string) {
    forall i :: 0 <= i < |verdicts| && WrittenUnder(verdicts[i]).Some? ==>
      name != Name(b, WrittenUnder(verdicts[i]).value)
  }

  /** One entry either writes nothing, or writes its rule under one slug and says so. */
  ghost predicate OneWrites(b: Batch, r: Run, after: Run, entry: Entry) {
    && |after.verdicts| == |r.verdicts| + 1 && after.verdicts[..|r.verdicts|] == r.verdicts
      && r.claimed <= after.claimed
    && var v := after.verdicts[|r.verdicts|];
       match WrittenUnder(v)
       case None => after.objects == r.objects
       case Some(slug) =>
         && entry.Valid? && slug in after.claimed
         && exists m :: after.objects == r.objects[Name(b, slug) := m] && IsRuleOf(m, b.team, entry.rule, slug)
  }

  lemma ImportOneWrites(b: Batch, r: Run, entry: Entry)
    ensures OneWrites(b, r, ImportOne(b, r, entry, false), entry)
  {
    hide FindFrom, OwnedBy, Candidate, IsRuleOf, ObjectName, Build;
    if entry.Valid? {
      var (action, slug) := Decide(b, r, entry.rule);
      BuiltIsRule(b.team, entry.rule, slug);
    }
    var after := ImportOne(b, r, entry, false);
    assert after.verdicts[..|r.verdicts|] == r.verdicts;
  }

  lemma HoldsGrows(b: Batch, before: Objects, entries: seq<Entry>, entry: Entry, r: Run, after: Run)
    requires Holds(b, before, entries, r) && OneWrites(b, r, after, entry)
    ensures Holds(b, before, entries + [entry], after)
  {
    hide IsRuleOf, ObjectName, IsLast, Unwritten, HoldsRule, OneWrites;
    var n, all := |entries|, entries + [entry];
    KeepsVerdicts(b, r, after, entry);
    assert forall i :: 0 <= i < n ==> after.verdicts[i] == r.verdicts[i] && all[i] == entries[i];
    forall i | 0 <= i <= n && WrittenUnder(after.verdicts[i]).Some?
      ensures all[i].Valid? && WrittenUnder(after.verdicts[i]).value in after.claimed
      ensures IsLast(after.verdicts, i) ==> HoldsRule(b, after.objects, WrittenUnder(after.verdicts[i]).value, all[i])
    {
      if i < n {
        if IsLast(after.verdicts, i) { EarlierStillHolds(b, r, after, entry, entries, i); }
      } else {
        NewlyWritten(b, r, after, entry);
      }
    }
    forall name | (name in before || name in after.objects) && Unwritten(b, after.verdicts, name)
      ensures name in before && name in after.objects && after.objects[name] == before[name]
    {
      StillUnwritten(b, r, after, entry, name);
    }
  }

  lemma KeepsVerdicts(b: Batch, r: Run, after: Run, entry: Entry)
    requires OneWrites(b, r, after, entry)
    ensures |after.verdicts| == |r.verdicts| + 1 && r.claimed <= after.claimed
    ensures forall i :: 0 <= i < |r.verdicts| ==> after.verdicts[i] == r.verdicts[i]
  {
    assert forall i :: 0 <= i < |r.verdicts| ==> after.verdicts[..|r.verdicts|][i] == after.verdicts[i];
  }

  lemma NewlyWritten(b: Batch, r: Run, after: Run, entry: Entry)
    requires OneWrites(b, r, after, entry) && |after.verdicts| == |r.verdicts| + 1
    requires WrittenUnder(after.verdicts[|r.verdicts|]).Some?
    ensures entry.Valid? && WrittenUnder(after.verdicts[|r.verdicts|]).value in after.claimed
    ensures HoldsRule(b, after.objects, WrittenUnder(after.verdicts[|r.verdicts|]).value, entry)
  {
    hide IsRuleOf, ObjectName;
  }

  /** A name that no verdict writes under keeps what it holds. */
  lemma StillUnwritten(b: Batch, r: Run, after: Run, entry: Entry, name: string)
    requires OneWrites(b, r, after, entry) && Unwritten(b, after.verdicts, name)
    ensures Unwritten(b, r.verdicts, name)
    ensures (name in after.objects <==> name in r.objects)
            && (name in r.objects ==> after.objects[name] == r.objects[name])
  {
    hide IsRuleOf, ObjectName;
    KeepsVerdicts(b, r, after, entry);
    forall i | 0 <= i < |r.verdicts| && WrittenUnder(r.verdicts[i]).Some?
      ensures name != Name(b, WrittenUnder(r.verdicts[i]).value)
    {
      assert after.verdicts[i] == r.verdicts[i];
    }
  }

  lemma EarlierStillHolds(b: Batch, r: Run, after: Run, entry: Entry, entries: seq<Entry>, i: nat)
    requires |r.verdicts| == |entries| && i < |entries| && OneWrites(b, r, after, entry)
    requires WrittenUnder(r.verdicts[i]).Some? && IsLast(after.verdicts, i)
    requires after.verdicts[i] == r.verdicts[i]
    requires IsLast(r.verdicts, i) ==> HoldsRule(b, r.objects, WrittenUnder(r.verdicts[i]).value, entries[i])
    ensures HoldsRule(b, after.objects, WrittenUnder(r.verdicts[i]).value, entries[i])
  {
    hide IsRuleOf, ObjectName;
    var n := |r.verdicts|;
    forall j | i < j < n ensures WrittenUnder(r.verdicts[j]) != WrittenUnder(r.verdicts[i]) {
      assert after.verdicts[j] == after.verdicts[..n][j];
    }
    var last := WrittenUnder(after.verdicts[n]);
    if last.Some? && Name(b, last.value) == Name(b, WrittenUnder(r.verdicts[i]).value) {
      ObjectNameInjective(b.team.id, last.value, b.team.id, WrittenUnder(r.verdicts[i]).value);
    }
  }

  lemma NothingHolds(b: Batch, before: Objects)
    ensures Holds(b, before, [], RunImport(b, before, [], false))
  {
    hide IsRuleOf, ObjectName;
    ImportNothing(b, before, false);
  }

  lemma {:induction false} RunHolds(b: Batch, before: Objects, entries: seq<Entry>)
    ensures Holds(b, before, entries, RunImport(b, before, entries, false))
  {
    hide Holds, OneWrites, ImportOne;
    if entries == [] {
      NothingHolds(b, before);
    } else {
      var front, last := entries[..|entries| - 1], entries[|entries| - 1];
      RunHolds(b, before, front);
      ImportOneWrites(b, RunImport(b, before, front, false), last);
      HoldsGrows(b, before, front, last, RunImport(b, before, front, false),
                 ImportOne(b, RunImport(b, before, front, false), last, false));
      assert entries == front + [last];
    }
  }

  /**
   After a real import the object of every slug it reports as created, overwritten or renamed to is the imported rule,
   for the importing team: the last one written under that slug, if there were several.
   */
  lemma WrittenRulesAreThere(b: Batch, before: Objects, entries: seq<Entry>, i: nat)
    requires i < |entries|
    requires var vs := RunImport(b, before, entries, false).verdicts; WrittenUnder(vs[i]).Some? && IsLast(vs, i)
    ensures var r := RunImport(b, before, entries, false);
            var slug := WrittenUnder(r.verdicts[i]).value;
            && entries[i].Valid? && "kam-t" + Decimal(b.team.id) + "-" + slug in r.objects
            && IsRuleOf(r.objects["kam-t" + Decimal(b.team.id) + "-" + slug], b.team, entries[i].rule, slug)
  {
    hide RunImport, IsRuleOf, Decimal, IsLast;
    RunHolds(b, before, entries);
  }

  /** And every object under any other name is as it was: none has come, gone or changed. */
  lemma OtherObjectsAreUntouched(b: Batch, before: Objects, entries: seq<Entry>, name: string)
    requires var vs := RunImport(b, before, entries, false).verdicts;
             forall i :: 0 <= i < |entries| && WrittenUnder(vs[i]).Some? ==>
                           name != "kam-t" + Decimal(b.team.id) + "-" + WrittenUnder(vs[i]).value
    ensures var after := RunImport(b, before, entries, false).objects;
            (name in after <==> name in before) && (name in before ==> after[name] == before[name])
  {
    hide RunImport, IsRuleOf, Decimal;
    RunHolds(b, before, entries);
  }

  /** The object says that this service manages it, for that team. */
  predicate BelongsTo(m: Manifest, teamId: nat) {
    "app.kubernetes.io/managed-by" in m.labels && m.labels["app.kubernetes.io/managed-by"] == "kam"
    && "kam/team-id" in m.labels && m.labels["kam/team-id"] == Decimal(teamId)
  }

  lemma OwnedExactlyWhen(m: Manifest, teamId: nat)
    ensures OwnedBy(m, teamId) <==> BelongsTo(m, teamId)
  {
    hide Decimal;
  }

  /** What belongs to another team, or to nobody, is there after any import just as it was. */
  lemma OthersKeepTheirObjects(b: Batch, before: Objects, entries: seq<Entry>, dryRun: bool, name: string)
    requires name in before && !BelongsTo(before[name], b.team.id)
    ensures var after := RunImport(b, before, entries, dryRun).objects; name in after && after[name] == before[name]
  {
    hide RunImport, OwnedBy, BelongsTo;
    ForeignObjectsAreSafe(b, before, entries, dryRun);
    OwnedExactlyWhen(before[name], b.team.id);
  }

  /** An import differs from its dry run exactly where it is to overwrite an object that is not the team's. */
  lemma ForecastFailsExactlyWhen(b: Batch, before: Objects, entries: seq<Entry>)
    ensures RunImport(b, before, entries, true).verdicts != RunImport(b, before, entries, false).verdicts
            <==> b.strategy == Overwrite
                 && exists i :: 0 <= i < |entries| && Sound(b, entries[i])
                                && var name := "kam-t" + Decimal(b.team.id) + "-" + entries[i].rule.slug;
                                   name in before && !BelongsTo(before[name], b.team.id)
  {
    hide RunImport, OwnedBy, BelongsTo, Decimal;
    PlanPredictsRun(b, before, entries);
    forall i | 0 <= i < |entries| && Sound(b, entries[i]) && Name(b, entries[i].rule.slug) in before
      ensures OwnedBy(before[Name(b, entries[i].rule.slug)], b.team.id)
              <==> BelongsTo(before[Name(b, entries[i].rule.slug)], b.team.id)
    {
      OwnedExactlyWhen(before[Name(b, entries[i].rule.slug)], b.team.id);
    }
  }

  // ---- what is decided ----

  /** An entry that is a rule whose expression the server accepts. */
  predicate Sound(b: Batch, entry: Entry) {
    entry.Valid? && b.accepts(entry.rule.expr)
  }

  /** The `n`-th name to try for a rule: its slug with a number, cut where the whole would pass 63 characters. */
  function Numbered(slug: string, n: nat): string {
    var suffix := "-" + Decimal(n);
    if |slug| + |suffix| <= 63 then slug + suffix
    else if |suffix| <= 63 then slug[..63 - |suffix|] + suffix
    else slug + suffix
  }

  lemma NumberedIsCandidate(slug: string, n: nat)
    ensures Candidate(slug, n) == Numbered(slug, n)
  {
    hide Decimal;
  }

  /** A slug is taken when this batch has used it or the cluster has an object of its name. */
  predicate Taken(b: Batch, objects: Objects, used: set<string>, slug: string) {
    slug in used || "kam-t" + Decimal(b.team.id) + "-" + slug in objects
  }

  /** The verdict on one entry, given the objects there and the slugs this batch has used. */
  ghost predicate DecidedBy(b: Batch, objects: Objects, used: set<string>, entry: Entry, v: Verdict) {
    match entry
    case Invalid(shown) => v == Verdict(shown, Action.Failed, None, Some(BadRule))
    case Valid(x) =>
      if !b.accepts(x.expr) then v == Verdict(x.slug, Action.Failed, None, Some(BadExpression))
      else if !Taken(b, objects, used, x.slug) then v == Verdict(x.slug, Action.Created, None, None)
      else match b.strategy
        case Skip => v == Verdict(x.slug, Action.Skipped, None, None)
        case Overwrite => v == Verdict(x.slug, Action.Overwritten, None, None)
        case Rename =>
          || (v == Verdict(x.slug, Action.Failed, None, Some(NoFreeSlug))
              && forall n :: 2 <= n < 1000 ==> Taken(b, objects, used, Numbered(x.slug, n)))
          || (exists n ::
                && 2 <= n < 1000 && v == Verdict(x.slug, Action.Renamed, Some(Numbered(x.slug, n)), None)
                && !Taken(b, objects, used, Numbered(x.slug, n))
                && forall j :: 2 <= j < n ==> Taken(b, objects, used, Numbered(x.slug, j)))
  }

  lemma RenamedToFirstFree(b: Batch, objects: Objects, used: set<string>, slug: string)
    ensures var found := FindFrom(b, objects, used, slug, 2);
            && (found.None? ==> forall n :: 2 <= n < 1000 ==> Taken(b, objects, used, Numbered(slug, n)))
            && (found.Some? ==>
                  exists n ::
                    && 2 <= n < 1000 && found.value == Numbered(slug, n)
                    && !Taken(b, objects, used, Numbered(slug, n))
                    && forall j :: 2 <= j < n ==> Taken(b, objects, used, Numbered(slug, j)))
  {
    hide Candidate, Numbered, Decimal, FindFrom;
    FindFromFinds(b, objects, used, slug, 2);
    forall n: nat ensures Candidate(slug, n) == Numbered(slug, n) { NumberedIsCandidate(slug, n); }
    var found := FindFrom(b, objects, used, slug, 2);
    if found.None? {
      forall n | 2 <= n < 1000 ensures Taken(b, objects, used, Numbered(slug, n)) {
        assert !Free(b, objects, used, Candidate(slug, n));
      }
    } else {
      var k: nat :| 2 <= k < MAX_RENAME_ATTEMPTS && found.value == Candidate(slug, k)
        && forall j: nat :: 2 <= j < k ==> !Free(b, objects, used, Candidate(slug, j));
      forall j | 2 <= j < k ensures Taken(b, objects, used, Numbered(slug, j)) {
        assert !Free(b, objects, used, Candidate(slug, j));
      }
      assert !Taken(b, objects, used, Numbered(slug, k));
    }
  }

  /** The slugs the first entries of a batch have used: of the rules created, skipped or overwritten, or renamed to. */
  function Used(verdicts: seq<Verdict>): set<string> {
    set v | v in verdicts && v.action != Action.Failed :: if v.action == Action.Renamed && v.finalSlug.Some?
                                                           then v.finalSlug.value else v.slug
  }

  lemma PlanClaims(b: Batch, r: Run, entry: Entry)
    requires r.claimed == Used(r.verdicts)
    ensures var after := ImportOne(b, r, entry, true);
            && |after.verdicts| == |r.verdicts| + 1 && after.claimed == Used(after.verdicts)
              && after.objects == r.objects
            && DecidedBy(b, r.objects, r.claimed, entry, after.verdicts[|r.verdicts|])
            && after.verdicts == r.verdicts + [after.verdicts[|r.verdicts|]]
  {
    hide Candidate, Numbered, FindFrom, Decimal, Used;
    var after := ImportOne(b, r, entry, true);
    var v := after.verdicts[|r.verdicts|];
    if entry.Valid? { RenamedToFirstFree(b, r.objects, r.claimed, entry.rule.slug); }
    UsedGrows(r.verdicts, v);
  }

  lemma UsedGrows(verdicts: seq<Verdict>, v: Verdict)
    ensures Used(verdicts + [v])
            == Used(verdicts) + if v.action == Action.Failed then {}
                                else {if v.action == Action.Renamed && v.finalSlug.Some? then v.finalSlug.value
                                      else v.slug}
  {
    assert forall x :: x in verdicts + [v] <==> x in verdicts || x == v;
  }

  /** Every verdict of a plan is the one the entry deserves, by what the cluster holds and what came before it. */
  lemma {:induction false} VerdictsAreDeserved(b: Batch, before: Objects, entries: seq<Entry>, i: nat)
    requires i < |entries|
    ensures var vs := RunImport(b, before, entries, true).verdicts;
            DecidedBy(b, before, Used(vs[..i]), entries[i], vs[i])
    decreases |entries|
  {
    hide DecidedBy, Used, ImportOne;
    var front := entries[..|entries| - 1];
    PlanIsUsed(b, before, front);
    PlanClaims(b, RunImport(b, before, front, true), entries[|entries| - 1]);
    var vs, shorter := RunImport(b, before, entries, true).verdicts, RunImport(b, before, front, true).verdicts;
    assert vs[..|front|] == shorter;
    if i < |front| {
      VerdictsAreDeserved(b, before, front, i);
      assert vs[..i] == shorter[..i];
    }
  }

  lemma {:induction false} PlanIsUsed(b: Batch, before: Objects, entries: seq<Entry>)
    ensures var r := RunImport(b, before, entries, true); r.claimed == Used(r.verdicts) && r.objects == before
  {
    if entries != [] {
      hide ImportOne, Used;
      PlanIsUsed(b, before, entries[..|entries| - 1]);
      PlanClaims(b, RunImport(b, before, entries[..|entries| - 1], true), entries[|entries| - 1]);
    } else {
      assert Used([]) == {};
    }
  }
}
