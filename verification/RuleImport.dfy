/** rule_transfer.py: importing a batch of rules into a cluster, for real or as a dry run. */
module RuleImport {
  import opened Prelude
  import opened Text
  import opened PrometheusRule

  /** One rule of an envelope: validated, or only a label for reporting. */
  datatype Entry = Invalid(shown: string) | Valid(rule: RuleWrite)

  datatype Strategy = Skip | Overwrite | Rename

  datatype Action = Created | Skipped | Overwritten | Renamed | Failed

  datatype Reason = BadRule | BadExpression | NoFreeSlug | Refused

  datatype Verdict = Verdict(slug: string, action: Action, finalSlug: Option<string>, error: Option<Reason>)

  /** The PrometheusRule objects of the target namespace, by name. */
  type Objects = map<string, Manifest>

  /** What does not change during a batch; `accepts` is the server's verdict on an expression. */
  datatype Batch = Batch(team: Team, accepts: string -> bool, strategy: Strategy)

  /** The cluster's objects, the slugs claimed by this batch, and the verdicts so far. */
  datatype Run = Run(objects: Objects, claimed: set<string>, verdicts: seq<Verdict>)

  const MAX_RENAME_ATTEMPTS: nat := 1000
  const MAX_SLUG: nat := 63

  /** _is_owned_by */
  predicate OwnedBy(m: Manifest, teamId: nat) {
    Get(m.labels, MANAGED_BY_LABEL) == Some(MANAGED_BY_VALUE) && Get(m.labels, TEAM_ID_LABEL) == Some(Decimal(teamId))
  }

  function Name(b: Batch, slug: string): string {
    ObjectName(b.team.id, slug)
  }

  function Candidate(base: string, n: nat): string {
    var suffix := "-" + Decimal(n);
    (if |base| + |suffix| > MAX_SLUG && |suffix| <= MAX_SLUG then base[..MAX_SLUG - |suffix|] else base) + suffix
  }

  predicate Free(b: Batch, objects: Objects, claimed: set<string>, slug: string) {
    slug !in claimed && Name(b, slug) !in objects
  }

  /** The first free candidate from `n` on. */
  function FindFrom(b: Batch, objects: Objects, claimed: set<string>, base: string, n: nat): Option<string>
    decreases MAX_RENAME_ATTEMPTS - n
  {
    if n >= MAX_RENAME_ATTEMPTS then None
    else if Free(b, objects, claimed, Candidate(base, n)) then Some(Candidate(base, n))
    else FindFrom(b, objects, claimed, base, n + 1)
  }

  function Fail(r: Run, slug: string, reason: Reason): Run {
    r.(verdicts := r.verdicts + [Verdict(slug, Action.Failed, None, Some(reason))])
  }

  function Done(r: Run, slug: string, action: Action, finalSlug: string): Run {
    r.(verdicts := r.verdicts + [Verdict(slug, action, if action.Renamed? then Some(finalSlug) else None, None)])
  }

  function Claim(r: Run, slug: string): Run {
    r.(claimed := r.claimed + {slug})
  }

  function ManifestFor(b: Batch, x: RuleWrite, finalSlug: string): Manifest {
    Build(b.team, x.(slug := finalSlug))
  }

  /** The write itself: a replace of an object the team does not own is refused. */
  function Write(b: Batch, r: Run, x: RuleWrite, action: Action, finalSlug: string): Run {
    var claimed := Claim(r, finalSlug);
    var name := Name(b, finalSlug);
    if action.Overwritten? && (name !in r.objects || !OwnedBy(r.objects[name], b.team.id))
      then Fail(claimed, x.slug, Refused)
    else if !action.Overwritten? && name in r.objects then Fail(claimed, x.slug, Refused)
    else Done(claimed.(objects := r.objects[name := ManifestFor(b, x, finalSlug)]), x.slug, action, finalSlug)
  }

  /** What to do about one valid rule: the action and the slug it is to be written under. */
  function Decide(b: Batch, r: Run, x: RuleWrite): (Action, string) {
    if Free(b, r.objects, r.claimed, x.slug) then (Action.Created, x.slug)
    else match b.strategy
      case Skip => (Action.Skipped, x.slug)
      case Overwrite => (Action.Overwritten, x.slug)
      case Rename =>
        match FindFrom(b, r.objects, r.claimed, x.slug, 2)
        case None => (Action.Failed, x.slug)
        case Some(slug) => (Action.Renamed, slug)
  }

  function ImportOne(b: Batch, r: Run, entry: Entry, dryRun: bool): Run {
    match entry
    case Invalid(shown) => Fail(r, shown, BadRule)
    case Valid(x) =>
      if !b.accepts(x.expr) then Fail(r, x.slug, BadExpression)
      else
        var (action, finalSlug) := Decide(b, r, x);
        if action.Failed? then Fail(r, x.slug, NoFreeSlug)
        else if action.Skipped? then Claim(Done(r, x.slug, action, x.slug), x.slug)
        else if dryRun then Done(Claim(r, finalSlug), x.slug, action, finalSlug)
        else Write(b, r, x, action, finalSlug)
  }

  /** _run_import */
  function RunImport(b: Batch, objects: Objects, entries: seq<Entry>, dryRun: bool): (r: Run)
    ensures |r.verdicts| == |entries|
  {
    if entries == [] then Run(objects, {}, [])
    else ImportOne(b, RunImport(b, objects, entries[..|entries| - 1], dryRun), entries[|entries| - 1], dryRun)
  }

  // ---- what a rename finds ----

  lemma {:induction false} FindFromFinds(b: Batch, objects: Objects, claimed: set<string>, base: string, n: nat)
    ensures var r := FindFrom(b, objects, claimed, base, n);
            && (r.None? ==> forall k: nat :: n <= k < MAX_RENAME_ATTEMPTS ==>
                  !Free(b, objects, claimed, Candidate(base, k)))
            && (r.Some? ==>
                  && Free(b, objects, claimed, r.value)
                  && exists k: nat :: n <= k < MAX_RENAME_ATTEMPTS && r.value == Candidate(base, k)
                                      && forall j: nat :: n <= j < k ==> !Free(b, objects, claimed, Candidate(base, j)))
    decreases MAX_RENAME_ATTEMPTS - n
  {
    hide Candidate, Free;
    if n < MAX_RENAME_ATTEMPTS && !Free(b, objects, claimed, Candidate(base, n)) {
      FindFromFinds(b, objects, claimed, base, n + 1);
    }
  }

  predicate SlugChar(c: char) {
    'a' <= c <= 'z' || IsDigit(c)
  }

  /** RULE_SLUG_RE */
  predicate MatchesSlugPattern(s: string) {
    && 1 <= |s| <= 63
    && (forall i :: 0 <= i < |s| ==> SlugChar(s[i]) || s[i] == '-')
    && SlugChar(s[0]) && SlugChar(s[|s| - 1])
  }

  lemma SmallDecimal(n: nat)
    requires n < 1000
    ensures |Decimal(n)| <= 3
  {
    assert |Decimal(n / 10 / 10)| == 1;
  }

  /** A renamed slug still matches the 63-character pattern, even when the base had to be cut. */
  lemma CandidateMatchesPattern(base: string, n: nat)
    requires MatchesSlugPattern(base) && n < MAX_RENAME_ATTEMPTS
    ensures MatchesSlugPattern(Candidate(base, n))
  {
    SmallDecimal(n);
    hide Decimal;
    var s, suffix := Candidate(base, n), "-" + Decimal(n);
    var kept := |s| - |suffix|;
    assert 1 <= kept <= |base| && s == base[..kept] + suffix;
    forall i | 0 <= i < |s| ensures SlugChar(s[i]) || s[i] == '-' {
      assert i < kept ==> s[i] == base[i];
      assert i >= kept ==> s[i] == suffix[i - kept];
    }
    assert s[|s| - 1] == suffix[|suffix| - 1];
  }

  // ---- one entry, both ways ----

  /** What a real run has done to the cluster so far, told by the slugs claimed. */
  ghost predicate Tracks(b: Batch, before: Objects, r: Run) {
    && before.Keys <= r.objects.Keys
    && (forall name :: name in r.objects && name !in before ==> exists s :: s in r.claimed && name == Name(b, s))
    && (forall name :: name in r.objects && name !in before ==> OwnedBy(r.objects[name], b.team.id))
    && (forall name :: name in before ==> OwnedBy(r.objects[name], b.team.id) == OwnedBy(before[name], b.team.id))
    && (b.strategy.Overwrite? ==> forall s :: s in r.claimed ==> Name(b, s) in r.objects)
  }

  /** An entry whose overwrite the cluster will refuse: something of that name is there, and is not the team's. */
  predicate Blocked(b: Batch, before: Objects, entry: Entry) {
    && entry.Valid? && b.accepts(entry.rule.expr) && b.strategy.Overwrite?
    && Name(b, entry.rule.slug) in before && !OwnedBy(before[Name(b, entry.rule.slug)], b.team.id)
  }

  lemma SameFreedom(b: Batch, before: Objects, r: Run, slug: string)
    requires Tracks(b, before, r)
    ensures Free(b, r.objects, r.claimed, slug) == Free(b, before, r.claimed, slug)
  {
    hide OwnedBy, ObjectName;
    if slug !in r.claimed && Name(b, slug) in r.objects && Name(b, slug) !in before {
      var s :| s in r.claimed && Name(b, slug) == Name(b, s);
      ObjectNameInjective(b.team.id, slug, b.team.id, s);
    }
  }

  lemma {:induction false} SameFind(b: Batch, before: Objects, r: Run, base: string, n: nat)
    requires Tracks(b, before, r)
    ensures FindFrom(b, r.objects, r.claimed, base, n) == FindFrom(b, before, r.claimed, base, n)
    decreases MAX_RENAME_ATTEMPTS - n
  {
    hide Tracks, Free, Candidate;
    if n < MAX_RENAME_ATTEMPTS {
      SameFreedom(b, before, r, Candidate(base, n));
      SameFind(b, before, r, base, n + 1);
    }
  }

  /** The dry run, which sees only the original objects, decides as the real run does. */
  lemma SameDecision(b: Batch, before: Objects, plan: Run, actual: Run, x: RuleWrite)
    requires Tracks(b, before, actual) && plan.objects == before && plan.claimed == actual.claimed
    ensures Decide(b, plan, x) == Decide(b, actual, x)
  {
    hide Tracks, Free, FindFrom;
    SameFreedom(b, before, actual, x.slug);
    SameFind(b, before, actual, x.slug, 2);
  }

  lemma BuiltIsOwned(b: Batch, x: RuleWrite, slug: string)
    ensures OwnedBy(ManifestFor(b, x, slug), b.team.id)
  {
    hide ObjectName, Decimal;
  }

  /**
   How a write goes: an overwrite is refused exactly when the name was there before the batch and is not the
   team's.
   */
  lemma WriteGoes(b: Batch, before: Objects, r: Run, x: RuleWrite, action: Action, finalSlug: string)
    requires Tracks(b, before, r) && (action, finalSlug) == Decide(b, r, x)
             && (action.Created? || action.Overwritten? || action.Renamed?)
    ensures var after := Write(b, r, x, action, finalSlug);
            var refused := action.Overwritten? && Name(b, x.slug) in before
              && !OwnedBy(before[Name(b, x.slug)], b.team.id);
            && after.claimed == r.claimed + {finalSlug}
            && after == (if refused then Fail(Claim(r, finalSlug), x.slug, Refused)
                         else Done(Claim(r, finalSlug), x.slug, action, finalSlug)
                              .(objects := r.objects[Name(b, finalSlug) := ManifestFor(b, x, finalSlug)]))
            && Tracks(b, before, after)
  {
    hide FindFrom;
    hide OwnedBy, ObjectName, ManifestFor, Candidate;
    BuiltIsOwned(b, x, finalSlug);
    if action.Renamed? { FindFromFinds(b, r.objects, r.claimed, x.slug, 2); }
    if action.Overwritten? { OverwriteHasTarget(b, before, r, x.slug); }
  }

  /** An overwritten slug names an existing object, unless an earlier entry only claimed it. */
  lemma OverwriteHasTarget(b: Batch, before: Objects, r: Run, slug: string)
    requires Tracks(b, before, r) && !Free(b, r.objects, r.claimed, slug)
    ensures b.strategy.Overwrite? ==> Name(b, slug) in r.objects
  {
  }

  // ---- the dry run against the real run ----

  /** The verdict the real run gives where the dry run gave `planned`. */
  function RealVerdict(b: Batch, before: Objects, entry: Entry, planned: Verdict): Verdict {
    if Blocked(b, before, entry) then Verdict(entry.rule.slug, Action.Failed, None, Some(Refused)) else planned
  }

  /** The two runs side by side after the same entries. */
  ghost predicate InStep(b: Batch, before: Objects, entries: seq<Entry>, plan: Run, actual: Run) {
    && Tracks(b, before, actual) && plan.objects == before && plan.claimed == actual.claimed
    && |plan.verdicts| == |actual.verdicts| == |entries|
    && (forall i :: 0 <= i < |entries| ==> actual.verdicts[i] == RealVerdict(b, before, entries[i], plan.verdicts[i]))
    && (forall i :: 0 <= i < |entries| && Blocked(b, before, entries[i]) ==> plan.verdicts[i].action.Overwritten?)
  }

  /** One more verdict on each side, matching. */
  ghost predicate OneMore(b: Batch, before: Objects, entry: Entry, plan: Run, plan': Run, actual: Run, actual': Run) {
    && Tracks(b, before, actual') && plan'.objects == before && plan'.claimed == actual'.claimed
    && exists v: Verdict ::
         && plan'.verdicts == plan.verdicts + [v]
         && actual'.verdicts == actual.verdicts + [RealVerdict(b, before, entry, v)]
         && (Blocked(b, before, entry) ==> v.action.Overwritten?)
  }

  lemma InStepGrows(b: Batch, before: Objects, entries: seq<Entry>, entry: Entry, plan: Run, plan': Run, actual: Run,
                    actual': Run)
    requires InStep(b, before, entries, plan, actual) && OneMore(b, before, entry, plan, plan', actual, actual')
    ensures InStep(b, before, entries + [entry], plan', actual')
  {
    hide Tracks, Blocked;
  }

  lemma BlockedStaysTaken(b: Batch, before: Objects, r: Run, x: RuleWrite)
    requires Blocked(b, before, Valid(x)) && Tracks(b, before, r)
    ensures Decide(b, r, x) == (Action.Overwritten, x.slug)
  {
    hide OwnedBy, ObjectName;
  }

  lemma ClaimTracks(b: Batch, before: Objects, r: Run, x: RuleWrite)
    requires Tracks(b, before, r) && !b.strategy.Overwrite?
    ensures Tracks(b, before, Claim(r, x.slug))
  {
    hide OwnedBy, ObjectName;
  }

  lemma VerdictsDoNotMatter(b: Batch, before: Objects, r: Run, after: Run)
    requires Tracks(b, before, r) && after.objects == r.objects && after.claimed == r.claimed
    ensures Tracks(b, before, after)
  {
    hide OwnedBy, ObjectName;
  }

  lemma ImportOneInStep(b: Batch, before: Objects, plan: Run, actual: Run, entry: Entry)
    requires Tracks(b, before, actual) && plan.objects == before && plan.claimed == actual.claimed
    ensures OneMore(b, before, entry, plan, ImportOne(b, plan, entry, true), actual, ImportOne(b, actual, entry, false))
  {
    var plan', actual' := ImportOne(b, plan, entry, true), ImportOne(b, actual, entry, false);
    if entry.Invalid? || !b.accepts(entry.rule.expr) {
      hide Tracks;
      VerdictsDoNotMatter(b, before, actual, actual');
      assert plan'.verdicts == plan.verdicts + [plan'.verdicts[|plan.verdicts|]];
    } else {
      ValidInStep(b, before, plan, actual, entry.rule);
    }
  }

  lemma ValidInStep(b: Batch, before: Objects, plan: Run, actual: Run, x: RuleWrite)
    requires Tracks(b, before, actual) && plan.objects == before && plan.claimed == actual.claimed && b.accepts(x.expr)
    ensures OneMore(b, before, Valid(x), plan, ImportOne(b, plan, Valid(x), true), actual,
                    ImportOne(b, actual, Valid(x), false))
  {
    SameDecision(b, before, plan, actual, x);
    var plan', actual' := ImportOne(b, plan, Valid(x), true), ImportOne(b, actual, Valid(x), false);
    var (action, finalSlug) := Decide(b, actual, x);
    if Blocked(b, before, Valid(x)) { BlockedStaysTaken(b, before, actual, x); }
    OverwriteMeansTaken(b, actual, x);
    hide Tracks, Decide, Write, OwnedBy, ObjectName;
    if action.Failed? {
      VerdictsDoNotMatter(b, before, actual, actual');
    } else if action.Skipped? {
      ClaimTracks(b, before, actual, x);
      VerdictsDoNotMatter(b, before, Claim(actual, x.slug), actual');
    } else {
      WriteGoes(b, before, actual, x, action, finalSlug);
    }
    var v := plan'.verdicts[|plan.verdicts|];
    assert plan'.verdicts == plan.verdicts + [v];
    assert actual'.verdicts == actual.verdicts + [RealVerdict(b, before, Valid(x), v)];
  }

  lemma OverwriteMeansTaken(b: Batch, r: Run, x: RuleWrite)
    ensures Decide(b, r, x).0.Overwritten? ==> b.strategy.Overwrite? && Decide(b, r, x).1 == x.slug
    ensures Decide(b, r, x).0.Skipped? ==> b.strategy.Skip?
    ensures Decide(b, r, x).0.Failed? ==> b.strategy.Rename?
  {
    hide Free, FindFrom;
  }

  lemma {:induction false} RunsInStep(b: Batch, before: Objects, entries: seq<Entry>)
    ensures InStep(b, before, entries, RunImport(b, before, entries, true), RunImport(b, before, entries, false))
  {
    if entries == [] {
      hide OwnedBy, ObjectName;
    } else {
      hide InStep, ImportOne, OneMore;
      var front, last := entries[..|entries| - 1], entries[|entries| - 1];
      RunsInStep(b, before, front);
      var plan, actual := RunImport(b, before, front, true), RunImport(b, before, front, false);
      InStepMeans(b, before, front, plan, actual);
      ImportOneInStep(b, before, plan, actual, last);
      InStepGrows(b, before, front, last, plan, ImportOne(b, plan, last, true), actual,
                  ImportOne(b, actual, last, false));
      assert entries == front + [last];
    }
  }

  lemma InStepMeans(b: Batch, before: Objects, entries: seq<Entry>, plan: Run, actual: Run)
    requires InStep(b, before, entries, plan, actual)
    ensures Tracks(b, before, actual) && plan.objects == before && plan.claimed == actual.claimed
  {
    hide Tracks, Blocked;
  }

  /**
   A dry run predicts the real run, verdict for verdict, for any batch and strategy, exactly when no accepted rule
   is to overwrite an object that was there before the batch and is not the team's. The dry run changes nothing.
   */
  lemma PlanPredictsRun(b: Batch, before: Objects, entries: seq<Entry>)
    ensures RunImport(b, before, entries, true).verdicts == RunImport(b, before, entries, false).verdicts
            <==> forall i :: 0 <= i < |entries| ==> !Blocked(b, before, entries[i])
    ensures RunImport(b, before, entries, true).objects == before
  {
    hide RunImport, Blocked, Tracks;
    RunsInStep(b, before, entries);
    var plan, actual := RunImport(b, before, entries, true).verdicts, RunImport(b, before, entries, false).verdicts;
    if i :| 0 <= i < |entries| && Blocked(b, before, entries[i]) {
      assert plan[i].action.Overwritten? && actual[i] == RealVerdict(b, before, entries[i], plan[i]);
    }
  }

  // ---- one such object ----

  function Sample(slug: string): RuleWrite {
    RuleWrite(slug, "Down", "up == 0", None, "warning", map[], map[], None, None, Promql, None)
  }

  /** An object of that name made by hand: nobody's. */
  function Stranger(b: Batch, slug: string): Objects {
    map[Name(b, slug) := Manifest(Some(Name(b, slug)), map[], None, [])]
  }

  /** The dry run promises an overwrite that the cluster refuses. */
  lemma StrangerBreaksTheForecast(team: Team, slug: string)
    ensures var b := Batch(team, _ => true, Overwrite);
            var before, entries := Stranger(b, slug), [Valid(Sample(slug))];
            && Blocked(b, before, entries[0])
            && RunImport(b, before, entries, true).verdicts == [Verdict(slug, Action.Overwritten, None, None)]
            && RunImport(b, before, entries, false).verdicts == [Verdict(slug, Action.Failed, None, Some(Refused))]
            && RunImport(b, before, entries, false).objects == before
  {
    hide ObjectName, ManifestFor, FindFrom;
    var b := Batch(team, _ => true, Overwrite);
    var before, entries := Stranger(b, slug), [Valid(Sample(slug))];
    assert Get(before[Name(b, slug)].labels, MANAGED_BY_LABEL) == None;
    assert entries[..0] == [];
    ImportNothing(b, before, true);
    ImportNothing(b, before, false);
    assert RunImport(b, before, entries, true) == ImportOne(b, Run(before, {}, []), entries[0], true);
    assert RunImport(b, before, entries, false) == ImportOne(b, Run(before, {}, []), entries[0], false);
    hide RunImport;
  }

  // ---- what a batch leaves alone ----

  /** Whatever is not the team's before the batch is there afterwards as it was. */
  ghost predicate ForeignUntouched(b: Batch, before: Objects, after: Objects) {
    forall name :: name in before && !OwnedBy(before[name], b.team.id) ==> name in after && after[name] == before[name]
  }

  lemma OneLeavesForeignAlone(b: Batch, before: Objects, r: Run, entry: Entry, dryRun: bool)
    requires ForeignUntouched(b, before, r.objects)
    ensures ForeignUntouched(b, before, ImportOne(b, r, entry, dryRun).objects)
  {
    hide ManifestFor, ObjectName, OwnedBy, Decide;
  }

  /** No batch, whatever its strategy, touches an object that is not the team's. */
  lemma {:induction false} ForeignObjectsAreSafe(b: Batch, before: Objects, entries: seq<Entry>, dryRun: bool)
    ensures ForeignUntouched(b, before, RunImport(b, before, entries, dryRun).objects)
  {
    if entries != [] {
      hide ForeignUntouched, ImportOne;
      ForeignObjectsAreSafe(b, before, entries[..|entries| - 1], dryRun);
      OneLeavesForeignAlone(b, before, RunImport(b, before, entries[..|entries| - 1], dryRun),
                            entries[|entries| - 1], dryRun);
    } else {
      hide ImportOne;
    }
  }

  ghost predicate Untouched(before: Objects, after: Objects) {
    forall name :: name in before ==> name in after && after[name] == before[name]
  }

  lemma OneLeavesAlone(b: Batch, before: Objects, r: Run, entry: Entry, dryRun: bool)
    requires !b.strategy.Overwrite? && Untouched(before, r.objects)
    ensures Untouched(before, ImportOne(b, r, entry, dryRun).objects)
  {
    hide ManifestFor, ObjectName, OwnedBy, Decide;
    if entry.Valid? { OverwriteMeansTaken(b, r, entry.rule); }
  }

  /** Skipping and renaming leave every object that was there before exactly as it was. */
  lemma {:induction false} SkipAndRenameLeaveAlone(b: Batch, before: Objects, entries: seq<Entry>, dryRun: bool)
    requires !b.strategy.Overwrite?
    ensures Untouched(before, RunImport(b, before, entries, dryRun).objects)
  {
    if entries != [] {
      hide Untouched, ImportOne;
      SkipAndRenameLeaveAlone(b, before, entries[..|entries| - 1], dryRun);
      OneLeavesAlone(b, before, RunImport(b, before, entries[..|entries| - 1], dryRun), entries[|entries| - 1], dryRun);
    } else {
      hide ImportOne;
    }
  }

  // ---- slugs ----

  /** The slug a verdict put something new under. */
  function NewSlug(v: Verdict): Option<string> {
    if v.action.Renamed? then v.finalSlug else if v.action.Created? then Some(v.slug) else None
  }

  /** New slugs are claimed, were not in the cluster before, and no two verdicts share one. */
  ghost predicate FreshSlugs(b: Batch, before: Objects, r: Run) {
    && (forall i :: 0 <= i < |r.verdicts| && NewSlug(r.verdicts[i]).Some? ==>
          NewSlug(r.verdicts[i]).value in r.claimed && Name(b, NewSlug(r.verdicts[i]).value) !in before)
    && (forall i, j :: 0 <= i < j < |r.verdicts| && NewSlug(r.verdicts[i]).Some? ==>
          NewSlug(r.verdicts[i]) != NewSlug(r.verdicts[j]))
  }

  /** Adding a verdict whose new slug, if any, was free, and claiming it. */
  lemma FreshSlugsGrow(b: Batch, before: Objects, r: Run, after: Run, v: Verdict)
    requires FreshSlugs(b, before, r) && after.verdicts == r.verdicts + [v] && r.claimed <= after.claimed
    requires NewSlug(v).Some? ==> NewSlug(v).value in after.claimed && Free(b, before, r.claimed, NewSlug(v).value)
    ensures FreshSlugs(b, before, after)
  {
    hide ObjectName;
  }

  lemma DecisionIsFree(b: Batch, r: Run, x: RuleWrite)
    ensures var (action, slug) := Decide(b, r, x);
            && (action.Created? ==> slug == x.slug && Free(b, r.objects, r.claimed, slug))
            && (action.Renamed? ==>
                  && Free(b, r.objects, r.claimed, slug)
                  && exists n: nat :: n < MAX_RENAME_ATTEMPTS && slug == Candidate(x.slug, n))
  {
    hide FindFrom;
    hide Free, Candidate;
    FindFromFinds(b, r.objects, r.claimed, x.slug, 2);
  }

  lemma OneKeepsFresh(b: Batch, before: Objects, r: Run, entry: Entry)
    requires FreshSlugs(b, before, r) && r.objects == before
    ensures FreshSlugs(b, before, ImportOne(b, r, entry, true))
  {
    var after := ImportOne(b, r, entry, true);
    if entry.Valid? { DecisionIsFree(b, r, entry.rule); }
    hide Decide, Free, FreshSlugs;
    var v := after.verdicts[|r.verdicts|];
    assert after.verdicts == r.verdicts + [v];
    FreshSlugsGrow(b, before, r, after, v);
  }

  /** The slugs under which a batch puts something new are new to the cluster and pairwise distinct. */
  lemma {:induction false} NewSlugsAreFresh(b: Batch, before: Objects, entries: seq<Entry>)
    ensures FreshSlugs(b, before, RunImport(b, before, entries, true))
    ensures FreshSlugs(b, before, RunImport(b, before, entries, false))
  {
    hide ObjectName;
    PlanKeepsFresh(b, before, entries);
    RunsInStep(b, before, entries);
    var plan, actual := RunImport(b, before, entries, true), RunImport(b, before, entries, false);
    hide RunImport, Tracks, Blocked;
    assert forall i :: 0 <= i < |entries| ==> NewSlug(actual.verdicts[i]) == NewSlug(plan.verdicts[i])
                                              || NewSlug(actual.verdicts[i]).None?;
    assert forall i :: 0 <= i < |entries| && NewSlug(actual.verdicts[i]).None? ==> NewSlug(plan.verdicts[i]).None?;
  }

  lemma {:induction false} PlanKeepsFresh(b: Batch, before: Objects, entries: seq<Entry>)
    ensures FreshSlugs(b, before, RunImport(b, before, entries, true))
  {
    if entries != [] {
      hide FreshSlugs, ImportOne;
      PlanKeepsFresh(b, before, entries[..|entries| - 1]);
      PlanPredictsRun(b, before, entries[..|entries| - 1]);
      OneKeepsFresh(b, before, RunImport(b, before, entries[..|entries| - 1], true), entries[|entries| - 1]);
    } else {
      hide ImportOne;
    }
  }

  /** A renamed rule's new slug matches the pattern its own slug matched. */
  lemma RenamedSlugMatches(b: Batch, r: Run, x: RuleWrite)
    requires MatchesSlugPattern(x.slug) && Decide(b, r, x).0.Renamed?
    ensures MatchesSlugPattern(Decide(b, r, x).1)
  {
    DecisionIsFree(b, r, x);
    hide Decide, Candidate, MatchesSlugPattern, Free;
    var n: nat :| n < MAX_RENAME_ATTEMPTS && Decide(b, r, x).1 == Candidate(x.slug, n);
    CandidateMatchesPattern(x.slug, n);
  }

  // ---- the pipeline as it runs against a cluster ----

  lemma ImportUnfolds(b: Batch, objects: Objects, entries: seq<Entry>, i: nat, dryRun: bool)
    requires i < |entries|
    ensures RunImport(b, objects, entries[..i + 1], dryRun)
            == ImportOne(b, RunImport(b, objects, entries[..i], dryRun), entries[i], dryRun)
  {
    hide ImportOne;
    assert entries[..i + 1][..i] == entries[..i];
  }

  class Cluster {
    var objects: Objects

    constructor (objects: Objects)
      ensures this.objects == objects
    {
      this.objects := objects;
    }

    /** create_rule: a conflict when the name is taken. */
    method CreateRule(m: Manifest) returns (ok: bool)
      requires m.name.Some?
      modifies this
      ensures ok == (m.name.value !in old(objects))
      ensures objects == if ok then old(objects)[m.name.value := m] else old(objects)
    {
      if m.name.value in objects { return false; }
      objects := objects[m.name.value := m];
      return true;
    }

    /** replace_rule: forbidden unless the object is there and the team's. */
    method ReplaceRule(name: string, teamId: nat, m: Manifest) returns (ok: bool)
      modifies this
      ensures ok == (name in old(objects) && OwnedBy(old(objects)[name], teamId))
      ensures objects == if ok then old(objects)[name := m] else old(objects)
      ensures objects.Keys == old(objects).Keys
      ensures forall other :: other in old(objects) && !OwnedBy(old(objects)[other], teamId) ==>
                                objects[other] == old(objects)[other]
    {
      if name !in objects || !OwnedBy(objects[name], teamId) { return false; }
      objects := objects[name := m];
      return true;
    }

    /** _find_rename_slug */
    method FindRenameSlug(b: Batch, base: string, claimed: set<string>) returns (slug: Option<string>)
      ensures slug == FindFrom(b, objects, claimed, base, 2)
    {
      hide ObjectName;
      for n := 2 to MAX_RENAME_ATTEMPTS
        invariant FindFrom(b, objects, claimed, base, 2) == FindFrom(b, objects, claimed, base, n)
      {
        var candidate := Candidate(base, n);
        if candidate in claimed { continue; }
        if Name(b, candidate) !in objects { return Some(candidate); }
      }
      return None;
    }

    method ImportRules(b: Batch, entries: seq<Entry>, dryRun: bool) returns (verdicts: seq<Verdict>)
      modifies this
      ensures var r := RunImport(b, old(objects), entries, dryRun);
              objects == r.objects && verdicts == r.verdicts
    {
      hide FindFrom, ObjectName, OwnedBy, ManifestFor, RunImport;
      ghost var before := objects;
      verdicts := [];
      var claimed: set<string> := {};
      assert RunImport(b, before, entries[..0], dryRun) == Run(objects, claimed, verdicts)
        by { ImportNothing(b, before, dryRun); }
      for i := 0 to |entries|
        invariant RunImport(b, before, entries[..i], dryRun) == Run(objects, claimed, verdicts)
      {
        ImportUnfolds(b, before, entries, i, dryRun);
        var entry := entries[i];
        if entry.Invalid? {
          verdicts := verdicts + [Verdict(entry.shown, Action.Failed, None, Some(BadRule))];
          continue;
        }
        var x := entry.rule;
        if !b.accepts(x.expr) {
          verdicts := verdicts + [Verdict(x.slug, Action.Failed, None, Some(BadExpression))];
          continue;
        }
        var conflict := Name(b, x.slug) in objects || x.slug in claimed;
        var finalSlug, action := x.slug, Action.Created;
        if conflict && b.strategy.Skip? {
          verdicts := verdicts + [Verdict(x.slug, Action.Skipped, None, None)];
          claimed := claimed + {x.slug};
          continue;
        } else if conflict && b.strategy.Overwrite? {
          action := Action.Overwritten;
        } else if conflict {
          var found := FindRenameSlug(b, x.slug, claimed);
          if found.None? {
            verdicts := verdicts + [Verdict(x.slug, Action.Failed, None, Some(NoFreeSlug))];
            continue;
          }
          finalSlug, action := found.value, Action.Renamed;
        }
        assert (action, finalSlug) == Decide(b, Run(objects, claimed, verdicts), x);
        claimed := claimed + {finalSlug};
        var ok := true;
        if !dryRun {
          ok := WriteRule(b, x, action, finalSlug);
        }
        verdicts := verdicts + [if ok then Verdict(x.slug, action, if action.Renamed? then Some(finalSlug) else None,
                                                   None)
                                else Verdict(x.slug, Action.Failed, None, Some(Refused))];
      }
      assert entries[..|entries|] == entries;
    }

    method WriteRule(b: Batch, x: RuleWrite, action: Action, finalSlug: string) returns (ok: bool)
      modifies this
      ensures var name := Name(b, finalSlug);
              && ok == (if action.Overwritten? then name in old(objects) && OwnedBy(old(objects)[name], b.team.id)
                        else name !in old(objects))
              && objects == if ok then old(objects)[name := ManifestFor(b, x, finalSlug)] else old(objects)
    {
      hide ObjectName, OwnedBy, RuleAnnotations, DumpJson, Decimal;
      var manifest := ManifestFor(b, x, finalSlug);
      if action.Overwritten? {
        ok := ReplaceRule(Name(b, finalSlug), b.team.id, manifest);
      } else {
        ok := CreateRule(manifest);
      }
    }
  }

  lemma ImportNothing(b: Batch, objects: Objects, dryRun: bool)
    ensures RunImport(b, objects, [], dryRun) == Run(objects, {}, [])
  {
  }
}
