/**
 Rule evaluation (routing.py) and share scopes (sharing.py): one alert against including and exclude
 matchers. The regular-expression engine is a parameter: `Compiler` says which patterns compile, and to what.
 */
module Matching {
  import opened Prelude
  import opened Model

  datatype Regex = Regex(search: string -> bool, fullmatch: string -> bool)

  type Compiler = string -> Option<Regex>

  datatype CompiledMatcher = CompiledMatcher(kind: string, target: string, key: Option<string>, regex: Regex,
                                             position: int)

  datatype VerdictKind =
    | Matched | ClusterFiltered | Gated | SeverityFiltered | NamespaceFiltered | NotIncluded | Excluded

  datatype Verdict = Verdict(kind: VerdictKind, blocking: Option<int>)

  datatype CompiledRule = CompiledRule(
    suppress: bool,
    enabled: bool,
    notifyOnFiring: bool,
    notifyOnResolved: bool,
    clusters: seq<nat>,
    severities: seq<string>,
    namespacesInclude: seq<Regex>,
    namespacesExclude: seq<Regex>,
    includes: seq<CompiledMatcher>,
    excludes: seq<CompiledMatcher>)

  // ---- one matcher ----

  function ValueFor(e: AlertEvent, target: string, key: Option<string>): Option<string> {
    if target == "alertname" then Some(e.alertname)
    else if key.None? then None
    else if target == "label" then if key.value in e.labels then Some(e.labels[key.value]) else None
    else if target == "annotation" then if key.value in e.annotations then Some(e.annotations[key.value]) else None
    else None
  }

  predicate MatcherMatches(e: AlertEvent, m: CompiledMatcher) {
    var value := ValueFor(e, m.target, m.key);
    value.Some? && m.regex.search(value.value)
  }

  // ---- compilation ----

  /** Stable insertion by position: an equal position stays behind the ones already there. */
  function InsertByPosition(ms: seq<Matcher>, m: Matcher): (r: seq<Matcher>)
    ensures forall x :: x in r <==> x == m || x in ms
    ensures SortedByPosition(ms) ==> SortedByPosition(r)
  {
    if ms == [] || ms[|ms| - 1].position <= m.position then
      assert forall x :: x in ms + [m] <==> x == m || x in ms;
      ms + [m]
    else
      var front := ms[..|ms| - 1];
      var last := ms[|ms| - 1];
      assert ms == front + [last];
      var r := InsertByPosition(front, m) + [last];
      assert SortedByPosition(ms) ==> SortedByPosition(r) by {
        if SortedByPosition(ms) {
          var q := InsertByPosition(front, m);
          forall i | 0 <= i < |q| ensures q[i].position <= last.position {
            assert q[i] in q;
          }
        }
      }
      r
  }

  predicate SortedByPosition(ms: seq<Matcher>) {
    forall i, j :: 0 <= i < j < |ms| ==> ms[i].position <= ms[j].position
  }

  function ByPosition(ms: seq<Matcher>): (r: seq<Matcher>)
    ensures SortedByPosition(r)
    ensures forall x :: x in r <==> x in ms
  {
    if ms == [] then []
    else
      assert ms == ms[..|ms| - 1] + [ms[|ms| - 1]];
      InsertByPosition(ByPosition(ms[..|ms| - 1]), ms[|ms| - 1])
  }

  function CompileOne(re: Compiler, m: Matcher): CompiledMatcher
    requires re(m.pattern).Some?
  {
    CompiledMatcher(m.kind, m.target, m.key, re(m.pattern).value, m.position)
  }

  predicate Survives(re: Compiler, m: Matcher, including: bool) {
    re(m.pattern).Some? && (m.kind == "include") == including
  }

  /** The matchers on the wanted side whose pattern compiles, in order. */
  function Kept(re: Compiler, ms: seq<Matcher>, including: bool): (r: seq<Matcher>)
    ensures forall m :: m in r <==> m in ms && Survives(re, m, including)
    ensures SortedByPosition(ms) ==> SortedByPosition(r)
  {
    if ms == [] then []
    else
      var front, last := ms[..|ms| - 1], ms[|ms| - 1];
      assert ms == front + [last];
      var r := Kept(re, front, including);
      assert SortedByPosition(ms) ==> forall i :: 0 <= i < |r| ==> r[i] in front && r[i].position <= last.position;
      if Survives(re, last, including) then r + [last] else r
  }

  function CompileEach(re: Compiler, ms: seq<Matcher>): seq<CompiledMatcher>
    requires forall m :: m in ms ==> re(m.pattern).Some?
  {
    seq(|ms|, i requires 0 <= i < |ms| => CompileOne(re, ms[i]))
  }

  function Surviving(re: Compiler, ms: seq<Matcher>, including: bool): seq<CompiledMatcher> {
    CompileEach(re, Kept(re, ms, including))
  }

  lemma KeptStep(re: Compiler, ms: seq<Matcher>, i: nat, including: bool)
    requires i < |ms|
    ensures Surviving(re, ms[..i + 1], including)
            == Surviving(re, ms[..i], including) + (if Survives(re, ms[i], including) then [CompileOne(re, ms[i])]
                                                    else [])
  {
    assert ms[..i + 1][..i] == ms[..i];
  }

  method CompileMatchers(re: Compiler, matchers: seq<Matcher>)
    returns (includes: seq<CompiledMatcher>, excludes: seq<CompiledMatcher>)
    ensures includes == Surviving(re, ByPosition(matchers), true)
    ensures excludes == Surviving(re, ByPosition(matchers), false)
  {
    var sorted := ByPosition(matchers);
    includes, excludes := [], [];
    for i := 0 to |sorted|
      invariant includes == Surviving(re, sorted[..i], true)
      invariant excludes == Surviving(re, sorted[..i], false)
    {
      KeptStep(re, sorted, i, true);
      KeptStep(re, sorted, i, false);
      var matcher := sorted[i];
      var regex := re(matcher.pattern);
      if regex.None? { continue; }
      var compiled := CompiledMatcher(matcher.kind, matcher.target, matcher.key, regex.value, matcher.position);
      if matcher.kind == "include" {
        includes := includes + [compiled];
      } else {
        excludes := excludes + [compiled];
      }
    }
    assert sorted[..|sorted|] == sorted;
  }

  function CompilePatterns(re: Compiler, ps: seq<string>): seq<Regex> {
    if ps == [] then []
    else (if re(ps[0]).Some? then [re(ps[0]).value] else []) + CompilePatterns(re, ps[1..])
  }

  function LowerChar(c: char): char {
    if 'A' <= c <= 'Z' then c - 'A' + 'a' else c
  }

  function Lower(s: string): string {
    seq(|s|, i requires 0 <= i < |s| => LowerChar(s[i]))
  }

  function LowerAll(ss: seq<string>): seq<string> {
    seq(|ss|, i requires 0 <= i < |ss| => Lower(ss[i]))
  }

  function CompileRule(re: Compiler, r: RoutingRule): CompiledRule {
    CompiledRule(
      r.action.Suppress?, r.enabled, r.notifyOnFiring, r.notifyOnResolved, r.clusters, LowerAll(r.severities),
      CompilePatterns(re, r.namespacesInclude), CompilePatterns(re, r.namespacesExclude),
      Surviving(re, ByPosition(r.matchers), true), Surviving(re, ByPosition(r.matchers), false))
  }

  // ---- evaluation ----

  /** The index of the first element satisfying `p`, or the length. */
  function FirstIndex<T>(s: seq<T>, p: T -> bool): (i: nat)
    ensures i <= |s|
    ensures forall j :: 0 <= j < i ==> !p(s[j])
    ensures i < |s| ==> p(s[i])
  {
    if s == [] || p(s[0]) then 0 else 1 + FirstIndex(s[1..], p)
  }

  predicate AnyFullmatch(ps: seq<Regex>, text: string) {
    exists i :: 0 <= i < |ps| && ps[i].fullmatch(text)
  }

  /** Stages 0 to 4: cluster, gate, severity, namespaces. */
  function EarlyStages(e: AlertEvent, c: CompiledRule, trigger: AlertStatus): Option<VerdictKind> {
    if c.clusters != [] && e.cluster !in c.clusters then Some(ClusterFiltered)
    else if !c.enabled then Some(Gated)
    else if !c.suppress && trigger.Firing? && !c.notifyOnFiring then Some(Gated)
    else if !c.suppress && trigger.Resolved? && !c.notifyOnResolved then Some(Gated)
    else if c.severities != [] && e.severity.None? && "none" !in c.severities then Some(SeverityFiltered)
    else if c.severities != [] && e.severity.Some? && Lower(e.severity.value) !in c.severities
      then Some(SeverityFiltered)
    else if c.namespacesInclude != []
            && (e.namespace.None? || !AnyFullmatch(c.namespacesInclude, e.namespace.value)) then Some(NamespaceFiltered)
    else if c.namespacesExclude != [] && e.namespace.Some? && AnyFullmatch(c.namespacesExclude, e.namespace.value) then
      Some(NamespaceFiltered)
    else None
  }

  /** Stages 5 and 6: every include matcher must hit, no exclude matcher may. */
  function MatcherStages(e: AlertEvent, c: CompiledRule): Verdict {
    var i := FirstIndex(c.includes, m => !MatcherMatches(e, m));
    if i < |c.includes| then Verdict(NotIncluded, Some(c.includes[i].position))
    else
      var j := FirstIndex(c.excludes, m => MatcherMatches(e, m));
      if j < |c.excludes| then Verdict(Excluded, Some(c.excludes[j].position))
      else Verdict(Matched, None)
  }

  function EvaluateCompiled(e: AlertEvent, c: CompiledRule, trigger: AlertStatus): Verdict {
    var early := EarlyStages(e, c, trigger);
    if early.Some? then Verdict(early.value, None) else MatcherStages(e, c)
  }

  function Evaluate(re: Compiler, e: AlertEvent, r: RoutingRule, trigger: AlertStatus): Verdict {
    EvaluateCompiled(e, CompileRule(re, r), trigger)
  }

  // ---- what a verdict means, said about the stored rule ----

  predicate ClusterAllows(e: AlertEvent, r: RoutingRule) {
    r.clusters == [] || e.cluster in r.clusters
  }

  /** A suppress rule answers whatever the trigger; a notify rule must want this one. */
  predicate GateOpen(r: RoutingRule, trigger: AlertStatus) {
    r.enabled && (r.action.Suppress? || (if trigger.Firing? then r.notifyOnFiring else r.notifyOnResolved))
  }

  /** The same letter, or the two cases of one. */
  predicate SameLetter(a: char, b: char) {
    a == b || ('A' <= a <= 'Z' && b as int == a as int + 32) || ('A' <= b <= 'Z' && a as int == b as int + 32)
  }

  predicate SameButForCase(a: string, b: string) {
    |a| == |b| && forall i :: 0 <= i < |a| ==> SameLetter(a[i], b[i])
  }

  /** Some listed severity is the alert's but for case; an alert without one counts as "none". */
  predicate SeverityAllows(e: AlertEvent, r: RoutingRule) {
    r.severities == []
    || exists s :: s in r.severities && SameButForCase(s, if e.severity.None? then "none" else e.severity.value)
  }

  predicate SomePatternFits(re: Compiler, patterns: seq<string>, text: string) {
    exists p :: p in patterns && re(p).Some? && re(p).value.fullmatch(text)
  }

  predicate SomePatternCompiles(re: Compiler, patterns: seq<string>) {
    exists p :: p in patterns && re(p).Some?
  }

  predicate NamespaceAllows(re: Compiler, e: AlertEvent, r: RoutingRule) {
    && (SomePatternCompiles(re, r.namespacesInclude) ==>
          e.namespace.Some? && SomePatternFits(re, r.namespacesInclude, e.namespace.value))
    && (e.namespace.Some? ==> !SomePatternFits(re, r.namespacesExclude, e.namespace.value))
  }

  /** The pattern is found in the alert's name, in the label, or in the annotation the matcher points at. */
  predicate Hits(re: Compiler, e: AlertEvent, m: Matcher)
    requires re(m.pattern).Some?
  {
    var search := re(m.pattern).value.search;
    || (m.target == "alertname" && search(e.alertname))
    || (m.target == "label" && m.key.Some? && m.key.value in e.labels && search(e.labels[m.key.value]))
    || (m.target == "annotation" && m.key.Some? && m.key.value in e.annotations && search(e.annotations[m.key.value]))
  }

  /** A compiled matcher matches exactly what its stored form is said to hit. */
  lemma MatcherMeaning(re: Compiler, e: AlertEvent, m: Matcher)
    requires re(m.pattern).Some?
    ensures MatcherMatches(e, CompileOne(re, m)) <==> Hits(re, e, m)
  {
  }

  /** An include matcher blocks by missing, any other kind by hitting; one that does not compile never blocks. */
  predicate Blocks(re: Compiler, e: AlertEvent, m: Matcher, including: bool) {
    re(m.pattern).Some? && (m.kind == "include") == including && Hits(re, e, m) != including
  }

  ghost predicate Unblocked(re: Compiler, e: AlertEvent, r: RoutingRule, including: bool) {
    forall m :: m in r.matchers ==> !Blocks(re, e, m, including)
  }

  ghost predicate LowestBlocker(re: Compiler, e: AlertEvent, r: RoutingRule, including: bool, at: Option<int>) {
    && at.Some?
    && (exists m :: m in r.matchers && Blocks(re, e, m, including) && m.position == at.value)
    && (forall m :: m in r.matchers && Blocks(re, e, m, including) ==> at.value <= m.position)
  }

  predicate PassesFilters(re: Compiler, e: AlertEvent, r: RoutingRule, trigger: AlertStatus) {
    ClusterAllows(e, r) && GateOpen(r, trigger) && SeverityAllows(e, r) && NamespaceAllows(re, e, r)
  }

  /** The verdict names the first stage that fails, and for a matcher stage the lowest position that blocks. */
  ghost predicate MeetsSpec(re: Compiler, e: AlertEvent, r: RoutingRule, trigger: AlertStatus, v: Verdict) {
    if !PassesFilters(re, e, r, trigger) then
      v == Verdict(if !ClusterAllows(e, r) then ClusterFiltered
                   else if !GateOpen(r, trigger) then Gated
                   else if !SeverityAllows(e, r) then SeverityFiltered
                   else NamespaceFiltered, None)
    else if !Unblocked(re, e, r, true) then v.kind == NotIncluded && LowestBlocker(re, e, r, true, v.blocking)
    else if !Unblocked(re, e, r, false) then v.kind == Excluded && LowestBlocker(re, e, r, false, v.blocking)
    else v == Verdict(Matched, None)
  }

  lemma {:induction false} CompiledPatternsAre(re: Compiler, ps: seq<string>, text: string)
    ensures CompilePatterns(re, ps) != [] <==> SomePatternCompiles(re, ps)
    ensures AnyFullmatch(CompilePatterns(re, ps), text) <==> SomePatternFits(re, ps, text)
  {
    if ps != [] {
      CompiledPatternsAre(re, ps[1..], text);
      var tail := CompilePatterns(re, ps[1..]);
      var all := CompilePatterns(re, ps);
      assert ps == [ps[0]] + ps[1..];
      if re(ps[0]).Some? {
        assert all == [re(ps[0]).value] + tail;
        if AnyFullmatch(tail, text) {
          var i :| 0 <= i < |tail| && tail[i].fullmatch(text);
          assert all[i + 1].fullmatch(text);
        }
        assert all[0].fullmatch(text) ==> AnyFullmatch(all, text);
        if AnyFullmatch(all, text) && !all[0].fullmatch(text) {
          var i :| 0 <= i < |all| && all[i].fullmatch(text);
          assert tail[i - 1].fullmatch(text);
        }
      } else {
        assert all == tail;
      }
    }
  }

  lemma LowerMeansSameButForCase(a: string, b: string)
    ensures Lower(a) == Lower(b) <==> SameButForCase(a, b)
  {
    if Lower(a) == Lower(b) {
      assert |Lower(a)| == |Lower(b)|;
      forall i | 0 <= i < |a| ensures SameLetter(a[i], b[i]) { assert Lower(a)[i] == Lower(b)[i]; }
    }
  }

  lemma SeverityMeaning(e: AlertEvent, r: RoutingRule)
    ensures var wanted := if e.severity.None? then "none" else Lower(e.severity.value);
            r.severities == [] || wanted in LowerAll(r.severities) <==> SeverityAllows(e, r)
  {
    hide Lower, SameButForCase;
    var l, text := LowerAll(r.severities), if e.severity.None? then "none" else e.severity.value;
    assert Lower("none") == "none" by { NoneIsLower(); }
    forall i | 0 <= i < |l| ensures l[i] == Lower(text) <==> SameButForCase(r.severities[i], text) {
      LowerMeansSameButForCase(r.severities[i], text);
    }
    if s :| s in r.severities && SameButForCase(s, text) {
      var i :| 0 <= i < |r.severities| && r.severities[i] == s;
      assert l[i] == Lower(text);
    }
  }

  lemma NoneIsLower()
    ensures Lower("none") == "none"
  {
  }

  /** The compiled matcher at `j` blocks exactly when the stored one it came from does. */
  lemma SurvivorAt(re: Compiler, e: AlertEvent, ms: seq<Matcher>, including: bool, j: nat)
    requires j < |Surviving(re, ms, including)|
    ensures j < |Kept(re, ms, including)| && Kept(re, ms, including)[j] in ms
    ensures var c, m := Surviving(re, ms, including)[j], Kept(re, ms, including)[j];
            c.position == m.position && (MatcherMatches(e, c) != including <==> Blocks(re, e, m, including))
  {
    assert Kept(re, ms, including)[j] in Kept(re, ms, including);
    MatcherMeaning(re, e, Kept(re, ms, including)[j]);
  }

  /** A stored matcher that blocks is found among the survivors. */
  lemma BlockerSurvives(re: Compiler, e: AlertEvent, ms: seq<Matcher>, including: bool, m: Matcher) returns (j: nat)
    requires m in ms && Blocks(re, e, m, including)
    ensures j < |Surviving(re, ms, including)| && j < |Kept(re, ms, including)|
    ensures Kept(re, ms, including)[j] == m && MatcherMatches(e, Surviving(re, ms, including)[j]) != including
  {
    var k := Kept(re, ms, including);
    assert m in k;
    j :| 0 <= j < |k| && k[j] == m;
    SurvivorAt(re, e, ms, including, j);
    hide Surviving, MatcherMatches;
  }

  ghost predicate FirstMiss(e: AlertEvent, s: seq<CompiledMatcher>, including: bool, i: nat) {
    && i <= |s|
    && (forall j :: 0 <= j < i ==> MatcherMatches(e, s[j]) == including)
    && (i < |s| ==> MatcherMatches(e, s[i]) != including)
  }

  lemma FirstMissIsLowest(re: Compiler, e: AlertEvent, ms: seq<Matcher>, including: bool, i: nat, m: Matcher)
    requires SortedByPosition(ms) && FirstMiss(e, Surviving(re, ms, including), including, i)
    requires m in ms && Blocks(re, e, m, including)
    ensures i < |Surviving(re, ms, including)| && Surviving(re, ms, including)[i].position <= m.position
  {
    hide Surviving, MatcherMatches, Blocks;
    var j := BlockerSurvives(re, e, ms, including, m);
    SurvivorAt(re, e, ms, including, i);
    var k := Kept(re, ms, including);
    assert i == j || k[i].position <= k[j].position;
  }

  lemma FirstSurvivorIsLowest(re: Compiler, e: AlertEvent, r: RoutingRule, including: bool, i: nat)
    requires FirstMiss(e, Surviving(re, ByPosition(r.matchers), including), including, i)
    ensures var s := Surviving(re, ByPosition(r.matchers), including);
            if i < |s| then LowestBlocker(re, e, r, including, Some(s[i].position)) else Unblocked(re, e, r, including)
  {
    var ms := ByPosition(r.matchers);
    if i < |Surviving(re, ms, including)| { SurvivorAt(re, e, ms, including, i); }
    forall m | m in r.matchers && Blocks(re, e, m, including)
      ensures i < |Surviving(re, ms, including)| && Surviving(re, ms, including)[i].position <= m.position
    {
      FirstMissIsLowest(re, e, ms, including, i, m);
    }
    hide Surviving, MatcherMatches, Blocks, FirstMiss, Kept;
  }

  lemma EarlyMeaning(re: Compiler, e: AlertEvent, r: RoutingRule, trigger: AlertStatus)
    ensures EarlyStages(e, CompileRule(re, r), trigger)
            == if !ClusterAllows(e, r) then Some(ClusterFiltered)
               else if !GateOpen(r, trigger) then Some(Gated)
               else if !SeverityAllows(e, r) then Some(SeverityFiltered)
               else if !NamespaceAllows(re, e, r) then Some(NamespaceFiltered)
               else None
  {
    SeverityMeaning(e, r);
    var namespace := if e.namespace.Some? then e.namespace.value else "";
    CompiledPatternsAre(re, r.namespacesInclude, namespace);
    CompiledPatternsAre(re, r.namespacesExclude, namespace);
  }

  /** Evaluation, through compilation and sorting, meets the declarative reading of the stored rule. */
  lemma VerdictMeaning(re: Compiler, e: AlertEvent, r: RoutingRule, trigger: AlertStatus)
    ensures MeetsSpec(re, e, r, trigger, Evaluate(re, e, r, trigger))
  {
    hide EarlyStages, Surviving, MatcherMatches, ByPosition;
    EarlyMeaning(re, e, r, trigger);
    var c := CompileRule(re, r);
    var i := FirstIndex(c.includes, m => !MatcherMatches(e, m));
    FirstSurvivorIsLowest(re, e, r, true, i);
    if i == |c.includes| {
      FirstSurvivorIsLowest(re, e, r, false, FirstIndex(c.excludes, m => MatcherMatches(e, m)));
    }
  }

  // ---- shares ----

  /** A share's stored matcher: any of the three required fields may be missing. */
  datatype StoredMatcher =
    StoredMatcher(kind: Option<string>, target: Option<string>, key: Option<string>, pattern: Option<string>)

  datatype ShareScope = ShareScope(includes: seq<CompiledMatcher>, excludes: seq<CompiledMatcher>, alwaysDenies: bool)

  predicate Complete(m: StoredMatcher) {
    m.kind.Some? && m.target.Some? && m.pattern.Some?
  }

  function Adapt(m: StoredMatcher, position: int): Matcher
    requires Complete(m)
  {
    Matcher(m.kind.value, m.target.value, m.key, m.pattern.value, position)
  }

  /** The complete matchers among the stored ones, each keeping its stored index as position. */
  function Transient(ms: seq<StoredMatcher>): (r: seq<Matcher>)
    ensures forall m :: m in r ==> 0 <= m.position < |ms|
    ensures SortedByPosition(r)
  {
    if ms == [] then []
    else
      var front := Transient(ms[..|ms| - 1]);
      var last := ms[|ms| - 1];
      if Complete(last) then
        var r := front + [Adapt(last, |ms| - 1)];
        assert forall i :: 0 <= i < |front| ==> front[i] in front;
        r
      else front
  }

  /** build_transient_matchers: an entry without kind, target or pattern is skipped. */
  method BuildTransientMatchers(ms: seq<StoredMatcher>) returns (r: seq<Matcher>)
    ensures r == Transient(ms)
  {
    r := [];
    for position := 0 to |ms|
      invariant r == Transient(ms[..position])
    {
      assert ms[..position + 1][..position] == ms[..position];
      var m := ms[position];
      if m.kind.None? || m.target.None? || m.pattern.None? { continue; }
      r := r + [Matcher(m.kind.value, m.target.value, m.key, m.pattern.value, position)];
    }
    assert ms[..|ms|] == ms;
  }

  function CompileShareScope(re: Compiler, ms: seq<StoredMatcher>): ShareScope {
    if ms == [] then ShareScope([], [], false)
    else
      var sorted := ByPosition(Transient(ms));
      var includes := Surviving(re, sorted, true);
      var excludes := Surviving(re, sorted, false);
      ShareScope(includes, excludes, |includes| + |excludes| < |ms|)
  }

  predicate ScopeMatches(s: ShareScope, e: AlertEvent) {
    && !s.alwaysDenies
    && (forall i :: 0 <= i < |s.includes| ==> MatcherMatches(e, s.includes[i]))
    && (forall i :: 0 <= i < |s.excludes| ==> !MatcherMatches(e, s.excludes[i]))
  }

  predicate ShareMatches(re: Compiler, ms: seq<StoredMatcher>, e: AlertEvent) {
    ScopeMatches(CompileShareScope(re, ms), e)
  }

  /** One stored matcher lets the alert through: it is complete, compiles, and its side is satisfied. */
  predicate Admits(re: Compiler, m: StoredMatcher, e: AlertEvent) {
    Complete(m) && re(m.pattern.value).Some?
    && (Hits(re, e, Adapt(m, 0)) <==> m.kind.value == "include")
  }

  lemma {:induction false} SurvivorCount(re: Compiler, ms: seq<Matcher>)
    ensures |Kept(re, ms, true)| + |Kept(re, ms, false)| <= |ms|
    ensures |Kept(re, ms, true)| + |Kept(re, ms, false)| == |ms| <==> forall m :: m in ms ==> re(m.pattern).Some?
  {
    if ms != [] {
      SurvivorCount(re, ms[..|ms| - 1]);
      assert ms == ms[..|ms| - 1] + [ms[|ms| - 1]];
    }
  }

  lemma {:induction false} TransientCount(ms: seq<StoredMatcher>)
    ensures |Transient(ms)| <= |ms|
    ensures |Transient(ms)| == |ms| <==> forall m :: m in ms ==> Complete(m)
  {
    if ms != [] {
      TransientCount(ms[..|ms| - 1]);
      assert ms == ms[..|ms| - 1] + [ms[|ms| - 1]];
    }
  }

  lemma {:induction false} TransientHas(ms: seq<StoredMatcher>, i: nat)
    requires i < |ms| && Complete(ms[i])
    ensures Adapt(ms[i], i) in Transient(ms)
  {
    if i < |ms| - 1 { TransientHas(ms[..|ms| - 1], i); }
  }

  lemma {:induction false} TransientOnly(ms: seq<StoredMatcher>, m: Matcher)
    requires m in Transient(ms)
    ensures 0 <= m.position < |ms| && Complete(ms[m.position]) && m == Adapt(ms[m.position], m.position)
  {
    var front := ms[..|ms| - 1];
    if m in Transient(front) { TransientOnly(front, m); }
  }

  lemma InsertBehind(ms: seq<Matcher>, m: Matcher)
    requires forall x :: x in ms ==> x.position <= m.position
    ensures InsertByPosition(ms, m) == ms + [m]
  {
    if ms != [] { assert ms[|ms| - 1] in ms; }
  }

  lemma {:induction false} SortedStaysPut(ms: seq<Matcher>)
    requires SortedByPosition(ms)
    ensures ByPosition(ms) == ms
  {
    hide InsertByPosition;
    if ms != [] {
      var front, last := ms[..|ms| - 1], ms[|ms| - 1];
      SortedStaysPut(front);
      forall x | x in front ensures x.position <= last.position {
        var i :| 0 <= i < |front| && front[i] == x;
        assert ms[i] == x;
      }
      InsertBehind(front, last);
      assert ms == front + [last];
    }
  }

  lemma SurvivorsSatisfied(re: Compiler, e: AlertEvent, ms: seq<Matcher>, including: bool)
    ensures (forall i :: 0 <= i < |Surviving(re, ms, including)| ==>
                           MatcherMatches(e, Surviving(re, ms, including)[i]) == including)
            <==> forall m :: m in ms ==> !Blocks(re, e, m, including)
  {
    hide MatcherMatches, Hits;
    var k := Kept(re, ms, including);
    forall m | m in ms && Blocks(re, e, m, including)
      ensures exists i :: 0 <= i < |k| && MatcherMatches(e, Surviving(re, ms, including)[i]) != including
    {
      var i :| 0 <= i < |k| && k[i] == m;
      MatcherMeaning(re, e, m);
      assert MatcherMatches(e, Surviving(re, ms, including)[i]) != including;
    }
    forall i | 0 <= i < |k|
      ensures k[i] in ms && Survives(re, k[i], including)
      ensures MatcherMatches(e, Surviving(re, ms, including)[i]) <==> Hits(re, e, k[i])
    {
      assert k[i] in k;
      MatcherMeaning(re, e, k[i]);
    }
  }

  lemma AdmittedOneByOne(re: Compiler, ms: seq<StoredMatcher>, e: AlertEvent, i: nat)
    requires i < |ms| && (forall m :: m in ms ==> Complete(m))
    requires forall m :: m in Transient(ms) ==>
                           re(m.pattern).Some? && !Blocks(re, e, m, true) && !Blocks(re, e, m, false)
    ensures Admits(re, ms[i], e)
  {
    TransientHas(ms, i);
  }

  lemma AdmittedTogether(re: Compiler, ms: seq<StoredMatcher>, e: AlertEvent, m: Matcher)
    requires (forall x :: x in ms ==> Admits(re, x, e)) && m in Transient(ms)
    ensures re(m.pattern).Some? && !Blocks(re, e, m, true) && !Blocks(re, e, m, false)
  {
    TransientOnly(ms, m);
    assert Admits(re, ms[m.position], e);
  }

  /** A scope admits what none of its compiled matchers blocks, provided none was lost on the way. */
  lemma ScopeIs(re: Compiler, ms: seq<StoredMatcher>, e: AlertEvent)
    requires ms != []
    ensures ShareMatches(re, ms, e)
            <==> (forall m :: m in ms ==> Complete(m))
                 && forall m :: m in Transient(ms) ==>
                      re(m.pattern).Some? && !Blocks(re, e, m, true) && !Blocks(re, e, m, false)
  {
    hide Blocks, MatcherMatches, Hits, Kept, Transient, ByPosition;
    var t := Transient(ms);
    TransientCount(ms);
    SortedStaysPut(t);
    SurvivorCount(re, t);
    SurvivorsSatisfied(re, e, t, true);
    SurvivorsSatisfied(re, e, t, false);
  }

  /** A share's scope is exactly the conjunction of its stored matchers, failing closed on each. */
  lemma ShareMeaning(re: Compiler, ms: seq<StoredMatcher>, e: AlertEvent)
    ensures ShareMatches(re, ms, e) <==> forall m :: m in ms ==> Admits(re, m, e)
  {
    if ms == [] { return; }
    hide Blocks, Hits, Transient, Admits, ShareMatches;
    ScopeIs(re, ms, e);
    if ShareMatches(re, ms, e) {
      forall i | 0 <= i < |ms| ensures Admits(re, ms[i], e) { AdmittedOneByOne(re, ms, e, i); }
    }
    if forall m :: m in ms ==> Admits(re, m, e) {
      forall m | m in ms ensures Complete(m) { AdmittedIsComplete(re, m, e); }
      forall m | m in Transient(ms) ensures re(m.pattern).Some? && !Blocks(re, e, m, true) && !Blocks(re, e, m, false) {
        AdmittedTogether(re, ms, e, m);
      }
    }
  }

  lemma AdmittedIsComplete(re: Compiler, m: StoredMatcher, e: AlertEvent)
    requires Admits(re, m, e)
    ensures Complete(m)
  {
  }

  /**
   One matcher as a share's whole scope: it admits an alert exactly when what it points at is there and its pattern is
   found in it, for an including matcher, and exactly when not, for any other. A label or annotation matcher without a
   key, and one for an unknown target, find nothing.
   */
  lemma OneMatcherScope(re: Compiler, kind: string, target: string, key: Option<string>, pattern: string, e: AlertEvent)
    requires re(pattern).Some?
    ensures var scope := [StoredMatcher(Some(kind), Some(target), key, Some(pattern))];
            var found :=
              if target == "alertname" then re(pattern).value.search(e.alertname)
              else if target == "label" && key.Some? && key.value in e.labels then
                re(pattern).value.search(e.labels[key.value])
              else if target == "annotation" && key.Some? && key.value in e.annotations then
                re(pattern).value.search(e.annotations[key.value])
              else false;
            ShareMatches(re, scope, e) <==> (found <==> kind == "include")
  {
    hide ShareMatches;
    var scope := [StoredMatcher(Some(kind), Some(target), key, Some(pattern))];
    ShareMeaning(re, scope, e);
    assert scope[0] in scope && forall m :: m in scope ==> m == scope[0];
  }

  /** Inserting a matcher anywhere never lets an alert through that was kept out before. */
  lemma AddingAMatcherNeverWidens(re: Compiler, before: seq<StoredMatcher>, m: StoredMatcher,
                                  after: seq<StoredMatcher>, e: AlertEvent)
    requires ShareMatches(re, before + [m] + after, e)
    ensures ShareMatches(re, before + after, e)
  {
    ShareMeaning(re, before + [m] + after, e);
    ShareMeaning(re, before + after, e);
    assert forall x :: x in before + after ==> x in before + [m] + after;
  }

  /** One matcher that is incomplete or does not compile denies every alert. */
  lemma BrokenMatcherDeniesAll(re: Compiler, ms: seq<StoredMatcher>, m: StoredMatcher, e: AlertEvent)
    requires m in ms
    requires !Complete(m) || re(m.pattern.value).None?
    ensures !ShareMatches(re, ms, e)
  {
    ShareMeaning(re, ms, e);
  }
}
