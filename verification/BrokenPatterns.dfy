/**
 Patterns that do not compile (routing.py). Saving a rule refuses them; one that reached the table another way is
 dropped. What dropping it does to the rule, compared with the rule its author meant.
 */
module BrokenPatterns {
  import opened Prelude
  import opened Model
  import opened Matching

  // ---- dropping: the rule without its broken patterns ----

  function DropPatterns(re: Compiler, ps: seq<string>): seq<string> {
    if ps == [] then [] else (if re(ps[0]).Some? then [ps[0]] else []) + DropPatterns(re, ps[1..])
  }

  function DropMatchers(re: Compiler, ms: seq<Matcher>): seq<Matcher> {
    if ms == [] then []
    else
      var front, last := DropMatchers(re, ms[..|ms| - 1]), ms[|ms| - 1];
      if re(last.pattern).Some? then front + [last] else front
  }

  function WithoutBroken(re: Compiler, r: RoutingRule): RoutingRule {
    r.(namespacesInclude := DropPatterns(re, r.namespacesInclude),
       namespacesExclude := DropPatterns(re, r.namespacesExclude),
       matchers := DropMatchers(re, r.matchers))
  }

  lemma {:induction false} DroppedPatternsCompileAlike(re: Compiler, ps: seq<string>)
    ensures CompilePatterns(re, DropPatterns(re, ps)) == CompilePatterns(re, ps)
  {
    if ps != [] {
      DroppedPatternsCompileAlike(re, ps[1..]);
      var tail := DropPatterns(re, ps[1..]);
      if re(ps[0]).Some? {
        assert ([ps[0]] + tail)[1..] == tail;
      } else {
        assert DropPatterns(re, ps) == tail && CompilePatterns(re, ps) == CompilePatterns(re, ps[1..]);
      }
    }
  }

  lemma KeepLast(re: Compiler, front: seq<Matcher>, last: Matcher, including: bool)
    ensures Kept(re, front + [last], including)
            == if Survives(re, last, including) then Kept(re, front, including) + [last] else Kept(re, front, including)
  {
    assert (front + [last])[..|front|] == front;
  }

  lemma InsertBefore(front: seq<Matcher>, last: Matcher, m: Matcher)
    requires m.position < last.position
    ensures InsertByPosition(front + [last], m) == InsertByPosition(front, m) + [last]
  {
    assert (front + [last])[..|front|] == front;
  }

  /** Inserting and then keeping one side is keeping that side and then inserting. */
  lemma {:induction false} InsertThenKeep(re: Compiler, ms: seq<Matcher>, m: Matcher, including: bool)
    requires SortedByPosition(ms)
    ensures Kept(re, InsertByPosition(ms, m), including)
            == if Survives(re, m, including) then InsertByPosition(Kept(re, ms, including), m)
              else Kept(re, ms, including)
  {
    hide Kept, InsertByPosition, Survives;
    var kept := Kept(re, ms, including);
    if ms == [] || ms[|ms| - 1].position <= m.position {
      InsertBehind(ms, m);
      InsertBehind(kept, m);
      KeepLast(re, ms, m, including);
    } else {
      var front, last := ms[..|ms| - 1], ms[|ms| - 1];
      assert ms == front + [last];
      InsertThenKeep(re, front, m, including);
      InsertBefore(front, last, m);
      InsertBefore(Kept(re, front, including), last, m);
      KeepLast(re, front, last, including);
      KeepLast(re, InsertByPosition(front, m), last, including);
    }
  }

  lemma {:induction false} DroppedMatchersSurviveAlike(re: Compiler, ms: seq<Matcher>, including: bool)
    ensures Kept(re, ByPosition(DropMatchers(re, ms)), including) == Kept(re, ByPosition(ms), including)
  {
    if ms != [] {
      var front, last := ms[..|ms| - 1], ms[|ms| - 1];
      DroppedMatchersSurviveAlike(re, front, including);
      InsertThenKeep(re, ByPosition(front), last, including);
      var dropped := DropMatchers(re, front);
      if re(last.pattern).Some? {
        assert (dropped + [last])[..|dropped|] == dropped;
        InsertThenKeep(re, ByPosition(dropped), last, including);
      }
    }
  }

  /** A rule evaluates exactly as it would with its broken patterns deleted, down to the blocking position. */
  lemma BrokenPatternsAreDropped(re: Compiler, e: AlertEvent, r: RoutingRule, trigger: AlertStatus)
    ensures Evaluate(re, e, r, trigger) == Evaluate(re, e, WithoutBroken(re, r), trigger)
  {
    DroppedPatternsCompileAlike(re, r.namespacesInclude);
    DroppedPatternsCompileAlike(re, r.namespacesExclude);
    DroppedMatchersSurviveAlike(re, r.matchers, true);
    DroppedMatchersSurviveAlike(re, r.matchers, false);
    hide EvaluateCompiled, ByPosition, Kept, DropPatterns, DropMatchers, CompilePatterns;
  }

  // ---- the rule its author meant ----

  /** `meant` reads every pattern of the rule: those that compile as they are, the broken ones as their author did. */
  ghost predicate Repairs(re: Compiler, meant: Compiler, r: RoutingRule) {
    && (forall p :: re(p).Some? ==> meant(p) == re(p))
    && (forall p :: p in r.namespacesInclude || p in r.namespacesExclude ==> meant(p).Some?)
    && (forall m :: m in r.matchers ==> meant(m.pattern).Some?)
  }

  /**
   Every pattern of the include list is broken, so the list is no filter, and as meant it would keep the alert
   out.
   */
  ghost predicate IncludeListLost(re: Compiler, meant: Compiler, e: AlertEvent, r: RoutingRule) {
    && r.namespacesInclude != [] && !SomePatternCompiles(re, r.namespacesInclude)
    && (e.namespace.None? || !SomePatternFits(meant, r.namespacesInclude, e.namespace.value))
  }

  /** A broken exclude pattern would have caught the alert's namespace. */
  ghost predicate ExcludePatternLost(re: Compiler, meant: Compiler, e: AlertEvent, r: RoutingRule) {
    e.namespace.Some?
    && exists p :: p in r.namespacesExclude && re(p).None? && meant(p).Some?
                   && meant(p).value.fullmatch(e.namespace.value)
  }

  /** A broken matcher would have blocked the alert. */
  ghost predicate BlockerLost(re: Compiler, meant: Compiler, e: AlertEvent, r: RoutingRule) {
    exists m :: m in r.matchers && re(m.pattern).None? && (Blocks(meant, e, m, true) || Blocks(meant, e, m, false))
  }

  lemma MatchedMeans(re: Compiler, e: AlertEvent, r: RoutingRule, trigger: AlertStatus)
    ensures Evaluate(re, e, r, trigger).kind.Matched?
            <==> PassesFilters(re, e, r, trigger) && Unblocked(re, e, r, true) && Unblocked(re, e, r, false)
  {
    hide Evaluate, PassesFilters, Unblocked;
    VerdictMeaning(re, e, r, trigger);
  }

  lemma NamespaceAsMeant(re: Compiler, meant: Compiler, e: AlertEvent, r: RoutingRule)
    requires Repairs(re, meant, r) && NamespaceAllows(re, e, r)
    ensures NamespaceAllows(meant, e, r) <==> !IncludeListLost(re, meant, e, r) && !ExcludePatternLost(re, meant, e, r)
  {
    if r.namespacesInclude != [] { assert r.namespacesInclude[0] in r.namespacesInclude; }
  }

  lemma BlockersAsMeant(re: Compiler, meant: Compiler, e: AlertEvent, r: RoutingRule)
    requires Repairs(re, meant, r) && Unblocked(re, e, r, true) && Unblocked(re, e, r, false)
    ensures Unblocked(meant, e, r, true) && Unblocked(meant, e, r, false) <==> !BlockerLost(re, meant, e, r)
  {
    forall m, including: bool | m in r.matchers && re(m.pattern).Some?
      ensures Blocks(meant, e, m, including) <==> Blocks(re, e, m, including)
    {
    }
  }

  /**
   Whatever the author meant by the broken patterns: the rule as run admits an alert that the rule as meant keeps
   out exactly when the include list was lost as a whole, or a lost exclude pattern or a lost matcher would have
   kept the alert out.
   */
  lemma WidenedExactlyWhen(re: Compiler, meant: Compiler, e: AlertEvent, r: RoutingRule, trigger: AlertStatus)
    requires Repairs(re, meant, r) && Evaluate(re, e, r, trigger).kind.Matched?
    ensures !Evaluate(meant, e, r, trigger).kind.Matched?
            <==> IncludeListLost(re, meant, e, r) || ExcludePatternLost(re, meant, e, r) || BlockerLost(re, meant, e, r)
  {
    hide Evaluate, Unblocked, ClusterAllows, GateOpen, SeverityAllows, NamespaceAllows, Repairs, IncludeListLost,
      ExcludePatternLost, BlockerLost;
    MatchedMeans(re, e, r, trigger);
    MatchedMeans(meant, e, r, trigger);
    NamespaceAsMeant(re, meant, e, r);
    BlockersAsMeant(re, meant, e, r);
  }

  /** And it keeps out an alert the rule as meant admits exactly when only a lost include pattern fits it. */
  lemma NarrowedExactlyWhen(re: Compiler, meant: Compiler, e: AlertEvent, r: RoutingRule, trigger: AlertStatus)
    requires Repairs(re, meant, r) && Evaluate(meant, e, r, trigger).kind.Matched?
    ensures !Evaluate(re, e, r, trigger).kind.Matched?
            <==> && SomePatternCompiles(re, r.namespacesInclude)
                 && e.namespace.Some? && !SomePatternFits(re, r.namespacesInclude, e.namespace.value)
  {
    MatchedMeans(re, e, r, trigger);
    MatchedMeans(meant, e, r, trigger);
    hide Evaluate;
    assert forall m, including: bool :: m in r.matchers && Blocks(re, e, m, including) ==>
        Blocks(meant, e, m, including);
    assert forall text :: SomePatternFits(re, r.namespacesExclude, text) ==>
        SomePatternFits(meant, r.namespacesExclude, text);
  }

  // ---- the documented reading: a broken condition never fires ----

  /** The pattern engine under which a broken pattern compiles and matches nothing. */
  function NeverFiring(re: Compiler): Compiler {
    p => if re(p).Some? then re(p) else Some(Regex(_ => false, _ => false))
  }

  /** A non-empty include list without one pattern that compiles, or an include matcher whose pattern does not. */
  predicate Loosened(re: Compiler, r: RoutingRule) {
    || (r.namespacesInclude != [] && !SomePatternCompiles(re, r.namespacesInclude))
    || (exists m :: m in r.matchers && m.kind == "include" && re(m.pattern).None?)
  }

  /**
   A condition that never fires admits nothing when it is an including one. The code drops it instead, so it admits
   more than that reading exactly on the alerts it admits through a loosened rule, and never less.
   */
  lemma NeverFiringExactlyWhen(re: Compiler, e: AlertEvent, r: RoutingRule, trigger: AlertStatus)
    ensures Evaluate(NeverFiring(re), e, r, trigger).kind.Matched?
            <==> Evaluate(re, e, r, trigger).kind.Matched? && !Loosened(re, r)
  {
    hide Evaluate, Repairs, ExcludePatternLost, BlockerLost, IncludeListLost, NeverFiring, Loosened;
    NeverFiringRepairs(re, e, r);
    if Evaluate(re, e, r, trigger).kind.Matched? {
      WidenedExactlyWhen(re, NeverFiring(re), e, r, trigger);
      NeverFiringLoses(re, e, r);
    } else if Evaluate(NeverFiring(re), e, r, trigger).kind.Matched? {
      NothingGained(re, e, r, trigger);
    }
  }

  lemma NeverFiringRepairs(re: Compiler, e: AlertEvent, r: RoutingRule)
    ensures Repairs(re, NeverFiring(re), r) && !ExcludePatternLost(re, NeverFiring(re), e, r)
  {
  }

  /** What is lost against that reading: an include list as a whole, or an include matcher. */
  lemma NeverFiringLoses(re: Compiler, e: AlertEvent, r: RoutingRule)
    ensures IncludeListLost(re, NeverFiring(re), e, r) || BlockerLost(re, NeverFiring(re), e, r) <==> Loosened(re, r)
  {
    var never := NeverFiring(re);
    forall m | m in r.matchers && re(m.pattern).None?
      ensures Blocks(never, e, m, true) || Blocks(never, e, m, false) <==> m.kind == "include"
    {
    }
  }

  lemma NothingGained(re: Compiler, e: AlertEvent, r: RoutingRule, trigger: AlertStatus)
    requires Evaluate(NeverFiring(re), e, r, trigger).kind.Matched?
    ensures Evaluate(re, e, r, trigger).kind.Matched?
  {
    var never := NeverFiring(re);
    MatchedMeans(re, e, r, trigger);
    MatchedMeans(never, e, r, trigger);
    hide Evaluate;
    assert forall m, including: bool :: Blocks(re, e, m, including) ==> Blocks(never, e, m, including);
    assert forall ps, text :: SomePatternFits(never, ps, text) ==> SomePatternFits(re, ps, text);
    assert SomePatternCompiles(re, r.namespacesInclude) ==> SomePatternCompiles(never, r.namespacesInclude);
  }

  // ---- one such rule ----

  /** An engine that rejects "(" and reads any other pattern literally. */
  function Literal(): Compiler {
    p => if p == "(" then None else Some(Regex(text => text == p, text => text == p))
  }

  function Alert(namespace: string): AlertEvent {
    AlertEvent(0, "f", 0, Firing, None, "Down", None, Some(namespace), map[], map[], Some(0), 0, 0, 1, None, None,
               false)
  }

  function OnlyNamespaces(patterns: seq<string>): RoutingRule {
    RoutingRule(0, Notify, true, true, true, false, [], [], patterns, [], [], [0], false, None, [], None)
  }

  function OnlyAlerts(pattern: string): RoutingRule {
    OnlyNamespaces([]).(matchers := [Matcher("include", "alertname", None, pattern, 0)])
  }

  lemma NoneBlocks(namespace: string)
    ensures var r := OnlyAlerts("(");
            && PassesFilters(Literal(), Alert(namespace), r, Firing) && Loosened(Literal(), r)
            && Unblocked(Literal(), Alert(namespace), r, true) && Unblocked(Literal(), Alert(namespace), r, false)
  {
    hide Hits;
    var r := OnlyAlerts("(");
    assert r.matchers[0] in r.matchers && forall m :: m in r.matchers ==> m.pattern == "(";
    assert Literal()("(").None?;
  }

  /** A rule whose only include matcher is broken admits every alert, where one that never fires would admit none. */
  lemma BrokenMatcherAdmitsEveryAlert(namespace: string)
    ensures Evaluate(Literal(), Alert(namespace), OnlyAlerts("("), Firing).kind.Matched?
    ensures !Evaluate(NeverFiring(Literal()), Alert(namespace), OnlyAlerts("("), Firing).kind.Matched?
  {
    hide Evaluate, PassesFilters, Unblocked, Loosened, Literal, Alert, OnlyAlerts;
    NoneBlocks(namespace);
    MatchedMeans(Literal(), Alert(namespace), OnlyAlerts("("), Firing);
    NeverFiringExactlyWhen(Literal(), Alert(namespace), OnlyAlerts("("), Firing);
  }

  /** A rule for one namespace whose only pattern is broken admits every namespace, where it should admit none. */
  lemma BrokenIncludeAdmitsEveryNamespace(namespace: string)
    ensures Evaluate(Literal(), Alert(namespace), OnlyNamespaces(["("]), Firing).kind.Matched?
    ensures !Evaluate(NeverFiring(Literal()), Alert(namespace), OnlyNamespaces(["("]), Firing).kind.Matched?
  {
    MatchedMeans(Literal(), Alert(namespace), OnlyNamespaces(["("]), Firing);
    NeverFiringExactlyWhen(Literal(), Alert(namespace), OnlyNamespaces(["("]), Firing);
    hide Evaluate;
  }

  /** Beside a sound pattern, the broken one admits nothing more. */
  lemma BrokenBesideSound(namespace: string)
    ensures Evaluate(Literal(), Alert(namespace), OnlyNamespaces(["(", "prod"]), Firing).kind.Matched?
            <==> namespace == "prod"
  {
    hide Evaluate;
    var r := OnlyNamespaces(["(", "prod"]);
    var both := r.namespacesInclude;
    MatchedMeans(Literal(), Alert(namespace), r, Firing);
    assert both[0] == "(" && both[1] == "prod" && |both[0]| != |both[1]|;
    assert forall p :: p in both ==> p == "(" || p == "prod";
    assert Literal()("(").None? && Literal()("prod").Some?;
    if namespace == "prod" {
      assert both[1] in both && Literal()(both[1]).value.fullmatch(namespace);
    }
  }
}
