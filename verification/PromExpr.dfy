/** rules.py: the threshold builder's PromQL text, and why comparing regenerated text identifies the builder state. */
module PromExpr {
  import opened Prelude
  import opened Text
  import opened PromNumber

  datatype LabelOp = Equal | NotEqual | Matches | NotMatches

  datatype Comparison = Greater | AtLeast | Less | AtMost | Same | Differs

  datatype Filter = Filter(key: string, op: LabelOp, value: string)

  /** A threshold: zero, a finite number by its normal triple, or one of the non-finite spellings. */
  datatype Threshold = Finite(triple: Triple) | NonFinite(text: string)

  datatype BuilderState = BuilderState(metric: string, labels: seq<Filter>, comparison: Comparison,
                                       threshold: Threshold)

  predicate IsThreshold(t: Threshold) {
    match t
    case Finite(triple) => Normal(triple) || triple == ZERO
    case NonFinite(text) => text in ["inf", "-inf", "nan"]
  }

  function OpText(op: LabelOp): string {
    match op case Equal => "=" case NotEqual => "!=" case Matches => "=~" case NotMatches => "!~"
  }

  function ComparisonText(c: Comparison): string {
    match c
    case Greater => ">" case AtLeast => ">=" case Less => "<" case AtMost => "<=" case Same => "==" case Differs => "!="
  }

  /** str.replace with a one-character pattern. */
  function ReplaceAll(s: string, c: char, put: string): string {
    if s == [] then [] else (if s[0] == c then put else [s[0]]) + ReplaceAll(s[1..], c, put)
  }

  /** _quote_promql_string: backslashes first, then quotes. */
  function Quote(value: string): string {
    ReplaceAll(ReplaceAll(value, '\\', "\\\\"), '"', "\\\"")
  }

  function FormatNumber(t: Threshold): string {
    match t case Finite(triple) => Render(triple) case NonFinite(text) => text
  }

  function MatcherText(f: Filter): string {
    f.key + OpText(f.op) + "\"" + Quote(f.value) + "\""
  }

  function Matchers(fs: seq<Filter>): string {
    if fs == [] then "" else if |fs| == 1 then MatcherText(fs[0]) else MatcherText(fs[0]) + "," + Matchers(fs[1..])
  }

  /** generate_builder_expr */
  function Generate(s: BuilderState): string {
    (if s.labels != [] then s.metric + "{" + Matchers(s.labels) + "}" else s.metric)
    + " " + ComparisonText(s.comparison) + " " + FormatNumber(s.threshold)
  }

  // ---- quoting, one character at a time ----

  function EscapeChar(c: char): string {
    if c == '\\' || c == '"' then ['\\', c] else [c]
  }

  function Escape(s: string): string {
    if s == [] then [] else EscapeChar(s[0]) + Escape(s[1..])
  }

  lemma {:induction false} ReplaceJoins(s: string, t: string, c: char, put: string)
    ensures ReplaceAll(s + t, c, put) == ReplaceAll(s, c, put) + ReplaceAll(t, c, put)
  {
    if s == [] {
      assert s + t == t;
    } else {
      assert (s + t)[1..] == s[1..] + t;
      ReplaceJoins(s[1..], t, c, put);
    }
  }

  /** The two whole-string replacements are one per-character escape. */
  lemma {:induction false} QuoteIsEscape(s: string)
    ensures Quote(s) == Escape(s)
  {
    if s != [] {
      QuoteIsEscape(s[1..]);
      var head := if s[0] == '\\' then "\\\\" else [s[0]];
      var tail := ReplaceAll(s[1..], '\\', "\\\\");
      ReplaceJoins(head, tail, '"', "\\\"");
      assert ReplaceAll(head, '"', "\\\"") == EscapeChar(s[0]) by {
        assert head[1..] == (if s[0] == '\\' then "\\" else "");
        if s[0] == '\\' { assert head[1..][1..] == ""; }
      }
    }
  }

  // ---- decoding ----

  predicate IdentChar(c: char) {
    'a' <= c <= 'z' || 'A' <= c <= 'Z' || IsDigit(c) || c == '_' || c == ':'
  }

  predicate Identifier(s: string) {
    s != [] && forall i :: 0 <= i < |s| ==> IdentChar(s[i])
  }

  function IdentEnd(s: string): nat {
    IndexWhere(s, c => !IdentChar(c))
  }

  /** Reads up to the closing quote, undoing escapes: the value, and what follows the quote. */
  function ReadQuoted(s: string): Option<(string, string)> {
    if s == [] then None
    else if s[0] == '"' then Some(("", s[1..]))
    else
      var (c, rest) := if s[0] == '\\' && |s| > 1 then (s[1], s[2..]) else (s[0], s[1..]);
      match ReadQuoted(rest)
      case None => None
      case Some((value, after)) => Some(([c] + value, after))
  }

  function ReadOp(s: string): Option<(LabelOp, string)> {
    if |s| >= 2 && s[0] == '=' && s[1] == '~' then Some((Matches, s[2..]))
    else if |s| >= 2 && s[0] == '!' && s[1] == '~' then Some((NotMatches, s[2..]))
    else if |s| >= 2 && s[0] == '!' && s[1] == '=' then Some((NotEqual, s[2..]))
    else if |s| >= 1 && s[0] == '=' then Some((Equal, s[1..]))
    else None
  }

  function ReadMatcher(s: string): (r: Option<(Filter, string)>)
    ensures r.Some? ==> |r.value.1| < |s|
  {
    var k := IdentEnd(s);
    match ReadOp(s[k..])
    case None => None
    case Some((op, quoted)) =>
      if quoted == [] || quoted[0] != '"' then None
      else
        ReadQuotedShrinks(quoted[1..]);
        match ReadQuoted(quoted[1..])
        case None => None
        case Some((value, rest)) => Some((Filter(s[..k], op, value), rest))
  }

  lemma {:induction false} ReadQuotedShrinks(s: string)
    ensures ReadQuoted(s).Some? ==> |ReadQuoted(s).value.1| < |s|
  {
    if s != [] && s[0] != '"' { ReadQuotedShrinks(if s[0] == '\\' && |s| > 1 then s[2..] else s[1..]); }
  }

  /** Reads matchers up to the closing brace. */
  function ReadMatchers(s: string): Option<(seq<Filter>, string)>
    decreases |s|
  {
    match ReadMatcher(s)
    case None => None
    case Some((f, rest)) =>
      if rest == [] then None
      else if rest[0] == '}' then Some(([f], rest[1..]))
      else
        match ReadMatchers(rest[1..])
        case None => None
        case Some((fs, after)) => Some(([f] + fs, after))
  }

  function ReadComparison(s: string): Option<Comparison> {
    if s == ">" then Some(Greater) else if s == ">=" then Some(AtLeast) else if s == "<" then Some(Less)
    else if s == "<=" then Some(AtMost) else if s == "==" then Some(Same) else if s == "!=" then Some(Differs) else None
  }

  datatype Decoded = Decoded(metric: string, labels: seq<Filter>, comparison: Comparison, threshold: string)

  /** What follows the selector: a space, the comparison, a space, the threshold text. */
  function ReadTail(metric: string, labels: seq<Filter>, s: string): Option<Decoded> {
    if s == [] || s[0] != ' ' then None
    else
      var k := IndexWhere(s[1..], c => c == ' ');
      if k == |s| - 1 then None
      else
        match ReadComparison(s[1..][..k])
        case None => None
        case Some(comparison) => Some(Decoded(metric, labels, comparison, s[1..][k + 1..]))
  }

  function Decode(s: string): Option<Decoded> {
    var k := IdentEnd(s);
    if k < |s| && s[k] == '{' then
      match ReadMatchers(s[k + 1..])
      case None => None
      case Some((labels, rest)) => ReadTail(s[..k], labels, rest)
    else ReadTail(s[..k], [], s[k..])
  }

  // ---- decoding what was generated ----

  lemma {:induction false} ReadQuotedEscape(value: string, rest: string)
    ensures ReadQuoted(Escape(value) + "\"" + rest) == Some((value, rest))
  {
    var s := Escape(value) + "\"" + rest;
    if value == [] {
      assert s == "\"" + rest && s[1..] == rest;
    } else {
      var inner := Escape(value[1..]) + "\"" + rest;
      ReadQuotedEscape(value[1..], rest);
      assert s == EscapeChar(value[0]) + inner;
      assert s[|EscapeChar(value[0])|..] == inner;
      assert [value[0]] + value[1..] == value;
    }
  }

  lemma IdentEndAt(name: string, rest: string)
    requires Identifier(name) && (rest != [] ==> !IdentChar(rest[0]))
    ensures IdentEnd(name + rest) == |name| && (name + rest)[..|name|] == name && (name + rest)[|name|..] == rest
  {
    IndexAt(name, rest, c => !IdentChar(c));
  }

  lemma ReadOpText(op: LabelOp, rest: string)
    requires rest != [] && rest[0] == '"'
    ensures ReadOp(OpText(op) + rest) == Some((op, rest))
  {
    var s := OpText(op) + rest;
    assert s[|OpText(op)|..] == rest;
  }

  lemma ReadMatcherText(f: Filter, rest: string)
    requires Identifier(f.key)
    ensures ReadMatcher(MatcherText(f) + rest) == Some((f, rest))
  {
    hide Identifier, IdentEnd, ReadOp, ReadQuoted, Escape, Quote;
    QuoteIsEscape(f.value);
    var quoted := "\"" + (Escape(f.value) + "\"" + rest);
    assert MatcherText(f) + rest == f.key + (OpText(f.op) + quoted);
    assert !IdentChar((OpText(f.op) + quoted)[0]);
    IdentEndAt(f.key, OpText(f.op) + quoted);
    ReadOpText(f.op, quoted);
    assert quoted[1..] == Escape(f.value) + "\"" + rest;
    ReadQuotedEscape(f.value, rest);
  }

  predicate Keyed(fs: seq<Filter>) {
    forall i :: 0 <= i < |fs| ==> Identifier(fs[i].key)
  }

  lemma {:induction false} ReadMatchersText(fs: seq<Filter>, rest: string)
    requires fs != [] && Keyed(fs)
    ensures ReadMatchers(Matchers(fs) + "}" + rest) == Some((fs, rest))
  {
    hide Identifier, ReadMatcher, MatcherText;
    var after := (if |fs| == 1 then "" else "," + Matchers(fs[1..])) + "}" + rest;
    assert Matchers(fs) + "}" + rest == MatcherText(fs[0]) + after;
    ReadMatcherText(fs[0], after);
    if |fs| == 1 {
      assert after[1..] == rest && fs == [fs[0]];
    } else {
      ReadMatchersText(fs[1..], rest);
      assert after[1..] == Matchers(fs[1..]) + "}" + rest;
      assert [fs[0]] + fs[1..] == fs;
    }
  }

  lemma ReadTailText(metric: string, labels: seq<Filter>, comparison: Comparison, threshold: string)
    ensures ReadTail(metric, labels, " " + ComparisonText(comparison) + " " + threshold)
            == Some(Decoded(metric, labels, comparison, threshold))
  {
    hide IndexWhere;
    var s := " " + ComparisonText(comparison) + " " + threshold;
    assert s[1..] == ComparisonText(comparison) + (" " + threshold);
    IndexAt(ComparisonText(comparison), " " + threshold, c => c == ' ');
    var k := |ComparisonText(comparison)|;
    assert s[1..][..k] == ComparisonText(comparison);
    assert s[1..][k + 1..] == threshold;
  }

  /** The decoder undoes the generator, whatever quotes and backslashes the values hold. */
  lemma DecodeGenerate(s: BuilderState)
    requires Identifier(s.metric) && Keyed(s.labels)
    ensures Decode(Generate(s)) == Some(Decoded(s.metric, s.labels, s.comparison, FormatNumber(s.threshold)))
  {
    hide Identifier, Keyed, FormatNumber, ReadTail, ReadMatchers, Matchers, IdentEnd, ComparisonText;
    var tail := " " + ComparisonText(s.comparison) + " " + FormatNumber(s.threshold);
    ReadTailText(s.metric, s.labels, s.comparison, FormatNumber(s.threshold));
    if s.labels == [] {
      assert Generate(s) == s.metric + tail;
      assert !IdentChar(tail[0]);
      IdentEndAt(s.metric, tail);
    } else {
      var rest := "{" + (Matchers(s.labels) + "}" + tail);
      assert Generate(s) == s.metric + rest;
      assert !IdentChar(rest[0]);
      IdentEndAt(s.metric, rest);
      assert rest[1..] == Matchers(s.labels) + "}" + tail;
      assert Generate(s)[|s.metric| + 1..] == rest[1..];
      ReadMatchersText(s.labels, tail);
    }
  }

  /** A finite threshold's text begins with a digit, perhaps after a minus. */
  lemma FiniteTextStart(t: Triple)
    requires Normal(t) || t == ZERO
    ensures Render(t) != [] && (IsDigit(Render(t)[0])
                                || (|Render(t)| > 1 && Render(t)[0] == '-' && IsDigit(Render(t)[1])))
  {
    hide Render, Rendered;
    RenderShows(t);
    var n := Rendered(t);
    assert Show(n)[|SignText(n.negative)|] == n.whole[0];
  }

  lemma FormatInjective(a: Threshold, b: Threshold)
    requires IsThreshold(a) && IsThreshold(b) && FormatNumber(a) == FormatNumber(b)
    ensures a == b
  {
    hide Render, Parse, Normal;
    if a.Finite? { FiniteTextStart(a.triple); }
    if b.Finite? { FiniteTextStart(b.triple); }
    if a.Finite? && b.Finite? { RenderInjective(a.triple, b.triple); }
  }

  lemma RenderInjective(s: Triple, t: Triple)
    requires (Normal(s) || s == ZERO) && (Normal(t) || t == ZERO) && Render(s) == Render(t)
    ensures s == t
  {
    assert !Normal(ZERO);
    assert Parse("0") == Some(ZERO) by { ZeroParses(); }
    assert Render(ZERO) == "0";
    hide Render, Parse, Normal;
    if Normal(s) { RoundTrip(s); }
    if Normal(t) { RoundTrip(t); }
  }

  lemma ZeroParses()
    ensures Parse("0") == Some(ZERO)
  {
    var n := NumText(false, "0", "", None);
    assert Show(n) == "0";
    ParseShow(n);
    assert "0" + "" == "0";
    IndexAt("0", "", c => c != '0');
    hide Parse, Show;
  }

  /** Builder text is uniquely decodable: identifier-shaped states that generate the same text are the same state. */
  lemma GenerateInjective(a: BuilderState, b: BuilderState)
    requires Identifier(a.metric) && Keyed(a.labels) && IsThreshold(a.threshold)
    requires Identifier(b.metric) && Keyed(b.labels) && IsThreshold(b.threshold)
    requires Generate(a) == Generate(b)
    ensures a == b
  {
    hide Generate, Decode, Identifier, Keyed, FormatNumber, IsThreshold;
    DecodeGenerate(a);
    DecodeGenerate(b);
    FormatInjective(a.threshold, b.threshold);
  }

  /** Without that shape it is not: any state with filters shares its text with a metric that spells them all out. */
  lemma SelectorInMetricCollides(s: BuilderState)
    requires s.labels != []
    ensures var spelled := s.(metric := s.metric + "{" + Matchers(s.labels) + "}", labels := []);
            Generate(spelled) == Generate(s) && spelled != s && !Identifier(spelled.metric)
  {
    hide Matchers;
    var metric := s.metric + "{" + Matchers(s.labels) + "}";
    assert metric[|s.metric|] == '{' && !IdentChar('{');
  }
}
