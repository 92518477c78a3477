/** rules.py: reading a float's own text and writing it back in one canonical form. */
module PromNumber {
  import opened Prelude
  import opened Text

  /** sign, digits and exponent: the number is (sign)D.DDD times ten to `exp`. */
  datatype Triple = Triple(negative: bool, digits: string, exp: int)

  predicate Normal(t: Triple) {
    t.digits != [] && AllDigits(t.digits) && t.digits[0] != '0' && t.digits[|t.digits| - 1] != '0'
  }

  const ZERO: Triple := Triple(false, "0", 0)

  function Zeros(n: nat): (s: string)
    ensures |s| == n && forall i :: 0 <= i < n ==> s[i] == '0'
  {
    seq(n, i => '0')
  }

  // ---- reading ----

  predicate IsE(c: char) {
    c == 'e' || c == 'E'
  }

  /** The index of the first character satisfying `p`, or the length. */
  function IndexWhere(s: string, p: char -> bool): (i: nat)
    ensures i <= |s| && (i < |s| ==> p(s[i])) && forall j :: 0 <= j < i ==> !p(s[j])
  {
    if s == [] || p(s[0]) then 0 else 1 + IndexWhere(s[1..], p)
  }

  function TrimZeros(s: string): (r: string)
    ensures r <= s && s == r + Zeros(|s| - |r|) && (r != [] ==> r[|r| - 1] != '0')
    ensures s != [] && s[0] != '0' ==> r != []
  {
    if s == [] || s[|s| - 1] != '0' then s else TrimZeros(s[..|s| - 1])
  }

  function ParseInt(s: string): Option<int> {
    var body := if s != [] && (s[0] == '-' || s[0] == '+') then s[1..] else s;
    if body == [] || !AllDigits(body) then None
    else
      var size: int := Number(body);
      Some(if s[0] == '-' then -size else size)
  }

  /** The digits on both sides of the point, and how many stand before it. */
  function Mantissa(s: string): (string, nat) {
    var dot := IndexWhere(s, c => c == '.');
    (if dot < |s| then s[..dot] + s[dot + 1..] else s, dot)
  }

  function Normalize(negative: bool, combined: string, dot: int, scientific: int): Triple {
    var first := IndexWhere(combined, c => c != '0');
    if first == |combined| then Triple(negative, "0", 0)
    else Triple(negative, TrimZeros(combined[first..]), dot - first - 1 + scientific)
  }

  function ParseUnsigned(negative: bool, body: string): Option<Triple> {
    var e := IndexWhere(body, IsE);
    if e == |body| then
      var (combined, dot) := Mantissa(body);
      Some(Normalize(negative, combined, dot, 0))
    else if IndexWhere(body[e + 1..], IsE) < |body| - e - 1 || ParseInt(body[e + 1..]).None? then None
    else
      var (combined, dot) := Mantissa(body[..e]);
      Some(Normalize(negative, combined, dot, ParseInt(body[e + 1..]).value))
  }

  /** _parse_native_float_repr; None where the source raises. */
  function Parse(s: string): Option<Triple> {
    if s != [] && s[0] == '-' then ParseUnsigned(true, s[1..]) else ParseUnsigned(false, s)
  }

  // ---- writing ----

  function SignText(negative: bool): string {
    if negative then "-" else ""
  }

  /** _render_normalized_number */
  function Render(t: Triple): string {
    if t.digits == "0" then "0"
    else if -4 <= t.exp < 21 then
      var n := |t.digits|;
      if t.exp < 0 then SignText(t.negative) + "0" + "." + Zeros(-t.exp - 1) + t.digits
      else if n <= t.exp + 1 then SignText(t.negative) + t.digits + Zeros(t.exp + 1 - n)
      else SignText(t.negative) + t.digits[..t.exp + 1] + "." + t.digits[t.exp + 1..]
    else
      var mantissa := if |t.digits| > 1 then t.digits[..1] + "." + t.digits[1..] else t.digits;
      SignText(t.negative) + mantissa + "e" + (if t.exp < 0 then "-" else "+")
        + Decimal(if t.exp < 0 then -t.exp else t.exp)
  }

  // ---- the grammar of float text, and what it denotes ----

  datatype ExponentText = ExponentText(upper: bool, sign: string, digits: string)

  /** A float's text: an empty fraction has no point. */
  datatype NumText = NumText(negative: bool, whole: string, frac: string, exponent: Option<ExponentText>)

  predicate WellFormed(n: NumText) {
    && n.whole != [] && AllDigits(n.whole) && AllDigits(n.frac)
    && (n.exponent.Some? ==>
          n.exponent.value.digits != [] && AllDigits(n.exponent.value.digits)
            && n.exponent.value.sign in ["", "+", "-"])
  }

  function ShowFrac(frac: string): string {
    if frac == [] then [] else "." + frac
  }

  function ShowExponent(e: Option<ExponentText>): string {
    match e
    case None => ""
    case Some(x) => (if x.upper then "E" else "e") + x.sign + x.digits
  }

  function Show(n: NumText): string {
    SignText(n.negative) + n.whole + ShowFrac(n.frac) + ShowExponent(n.exponent)
  }

  function SignedExponent(x: ExponentText): int
    requires AllDigits(x.digits)
  {
    var size: int := Number(x.digits);
    if x.sign == "-" then -size else size
  }

  function ExponentOf(n: NumText): int
    requires WellFormed(n)
  {
    match n.exponent
    case None => 0
    case Some(x) => SignedExponent(x)
  }

  function Pow10(k: int): real
    decreases if k < 0 then -k else k
  {
    if k == 0 then 1.0 else if k > 0 then 10.0 * Pow10(k - 1) else Pow10(k + 1) / 10.0
  }

  /** `n` times ten to `k`. */
  function Scale(n: nat, k: int): real {
    n as real * Pow10(k)
  }

  function Signed(negative: bool, magnitude: real): real {
    if negative then -magnitude else magnitude
  }

  /** The number a text denotes. */
  function Value(n: NumText): real
    requires WellFormed(n)
  {
    Signed(n.negative, Scale(Number(n.whole + n.frac), ExponentOf(n) - |n.frac|))
  }

  function TripleValue(t: Triple): real
    requires AllDigits(t.digits)
  {
    Signed(t.negative, Scale(Number(t.digits), t.exp - |t.digits| + 1))
  }

  // ---- parsing a text of the grammar ----

  lemma {:induction false} IndexAt(a: string, b: string, p: char -> bool)
    requires forall i :: 0 <= i < |a| ==> !p(a[i])
    requires b != [] ==> p(b[0])
    ensures IndexWhere(a + b, p) == |a|
  {
    assert forall j :: 0 <= j < |a| ==> (a + b)[j] == a[j];
    assert b != [] ==> (a + b)[|a|] == b[0];
  }

  lemma ParseShowExponent(x: ExponentText)
    requires x.digits != [] && AllDigits(x.digits) && x.sign in ["", "+", "-"]
    ensures ParseInt(x.sign + x.digits) == Some(SignedExponent(x))
    ensures IndexWhere(x.sign + x.digits, IsE) == |x.sign + x.digits|
  {
    hide Number, IndexWhere;
    IndexAt(x.sign + x.digits, [], IsE);
    assert x.sign + x.digits + [] == x.sign + x.digits;
    if x.sign == "" {
      assert x.sign + x.digits == x.digits;
    } else {
      assert (x.sign + x.digits)[1..] == x.digits;
    }
  }

  lemma MantissaOf(whole: string, frac: string)
    requires AllDigits(whole) && AllDigits(frac)
    ensures Mantissa(whole + ShowFrac(frac)) == (whole + frac, |whole|)
  {
    IndexAt(whole, ShowFrac(frac), c => c == '.');
    var s := whole + ShowFrac(frac);
    if frac != [] {
      assert s[..|whole|] == whole && s[|whole| + 1..] == frac;
    } else {
      assert s == whole && whole + frac == whole;
    }
  }

  lemma ParseWithExponent(negative: bool, mantissa: string, x: ExponentText)
    requires x.digits != [] && AllDigits(x.digits) && x.sign in ["", "+", "-"]
    requires forall i :: 0 <= i < |mantissa| ==> !IsE(mantissa[i])
    ensures var (combined, dot) := Mantissa(mantissa);
            ParseUnsigned(negative, mantissa + ShowExponent(Some(x)))
              == Some(Normalize(negative, combined, dot, SignedExponent(x)))
  {
    hide Normalize, Mantissa, ParseInt, SignedExponent, IndexWhere;
    var body := mantissa + ShowExponent(Some(x));
    IndexAt(mantissa, ShowExponent(Some(x)), IsE);
    ParseShowExponent(x);
    assert body[|mantissa| + 1..] == x.sign + x.digits;
    assert body[..|mantissa|] == mantissa;
  }

  lemma ParseWithout(negative: bool, mantissa: string)
    requires forall i :: 0 <= i < |mantissa| ==> !IsE(mantissa[i])
    ensures var (combined, dot) := Mantissa(mantissa);
            ParseUnsigned(negative, mantissa) == Some(Normalize(negative, combined, dot, 0))
  {
    hide Normalize, Mantissa, ParseInt;
    IndexAt(mantissa, [], IsE);
    assert mantissa + [] == mantissa;
  }

  lemma NoEInMantissa(whole: string, frac: string)
    requires AllDigits(whole) && AllDigits(frac)
    ensures forall i :: 0 <= i < |whole + ShowFrac(frac)| ==> !IsE((whole + ShowFrac(frac))[i])
  {
  }

  lemma ShowIs(n: NumText)
    requires WellFormed(n)
    ensures var body := n.whole + ShowFrac(n.frac) + ShowExponent(n.exponent);
            && Show(n) != [] && (Show(n)[0] == '-' <==> n.negative)
            && (if n.negative then Show(n)[1..] == body else Show(n) == body)
  {
    hide ShowFrac, ShowExponent;
    var body := n.whole + ShowFrac(n.frac) + ShowExponent(n.exponent);
    assert Show(n) == SignText(n.negative) + body;
    assert body[0] == n.whole[0];
  }

  /** A text of the grammar parses to its digits, normalized. */
  lemma ParseShow(n: NumText)
    requires WellFormed(n)
    ensures Parse(Show(n)) == Some(Normalize(n.negative, n.whole + n.frac, |n.whole|, ExponentOf(n)))
  {
    hide Normalize, Number, Mantissa, ParseUnsigned, Show, ShowFrac;
    var mantissa := n.whole + ShowFrac(n.frac);
    var body := mantissa + ShowExponent(n.exponent);
    MantissaOf(n.whole, n.frac);
    NoEInMantissa(n.whole, n.frac);
    ShowIs(n);
    if n.exponent.Some? {
      ParseWithExponent(n.negative, mantissa, n.exponent.value);
    } else {
      assert body == mantissa;
      ParseWithout(n.negative, mantissa);
    }
  }

  // ---- the round trip ----

  /** What the renderer writes, as a text of the grammar. */
  function Rendered(t: Triple): NumText {
    var n := |t.digits|;
    if t.digits == "0" || t.digits == "" then NumText(false, "0", "", None)
    else if -4 <= t.exp < 21 then
      if t.exp < 0 then NumText(t.negative, "0", Zeros(-t.exp - 1) + t.digits, None)
      else if n <= t.exp + 1 then NumText(t.negative, t.digits + Zeros(t.exp + 1 - n), "", None)
      else NumText(t.negative, t.digits[..t.exp + 1], t.digits[t.exp + 1..], None)
    else
      NumText(t.negative, t.digits[..1], t.digits[1..],
              Some(ExponentText(false, if t.exp < 0 then "-" else "+", Decimal(if t.exp < 0 then -t.exp else t.exp))))
  }

  lemma Joined(a: string, b: string, c: string, d: string)
    ensures a + b + "." + c + d == a + b + ("." + (c + d)) + ""
    ensures a + b + c == a + (b + c) + "" + ""
    ensures a + b + "." + c == a + b + ("." + c) + ""
  {
  }

  lemma RenderShowsSmall(t: Triple)
    requires Normal(t) && -4 <= t.exp < 0
    ensures Render(t) == Show(Rendered(t))
  {
    hide SignText;
    assert t.digits != "0" && t.digits != "";
    hide Normal;
    Joined(SignText(t.negative), "0", Zeros(-t.exp - 1), t.digits);
    assert Rendered(t).frac != "";
  }

  lemma RenderShowsPadded(t: Triple)
    requires Normal(t) && 0 <= t.exp < 21 && |t.digits| <= t.exp + 1
    ensures Render(t) == Show(Rendered(t))
  {
    hide SignText;
    assert t.digits != "0" && t.digits != "";
    hide Normal;
    Joined(SignText(t.negative), t.digits, Zeros(t.exp + 1 - |t.digits|), "");
  }

  lemma RenderShowsPointed(t: Triple)
    requires Normal(t) && 0 <= t.exp < 21 && |t.digits| > t.exp + 1
    ensures Render(t) == Show(Rendered(t))
  {
    hide SignText;
    assert t.digits != "0" && t.digits != "";
    hide Normal;
    Joined(SignText(t.negative), t.digits[..t.exp + 1], t.digits[t.exp + 1..], "");
  }

  lemma JoinedExponent(a: string, b: string, c: string, e: string, sign: string, size: string)
    ensures a + (b + "." + c) + e + sign + size == a + b + ("." + c) + (e + sign + size)
    ensures a + b + e + sign + size == a + b + "" + (e + sign + size)
  {
  }

  lemma RenderShowsScientific(t: Triple)
    requires Normal(t) && !(-4 <= t.exp < 21)
    ensures Render(t) == Show(Rendered(t))
  {
    hide Decimal, SignText;
    var size := Decimal(if t.exp < 0 then -t.exp else t.exp);
    JoinedExponent(SignText(t.negative), t.digits[..1], t.digits[1..], "e", if t.exp < 0 then "-" else "+", size);
    if |t.digits| == 1 { assert t.digits[..1] == t.digits && t.digits[1..] == ""; }
    var n := Rendered(t);
    assert ShowExponent(n.exponent) == "e" + (if t.exp < 0 then "-" else "+") + size;
  }

  lemma RenderedIsWellFormed(t: Triple)
    requires Normal(t)
    ensures WellFormed(Rendered(t))
  {
    hide Decimal;
    var d := t.digits;
    assert forall k :: 0 <= k <= |d| ==> AllDigits(d[..k]) && AllDigits(d[k..]);
    assert forall k: nat :: AllDigits(Zeros(k) + d) && AllDigits(d + Zeros(k));
  }

  /** The renderer writes texts of the grammar. */
  lemma RenderShows(t: Triple)
    requires Normal(t) || t == ZERO
    ensures WellFormed(Rendered(t)) && Render(t) == Show(Rendered(t))
  {
    if t != ZERO {
      hide Render, Show, Normal, Rendered;
      RenderedIsWellFormed(t);
      if -4 <= t.exp < 0 {
        RenderShowsSmall(t);
      } else if !(0 <= t.exp < 21) {
        RenderShowsScientific(t);
      } else if |t.digits| <= t.exp + 1 {
        RenderShowsPadded(t);
      } else {
        RenderShowsPointed(t);
      }
    }
  }

  lemma NormalizeNormal(negative: bool, lead: nat, digits: string, trail: nat, dot: int, scientific: int)
    requires Normal(Triple(negative, digits, 0))
    ensures Normalize(negative, Zeros(lead) + digits + Zeros(trail), dot, scientific)
            == Triple(negative, digits, dot - lead - 1 + scientific)
  {
    var all := Zeros(lead) + digits + Zeros(trail);
    assert all == Zeros(lead) + (digits + Zeros(trail));
    IndexAt(Zeros(lead), digits + Zeros(trail), c => c != '0');
    assert all[lead..] == digits + Zeros(trail);
    TrimAppended(digits, trail);
  }

  lemma {:induction false} TrimAppended(digits: string, trail: nat)
    requires digits != [] && digits[|digits| - 1] != '0'
    ensures TrimZeros(digits + Zeros(trail)) == digits
  {
    if trail == 0 {
      assert digits + Zeros(0) == digits;
    } else {
      TrimAppended(digits, trail - 1);
      assert (digits + Zeros(trail))[..|digits| + trail - 1] == digits + Zeros(trail - 1);
    }
  }

  /** The digits a rendered triple puts around the point: zeros before, the triple's own, zeros after. */
  ghost predicate Surrounds(t: Triple, n: NumText, lead: nat, trail: nat)
    requires WellFormed(n)
  {
    && n.negative == t.negative && n.whole + n.frac == Zeros(lead) + t.digits + Zeros(trail)
    && |n.whole| - lead - 1 + ExponentOf(n) == t.exp
  }

  lemma SurroundsSmall(t: Triple)
    requires Normal(t) && -4 <= t.exp < 0 && WellFormed(Rendered(t))
    ensures Surrounds(t, Rendered(t), -t.exp, 0)
  {
    hide WellFormed;
    assert "0" + Zeros(-t.exp - 1) == Zeros(-t.exp);
    assert "0" + (Zeros(-t.exp - 1) + t.digits) == Zeros(-t.exp) + t.digits + Zeros(0);
  }

  lemma SurroundsPadded(t: Triple)
    requires Normal(t) && 0 <= t.exp < 21 && |t.digits| <= t.exp + 1 && WellFormed(Rendered(t))
    ensures Surrounds(t, Rendered(t), 0, t.exp + 1 - |t.digits|)
  {
    hide WellFormed;
    assert t.digits + Zeros(t.exp + 1 - |t.digits|) + "" == Zeros(0) + t.digits + Zeros(t.exp + 1 - |t.digits|);
  }

  lemma SurroundsPointed(t: Triple)
    requires Normal(t) && 0 <= t.exp < 21 && |t.digits| > t.exp + 1 && WellFormed(Rendered(t))
    ensures Surrounds(t, Rendered(t), 0, 0)
  {
    hide WellFormed;
    assert t.digits[..t.exp + 1] + t.digits[t.exp + 1..] == Zeros(0) + t.digits + Zeros(0);
  }

  lemma SurroundsScientific(t: Triple)
    requires Normal(t) && !(-4 <= t.exp < 21) && WellFormed(Rendered(t))
    ensures Surrounds(t, Rendered(t), 0, 0)
  {
    hide WellFormed, Decimal, Number;
    DecimalRoundTrip(if t.exp < 0 then -t.exp else t.exp);
    assert t.digits[..1] + t.digits[1..] == Zeros(0) + t.digits + Zeros(0);
  }

  lemma RenderedDigits(t: Triple) returns (lead: nat, trail: nat)
    requires Normal(t) && WellFormed(Rendered(t))
    ensures Surrounds(t, Rendered(t), lead, trail)
  {
    hide Normal, WellFormed, Surrounds, Rendered;
    lead, trail := 0, 0;
    if -4 <= t.exp < 0 {
      lead := -t.exp;
      SurroundsSmall(t);
    } else if 0 <= t.exp < 21 && |t.digits| <= t.exp + 1 {
      trail := t.exp + 1 - |t.digits|;
      SurroundsPadded(t);
    } else if 0 <= t.exp < 21 {
      SurroundsPointed(t);
    } else {
      SurroundsScientific(t);
    }
  }

  /** Reading back what was rendered returns the triple, for digits of any length and any exponent. */
  lemma RoundTrip(t: Triple)
    requires Normal(t)
    ensures Parse(Render(t)) == Some(t)
  {
    hide Normalize, Parse, Render, Rendered, Show, Number, WellFormed;
    RenderShows(t);
    var lead, trail := RenderedDigits(t);
    var n := Rendered(t);
    ParseShow(n);
    NormalizeNormal(t.negative, lead, t.digits, trail, |n.whole|, ExponentOf(n));
  }

  // ---- the number denoted ----

  lemma {:induction false} Pow10Positive(k: int)
    ensures Pow10(k) > 0.0
    decreases if k < 0 then -k else k
  {
    if k > 0 { Pow10Positive(k - 1); } else if k < 0 { Pow10Positive(k + 1); }
  }

  lemma ScaleTen(n: nat, k: int)
    ensures Scale(10 * n, k) == Scale(n, k + 1)
  {
    var p, q, m := Pow10(k), Pow10(k + 1), 10 * n;
    assert q == 10.0 * p;
    hide Pow10;
    assert m as real == 10.0 * n as real;
  }

  lemma ScaleOrder(a: nat, b: nat, k: int)
    ensures a < b ==> Scale(a, k) < Scale(b, k)
    ensures Scale(a, k) == Scale(b, k) ==> a == b
    ensures a == 0 <==> Scale(a, k) == 0.0
    ensures Scale(a, k) >= 0.0
  {
    Pow10Positive(k);
    hide Pow10;
    var p := Pow10(k);
    OrderTimes(a as real, b as real, p);
    OrderTimes(b as real, a as real, p);
    OrderTimes(0.0, a as real, p);
  }

  lemma OrderTimes(a: real, b: real, p: real)
    requires p > 0.0
    ensures a < b ==> a * p < b * p
    ensures 0.0 * p == 0.0
  {
  }

  lemma NumberTimesTen(s: string)
    requires AllDigits(s)
    ensures AllDigits(s + ['0']) && Number(s + ['0']) == 10 * Number(s)
  {
    assert (s + ['0'])[..|s|] == s;
  }

  lemma {:induction false} NumberZeros(s: string, j: nat, k: int)
    requires AllDigits(s)
    ensures AllDigits(s + Zeros(j)) && Scale(Number(s + Zeros(j)), k) == Scale(Number(s), k + j)
  {
    hide Scale, Number;
    if j == 0 {
      assert s + Zeros(0) == s;
    } else {
      NumberZeros(s, j - 1, k + 1);
      NumberTimesTen(s + Zeros(j - 1));
      assert s + Zeros(j) == s + Zeros(j - 1) + ['0'];
      ScaleTen(Number(s + Zeros(j - 1)), k);
      assert k + 1 + (j - 1) == k + j;
    }
  }

  lemma {:induction false} NumberLeading(k: nat, s: string)
    requires AllDigits(s)
    ensures AllDigits(Zeros(k) + s) && Number(Zeros(k) + s) == Number(s)
  {
    if s != [] {
      NumberLeading(k, s[..|s| - 1]);
      assert (Zeros(k) + s)[..k + |s| - 1] == Zeros(k) + s[..|s| - 1];
    } else if k > 0 {
      NumberLeading(k - 1, s);
      assert (Zeros(k) + s)[..k - 1] == Zeros(k - 1) + s;
    }
  }

  lemma TrimmedDigits(s: string) returns (digits: string, trail: nat)
    requires AllDigits(s) && s != [] && s[0] != '0'
    ensures digits == TrimZeros(s) && s == digits + Zeros(trail)
    ensures Normal(Triple(false, digits, 0))
  {
    digits := TrimZeros(s);
    trail := |s| - |digits|;
    assert digits[0] == s[0];
    assert forall i :: 0 <= i < |digits| ==> digits[i] == s[i];
  }

  /** Cutting the zeros off both ends of some digits. */
  lemma NormalizeCuts(negative: bool, combined: string, dot: int, scientific: int) returns (lead: nat, trail: nat)
    requires AllDigits(combined)
    ensures var t := Normalize(negative, combined, dot, scientific);
            if Normal(t) then combined == Zeros(lead) + t.digits + Zeros(trail)
              && t == Triple(negative, t.digits, dot - lead - 1 + scientific)
            else combined == Zeros(|combined|) && t == Triple(negative, "0", 0)
    ensures AllDigits(Normalize(negative, combined, dot, scientific).digits)
  {
    lead := IndexWhere(combined, c => c != '0');
    hide IndexWhere, TrimZeros;
    assert combined[..lead] == Zeros(lead);
    trail := 0;
    if lead < |combined| {
      var digits;
      digits, trail := TrimmedDigits(combined[lead..]);
      assert combined == combined[..lead] + combined[lead..];
      assert combined == Zeros(lead) + digits + Zeros(trail);
    }
  }

  /** Normalizing digits keeps the number, and gives a normal triple unless the digits are all zero. */
  lemma NormalizeKeepsValue(negative: bool, combined: string, dot: int, scientific: int)
    requires AllDigits(combined)
    ensures var t := Normalize(negative, combined, dot, scientific);
            && AllDigits(t.digits)
            && TripleValue(t) == Signed(negative, Scale(Number(combined), scientific - (|combined| - dot)))
            && (Normal(t) || (t == Triple(negative, "0", 0) && Number(combined) == 0))
  {
    hide Normalize, Number, Scale;
    var lead, trail := NormalizeCuts(negative, combined, dot, scientific);
    var t := Normalize(negative, combined, dot, scientific);
    NumberOfNothing();
    if Normal(t) {
      assert combined == Zeros(lead) + (t.digits + Zeros(trail));
      NumberZeros(t.digits, trail, scientific - (|combined| - dot));
      NumberLeading(lead, t.digits + Zeros(trail));
      assert scientific - (|combined| - dot) + trail == t.exp - |t.digits| + 1;
    } else {
      NumberLeading(|combined|, "");
      assert combined == Zeros(|combined|) + "";
      ScaleOrder(Number(combined), 0, scientific - (|combined| - dot));
      ScaleOrder(Number(t.digits), 0, t.exp - |t.digits| + 1);
    }
  }

  lemma NumberOfNothing()
    ensures Number("") == 0 && Number("0") == 0
  {
    assert "0"[..0] == "";
  }

  /** Parsing a text of the grammar never fails and keeps the number it denotes. */
  lemma ParseKeepsValue(n: NumText)
    requires WellFormed(n)
    ensures Parse(Show(n)).Some?
    ensures var t := Parse(Show(n)).value;
            && AllDigits(t.digits) && TripleValue(t) == Value(n)
            && (Normal(t) || (t == Triple(n.negative, "0", 0) && Value(n) == 0.0))
  {
    hide Parse, Normalize, Number, Scale, Show;
    ParseShow(n);
    NormalizeKeepsValue(n.negative, n.whole + n.frac, |n.whole|, ExponentOf(n));
    assert ExponentOf(n) - (|n.whole + n.frac| - |n.whole|) == ExponentOf(n) - |n.frac|;
    ScaleOrder(Number(n.whole + n.frac), 0, ExponentOf(n) - |n.frac|);
  }

  /** Rewriting a text canonically denotes the same number. */
  lemma CanonicalTextKeepsValue(n: NumText)
    requires WellFormed(n)
    ensures Parse(Show(n)).Some?
    ensures var m := Rendered(Parse(Show(n)).value);
            WellFormed(m) && Render(Parse(Show(n)).value) == Show(m) && Value(m) == Value(n)
  {
    ParseKeepsValue(n);
    var t := Parse(Show(n)).value;
    if Normal(t) {
      RenderShows(t);
      RoundTrip(t);
      hide *;
      ParseKeepsValue(Rendered(t));
    } else {
      ZeroValue();
    }
  }

  lemma ZeroValue()
    ensures Value(NumText(false, "0", "", None)) == 0.0
  {
    assert "0" + "" == "0";
    NumberOfNothing();
    ScaleOrder(0, 0, 0);
  }

  // ---- one number, one text ----

  function Ten(n: nat): nat {
    if n == 0 then 1 else 10 * Ten(n - 1)
  }

  lemma {:induction false} NumberBounds(s: string)
    requires AllDigits(s) && s != [] && s[0] != '0'
    ensures Ten(|s| - 1) <= Number(s) < Ten(|s|)
  {
    if |s| == 1 {
      assert s[..0] == "";
    } else {
      NumberBounds(s[..|s| - 1]);
    }
  }

  lemma {:induction false} ScaleTens(j: nat, k: int)
    ensures Scale(Ten(j), k) == Scale(1, k + j)
  {
    hide Scale;
    if j > 0 {
      ScaleTens(j - 1, k + 1);
      ScaleTen(Ten(j - 1), k);
      assert k + 1 + (j - 1) == k + j;
    }
  }

  lemma {:induction false} ScaleGrows(k: int, j: nat)
    ensures Scale(1, k) <= Scale(1, k + j)
  {
    hide Scale;
    if j > 0 {
      ScaleGrows(k, j - 1);
      ScaleTen(1, k + j - 1);
      ScaleOrder(1, 10, k + j - 1);
    }
  }

  /** The leading digit's place is fixed by the number. */
  lemma MagnitudeBounds(t: Triple)
    requires Normal(t)
    ensures Scale(1, t.exp) <= Scale(Number(t.digits), t.exp - |t.digits| + 1) < Scale(1, t.exp + 1)
  {
    hide Number, Scale, Ten;
    var n, k := |t.digits|, t.exp - |t.digits| + 1;
    NumberBounds(t.digits);
    ScaleTens(n - 1, k);
    ScaleTens(n, k);
    assert k + (n - 1) == t.exp && k + n == t.exp + 1;
    ScaleOrder(Ten(n - 1), Number(t.digits), k);
    ScaleOrder(Number(t.digits), Ten(n), k);
  }

  lemma {:induction false} SameLengthInjective(a: string, b: string)
    requires AllDigits(a) && AllDigits(b) && |a| == |b| && Number(a) == Number(b)
    ensures a == b
  {
    if a != [] {
      var x, y := a[..|a| - 1], b[..|b| - 1];
      var p, q := DigitValue(a[|a| - 1]), DigitValue(b[|b| - 1]);
      assert 10 * Number(x) + p == 10 * Number(y) + q;
      hide Number;
      assert p == q && Number(x) == Number(y);
      SameLengthInjective(x, y);
      assert a == x + [a[|a| - 1]] && b == y + [b[|b| - 1]];
    }
  }

  lemma EndsInZero(a: string, k: nat)
    ensures k > 0 ==> (a + Zeros(k))[|a| + k - 1] == '0'
  {
  }

  lemma SameMagnitude(s: Triple, t: Triple)
    requires Normal(s) && Normal(t) && |s.digits| <= |t.digits|
    requires Scale(Number(s.digits), s.exp - |s.digits| + 1) == Scale(Number(t.digits), t.exp - |t.digits| + 1)
    ensures s.digits == t.digits && s.exp == t.exp
  {
    hide Number, Scale;
    MagnitudeBounds(s);
    MagnitudeBounds(t);
    if s.exp < t.exp { ScaleGrows(s.exp + 1, t.exp - s.exp - 1); }
    if t.exp < s.exp { ScaleGrows(t.exp + 1, s.exp - t.exp - 1); }
    var k, low := |t.digits| - |s.digits|, t.exp - |t.digits| + 1;
    NumberZeros(s.digits, k, low);
    assert low + k == s.exp - |s.digits| + 1;
    ScaleOrder(Number(s.digits + Zeros(k)), Number(t.digits), low);
    EndsInZero(s.digits, k);
    SameLengthInjective(s.digits + Zeros(k), t.digits);
    assert s.digits + Zeros(0) == s.digits;
  }

  lemma Positive(t: Triple)
    requires Normal(t)
    ensures Scale(Number(t.digits), t.exp - |t.digits| + 1) > 0.0
  {
    hide Number, Scale, Normal;
    MagnitudeBounds(t);
    ScaleOrder(0, 1, t.exp);
    ScaleOrder(0, 0, t.exp);
  }

  /** A nonzero number has only one normal triple. */
  lemma NormalIsUnique(s: Triple, t: Triple)
    requires Normal(s) && Normal(t) && TripleValue(s) == TripleValue(t)
    ensures s == t
  {
    hide Number, Scale, Normal;
    Positive(s);
    Positive(t);
    if |s.digits| <= |t.digits| { SameMagnitude(s, t); } else { SameMagnitude(t, s); }
  }

  lemma NormalIsNotZero(t: Triple)
    requires Normal(t)
    ensures TripleValue(t) != 0.0
  {
    hide Number, Scale;
    Positive(t);
  }

  /** Two texts denote the same number exactly when they are rewritten to the same text. */
  lemma OneNumberOneText(m: NumText, n: NumText)
    requires WellFormed(m) && WellFormed(n)
    ensures Parse(Show(m)).Some? && Parse(Show(n)).Some?
    ensures Value(m) == Value(n) <==> Render(Parse(Show(m)).value) == Render(Parse(Show(n)).value)
  {
    hide Parse, Show, Value, Normal, Rendered;
    ParseKeepsValue(m);
    ParseKeepsValue(n);
    var s, t := Parse(Show(m)).value, Parse(Show(n)).value;
    if Value(m) == Value(n) {
      if Normal(s) { NormalIsNotZero(s); }
      if Normal(t) { NormalIsNotZero(t); }
      if Normal(s) && Normal(t) { NormalIsUnique(s, t); }
    }
    CanonicalTextKeepsValue(m);
    CanonicalTextKeepsValue(n);
    if Render(s) == Render(t) { SameTextSameNumber(Rendered(s), Rendered(t)); }
  }

  /** A text denotes one number. */
  lemma SameTextSameNumber(m: NumText, n: NumText)
    requires WellFormed(m) && WellFormed(n) && Show(m) == Show(n)
    ensures Value(m) == Value(n)
  {
    hide Parse, Show, Number, Normal, Scale;
    ParseKeepsValue(m);
    ParseKeepsValue(n);
  }
}
