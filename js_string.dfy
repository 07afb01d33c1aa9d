/**
 * The JavaScript string operations the pages rely on: `trim`, the NaN test
 * of `Number(text)`, `parseFloat`, the relational `<` on strings, and the
 * case mapping of `toUpperCase` / `toLowerCase`.
 */
module JsString {
  import opened Browser
  import opened Decimal

  /** WhiteSpace and LineTerminator of ECMAScript, the characters `trim` removes. */
  predicate IsJsWhite(c: char) {
    || c == ' ' || c == '\t' || c == '\n' || c == '\r'
    || c == '\U{000B}' || c == '\U{000C}' || c == '\U{00A0}' || c == '\U{1680}'
    || ('\U{2000}' <= c <= '\U{200A}')
    || c == '\U{2028}' || c == '\U{2029}' || c == '\U{202F}' || c == '\U{205F}'
    || c == '\U{3000}' || c == '\U{FEFF}'
  }

  /** `trimStart`: the suffix left after dropping leading white space. */
  function TrimStart(s: string): (r: string)
    ensures |r| <= |s| && r == s[|s| - |r|..]
    ensures r == [] || !IsJsWhite(r[0])
    ensures forall i :: 0 <= i < |s| - |r| ==> IsJsWhite(s[i])
  {
    if s != [] && IsJsWhite(s[0]) then TrimStart(s[1..]) else s
  }

  /** `trimEnd`: the prefix left after dropping trailing white space. */
  function TrimEnd(s: string): (r: string)
    ensures |r| <= |s| && r == s[..|r|]
    ensures r == [] || !IsJsWhite(r[|r| - 1])
    ensures forall i :: |r| <= i < |s| ==> IsJsWhite(s[i])
  {
    if s != [] && IsJsWhite(s[|s| - 1]) then TrimEnd(s[..|s| - 1]) else s
  }

  /** `trim`: white space dropped at both ends; nothing is left exactly when the text is blank. */
  function Trim(s: string): (r: string)
    ensures |r| <= |s|
    ensures r == [] <==> IsBlank(s)
    ensures r == [] || (!IsJsWhite(r[0]) && !IsJsWhite(r[|r| - 1]))
  {
    BlankTrimsToEmpty(s);
    TrimEnd(TrimStart(s))
  }

  /** Nothing but white space: the text `!s.trim()` rejects (see Trim). */
  predicate IsBlank(s: string)
    decreases |s|
  {
    s == [] || (IsJsWhite(s[0]) && IsBlank(s[1..]))
  }

  lemma {:induction false} BlankIffAllWhite(s: string)
    ensures IsBlank(s) <==> forall i :: 0 <= i < |s| ==> IsJsWhite(s[i])
    decreases |s|
  {
    if s != [] {
      BlankIffAllWhite(s[1..]);
      assert forall i :: 1 <= i < |s| ==> s[i] == s[1..][i - 1];
    }
  }

  /** Text is blank exactly when `trimStart` leaves nothing. */
  lemma BlankTrimsToEmpty(s: string)
    ensures IsBlank(s) <==> TrimStart(s) == []
  {
    BlankIffAllWhite(s);
    var r := TrimStart(s);
    assert r != [] ==> r[0] == s[|s| - |r|];
  }

  // ---- Number(text): the StringNumericLiteral grammar of ECMAScript ----

  predicate IsHexDigit(c: char) {
    IsDigit(c) || ('a' <= c <= 'f') || ('A' <= c <= 'F')
  }

  /** Length of the longest prefix of s made of decimal digits. */
  function DigitRun(s: string): (n: nat)
    ensures n <= |s| && AllDigits(s[..n])
    ensures n < |s| ==> !IsDigit(s[n])
  {
    if s != [] && IsDigit(s[0]) then
      var k := DigitRun(s[1..]);
      assert s[..k + 1] == [s[0]] + s[1..][..k];
      k + 1
    else 0
  }

  /**
   * Where a scan of StringNumericLiteral stands: the white space before the
   * literal, after a sign, in the integer digits (`radix` while the literal
   * is exactly "0", so 0x / 0o / 0b may follow), after a point with no
   * digit before it, in the fraction, in the exponent, in the digits of a
   * 0x / 0o / 0b literal, or in the white space after the literal.
   */
  datatype Lexing =
    | Leading | Signed | Whole(radix: bool) | PointOnly | Fraction
    | ExponentMark | ExponentSign | ExponentDigits
    | RadixMark(base: nat) | RadixDigits(base: nat) | Trailing

  predicate IsBaseDigit(c: char, base: nat) {
    if base == 16 then IsHexDigit(c)
    else if base == 8 then '0' <= c <= '7'
    else c == '0' || c == '1'
  }

  predicate IsExponentChar(c: char) {
    c == 'e' || c == 'E'
  }

  /** The scan state after one more character, or None when the text can no longer be a literal. */
  function Step(q: Lexing, c: char): Option<Lexing> {
    match q
    case Leading =>
      if IsJsWhite(c) then Some(Leading)
      else if c == '+' || c == '-' then Some(Signed)
      else if c == '0' then Some(Whole(true))
      else if IsDigit(c) then Some(Whole(false))
      else if c == '.' then Some(PointOnly)
      else None
    case Signed =>
      if IsDigit(c) then Some(Whole(false))
      else if c == '.' then Some(PointOnly)
      else None
    case Whole(radix) =>
      if IsDigit(c) then Some(Whole(false))
      else if c == '.' then Some(Fraction)
      else if IsExponentChar(c) then Some(ExponentMark)
      else if IsJsWhite(c) then Some(Trailing)
      else if radix && (c == 'x' || c == 'X') then Some(RadixMark(16))
      else if radix && (c == 'o' || c == 'O') then Some(RadixMark(8))
      else if radix && (c == 'b' || c == 'B') then Some(RadixMark(2))
      else None
    case PointOnly =>
      if IsDigit(c) then Some(Fraction) else None
    case Fraction =>
      if IsDigit(c) then Some(Fraction)
      else if IsExponentChar(c) then Some(ExponentMark)
      else if IsJsWhite(c) then Some(Trailing)
      else None
    case ExponentMark =>
      if c == '+' || c == '-' then Some(ExponentSign)
      else if IsDigit(c) then Some(ExponentDigits)
      else None
    case ExponentSign =>
      if IsDigit(c) then Some(ExponentDigits) else None
    case ExponentDigits =>
      if IsDigit(c) then Some(ExponentDigits)
      else if IsJsWhite(c) then Some(Trailing)
      else None
    case RadixMark(base) =>
      if IsBaseDigit(c, base) then Some(RadixDigits(base)) else None
    case RadixDigits(base) =>
      if IsBaseDigit(c, base) then Some(RadixDigits(base))
      else if IsJsWhite(c) then Some(Trailing)
      else None
    case Trailing =>
      if IsJsWhite(c) then Some(Trailing) else None
  }

  /** The states in which the text read so far is a whole StringNumericLiteral. */
  predicate IsFinal(q: Lexing) {
    q.Leading? || q.Whole? || q.Fraction? || q.ExponentDigits? || q.RadixDigits? || q.Trailing?
  }

  /** The rest of the text, read from state q, completes a literal ("Infinity" may follow a sign or the leading white space). */
  predicate Accepts(q: Lexing, s: string)
    decreases |s|
  {
    if s == [] then IsFinal(q)
    else if (q == Leading || q == Signed) && |s| >= 8 && s[..8] == "Infinity" then Accepts(Trailing, s[8..])
    else match Step(q, s[0])
      case None => false
      case Some(next) => Accepts(next, s[1..])
  }

  /** `!isNaN(Number(s))`: s is a StringNumericLiteral, white space (the empty literal, 0) included. */
  predicate IsNumericText(s: string)
    ensures IsBlank(s) ==> IsNumericText(s)
  {
    BlankIsNumeric(s);
    Accepts(Leading, s)
  }

  /** Blank text converts to 0, not NaN. */
  lemma {:induction false} BlankIsNumeric(s: string)
    ensures IsBlank(s) ==> Accepts(Leading, s)
    decreases |s|
  {
    if s != [] && IsBlank(s) {
      BlankIsNumeric(s[1..]);
    }
  }

  lemma {:induction false} DigitsStayWhole(s: string)
    requires AllDigits(s)
    ensures Accepts(Whole(false), s)
    decreases |s|
  {
    if s != [] {
      DigitsStayWhole(s[1..]);
    }
  }

  /** The decimal text of a whole number converts to a number. */
  lemma NaturalTextIsNumeric(n: nat)
    ensures IsNumericText(NatToString(n))
  {
    var s := NatToString(n);
    DigitsStayWhole(s[1..]);
  }

  /** A sign alone, a word, two numbers, or a signed 0x literal are NaN. */
  lemma NotNumericExamples()
    ensures !IsNumericText("-") && !IsNumericText("abc") && !IsNumericText("1 2") && !IsNumericText("-0x1")
  {
  }

  /** A decimal with a fraction and an exponent converts, white space around it included. */
  lemma PaddedDecimalIsNumeric()
    ensures IsNumericText(" 12.5e3 ")
  {
  }

  /** A hexadecimal literal converts. */
  lemma HexIsNumeric()
    ensures IsNumericText("0x1F")
  {
  }

  lemma SignedInfinityIsNumeric()
    ensures IsNumericText("-Infinity")
  {
    var s := "-Infinity";
    assert s[1..][..8] == "Infinity" && s[1..][8..] == [];
  }

  // ---- parseFloat(text) ----

  /** The exponent value an exponent part denotes, when it is one. */
  function ExponentValue(e: string): (r: Option<int>)
    ensures r.Some? <==> |e| >= 2 && (e[0] == 'e' || e[0] == 'E') && DigitRun(if e[1] == '+' || e[1] == '-' then e[2..] else e[1..]) > 0
  {
    if |e| >= 2 && (e[0] == 'e' || e[0] == 'E') then
      var signed := e[1] == '+' || e[1] == '-';
      var g := if signed then e[2..] else e[1..];
      var k := DigitRun(g);
      if k == 0 then None
      else if e[1] == '-' then Some(-(ParseNat(g[..k]) as int))
      else Some(ParseNat(g[..k]))
    else None
  }

  function Scale(m: real, e: int): (r: real)
    requires m >= 0.0
    ensures r >= 0.0
  {
    if e >= 0 then m * (Pow10(e) as real) else m / (Pow10(-e) as real)
  }

  /** Integer digits and fraction digits of the longest numeric prefix of u. */
  function MantissaValue(u: string, d1: nat, frac: string, d2: nat): (m: real)
    requires d1 <= |u| && AllDigits(u[..d1]) && d2 <= |frac| && AllDigits(frac[..d2])
    ensures m >= 0.0
  {
    (ParseNat(u[..d1]) as real) + (ParseNat(frac[..d2]) as real) / (Pow10(d2) as real)
  }

  /**
   * The value of the longest prefix of u that is an unsigned decimal,
   * or None when u does not start with one.
   */
  function UnsignedPrefixValue(u: string): (r: Option<real>)
    ensures r.Some? ==> r.value >= 0.0
  {
    var d1 := DigitRun(u);
    var rest := u[d1..];
    var hasDot := |rest| > 0 && rest[0] == '.';
    var frac := if hasDot then rest[1..] else rest;
    var d2 := if hasDot then DigitRun(frac) else 0;
    if d1 == 0 && d2 == 0 then None
    else
      var mantissa := MantissaValue(u, d1, frac, d2);
      match ExponentValue(frac[d2..])
      case None => Some(mantissa)
      case Some(e) => Some(Scale(mantissa, e))
  }

  /**
   * `parseFloat(s)`: leading white space skipped, an optional sign, the
   * longest numeric prefix; None stands for NaN.
   */
  function ParseFloat(s: string): (r: Option<real>)
    ensures r.Some? && r.value > 0.0 ==> |TrimStart(s)| > 0 && TrimStart(s)[0] != '-'
  {
    var t := TrimStart(s);
    var u := if |t| > 0 && (t[0] == '+' || t[0] == '-') then t[1..] else t;
    match UnsignedPrefixValue(u)
    case None => None
    case Some(v) => if |t| > 0 && t[0] == '-' then Some(-v) else Some(v)
  }

  /** `parseFloat(s) || 0`: NaN becomes 0, and blank text, which parses to NaN, gives 0. */
  function ParseFloatOrZero(s: string): (v: real)
    ensures IsBlank(s) ==> v == 0.0
    ensures v != 0.0 ==> ParseFloat(s) == Some(v)
  {
    BlankTrimsToEmpty(s);
    match ParseFloat(s)
    case None => 0.0
    case Some(v) => v
  }

  lemma ParseFloatOfNatToString(n: nat)
    ensures ParseFloat(NatToString(n)) == Some(n as real)
  {
    var s := NatToString(n);
    assert !IsJsWhite(s[0]);
    assert TrimStart(s) == s;
    assert DigitRun(s) == |s|;
    assert s[..|s|] == s;
    ParseNatOfNatToString(n);
    var empty: string := [];
    assert ParseNat(empty) == 0;
  }

  // ---- The relational operator < on strings ----

  /** `a < b` on JavaScript strings: lexicographic by character code. */
  predicate StrLess(a: string, b: string)
    ensures StrLess(a, b) ==> a != b
    ensures a < b ==> StrLess(a, b)
  {
    if a == [] then b != []
    else if b == [] then false
    else if a[0] != b[0] then a[0] < b[0]
    else StrLess(a[1..], b[1..])
  }

  /** Never both ways: with irreflexivity, `<` on strings is a strict order. */
  lemma {:induction false} StrLessAsymmetric(a: string, b: string)
    ensures !(StrLess(a, b) && StrLess(b, a))
    decreases |a|
  {
    if a != [] && b != [] && a[0] == b[0] {
      StrLessAsymmetric(a[1..], b[1..]);
    }
  }

  /** Comparing two texts that start with prefixes of equal length. */
  lemma {:induction false} StrLessAppend(p: string, s: string, q: string, t: string)
    requires |p| == |q|
    ensures StrLess(p + s, q + t) <==> StrLess(p, q) || (p == q && StrLess(s, t))
    decreases |p|
  {
    if p == [] {
      assert p + s == s && q + t == t;
    } else {
      assert (p + s)[0] == p[0] && (q + t)[0] == q[0];
      assert (p + s)[1..] == p[1..] + s && (q + t)[1..] == q[1..] + t;
      StrLessAppend(p[1..], s, q[1..], t);
      if p[0] == q[0] && p[1..] == q[1..] {
        assert p == q by { assert p == [p[0]] + p[1..] && q == [q[0]] + q[1..]; }
      }
    }
  }

  lemma PositionalLess(dx: nat, dy: nat, p: nat, rx: nat, ry: nat)
    requires dx < dy && rx < p
    ensures dx * p + rx < dy * p + ry
  {
    calc {
      dx * p + rx;
    <
      dx * p + p;
    ==
      (dx + 1) * p;
    <=
      dy * p;
    }
  }

  /** The leading digit decides when it differs. */
  lemma LeadingDigitDecides(x: string, y: string)
    requires |x| == |y| && |x| > 0 && AllDigits(x) && AllDigits(y)
    requires DigitValue(x[0]) < DigitValue(y[0])
    ensures ParseNat(x) < ParseNat(y)
  {
    ParseNatFront(x);
    ParseNatFront(y);
    ParseNatBound(x[1..]);
    PositionalLess(DigitValue(x[0]), DigitValue(y[0]), Pow10(|x| - 1), ParseNat(x[1..]), ParseNat(y[1..]));
  }

  /** For digit strings of one length, string order is numeric order. */
  lemma {:induction false} StrLessIsNumericOrder(x: string, y: string)
    requires |x| == |y| && AllDigits(x) && AllDigits(y)
    ensures StrLess(x, y) <==> ParseNat(x) < ParseNat(y)
    decreases |x|
  {
    if x != [] {
      var dx, dy := DigitValue(x[0]), DigitValue(y[0]);
      if dx < dy {
        LeadingDigitDecides(x, y);
      } else if dy < dx {
        LeadingDigitDecides(y, x);
      } else {
        assert x[0] == y[0];
        StrLessIsNumericOrder(x[1..], y[1..]);
        ParseNatFront(x);
        ParseNatFront(y);
      }
    }
  }

  // ---- toUpperCase / toLowerCase on single characters ----

  /** Upper case for ASCII letters and the Latin-1 letters à..þ (except ÷). */
  function ToUpper(c: char): char {
    if 'a' <= c <= 'z' || ('à' <= c <= 'þ' && c != '÷') then (c as int - 32) as char else c
  }

  /** Lower case for ASCII letters and the Latin-1 letters À..Þ (except ×). */
  function ToLower(c: char): char {
    if 'A' <= c <= 'Z' || ('À' <= c <= 'Þ' && c != '×') then (c as int + 32) as char else c
  }

  function LowerAll(s: string): (r: string)
    ensures |r| == |s| && forall i :: 0 <= i < |s| ==> r[i] == ToLower(s[i])
  {
    if s == [] then [] else [ToLower(s[0])] + LowerAll(s[1..])
  }

  /** Case mapping keeps spaces where they are and maps nothing else to a space; mapping twice changes nothing. */
  lemma CaseMappingFacts(c: char)
    ensures (ToUpper(c) == ' ' <==> c == ' ') && (ToLower(c) == ' ' <==> c == ' ')
    ensures ToUpper(ToUpper(c)) == ToUpper(c) && ToLower(ToLower(c)) == ToLower(c)
  {
  }
}
