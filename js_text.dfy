/**
 * The pieces of ECMAScript's number/string conversions that the crowdfunding
 * pages rely on: `parseInt` (section 19.2.5 of ECMA-262), `parseFloat`
 * (section 19.2.4), `Number.prototype.toString(radix)` on integers,
 * `Number.prototype.toFixed(0)`, and ASCII `toLowerCase` / `includes`.
 *
 * Numbers are exact (`int`, `real`): the IEEE-754 rounding of the host is not
 * modelled.
 */
module JsText {

  datatype Option<+T> = None | Some(value: T)

  /** A JavaScript Number, without the float rounding: NaN, a finite value, or an infinity. */
  datatype JsNumber = NaN | Finite(value: real) | Infinity(negative: bool)

  // ---------------------------------------------------------------- characters

  /** StrWhiteSpaceChar of ECMA-262: the WhiteSpace and LineTerminator code points. */
  predicate IsWhiteSpace(c: char) {
    c == '\t' || c == '\U{000B}' || c == '\U{000C}' || c == ' ' || c == '\U{00A0}' || c == '\U{FEFF}'
    || c == '\U{1680}' || ('\U{2000}' <= c <= '\U{200A}') || c == '\U{202F}' || c == '\U{205F}'
    || c == '\U{3000}' || c == '\n' || c == '\r' || c == '\U{2028}' || c == '\U{2029}'
  }

  /** The value of c as a digit of a radix up to 36 ('0'-'9', then 'a'-'z' or 'A'-'Z'); 36 when c is no digit. */
  function DigitValue(c: char): (d: nat)
    ensures d <= 36
  {
    if '0' <= c <= '9' then c as int - '0' as int
    else if 'a' <= c <= 'z' then c as int - 'a' as int + 10
    else if 'A' <= c <= 'Z' then c as int - 'A' as int + 10
    else 36
  }

  /** The lower-case digit character that `toString(radix)` writes for d. */
  function DigitChar(d: nat): (c: char)
    requires d < 36
    ensures DigitValue(c) == d
  {
    if d < 10 then (48 + d) as char else (97 + d - 10) as char
  }

  predicate AllDigits(s: string, radix: nat) {
    forall i :: 0 <= i < |s| ==> DigitValue(s[i]) < radix
  }

  /** The leading white space removed, as step 2 of `parseInt` and `parseFloat` do. */
  function TrimStart(s: string): (r: string)
    ensures |r| <= |s| && r == s[|s| - |r|..]
    ensures r == [] || !IsWhiteSpace(r[0])
  {
    if s != [] && IsWhiteSpace(s[0]) then TrimStart(s[1..]) else s
  }

  /** The longest prefix of s made of digits of the radix. */
  function DigitPrefix(s: string, radix: nat): (z: string)
    ensures z <= s && AllDigits(z, radix)
    ensures |z| == |s| || DigitValue(s[|z|]) >= radix
  {
    if s != [] && DigitValue(s[0]) < radix then [s[0]] + DigitPrefix(s[1..], radix) else []
  }

  /** The mathematical value of a digit string read in the given radix. */
  function ValueOf(s: string, radix: nat): nat
    requires AllDigits(s, radix)
  {
    if s == [] then 0 else ValueOf(s[..|s| - 1], radix) * radix + DigitValue(s[|s| - 1])
  }

  // --------------------------------------------------- Number#toString(radix)

  /** `n.toString(radix)` for a non-negative integer n: lower-case digits, no leading zero. */
  function ToRadix(n: nat, radix: nat): string
    requires 2 <= radix <= 36
    decreases n
  {
    if n < radix then [DigitChar(n)]
    else
      DivPositive(n, radix);
      ToRadix(n / radix, radix) + [DigitChar(n % radix)]
  }

  /** `n.toString(radix)` for any integer n. */
  function IntToRadix(n: int, radix: nat): string
    requires 2 <= radix <= 36
  {
    if n < 0 then "-" + ToRadix(-n, radix) else ToRadix(n, radix)
  }

  /** A digit string as `toString(radix)` writes it: digits of the radix, lower case, no leading zero. */
  predicate Canonical(s: string, radix: nat) {
    && 2 <= radix <= 36
    && |s| > 0
    && (forall i :: 0 <= i < |s| ==> DigitValue(s[i]) < radix && DigitChar(DigitValue(s[i])) == s[i])
    && (|s| > 1 ==> DigitValue(s[0]) != 0)
  }

  // ----------------------------------------------------------------- parseInt

  /**
   * `parseInt(input, radix)`, ECMA-262 section 19.2.5, with `radix == 0` standing for an absent
   * radix; `None` is NaN. Leading white space and one sign are skipped; radix 16 and the absent
   * radix accept a "0x"/"0X" prefix (which selects 16); the longest prefix of digits is read and
   * the rest ignored.
   */
  function ParseInt(input: string, radix: int): (n: Option<int>)
  {
    var s := TrimStart(input);
    var negative := |s| > 0 && s[0] == '-';
    var unsigned := if |s| > 0 && (s[0] == '+' || s[0] == '-') then s[1..] else s;
    if radix != 0 && (radix < 2 || radix > 36) then None
    else
      match ReadUnsigned(unsigned, radix)
      case None => None
      case Some(v) => var w: int := v; Some(if negative then -w else w)
  }

  /** The digits `parseInt` reads after the sign, with the "0x" rule of radix 16 and the absent radix. */
  function ReadUnsigned(unsigned: string, radix: int): Option<nat>
    requires radix == 0 || 2 <= radix <= 36
  {
    var hexPrefix := (radix == 0 || radix == 16) && |unsigned| >= 2 && unsigned[0] == '0'
                     && (unsigned[1] == 'x' || unsigned[1] == 'X');
    var r: nat := if hexPrefix then 16 else if radix == 0 then 10 else radix;
    var digits := DigitPrefix(if hexPrefix then unsigned[2..] else unsigned, r);
    if digits == [] then None else Some(ValueOf(digits, r))
  }

  // --------------------------------------------------------------- parseFloat

  const InfinityText: string := "Infinity"
  const NaNText: string := "NaN"

  /** x · 10^e, one factor of ten at a time. */
  function Scaled(x: real, e: int): real
    decreases if e < 0 then -e else e
  {
    if e == 0 then x else if e > 0 then 10.0 * Scaled(x, e - 1) else Scaled(x, e + 1) / 10.0
  }

  /** The exponent of an ExponentPart ("e"/"E", optional sign, digits) at the head of s; 0 when there is none. */
  function ExponentOf(s: string): int {
    if |s| >= 2 && (s[0] == 'e' || s[0] == 'E') then
      var signed := s[1..];
      var unsigned := if signed[0] == '-' || signed[0] == '+' then signed[1..] else signed;
      var digits := DigitPrefix(unsigned, 10);
      var v: int := if digits == [] then 0 else ValueOf(digits, 10);
      if signed[0] == '-' then -v else v
    else 0
  }

  /**
   * `parseFloat(input)`, ECMA-262 section 19.2.4: leading white space and one sign skipped, then
   * "Infinity" or the longest prefix that is a StrUnsignedDecimalLiteral (digits, optional
   * fraction, optional exponent); NaN when there is none.
   */
  function ParseFloat(input: string): JsNumber
    decreases |input|
  {
    if input != [] && IsWhiteSpace(input[0]) then ParseFloat(input[1..]) else SignedDecimal(input)
  }

  /** The number at the head of s, which starts with no white space: an optional sign, then a numeral. */
  function SignedDecimal(s: string): JsNumber {
    var negative := |s| > 0 && s[0] == '-';
    match UnsignedDecimal(SignSkipped(s))
    case NaN => NaN
    case Infinity(_) => Infinity(negative)
    case Finite(magnitude) => Finite(if negative then -magnitude else magnitude)
  }

  /** s without its leading "+" or "-", if it has one. */
  function SignSkipped(s: string): string {
    if |s| > 0 && (s[0] == '-' || s[0] == '+') then s[1..] else s
  }

  /** The value of the StrUnsignedDecimalLiteral (or "Infinity") at the head of body; NaN when there is none. */
  function UnsignedDecimal(body: string): JsNumber {
    if InfinityText <= body then Infinity(false)
    else
      var intPart := DigitPrefix(body, 10);
      var rest := body[|intPart|..];
      var hasDot := |rest| > 0 && rest[0] == '.';
      var fracPart := if hasDot then DigitPrefix(rest[1..], 10) else [];
      if intPart == [] && fracPart == [] then NaN
      else
        var afterMantissa := if hasDot then rest[1 + |fracPart|..] else rest;
        Finite(Scaled(ValueOf(intPart + fracPart, 10) as real, ExponentOf(afterMantissa) - |fracPart|))
  }

  /** A numeral starts s: "Infinity", a decimal digit, or a "." followed by a decimal digit. */
  predicate StartsNumeral(s: string) {
    InfinityText <= s || (|s| > 0 && DigitValue(s[0]) < 10) || (|s| > 1 && s[0] == '.' && DigitValue(s[1]) < 10)
  }

  /**
   * `isNaN(parseFloat(s))`, decided without computing the number: once the leading white space
   * and one sign are skipped, no numeral starts.
   */
  predicate ReadsNaN(s: string)
    decreases |s|
  {
    if s != [] && IsWhiteSpace(s[0]) then ReadsNaN(s[1..]) else !StartsNumeral(SignSkipped(s))
  }

  // ------------------------------------------------------------------ toFixed

  /** The integer n with |n - y| smallest, the larger one on a tie, as toFixed picks it. */
  function RoundHalfUp(y: real): (n: nat)
    requires y >= 0.0
    ensures n as real - 0.5 <= y < n as real + 0.5
  {
    (y + 0.5).Floor
  }

  /** `x.toFixed(0)` for |x| < 10^21: "-" for a negative x, then the nearest integer in decimal. */
  function ToFixed0(n: JsNumber): string {
    match n
    case NaN => NaNText
    case Infinity(negative) => if negative then "-" + InfinityText else InfinityText
    case Finite(x) => if x < 0.0 then "-" + ToRadix(RoundHalfUp(-x), 10) else ToRadix(RoundHalfUp(x), 10)
  }

  /** `x * 1e6` on a Number. */
  function TimesMillion(n: JsNumber): JsNumber {
    match n
    case Finite(x) => Finite(x * 1000000.0)
    case _ => n
  }

  // ----------------------------------------------------------------- TimeClip

  /** The largest time value a Date holds, 8.64e15 ms (section 21.4.1.31 of ECMA-262). */
  const MaxTimeMs: real := 8640000000000000.0

  /**
   * `new Date(t).getTime()`: TimeClip of t, ECMA-262 section 21.4.1.31; `None` is NaN (an invalid
   * date). A finite t within the range is truncated toward zero.
   */
  function TimeClip(t: JsNumber): (ms: Option<int>)
    ensures ms.Some? <==> t.Finite? && -MaxTimeMs <= t.value <= MaxTimeMs
    ensures ms.Some? && t.value >= 0.0 ==> 0 <= ms.value && ms.value as real <= t.value < ms.value as real + 1.0
    ensures ms.Some? && t.value < 0.0 ==> ms.value <= 0 && ms.value as real - 1.0 < t.value <= ms.value as real
  {
    match t
    case Finite(x) =>
      if x > MaxTimeMs || x < -MaxTimeMs then None
      else if x >= 0.0 then Some(x.Floor)
      else Some(-((-x).Floor))
    case _ => None
  }

  // ------------------------------------------------------ toLowerCase, includes

  function LowerChar(c: char): char {
    if 'A' <= c <= 'Z' then (c as int + 32) as char else c
  }

  /** `s.toLowerCase()`, for the ASCII letters. */
  function ToLower(s: string): string {
    seq(|s|, i requires 0 <= i < |s| => LowerChar(s[i]))
  }

  /** `hay.includes(needle)`: needle occurs in hay at some position. */
  predicate Includes(hay: string, needle: string) {
    needle <= hay || (|hay| > 0 && Includes(hay[1..], needle))
  }

  // ------------------------------------------------------------------- lemmas

  lemma {:induction false} ValueOfAppend(p: string, c: char, radix: nat)
    requires AllDigits(p, radix) && DigitValue(c) < radix
    ensures AllDigits(p + [c], radix)
    ensures ValueOf(p + [c], radix) == ValueOf(p, radix) * radix + DigitValue(c)
  {
    assert (p + [c])[..|p|] == p;
  }

  /** Reading back what `toString(radix)` wrote gives the number. */
  lemma {:induction false} ToRadixValue(n: nat, radix: nat)
    requires 2 <= radix <= 36
    ensures AllDigits(ToRadix(n, radix), radix)
    ensures ValueOf(ToRadix(n, radix), radix) == n
    decreases n
  {
    if n < radix {
      var c := DigitChar(n);
      assert ToRadix(n, radix) == [c];
      assert [c][..0] == [];
      assert ValueOf([c], radix) == 0 * radix + n;
    } else {
      var q, m := n / radix, n % radix;
      assert n == q * radix + m;
      DivPositive(n, radix);
      var p, c := ToRadix(q, radix), DigitChar(m);
      assert ToRadix(n, radix) == p + [c];
      ToRadixValue(q, radix);
      ValueOfAppend(p, c, radix);
      assert ValueOf(p + [c], radix) == q * radix + m;
    }
  }

  /** `toString(radix)` writes a canonical digit string, whose first digit is non-zero for n >= 1. */
  lemma {:induction false} ToRadixCanonical(n: nat, radix: nat)
    requires 2 <= radix <= 36
    ensures Canonical(ToRadix(n, radix), radix)
    ensures n >= 1 ==> DigitValue(ToRadix(n, radix)[0]) != 0
    decreases n
  {
    if n >= radix {
      var q := n / radix;
      DivPositive(n, radix);
      ToRadixCanonical(q, radix);
      var p, c := ToRadix(q, radix), DigitChar(n % radix);
      assert ToRadix(n, radix) == p + [c];
      assert DigitChar(DigitValue(c)) == c;
      forall i | 0 <= i < |p + [c]|
        ensures DigitValue((p + [c])[i]) < radix && DigitChar(DigitValue((p + [c])[i])) == (p + [c])[i]
      {
        if i < |p| {
          assert (p + [c])[i] == p[i];
        }
      }
    }
  }

  lemma {:induction false} LeadingDigitPositive(s: string, radix: nat)
    requires AllDigits(s, radix) && |s| > 0 && DigitValue(s[0]) != 0 && radix >= 2
    ensures ValueOf(s, radix) >= 1
    decreases |s|
  {
    var p := s[..|s| - 1];
    if |s| == 1 {
      assert ValueOf(s, radix) == ValueOf(p, radix) * radix + DigitValue(s[0]);
    } else {
      assert p[0] == s[0];
      LeadingDigitPositive(p, radix);
      MulMonoStrict(0, ValueOf(p, radix), radix);
      assert ValueOf(s, radix) == ValueOf(p, radix) * radix + DigitValue(s[|s| - 1]);
    }
  }

  lemma {:induction false} MulMonoStrict(x: int, y: int, r: int)
    requires x < y && r > 0
    ensures x * r < y * r
  {
    assert y * r - x * r == (y - x) * r;
  }

  lemma {:induction false} DivPositive(n: nat, r: nat)
    requires 2 <= r <= n
    ensures 1 <= n / r < n
  {
    var q, m := n / r, n % r;
    assert n == q * r + m;
    if q < 1 { MulMonoStrict(q, 1, r); }
    if q >= n { MulMonoStrict(1, r, q); }
  }

  lemma {:induction false} DivModOfSum(a: nat, d: nat, r: nat)
    requires 0 < r && d < r
    ensures (a * r + d) / r == a && (a * r + d) % r == d
  {
    var v := a * r + d;
    var q, m := v / r, v % r;
    assert v == q * r + m;
    if q > a {
      MulMonoStrict(a, q, r);
      assert (a + 1) * r <= q * r by { if a + 1 < q { MulMonoStrict(a + 1, q, r); } }
    }
    if q < a {
      MulMonoStrict(q, a, r);
      assert (q + 1) * r <= a * r by { if q + 1 < a { MulMonoStrict(q + 1, a, r); } }
    }
  }

  lemma {:induction false} ScaledAtLeast(a: nat, d: nat, r: nat)
    requires a >= 1 && r > 0
    ensures a * r + d >= r
  {
    if a > 1 {
      MulMonoStrict(1, a, r);
    }
  }

  /** A canonical digit string is what `toString(radix)` writes for its value. */
  lemma {:induction false} CanonicalRoundTrip(s: string, radix: nat)
    requires Canonical(s, radix)
    ensures ToRadix(ValueOf(s, radix), radix) == s
    decreases |s|
  {
    var c := s[|s| - 1];
    assert DigitValue(c) < radix && DigitChar(DigitValue(c)) == c;
    if |s| == 1 {
      assert ValueOf(s, radix) == ValueOf([], radix) * radix + DigitValue(c);
      assert s == [c];
    } else {
      var p := s[..|s| - 1];
      assert p[0] == s[0];
      assert Canonical(p, radix);
      CanonicalRoundTrip(p, radix);
      AppendDigitRoundTrip(p, c, radix);
      assert s == p + [c];
    }
  }

  /** Appending a digit to a canonical string appends it to what `toString(radix)` writes. */
  lemma {:induction false} AppendDigitRoundTrip(p: string, c: char, radix: nat)
    requires Canonical(p, radix) && DigitValue(p[0]) != 0
    requires DigitValue(c) < radix && DigitChar(DigitValue(c)) == c
    requires ToRadix(ValueOf(p, radix), radix) == p
    ensures AllDigits(p + [c], radix)
    ensures ToRadix(ValueOf(p + [c], radix), radix) == p + [c]
  {
    var d := DigitValue(c);
    LeadingDigitPositive(p, radix);
    var a := ValueOf(p, radix);
    ValueOfAppend(p, c, radix);
    var v := ValueOf(p + [c], radix);
    assert v == a * radix + d;
    DivModOfSum(a, d, radix);
    ScaledAtLeast(a, d, radix);
    assert ToRadix(v, radix) == ToRadix(a, radix) + [DigitChar(d)];
  }

  /** A canonical string stays canonical in any wider radix, since its digits keep their values. */
  lemma {:induction false} CanonicalInWiderRadix(s: string, radix: nat, wider: nat)
    requires Canonical(s, radix) && radix <= wider <= 36
    ensures Canonical(s, wider)
  {
  }

  /** `parseInt` stops at the first non-digit: it reads exactly the digits in front of it. */
  lemma {:induction false} DigitPrefixStops(s: string, t: string, radix: nat)
    requires AllDigits(s, radix)
    requires t == [] || DigitValue(t[0]) >= radix
    ensures DigitPrefix(s + t, radix) == s
    decreases |s|
  {
    if s == [] {
      assert s + t == t;
    } else {
      assert (s + t)[1..] == s[1..] + t;
      DigitPrefixStops(s[1..], t, radix);
    }
  }

  /** The digits after the sign of a plain digit string are read whole. */
  lemma {:induction false} ReadUnsignedDigits(s: string, radix: int, r: nat)
    requires (radix == 0 && r == 10) || (radix == r && 2 <= r <= 36)
    requires |s| > 0 && AllDigits(s, r) && (radix == 16 ==> r == 16)
    ensures ReadUnsigned(s, radix) == Some(ValueOf(s, r))
  {
    if |s| >= 2 && (radix == 0 || radix == 16) {
      assert s[1] != 'x' && s[1] != 'X' by { assert DigitValue(s[1]) < 16; }
    }
    assert DigitPrefix(s, r) == s by {
      DigitPrefixStops(s, [], r);
      assert s + [] == s;
    }
  }

  /** `parseInt` of a plain digit string, in its radix or (for decimals) without a radix. */
  lemma ParseIntOfDigits(s: string, radix: int, r: nat)
    requires (radix == 0 && r == 10) || (radix == r && 2 <= r <= 36)
    requires |s| > 0 && AllDigits(s, r) && (radix == 16 ==> r == 16)
    ensures ParseInt(s, radix) == Some(ValueOf(s, r))
  {
    assert !IsWhiteSpace(s[0]) && s[0] != '-' && s[0] != '+' by { assert DigitValue(s[0]) < 36; }
    assert TrimStart(s) == s;
    ReadUnsignedDigits(s, radix, r);
  }

  /** `parseInt("0x" + h + t, 16)` with h the hex digits of n and t empty or starting with a non-digit is n. */
  lemma {:induction false} HexLiteralParses(n: nat, t: string)
    requires t == [] || DigitValue(t[0]) >= 16
    ensures ParseInt("0x" + ToRadix(n, 16) + t, 16) == Some(n)
  {
    var s := "0x" + ToRadix(n, 16) + t;
    assert s[0] == '0' && !IsWhiteSpace(s[0]);
    assert TrimStart(s) == s;
    HexDigitsRead(n, t);
  }

  /** After the "0x" prefix, the digits of n are read and t is ignored. */
  lemma {:induction false} HexDigitsRead(n: nat, t: string)
    requires t == [] || DigitValue(t[0]) >= 16
    ensures ReadUnsigned("0x" + ToRadix(n, 16) + t, 16) == Some(n)
  {
    var h := ToRadix(n, 16);
    var s := "0x" + h + t;
    assert s[0] == '0' && s[1] == 'x' && s[2..] == h + t;
    ToRadixValue(n, 16);
    DigitPrefixStops(h, t, 16);
  }

  /** `parseFloat` reads NaN exactly when no numeral follows the white space and the sign. */
  lemma {:induction false} ReadsNaNExactly(s: string)
    ensures ReadsNaN(s) <==> ParseFloat(s).NaN?
    decreases |s|
  {
    if s != [] && IsWhiteSpace(s[0]) {
      ReadsNaNExactly(s[1..]);
    } else {
      UnsignedNaN(SignSkipped(s));
    }
  }

  /** `parseFloat` of an integer written in decimal, with or without a minus sign, is that integer. */
  lemma {:induction false} ParseFloatOfInteger(n: nat, negative: bool)
    ensures ParseFloat((if negative then "-" else "") + ToRadix(n, 10)) == Finite(if negative then -(n as real) else n as real)
  {
    UnsignedOfInteger(n);
    SignedNumeral(ToRadix(n, 10), n as real, negative);
  }

  /** An optional minus sign, then a numeral that starts with a digit: the sign applies to its value. */
  lemma {:induction false} SignedNumeral(digits: string, x: real, negative: bool)
    requires |digits| > 0 && DigitValue(digits[0]) < 10 && UnsignedDecimal(digits) == Finite(x)
    ensures ParseFloat((if negative then "-" else "") + digits) == Finite(if negative then -x else x)
  {
    if negative {
      MinusNumeral(digits, x);
    } else {
      assert "" + digits == digits;
      PlainNumeral(digits, x);
    }
  }

  lemma {:induction false} PlainNumeral(digits: string, x: real)
    requires |digits| > 0 && DigitValue(digits[0]) < 10 && UnsignedDecimal(digits) == Finite(x)
    ensures ParseFloat(digits) == Finite(x)
  {
    assert !IsWhiteSpace(digits[0]) && digits[0] != '-' && digits[0] != '+';
    NoLeadingSpace(digits);
    Unsigned(digits);
  }

  /** Without a sign, the number read is the numeral's. */
  lemma {:induction false} Unsigned(s: string)
    requires s == [] || (s[0] != '-' && s[0] != '+')
    ensures SignedDecimal(s) == UnsignedDecimal(s)
  {
  }

  lemma {:induction false} MinusNumeral(digits: string, x: real)
    requires |digits| > 0 && DigitValue(digits[0]) < 10 && UnsignedDecimal(digits) == Finite(x)
    ensures ParseFloat("-" + digits) == Finite(-x)
  {
    var s := "-" + digits;
    assert s[0] == '-' && s[1..] == digits;
    MinusRead(s);
  }

  /** A text that starts with a minus sign followed by a finite numeral reads as that numeral negated. */
  lemma {:induction false} MinusRead(s: string)
    requires |s| > 0 && s[0] == '-' && UnsignedDecimal(s[1..]).Finite?
    ensures ParseFloat(s) == Finite(-UnsignedDecimal(s[1..]).value)
  {
    assert !IsWhiteSpace(s[0]);
    NoLeadingSpace(s);
    Negated(s);
  }

  /** After a minus sign, a finite numeral is read negated. */
  lemma {:induction false} Negated(s: string)
    requires |s| > 0 && s[0] == '-' && UnsignedDecimal(s[1..]).Finite?
    ensures SignedDecimal(s) == Finite(-UnsignedDecimal(s[1..]).value)
  {
  }

  /** Without leading white space, `parseFloat` reads the sign and the numeral at once. */
  lemma {:induction false} NoLeadingSpace(s: string)
    requires s == [] || !IsWhiteSpace(s[0])
    ensures ParseFloat(s) == SignedDecimal(s)
  {
  }

  /** The decimal digits of n, on their own, read as n. */
  lemma {:induction false} UnsignedOfInteger(n: nat)
    ensures |ToRadix(n, 10)| > 0 && DigitValue(ToRadix(n, 10)[0]) < 10
    ensures UnsignedDecimal(ToRadix(n, 10)) == Finite(n as real)
  {
    var digits := ToRadix(n, 10);
    ToRadixValue(n, 10);
    ToRadixCanonical(n, 10);
    assert !(InfinityText <= digits) by { assert DigitValue(digits[0]) < 10; }
    DigitPrefixStops(digits, [], 10);
    assert digits + [] == digits;
    assert digits[|digits|..] == [];
  }

  /** A string of white space only reads as NaN. */
  lemma {:induction false} WhiteSpaceReadsNaN(s: string)
    requires forall i :: 0 <= i < |s| ==> IsWhiteSpace(s[i])
    ensures ReadsNaN(s)
    decreases |s|
  {
    if s != [] {
      assert forall i :: 0 <= i < |s[1..]| ==> s[1..][i] == s[i + 1];
      WhiteSpaceReadsNaN(s[1..]);
    }
  }

  /** No numeral at the head of the body is exactly a NaN. */
  lemma {:induction false} UnsignedNaN(body: string)
    ensures UnsignedDecimal(body).NaN? <==> !StartsNumeral(body)
  {
    if !(InfinityText <= body) {
      var intPart := DigitPrefix(body, 10);
      assert intPart == [] <==> body == [] || DigitValue(body[0]) >= 10;
      if intPart == [] {
        assert body[|intPart|..] == body;
      }
    }
  }

  /** Every character of a needle found in hay occurs in hay. */
  lemma {:induction false} IncludesChars(hay: string, needle: string, i: nat)
    requires Includes(hay, needle) && i < |needle|
    ensures needle[i] in hay
    decreases |hay|
  {
    if needle <= hay {
      assert hay[i] == needle[i];
    } else {
      IncludesChars(hay[1..], needle, i);
      assert needle[i] in hay[1..];
    }
  }
}
