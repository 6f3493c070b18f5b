/** The few pieces of JavaScript semantics that the application's decisions rest on:
    optional values, JSON values as the code receives them, truthiness, `Number(...)`,
    `String.prototype.trim`, ASCII lower-casing and `startsWith`. */
module Js {

  datatype Option<T> = None | Some(value: T)

  /** A JSON value after `req.json()`; `JUndefined` is a property that is absent.
      Numbers are exact reals: JSON has no NaN or infinities. */
  datatype Json =
    | JUndefined
    | JNull
    | JBool(b: bool)
    | JNum(n: real)
    | JStr(s: string)
    | JArr(items: seq<Json>)
    | JObj(fields: map<string, Json>)

  /** Property access `v.key`: absent properties, and properties of non-objects, read as undefined.
      (Reading a property of null or undefined throws; callers that can meet that case check it first.) */
  function Prop(v: Json, key: string): (r: Json)
    ensures r != JUndefined ==> v.JObj? && key in v.fields && r == v.fields[key]
  {
    if v.JObj? && key in v.fields then v.fields[key] else JUndefined
  }

  /** JavaScript truthiness: undefined, null, false, 0 and "" are falsy; everything else is truthy. */
  predicate Truthy(v: Json) {
    match v
    case JUndefined => false
    case JNull => false
    case JBool(b) => b
    case JNum(n) => n != 0.0
    case JStr(s) => s != ""
    case JArr(_) => true
    case JObj(_) => true
  }

  /** The characters `trim()` and `Number(string)` strip: ECMAScript WhiteSpace and LineTerminator. */
  predicate IsWhitespace(c: char) {
    c == '\t' || c == '\n' || c == '\U{B}' || c == '\U{C}' || c == '\r' || c == ' ' ||
    c == '\U{A0}' || c == '\U{1680}' || ('\U{2000}' <= c <= '\U{200A}') ||
    c == '\U{2028}' || c == '\U{2029}' || c == '\U{202F}' || c == '\U{205F}' ||
    c == '\U{3000}' || c == '\U{FEFF}'
  }

  predicate AllWhitespace(s: string) {
    forall i :: 0 <= i < |s| ==> IsWhitespace(s[i])
  }

  function TrimStart(s: string): string
  {
    if s != [] && IsWhitespace(s[0]) then TrimStart(s[1..]) else s
  }

  function TrimEnd(s: string): string
  {
    if s != [] && IsWhitespace(s[|s| - 1]) then TrimEnd(s[..|s| - 1]) else s
  }

  /** `s.trim()`. */
  function Trim(s: string): string {
    TrimEnd(TrimStart(s))
  }

  /** `!s.trim()`: the string is empty once trimmed. */
  predicate IsBlank(s: string) {
    Trim(s) == ""
  }

  lemma {:induction false} TrimStartEmpty(s: string)
    ensures TrimStart(s) == [] <==> AllWhitespace(s)
    decreases |s|
  {
    if s != [] && IsWhitespace(s[0]) {
      TrimStartEmpty(s[1..]);
      assert AllWhitespace(s) <==> AllWhitespace(s[1..]) by {
        if AllWhitespace(s[1..]) {
          forall i | 0 <= i < |s| ensures IsWhitespace(s[i]) {
            if i > 0 { assert s[i] == s[1..][i - 1]; }
          }
        }
      }
    }
  }

  lemma {:induction false} TrimStartHead(s: string)
    ensures TrimStart(s) != [] ==> !IsWhitespace(TrimStart(s)[0])
    decreases |s|
  {
    if s != [] && IsWhitespace(s[0]) {
      TrimStartHead(s[1..]);
    }
  }

  lemma {:induction false} TrimEndEmpty(s: string)
    ensures TrimEnd(s) == [] <==> AllWhitespace(s)
    decreases |s|
  {
    if s != [] && IsWhitespace(s[|s| - 1]) {
      var p := s[..|s| - 1];
      TrimEndEmpty(p);
      assert AllWhitespace(s) <==> AllWhitespace(p) by {
        if AllWhitespace(p) {
          forall i | 0 <= i < |s| ensures IsWhitespace(s[i]) {
            if i < |s| - 1 { assert s[i] == p[i]; }
          }
        }
      }
    }
  }

  /** A string is blank after `trim()` exactly when every character of it is whitespace. */
  lemma BlankIffAllWhitespace(s: string)
    ensures IsBlank(s) <==> AllWhitespace(s)
  {
    var t := TrimStart(s);
    TrimStartEmpty(s);
    TrimStartHead(s);
    TrimEndEmpty(t);
    if t != [] {
      assert !IsWhitespace(t[0]);
    }
  }

  lemma TrimOfUnpadded(s: string)
    requires s != [] && !IsWhitespace(s[0]) && !IsWhitespace(s[|s| - 1])
    ensures Trim(s) == s
  {
  }

  /** The value of `c` as a digit in the bases up to 16 (either case for the letters), and 16
      for a character that is no such digit. */
  function DigitValue(c: char): (d: nat)
    ensures d <= 16
  {
    if '0' <= c <= '9' then c as int - '0' as int
    else if 'a' <= c <= 'f' then c as int - 'a' as int + 10
    else if 'A' <= c <= 'F' then c as int - 'A' as int + 10
    else 16
  }

  predicate IsDigit(c: char) {
    DigitValue(c) < 10
  }

  predicate AllDigitsIn(s: string, radix: nat) {
    forall i :: 0 <= i < |s| ==> DigitValue(s[i]) < radix
  }

  predicate AllDigits(s: string) {
    AllDigitsIn(s, 10)
  }

  /** The value of a string of digits in base `radix`. */
  function DigitsValueIn(s: string, radix: nat): nat
    requires AllDigitsIn(s, radix)
  {
    if s == [] then 0 else radix * DigitsValueIn(s[..|s| - 1], radix) + DigitValue(s[|s| - 1])
  }

  function DigitsValue(s: string): nat
    requires AllDigits(s)
  {
    DigitsValueIn(s, 10)
  }

  function DigitChar(d: nat): (c: char)
    requires d < 10
    ensures IsDigit(c) && DigitValue(c) == d
  {
    ('0' as int + d) as char
  }

  /** `String(n)` for a natural number: its decimal digits, without leading zeros. */
  function DecimalString(n: nat): (s: string)
    ensures s != [] && AllDigits(s)
  {
    if n < 10 then [DigitChar(n)] else DecimalString(n / 10) + [DigitChar(n % 10)]
  }

  lemma {:induction false} DecimalStringValue(n: nat)
    ensures DigitsValue(DecimalString(n)) == n
  {
    var s := DecimalString(n);
    if n >= 10 {
      assert s[..|s| - 1] == DecimalString(n / 10);
      DecimalStringValue(n / 10);
      assert DigitsValue(s) == 10 * DigitsValue(s[..|s| - 1]) + DigitValue(s[|s| - 1]);
    } else {
      assert DigitsValue(s) == 10 * DigitsValueIn([], 10) + DigitValue(s[0]);
    }
  }

  /** A JavaScript number: NaN, a finite value or an infinity. Finite values are exact reals;
      the rounding to the nearest double is not modelled. */
  datatype Numeric = NaN | Finite(x: real) | Infinity(negative: bool)

  /** The number of decimal digits `s` starts with. */
  function LeadingDigits(s: string): (k: nat)
    ensures k <= |s| && AllDigits(s[..k])
    ensures k < |s| ==> !IsDigit(s[k])
  {
    if s != [] && IsDigit(s[0]) then
      var k := 1 + LeadingDigits(s[1..]);
      assert s[..k] == [s[0]] + s[1..][..k - 1];
      k
    else 0
  }

  function Pow10(e: nat): (p: nat)
    ensures p >= 1
  {
    if e == 0 then 1 else 10 * Pow10(e - 1)
  }

  /** `m` times ten to the power `e`. */
  function Scale(m: real, e: int): real {
    if e >= 0 then m * Pow10(e) as real else m / Pow10(-e) as real
  }

  /** Scaling a natural number up is multiplying it by a power of ten. */
  lemma ScaleWhole(m: nat, k: nat)
    ensures Scale(m as real, k) == (m * Pow10(k)) as real
    ensures m * Pow10(k) >= m
  {
    var p := Pow10(k);
    RealProduct(m, p);
    ProductAtLeast(m, p);
  }

  lemma RealProduct(a: nat, b: nat)
    ensures (a * b) as real == a as real * b as real
  {
  }

  lemma ProductAtLeast(a: nat, b: nat)
    requires b >= 1
    ensures a * b >= a
  {
    assert a * b == a + a * (b - 1);
  }

  /** The digits after the `e` of an exponent part: an optional sign and at least one digit. */
  function ExponentValue(s: string): Option<int> {
    if |s| >= 2 && (s[0] == '+' || s[0] == '-') && AllDigits(s[1..]) then
      Some(if s[0] == '-' then 0 - DigitsValue(s[1..]) as int else DigitsValue(s[1..]))
    else if s != [] && AllDigits(s) then Some(DigitsValue(s))
    else None
  }

  /** `StrUnsignedDecimalLiteral`: digits with an optional fraction and an optional exponent,
      at least one digit before the exponent (`12`, `1.5`, `.5`, `10.`, `1e2`, `2.5E-1`). */
  function UnsignedDecimalValue(t: string): Option<real> {
    var i := LeadingDigits(t);
    var rest := t[i..];
    var hasDot := rest != [] && rest[0] == '.';
    var j := if hasDot then LeadingDigits(rest[1..]) else 0;
    var fraction := if hasDot then rest[1..][..j] else [];
    var tail := if hasDot then rest[1..][j..] else rest;
    if i + j == 0 then None
    else
      var exponent :=
        if tail == [] then Some(0)
        else if tail[0] == 'e' || tail[0] == 'E' then ExponentValue(tail[1..])
        else None;
      if exponent.None? then None
      else
        assert AllDigits(t[..i] + fraction) by {
          assert forall k :: 0 <= k < i + j ==> (t[..i] + fraction)[k] == if k < i then t[..i][k] else fraction[k - i];
        }
        // the digits read as one integer, shifted left by the exponent and right by the fraction
        Some(Scale(DigitsValue(t[..i] + fraction) as real, exponent.value - j))
  }

  /** The base a `0x`, `0o` or `0b` prefix selects, in either case; 0 for any other character. */
  function RadixOf(c: char): nat {
    if c == 'x' || c == 'X' then 16
    else if c == 'o' || c == 'O' then 8
    else if c == 'b' || c == 'B' then 2
    else 0
  }

  /** `NonDecimalIntegerLiteral`: `0x`, `0o` or `0b` and at least one digit of that base, unsigned. */
  function NonDecimalValue(t: string): Option<nat> {
    if |t| >= 3 && t[0] == '0' && RadixOf(t[1]) > 0 && AllDigitsIn(t[2..], RadixOf(t[1])) then
      Some(DigitsValueIn(t[2..], RadixOf(t[1])))
    else None
  }

  /** `Number(s)` for a string (`StringNumericLiteral`): surrounding whitespace is ignored, the
      empty string converts to 0, and anything that is not a literal is NaN. */
  function StringToNumber(s: string): (r: Numeric)
    ensures IsBlank(s) ==> r == Finite(0.0)
  {
    var t := Trim(s);
    if t == [] then Finite(0.0)
    else if t == "Infinity" || t == "+Infinity" then Infinity(false)
    else if t == "-Infinity" then Infinity(true)
    else if NonDecimalValue(t).Some? then Finite(NonDecimalValue(t).value as real)
    else
      var signed := t[0] == '+' || t[0] == '-';
      match UnsignedDecimalValue(if signed then t[1..] else t)
      case None => NaN
      case Some(x) => Finite(if t[0] == '-' then -x else x)
  }

  /** `Number(v)`. An array converts through its string form `items.join(",")`: the empty array
      is 0, two or more elements put a comma in the string and give NaN, and a single element
      converts as its own string form does (null and undefined join as ""). */
  function Number(v: Json): (r: Numeric)
    ensures v.JNum? ==> r == Finite(v.n)
    ensures v.JStr? ==> r == StringToNumber(v.s)
    ensures v.JUndefined? || v.JObj? ==> r == NaN
    ensures v.JNull? ==> r == Finite(0.0)
    ensures v.JBool? ==> r == Finite(if v.b then 1.0 else 0.0)
    ensures v.JArr? && |v.items| == 1 && (v.items[0].JNull? || v.items[0].JUndefined?) ==> r == Finite(0.0)
    ensures v.JArr? && |v.items| == 1 && (v.items[0].JBool? || v.items[0].JObj?) ==> r == NaN
    ensures v.JArr? && |v.items| == 0 ==> r == Finite(0.0)
    ensures v.JArr? && |v.items| > 1 ==> r == NaN
    ensures v.JArr? && |v.items| == 1 && (v.items[0].JNum? || v.items[0].JStr? || v.items[0].JArr?) ==>
      r == Number(v.items[0])
  {
    match v
    case JUndefined => NaN
    case JNull => Finite(0.0)
    case JBool(b) => Finite(if b then 1.0 else 0.0)
    case JNum(n) => Finite(n)
    case JStr(s) => StringToNumber(s)
    case JArr(items) =>
      if |items| == 0 then Finite(0.0)
      else if |items| > 1 then NaN
      else
        (match items[0]
         case JUndefined => Finite(0.0)
         case JNull => Finite(0.0)
         // "true", "false" and "[object Object]" are not numeric
         case JBool(_) => NaN
         case JObj(_) => NaN
         // the string form of a number converts back to it
         case JNum(n) => Finite(n)
         case JStr(s) => StringToNumber(s)
         case JArr(_) => Number(items[0]))
    case JObj(_) => NaN
  }

  /** `m` followed by `e` and `k`, both strings of decimal digits, is `m` times ten to the `k`
      (`"1e2"` is 100). */
  lemma ExponentLiteral(m: string, k: string)
    requires m != [] && AllDigits(m) && k != [] && AllDigits(k)
    ensures StringToNumber(m + "e" + k) == Finite(Scale(DigitsValue(m) as real, DigitsValue(k)))
  {
    ExponentShape(m, k);
    UnsignedExponent(m, k);
    UnsignedDecimalString(m + "e" + k, Scale(DigitsValue(m) as real, DigitsValue(k)));
  }

  lemma ExponentShape(m: string, k: string)
    requires m != [] && AllDigits(m) && k != [] && AllDigits(k)
    ensures var t := m + "e" + k;
      t != [] && Trim(t) == t && NonDecimalValue(t).None? && t[0] != '+' && t[0] != '-' && t[0] != 'I'
  {
    var t := m + "e" + k;
    assert t[0] == m[0] && t[|t| - 1] == k[|k| - 1];
    assert IsDigit(t[0]) && IsDigit(t[|t| - 1]);
    TrimOfUnpadded(t);
    assert NonDecimalValue(t).None? by {
      if |t| >= 3 {
        assert t[1] == if |m| >= 2 then m[1] else 'e';
      }
    }
  }

  lemma UnsignedExponent(m: string, k: string)
    requires m != [] && AllDigits(m) && k != [] && AllDigits(k)
    ensures UnsignedDecimalValue(m + "e" + k) == Some(Scale(DigitsValue(m) as real, DigitsValue(k)))
  {
    var t := m + "e" + k;
    assert t == m + ("e" + k);
    LeadingDigitsConcat(m, "e" + k);
    assert t[|m|..] == "e" + k && ("e" + k)[1..] == k;
    assert t[..|m|] + [] == m;
    assert ExponentValue(k) == Some(DigitsValue(k) as int) by {
      assert IsDigit(k[0]);
    }
    var rest := t[LeadingDigits(t)..];
    assert rest == "e" + k && rest[0] == 'e' && rest[1..] == k;
  }

  /** A trimmed string that is no infinity, no `0x`/`0o`/`0b` literal and has no sign converts
      as an unsigned decimal literal. */
  lemma UnsignedDecimalString(t: string, x: real)
    requires t != [] && Trim(t) == t && NonDecimalValue(t).None?
    requires t[0] != '+' && t[0] != '-' && t[0] != 'I'
    requires UnsignedDecimalValue(t) == Some(x)
    ensures StringToNumber(t) == Finite(x)
  {
  }

  /** `a.b` with decimal digits `a` (at least one) and `b` (possibly none) is the digits of `a`
      and `b` read together, shifted right by the length of `b` (`"1.25"` is 125 / 100). */
  lemma FractionLiteral(a: string, b: string)
    requires a != [] && AllDigits(a) && AllDigits(b)
    ensures AllDigits(a + b)
    ensures StringToNumber(a + "." + b) == Finite(Scale(DigitsValue(a + b) as real, -|b|))
  {
    FractionShape(a, b);
    UnsignedFraction(a, b);
    UnsignedDecimalString(a + "." + b, Scale(DigitsValue(a + b) as real, -|b|));
  }

  lemma FractionShape(a: string, b: string)
    requires a != [] && AllDigits(a) && AllDigits(b)
    ensures var t := a + "." + b;
      t != [] && Trim(t) == t && NonDecimalValue(t).None? && t[0] != '+' && t[0] != '-' && t[0] != 'I'
  {
    var t := a + "." + b;
    assert t[0] == a[0] && IsDigit(t[0]);
    assert t[|t| - 1] == if b == [] then '.' else b[|b| - 1];
    TrimOfUnpadded(t);
    assert NonDecimalValue(t).None? by {
      if |t| >= 3 {
        assert t[1] == if |a| >= 2 then a[1] else '.';
      }
    }
  }

  lemma UnsignedFraction(a: string, b: string)
    requires a != [] && AllDigits(a) && AllDigits(b)
    ensures AllDigits(a + b)
    ensures UnsignedDecimalValue(a + "." + b) == Some(Scale(DigitsValue(a + b) as real, -|b|))
  {
    FractionParts(a, b);
    LeadingDigitsOfDigits(b);
    assert b[..|b|] == b && b[|b|..] == [];
    AllDigitsConcat(a, b);
  }

  /** How the unsigned-literal reader splits `a.b`. */
  lemma FractionParts(a: string, b: string)
    requires a != [] && AllDigits(a) && AllDigits(b)
    ensures var t := a + "." + b;
      LeadingDigits(t) == |a| && t[..|a|] == a && t[|a|..] == "." + b && ("." + b)[1..] == b
  {
    var t := a + "." + b;
    assert t == a + ("." + b);
    LeadingDigitsConcat(a, "." + b);
  }

  lemma AllDigitsConcat(a: string, b: string)
    requires AllDigits(a) && AllDigits(b)
    ensures AllDigits(a + b)
  {
    assert forall i :: 0 <= i < |a + b| ==> (a + b)[i] == if i < |a| then a[i] else b[i - |a|];
  }

  /** Zeros after the decimal point do not change the value (`"10.0"` is 10). */
  lemma TrailingZeroFraction(n: nat, k: nat)
    ensures StringToNumber(DecimalString(n) + "." + Zeros(k)) == Finite(n as real)
  {
    var a := DecimalString(n);
    FractionLiteral(a, Zeros(k));
    AppendZeros(a, k);
    DecimalStringValue(n);
    Cancel(n, k);
  }

  lemma Cancel(n: nat, k: nat)
    ensures Scale((n * Pow10(k)) as real, -(k as int)) == n as real
  {
    var p := Pow10(k);
    assert (n * p) as real == n as real * p as real;
  }

  /** `k` zero digits. */
  function Zeros(k: nat): (z: string)
    ensures |z| == k && AllDigits(z)
  {
    if k == 0 then [] else Zeros(k - 1) + "0"
  }

  lemma {:induction false} AppendZeros(a: string, k: nat)
    requires AllDigits(a)
    ensures AllDigits(a + Zeros(k)) && DigitsValue(a + Zeros(k)) == DigitsValue(a) * Pow10(k)
  {
    if k == 0 {
      assert a + Zeros(k) == a;
    } else {
      AppendZeros(a, k - 1);
      var s := a + Zeros(k - 1);
      assert a + Zeros(k) == s + "0" by {
        assert Zeros(k) == Zeros(k - 1) + "0";
      }
      AppendZero(s);
      MulTen(DigitsValue(a), Pow10(k - 1));
    }
  }

  lemma AppendZero(s: string)
    requires AllDigits(s)
    ensures AllDigits(s + "0") && DigitsValue(s + "0") == 10 * DigitsValue(s)
  {
    assert (s + "0")[..|s|] == s;
  }

  lemma MulTen(v: nat, p: nat)
    ensures v * (10 * p) == 10 * (v * p)
  {
  }

  /** `0x`, `0o` or `0b` followed by digits of that base is their value (`"0x10"` is 16). */
  lemma NonDecimalLiteral(c: char, d: string)
    requires RadixOf(c) > 0 && d != [] && AllDigitsIn(d, RadixOf(c))
    ensures StringToNumber(['0', c] + d) == Finite(DigitsValueIn(d, RadixOf(c)) as real)
  {
    var t := ['0', c] + d;
    assert t[|t| - 1] == d[|d| - 1];
    TrimOfUnpadded(t);
    assert t[2..] == d;
  }

  /** A sign before a `0x`, `0o` or `0b` literal makes NaN (`"-0x10"`). */
  lemma SignedNonDecimalIsNaN(sign: char, c: char, d: string)
    requires sign == '+' || sign == '-'
    requires RadixOf(c) > 0 && d != [] && AllDigitsIn(d, RadixOf(c))
    ensures StringToNumber([sign, '0', c] + d) == NaN
  {
    var t := [sign, '0', c] + d;
    assert t[|t| - 1] == d[|d| - 1];
    TrimOfUnpadded(t);
    assert t != "Infinity" && t != "+Infinity" && t != "-Infinity" by {
      assert t[1] == '0';
    }
    assert NonDecimalValue(t).None?;
    var u := t[1..];
    assert u == ['0', c] + d;
    assert LeadingDigits(u) == 1 by {
      assert u[1..] == [c] + d;
    }
    assert u[1..] == [c] + d;
  }

  lemma {:induction false} LeadingDigitsConcat(a: string, rest: string)
    requires AllDigits(a)
    requires rest == [] || !IsDigit(rest[0])
    ensures LeadingDigits(a + rest) == |a|
  {
    if a != [] {
      assert (a + rest)[1..] == a[1..] + rest;
      assert AllDigits(a[1..]) by {
        assert forall k :: 0 <= k < |a| - 1 ==> a[1..][k] == a[k + 1];
      }
      LeadingDigitsConcat(a[1..], rest);
    } else {
      assert a + rest == rest;
    }
  }

  /** A string of decimal digits is read in full as an unsigned decimal literal. */
  lemma AllDigitsIsDecimal(s: string)
    requires s != [] && AllDigits(s)
    ensures UnsignedDecimalValue(s) == Some(DigitsValue(s) as real)
  {
    LeadingDigitsOfDigits(s);
    assert s[..|s|] + [] == s;
  }

  lemma {:induction false} LeadingDigitsOfDigits(s: string)
    requires AllDigits(s)
    ensures LeadingDigits(s) == |s|
  {
    if s != [] {
      assert AllDigits(s[1..]) by {
        assert forall k :: 0 <= k < |s| - 1 ==> s[1..][k] == s[k + 1];
      }
      LeadingDigitsOfDigits(s[1..]);
    }
  }

  /** Converting the decimal rendering of a natural number back with `Number` gives the number. */
  lemma NumberOfDecimalString(n: nat)
    ensures StringToNumber(DecimalString(n)) == Finite(n as real)
  {
    var s := DecimalString(n);
    TrimOfUnpadded(s);
    assert Trim(s) == s;
    assert s != "Infinity" && s != "+Infinity" && s != "-Infinity" by {
      assert IsDigit(s[0]);
    }
    assert NonDecimalValue(s).None? by {
      if |s| >= 3 { assert IsDigit(s[1]); }
    }
    assert !(s[0] == '+' || s[0] == '-');
    AllDigitsIsDecimal(s);
    DecimalStringValue(n);
  }

  /** `s.length`: the number of UTF-16 code units, two for a character outside the Basic
      Multilingual Plane. */
  function Utf16Length(s: string): (n: nat)
    ensures |s| <= n <= 2 * |s|
    ensures n == 0 <==> s == []
  {
    if s == [] then 0 else (if s[0] as int > 0xFFFF then 2 else 1) + Utf16Length(s[1..])
  }

  function LowerChar(c: char): char {
    if 'A' <= c <= 'Z' then (c as int + 32) as char else c
  }

  /** `toLowerCase()` on the ASCII letters. */
  function ToLower(s: string): (t: string)
    ensures |t| == |s|
    ensures forall i :: 0 <= i < |s| ==> t[i] == LowerChar(s[i])
  {
    if s == [] then [] else [LowerChar(s[0])] + ToLower(s[1..])
  }

  predicate HasNoUpper(s: string) {
    forall i :: 0 <= i < |s| ==> !('A' <= s[i] <= 'Z')
  }

  lemma LowerCaseResult(s: string)
    ensures HasNoUpper(ToLower(s))
    ensures ToLower(ToLower(s)) == ToLower(s)
  {
  }

  lemma LowerOfLowerCase(s: string)
    requires HasNoUpper(s)
    ensures ToLower(s) == s
  {
  }

  predicate StartsWith(s: string, prefix: string) {
    |prefix| <= |s| && s[..|prefix|] == prefix
  }
}
