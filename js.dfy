/** The JavaScript primitives the dashboard's logic leans on, given an exact
    meaning: `Number(s)` on decimal text, `toString()` of an integer,
    `toLowerCase()` on ASCII letters, `String.prototype.includes`,
    `split(',')` and `Math.round`. */
module Js {

  datatype Option<T> = None | Some(value: T)

  /** A string used as a condition (`if (s)`) is true unless it is missing or empty. */
  predicate Truthy(o: Option<string>) {
    o.Some? && o.value != ""
  }

  // ---------------------------------------------------------------- numbers

  predicate IsDigit(c: char) {
    '0' <= c <= '9'
  }

  function DigitValue(c: char): (d: nat)
    requires IsDigit(c)
    ensures d < 10
  {
    (c as int) - ('0' as int)
  }

  function DigitChar(d: nat): (c: char)
    requires d < 10
    ensures IsDigit(c) && DigitValue(c) == d
  {
    (('0' as int) + d) as char
  }

  predicate AllDigits(s: string) {
    forall i :: 0 <= i < |s| ==> IsDigit(s[i])
  }

  /** The value of a string of decimal digits, most significant digit first. */
  function DigitsValue(s: string): nat
    requires AllDigits(s)
    decreases |s|
  {
    if s == [] then 0 else DigitsValue(s[..|s| - 1]) * 10 + DigitValue(s[|s| - 1])
  }

  /** The white space `Number` skips around its argument: tab, line feed,
      vertical tab, form feed, carriage return, space, no-break space, the
      byte order mark, the line and paragraph separators and the other
      Unicode space separators. */
  predicate IsSpace(c: char) {
    var k := c as int;
    k == 32 || 9 <= k <= 13 || k == 0xA0 || k == 0x1680 || 0x2000 <= k <= 0x200A
    || k == 0x2028 || k == 0x2029 || k == 0x202F || k == 0x205F || k == 0x3000 || k == 0xFEFF
  }

  function TrimStart(s: string): (r: string)
    ensures r == [] || !IsSpace(r[0])
    decreases |s|
  {
    if s != [] && IsSpace(s[0]) then TrimStart(s[1..]) else s
  }

  function TrimEnd(s: string): (r: string)
    ensures r == [] || !IsSpace(r[|r| - 1])
    decreases |s|
  {
    if s != [] && IsSpace(s[|s| - 1]) then TrimEnd(s[..|s| - 1]) else s
  }

  /** The text between the white space at either end. */
  function Trim(s: string): string {
    TrimEnd(TrimStart(s))
  }

  function Pow10(n: nat): (p: nat)
    ensures p >= 1
  {
    if n == 0 then 1 else 10 * Pow10(n - 1)
  }

  /** `n` digits never reach `10^n`. */
  lemma {:induction false} DigitsBelowPow10(s: string)
    requires AllDigits(s)
    ensures DigitsValue(s) < Pow10(|s|)
    decreases |s|
  {
    if s != [] {
      DigitsBelowPow10(s[..|s| - 1]);
    }
  }

  /** So the digits after the point make a fraction below one. */
  lemma FractionBelowOne(f: string)
    requires AllDigits(f)
    ensures DigitsValue(f) as real / Pow10(|f|) as real < 1.0
  {
    DigitsBelowPow10(f);
    QuotientBelowOne(DigitsValue(f) as real, Pow10(|f|) as real);
  }

  lemma QuotientBelowOne(a: real, p: real)
    requires 0.0 <= a < p
    ensures a / p < 1.0
  {
    assert a / p * p == a;
  }

  /** The value of whole digits `w` and fraction digits `f`. */
  function DecimalValue(w: string, f: string): (v: real)
    requires AllDigits(w) && AllDigits(f)
    ensures DigitsValue(w) as real <= v < DigitsValue(w) as real + 1.0
  {
    FractionBelowOne(f);
    DigitsValue(w) as real + DigitsValue(f) as real / Pow10(|f|) as real
  }

  /** `10^e` for a signed exponent. */
  function Scale(e: int): (r: real)
    ensures r > 0.0
  {
    if e >= 0 then Pow10(e) as real else 1.0 / Pow10(-e) as real
  }

  /** A decimal without exponent: digits, or digits and a point and digits,
      with at least one digit in all (`"12"`, `"12.5"`, `"12."`, `".5"`). */
  function Mantissa(t: string): Option<real> {
    if t != [] && AllDigits(t) then Some(DigitsValue(t) as real)
    else
      var parts := Split(t, '.');
      if |parts| == 2 && AllDigits(parts[0]) && AllDigits(parts[1]) && |parts[0]| + |parts[1]| > 0 then
        Some(DecimalValue(parts[0], parts[1]))
      else None
  }

  /** The exponent after `e`: optionally signed digits. */
  function Exponent(t: string): Option<int> {
    if t != [] && AllDigits(t) then Some(DigitsValue(t))
    else if |t| >= 2 && (t[0] == '+' || t[0] == '-') && AllDigits(t[1..]) then
      var v: int := DigitsValue(t[1..]);
      Some(if t[0] == '-' then -v else v)
    else None
  }

  predicate IsExponentMark(c: char) {
    c == 'e' || c == 'E'
  }

  /** Where the exponent mark is, or `|t|` when there is none. */
  function ExponentAt(t: string): (k: nat)
    ensures k <= |t|
    ensures forall i :: 0 <= i < k ==> !IsExponentMark(t[i])
    ensures k < |t| ==> IsExponentMark(t[k])
    decreases |t|
  {
    if t == [] || IsExponentMark(t[0]) then 0 else 1 + ExponentAt(t[1..])
  }

  /** What `Number` gives: NaN, a finite value (read exactly here, not rounded
      to double precision), or an infinity. */
  datatype Number = NaN | Finite(value: real) | Infinite(negative: bool)

  function Negate(n: Number): Number {
    match n
    case NaN => NaN
    case Finite(v) => Finite(-v)
    case Infinite(neg) => Infinite(!neg)
  }

  /** An unsigned decimal literal: `Infinity`, or a decimal with an optional
      exponent. */
  function Unsigned(t: string): Number {
    if t == "Infinity" then Infinite(false)
    else
      var k := ExponentAt(t);
      var m := Mantissa(t[..k]);
      if m.None? then NaN
      else if k == |t| then Finite(m.value)
      else
        var e := Exponent(t[k + 1..]);
        if e.None? then NaN else Finite(m.value * Scale(e.value))
  }

  /** The value of a digit in base 2, 8 or 16, if `c` is one. */
  function RadixDigit(c: char, base: nat): Option<nat> {
    var d :=
      if '0' <= c <= '9' then (c as int) - ('0' as int)
      else if 'a' <= c <= 'f' then (c as int) - ('a' as int) + 10
      else if 'A' <= c <= 'F' then (c as int) - ('A' as int) + 10
      else 16;
    if d < base then Some(d) else None
  }

  /** The value of digits in `base`, most significant first, if all are digits. */
  function RadixValue(s: string, base: nat): Option<nat>
    decreases |s|
  {
    if s == [] then Some(0)
    else
      var high := RadixValue(s[..|s| - 1], base);
      var low := RadixDigit(s[|s| - 1], base);
      if high.None? || low.None? then None else Some(high.value * base + low.value)
  }

  /** The base a `0b`, `0o` or `0x` prefix names, or 0 for any other text. */
  function RadixOf(t: string): nat {
    if |t| < 2 || t[0] != '0' then 0
    else if t[1] == 'b' || t[1] == 'B' then 2
    else if t[1] == 'o' || t[1] == 'O' then 8
    else if t[1] == 'x' || t[1] == 'X' then 16
    else 0
  }

  /** `Number(s)`: white space around the text is ignored, text that is empty
      after that is 0, an unsigned `0b`/`0o`/`0x` literal with at least one
      digit is its value, `Infinity` and decimals with optional point and
      exponent may be signed, and anything else is NaN. */
  function ToNumber(s: string): Number {
    var t := Trim(s);
    if t == [] then Finite(0.0)
    else if RadixOf(t) != 0 then
      var v := RadixValue(t[2..], RadixOf(t));
      if |t| > 2 && v.Some? then Finite(v.value as real) else NaN
    else if t[0] == '-' then Negate(Unsigned(t[1..]))
    else if t[0] == '+' then Unsigned(t[1..])
    else Unsigned(t)
  }

  /** `x >= Number(s)`: every comparison with NaN is false. */
  predicate AtLeast(x: int, n: Number) {
    match n
    case NaN => false
    case Finite(v) => x as real >= v
    case Infinite(neg) => neg
  }

  /** `x < Number(s)`: every comparison with NaN is false. */
  predicate LessThan(x: int, n: Number) {
    match n
    case NaN => false
    case Finite(v) => (x as real) < v
    case Infinite(neg) => !neg
  }

  /** `<` and `>=` are each other's negation on every number but NaN. */
  lemma LessThanIff(x: int, n: Number)
    ensures !LessThan(x, n) <==> n.NaN? || AtLeast(x, n)
  {
  }

  /** Decimal digits of a natural number, without leading zeros. */
  function NatToString(n: nat): (s: string)
    ensures |s| >= 1 && AllDigits(s)
    decreases n
  {
    if n < 10 then [DigitChar(n)] else NatToString(n / 10) + [DigitChar(n % 10)]
  }

  /** `String(n)` / `n.toString()` for an integer. */
  function IntToString(n: int): string {
    if n < 0 then "-" + NatToString(-n) else NatToString(n)
  }

  lemma {:induction false} DigitsRoundTrip(n: nat)
    ensures DigitsValue(NatToString(n)) == n
    decreases n
  {
    if n >= 10 {
      DigitsRoundTrip(n / 10);
      var s := NatToString(n);
      assert s[..|s| - 1] == NatToString(n / 10);
    }
  }

  /** Text with no white space at either end is read as it stands. */
  lemma TrimUntouched(s: string)
    requires s != [] && !IsSpace(s[0]) && !IsSpace(s[|s| - 1])
    ensures Trim(s) == s
  {
  }

  lemma {:induction false} NoExponentMark(t: string)
    requires forall i :: 0 <= i < |t| ==> !IsExponentMark(t[i])
    ensures ExponentAt(t) == |t|
    decreases |t|
  {
    if t != [] {
      NoExponentMark(t[1..]);
    }
  }

  lemma DigitsHaveNoMark(s: string)
    requires AllDigits(s)
    ensures '.' !in s
    ensures forall i :: 0 <= i < |s| ==> !IsExponentMark(s[i])
  {
  }

  /** Text that starts with a digit, with no white space at its end, is read
      as an unsigned literal. */
  lemma ReadsUnsigned(t: string)
    requires t != [] && IsDigit(t[0]) && !IsSpace(t[|t| - 1]) && RadixOf(t) == 0
    ensures ToNumber(t) == Unsigned(t)
  {
    TrimUntouched(t);
  }

  /** Text with a minus sign in front, with no white space at its end, is read
      as the negated unsigned literal after the sign. */
  lemma ReadsNegative(t: string)
    requires |t| >= 2 && t[0] == '-' && !IsSpace(t[|t| - 1])
    ensures ToNumber(t) == Negate(Unsigned(t[1..]))
  {
    TrimUntouched(t);
  }

  /** A literal without exponent mark reads as its mantissa. */
  lemma UnsignedWithoutExponent(t: string)
    requires t != [] && IsDigit(t[0])
    requires forall i :: 0 <= i < |t| ==> !IsExponentMark(t[i])
    requires Mantissa(t).Some?
    ensures Unsigned(t) == Finite(Mantissa(t).value)
  {
    NoExponentMark(t);
    assert t[..|t|] == t;
    assert t != "Infinity" by { assert IsDigit(t[0]); }
  }

  /** A run of decimal digits reads as its value. */
  lemma DigitsNumber(s: string)
    requires s != [] && AllDigits(s)
    ensures ToNumber(s) == Finite(DigitsValue(s) as real)
  {
    assert IsDigit(s[0]) && IsDigit(s[|s| - 1]);
    assert RadixOf(s) == 0 by { if |s| >= 2 { assert IsDigit(s[1]); } }
    ReadsUnsigned(s);
    DigitsHaveNoMark(s);
    UnsignedWithoutExponent(s);
  }

  lemma JoinPair(w: string, f: string, sep: char)
    ensures Join([w, f], sep) == w + [sep] + f
  {
    assert [w, f][1..] == [f];
  }

  /** The exponent-free reading of digits, a point and digits. */
  lemma MantissaDecimal(w: string, f: string)
    requires AllDigits(w) && AllDigits(f) && |w| + |f| > 0
    ensures Mantissa(w + "." + f) == Some(DecimalValue(w, f))
  {
    var t := w + "." + f;
    DigitsHaveNoMark(w);
    DigitsHaveNoMark(f);
    JoinPair(w, f, '.');
    SplitJoin([w, f], '.');
    assert t[|w|] == '.';
    assert !IsDigit(t[|w|]);
  }

  /** Digits, a point and digits read as the whole part plus the fraction. */
  lemma DecimalNumber(w: string, f: string)
    requires w != [] && AllDigits(w) && f != [] && AllDigits(f)
    ensures ToNumber(w + "." + f) == Finite(DecimalValue(w, f))
  {
    var t := w + "." + f;
    assert t[0] == w[0] && t[|t| - 1] == f[|f| - 1];
    assert IsDigit(t[0]) && IsDigit(t[|t| - 1]);
    TrimUntouched(t);
    MantissaDecimal(w, f);
    DigitsHaveNoMark(w);
    DigitsHaveNoMark(f);
    assert forall i :: 0 <= i < |t| ==> !IsExponentMark(t[i]) by {
      forall i | 0 <= i < |t|
        ensures !IsExponentMark(t[i])
      {
        if i < |w| { assert t[i] == w[i]; }
        else if i > |w| { assert t[i] == f[i - |w| - 1]; }
      }
    }
    assert RadixOf(t) == 0 by { assert IsDigit(t[1]) || t[1] == '.'; }
    ReadsUnsigned(t);
    UnsignedWithoutExponent(t);
  }

  /** Reading back what `toString()` printed gives the same integer. */
  lemma NumberOfToString(n: int)
    ensures ToNumber(IntToString(n)) == Finite(n as real)
  {
    var m := if n < 0 then -n else n;
    DigitsRoundTrip(m);
    var d := NatToString(m);
    if n < 0 {
      var s := "-" + d;
      assert IsDigit(d[|d| - 1]);
      assert s[|s| - 1] == d[|d| - 1] && s[1..] == d;
      ReadsNegative(s);
      DigitsHaveNoMark(d);
      assert Mantissa(d) == Some(m as real);
      UnsignedWithoutExponent(d);
      assert ToNumber(s) == Finite(n as real);
    } else {
      DigitsNumber(d);
    }
  }

  // Readings of text a user may type into a numeric filter.

  lemma ReadsFraction()
    ensures ToNumber("2.5") == Finite(2.5)
  {
    assert !IsSpace('2') && !IsSpace('5');
    assert TrimStart("2.5") == "2.5";
    assert TrimEnd("2.5") == "2.5";
    assert ExponentAt("2.5") == 3;
    assert "2.5"[..3] == "2.5";
    assert !AllDigits("2.5") by { assert !IsDigit("2.5"[1]); }
    assert Split("2.5", '.') == ["2", "5"] by {
      JoinPair("2", "5", '.');
      SplitJoin(["2", "5"], '.');
    }
    assert DigitsValue("2") == 2 && DigitsValue("5") == 5 by { assert "2"[..0] == "5"[..0] == ""; }
    assert Pow10(1) == 10;
    assert DecimalValue("2", "5") == 2.5;
  }

  lemma TrimPadded()
    ensures Trim(" 10") == "10"
  {
    assert IsSpace(' ') && !IsSpace('1') && !IsSpace('0');
    assert " 10"[1..] == "10";
    assert TrimStart("10") == "10";
    assert TrimEnd("10") == "10";
  }

  lemma ReadsTen()
    ensures ToNumber("10") == Finite(10.0)
  {
    assert !IsSpace('1') && !IsSpace('0');
    assert TrimStart("10") == "10";
    assert TrimEnd("10") == "10";
    assert ExponentAt("10") == 2;
    assert "10"[..2] == "10";
    assert DigitsValue("10") == 10 by { assert "10"[..1] == "1" && "1"[..0] == ""; }
  }

  lemma ReadsPadded()
    ensures ToNumber(" 10") == Finite(10.0)
  {
    TrimPadded();
    assert ExponentAt("10") == 2;
    assert "10"[..2] == "10";
    assert DigitsValue("10") == 10 by { assert "10"[..1] == "1" && "1"[..0] == ""; }
  }

  lemma ReadsTrailingLetterAsNaN()
    ensures ToNumber("10M") == NaN
  {
    assert !IsSpace('1') && !IsSpace('M');
    assert TrimStart("10M") == "10M";
    assert TrimEnd("10M") == "10M";
    assert ExponentAt("10M") == 3;
    assert "10M"[..3] == "10M";
    assert !AllDigits("10M") by { assert !IsDigit("10M"[2]); }
    assert Split("10M", '.') == ["10M"] by {
      assert Join(["10M"], '.') == "10M";
      SplitJoin(["10M"], '.');
    }
  }
  lemma ReadsExponent()
    ensures ToNumber("1e3") == Finite(1000.0)
  {
    assert !IsSpace('1') && !IsSpace('3');
    assert TrimStart("1e3") == "1e3";
    assert TrimEnd("1e3") == "1e3";
    assert ExponentAt("1e3") == 1;
    assert "1e3"[..1] == "1" && "1e3"[2..] == "3";
    assert DigitsValue("1") == 1 && DigitsValue("3") == 3 by { assert "1"[..0] == "3"[..0] == ""; }
    assert Mantissa("1") == Some(1.0);
    assert Exponent("3") == Some(3);
    assert Scale(3) == 1000.0;
  }

  lemma ReadsHex()
    ensures ToNumber("0x1A") == Finite(26.0)
  {
    assert !IsSpace('0') && !IsSpace('A');
    assert TrimStart("0x1A") == "0x1A";
    assert TrimEnd("0x1A") == "0x1A";
    assert RadixOf("0x1A") == 16;
    assert RadixValue("1A", 16) == Some(26) by {
      assert RadixValue("1", 16) == Some(1) by { assert "1"[..0] == ""; }
      assert "1A"[..1] == "1";
    }
    assert "0x1A"[2..] == "1A";
  }

  lemma ReadsNegativeInfinity()
    ensures ToNumber("-Infinity") == Infinite(true)
  {
    ReadsNegative("-Infinity");
    assert "-Infinity"[1..] == "Infinity";
  }

  // ---------------------------------------------------------------- strings

  /** `c.toLowerCase()` for one character: ASCII capitals map to small letters. */
  function LowerChar(c: char): char {
    if 'A' <= c <= 'Z' then ((c as int) + 32) as char else c
  }

  /** `s.toLowerCase()`, character by character. */
  function Lower(s: string): (r: string)
    ensures |r| == |s|
    ensures forall i :: 0 <= i < |s| ==> r[i] == LowerChar(s[i])
  {
    seq(|s|, i requires 0 <= i < |s| => LowerChar(s[i]))
  }

  lemma LowerIdempotent(s: string)
    ensures Lower(Lower(s)) == Lower(s)
  {
  }

  predicate IsPrefix(p: string, s: string) {
    |p| <= |s| && s[..|p|] == p
  }

  /** `hay.includes(needle)`, searched position by position from the left. */
  predicate Includes(hay: string, needle: string)
    decreases |hay|
  {
    IsPrefix(needle, hay) || (hay != [] && Includes(hay[1..], needle))
  }

  /** `needle` occurs in `hay` at position `i`. */
  ghost predicate OccursAt(hay: string, needle: string, i: int) {
    0 <= i && i + |needle| <= |hay| && hay[i..i + |needle|] == needle
  }

  /** The left-to-right search finds `needle` exactly when it occurs somewhere. */
  lemma {:induction false} IncludesIff(hay: string, needle: string)
    ensures Includes(hay, needle) <==> exists i :: OccursAt(hay, needle, i)
    decreases |hay|
  {
    if IsPrefix(needle, hay) {
      assert OccursAt(hay, needle, 0);
    } else if hay == [] {
    } else {
      IncludesIff(hay[1..], needle);
      if exists i :: OccursAt(hay[1..], needle, i) {
        var i :| OccursAt(hay[1..], needle, i);
        assert hay[i + 1..i + 1 + |needle|] == hay[1..][i..i + |needle|];
        assert OccursAt(hay, needle, i + 1);
      }
      if exists i :: OccursAt(hay, needle, i) {
        var i :| OccursAt(hay, needle, i);
        if i == 0 {
          assert false;
        }
        assert hay[1..][i - 1..i - 1 + |needle|] == hay[i..i + |needle|];
        assert OccursAt(hay[1..], needle, i - 1);
      }
    }
  }

  /** `s.split(sep)`: the pieces between separators, always at least one. */
  function Split(s: string, sep: char): (r: seq<string>)
    ensures |r| >= 1
    ensures forall k :: 0 <= k < |r| ==> sep !in r[k]
    decreases |s|
  {
    if s == [] then [""]
    else
      var rest := Split(s[1..], sep);
      if s[0] == sep then [""] + rest
      else [[s[0]] + rest[0]] + rest[1..]
  }

  /** `parts.join(sep)`. */
  function Join(parts: seq<string>, sep: char): string
    decreases |parts|
  {
    if |parts| == 0 then ""
    else if |parts| == 1 then parts[0]
    else parts[0] + [sep] + Join(parts[1..], sep)
  }

  /** Joining the pieces of a split gives the original string back. */
  lemma {:induction false} JoinSplit(s: string, sep: char)
    ensures Join(Split(s, sep), sep) == s
    decreases |s|
  {
    if s != [] {
      JoinSplit(s[1..], sep);
      var rest := Split(s[1..], sep);
      if s[0] == sep {
        assert Split(s, sep) == [""] + rest;
        assert ([""] + rest)[1..] == rest;
        assert s == [sep] + s[1..];
      } else {
        var r := Split(s, sep);
        assert r == [[s[0]] + rest[0]] + rest[1..];
        if |rest| == 1 {
          assert s == [s[0]] + rest[0];
        } else {
          assert r[1..] == rest[1..];
          assert Join(rest, sep) == rest[0] + [sep] + Join(rest[1..], sep);
          assert s == [s[0]] + s[1..];
        }
      }
    }
  }

  /** Splitting a join of separator-free pieces gives the pieces back. */
  lemma {:induction false} SplitJoin(parts: seq<string>, sep: char)
    requires |parts| >= 1
    requires forall k :: 0 <= k < |parts| ==> sep !in parts[k]
    ensures Split(Join(parts, sep), sep) == parts
    decreases |parts|, |parts[0]|
  {
    var p := parts[0];
    if p == [] {
      if |parts| > 1 {
        SplitJoin(parts[1..], sep);
        var j := Join(parts, sep);
        assert j == [sep] + Join(parts[1..], sep);
        assert j[1..] == Join(parts[1..], sep);
        assert [""] + parts[1..] == parts;
      }
    } else {
      var tail := [p[1..]] + parts[1..];
      assert tail[1..] == parts[1..];
      SplitJoin(tail, sep);
      assert p == [p[0]] + p[1..];
      var j := Join(parts, sep);
      var jt := Join(tail, sep);
      if |parts| == 1 {
        assert j == p && jt == p[1..];
      } else {
        assert j == p + [sep] + Join(parts[1..], sep);
        assert jt == p[1..] + [sep] + Join(parts[1..], sep);
      }
      assert j[0] == p[0] && j[1..] == jt;
      assert p[0] != sep by { assert p[0] in parts[0]; }
      var r := Split(jt, sep);
      assert r == tail;
      assert [[p[0]] + r[0]] + r[1..] == parts;
    }
  }

  /** `Math.round(x)`: the nearest integer, halves rounded up. */
  function Round(x: real): (n: int)
    ensures n as real - 0.5 <= x < n as real + 0.5
  {
    (x + 0.5).Floor
  }
}
