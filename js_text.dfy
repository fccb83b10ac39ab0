/**
 * The JavaScript string and number primitives that the application's logic leans on:
 * `toLowerCase`, `includes`, `trim`, `split`, `join`, `Number(...)`, `parseFloat`,
 * `parseInt`, truthiness and template-literal rendering of integers.
 */
module JsText {

  /** The result of `parseInt`: an integer, or NaN. */
  datatype Parsed<T> = NaN | Finite(value: T)

  /** A JavaScript number as `Number(...)` and `parseFloat` produce it: NaN, a finite value
      (an exact real), or positive or negative Infinity. */
  datatype Num = NotANumber | Real(value: real) | Infinity(positive: bool)

  /** A JavaScript number is truthy unless it is NaN or zero. */
  predicate TruthyNum(p: Num) {
    p.Infinity? || (p.Real? && p.value != 0.0)
  }

  predicate TruthyInt(p: Parsed<int>) {
    p.Finite? && p.value != 0
  }

  /** `x <= p` for a finite real `x`: every comparison with NaN is false, and every finite
      value lies below Infinity. */
  predicate AtMost(x: real, p: Num) {
    p == Infinity(true) || (p.Real? && x <= p.value)
  }

  /** `x >= p` for a finite real `x`. */
  predicate AtLeast(x: real, p: Num) {
    p == Infinity(false) || (p.Real? && x >= p.value)
  }

  // ---------------------------------------------------------------- characters

  /** The code points JavaScript treats as white space (WhiteSpace and LineTerminator):
      the set `trim` removes and the regular-expression class `\s` matches. */
  predicate IsSpace(c: char) {
    || c == '\t' || c == '\n' || c == '\U{B}' || c == '\U{C}' || c == '\r' || c == ' '
    || c == '\U{A0}' || c == '\U{1680}' || ('\U{2000}' <= c <= '\U{200A}')
    || c == '\U{2028}' || c == '\U{2029}' || c == '\U{202F}' || c == '\U{205F}'
    || c == '\U{3000}' || c == '\U{FEFF}'
  }

  predicate IsDigit(c: char) {
    '0' <= c <= '9'
  }

  predicate AllDigits(s: string) {
    forall i :: 0 <= i < |s| ==> IsDigit(s[i])
  }

  /** Lower-casing, restricted to the ASCII letters. */
  function LowerChar(c: char): (r: char)
    ensures 'A' <= c <= 'Z' ==> r as int == c as int + 32
    ensures !('A' <= c <= 'Z') ==> r == c
  {
    if 'A' <= c <= 'Z' then (c as int + 32) as char else c
  }

  /** `s.toLowerCase()` on ASCII letters; every other code point is kept. */
  function Lower(s: string): (r: string)
    ensures |r| == |s|
    ensures forall i :: 0 <= i < |s| ==> r[i] == LowerChar(s[i])
  {
    if s == [] then [] else [LowerChar(s[0])] + Lower(s[1..])
  }

  lemma LowerAppend(a: string, b: string)
    ensures Lower(a + b) == Lower(a) + Lower(b)
  {
  }

  // ---------------------------------------------------------------- includes

  predicate StartsWith(s: string, prefix: string) {
    |prefix| <= |s| && s[..|prefix|] == prefix
  }

  /** `s.includes(sub)`: is `sub` a contiguous piece of `s`? */
  predicate Includes(s: string, sub: string)
    decreases |s|
  {
    StartsWith(s, sub) || (s != [] && Includes(s[1..], sub))
  }

  /** `sub` occurs in `s` starting at index `i`. */
  predicate OccursAt(s: string, sub: string, i: int) {
    0 <= i <= |s| - |sub| && s[i..i + |sub|] == sub
  }

  /** `includes` agrees with the positional definition of a substring. */
  lemma {:induction false} IncludesAt(s: string, sub: string)
    ensures Includes(s, sub) <==> exists i :: OccursAt(s, sub, i)
  {
    if StartsWith(s, sub) {
      assert OccursAt(s, sub, 0);
    } else if s != [] {
      IncludesAt(s[1..], sub);
      if Includes(s[1..], sub) {
        var i :| OccursAt(s[1..], sub, i);
        OccursShift(s, sub, i);
      } else {
        forall i | 0 <= i <= |s| - |sub| ensures !OccursAt(s, sub, i) {
          if i > 0 && OccursAt(s, sub, i) {
            OccursUnshift(s, sub, i);
          }
        }
      }
    }
  }

  /** An occurrence in the tail of `s` is an occurrence in `s`, one place further on. */
  lemma OccursShift(s: string, sub: string, i: int)
    requires s != [] && OccursAt(s[1..], sub, i)
    ensures OccursAt(s, sub, i + 1)
  {
    assert s[i + 1..i + 1 + |sub|] == s[1..][i..i + |sub|];
  }

  /** An occurrence in `s` past its first place is an occurrence in its tail. */
  lemma OccursUnshift(s: string, sub: string, i: int)
    requires s != [] && i > 0 && OccursAt(s, sub, i)
    ensures OccursAt(s[1..], sub, i - 1)
  {
    var t := s[1..];
    assert |t| == |s| - 1;
    assert forall j :: i <= j < i + |sub| ==> t[j - 1] == s[j];
    assert t[i - 1..i - 1 + |sub|] == s[i..i + |sub|];
  }

  /** The empty string is part of every string, and every string is part of itself. */
  lemma {:induction false} IncludesSelf(s: string)
    ensures Includes(s, "") && Includes(s, s)
  {
    assert StartsWith(s, "");
    assert s[..|s|] == s;
  }

  // ---------------------------------------------------------------- trim

  function TrimStart(s: string): (r: string)
    ensures |r| <= |s| && r == s[|s| - |r|..]
    ensures r != [] ==> !IsSpace(r[0])
    ensures forall i :: 0 <= i < |s| - |r| ==> IsSpace(s[i])
  {
    if s != [] && IsSpace(s[0]) then TrimStart(s[1..]) else s
  }

  function TrimEnd(s: string): (r: string)
    ensures |r| <= |s| && r == s[..|r|]
    ensures r != [] ==> !IsSpace(r[|r| - 1])
    ensures forall i :: |r| <= i < |s| ==> IsSpace(s[i])
  {
    if s != [] && IsSpace(s[|s| - 1]) then TrimEnd(s[..|s| - 1]) else s
  }

  /** `s.trim()`. */
  function Trim(s: string): string {
    TrimEnd(TrimStart(s))
  }

  /** Trimming leaves nothing exactly when the input is all white space. */
  lemma TrimEmpty(s: string)
    ensures Trim(s) == [] <==> forall i :: 0 <= i < |s| ==> IsSpace(s[i])
  {
    var a := TrimStart(s);
    var k := |s| - |a|;
    if Trim(s) == [] {
      assert a == [];
    } else {
      assert a[0] == s[k] && !IsSpace(s[k]);
    }
  }

  /** The trimmed string is a piece of the input. */
  lemma TrimIncluded(s: string)
    ensures Includes(s, Trim(s))
  {
    var a := TrimStart(s);
    var t := Trim(s);
    var k := |s| - |a|;
    assert s[k..k + |t|] == t;
    assert OccursAt(s, t, k);
    IncludesAt(s, t);
  }

  /** The trimmed string is empty exactly when the input is all white space; otherwise it
      is a piece of the input that neither starts nor ends with white space. */
  lemma TrimSpec(s: string)
    ensures Trim(s) == [] <==> forall i :: 0 <= i < |s| ==> IsSpace(s[i])
    ensures Trim(s) != [] ==> !IsSpace(Trim(s)[0]) && !IsSpace(Trim(s)[|Trim(s)| - 1])
    ensures Includes(s, Trim(s))
  {
    TrimEmpty(s);
    TrimIncluded(s);
  }

  // ---------------------------------------------------------------- split and join

  /** `s.split(sep)` for a one-character separator. */
  function Split(s: string, sep: char): (parts: seq<string>)
    ensures |parts| >= 1
  {
    if s == [] then [""]
    else
      var rest := Split(s[1..], sep);
      if s[0] == sep then [""] + rest else [[s[0]] + rest[0]] + rest[1..]
  }

  /** A string without the separator splits into itself. */
  lemma {:induction false} SplitWithout(s: string, sep: char)
    requires sep !in s
    ensures Split(s, sep) == [s]
  {
    if s != [] {
      SplitWithout(s[1..], sep);
      assert [s[0]] + s[1..] == s;
    }
  }

  /** `(a + sep + b).split(sep)` gives back `[a, b]` when neither part holds the separator. */
  lemma {:induction false} SplitPair(a: string, b: string, sep: char)
    requires sep !in a && sep !in b
    ensures Split(a + [sep] + b, sep) == [a, b]
  {
    if a == [] {
      assert a + [sep] + b == [sep] + b;
      assert ([sep] + b)[1..] == b;
      SplitWithout(b, sep);
    } else {
      var s := a + [sep] + b;
      assert s[1..] == a[1..] + [sep] + b;
      SplitPair(a[1..], b, sep);
      assert [a[0]] + a[1..] == a;
    }
  }

  /** `parts.join(sep)`: also the string JavaScript makes of an array of strings
      (with `sep == ","`). */
  function Join(parts: seq<string>, sep: string): string {
    if parts == [] then ""
    else if |parts| == 1 then parts[0]
    else parts[0] + sep + Join(parts[1..], sep)
  }

  /** Splitting and joining back with the same separator gives the original string. */
  lemma {:induction false} JoinSplit(s: string, sep: char)
    ensures Join(Split(s, sep), [sep]) == s
  {
    if s != [] {
      var rest := Split(s[1..], sep);
      JoinSplit(s[1..], sep);
      if s[0] == sep {
        assert Split(s, sep) == [""] + rest;
        assert ([""] + rest)[1..] == rest;
        assert s == [sep] + s[1..];
      } else {
        var parts := [[s[0]] + rest[0]] + rest[1..];
        assert Split(s, sep) == parts;
        if |rest| == 1 {
          assert s == [s[0]] + rest[0];
        } else {
          assert parts[1..] == rest[1..];
          assert Join(rest, [sep]) == rest[0] + [sep] + Join(rest[1..], [sep]);
          assert Join(parts, [sep]) == parts[0] + [sep] + Join(rest[1..], [sep]);
          assert s == [s[0]] + s[1..];
        }
      }
    }
  }

  /** The characters of a string, one string each: what spreading a string (`[...s]`) yields. */
  function Chars(s: string): (r: seq<string>)
    ensures |r| == |s|
    ensures forall i :: 0 <= i < |s| ==> r[i] == [s[i]]
  {
    if s == [] then [] else [[s[0]]] + Chars(s[1..])
  }

  // ---------------------------------------------------------------- digits

  function DigitValue(c: char): (n: nat)
    requires IsDigit(c)
    ensures n < 10
  {
    c as int - '0' as int
  }

  function DigitChar(n: nat): (c: char)
    requires n < 10
    ensures IsDigit(c) && DigitValue(c) == n
  {
    ('0' as int + n) as char
  }

  /** The value of a string of decimal digits (the empty string has value 0). */
  function DigitsValue(s: string): nat
    requires AllDigits(s)
  {
    if s == [] then 0 else 10 * DigitsValue(s[..|s| - 1]) + DigitValue(s[|s| - 1])
  }

  function Pow10(n: nat): (r: nat)
    ensures r >= 1
  {
    if n == 0 then 1 else 10 * Pow10(n - 1)
  }

  /** The longest prefix of `s` made of decimal digits. */
  function LeadingDigits(s: string): (d: string)
    ensures AllDigits(d) && |d| <= |s| && d == s[..|d|]
    ensures |d| < |s| ==> !IsDigit(s[|d|])
  {
    if s != [] && IsDigit(s[0]) then [s[0]] + LeadingDigits(s[1..]) else ""
  }

  lemma {:induction false} LeadingDigitsAll(s: string)
    requires AllDigits(s)
    ensures LeadingDigits(s) == s
  {
    if s != [] {
      LeadingDigitsAll(s[1..]);
    }
  }

  /** Template-literal rendering `${n}` of a natural number. */
  function NatText(n: nat): (s: string)
    ensures AllDigits(s) && |s| >= 1
  {
    if n < 10 then [DigitChar(n)] else NatText(n / 10) + [DigitChar(n % 10)]
  }

  /** Template-literal rendering `${i}` of an integer. */
  function IntText(i: int): string {
    if i < 0 then "-" + NatText(-i) else NatText(i)
  }

  /** Reading back the digits of a rendered natural number gives the number. */
  lemma {:induction false} NatTextValue(n: nat)
    ensures DigitsValue(NatText(n)) == n
  {
    if n >= 10 {
      NatTextValue(n / 10);
      var s := NatText(n);
      assert s[..|s| - 1] == NatText(n / 10);
    }
  }

  /** Rendering is injective: distinct numbers never render alike. */
  lemma NatTextInjective(m: nat, n: nat)
    requires NatText(m) == NatText(n)
    ensures m == n
  {
    NatTextValue(m);
    NatTextValue(n);
  }

  // ---------------------------------------------------------------- conversions

  function Negate(p: Num): Num {
    match p
    case NotANumber => NotANumber
    case Real(v) => Real(-v)
    case Infinity(positive) => Infinity(!positive)
  }

  /** `m` times `10^e`: the value of a mantissa with an exponent part. */
  function Scaled(m: real, e: int): real {
    if e >= 0 then m * Pow10(e) as real else m / Pow10(-e) as real
  }

  /** A literal read from the start of a text: its value and the number of characters it
      takes, or nothing when the text does not start with one. */
  datatype Prefix<T> = NoPrefix | Prefix(value: T, len: nat)

  /** The mantissa at the start of `u`: `digits`, `digits.`, `digits.digits` or `.digits`. */
  function Mantissa(u: string): (r: Prefix<real>)
    ensures r.Prefix? ==> 0 < r.len <= |u|
    ensures r.Prefix? <==> LeadingDigits(u) != [] || (|u| > 1 && u[0] == '.' && IsDigit(u[1]))
  {
    var a := LeadingDigits(u);
    var rest := u[|a|..];
    if rest != [] && rest[0] == '.' then
      var b := LeadingDigits(rest[1..]);
      if a == [] && b == [] then NoPrefix
      else Prefix(DigitsValue(a) as real + DigitsValue(b) as real / Pow10(|b|) as real, |a| + 1 + |b|)
    else if a == [] then NoPrefix
    else Prefix(DigitsValue(a) as real, |a|)
  }

  /** The exponent part at the start of `u`: `e` or `E`, an optional sign, and at least one
      digit. */
  function ExponentPart(u: string): (r: Prefix<int>)
    ensures r.Prefix? ==> 1 < r.len <= |u| && (u[0] == 'e' || u[0] == 'E')
  {
    if u == [] || (u[0] != 'e' && u[0] != 'E') then NoPrefix
    else
      var signs := if |u| > 1 && (u[1] == '+' || u[1] == '-') then 2 else 1;
      var d := LeadingDigits(u[signs..]);
      if d == [] then NoPrefix
      else Prefix(if signs == 2 && u[1] == '-' then -(DigitsValue(d) as int) else DigitsValue(d), signs + |d|)
  }

  /** The longest unsigned decimal literal at the start of `u`, as section 7.1.4.1.1 of
      ECMA-262 (StrUnsignedDecimalLiteral) defines it: `Infinity`, or a mantissa followed by an
      optional exponent part. */
  function UnsignedPrefix(u: string): (r: Prefix<Num>)
    ensures r.Prefix? ==> 0 < r.len <= |u|
  {
    if StartsWith(u, "Infinity") then Prefix(Infinity(true), 8)
    else
      var m := Mantissa(u);
      if m.NoPrefix? then NoPrefix
      else
        var e := ExponentPart(u[m.len..]);
        if e.NoPrefix? then Prefix(Real(m.value), m.len)
        else Prefix(Real(Scaled(m.value, e.value)), m.len + e.len)
  }

  /** The value of `c` as a digit in base `radix` (letters in either case), or -1 when it is
      not one. */
  function RadixDigit(c: char, radix: nat): (v: int)
    ensures -1 <= v < radix
  {
    var v := if '0' <= c <= '9' then c as int - '0' as int
      else if 'a' <= c <= 'f' then c as int - 'a' as int + 10
      else if 'A' <= c <= 'F' then c as int - 'A' as int + 10
      else -1;
    if v < radix then v else -1
  }

  predicate AllRadix(s: string, radix: nat) {
    forall i :: 0 <= i < |s| ==> RadixDigit(s[i], radix) >= 0
  }

  /** The value of a string of base-`radix` digits. */
  function RadixValue(s: string, radix: nat): nat
    requires AllRadix(s, radix)
  {
    if s == [] then 0
    else
      assert RadixDigit(s[|s| - 1], radix) >= 0;
      radix * RadixValue(s[..|s| - 1], radix) + RadixDigit(s[|s| - 1], radix)
  }

  /** The base a `0x`, `0o` or `0b` prefix (either case of the letter) announces, or 0 when
      the text has none. */
  function RadixOf(t: string): (radix: nat)
    ensures radix in {0, 2, 8, 16}
  {
    if |t| < 2 || t[0] != '0' then 0
    else if t[1] == 'x' || t[1] == 'X' then 16
    else if t[1] == 'o' || t[1] == 'O' then 8
    else if t[1] == 'b' || t[1] == 'B' then 2
    else 0
  }

  /** `Number(s)` (section 7.1.4.1 of ECMA-262): surrounding white space is ignored and the
      empty string is 0; an unsigned `0x`/`0o`/`0b` literal is read in its base; otherwise an
      optional sign and an unsigned decimal literal must make up the whole text, and anything
      else is NaN. */
  function ToNumber(s: string): Num {
    var t := Trim(s);
    var radix := RadixOf(t);
    if t == [] then Real(0.0)
    else if radix != 0 then
      if |t| > 2 && AllRadix(t[2..], radix) then Real(RadixValue(t[2..], radix) as real) else NotANumber
    else
      var body := if t[0] == '-' || t[0] == '+' then t[1..] else t;
      var p := UnsignedPrefix(body);
      if p.NoPrefix? || p.len != |body| then NotANumber
      else if t[0] == '-' then Negate(p.value)
      else p.value
  }

  /** `parseFloat(s)`: leading white space and an optional sign, then the longest unsigned
      decimal literal; NaN when there is none. */
  function ParseFloat(s: string): Num {
    var t := TrimStart(s);
    var body := if t != [] && (t[0] == '-' || t[0] == '+') then t[1..] else t;
    var p := UnsignedPrefix(body);
    if p.NoPrefix? then NotANumber
    else if t[0] == '-' then Negate(p.value)
    else p.value
  }

  /** `parseInt(s)` read as decimal digits only (no `0x` prefix): leading white space and an
      optional sign, then the longest prefix of decimal digits; NaN when there is none. */
  function ParseInt(s: string): Parsed<int> {
    var t := TrimStart(s);
    var negative := t != [] && t[0] == '-';
    var body := if t != [] && (t[0] == '-' || t[0] == '+') then t[1..] else t;
    var d := LeadingDigits(body);
    if d == [] then NaN
    else if negative then Finite(-(DigitsValue(d) as int))
    else Finite(DigitsValue(d))
  }

  /** Digits are not white space, so trimming leaves a digit string alone. */
  lemma TrimDigits(d: string)
    requires AllDigits(d)
    ensures TrimStart(d) == d && Trim(d) == d
  {
    forall i | 0 <= i < |d| ensures !IsSpace(d[i]) {
      assert IsDigit(d[i]);
    }
    if d != [] {
      assert !IsSpace(d[0]) && !IsSpace(d[|d| - 1]);
    }
  }

  /** Digits followed by the end of the text or by a character that can neither continue
      them nor start a fraction or an exponent make an unsigned literal of exactly those
      digits. */
  lemma {:induction false} UnsignedDigits(d: string, rest: string)
    requires d != [] && AllDigits(d)
    requires rest == [] || (!IsDigit(rest[0]) && rest[0] !in ".eE")
    ensures UnsignedPrefix(d + rest) == Prefix(Real(DigitsValue(d) as real), |d|)
  {
    var u := d + rest;
    if rest == [] {
      assert u == d;
      LeadingDigitsAll(d);
    } else {
      LeadingDigitsPrefix(d, rest);
    }
    assert u[|d|..] == rest;
    assert Mantissa(u) == Prefix(DigitsValue(d) as real, |d|);
    assert ExponentPart(rest) == NoPrefix;
    DigitNotInfinity(u);
  }

  /** A text of digits announces no base. */
  lemma RadixOfDigits(d: string)
    requires d != [] && AllDigits(d)
    ensures RadixOf(d) == 0
  {
    if |d| > 1 {
      assert IsDigit(d[1]);
    }
  }

  /** A non-empty string of digits converts to its value under both `Number` and
      `parseFloat`. */
  lemma NumberOfDigits(d: string)
    requires d != [] && AllDigits(d)
    ensures ToNumber(d) == Real(DigitsValue(d) as real)
    ensures ParseFloat(d) == Real(DigitsValue(d) as real)
  {
    var v := Real(DigitsValue(d) as real);
    TrimDigits(d);
    UnsignedDigits(d, "");
    assert d + "" == d;
    RadixOfDigits(d);
    assert IsDigit(d[0]);
    ToNumberUnsigned(d, v);
    ParseFloatUnsigned(d, v, |d|);
  }

  /** A rendered natural number converts back to itself under `Number` and `parseFloat`. */
  lemma NumberOfNatText(n: nat)
    ensures ToNumber(NatText(n)) == Real(n as real)
    ensures ParseFloat(NatText(n)) == Real(n as real)
  {
    NumberOfDigits(NatText(n));
    NatTextValue(n);
  }

  /** An unsigned literal that starts with a digit or with `Infinity` is what `parseFloat`
      reads. */
  lemma ParseFloatUnsigned(u: string, v: Num, n: nat)
    requires u != [] && (IsDigit(u[0]) || u[0] == 'I')
    requires UnsignedPrefix(u) == Prefix(v, n)
    ensures ParseFloat(u) == v
  {
    assert !IsSpace(u[0]);
    assert TrimStart(u) == u;
  }

  /** An unsigned literal that makes up the whole of an untrimmed text, with no base prefix,
      is what `Number` reads. */
  lemma ToNumberUnsigned(u: string, v: Num)
    requires u != [] && Trim(u) == u && RadixOf(u) == 0 && u[0] != '-' && u[0] != '+'
    requires UnsignedPrefix(u) == Prefix(v, |u|)
    ensures ToNumber(u) == v
  {
  }

  /** A text that starts with a digit does not start with `Infinity`. */
  lemma DigitNotInfinity(u: string)
    requires u != [] && IsDigit(u[0])
    ensures !StartsWith(u, "Infinity")
  {
    assert u[0] != 'I';
  }

  /** An `e` followed by digits is an exponent part worth those digits. */
  lemma ExponentDigits(e: string)
    requires e != [] && AllDigits(e)
    ensures ExponentPart("e" + e) == Prefix(DigitsValue(e) as int, 1 + |e|)
  {
    var tail := "e" + e;
    assert IsDigit(e[0]);
    assert tail[1..] == e;
    LeadingDigitsAll(e);
  }

  /** Digits followed by a character that neither continues them nor starts a fraction
      make a mantissa of exactly those digits. */
  lemma MantissaDigits(d: string, tail: string)
    requires d != [] && AllDigits(d)
    requires tail != [] && !IsDigit(tail[0]) && tail[0] != '.'
    ensures Mantissa(d + tail) == Prefix(DigitsValue(d) as real, |d|)
    ensures (d + tail)[|d|..] == tail
  {
    LeadingDigitsPrefix(d, tail);
    assert (d + tail)[|d|..] == tail;
  }

  /** A mantissa followed by an exponent part, in a text that does not spell `Infinity`. */
  lemma UnsignedScaled(u: string, mv: real, ml: nat, xv: int, xl: nat)
    requires !StartsWith(u, "Infinity")
    requires Mantissa(u) == Prefix(mv, ml)
    requires ml <= |u| && ExponentPart(u[ml..]) == Prefix(xv, xl)
    ensures UnsignedPrefix(u) == Prefix(Real(Scaled(mv, xv)), ml + xl)
  {
  }

  /** The unsigned literal of digits, an `e` and digits. */
  lemma UnsignedExponent(u: string, d: string, e: string)
    requires d != [] && AllDigits(d) && e != [] && AllDigits(e)
    requires u == d + ("e" + e)
    ensures UnsignedPrefix(u) == Prefix(Real(Scaled(DigitsValue(d) as real, DigitsValue(e))), |u|)
  {
    MantissaDigits(d, "e" + e);
    ExponentDigits(e);
    DigitNotInfinity(u);
    UnsignedScaled(u, DigitsValue(d) as real, |d|, DigitsValue(e), 1 + |e|);
  }

  /** A text that starts with a digit followed by a digit, an `e` or a `+`, or by nothing,
      announces no base. */
  lemma RadixOfDigitStart(u: string)
    requires u != [] && IsDigit(u[0])
    requires |u| > 1 ==> IsDigit(u[1]) || u[1] == 'e' || u[1] == '+'
    ensures RadixOf(u) == 0
  {
  }

  /** Digits, an `e` and digits make a decimal literal scaled by that power of ten, under
      both `Number` and `parseFloat`. */
  lemma ExponentLiteral(u: string, d: string, e: string)
    requires d != [] && AllDigits(d) && e != [] && AllDigits(e)
    requires u == d + ("e" + e)
    ensures ToNumber(u) == Real(Scaled(DigitsValue(d) as real, DigitsValue(e)))
    ensures ParseFloat(u) == Real(Scaled(DigitsValue(d) as real, DigitsValue(e)))
  {
    var v := Real(Scaled(DigitsValue(d) as real, DigitsValue(e)));
    UnsignedExponent(u, d, e);
    ExponentText(u, d, e);
    WholeUnsigned(u, v);
  }

  /** A whole unsigned literal that starts with a digit, ends with no white space and
      announces no base reads the same under `Number` and `parseFloat`. */
  lemma WholeUnsigned(u: string, v: Num)
    requires u != [] && IsDigit(u[0]) && !IsSpace(u[|u| - 1]) && RadixOf(u) == 0
    requires UnsignedPrefix(u) == Prefix(v, |u|)
    ensures ToNumber(u) == v && ParseFloat(u) == v
  {
    assert !IsSpace(u[0]);
    TrimUnspaced(u);
    ToNumberUnsigned(u, v);
    ParseFloatUnsigned(u, v, |u|);
  }

  /** Digits, an `e` and digits start and end with a digit and announce no base. */
  lemma ExponentText(u: string, d: string, e: string)
    requires d != [] && AllDigits(d) && e != [] && AllDigits(e)
    requires u == d + ("e" + e)
    ensures IsDigit(u[0]) && IsDigit(u[|u| - 1]) && RadixOf(u) == 0
  {
    assert IsDigit(u[0]);
    assert IsDigit(u[|u| - 1]) by {
      assert u[|u| - 1] == e[|e| - 1];
    }
    if |d| > 1 {
      assert IsDigit(u[1]);
    } else {
      assert u[1] == 'e';
    }
    RadixOfDigitStart(u);
  }

  /** A non-negative exponent multiplies by a power of ten: `"1e1"` reads as 10, not 1. */
  lemma ExponentOneOne()
    ensures ParseFloat("1e1") == Real(10.0)
  {
    var d := "1";
    assert AllDigits(d) && DigitsValue(d) == 1;
    assert "1e1" == d + ("e" + d);
    ExponentLiteral("1e1", d, d);
    assert Scaled(1.0, 1) == 10.0;
  }

  /** The text `Infinity` is a whole unsigned literal. */
  lemma InfinityUnsigned()
    ensures UnsignedPrefix("Infinity") == Prefix(Infinity(true), |"Infinity"|)
  {
    var u := "Infinity";
    assert StartsWith(u, "Infinity");
  }

  /** The text `Infinity` is untouched by trimming and announces no base. */
  lemma InfinityUntrimmed()
    ensures Trim("Infinity") == "Infinity" && RadixOf("Infinity") == 0
  {
    TrimUnspaced("Infinity");
  }

  /** `Infinity` is a number under both `Number` and `parseFloat`. */
  lemma InfinityLiteral()
    ensures ToNumber("Infinity") == Infinity(true) && ParseFloat("Infinity") == Infinity(true)
  {
    InfinityUnsigned();
    InfinityUntrimmed();
    ToNumberUnsigned("Infinity", Infinity(true));
    ParseFloatUnsigned("Infinity", Infinity(true), |"Infinity"|);
  }

  /** `parseFloat` reads the digits before a `+` where `Number` gives NaN: the two
      conversions differ on the open-ended range values. */
  lemma ParseFloatOfPlusSuffix(d: string)
    requires d != [] && AllDigits(d)
    ensures ParseFloat(d + "+") == Real(DigitsValue(d) as real)
    ensures ToNumber(d + "+") == NotANumber
  {
    ParseFloatPlus(d + "+", d);
    PlusSuffixIsNaN(d);
  }

  /** `parseFloat` of digits and a `+` reads the digits. */
  lemma ParseFloatPlus(u: string, d: string)
    requires d != [] && AllDigits(d) && u == d + "+"
    ensures ParseFloat(u) == Real(DigitsValue(d) as real)
  {
    UnsignedDigits(d, "+");
    assert IsDigit(u[0]);
    ParseFloatUnsigned(u, Real(DigitsValue(d) as real), |d|);
  }

  /** A rendered integer converts back to itself under `parseInt`. */
  lemma ParseIntOfIntText(i: int)
    ensures ParseInt(IntText(i)) == Finite(i)
  {
    var s := NatText(if i < 0 then -i else i);
    assert !IsSpace(s[0]) by { assert IsDigit(s[0]); }
    LeadingDigitsAll(s);
    NatTextValue(if i < 0 then -i else i);
    if i < 0 {
      var t := "-" + s;
      assert t[1..] == s;
      assert !IsSpace(t[0]);
    }
  }

  /** A string that neither starts nor ends with white space is its own trim. */
  lemma TrimUnspaced(s: string)
    requires s != [] && !IsSpace(s[0]) && !IsSpace(s[|s| - 1])
    ensures Trim(s) == s
  {
    assert TrimStart(s) == s;
  }

  /** Digits followed by a trailing `+` (the open-ended range values such as `20+`) are
      not a number. */
  lemma PlusSuffixIsNaN(d: string)
    requires AllDigits(d)
    ensures ToNumber(d + "+") == NotANumber
  {
    var s := d + "+";
    if d == [] {
      assert s == "+";
      TrimUnspaced(s);
      assert UnsignedPrefix(s[1..]) == NoPrefix;
    } else {
      assert IsDigit(s[0]);
      TrimUnspaced(s);
      UnsignedDigits(d, "+");
      if |d| > 1 {
        assert IsDigit(s[1]);
      } else {
        assert s[1] == '+';
      }
      RadixOfDigitStart(s);
      ToNumberPartial(s, Real(DigitsValue(d) as real), |d|);
    }
  }

  /** An unsigned literal that stops short of the end of an untrimmed text, with no base
      prefix, leaves `Number` with NaN. */
  lemma ToNumberPartial(u: string, v: Num, n: nat)
    requires u != [] && Trim(u) == u && RadixOf(u) == 0 && u[0] != '-' && u[0] != '+'
    requires UnsignedPrefix(u) == Prefix(v, n) && n < |u|
    ensures ToNumber(u) == NotANumber
  {
  }

  /** Leading digits stop at the first non-digit after a digit string. */
  lemma {:induction false} LeadingDigitsPrefix(d: string, rest: string)
    requires AllDigits(d)
    requires rest != [] && !IsDigit(rest[0])
    ensures LeadingDigits(d + rest) == d
  {
    if d != [] {
      assert (d + rest)[1..] == d[1..] + rest;
      LeadingDigitsPrefix(d[1..], rest);
    }
  }
}
