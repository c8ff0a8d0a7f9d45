/**
 * The JavaScript built-ins that the cabBuddy pages rely on, on strings
 * modelled as `seq<char>`: `trim`, ASCII case mapping, `split` on one
 * character, `parseInt` without a radix, `parseFloat`, `String(n)` for an
 * integer and `padStart(2, "0")`.
 */
module JsText {

  datatype Option<+T> = None | Some(value: T)

  /** `if (id)` on an optional number: a missing id and the id 0 are
      falsy. */
  predicate Truthy(id: Option<int>) {
    id.Some? && id.value != 0
  }

  predicate IsDigit(c: char) { '0' <= c <= '9' }

  predicate AllDigits(s: string) { forall i :: 0 <= i < |s| ==> IsDigit(s[i]) }

  /** ECMAScript WhiteSpace and LineTerminator code points: what `trim`,
      `parseInt` and `parseFloat` skip. */
  predicate IsSpace(c: char) {
    || c == '\t' || c == '\n' || c == '\U{000B}' || c == '\U{000C}' || c == '\r'
    || c == ' ' || c == '\U{00A0}' || c == '\U{1680}'
    || ('\U{2000}' <= c <= '\U{200A}')
    || c == '\U{2028}' || c == '\U{2029}' || c == '\U{202F}' || c == '\U{205F}'
    || c == '\U{3000}' || c == '\U{FEFF}'
  }

  // ---------------------------------------------------------------- trim

  function TrimStart(s: string): (r: string)
    ensures |r| <= |s| && r == s[|s| - |r|..]
    ensures forall i :: 0 <= i < |s| - |r| ==> IsSpace(s[i])
    ensures r == [] || !IsSpace(r[0])
  {
    if s != [] && IsSpace(s[0]) then TrimStart(s[1..]) else s
  }

  function TrimEnd(s: string): (r: string)
    ensures |r| <= |s| && r == s[..|r|]
    ensures forall i :: |r| <= i < |s| ==> IsSpace(s[i])
    ensures r == [] || !IsSpace(r[|r| - 1])
  {
    if s != [] && IsSpace(s[|s| - 1]) then TrimEnd(s[..|s| - 1]) else s
  }

  /** `s.trim()`: the slice of `s` left once the white space at both ends
      is removed; blank strings, and only they, trim to "". */
  function Trim(s: string): (r: string)
    ensures |r| <= |s|
    ensures r == [] <==> forall i :: 0 <= i < |s| ==> IsSpace(s[i])
    ensures r == [] || (!IsSpace(r[0]) && !IsSpace(r[|r| - 1]))
    ensures exists i, k ::
              && 0 <= i <= k <= |s| && r == s[i..k]
              && (forall j :: 0 <= j < i ==> IsSpace(s[j]))
              && (forall j :: k <= j < |s| ==> IsSpace(s[j]))
  {
    var t := TrimStart(s);
    var r := TrimEnd(t);
    assert r == [] ==> t == [];
    TrimWindow(s, t, r);
    r
  }

  /** A suffix `t` of `s` after white space, and a prefix `r` of `t`
      before white space: `r` is a slice of `s` with only white space
      around it. */
  lemma TrimWindow(s: string, t: string, r: string)
    requires |t| <= |s| && t == s[|s| - |t|..] && forall i :: 0 <= i < |s| - |t| ==> IsSpace(s[i])
    requires |r| <= |t| && r == t[..|r|] && forall i :: |r| <= i < |t| ==> IsSpace(t[i])
    ensures var i, k := |s| - |t|, |s| - |t| + |r|;
      && 0 <= i <= k <= |s| && r == s[i..k]
      && (forall j :: 0 <= j < i ==> IsSpace(s[j]))
      && (forall j :: k <= j < |s| ==> IsSpace(s[j]))
  {
    var i := |s| - |t|;
    var k := i + |r|;
    SliceOfSuffix(s, i, |r|);
    forall j | k <= j < |s| ensures IsSpace(s[j]) {
      assert s[j] == t[j - i];
    }
  }

  lemma SliceOfSuffix(s: string, i: nat, n: nat)
    requires i + n <= |s|
    ensures s[i..][..n] == s[i..i + n]
  {
  }

  // ------------------------------------------------------ case mapping

  function LowerChar(c: char): char {
    if 'A' <= c <= 'Z' then (c as int + 32) as char else c
  }

  function UpperChar(c: char): char {
    if 'a' <= c <= 'z' then (c as int - 32) as char else c
  }

  /** `s.toLowerCase()` on ASCII letters */
  function ToLower(s: string): (r: string)
    ensures |r| == |s| && forall i :: 0 <= i < |s| ==> r[i] == LowerChar(s[i])
  {
    if s == [] then [] else [LowerChar(s[0])] + ToLower(s[1..])
  }

  /** `s.toUpperCase()` on ASCII letters */
  function ToUpper(s: string): (r: string)
    ensures |r| == |s| && forall i :: 0 <= i < |s| ==> r[i] == UpperChar(s[i])
  {
    if s == [] then [] else [UpperChar(s[0])] + ToUpper(s[1..])
  }

  /** Lower-casing twice changes nothing more than lower-casing once. */
  lemma ToLowerIdempotent(s: string)
    ensures ToLower(ToLower(s)) == ToLower(s)
  {
    assert forall i :: 0 <= i < |s| ==> LowerChar(LowerChar(s[i])) == LowerChar(s[i]);
  }

  /** Two strings upper-case to the same text exactly when they lower-case
      to the same text: the comparisons `toUpperCase() === …` and
      `toLowerCase() === …` agree. */
  lemma UpperEqualIffLowerEqual(a: string, b: string)
    ensures ToUpper(a) == ToUpper(b) <==> ToLower(a) == ToLower(b)
  {
    if ToUpper(a) == ToUpper(b) {
      forall i | 0 <= i < |a| ensures ToLower(a)[i] == ToLower(b)[i] {
        assert UpperChar(a[i]) == UpperChar(b[i]);
        CharCasesAgree(a[i], b[i]);
      }
    }
    if ToLower(a) == ToLower(b) {
      forall i | 0 <= i < |a| ensures ToUpper(a)[i] == ToUpper(b)[i] {
        assert LowerChar(a[i]) == LowerChar(b[i]);
        CharCasesAgree(a[i], b[i]);
      }
    }
  }

  lemma CharCasesAgree(x: char, y: char)
    ensures UpperChar(x) == UpperChar(y) <==> LowerChar(x) == LowerChar(y)
  {
  }

  // ------------------------------------------------------------- split

  /** Position of the first `c` in `s` */
  function IndexOf(s: string, c: char): (i: nat)
    requires c in s
    ensures i < |s| && s[i] == c && c !in s[..i]
  {
    if s[0] == c then 0 else 1 + IndexOf(s[1..], c)
  }

  /** `s.split(sep)` for a one-character separator */
  function Split(s: string, sep: char): (parts: seq<string>)
    ensures |parts| >= 1
    ensures forall i :: 0 <= i < |parts| ==> sep !in parts[i]
    decreases |s|
  {
    if sep !in s then [s]
    else
      var i := IndexOf(s, sep);
      [s[..i]] + Split(s[i + 1..], sep)
  }

  /** `parts.join(sep)` */
  function Join(parts: seq<string>, sep: char): string
    requires |parts| >= 1
  {
    if |parts| == 1 then parts[0] else parts[0] + [sep] + Join(parts[1..], sep)
  }

  /** Joining the pieces of a split gives back the string. */
  lemma {:induction false} JoinSplit(s: string, sep: char)
    ensures Join(Split(s, sep), sep) == s
    decreases |s|
  {
    if sep in s {
      var i := IndexOf(s, sep);
      JoinSplit(s[i + 1..], sep);
      assert Split(s, sep)[1..] == Split(s[i + 1..], sep);
      assert s == s[..i] + [sep] + s[i + 1..];
    }
  }

  lemma {:induction false} IndexOfAfterPrefix(a: string, c: char, b: string)
    requires c !in a
    ensures c in a + [c] + b && IndexOf(a + [c] + b, c) == |a|
  {
    if a == [] {
      assert a + [c] + b == [c] + b;
    } else {
      assert (a + [c] + b)[1..] == a[1..] + [c] + b;
      IndexOfAfterPrefix(a[1..], c, b);
    }
  }

  /** Splitting a join of separator-free pieces gives back the pieces. */
  lemma {:induction false} SplitJoin(parts: seq<string>, sep: char)
    requires |parts| >= 1
    requires forall i :: 0 <= i < |parts| ==> sep !in parts[i]
    ensures Split(Join(parts, sep), sep) == parts
  {
    if |parts| == 1 {
    } else {
      var rest := Join(parts[1..], sep);
      SplitOfSeparated(parts[0], sep, rest);
      SplitJoin(parts[1..], sep);
      assert parts == [parts[0]] + parts[1..];
    }
  }

  /** Splitting at the first separator peels off the piece before it. */
  lemma SplitOfSeparated(a: string, sep: char, rest: string)
    requires sep !in a
    ensures Split(a + [sep] + rest, sep) == [a] + Split(rest, sep)
  {
    var s := a + [sep] + rest;
    IndexOfAfterPrefix(a, sep, rest);
    assert s[..|a|] == a;
    assert s[|a| + 1..] == rest;
  }

  // ------------------------------------------------------------ digits

  /** Value of `c` as a digit of any radix up to 36; 36 for a non-digit */
  function DigitValue(c: char): nat {
    if '0' <= c <= '9' then c as int - '0' as int
    else if 'a' <= c <= 'z' then c as int - 'a' as int + 10
    else if 'A' <= c <= 'Z' then c as int - 'A' as int + 10
    else 36
  }

  predicate IsRadixDigit(c: char, radix: nat) { DigitValue(c) < radix }

  /** Length of the longest prefix of `s` made of digits of `radix` */
  function DigitRun(s: string, radix: nat): (n: nat)
    ensures n <= |s|
    ensures forall i :: 0 <= i < n ==> IsRadixDigit(s[i], radix)
    ensures n < |s| ==> !IsRadixDigit(s[n], radix)
  {
    if s != [] && IsRadixDigit(s[0], radix) then 1 + DigitRun(s[1..], radix) else 0
  }

  /** The whole of a digit string is its own digit run, and a run stops at
      the first non-digit. */
  lemma {:induction false} DigitRunOfDigits(s: string, tail: string)
    requires AllDigits(s)
    requires tail == [] || !IsDigit(tail[0])
    ensures DigitRun(s + tail, 10) == |s|
  {
    if s == [] {
      assert s + tail == tail;
    } else {
      assert (s + tail)[1..] == s[1..] + tail;
      DigitRunOfDigits(s[1..], tail);
    }
  }

  /** Value of a digit string in `radix`, most significant digit first */
  function DigitsValue(s: string, radix: nat): nat {
    if s == [] then 0 else DigitsValue(s[..|s| - 1], radix) * radix + DigitValue(s[|s| - 1])
  }

  function DigitChar(d: nat): (c: char)
    requires d < 10
    ensures IsDigit(c) && DigitValue(c) == d
  {
    ('0' as int + d) as char
  }

  /** `String(n)` for a natural number: decimal digits, no leading zero */
  function NatToString(n: nat): (s: string)
    ensures |s| >= 1 && AllDigits(s)
  {
    if n < 10 then [DigitChar(n)] else NatToString(n / 10) + [DigitChar(n % 10)]
  }

  /** `String(n)` for an integer */
  function IntToString(n: int): (s: string)
    ensures |s| >= 1
    ensures n >= 0 ==> AllDigits(s)
    ensures n < 0 ==> |s| >= 2 && s[0] == '-' && AllDigits(s[1..])
  {
    assert n < 0 ==> ("-" + NatToString(-n))[1..] == NatToString(-n);
    if n < 0 then "-" + NatToString(-n) else NatToString(n)
  }

  lemma {:induction false} NatToStringValue(n: nat)
    ensures DigitsValue(NatToString(n), 10) == n
  {
    if n >= 10 {
      NatToStringValue(n / 10);
      var s := NatToString(n);
      assert s[..|s| - 1] == NatToString(n / 10);
    }
  }

  // ---------------------------------------------------------- parseInt

  lemma TrimStartOfNonSpace(s: string)
    requires s == [] || !IsSpace(s[0])
    ensures TrimStart(s) == s
  {
  }

  /** The digits read by `parseInt` after white space and sign: a
      "0x"/"0X" prefix selects radix 16, and the value is that of the
      longest run of digits that follows; None when there is none. */
  function UnsignedInt(u: string): Option<nat> {
    var hex := |u| >= 2 && u[0] == '0' && (u[1] == 'x' || u[1] == 'X');
    var radix := if hex then 16 else 10;
    var body := if hex then u[2..] else u;
    var n := DigitRun(body, radix);
    if n == 0 then None else Some(DigitsValue(body[..n], radix))
  }

  /** `parseInt(s)` with no radix argument: leading white space and one
      sign are skipped before the digits; None stands for NaN. */
  function ParseInt(s: string): Option<int> {
    var t := TrimStart(s);
    if t != [] && t[0] == '-' then
      match UnsignedInt(t[1..])
      case None => None
      case Some(v) => Some(-(v as int))
    else if t != [] && t[0] == '+' then
      match UnsignedInt(t[1..])
      case None => None
      case Some(v) => Some(v)
    else
      match UnsignedInt(t)
      case None => None
      case Some(v) => Some(v)
  }

  /** What `parseInt` makes of the first character after the white
      space: a blank string is NaN, a decimal digit that does not open a
      "0x" prefix gives a number of at least 0, and only a minus sign gives
      a negative number. */
  lemma ParseIntLeadingCharacter(s: string)
    ensures TrimStart(s) == [] ==> ParseInt(s).None?
    ensures var t := TrimStart(s);
      t != [] && IsDigit(t[0]) && !(|t| >= 2 && t[0] == '0' && (t[1] == 'x' || t[1] == 'X'))
      ==> ParseInt(s).Some? && ParseInt(s).value >= 0
    ensures ParseInt(s).Some? && ParseInt(s).value < 0 ==> TrimStart(s)[0] == '-'
  {
    var t := TrimStart(s);
    UnsignedIntOfLeadingDigit(t);
    if t != [] && t[0] == '-' {
    } else if t != [] && t[0] == '+' {
      assert ParseInt(s).Some? ==> ParseInt(s).value == UnsignedInt(t[1..]).value;
    } else {
      assert ParseInt(s).Some? ==> ParseInt(s).value == UnsignedInt(t).value;
    }
  }

  lemma UnsignedIntOfLeadingDigit(u: string)
    ensures u != [] && IsDigit(u[0]) && !(|u| >= 2 && u[0] == '0' && (u[1] == 'x' || u[1] == 'X'))
      ==> u[0] != '-' && u[0] != '+' && UnsignedInt(u).Some?
  {
  }

  lemma UnsignedIntOfDigits(s: string)
    requires |s| >= 1 && AllDigits(s)
    ensures UnsignedInt(s) == Some(DigitsValue(s, 10))
  {
    DigitRunOfDigits(s, []);
    assert s + [] == s;
    assert s[..|s|] == s;
  }

  /** A plain decimal digit string parses to its value. */
  lemma ParseIntOfDigits(s: string)
    requires |s| >= 1 && AllDigits(s)
    ensures ParseInt(s) == Some(DigitsValue(s, 10))
  {
    assert IsDigit(s[0]);
    assert s[0] != '-' && s[0] != '+';
    TrimStartOfNonSpace(s);
    UnsignedIntOfDigits(s);
  }

  /** `parseInt(String(n)) === n` for every integer n. */
  lemma ParseIntToString(n: int)
    ensures ParseInt(IntToString(n)) == Some(n)
  {
    var m: nat := if n < 0 then -n else n;
    var d := NatToString(m);
    NatToStringValue(m);
    if n < 0 {
      ParseIntOfNegatedDigits("-" + d);
      assert ("-" + d)[1..] == d;
    } else {
      ParseIntOfDigits(d);
    }
  }

  /** A minus sign before a decimal digit string negates its value. */
  lemma ParseIntOfNegatedDigits(s: string)
    requires |s| >= 2 && s[0] == '-' && AllDigits(s[1..])
    ensures ParseInt(s) == Some(-(DigitsValue(s[1..], 10) as int))
  {
    TrimStartOfNonSpace(s);
    UnsignedIntOfDigits(s[1..]);
  }

  /** `s.padStart(2, "0")` */
  function PadStart2(s: string): (r: string)
    ensures |r| == if |s| >= 2 then |s| else 2
    ensures |s| >= 2 ==> r == s
    ensures |s| < 2 ==> r[2 - |s|..] == s && forall i :: 0 <= i < 2 - |s| ==> r[i] == '0'
  {
    if |s| == 0 then "00" else if |s| == 1 then "0" + s else s
  }

  /** Two decimal digits that parse back to `n`, for 0 <= n < 100. */
  lemma PadStart2OfNat(n: nat)
    requires n < 100
    ensures |PadStart2(NatToString(n))| == 2 && AllDigits(PadStart2(NatToString(n)))
    ensures ParseInt(PadStart2(NatToString(n))) == Some(n)
  {
    var s := NatToString(n);
    var p := PadStart2(s);
    NatToStringValue(n);
    if n < 10 {
      assert |s| == 1;
      assert p[..1] == "0";
      assert DigitsValue(p, 10) == n;
    } else {
      assert NatToString(n / 10) == [DigitChar(n / 10)];
      assert |s| == 2;
    }
    ParseIntOfDigits(p);
  }

  // -------------------------------------------------------- parseFloat

  /** A number as `parseFloat` can produce it, kept exact:
      ±units·10^exp, or ±Infinity. */
  datatype Number = Finite(negative: bool, units: nat, exp: int) | Infinite(negative: bool)

  function Pow10(k: nat): (p: nat)
    ensures p >= 1
  {
    if k == 0 then 1 else 10 * Pow10(k - 1)
  }

  /** x >= n */
  predicate AtLeast(x: Number, n: nat) {
    match x
    case Infinite(neg) => !neg
    case Finite(neg, u, e) =>
      if neg then u == 0 && n == 0
      else if e >= 0 then u * Pow10(e) >= n
      else u >= n * Pow10(-e)
  }

  /** x <= n */
  predicate AtMost(x: Number, n: nat) {
    match x
    case Infinite(neg) => neg
    case Finite(neg, u, e) =>
      neg || (if e >= 0 then u * Pow10(e) <= n else u <= n * Pow10(-e))
  }

  /** Value of a leading exponent part "e[+-]digits", 0 when there is none
      (parseFloat then stops before the "e"). */
  function ExponentOf(s: string): int {
    if |s| >= 2 && (s[0] == 'e' || s[0] == 'E') then
      var t := if s[1] == '-' || s[1] == '+' then s[2..] else s[1..];
      var n := DigitRun(t, 10);
      if n == 0 then 0
      else
        var v: int := DigitsValue(t[..n], 10);
        if s[1] == '-' then -v else v
    else 0
  }

  predicate StartsWithInfinity(u: string) { |u| >= 8 && u[..8] == "Infinity" }

  /** The literal read by `parseFloat` after white space and sign:
      "Infinity" or a decimal literal; None when there is neither. */
  function UnsignedFloat(u: string, neg: bool): Option<Number> {
    if StartsWithInfinity(u) then Some(Infinite(neg))
    else
      var a := DigitRun(u, 10);
      FractionAndExponent(u[..a], u[a..], neg)
  }

  /** The rest of a decimal literal after its integer digits: an optional
      point and fraction digits (integer and fraction digits not both
      empty), then an optional exponent. */
  function FractionAndExponent(whole: string, rest: string, neg: bool): Option<Number> {
    if rest != [] && rest[0] == '.' then
      var b := DigitRun(rest[1..], 10);
      if |whole| == 0 && b == 0 then None
      else Some(Finite(neg, DigitsValue(whole + rest[1..1 + b], 10), ExponentOf(rest[1 + b..]) - b))
    else if |whole| == 0 then None
    else Some(Finite(neg, DigitsValue(whole, 10), ExponentOf(rest)))
  }

  /** `parseFloat(s)`: leading white space and one sign are skipped before
      the literal; None stands for NaN. */
  function ParseFloat(s: string): Option<Number> {
    var t := TrimStart(s);
    if t != [] && t[0] == '-' then UnsignedFloat(t[1..], true)
    else if t != [] && t[0] == '+' then UnsignedFloat(t[1..], false)
    else UnsignedFloat(t, false)
  }

  /** What `parseFloat` makes of the first character after the white
      space: a blank string is NaN, a decimal digit gives a finite number
      of at least 0, and only a minus sign gives a negative number. */
  lemma ParseFloatLeadingCharacter(s: string)
    ensures TrimStart(s) == [] ==> ParseFloat(s).None?
    ensures TrimStart(s) != [] && IsDigit(TrimStart(s)[0]) ==>
      ParseFloat(s).Some? && ParseFloat(s).value.Finite? && !ParseFloat(s).value.negative
    ensures ParseFloat(s).Some? && ParseFloat(s).value.negative ==> TrimStart(s)[0] == '-'
  {
    UnsignedFloatOfLeadingDigit(TrimStart(s));
  }

  lemma UnsignedFloatOfLeadingDigit(u: string)
    ensures u != [] && IsDigit(u[0]) ==>
      && u[0] != '-' && u[0] != '+'
      && UnsignedFloat(u, false).Some? && UnsignedFloat(u, false).value.Finite?
      && !UnsignedFloat(u, false).value.negative
  {
    if u != [] && IsDigit(u[0]) {
      assert !StartsWithInfinity(u) by {
        if |u| >= 8 { assert u[..8][0] == u[0]; }
      }
      var a := DigitRun(u, 10);
      assert a >= 1;
      assert |u[..a]| >= 1;
    }
  }

  lemma FractionOfPointed(i: string, f: string)
    requires AllDigits(f) && |i| + |f| >= 1
    ensures FractionAndExponent(i, "." + f, false) == Some(Finite(false, DigitsValue(i + f, 10), -|f|))
  {
    var rest := "." + f;
    FractionRun(f);
    assert rest[1..1 + |f|] == f;
    assert ExponentOf(rest[1 + |f|..]) == 0 by { assert rest[1 + |f|..] == []; }
  }

  lemma FractionRun(f: string)
    requires AllDigits(f)
    ensures DigitRun(("." + f)[1..], 10) == |f|
  {
    assert ("." + f)[1..] == f + [];
    DigitRunOfDigits(f, []);
  }

  lemma UnsignedFloatOfPointed(i: string, f: string)
    requires AllDigits(i) && AllDigits(f) && |i| + |f| >= 1
    ensures UnsignedFloat(i + "." + f, false) == Some(Finite(false, DigitsValue(i + f, 10), -|f|))
  {
    NotInfinity(i, f);
    IntegerRun(i, f);
    FractionOfPointed(i, f);
  }

  lemma NotInfinity(i: string, f: string)
    requires AllDigits(i)
    ensures !StartsWithInfinity(i + "." + f)
  {
    var u := i + "." + f;
    if |u| >= 8 {
      assert u[..8][0] == u[0];
      assert u[0] == if |i| > 0 then i[0] else '.';
    }
  }

  lemma IntegerRun(i: string, f: string)
    requires AllDigits(i)
    ensures DigitRun(i + "." + f, 10) == |i|
    ensures (i + "." + f)[..|i|] == i && (i + "." + f)[|i|..] == "." + f
  {
    assert i + "." + f == i + ("." + f);
    DigitRunOfDigits(i, "." + f);
  }

  /** A decimal literal "I.F" (digits, a point, digits; not both empty)
      parses to the exact value of IF·10^-|F|. */
  lemma ParseFloatOfPointed(i: string, f: string)
    requires AllDigits(i) && AllDigits(f) && |i| + |f| >= 1
    ensures ParseFloat(i + "." + f) == Some(Finite(false, DigitsValue(i + f, 10), -|f|))
  {
    var s := i + "." + f;
    assert s[0] == if |i| > 0 then i[0] else '.';
    TrimStartOfNonSpace(s);
    UnsignedFloatOfPointed(i, f);
  }

  /** A plain digit string parses to its value. */
  lemma ParseFloatOfDigits(i: string)
    requires AllDigits(i) && |i| >= 1
    ensures ParseFloat(i) == Some(Finite(false, DigitsValue(i, 10), 0))
  {
    TrimStartOfNonSpace(i);
    DigitRunOfDigits(i, []);
    assert i + [] == i;
    assert i[..|i|] == i;
    assert i[|i|..] == [];
    assert !StartsWithInfinity(i) by {
      if |i| >= 8 { assert i[..8][0] == i[0]; }
    }
  }
}
