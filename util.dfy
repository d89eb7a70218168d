/*
 * Shared vocabulary of the compiler and the simulator: error results, the
 * string operations the JavaScript code relies on (`toString`, `parseInt`,
 * `trim`, `split`, `join`, `includes`, `toLowerCase`) and 32-bit integer
 * conversions (`| 0`, `>>> 0`, `&`, `|`, `^`, `<<`, `>>>`).
 */
module Util {

  datatype Option<T> = None | Some(value: T)

  /** A thrown JavaScript `Error` is modelled by its message. */
  datatype Result<T> = Ok(value: T) | Err(msg: string)
  {
    predicate IsFailure() { Err? }

    function PropagateFailure<U>(): Result<U>
      requires Err?
    {
      Err(msg)
    }

    function Extract(): T
      requires Ok?
    {
      value
    }
  }

  // ---------------------------------------------------------------------
  // Characters
  // ---------------------------------------------------------------------

  predicate IsDigit(c: char) { '0' <= c <= '9' }

  predicate IsHexDigit(c: char) { IsDigit(c) || 'a' <= c <= 'f' || 'A' <= c <= 'F' }

  predicate IsLetter(c: char) { 'a' <= c <= 'z' || 'A' <= c <= 'Z' }

  /** The characters of the regular-expression class `\s` (and of `String.prototype.trim`). */
  predicate IsJsSpace(c: char)
  {
    c == '\t' || c == '\n' || c == '\U{B}' || c == '\U{C}' || c == '\r' || c == ' ' ||
    c == '\U{A0}' || c == '\U{1680}' || ('\U{2000}' <= c <= '\U{200A}') ||
    c == '\U{2028}' || c == '\U{2029}' || c == '\U{202F}' || c == '\U{205F}' ||
    c == '\U{3000}' || c == '\U{FEFF}'
  }

  function DigitValue(c: char, radix: nat): (d: nat)
    ensures d < 36
  {
    if IsDigit(c) then (c as int - '0' as int)
    else if 'a' <= c <= 'z' then (c as int - 'a' as int) + 10
    else if 'A' <= c <= 'Z' then (c as int - 'A' as int) + 10
    else 35
  }

  /** `c` is a digit of the given radix (10 or 16). */
  predicate IsRadixDigit(c: char, radix: nat)
  {
    if radix == 16 then IsHexDigit(c) else IsDigit(c)
  }

  function DigitChar(d: nat): (c: char)
    requires d < 10
    ensures IsDigit(c) && DigitValue(c, 10) == d
  {
    "0123456789"[d]
  }

  // ---------------------------------------------------------------------
  // Number <-> decimal text
  // ---------------------------------------------------------------------

  /** Decimal text of a natural number, as `Number.prototype.toString` writes it. */
  function NatToString(n: nat): (s: string)
    ensures |s| >= 1
    ensures forall i :: 0 <= i < |s| ==> IsDigit(s[i])
    ensures s[0] == '0' ==> n == 0
  {
    if n < 10 then [DigitChar(n)] else NatToString(n / 10) + [DigitChar(n % 10)]
  }

  /** Decimal text of an integer: a minus sign before the magnitude when negative. */
  function IntToString(i: int): (s: string)
    ensures |s| >= 1
    ensures (i < 0) <==> s[0] == '-'
  {
    if i < 0 then "-" + NatToString(-i) else NatToString(i)
  }

  /** Value of a run of digits in the given radix, most significant first. */
  function DigitsValue(s: string, radix: nat): nat
  {
    if s == [] then 0 else DigitsValue(s[..|s| - 1], radix) * radix + DigitValue(s[|s| - 1], radix)
  }

  /** Length of the longest prefix of `s` made of digits of `radix`. */
  function DigitPrefixLength(s: string, radix: nat): (n: nat)
    ensures n <= |s|
    ensures forall i :: 0 <= i < n ==> IsRadixDigit(s[i], radix)
    ensures n < |s| ==> !IsRadixDigit(s[n], radix)
  {
    if s == [] || !IsRadixDigit(s[0], radix) then 0 else 1 + DigitPrefixLength(s[1..], radix)
  }

  function TrimStart(s: string): (t: string)
    ensures |t| <= |s| && t == s[|s| - |t|..]
    ensures t == [] || !IsJsSpace(t[0])
  {
    if s != [] && IsJsSpace(s[0]) then TrimStart(s[1..]) else s
  }

  function TrimEnd(s: string): (t: string)
    ensures |t| <= |s| && t == s[..|t|]
    ensures t == [] || !IsJsSpace(t[|t| - 1])
  {
    if s != [] && IsJsSpace(s[|s| - 1]) then TrimEnd(s[..|s| - 1]) else s
  }

  /** `String.prototype.trim`. */
  function Trim(s: string): string
  {
    TrimEnd(TrimStart(s))
  }

  /**
   * `parseInt(s)` (no radix) and `parseInt(s, 16)`: leading white space is
   * skipped, then an optional sign, then a `0x`/`0X` prefix selects (or, with
   * radix 16, is allowed before) hexadecimal digits; the longest run of digits
   * is read and the rest ignored. No digit at all gives `NaN`, modelled as `None`.
   */
  function ParseIntJs(s: string, hex: bool): (r: Option<int>)
  {
    var t := TrimStart(s);
    var neg := |t| > 0 && t[0] == '-';
    var u := if |t| > 0 && (t[0] == '-' || t[0] == '+') then t[1..] else t;
    var prefixed := |u| >= 2 && u[0] == '0' && (u[1] == 'x' || u[1] == 'X');
    var radix := if prefixed || hex then 16 else 10;
    var v := if prefixed then u[2..] else u;
    var n := DigitPrefixLength(v, radix);
    if n == 0 then None
    else
      var m: int := DigitsValue(v[..n], radix);
      Some(if neg then -m else m)
  }

  function ParseInt(s: string): Option<int> { ParseIntJs(s, false) }

  /** `parseInt(s, 10)`: as above, but a `0x` prefix is not recognised (it reads as `0`). */
  function ParseIntDecimal(s: string): Option<int>
  {
    var t := TrimStart(s);
    var neg := |t| > 0 && t[0] == '-';
    var u := if |t| > 0 && (t[0] == '-' || t[0] == '+') then t[1..] else t;
    var n := DigitPrefixLength(u, 10);
    if n == 0 then None
    else
      var m: int := DigitsValue(u[..n], 10);
      Some(if neg then -m else m)
  }

  lemma {:induction false} DigitsValueOfNatToString(n: nat)
    ensures DigitsValue(NatToString(n), 10) == n
  {
    if n >= 10 {
      var s := NatToString(n);
      assert s[..|s| - 1] == NatToString(n / 10);
      DigitsValueOfNatToString(n / 10);
    }
  }

  /** `parseInt` reads back exactly the integer that `toString` wrote. */
  lemma ParseIntOfIntToString(i: int)
    ensures ParseInt(IntToString(i)) == Some(i)
  {
    if i < 0 {
      var n: nat := -i;
      ParseIntOfNegative(n);
      assert IntToString(i) == "-" + NatToString(n);
    } else {
      ParseIntOfNatural(i);
    }
  }

  /** The decimal text of `n` is all digits, reads back as `n`, and has no `0x` prefix. */
  lemma MagnitudeText(n: nat)
    ensures var m := NatToString(n);
      DigitPrefixLength(m, 10) == |m| && DigitsValue(m[..|m|], 10) == n &&
      !(|m| >= 2 && m[0] == '0') && !IsJsSpace(m[0]) && m[0] != '-' && m[0] != '+'
  {
    var m := NatToString(n);
    DigitPrefixAll(m, 10);
    assert m[..|m|] == m;
    DigitsValueOfNatToString(n);
  }

  lemma ParseIntOfNatural(n: nat)
    ensures ParseInt(NatToString(n)) == Some(n)
  {
    var m := NatToString(n);
    MagnitudeText(n);
    assert TrimStart(m) == m;
  }

  lemma NegativeText(m: string)
    ensures var s := "-" + m; TrimStart(s) == s && s[0] == '-' && s[1..] == m
  {
    var s := "-" + m;
    assert s[0] == '-';
    assert s[1..] == m;
  }

  lemma ParseNegative(s: string, m: string, v: nat)
    requires |s| >= 1 && TrimStart(s) == s && s[0] == '-' && s[1..] == m
    requires |m| >= 1 && DigitPrefixLength(m, 10) == |m| && DigitsValue(m[..|m|], 10) == v
    requires !(|m| >= 2 && m[0] == '0')
    ensures ParseInt(s) == Some(-(v as int))
  {
  }

  lemma ParseIntOfNegative(n: nat)
    requires n > 0
    ensures ParseInt("-" + NatToString(n)) == Some(-(n as int))
  {
    var m := NatToString(n);
    MagnitudeText(n);
    NegativeText(m);
    ParseNegative("-" + m, m, n);
  }

  /** `parseInt(t, 10)` reads back the number whose decimal text `t` is. */
  lemma ParseIntDecimalOfNatural(n: nat)
    ensures ParseIntDecimal(NatToString(n)) == Some(n)
  {
    var m := NatToString(n);
    MagnitudeText(n);
    assert TrimStart(m) == m;
  }

  lemma {:induction false} DigitPrefixAll(s: string, radix: nat)
    requires forall k :: 0 <= k < |s| ==> IsRadixDigit(s[k], radix)
    ensures DigitPrefixLength(s, radix) == |s|
  {
    if s != [] {
      DigitPrefixAll(s[1..], radix);
    }
  }

  // ---------------------------------------------------------------------
  // Strings
  // ---------------------------------------------------------------------

  predicate StartsWith(s: string, prefix: string)
  {
    |prefix| <= |s| && s[..|prefix|] == prefix
  }

  predicate EndsWith(s: string, suffix: string)
  {
    |suffix| <= |s| && s[|s| - |suffix|..] == suffix
  }

  /** `sub` occurs in `s` starting at index `i`. */
  predicate OccursAt(s: string, sub: string, i: int)
  {
    0 <= i && i + |sub| <= |s| && s[i..i + |sub|] == sub
  }

  /** `String.prototype.includes`. */
  function Contains(s: string, sub: string): (b: bool)
    ensures b <==> exists i :: OccursAt(s, sub, i)
  {
    if StartsWith(s, sub) then
      assert OccursAt(s, sub, 0);
      true
    else if |s| == 0 then
      assert forall i :: !OccursAt(s, sub, i);
      false
    else
      var r := Contains(s[1..], sub);
      assert r ==> exists i :: OccursAt(s, sub, i) by {
        if r {
          var i :| OccursAt(s[1..], sub, i);
          assert OccursAt(s, sub, i + 1);
        }
      }
      assert (exists i :: OccursAt(s, sub, i)) ==> r by {
        if exists i :: OccursAt(s, sub, i) {
          var i :| OccursAt(s, sub, i);
          assert i != 0;
          assert OccursAt(s[1..], sub, i - 1);
        }
      }
      r
  }

  lemma ContainsConcat(a: string, b: string, sub: string)
    requires Contains(a, sub) || Contains(b, sub)
    ensures Contains(a + b, sub)
  {
    if Contains(a, sub) {
      var i :| OccursAt(a, sub, i);
      assert OccursAt(a + b, sub, i);
    } else {
      var i :| OccursAt(b, sub, i);
      assert OccursAt(a + b, sub, |a| + i);
    }
  }

  /**
   * The lower case of one character: the ASCII capitals, and the Kelvin
   * sign, whose lower case is the ASCII `k`.
   */
  function LowerChar(c: char): char
  {
    if 'A' <= c <= 'Z' then (c as int + 32) as char
    else if c == '\U{212A}' then 'k'
    else c
  }

  /** `String.prototype.toLowerCase`, on the characters whose lower case is an ASCII letter. */
  function ToLower(s: string): (t: string)
    ensures |t| == |s|
    ensures forall i :: 0 <= i < |s| ==> t[i] == LowerChar(s[i])
  {
    if s == [] then [] else [LowerChar(s[0])] + ToLower(s[1..])
  }

  lemma {:induction false} ToLowerConcat(a: string, b: string)
    ensures ToLower(a + b) == ToLower(a) + ToLower(b)
  {
    if a == [] {
      assert a + b == b;
    } else {
      assert (a + b)[0] == a[0] && (a + b)[1..] == a[1..] + b;
      ToLowerConcat(a[1..], b);
    }
  }

  /** The Kelvin sign between two lower-case texts lowers to `k`. */
  lemma {:induction false} KelvinSignLowered(a: string, e: string)
    requires forall i :: 0 <= i < |a| ==> !('A' <= a[i] <= 'Z') && a[i] != '\U{212A}'
    requires forall i :: 0 <= i < |e| ==> !('A' <= e[i] <= 'Z') && e[i] != '\U{212A}'
    ensures ToLower(a + "\U{212A}" + e) == a + "k" + e
  {
    var s := a + "\U{212A}" + e;
    var t := a + "k" + e;
    forall i | 0 <= i < |s|
      ensures ToLower(s)[i] == t[i]
    {
      if i < |a| {
        assert s[i] == a[i] && t[i] == a[i];
      } else if i > |a| {
        assert s[i] == e[i - |a| - 1] && t[i] == e[i - |a| - 1];
      }
    }
  }

  /** `s.toLowerCase().includes(word)`: how error messages are classified. */
  predicate Mentions(s: string, word: string)
  {
    Contains(ToLower(s), word)
  }

  lemma MentionsConcat(a: string, b: string, word: string)
    requires Mentions(a, word) || Mentions(b, word)
    ensures Mentions(a + b, word)
  {
    ToLowerConcat(a, b);
    ContainsConcat(ToLower(a), ToLower(b), word);
  }

  /** A message that starts with "Expected" or "Unexpected" mentions "expected". */
  lemma MentionsExpected(s: string)
    requires StartsWith(s, "Expected") || StartsWith(s, "Unexpected") || StartsWith(s, ". Expected")
    ensures Mentions(s, "expected")
  {
    if StartsWith(s, "Expected") {
      assert s[0..8] == s[..8];
      MentionsAt(s, 0);
    } else if StartsWith(s, "Unexpected") {
      assert s[2..10] == s[..10][2..];
      MentionsAt(s, 2);
    } else {
      assert s[2..10] == s[..10][2..];
      MentionsAt(s, 2);
    }
  }

  /** The word at `i`, in either capitalisation, makes `s` mention "expected". */
  lemma MentionsAt(s: string, i: nat)
    requires i + 8 <= |s| && (s[i..i + 8] == "Expected" || s[i..i + 8] == "expected")
    ensures Mentions(s, "expected")
  {
    var w := s[i..i + 8];
    LowerWord(w);
    var t := ToLower(s);
    assert t[i..i + 8] == ToLower(w);
    assert OccursAt(t, "expected", i);
  }

  lemma LowerWord(w: string)
    requires w == "Expected" || w == "expected"
    ensures ToLower(w) == "expected"
  {
    var rest := w[1..];
    assert rest == "xpected";
    LowerKeeps(rest);
    assert w == [w[0]] + rest;
  }

  /** Text without capital letters is its own lower case. */
  lemma LowerKeeps(s: string)
    requires forall i :: 0 <= i < |s| ==> !('A' <= s[i] <= 'Z') && s[i] != '\U{212A}'
    ensures ToLower(s) == s
  {
  }


  /** `Array.prototype.join`. */
  function Join(parts: seq<string>, sep: string): string
  {
    if parts == [] then ""
    else if |parts| == 1 then parts[0]
    else parts[0] + sep + Join(parts[1..], sep)
  }

  /** `String.prototype.split` with a one-character separator. */
  function Split(s: string, sep: char): (parts: seq<string>)
    ensures |parts| >= 1
    ensures sep in s ==> |parts| >= 2
    ensures forall k :: 0 <= k < |parts| ==> sep !in parts[k]
    decreases |s|
  {
    if sep !in s then [s]
    else
      var i := IndexOf(s, sep);
      [s[..i]] + Split(s[i + 1..], sep)
  }

  /** Text without the separator, then the separator: the first piece is that text. */
  lemma SplitAfter(a: string, sep: char, b: string)
    requires sep !in a
    ensures Split(a + [sep] + b, sep) == [a] + Split(b, sep)
  {
    var s := a + [sep] + b;
    assert s[|a|] == sep;
    var i := IndexOf(s, sep);
    assert i == |a| by {
      assert s[..|a|] == a;
    }
    assert s[..i] == a && s[i + 1..] == b;
  }

  /** Text without the separator is one piece. */
  lemma SplitNone(s: string, sep: char)
    requires sep !in s
    ensures Split(s, sep) == [s]
  {
  }

  function IndexOf(s: string, c: char): (i: nat)
    requires c in s
    ensures i < |s| && s[i] == c && c !in s[..i]
  {
    if s[0] == c then 0 else 1 + IndexOf(s[1..], c)
  }

  // ---------------------------------------------------------------------
  // 32-bit integers as JavaScript's bitwise operators see them
  // ---------------------------------------------------------------------

  const TWO32: int := 0x1_0000_0000
  const TWO31: int := 0x8000_0000

  predicate IsInt32(x: int) { -TWO31 <= x < TWO31 }

  /** `x >>> 0` */
  function ToUint32(x: int): (u: int)
    ensures 0 <= u < TWO32
    ensures (u - x) % TWO32 == 0
  {
    x % TWO32
  }

  /** `x | 0` */
  function ToInt32(x: int): (r: int)
    ensures IsInt32(r)
    ensures (r - x) % TWO32 == 0
  {
    var u := x % TWO32;
    if u >= TWO31 then u - TWO32 else u
  }

  lemma ToInt32OfInt32(x: int)
    requires IsInt32(x)
    ensures ToInt32(x) == x
  {
  }

  function Pow2(n: nat): (p: nat)
    ensures p >= 1
  {
    if n == 0 then 1 else 2 * Pow2(n - 1)
  }

  datatype BitOp = AndBits | OrBits | XorBits

  function CombineBits(op: BitOp, p: bool, q: bool): bool
  {
    match op
    case AndBits => p && q
    case OrBits => p || q
    case XorBits => p != q
  }

  /** The low `n` bits of `x` and `y` combined bit by bit, lowest bit first. */
  function Bitwise(op: BitOp, x: nat, y: nat, n: nat): (r: nat)
    ensures r < Pow2(n)
    decreases n
  {
    if n == 0 then 0
    else 2 * Bitwise(op, x / 2, y / 2, n - 1) + (if CombineBits(op, x % 2 == 1, y % 2 == 1) then 1 else 0)
  }

  /** `a & b` */
  function BitAnd(a: int, b: int): (r: int)
    ensures IsInt32(r)
  {
    ToInt32(Bitwise(AndBits, ToUint32(a), ToUint32(b), 32))
  }

  /** `a | b` */
  function BitOr(a: int, b: int): (r: int)
    ensures IsInt32(r)
  {
    ToInt32(Bitwise(OrBits, ToUint32(a), ToUint32(b), 32))
  }

  /** `a ^ b` */
  function BitXor(a: int, b: int): (r: int)
    ensures IsInt32(r)
  {
    ToInt32(Bitwise(XorBits, ToUint32(a), ToUint32(b), 32))
  }

  /** `x` times 2^k. */
  function Doubled(x: int, k: nat): int
    decreases k
  {
    if k == 0 then x else Doubled(2 * x, k - 1)
  }

  /** `x` divided by 2^k, rounded down. */
  function Halved(x: nat, k: nat): (r: nat)
    ensures r <= x
    decreases k
  {
    if k == 0 then x else Halved(x / 2, k - 1)
  }

  /** `a << b`: the shift amount is taken modulo 32. */
  function ShiftLeft(a: int, b: int): (r: int)
    ensures IsInt32(r)
  {
    ToInt32(Doubled(ToUint32(a), ToUint32(b) % 32))
  }

  /** `a >>> b`: a logical shift of the unsigned value; the amount is taken modulo 32. */
  function ShiftRightLogical(a: int, b: int): (r: int)
    ensures 0 <= r < TWO32
  {
    Halved(ToUint32(a), ToUint32(b) % 32)
  }

  /**
   * JavaScript `%`: the remainder takes the sign of the dividend, is
   * smaller than the divisor in size, and what it leaves of the dividend
   * is a multiple of the divisor (the quotient is truncated).
   */
  function JsRem(a: int, b: int): (r: int)
    requires b != 0
    ensures -(if b < 0 then -b else b) < r < (if b < 0 then -b else b)
    ensures a >= 0 ==> r >= 0
    ensures a <= 0 ==> r <= 0
    ensures (a - r) % b == 0
  {
    var m := if a < 0 then -a else a;
    var n := if b < 0 then -b else b;
    TruncatedRemainder(a, b, m, n);
    if a < 0 then -(m % n) else m % n
  }

  lemma TruncatedRemainder(a: int, b: int, m: int, n: int)
    requires b != 0 && m == (if a < 0 then -a else a) && n == (if b < 0 then -b else b)
    ensures var r := if a < 0 then -(m % n) else m % n;
      -n < r < n && (a >= 0 ==> r >= 0) && (a <= 0 ==> r <= 0) && (a - r) % b == 0
  {
    var r := if a < 0 then -(m % n) else m % n;
    var k := m / n;
    assert m == k * n + m % n;
    assert k * n == k * b || k * n == -(k * b) by {
      if b < 0 { assert k * (-b) == -(k * b); }
    }
    MultipleOfEither(a - r, k, b);
  }

  /** Plus or minus a multiple of `b` leaves no remainder. */
  lemma MultipleOfEither(e: int, k: int, b: int)
    requires b != 0 && (e == k * b || e == -(k * b))
    ensures e % b == 0
  {
    if e == k * b {
      DivisionUnique(e, k, b, 0);
    } else {
      assert -(k * b) == (-k) * b;
      DivisionUnique(e, -k, b, 0);
    }
  }

  /** Euclidean division: a remainder in `[0, |b|)` is the only one. */
  lemma DivisionUnique(m: int, q: int, b: int, r: int)
    requires b != 0 && m == q * b + r && 0 <= r < (if b < 0 then -b else b)
    ensures m % b == r
  {
    var q0 := m / b;
    var r0 := m % b;
    assert m == q0 * b + r0;
    var d := q - q0;
    assert d * b == r0 - r by {
      assert q * b - q0 * b == (q - q0) * b;
    }
    if d != 0 {
      MultipleAway(d, b);
    }
  }

  /** A non-zero multiple of `b` is at least `|b|` away from 0. */
  lemma MultipleAway(d: int, b: int)
    requires d != 0 && b != 0
    ensures d * b >= (if b < 0 then -b else b) || d * b <= -(if b < 0 then -b else b)
  {
    var e := if d < 0 then -d else d;
    var n := if b < 0 then -b else b;
    assert (e - 1) * n >= 0;
    assert e * n == (e - 1) * n + n;
    assert d * b == e * n || d * b == -(e * n);
  }

  /** `Math.floor(a / b)`, exact for 32-bit operands. */
  function FloorDiv(a: int, b: int): (q: int)
    requires b != 0
    ensures b > 0 ==> q * b <= a < q * b + b
    ensures b < 0 ==> q * b >= a > q * b + b
  {
    if b > 0 || a % b == 0 then a / b else a / b - 1
  }
}
