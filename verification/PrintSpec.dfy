/** Digits of a number, lowest first, and the machine arithmetic that util/mPrint.cpp finds them with. */
module PrintSpec {
  const TWO32: nat := 0x1_0000_0000

  type int32 = x: int | -0x8000_0000 <= x < 0x8000_0000

  /** The plain loop of test/printing.cpp: % and / until nothing is left. */
  function Digits(x: nat, base: nat): (d: seq<nat>)
    requires base >= 2
    ensures d != [] && forall i :: 0 <= i < |d| ==> d[i] < base
    decreases x
  {
    if x < base then [x] else [x % base] + Digits(Shrink(x, base), base)
  }

  function Shrink(x: nat, base: nat): (q: nat)
    requires base >= 2
    ensures x > 0 ==> q < x
    ensures x == base * q + x % base
    ensures q == 0 <==> x < base
  {
    x / base
  }

  function Value(d: seq<nat>, base: nat): nat {
    if d == [] then 0 else d[0] + base * Value(d[1..], base)
  }

  lemma {:induction false} DigitsValue(x: nat, base: nat)
    requires base >= 2
    ensures Value(Digits(x, base), base) == x
    decreases x
  {
    var d := Digits(x, base);
    if x < base {
      assert d[1..] == [];
    } else {
      assert d[1..] == Digits(Shrink(x, base), base);
      DigitsValue(Shrink(x, base), base);
    }
  }

  lemma {:induction false} NoLeadingZero(x: nat, base: nat)
    requires base >= 2
    ensures var d := Digits(x, base);
      |d| == 1 || d[|d| - 1] > 0
    decreases x
  {
    if x >= base {
      var r := Digits(Shrink(x, base), base);
      NoLeadingZero(Shrink(x, base), base);
      assert Digits(x, base)[|r|] == r[|r| - 1];
      if |r| == 1 { assert r[0] == Shrink(x, base); }
    }
  }

  /** Digits without a leading zero are the digits of their value: there is only one way to write it. */
  lemma {:induction false} OnlyDigits(d: seq<nat>, base: nat)
    requires base >= 2 && d != [] && forall i :: 0 <= i < |d| ==> d[i] < base
    requires |d| == 1 || d[|d| - 1] > 0
    ensures Digits(Value(d, base), base) == d
    ensures d[|d| - 1] > 0 ==> Value(d, base) > 0
  {
    if |d| == 1 {
      assert d[1..] == [];
    } else {
      var r := d[1..];
      OnlyDigits(r, base);
      var v := Value(r, base);
      MulAdd(base, v, d[0]);
    }
  }

  lemma AtLeast(base: int, a: int)
    requires base >= 2 && a >= 1
    ensures base * a >= base
  {
    assert base * a == base + base * (a - 1);
    assert base * (a - 1) >= 0;
  }

  lemma SmallMultiple(base: int, a: int, r: int)
    requires base >= 2 && base * a == r && -base < r < base
    ensures a == 0
  {
    if a >= 1 { AtLeast(base, a); }
    if a <= -1 { AtLeast(base, -a); }
  }

  lemma MulAdd(base: nat, v: nat, r: nat)
    requires base >= 2 && r < base && v > 0
    ensures (r + base * v) / base == v && (r + base * v) % base == r && r + base * v >= base
  {
    var x := r + base * v;
    var q, m := x / base, x % base;
    assert x == base * q + m;
    assert base * (v - q) == base * v - base * q;
    SmallMultiple(base, v - q, m - r);
    AtLeast(base, v);
  }

  function Pow(base: nat, k: nat): nat {
    if k == 0 then 1 else base * Pow(base, k - 1)
  }

  /** k digits are enough exactly for the numbers below base to the k. */
  lemma {:induction false} LengthExact(x: nat, base: nat, k: nat)
    requires base >= 2 && k >= 1
    ensures |Digits(x, base)| <= k <==> x < Pow(base, k)
    decreases k
  {
    assert Pow(base, k) == base * Pow(base, k - 1);
    if k == 1 {
      assert Pow(base, 0) == 1;
    } else if x < base {
      PowGrows(base, k);
    } else {
      var q := Shrink(x, base);
      LengthExact(q, base, k - 1);
      LessTimes(q, base, x % base, Pow(base, k - 1));
    }
  }

  lemma {:induction false} PowGrows(base: nat, k: nat)
    requires base >= 2 && k >= 1
    ensures Pow(base, k) >= base
    decreases k
  {
    if k == 1 {
      assert Pow(base, 0) == 1;
    } else {
      PowGrows(base, k - 1);
      assert base * Pow(base, k - 1) >= base * 1;
    }
  }

  lemma {:induction false} PowSum(base: nat, j: nat, k: nat)
    ensures Pow(base, j + k) == Pow(base, j) * Pow(base, k)
    decreases j
  {
    if j > 0 {
      PowSum(base, j - 1, k);
      assert Pow(base, j + k) == base * Pow(base, j - 1 + k);
      assert base * (Pow(base, j - 1) * Pow(base, k)) == base * Pow(base, j - 1) * Pow(base, k);
    }
  }

  lemma {:induction false} PowBase(base: nat, k: nat)
    requires base >= 2
    ensures Pow(base, k) >= Pow(2, k)
    decreases k
  {
    if k > 0 {
      PowBase(base, k - 1);
      MoreTimes(base, Pow(2, k - 1), Pow(base, k - 1));
    }
  }

  lemma MoreTimes(base: nat, p: nat, q: nat)
    requires base >= 2 && p <= q
    ensures 2 * p <= base * q
  {
    NotLess(base, p, q);
    NotLess(p, 2, base);
  }

  lemma LessTimes(q: nat, base: nat, m: nat, p: nat)
    requires base >= 2 && m < base
    ensures base * q + m < base * p <==> q < p
  {
    if q < p {
      AtLeast(base, p - q);
      assert base * (p - q) == base * p - base * q;
    } else {
      NotLess(base, p, q);
    }
  }

  lemma NotLess(base: nat, p: nat, q: nat)
    requires p <= q
    ensures base * p <= base * q
  {
    assert base * (q - p) >= 0;
    assert base * (q - p) == base * q - base * p;
  }

  /** One round of a digit loop. */
  lemma DigitsStep(done: seq<nat>, x: nat, base: nat)
    requires base >= 2
    ensures done + Digits(x, base)
         == if x / base == 0 then done + [x % base] else done + [x % base] + Digits(x / base, base)
  {
    assert Shrink(x, base) == x / base;
    if x / base != 0 {
      assert done + ([x % base] + Digits(x / base, base)) == done + [x % base] + Digits(x / base, base);
    }
  }

  // ---- bits

  function And(x: nat, y: nat): nat {
    if x == 0 || y == 0 then 0 else 2 * And(x / 2, y / 2) + (if x % 2 == 1 && y % 2 == 1 then 1 else 0)
  }

  function Shr(x: nat, k: nat): nat {
    if k == 0 then x else Shr(x / 2, k - 1)
  }

  lemma MaskOne(x: nat)
    ensures And(x, 1) == x % 2 && Shr(x, 1) == x / 2
  {
    assert Shr(x, 1) == Shr(x / 2, 0);
    assert And(x / 2, 0) == 0;
  }

  lemma MaskTwo(x: nat)
    ensures And(x, 3) == x % 4 && Shr(x, 2) == x / 4
  {
    MaskOne(x / 2);
    assert Shr(x, 2) == Shr(x / 2, 1);
    assert x > 0 ==> And(x, 3) == 2 * And(x / 2, 1) + x % 2;
  }

  lemma MaskThree(x: nat)
    ensures And(x, 7) == x % 8 && Shr(x, 3) == x / 8
  {
    MaskTwo(x / 2);
    assert Shr(x, 3) == Shr(x / 2, 2);
    assert x > 0 ==> And(x, 7) == 2 * And(x / 2, 3) + x % 2;
  }

  lemma MaskFour(x: nat)
    ensures And(x, 15) == x % 16 && Shr(x, 4) == x / 16
  {
    MaskThree(x / 2);
    assert Shr(x, 4) == Shr(x / 2, 3);
    assert x > 0 ==> And(x, 15) == 2 * And(x / 2, 7) + x % 2;
  }

  // ---- division by reciprocal multiplication

  const FACTOR_32: nat := 429496730

  /** (FACTOR_32 * x) >> 32 */
  function Estimate(x: nat): nat {
    FACTOR_32 * x / TWO32
  }

  /** The product fits in 64 bits, and the estimate is the quotient or one more. */
  lemma EstimateClose(x: nat)
    requires x < TWO32
    ensures FACTOR_32 * x < TWO32 * TWO32
    ensures x / 10 <= Estimate(x) <= x / 10 + 1
  {
  }

  // ---- text

  const DIGITS: string := "0123456789ABCDEF"

  function Chars(d: seq<nat>): (s: string)
    requires forall i :: 0 <= i < |d| ==> d[i] < 16
    ensures |s| == |d| && forall i :: 0 <= i < |d| ==> s[i] == DIGITS[d[i]]
  {
    if d == [] then [] else [DIGITS[d[0]]] + Chars(d[1..])
  }

  /** What is left of the sign: the number whose digits are printed. */
  function Magnitude(xx: int32, sgn: bool): (x: nat)
    ensures x < TWO32
  {
    var x: int := xx;
    if sgn && x < 0 then -x else if x < 0 then x + TWO32 else x
  }

  /** The characters of xx, lowest digit first, the sign last. */
  function Text(xx: int32, base: nat, sgn: bool): string
    requires 2 <= base <= 16
  {
    Chars(Digits(Magnitude(xx, sgn), base)) + if sgn && xx < 0 then "-" else ""
  }

  function Reverse(s: string): (r: string)
    ensures |r| == |s| && forall i :: 0 <= i < |s| ==> r[i] == s[|s| - 1 - i]
  {
    if s == [] then [] else Reverse(s[1..]) + [s[0]]
  }

  /** The character of digit d: 0 to 9, then A to F. */
  predicate IsGlyph(c: char, d: nat) {
    || (d < 10 && c as int == '0' as int + d)
    || (10 <= d < 16 && c as int == 'A' as int + d - 10)
  }

  lemma DigitGlyph(d: nat)
    requires d < 16
    ensures IsGlyph(DIGITS[d], d)
  {
  }

  /** What is printed: the digits of |xx| with a minus sign, or of xx modulo 2^32; no leading zero. */
  lemma TextMeans(xx: int32, base: nat, sgn: bool) returns (d: seq<nat>)
    requires 2 <= base <= 16
    ensures d != [] && (forall i :: 0 <= i < |d| ==> d[i] < base) && (|d| == 1 || d[|d| - 1] > 0)
    ensures var x: int := xx;
      Value(d, base) == if x >= 0 then x else if sgn then -x else x + 0x1_0000_0000
    ensures var out, sign := Reverse(Text(xx, base, sgn)), if sgn && xx < 0 then 1 else 0;
      && |out| == sign + |d|
      && (sign == 1 ==> out[0] == '-')
      && (forall i :: 0 <= i < |d| ==> IsGlyph(out[|out| - 1 - i], d[i]))
  {
    var x := Magnitude(xx, sgn);
    d := Digits(x, base);
    DigitsValue(x, base);
    NoLeadingZero(x, base);
    var t := Text(xx, base, sgn);
    forall i | 0 <= i < |d|
      ensures IsGlyph(Reverse(t)[|t| - 1 - i], d[i])
    {
      DigitGlyph(d[i]);
      assert t[i] == Chars(d)[i];
    }
  }

  // ---- parsing

  /** The int with the same low 32 bits. */
  function Int32(n: int): (r: int32)
    ensures -0x8000_0000 <= n < 0x8000_0000 ==> r == n
  {
    var m := n % 0x1_0000_0000;
    if m < 0x8000_0000 then m else m - 0x1_0000_0000
  }

  function Code(c: char): int {
    c as int - '0' as int
  }

  predicate IsDigit(c: char) {
    '0' <= c <= '9'
  }

  /** What mStringToInt makes of the text behind an accumulated n. */
  function Parse(s: string, n: int32): int32 {
    if s == [] || !IsDigit(s[0]) then n else Parse(s[1..], Int32(10 * n + Code(s[0])))
  }

  /** Wrapping after every operation or once at the end makes no difference. */
  lemma Int32Sum(a: int, b: int)
    ensures Int32(Int32(a) + b) == Int32(a + b)
  {
    var m := 0x1_0000_0000;
    var k := a / m;
    assert a == m * k + a % m;
  }

  /** Int32 changes a number by a multiple of 2^32 only. */
  lemma Int32Means(n: int)
    ensures (n - Int32(n)) % 0x1_0000_0000 == 0
  {
    var m := 0x1_0000_0000;
    assert n == m * (n / m) + n % m;
  }

  lemma Int32Shift(n: int, j: int)
    ensures Int32(n + 0x1_0000_0000 * j) == Int32(n)
  {
  }

  lemma Int32Times(n: int, c: int)
    ensures Int32(10 * Int32(n) + c) == Int32(10 * n + c)
  {
    var j := if n % 0x1_0000_0000 < 0x8000_0000 then n / 0x1_0000_0000 else n / 0x1_0000_0000 + 1;
    assert n == Int32(n) + 0x1_0000_0000 * j;
    Int32Shift(10 * Int32(n) + c, 10 * j);
  }

  /** Reading any digits, lowest first in d, gives their decimal value modulo 2^32. */
  lemma {:induction false} ParseMeans(d: seq<nat>, rest: string)
    requires forall i :: 0 <= i < |d| ==> d[i] < 10
    ensures Parse(Reverse(Chars(d)) + rest, 0) == Parse(rest, Int32(Value(d, 10)))
  {
    if d == [] {
      assert Reverse(Chars(d)) + rest == rest;
    } else {
      CharsLowest(d);
      ParseRegrouped(Reverse(Chars(d[1..])), DIGITS[d[0]], rest);
      ParseMeans(d[1..], [DIGITS[d[0]]] + rest);
      ParseDigitOnto(d[0], Value(d[1..], 10), rest);
    }
  }

  lemma CharsLowest(d: seq<nat>)
    requires d != [] && forall i :: 0 <= i < |d| ==> d[i] < 10
    ensures Reverse(Chars(d)) == Reverse(Chars(d[1..])) + [DIGITS[d[0]]]
  {
    ReverseFirst(DIGITS[d[0]], Chars(d[1..]));
  }

  lemma ReverseFirst(c: char, t: string)
    ensures Reverse([c] + t) == Reverse(t) + [c]
  {
    assert ([c] + t)[1..] == t;
  }

  lemma ParseDigitOnto(d: nat, n: int, rest: string)
    requires d < 10
    ensures Parse([DIGITS[d]] + rest, Int32(n)) == Parse(rest, Int32(d + 10 * n))
  {
    DigitChar(d);
    ParseOne(DIGITS[d], rest, Int32(n));
    Int32Times(n, d);
  }

  lemma DigitChar(d: nat)
    requires d < 10
    ensures IsDigit(DIGITS[d]) && Code(DIGITS[d]) == d
  {
  }

  lemma ParseOne(c: char, rest: string, n: int32)
    requires IsDigit(c)
    ensures Parse([c] + rest, n) == Parse(rest, Int32(10 * n + Code(c)))
  {
    assert ([c] + rest)[1..] == rest;
  }

  lemma CharsTail(x: nat)
    requires x >= 10
    ensures Reverse(Chars(Digits(x, 10))) == Reverse(Chars(Digits(Shrink(x, 10), 10))) + [DIGITS[x % 10]]
  {
    var t := Chars(Digits(Shrink(x, 10), 10));
    assert Digits(x, 10)[1..] == Digits(Shrink(x, 10), 10);
    assert Chars(Digits(x, 10)) == [DIGITS[x % 10]] + t;
    assert ([DIGITS[x % 10]] + t)[1..] == t;
  }

  /** Behind the digits of x, highest first, the parser stands at x. */
  lemma {:induction false} ParseDigitsThen(x: nat, rest: string)
    requires x < 0x8000_0000
    ensures Parse(Reverse(Chars(Digits(x, 10))) + rest, 0) == Parse(rest, x)
    decreases x
  {
    if x < 10 {
      ParseDigit(x, rest);
    } else {
      var q := Shrink(x, 10);
      CharsTail(x);
      DigitChar(x % 10);
      ParseRegrouped(Reverse(Chars(Digits(q, 10))), DIGITS[x % 10], rest);
      ParseDigitsThen(q, [DIGITS[x % 10]] + rest);
      ParseOne(DIGITS[x % 10], rest, q);
    }
  }

  lemma ParseDigit(x: nat, rest: string)
    requires x < 10
    ensures Parse(Reverse(Chars(Digits(x, 10))) + rest, 0) == Parse(rest, x)
  {
    DigitChar(x);
    assert Chars(Digits(x, 10)) == [DIGITS[x]];
    assert Reverse([DIGITS[x]]) == [DIGITS[x]];
    ParseOne(DIGITS[x], rest, 0);
  }

  lemma ParseRegrouped(s: string, c: char, rest: string)
    ensures Parse(s + [c] + rest, 0) == Parse(s + ([c] + rest), 0)
  {
    assert s + [c] + rest == s + ([c] + rest);
  }

  /** The round trip: reading the printed digits of x gives x back. */
  lemma ParseUndoesText(x: nat, rest: string)
    requires x < 0x8000_0000 && (rest == [] || !IsDigit(rest[0]))
    ensures Parse(Reverse(Text(x, 10, true)) + rest, 0) == x
    ensures Parse(Reverse(Text(x, 10, false)) + rest, 0) == x
  {
    ParseDigitsThen(x, rest);
    assert Chars(Digits(x, 10)) + "" == Chars(Digits(x, 10));
  }
}
