/** util/mPrint.cpp: conversion of integers to text and back. */
module MPrint {
  import opened PrintSpec

  const BUFFER_SIZE := 16

  ghost predicate AllDigits(d: seq<nat>) {
    forall i :: 0 <= i < |d| ==> d[i] < 16
  }

  lemma AppendDigit(d: seq<nat>, r: nat)
    requires AllDigits(d) && r < 16
    ensures AllDigits(d + [r]) && Chars(d + [r]) == Chars(d) + [DIGITS[r]]
  {
  }

  /** What every digit loop keeps: i characters are out, and they begin the digits of x. */
  ghost predicate Printing(buf: array<char>, i: nat, x: nat, base: nat, done: seq<nat>, left: nat, more: bool)
    requires 2 <= base <= 16
    reads buf
  {
    && i == |done| <= buf.Length && AllDigits(done) && buf[..i] == Chars(done)
    && Digits(x, base) == if more then done + Digits(left, base) else done
  }

  /** buf[i++] = digits[r] */
  method Emit(buf: array<char>, i: nat, r: nat, ghost x: nat, ghost base: nat, ghost done: seq<nat>, ghost left: nat)
    returns (i': nat)
    requires 2 <= base <= 16 && |Digits(x, base)| <= buf.Length && r == left % base
    requires Printing(buf, i, x, base, done, left, true)
    modifies buf
    ensures i' == i + 1
    ensures Printing(buf, i', x, base, done + [r], left / base, left / base != 0)
    ensures forall j :: i' <= j < buf.Length ==> buf[j] == old(buf[j])
  {
    DigitsStep(done, left, base);
    AppendDigit(done, r);
    buf[i] := DIGITS[r];
    i' := i + 1;
    assert buf[..i'] == old(buf[..i]) + [DIGITS[r]];
  }

  /** Quotient and remainder by 10: multiply, shift, and correct an estimate that is too high. */
  method DivideByTen(xl: nat) returns (q: nat, r: int, ghost corrections: nat)
    requires xl < TWO32
    ensures q == xl / 10 && r == xl % 10 && corrections <= 1
  {
    EstimateClose(xl);
    q := Estimate(xl);
    r := xl - 10 * q;
    corrections := 0;
    while r < 0
      invariant xl == 10 * q + r && corrections <= 1
      invariant q == xl / 10 + 1 - corrections || (corrections == 0 && q == xl / 10)
      decreases 1 - corrections
    {
      q := q - 1;
      r := r + 10;
      corrections := corrections + 1;
    }
  }

  method ConvertTen(buf: array<char>, x: nat) returns (i: nat)
    requires x < TWO32 && |Digits(x, 10)| <= buf.Length
    modifies buf
    ensures i == |Digits(x, 10)| && buf[..i] == Chars(Digits(x, 10))
    ensures forall j :: i <= j < buf.Length ==> buf[j] == old(buf[j])
  {
    i := 0;
    var xl: nat := x;
    var more := true;
    ghost var done: seq<nat> := [];
    while more
      invariant xl < TWO32 && Printing(buf, i, x, 10, done, xl, more)
      invariant forall j :: i <= j < buf.Length ==> buf[j] == old(buf[j])
      decreases xl, more
    {
      var q, r, _ := DivideByTen(xl);
      i := Emit(buf, i, r, x, 10, done, xl);
      done := done + [r];
      xl := q;
      more := xl != 0;
    }
  }

  /** The loops of bases 16, 8, 4 and 2: mask and shift. */
  method ConvertShift(buf: array<char>, x: nat, bits: nat, mask: nat, ghost base: nat) returns (i: nat)
    requires (bits, mask, base) in {(4, 15, 16), (3, 7, 8), (2, 3, 4), (1, 1, 2)}
    requires |Digits(x, base)| <= buf.Length
    modifies buf
    ensures i == |Digits(x, base)| && buf[..i] == Chars(Digits(x, base))
    ensures forall j :: i <= j < buf.Length ==> buf[j] == old(buf[j])
  {
    i := 0;
    var left: nat := x;
    var more := true;
    ghost var done: seq<nat> := [];
    while more
      invariant Printing(buf, i, x, base, done, left, more)
      invariant forall j :: i <= j < buf.Length ==> buf[j] == old(buf[j])
      decreases left, more
    {
      MaskAndShift(left, bits, mask, base);
      var r := And(left, mask);
      i := Emit(buf, i, r, x, base, done, left);
      done := done + [r];
      left := Shr(left, bits);
      more := left != 0;
    }
  }

  /** Masking and shifting are remainder and quotient. */
  lemma MaskAndShift(x: nat, bits: nat, mask: nat, base: nat)
    requires (bits, mask, base) in {(4, 15, 16), (3, 7, 8), (2, 3, 4), (1, 1, 2)}
    ensures And(x, mask) == x % base && Shr(x, bits) == x / base
  {
    if bits == 1 { MaskOne(x); }
    if bits == 2 { MaskTwo(x); }
    if bits == 3 { MaskThree(x); }
    if bits == 4 { MaskFour(x); }
  }

  method ConvertPlain(buf: array<char>, x: nat, base: nat) returns (i: nat)
    requires 2 <= base <= 16 && |Digits(x, base)| <= buf.Length
    modifies buf
    ensures i == |Digits(x, base)| && buf[..i] == Chars(Digits(x, base))
    ensures forall j :: i <= j < buf.Length ==> buf[j] == old(buf[j])
  {
    i := 0;
    var left: nat := x;
    var more := true;
    ghost var done: seq<nat> := [];
    while more
      invariant Printing(buf, i, x, base, done, left, more)
      invariant forall j :: i <= j < buf.Length ==> buf[j] == old(buf[j])
      decreases left, more
    {
      assert left / base == Shrink(left, base);
      var r := left % base;
      i := Emit(buf, i, r, x, base, done, left);
      done := done + [r];
      left := left / base;
      more := left != 0;
    }
  }

  method ConvertDigits(buf: array<char>, x: nat, base: nat) returns (i: nat)
    requires x < TWO32 && 2 <= base <= 16 && |Digits(x, base)| <= buf.Length
    modifies buf
    ensures i == |Digits(x, base)| && buf[..i] == Chars(Digits(x, base))
    ensures forall j :: i <= j < buf.Length ==> buf[j] == old(buf[j])
  {
    match base
    case 10 => i := ConvertTen(buf, x);
    case 16 => i := ConvertShift(buf, x, 4, 15, 16);
    case 8 => i := ConvertShift(buf, x, 3, 7, 8);
    case 4 => i := ConvertShift(buf, x, 2, 3, 4);
    case 2 => i := ConvertShift(buf, x, 1, 1, 2);
    case _ => i := ConvertPlain(buf, x, base);
  }

  /** mConvertInt, for a buffer that is long enough. */
  method ConvertInt(buf: array<char>, xx: int32, base: int, sgn: bool) returns (i: nat)
    requires 2 <= base <= 16 ==> |Text(xx, base, sgn)| <= buf.Length
    modifies buf
    ensures !(2 <= base <= 16) ==> i == 0 && buf[..] == old(buf[..])
    ensures 2 <= base <= 16 ==> i == |Text(xx, base, sgn)| && buf[..i] == Text(xx, base, sgn)
    ensures forall j :: i <= j < buf.Length ==> buf[j] == old(buf[j])
  {
    var neg := sgn && xx < 0;
    var x := Magnitude(xx, sgn);
    if base < 2 || base > 16 { return 0; }
    i := ConvertDigits(buf, x, base);
    if neg {
      ghost var s := buf[..i];
      buf[i] := '-';
      i := i + 1;
      assert buf[..i] == s + ['-'];
    }
  }

  /** mPrintInt_nonatom: the characters handed to putc.  The array is the 16-character buffer and the 17
      characters of stack behind it; !fits: those were written, and what is printed is not modelled. */
  method PrintInt(xx: int32, base: int, sgn: bool) returns (fits: bool, out: string)
    ensures fits <==> !(2 <= base <= 16) || |Text(xx, base, sgn)| <= 16
    ensures fits ==> out == if 2 <= base <= 16 then Reverse(Text(xx, base, sgn)) else ""
  {
    var buf := new char[BUFFER_SIZE + 17](_ => '\0');
    if 2 <= base <= 16 { AtMostThirtyThree(xx, base, sgn); }
    var i: int := ConvertInt(buf, xx, base, sgn);
    fits, out := i <= BUFFER_SIZE, "";
    if !fits { return; }
    ghost var s := buf[..i];
    i := i - 1;
    while i >= 0
      invariant -1 <= i < |s| && s <= buf[..]
      invariant out == Reverse(s[i + 1..])
      decreases i
    {
      out := out + [buf[i]];
      assert s[i..][1..] == s[i + 1..] && s[i] == buf[..][i];
      i := i - 1;
    }
    assert s[0..] == s;
  }

  /** 32 bits have at most 32 digits, and there is a sign. */
  lemma AtMostThirtyThree(xx: int32, base: nat, sgn: bool)
    requires 2 <= base <= 16
    ensures |Text(xx, base, sgn)| <= 33
  {
    SixteenBits();
    PowSum(2, 16, 16);
    PowBase(base, 32);
    LengthExact(Magnitude(xx, sgn), base, 32);
  }

  /** The 16-character buffer is long enough exactly for magnitudes below base^16, or base^15 with a sign. */
  lemma FitsBuffer(xx: int32, base: nat, sgn: bool)
    requires 2 <= base <= 16
    ensures |Text(xx, base, sgn)| <= 16
       <==> Magnitude(xx, sgn) < Pow(base, if sgn && xx < 0 then 15 else 16)
  {
    LengthExact(Magnitude(xx, sgn), base, if sgn && xx < 0 then 15 else 16);
  }

  /** Two numbers whose seventeen characters do not fit: 65536 in base 2, and -32768 with its sign. */
  lemma SeventeenCharacters()
    ensures |Text(65536, 2, false)| == 17 && |Text(-32768, 2, true)| == 17
  {
    SixteenBits();
    LengthExact(65536, 2, 16);
    LengthExact(65536, 2, 17);
    LengthExact(32768, 2, 15);
    LengthExact(32768, 2, 16);
  }

  lemma SixteenBits()
    ensures Pow(2, 15) == 32768 && Pow(2, 16) == 65536 && Pow(2, 17) == 131072
  {
    assert Pow(2, 8) == 256;
    assert Pow(2, 15) == 128 * Pow(2, 8);
  }

  /** mStringToInt on a NUL-terminated string. */
  method StringToInt(s: string) returns (n: int32)
    requires '\0' in s
    ensures n == Parse(s, 0)
  {
    n := 0;
    var p := 0;
    while IsDigit(s[p])
      invariant p < |s| && '\0' in s[p..] && Parse(s[p..], n) == Parse(s, 0)
      decreases |s| - p
    {
      assert s[p..][1..] == s[p + 1..];
      Wrapped(n, s[p]);
      n := Int32(Int32(Int32(n * 10) + s[p] as int) - '0' as int);
      p := p + 1;
    }
  }

  lemma Wrapped(n: int32, c: char)
    ensures Int32(Int32(Int32(n * 10) + c as int) - '0' as int) == Int32(10 * n + Code(c))
  {
    Int32Sum(n * 10, c as int);
    Int32Sum(n * 10 + c as int, -('0' as int));
  }
}
