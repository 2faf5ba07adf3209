/** The non-adjacent form of a scalar of secp256k1. */
module Naf {
  import opened Bits

  newtype u8 = x: int | 0 <= x < 256
  newtype u256 = x: int | 0 <= x < 0x1_0000_0000_0000_0000_0000_0000_0000_0000_0000_0000_0000_0000_0000_0000_0000_0000

  const MODULUS: u256 := 0xFFFF_FFFF_FFFF_FFFF_FFFF_FFFF_FFFF_FFFE_BAAE_DCE6_AF48_A03B_BFD2_5E8C_D036_4141
  const BIT_SIZE: nat := 256

  /** Digits: 1 stands for one, 2 for minus one. */
  class NafEncoding {
    var digits: array<u8>

    constructor (capacity: nat)
      ensures fresh(digits) && digits.Length == capacity && forall i :: 0 <= i < capacity ==> digits[i] == 0
    {
      digits := new u8[capacity](_ => 0);
    }

    method CreateNeg(i: nat)
      requires i < digits.Length
      modifies digits
      ensures digits[..] == old(digits[..])[i := 2]
    {
      digits[i] := 2;
    }

    method CreatePos(i: nat)
      requires i < digits.Length
      modifies digits
      ensures digits[..] == old(digits[..])[i := 1]
    {
      digits[i] := 1;
    }

    method CreateZero(i: nat)
      requires i < digits.Length
      modifies digits
      ensures digits[..] == old(digits[..])[i := 0]
    {
      digits[i] := 0;
    }
  }

  function Digit(d: u8): int { if d == 1 then 1 else if d == 2 then -1 else 0 }

  /** The value of the first `n` digits. */
  function Value(digits: seq<u8>, n: nat): int
    requires n <= |digits|
  {
    if n == 0 then 0 else Value(digits, n - 1) + Digit(digits[n - 1]) * Pow2(n - 1)
  }

  /** No two neighbours are both nonzero. */
  predicate NonAdjacent(digits: seq<u8>) {
    forall i :: 0 < i < |digits| ==> digits[i - 1] == 0 || digits[i] == 0
  }

  lemma {:induction false} ValueFrame(a: seq<u8>, b: seq<u8>, n: nat)
    requires n <= |a| && n <= |b| && a[..n] == b[..n]
    ensures Value(a, n) == Value(b, n)
  {
    if n > 0 {
      assert a[..n - 1] == a[..n][..n - 1] && b[..n - 1] == b[..n][..n - 1];
      assert a[n - 1] == a[..n][n - 1] && b[n - 1] == b[..n][n - 1];
      ValueFrame(a, b, n - 1);
    }
  }

  lemma {:induction false} TrailingZeros(a: seq<u8>, n: nat, m: nat)
    requires n <= m <= |a| && forall i :: n <= i < m ==> a[i] == 0
    ensures Value(a, m) == Value(a, n)
    decreases m
  {
    if n < m { TrailingZeros(a, n, m - 1); }
  }

  /** What the loop of `to_naf` keeps: digits so far and the value left add up to the scalar. */
  ghost predicate Recoding(scalar: int, digits: seq<u8>, i: nat, val: int) {
    && |digits| == BIT_SIZE + 1 && i <= BIT_SIZE + 1
    && scalar == Value(digits, i) + val * Pow2(i)
    && 0 <= val && (i <= BIT_SIZE ==> val <= Pow2(BIT_SIZE - i)) && (i == BIT_SIZE + 1 ==> val == 0)
    && (forall j :: i <= j < |digits| ==> digits[j] == 0)
    && (forall j :: 0 < j < i ==> digits[j - 1] == 0 || digits[j] == 0)
    && (forall j :: 0 <= j < |digits| ==> digits[j] <= 2)
    && (i > 0 && digits[i - 1] != 0 ==> val % 2 == 0)
  }

  /** The digit that `to_naf` gives an odd or even value. */
  function NextDigit(val: int): u8 {
    if val % 2 == 1 then if (val / 2) % 2 == 1 then 2 else 1 else 0
  }

  lemma RecodeStep(scalar: int, digits: seq<u8>, i: nat, val: int)
    requires Recoding(scalar, digits, i, val) && val > 0
    ensures i < |digits|
    ensures Recoding(scalar, digits[i := NextDigit(val)], i + 1, (val - Digit(NextDigit(val))) / 2)
  {
    hide Pow2;
    var d, after := NextDigit(val), digits[i := NextDigit(val)];
    Pow2Next(i);
    var rest := (val - Digit(d)) / 2;
    DigitFits(val);
    hide NextDigit, Digit;
    ValueFrame(digits, after, i);
    SumStep(val, rest, Digit(d), Pow2(i));
    if i < BIT_SIZE { Pow2Next(BIT_SIZE - i - 1); }
  }

  /** The digit leaves twice what is left, an even number if the digit is not zero. */
  lemma DigitFits(val: int)
    requires val > 0
    ensures var d := NextDigit(val); var rest := (val - Digit(d)) / 2;
      && val == 2 * rest + Digit(d) && 0 <= rest <= val && d <= 2 && (d != 0 ==> rest % 2 == 0) && 2 * rest <= val + 1
      && (val % 2 == 0 ==> d == 0)
  {
  }

  lemma SumStep(val: int, rest: int, d: int, power: int)
    requires val == 2 * rest + d
    ensures val * power == d * power + rest * (2 * power)
  {
  }

  lemma ScalarFits()
    ensures MODULUS as int <= Pow2(BIT_SIZE)
  {
    hide Pow2;
    Pow2Of256();
  }

  /** 2 to the 256, by squaring. */
  lemma Pow2Of256()
    ensures Pow2(256) == 0x1_0000_0000_0000_0000_0000_0000_0000_0000_0000_0000_0000_0000_0000_0000_0000_0000
  {
    hide Pow2;
    Pow2Eight();
    Pow2Sum(8, 8);
    Pow2Sum(16, 16);
    Pow2Sum(32, 32);
    Pow2Sum(64, 64);
    Pow2Sum(128, 128);
  }

  lemma Pow2Eight()
    ensures Pow2(8) == 256
  {
    assert Pow2(4) == 16;
  }

  /** The digits of the scalar; never more than the 257 there is room for. */
  method ToNaf(scalar: u256) returns (naf: NafEncoding)
    requires scalar < MODULUS
    ensures fresh(naf) && fresh(naf.digits) && naf.digits.Length == BIT_SIZE + 1
    ensures Value(naf.digits[..], BIT_SIZE + 1) == scalar as int
    ensures NonAdjacent(naf.digits[..])
    ensures forall i :: 0 <= i <= BIT_SIZE ==> naf.digits[..][i] <= 2
  {
    hide Pow2, Value, Recoding, NonAdjacent;
    naf := new NafEncoding(BIT_SIZE + 1);
    var val := scalar;
    var i := 0;
    ScalarFits();
    RecodeStart(scalar as int, naf.digits[..]);
    while val != 0
      invariant fresh(naf) && fresh(naf.digits) && naf.digits.Length == BIT_SIZE + 1
      invariant Recoding(scalar as int, naf.digits[..], i, val as int) && val < MODULUS
      decreases val
    {
      RecodeStep(scalar as int, naf.digits[..], i, val as int);
      if val % 2 == 1 {
        if (val / 2) % 2 == 1 {
          naf.CreateNeg(i);
          val := val + 1;
        } else {
          naf.CreatePos(i);
          val := val - 1;
        }
      } else {
        naf.CreateZero(i);
      }
      i := i + 1;
      val := val / 2;
    }
    RecodeEnd(scalar as int, naf.digits[..], i);
  }

  lemma RecodeStart(scalar: int, digits: seq<u8>)
    requires 0 <= scalar <= Pow2(BIT_SIZE) && |digits| == BIT_SIZE + 1 && forall i :: 0 <= i < |digits| ==>
      digits[i] == 0
    ensures Recoding(scalar, digits, 0, scalar)
  {
  }

  lemma RecodeEnd(scalar: int, digits: seq<u8>, i: nat)
    requires Recoding(scalar, digits, i, 0)
    ensures |digits| == BIT_SIZE + 1 && Value(digits, BIT_SIZE + 1) == scalar && NonAdjacent(digits)
    ensures forall j :: 0 <= j < |digits| ==> digits[j] <= 2
  {
    TrailingZeros(digits, i, BIT_SIZE + 1);
  }
}
