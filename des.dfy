/**
 * The DES block cipher of self-report/des.go (FIPS PUB 46-3). The Go code
 * keeps every bit string in an `[]int` holding only 0 and 1; here such a
 * string is a `seq<Bit>`. Each Go function that fills its result in a loop
 * is a method proved equal to a specification function; the straight-line
 * table lookups are functions.
 */
module Des {

  type Bit = b: int | 0 <= b <= 1

  /** A 32-bit half block, as held in `ipLeft` and `ipRight`. */
  type Half = s: seq<Bit> | |s| == 32 witness seq(32, _ => 0)

  /** A 48-bit round subkey, one row of the result of GenerateKeys. */
  type Subkey = s: seq<Bit> | |s| == 48 witness seq(48, _ => 0)

  /** A value held by an S-box, 0 to 15. */
  type Nibble = x: int | 0 <= x < 16

  /** One row of an S-box. */
  type SRowTable = s: seq<Nibble> | |s| == 16 witness seq(16, _ => 0)

  /** Go's `^` applied to two ints that are 0 or 1. */
  function BitXor(x: Bit, y: Bit): Bit
  {
    if x == y then 0 else 1
  }

  /** The big-endian value of a bit string. */
  function BitsValue(b: seq<Bit>): nat
  {
    if b == [] then 0 else 2 * BitsValue(b[..|b| - 1]) + b[|b| - 1]
  }

  function Reverse<T>(s: seq<T>): (r: seq<T>)
    ensures |r| == |s|
  {
    seq(|s|, i requires 0 <= i < |s| => s[|s| - 1 - i])
  }

  lemma ReverseSnoc<T>(s: seq<T>, x: T)
    ensures Reverse(s + [x]) == [x] + Reverse(s)
  {
  }

  lemma ReverseReverse<T>(s: seq<T>)
    ensures Reverse(Reverse(s)) == s
  {
  }

  // ---------------------------------------------------------------------
  // Xor (self-report/des.go:606-613)
  // ---------------------------------------------------------------------

  /** What Xor computes: entry i is `a[i] ^ b[i]` for every index of `a`. */
  function XorBits(a: seq<Bit>, b: seq<Bit>): (r: seq<Bit>)
    requires |b| >= |a|
    ensures |r| == |a|
  {
    seq(|a|, i requires 0 <= i < |a| => BitXor(a[i], b[i]))
  }

  /** Xor with the same argument twice is the identity. */
  lemma XorTwice(a: seq<Bit>, b: seq<Bit>)
    requires |b| >= |a|
    ensures XorBits(XorBits(a, b), b) == a
  {
  }

  /** Xor with the same first argument twice gives back the second. */
  lemma XorCancel(a: seq<Bit>, b: seq<Bit>)
    requires |a| == |b|
    ensures XorBits(a, XorBits(a, b)) == b
  {
  }

  method Xor(byteOne: seq<Bit>, byteTwo: seq<Bit>) returns (xorByte: seq<Bit>)
    requires |byteTwo| >= |byteOne|
    ensures xorByte == XorBits(byteOne, byteTwo)
  {
    var out := new Bit[|byteOne|];
    for i := 0 to |byteOne|
      invariant forall j :: 0 <= j < i ==> out[j] == BitXor(byteOne[j], byteTwo[j])
    {
      out[i] := BitXor(byteOne[i], byteTwo[i]);
    }
    xorByte := out[..];
  }

  // ---------------------------------------------------------------------
  // Initial and final permutations (self-report/des.go:309-376, 615-634)
  // ---------------------------------------------------------------------

  /**
   * The input position of output bit p of InitPermute: output row i
   * (of 8 bits) takes column 2i+1 (first half) or 2i (second half) of the
   * input read from its last row to its first. This is the IP table of
   * FIPS 46-3, counted from 0.
   */
  function InitIndex(p: nat): (r: nat)
    requires p < 64
    ensures r < 64
  {
    (7 - p % 8) * 8 + 2 * ((p % 32) / 8) + (if p < 32 then 1 else 0)
  }

  /** What InitPermute computes. */
  function InitPerm(x: seq<Bit>): (r: seq<Bit>)
    requires |x| >= 64
    ensures |r| == 64
  {
    seq(64, p requires 0 <= p < 64 => x[InitIndex(p)])
  }

  method InitPermute(originalData: seq<Bit>) returns (ipByte: seq<Bit>)
    requires |originalData| >= 64
    ensures ipByte == InitPerm(originalData)
  {
    var ip := new Bit[64];
    var i, m, n := 0, 1, 0;
    while i < 4
      invariant 0 <= i <= 4 && m == 2 * i + 1 && n == 2 * i
      invariant forall p :: 0 <= p < 8 * i ==> ip[p] == originalData[InitIndex(p)]
      invariant forall p :: 32 <= p < 32 + 8 * i ==> ip[p] == originalData[InitIndex(p)]
    {
      var j, k := 7, 0;
      while j >= 0
        invariant -1 <= j <= 7 && k == 7 - j
        invariant forall p :: 0 <= p < 8 * i + k ==> ip[p] == originalData[InitIndex(p)]
        invariant forall p :: 32 <= p < 32 + 8 * i + k ==> ip[p] == originalData[InitIndex(p)]
      {
        InitIndexAt(i, k);
        ip[i * 8 + k] := originalData[j * 8 + m];
        ip[i * 8 + k + 32] := originalData[j * 8 + n];
        j, k := j - 1, k + 1;
      }
      i, m, n := i + 1, m + 2, n + 2;
    }
    ipByte := ip[..];
  }

  lemma InitIndexAt(i: nat, k: nat)
    requires i < 4 && k < 8
    ensures InitIndex(i * 8 + k) == (7 - k) * 8 + 2 * i + 1
    ensures InitIndex(i * 8 + k + 32) == (7 - k) * 8 + 2 * i
  {
    var p := i * 8 + k;
    DivMod8(i, k);
    DivMod8(i + 4, k);
    assert p + 32 == (i + 4) * 8 + k;
    assert p % 32 == p && (p + 32) % 32 == p;
  }

  lemma DivMod8(i: nat, k: nat)
    requires k < 8
    ensures (i * 8 + k) % 8 == k && (i * 8 + k) / 8 == i
  {
  }

  /** The source position of output bit p of FinallyPermute (self-report/des.go:311-374). */
  function FinalIndex(p: nat): (r: nat)
    requires p < 64
    ensures r < 64
  {
    if p < 8 then
      match p case 0 => 39 case 1 => 7 case 2 => 47 case 3 => 15 case 4 => 55 case 5 => 23 case 6 => 63 case _ => 31
    else if p < 16 then
      match p case 8 => 38 case 9 => 6 case 10 => 46 case 11 => 14 case 12 => 54 case 13 => 22 case 14 => 62 case _ => 30
    else if p < 24 then
      match p case 16 => 37 case 17 => 5 case 18 => 45 case 19 => 13 case 20 => 53 case 21 => 21 case 22 => 61 case _ => 29
    else if p < 32 then
      match p case 24 => 36 case 25 => 4 case 26 => 44 case 27 => 12 case 28 => 52 case 29 => 20 case 30 => 60 case _ => 28
    else if p < 40 then
      match p case 32 => 35 case 33 => 3 case 34 => 43 case 35 => 11 case 36 => 51 case 37 => 19 case 38 => 59 case _ => 27
    else if p < 48 then
      match p case 40 => 34 case 41 => 2 case 42 => 42 case 43 => 10 case 44 => 50 case 45 => 18 case 46 => 58 case _ => 26
    else if p < 56 then
      match p case 48 => 33 case 49 => 1 case 50 => 41 case 51 => 9 case 52 => 49 case 53 => 17 case 54 => 57 case _ => 25
    else
      match p case 56 => 32 case 57 => 0 case 58 => 40 case 59 => 8 case 60 => 48 case 61 => 16 case 62 => 56 case _ => 24
  }

  /** What FinallyPermute computes, one table lookup per output bit. */
  function FinallyPermute(endByte: seq<Bit>): (r: seq<Bit>)
    requires |endByte| >= 64
    ensures |r| == 64
  {
    seq(64, p requires 0 <= p < 64 => endByte[FinalIndex(p)])
  }

  lemma InitAfterFinalRow0(p: nat)
    requires 0 <= p < 8
    ensures FinalIndex(InitIndex(p)) == p
  {
    if p == 0 { assert InitIndex(p) == 57; }
    else if p == 1 { assert InitIndex(p) == 49; }
    else if p == 2 { assert InitIndex(p) == 41; }
    else if p == 3 { assert InitIndex(p) == 33; }
    else if p == 4 { assert InitIndex(p) == 25; }
    else if p == 5 { assert InitIndex(p) == 17; }
    else if p == 6 { assert InitIndex(p) == 9; }
    else { assert InitIndex(p) == 1; }
  }

  lemma InitAfterFinalRow1(p: nat)
    requires 8 <= p < 16
    ensures FinalIndex(InitIndex(p)) == p
  {
    if p == 8 { assert InitIndex(p) == 59; }
    else if p == 9 { assert InitIndex(p) == 51; }
    else if p == 10 { assert InitIndex(p) == 43; }
    else if p == 11 { assert InitIndex(p) == 35; }
    else if p == 12 { assert InitIndex(p) == 27; }
    else if p == 13 { assert InitIndex(p) == 19; }
    else if p == 14 { assert InitIndex(p) == 11; }
    else { assert InitIndex(p) == 3; }
  }

  lemma InitAfterFinalRow2(p: nat)
    requires 16 <= p < 24
    ensures FinalIndex(InitIndex(p)) == p
  {
    if p == 16 { assert InitIndex(p) == 61; }
    else if p == 17 { assert InitIndex(p) == 53; }
    else if p == 18 { assert InitIndex(p) == 45; }
    else if p == 19 { assert InitIndex(p) == 37; }
    else if p == 20 { assert InitIndex(p) == 29; }
    else if p == 21 { assert InitIndex(p) == 21; }
    else if p == 22 { assert InitIndex(p) == 13; }
    else { assert InitIndex(p) == 5; }
  }

  lemma InitAfterFinalRow3(p: nat)
    requires 24 <= p < 32
    ensures FinalIndex(InitIndex(p)) == p
  {
    if p == 24 { assert InitIndex(p) == 63; }
    else if p == 25 { assert InitIndex(p) == 55; }
    else if p == 26 { assert InitIndex(p) == 47; }
    else if p == 27 { assert InitIndex(p) == 39; }
    else if p == 28 { assert InitIndex(p) == 31; }
    else if p == 29 { assert InitIndex(p) == 23; }
    else if p == 30 { assert InitIndex(p) == 15; }
    else { assert InitIndex(p) == 7; }
  }

  lemma InitAfterFinalRow4(p: nat)
    requires 32 <= p < 40
    ensures FinalIndex(InitIndex(p)) == p
  {
    if p == 32 { assert InitIndex(p) == 56; }
    else if p == 33 { assert InitIndex(p) == 48; }
    else if p == 34 { assert InitIndex(p) == 40; }
    else if p == 35 { assert InitIndex(p) == 32; }
    else if p == 36 { assert InitIndex(p) == 24; }
    else if p == 37 { assert InitIndex(p) == 16; }
    else if p == 38 { assert InitIndex(p) == 8; }
    else { assert InitIndex(p) == 0; }
  }

  lemma InitAfterFinalRow5(p: nat)
    requires 40 <= p < 48
    ensures FinalIndex(InitIndex(p)) == p
  {
    if p == 40 { assert InitIndex(p) == 58; }
    else if p == 41 { assert InitIndex(p) == 50; }
    else if p == 42 { assert InitIndex(p) == 42; }
    else if p == 43 { assert InitIndex(p) == 34; }
    else if p == 44 { assert InitIndex(p) == 26; }
    else if p == 45 { assert InitIndex(p) == 18; }
    else if p == 46 { assert InitIndex(p) == 10; }
    else { assert InitIndex(p) == 2; }
  }

  lemma InitAfterFinalRow6(p: nat)
    requires 48 <= p < 56
    ensures FinalIndex(InitIndex(p)) == p
  {
    if p == 48 { assert InitIndex(p) == 60; }
    else if p == 49 { assert InitIndex(p) == 52; }
    else if p == 50 { assert InitIndex(p) == 44; }
    else if p == 51 { assert InitIndex(p) == 36; }
    else if p == 52 { assert InitIndex(p) == 28; }
    else if p == 53 { assert InitIndex(p) == 20; }
    else if p == 54 { assert InitIndex(p) == 12; }
    else { assert InitIndex(p) == 4; }
  }

  lemma InitAfterFinalRow7(p: nat)
    requires 56 <= p < 64
    ensures FinalIndex(InitIndex(p)) == p
  {
    if p == 56 { assert InitIndex(p) == 62; }
    else if p == 57 { assert InitIndex(p) == 54; }
    else if p == 58 { assert InitIndex(p) == 46; }
    else if p == 59 { assert InitIndex(p) == 38; }
    else if p == 60 { assert InitIndex(p) == 30; }
    else if p == 61 { assert InitIndex(p) == 22; }
    else if p == 62 { assert InitIndex(p) == 14; }
    else { assert InitIndex(p) == 6; }
  }

  /** The initial permutation undoes the final one. */
  lemma InitAfterFinalIndex(p: nat)
    requires p < 64
    ensures FinalIndex(InitIndex(p)) == p
  {
    if p < 8 { InitAfterFinalRow0(p); }
    else if p < 16 { InitAfterFinalRow1(p); }
    else if p < 24 { InitAfterFinalRow2(p); }
    else if p < 32 { InitAfterFinalRow3(p); }
    else if p < 40 { InitAfterFinalRow4(p); }
    else if p < 48 { InitAfterFinalRow5(p); }
    else if p < 56 { InitAfterFinalRow6(p); }
    else { InitAfterFinalRow7(p); }
  }

  lemma FinalAfterInitRow0(p: nat)
    requires 0 <= p < 8
    ensures FinalIndex(p) < 64 && InitIndex(FinalIndex(p)) == p
  {
    InitIndexAt(0, 7);
    InitIndexAt(1, 7);
    InitIndexAt(2, 7);
    InitIndexAt(3, 7);
    if p == 0 {}
    else if p == 1 {}
    else if p == 2 {}
    else if p == 3 {}
    else if p == 4 {}
    else if p == 5 {}
    else if p == 6 {}
  }

  lemma FinalAfterInitRow1(p: nat)
    requires 8 <= p < 16
    ensures FinalIndex(p) < 64 && InitIndex(FinalIndex(p)) == p
  {
    InitIndexAt(0, 6);
    InitIndexAt(1, 6);
    InitIndexAt(2, 6);
    InitIndexAt(3, 6);
    if p == 8 {}
    else if p == 9 {}
    else if p == 10 {}
    else if p == 11 {}
    else if p == 12 {}
    else if p == 13 {}
    else if p == 14 {}
  }

  lemma FinalAfterInitRow2(p: nat)
    requires 16 <= p < 24
    ensures FinalIndex(p) < 64 && InitIndex(FinalIndex(p)) == p
  {
    InitIndexAt(0, 5);
    InitIndexAt(1, 5);
    InitIndexAt(2, 5);
    InitIndexAt(3, 5);
    if p == 16 {}
    else if p == 17 {}
    else if p == 18 {}
    else if p == 19 {}
    else if p == 20 {}
    else if p == 21 {}
    else if p == 22 {}
  }

  lemma FinalAfterInitRow3(p: nat)
    requires 24 <= p < 32
    ensures FinalIndex(p) < 64 && InitIndex(FinalIndex(p)) == p
  {
    InitIndexAt(0, 4);
    InitIndexAt(1, 4);
    InitIndexAt(2, 4);
    InitIndexAt(3, 4);
    if p == 24 {}
    else if p == 25 {}
    else if p == 26 {}
    else if p == 27 {}
    else if p == 28 {}
    else if p == 29 {}
    else if p == 30 {}
  }

  lemma FinalAfterInitRow4(p: nat)
    requires 32 <= p < 40
    ensures FinalIndex(p) < 64 && InitIndex(FinalIndex(p)) == p
  {
    InitIndexAt(0, 3);
    InitIndexAt(1, 3);
    InitIndexAt(2, 3);
    InitIndexAt(3, 3);
    if p == 32 {}
    else if p == 33 {}
    else if p == 34 {}
    else if p == 35 {}
    else if p == 36 {}
    else if p == 37 {}
    else if p == 38 {}
  }

  lemma FinalAfterInitRow5(p: nat)
    requires 40 <= p < 48
    ensures FinalIndex(p) < 64 && InitIndex(FinalIndex(p)) == p
  {
    InitIndexAt(0, 2);
    InitIndexAt(1, 2);
    InitIndexAt(2, 2);
    InitIndexAt(3, 2);
    if p == 40 {}
    else if p == 41 {}
    else if p == 42 {}
    else if p == 43 {}
    else if p == 44 {}
    else if p == 45 {}
    else if p == 46 {}
  }

  lemma FinalAfterInitRow6(p: nat)
    requires 48 <= p < 56
    ensures FinalIndex(p) < 64 && InitIndex(FinalIndex(p)) == p
  {
    InitIndexAt(0, 1);
    InitIndexAt(1, 1);
    InitIndexAt(2, 1);
    InitIndexAt(3, 1);
    if p == 48 {}
    else if p == 49 {}
    else if p == 50 {}
    else if p == 51 {}
    else if p == 52 {}
    else if p == 53 {}
    else if p == 54 {}
  }

  lemma FinalAfterInitRow7(p: nat)
    requires 56 <= p < 64
    ensures FinalIndex(p) < 64 && InitIndex(FinalIndex(p)) == p
  {
    InitIndexAt(0, 0);
    InitIndexAt(1, 0);
    InitIndexAt(2, 0);
    InitIndexAt(3, 0);
    if p == 56 {}
    else if p == 57 {}
    else if p == 58 {}
    else if p == 59 {}
    else if p == 60 {}
    else if p == 61 {}
    else if p == 62 {}
  }

  /** The final permutation undoes the initial one. */
  lemma FinalAfterInitIndex(p: nat)
    requires p < 64
    ensures FinalIndex(p) < 64 && InitIndex(FinalIndex(p)) == p
  {
    if p < 8 { FinalAfterInitRow0(p); }
    else if p < 16 { FinalAfterInitRow1(p); }
    else if p < 24 { FinalAfterInitRow2(p); }
    else if p < 32 { FinalAfterInitRow3(p); }
    else if p < 40 { FinalAfterInitRow4(p); }
    else if p < 48 { FinalAfterInitRow5(p); }
    else if p < 56 { FinalAfterInitRow6(p); }
    else { FinalAfterInitRow7(p); }
  }

  /** FinallyPermute is the inverse of InitPermute (IP⁻¹ ∘ IP = id). */
  lemma FinallyPermuteInvertsInit(x: seq<Bit>)
    requires |x| == 64
    ensures FinallyPermute(InitPerm(x)) == x
  {
    forall p | 0 <= p < 64
      ensures FinallyPermute(InitPerm(x))[p] == x[p]
    {
      FinalAfterInitIndex(p);
    }
  }

  /** InitPermute is the inverse of FinallyPermute (IP ∘ IP⁻¹ = id). */
  lemma InitPermuteInvertsFinal(y: seq<Bit>)
    requires |y| == 64
    ensures InitPerm(FinallyPermute(y)) == y
  {
    forall p | 0 <= p < 64
      ensures InitPerm(FinallyPermute(y))[p] == y[p]
    {
      InitAfterFinalIndex(p);
    }
  }

  // ---------------------------------------------------------------------
  // P permutation (self-report/des.go:378-414)
  // ---------------------------------------------------------------------

  /** The source position of output bit p of PPermute (self-report/des.go:380-411). */
  function PIndex(p: nat): (r: nat)
    requires p < 32
    ensures r < 32
  {
    match p
    case 0 => 15 case 1 => 6 case 2 => 19 case 3 => 20 case 4 => 28 case 5 => 11 case 6 => 27 case 7 => 16
    case 8 => 0 case 9 => 14 case 10 => 22 case 11 => 25 case 12 => 4 case 13 => 17 case 14 => 30 case 15 => 9
    case 16 => 1 case 17 => 7 case 18 => 23 case 19 => 13 case 20 => 31 case 21 => 26 case 22 => 2 case 23 => 8
    case 24 => 18 case 25 => 12 case 26 => 29 case 27 => 5 case 28 => 21 case 29 => 10 case 30 => 3 case _ => 24
  }

  /** The output position of PPermute that receives input bit q: the P table read backwards. */
  function PInverseIndex(q: nat): (r: nat)
    requires q < 32
    ensures r < 32
  {
    match q
    case 0 => 8 case 1 => 16 case 2 => 22 case 3 => 30 case 4 => 12 case 5 => 27 case 6 => 1 case 7 => 17
    case 8 => 23 case 9 => 15 case 10 => 29 case 11 => 5 case 12 => 25 case 13 => 19 case 14 => 9 case 15 => 0
    case 16 => 7 case 17 => 13 case 18 => 24 case 19 => 2 case 20 => 3 case 21 => 28 case 22 => 10 case 23 => 18
    case 24 => 31 case 25 => 11 case 26 => 21 case 27 => 6 case 28 => 4 case 29 => 26 case 30 => 14 case _ => 20
  }

  lemma PInverseRow0(p: nat)
    requires 0 <= p < 8
    ensures PInverseIndex(PIndex(p)) == p && PIndex(PInverseIndex(p)) == p
  {
    if p == 0 { assert PIndex(p) == 15 && PInverseIndex(p) == 8; }
    else if p == 1 { assert PIndex(p) == 6 && PInverseIndex(p) == 16; }
    else if p == 2 { assert PIndex(p) == 19 && PInverseIndex(p) == 22; }
    else if p == 3 { assert PIndex(p) == 20 && PInverseIndex(p) == 30; }
    else if p == 4 { assert PIndex(p) == 28 && PInverseIndex(p) == 12; }
    else if p == 5 { assert PIndex(p) == 11 && PInverseIndex(p) == 27; }
    else if p == 6 { assert PIndex(p) == 27 && PInverseIndex(p) == 1; }
    else { assert PIndex(p) == 16 && PInverseIndex(p) == 17; }
  }

  lemma PInverseRow1(p: nat)
    requires 8 <= p < 16
    ensures PInverseIndex(PIndex(p)) == p && PIndex(PInverseIndex(p)) == p
  {
    if p == 8 { assert PIndex(p) == 0 && PInverseIndex(p) == 23; }
    else if p == 9 { assert PIndex(p) == 14 && PInverseIndex(p) == 15; }
    else if p == 10 { assert PIndex(p) == 22 && PInverseIndex(p) == 29; }
    else if p == 11 { assert PIndex(p) == 25 && PInverseIndex(p) == 5; }
    else if p == 12 { assert PIndex(p) == 4 && PInverseIndex(p) == 25; }
    else if p == 13 { assert PIndex(p) == 17 && PInverseIndex(p) == 19; }
    else if p == 14 { assert PIndex(p) == 30 && PInverseIndex(p) == 9; }
    else { assert PIndex(p) == 9 && PInverseIndex(p) == 0; }
  }

  lemma PInverseRow2(p: nat)
    requires 16 <= p < 24
    ensures PInverseIndex(PIndex(p)) == p && PIndex(PInverseIndex(p)) == p
  {
    if p == 16 { assert PIndex(p) == 1 && PInverseIndex(p) == 7; }
    else if p == 17 { assert PIndex(p) == 7 && PInverseIndex(p) == 13; }
    else if p == 18 { assert PIndex(p) == 23 && PInverseIndex(p) == 24; }
    else if p == 19 { assert PIndex(p) == 13 && PInverseIndex(p) == 2; }
    else if p == 20 { assert PIndex(p) == 31 && PInverseIndex(p) == 3; }
    else if p == 21 { assert PIndex(p) == 26 && PInverseIndex(p) == 28; }
    else if p == 22 { assert PIndex(p) == 2 && PInverseIndex(p) == 10; }
    else { assert PIndex(p) == 8 && PInverseIndex(p) == 18; }
  }

  lemma PInverseRow3(p: nat)
    requires 24 <= p < 32
    ensures PInverseIndex(PIndex(p)) == p && PIndex(PInverseIndex(p)) == p
  {
    if p == 24 { assert PIndex(p) == 18 && PInverseIndex(p) == 31; }
    else if p == 25 { assert PIndex(p) == 12 && PInverseIndex(p) == 11; }
    else if p == 26 { assert PIndex(p) == 29 && PInverseIndex(p) == 21; }
    else if p == 27 { assert PIndex(p) == 5 && PInverseIndex(p) == 6; }
    else if p == 28 { assert PIndex(p) == 21 && PInverseIndex(p) == 4; }
    else if p == 29 { assert PIndex(p) == 10 && PInverseIndex(p) == 26; }
    else if p == 30 { assert PIndex(p) == 3 && PInverseIndex(p) == 14; }
    else { assert PIndex(p) == 24 && PInverseIndex(p) == 20; }
  }

  /** What PPermute computes, one table lookup per output bit. */
  function PPermute(sBoxByte: seq<Bit>): (r: seq<Bit>)
    requires |sBoxByte| >= 32
    ensures |r| == 32
  {
    seq(32, p requires 0 <= p < 32 => sBoxByte[PIndex(p)])
  }

  /** Reading PPermute's output through the inverse table. */
  function UnPermuteP(t: seq<Bit>): (r: seq<Bit>)
    requires |t| >= 32
    ensures |r| == 32
  {
    seq(32, q requires 0 <= q < 32 => t[PInverseIndex(q)])
  }

  lemma PInverseIndexes(p: nat)
    requires p < 32
    ensures PInverseIndex(PIndex(p)) == p && PIndex(PInverseIndex(p)) == p
  {
    if p < 8 { PInverseRow0(p); }
    else if p < 16 { PInverseRow1(p); }
    else if p < 24 { PInverseRow2(p); }
    else { PInverseRow3(p); }
  }

  /** P is a permutation of the 32 S-box output bits: nothing is lost or duplicated. */
  lemma PPermuteIsPermutation(s: seq<Bit>, t: seq<Bit>)
    requires |s| == 32 && |t| == 32
    ensures UnPermuteP(PPermute(s)) == s
    ensures PPermute(UnPermuteP(t)) == t
  {
    forall q | 0 <= q < 32
      ensures UnPermuteP(PPermute(s))[q] == s[q] && PPermute(UnPermuteP(t))[q] == t[q]
    {
      PInverseIndexes(q);
    }
  }

  // ---------------------------------------------------------------------
  // E expansion (self-report/des.go:584-604)
  // ---------------------------------------------------------------------

  /**
   * Group i of the expansion: bits 4i..4i+3 of the half block framed by
   * their neighbours 4i-1 and 4i+4, wrapping round at both ends.
   */
  function ExpandedGroup(r: seq<Bit>, i: nat): (g: seq<Bit>)
    requires |r| >= 32 && i < 8
    ensures |g| == 6
  {
    [r[if i == 0 then 31 else i * 4 - 1], r[i * 4], r[i * 4 + 1], r[i * 4 + 2], r[i * 4 + 3], r[if i == 7 then 0 else i * 4 + 4]]
  }

  /** The first n groups of the expansion, one after another. */
  function ExpandedGroups(r: seq<Bit>, n: nat): (s: seq<Bit>)
    requires |r| >= 32 && n <= 8
    ensures |s| == 6 * n
  {
    if n == 0 then [] else ExpandedGroups(r, n - 1) + ExpandedGroup(r, n - 1)
  }

  /** What ExpandPermute computes: the E expansion of a 32-bit half block to 48 bits. */
  function Expand(rightData: seq<Bit>): (r: seq<Bit>)
    requires |rightData| >= 32
    ensures |r| == 48
  {
    ExpandedGroups(rightData, 8)
  }

  /** The first k groups of the expansion do not depend on the groups after them. */
  lemma {:induction false} ExpandedGroupsPrefix(r: seq<Bit>, n: nat, k: nat)
    requires |r| >= 32 && k <= n <= 8
    ensures ExpandedGroups(r, n)[..6 * k] == ExpandedGroups(r, k)
  {
    if k < n {
      ExpandedGroupsPrefix(r, n - 1, k);
      assert ExpandedGroups(r, n)[..6 * (n - 1)] == ExpandedGroups(r, n - 1);
    }
  }

  /**
   * Group i of the expansion is bit 4i-1 (31 for the first group), bits
   * 4i..4i+3, then bit 4i+4 (0 for the last group): every input bit is
   * copied once in the middle of its group and once more at the edge of
   * a neighbouring group.
   */
  lemma ExpandGroup(r: seq<Bit>, i: nat)
    requires |r| >= 32 && i < 8
    ensures Expand(r)[i * 6 + 1 .. i * 6 + 5] == r[i * 4 .. i * 4 + 4]
    ensures Expand(r)[i * 6] == r[if i == 0 then 31 else i * 4 - 1]
    ensures Expand(r)[i * 6 + 5] == r[if i == 7 then 0 else i * 4 + 4]
  {
    ExpandedGroupsPrefix(r, 8, i + 1);
    var g := ExpandedGroup(r, i);
    FourSlice(g, 1, r[i * 4 .. i * 4 + 4]);
    GroupAfterPrefix(Expand(r), ExpandedGroups(r, i), g);
  }

  /** A sequence that starts with a + g, for a group g of six, holds g just after a. */
  lemma GroupAfterPrefix<T>(s: seq<T>, a: seq<T>, g: seq<T>)
    requires |g| == 6 && |a| + 6 <= |s| && s[..|a| + 6] == a + g
    ensures s[|a| + 1 .. |a| + 5] == g[1..5] && s[|a|] == g[0] && s[|a| + 5] == g[5]
  {
    forall k | 0 <= k < 6
      ensures s[|a| + k] == g[k]
    {
      assert s[..|a| + 6][|a| + k] == (a + g)[|a| + k];
    }
  }

  method ExpandPermute(rightData: seq<Bit>) returns (epByte: seq<Bit>)
    requires |rightData| >= 32
    ensures epByte == Expand(rightData)
  {
    var ep := new Bit[48];
    for i := 0 to 8
      invariant ep[..6 * i] == ExpandedGroups(rightData, i)
    {
      ExpandStep(ep, rightData, i);
    }
    assert ep[..] == ep[..6 * 8];
    epByte := ep[..];
  }

  /** One pass of ExpandPermute's loop: group i is written after the groups before it. */
  method ExpandStep(ep: array<Bit>, rightData: seq<Bit>, i: nat)
    requires ep.Length == 48 && |rightData| >= 32 && i < 8
    requires ep[..6 * i] == ExpandedGroups(rightData, i)
    modifies ep
    ensures ep[..6 * i + 6] == ExpandedGroups(rightData, i + 1)
  {
    ghost var prev := ep[..];
    if i == 0 {
      ep[i * 6 + 0] := rightData[31];
    } else {
      ep[i * 6 + 0] := rightData[i * 4 - 1];
    }
    ep[i * 6 + 1] := rightData[i * 4 + 0];
    ep[i * 6 + 2] := rightData[i * 4 + 1];
    ep[i * 6 + 3] := rightData[i * 4 + 2];
    ep[i * 6 + 4] := rightData[i * 4 + 3];
    if i == 7 {
      ep[i * 6 + 5] := rightData[0];
    } else {
      ep[i * 6 + 5] := rightData[i * 4 + 4];
    }
    AppendStep(ep[..], prev, i * 6, ExpandedGroups(rightData, i), ExpandedGroup(rightData, i));
  }

  /** Writing b just after a prefix a, and nothing before it, leaves a + b as the new prefix. */
  lemma AppendStep<T>(now: seq<T>, prev: seq<T>, i: nat, a: seq<T>, b: seq<T>)
    requires |now| == |prev| && i + |b| <= |now| && prev[..i] == a
    requires forall p :: 0 <= p < i ==> now[p] == prev[p]
    requires forall p :: 0 <= p < |b| ==> now[i + p] == b[p]
    ensures now[..i + |b|] == a + b
  {
    assert now[..i] == prev[..i];
  }

  // ---------------------------------------------------------------------
  // S-boxes (self-report/des.go:416-582)
  // ---------------------------------------------------------------------

  const S1: seq<SRowTable> :=
    [[14, 4, 13, 1, 2, 15, 11, 8, 3, 10, 6, 12, 5, 9, 0, 7],
     [0, 15, 7, 4, 14, 2, 13, 1, 10, 6, 12, 11, 9, 5, 3, 8],
     [4, 1, 14, 8, 13, 6, 2, 11, 15, 12, 9, 7, 3, 10, 5, 0],
     [15, 12, 8, 2, 4, 9, 1, 7, 5, 11, 3, 14, 10, 0, 6, 13]]
  const S2: seq<SRowTable> :=
    [[15, 1, 8, 14, 6, 11, 3, 4, 9, 7, 2, 13, 12, 0, 5, 10],
     [3, 13, 4, 7, 15, 2, 8, 14, 12, 0, 1, 10, 6, 9, 11, 5],
     [0, 14, 7, 11, 10, 4, 13, 1, 5, 8, 12, 6, 9, 3, 2, 15],
     [13, 8, 10, 1, 3, 15, 4, 2, 11, 6, 7, 12, 0, 5, 14, 9]]
  const S3: seq<SRowTable> :=
    [[10, 0, 9, 14, 6, 3, 15, 5, 1, 13, 12, 7, 11, 4, 2, 8],
     [13, 7, 0, 9, 3, 4, 6, 10, 2, 8, 5, 14, 12, 11, 15, 1],
     [13, 6, 4, 9, 8, 15, 3, 0, 11, 1, 2, 12, 5, 10, 14, 7],
     [1, 10, 13, 0, 6, 9, 8, 7, 4, 15, 14, 3, 11, 5, 2, 12]]
  const S4: seq<SRowTable> :=
    [[7, 13, 14, 3, 0, 6, 9, 10, 1, 2, 8, 5, 11, 12, 4, 15],
     [13, 8, 11, 5, 6, 15, 0, 3, 4, 7, 2, 12, 1, 10, 14, 9],
     [10, 6, 9, 0, 12, 11, 7, 13, 15, 1, 3, 14, 5, 2, 8, 4],
     [3, 15, 0, 6, 10, 1, 13, 8, 9, 4, 5, 11, 12, 7, 2, 14]]
  const S5: seq<SRowTable> :=
    [[2, 12, 4, 1, 7, 10, 11, 6, 8, 5, 3, 15, 13, 0, 14, 9],
     [14, 11, 2, 12, 4, 7, 13, 1, 5, 0, 15, 10, 3, 9, 8, 6],
     [4, 2, 1, 11, 10, 13, 7, 8, 15, 9, 12, 5, 6, 3, 0, 14],
     [11, 8, 12, 7, 1, 14, 2, 13, 6, 15, 0, 9, 10, 4, 5, 3]]
  const S6: seq<SRowTable> :=
    [[12, 1, 10, 15, 9, 2, 6, 8, 0, 13, 3, 4, 14, 7, 5, 11],
     [10, 15, 4, 2, 7, 12, 9, 5, 6, 1, 13, 14, 0, 11, 3, 8],
     [9, 14, 15, 5, 2, 8, 12, 3, 7, 0, 4, 10, 1, 13, 11, 6],
     [4, 3, 2, 12, 9, 5, 15, 10, 11, 14, 1, 7, 6, 0, 8, 13]]
  const S7: seq<SRowTable> :=
    [[4, 11, 2, 14, 15, 0, 8, 13, 3, 12, 9, 7, 5, 10, 6, 1],
     [13, 0, 11, 7, 4, 9, 1, 10, 14, 3, 5, 12, 2, 15, 8, 6],
     [1, 4, 11, 13, 12, 3, 7, 14, 10, 15, 6, 8, 0, 5, 9, 2],
     [6, 11, 13, 8, 1, 4, 10, 7, 9, 5, 0, 15, 14, 2, 3, 12]]
  const S8: seq<SRowTable> :=
    [[13, 2, 8, 4, 6, 15, 11, 1, 10, 9, 3, 14, 5, 0, 12, 7],
     [1, 15, 13, 8, 10, 3, 7, 4, 12, 5, 6, 11, 0, 14, 9, 2],
     [7, 11, 4, 1, 9, 12, 14, 2, 0, 6, 10, 13, 15, 3, 5, 8],
     [2, 1, 14, 7, 4, 10, 8, 13, 15, 12, 9, 0, 3, 5, 6, 11]]

  /** The S-box used for group m, as selected by the switch on m. */
  function SBoxTable(m: nat): (r: seq<SRowTable>)
    requires m < 8
    ensures |r| == 4
  {
    match m
    case 0 => S1 case 1 => S2 case 2 => S3 case 3 => S4
    case 4 => S5 case 5 => S6 case 6 => S7 case _ => S8
  }

  /** The row index of group m: its outer bits. */
  function SRow(e: seq<Bit>, m: nat): (r: nat)
    requires |e| >= 48 && m < 8
    ensures r < 4
  {
    (e[m * 6 + 0] as int) * 2 + e[m * 6 + 5]
  }

  /** The column index of group m: its four inner bits, most significant first. */
  function SCol(e: seq<Bit>, m: nat): (r: nat)
    requires |e| >= 48 && m < 8
    ensures r < 16
  {
    (e[m * 6 + 1] as int) * 8 + (e[m * 6 + 2] as int) * 4 + (e[m * 6 + 3] as int) * 2 + e[m * 6 + 4]
  }

  /** The S-box value selected by group m of e. */
  function SEntry(e: seq<Bit>, m: nat): Nibble
    requires |e| >= 48 && m < 8
  {
    SBoxTable(m)[SRow(e, m)][SCol(e, m)]
  }

  /** The four-bit big-endian binary of v, computed arithmetically. */
  function NibbleBits(v: Nibble): (r: seq<Bit>)
    ensures |r| == 4
  {
    [v / 8, (v / 4) % 2, (v / 2) % 2, v % 2]
  }

  lemma NibbleBitsValue(v: Nibble)
    ensures BitsValue(NibbleBits(v)) == v
  {
    var b := NibbleBits(v);
    assert b[..3][..2][..1][..0] == [];
    assert BitsValue(b[..3][..2][..1]) == v / 8;
    assert BitsValue(b[..3][..2]) == 2 * (v / 8) + (v / 4) % 2;
    assert BitsValue(b[..3]) == 2 * (2 * (v / 8) + (v / 4) % 2) + (v / 2) % 2;
  }

  /** The characters '0' and '1' that spell a bit string. */
  function BitChars(b: seq<Bit>): (r: string)
    ensures |r| == |b|
  {
    seq(|b|, k requires 0 <= k < |b| => if b[k] == 0 then '0' else '1')
  }

  /**
   * The four-character binary spelling of an S-box value; any value
   * outside 0..15 falls through the switch and gives "".
   */
  function GetBoxBinary(i: int): (r: string)
    ensures 0 <= i < 16 ==> r == BitChars(NibbleBits(i))
    ensures !(0 <= i < 16) ==> r == ""
  {
    match i
    case 0 => "0000" case 1 => "0001" case 2 => "0010" case 3 => "0011"
    case 4 => "0100" case 5 => "0101" case 6 => "0110" case 7 => "0111"
    case 8 => "1000" case 9 => "1001" case 10 => "1010" case 11 => "1011"
    case 12 => "1100" case 13 => "1101" case 14 => "1110" case 15 => "1111"
    case _ => ""
  }

  /** strconv.ParseInt of a one-character string: the digit, or 0 when the error is dropped. */
  function ParseDigit(c: char): (r: int)
    ensures c == '0' ==> r == 0
    ensures c == '1' ==> r == 1
  {
    if '0' <= c <= '9' then c as int - '0' as int else 0
  }

  /** What SBoxPermute computes: group m of e selects four output bits. */
  function SBox(e: seq<Bit>): (r: seq<Bit>)
    requires |e| >= 48
    ensures |r| == 32
  {
    seq(32, p requires 0 <= p < 32 => NibbleBits(SEntry(e, p / 4))[p % 4])
  }

  lemma DivMod4(m: nat, k: nat)
    requires k < 4
    ensures (m * 4 + k) % 4 == k && (m * 4 + k) / 4 == m
  {
  }

  /** Bit k of group m of the S-box output is bit k of the entry that group m selects. */
  lemma SBoxAt(e: seq<Bit>, m: nat, k: nat)
    requires |e| >= 48 && m < 8 && k < 4
    ensures SBox(e)[m * 4 + k] == NibbleBits(SEntry(e, m))[k]
  {
    DivMod4(m, k);
  }

  lemma SBoxGroup(e: seq<Bit>, m: nat)
    requires |e| >= 48 && m < 8
    ensures SBox(e)[m * 4 .. m * 4 + 4] == NibbleBits(SEntry(e, m))
  {
    SBoxAt(e, m, 0);
    SBoxAt(e, m, 1);
    SBoxAt(e, m, 2);
    SBoxAt(e, m, 3);
    FourSlice(SBox(e), m * 4, NibbleBits(SEntry(e, m)));
  }

  lemma FourSlice<T>(s: seq<T>, i: nat, r: seq<T>)
    requires i + 4 <= |s| && |r| == 4
    requires s[i + 0] == r[0] && s[i + 1] == r[1] && s[i + 2] == r[2] && s[i + 3] == r[3]
    ensures s[i .. i + 4] == r
  {
  }

  /**
   * Bits 4m..4m+3 of the S-box output are the big-endian binary of entry
   * [2·b0+b5][b1b2b3b4] of S-box m+1, where b0..b5 is group m of e.
   */
  lemma SBoxNibble(e: seq<Bit>, m: nat)
    requires |e| >= 48 && m < 8
    ensures BitsValue(SBox(e)[m * 4 .. m * 4 + 4]) ==
      SBoxTable(m)[(e[m * 6] as int) * 2 + e[m * 6 + 5]]
                  [(e[m * 6 + 1] as int) * 8 + (e[m * 6 + 2] as int) * 4 + (e[m * 6 + 3] as int) * 2 + e[m * 6 + 4]]
  {
    var row, col := SRow(e, m), SCol(e, m);
    assert row == (e[m * 6] as int) * 2 + e[m * 6 + 5];
    assert col == (e[m * 6 + 1] as int) * 8 + (e[m * 6 + 2] as int) * 4 + (e[m * 6 + 3] as int) * 2 + e[m * 6 + 4];
    SBoxGroup(e, m);
    NibbleBitsValue(SEntry(e, m));
    assert SEntry(e, m) == SBoxTable(m)[row][col];
  }

  method SBoxPermute(expandByte: seq<Bit>) returns (sBoxByte: seq<Bit>)
    requires |expandByte| >= 48
    ensures sBoxByte == SBox(expandByte)
  {
    var out := new Bit[32];
    for m := 0 to 8
      invariant out[..4 * m] == SBox(expandByte)[..4 * m]
    {
      SBoxStep(out, expandByte, m);
    }
    TakeAll(out[..]);
    TakeAll(SBox(expandByte));
    sBoxByte := out[..];
  }

  /** One pass of the `for m` loop: writes the four output bits of group m. */
  method SBoxStep(out: array<Bit>, expandByte: seq<Bit>, m: nat)
    requires out.Length == 32 && |expandByte| >= 48 && m < 8
    requires out[..4 * m] == SBox(expandByte)[..4 * m]
    modifies out
    ensures out[..4 * m + 4] == SBox(expandByte)[..4 * m + 4]
  {
    ghost var prev := out[..];
    var b0, b1, b2, b3 := SBoxLookup(expandByte, m);
    out[m * 4 + 0] := b0;
    out[m * 4 + 1] := b1;
    out[m * 4 + 2] := b2;
    out[m * 4 + 3] := b3;
    FourSlice(out[..], m * 4, [b0, b1, b2, b3]);
    PrefixStep(out[..], prev, SBox(expandByte), m * 4, 4);
  }

  /** A prefix that matched spec keeps matching when the next n entries are written as spec's. */
  lemma PrefixStep<T>(now: seq<T>, prev: seq<T>, spec: seq<T>, i: nat, n: nat)
    requires |now| == |prev| && i + n <= |now| && i + n <= |spec|
    requires prev[..i] == spec[..i]
    requires forall p :: 0 <= p < i ==> now[p] == prev[p]
    requires now[i .. i + n] == spec[i .. i + n]
    ensures now[..i + n] == spec[..i + n]
  {
    forall p | 0 <= p < i + n
      ensures now[p] == spec[p]
    {
      if p < i {
        assert prev[..i][p] == spec[..i][p];
      } else {
        assert now[i .. i + n][p - i] == spec[i .. i + n][p - i];
      }
    }
  }

  method SBoxLookup(expandByte: seq<Bit>, m: nat) returns (b0: Bit, b1: Bit, b2: Bit, b3: Bit)
    requires |expandByte| >= 48 && m < 8
    ensures [b0, b1, b2, b3] == SBox(expandByte)[m * 4 .. m * 4 + 4]
  {
      var i := (expandByte[m * 6 + 0] as int) * 2 + expandByte[m * 6 + 5];
      var j := (expandByte[m * 6 + 1] as int) * 2 * 2 * 2 +
        (expandByte[m * 6 + 2] as int) * 2 * 2 +
        (expandByte[m * 6 + 3] as int) * 2 +
        expandByte[m * 6 + 4];
      assert i == SRow(expandByte, m) && j == SCol(expandByte, m);
      var binary := GetBoxBinary(SBoxTable(m)[i][j]);
      SBoxDigits(expandByte, m, binary);
      b0 := ParseDigit(binary[0]);
      b1 := ParseDigit(binary[1]);
      b2 := ParseDigit(binary[2]);
      b3 := ParseDigit(binary[3]);
      FourSlice(SBox(expandByte), m * 4, [b0, b1, b2, b3]);
  }

  /** Parsing the digits of GetBoxBinary's spelling gives the S-box output bits of group m. */
  lemma SBoxDigits(e: seq<Bit>, m: nat, binary: string)
    requires |e| >= 48 && m < 8
    requires binary == GetBoxBinary(SEntry(e, m))
    ensures |binary| == 4
    ensures ParseDigit(binary[0]) == SBox(e)[m * 4 + 0] && ParseDigit(binary[1]) == SBox(e)[m * 4 + 1]
    ensures ParseDigit(binary[2]) == SBox(e)[m * 4 + 2] && ParseDigit(binary[3]) == SBox(e)[m * 4 + 3]
  {
    var bits := NibbleBits(SEntry(e, m));
    assert binary == BitChars(bits);
    DigitsOfBitChars(bits);
    SBoxAt(e, m, 0);
    SBoxAt(e, m, 1);
    SBoxAt(e, m, 2);
    SBoxAt(e, m, 3);
  }

  /** Parsing the characters of BitChars(b) gives b back. */
  lemma DigitsOfBitChars(b: seq<Bit>)
    ensures forall k :: 0 <= k < |b| ==> ParseDigit(BitChars(b)[k]) == b[k]
  {
  }

  // ---------------------------------------------------------------------
  // Key schedule (self-report/des.go:636-805)
  // ---------------------------------------------------------------------

  /** The position in the rotated 56-bit key of subkey bit p (self-report/des.go:671-718). */
  function PC2Index(p: nat): (r: nat)
    requires p < 48
    ensures r < 56
  {
    match p
    case 0 => 13 case 1 => 16 case 2 => 10 case 3 => 23 case 4 => 0 case 5 => 4 case 6 => 2 case 7 => 27
    case 8 => 14 case 9 => 5 case 10 => 20 case 11 => 9 case 12 => 22 case 13 => 18 case 14 => 11 case 15 => 3
    case 16 => 25 case 17 => 7 case 18 => 15 case 19 => 6 case 20 => 26 case 21 => 19 case 22 => 12 case 23 => 1
    case 24 => 40 case 25 => 51 case 26 => 30 case 27 => 36 case 28 => 46 case 29 => 54 case 30 => 29 case 31 => 39
    case 32 => 50 case 33 => 44 case 34 => 32 case 35 => 47 case 36 => 43 case 37 => 48 case 38 => 38 case 39 => 55
    case 40 => 33 case 41 => 52 case 42 => 45 case 43 => 41 case 44 => 49 case 45 => 35 case 46 => 28 case _ => 31
  }

  /** The number of left rotations of each key half before round i + 1. */
  const Schedule: seq<nat> := [1, 1, 2, 2, 2, 2, 2, 2, 1, 2, 2, 2, 2, 2, 2, 1]

  /** The rotations applied in the first n rounds together. */
  function ShiftTotal(n: nat): nat
    requires n <= 16
  {
    if n == 0 then 0 else ShiftTotal(n - 1) + Schedule[n - 1]
  }

  /** The schedule adds up to one full turn of a 28-bit half. */
  lemma ScheduleSum()
    ensures ShiftTotal(16) == 28
  {
    assert ShiftTotal(1) == 1;
    assert ShiftTotal(2) == 2;
    assert ShiftTotal(3) == 4;
    assert ShiftTotal(4) == 6;
    assert ShiftTotal(5) == 8;
    assert ShiftTotal(6) == 10;
    assert ShiftTotal(7) == 12;
    assert ShiftTotal(8) == 14;
    assert ShiftTotal(9) == 15;
    assert ShiftTotal(10) == 17;
    assert ShiftTotal(11) == 19;
    assert ShiftTotal(12) == 21;
    assert ShiftTotal(13) == 23;
    assert ShiftTotal(14) == 25;
    assert ShiftTotal(15) == 27;
    assert ShiftTotal(16) == 28;
  }

  lemma {:induction false} ShiftTotalBound(n: nat)
    requires n <= 16
    ensures ShiftTotal(n) <= 28
    ensures n < 16 ==> ShiftTotal(n) + Schedule[n] <= 28
    decreases 16 - n
  {
    if n == 16 {
      ScheduleSum();
    } else {
      ShiftTotalBound(n + 1);
    }
  }

  /**
   * The input position of bit p of the 56-bit key built by the PC-1 loop:
   * row i of the result takes column i of the key read from its last
   * row to its first.
   */
  function PC1Index(p: nat): (r: nat)
    requires p < 56
    ensures r < 63
  {
    8 * (7 - p % 8) + p / 8
  }

  function PermutedChoice1(keyByte: seq<Bit>): (r: seq<Bit>)
    requires |keyByte| >= 63
    ensures |r| == 56
  {
    seq(56, p requires 0 <= p < 56 => keyByte[PC1Index(p)])
  }

  lemma PC1IndexAt(i: nat, j: nat)
    requires i < 7 && j < 8
    ensures PC1Index(i * 8 + j) == 8 * (7 - j) + i
  {
    DivMod8(i, j);
  }

  /** Both 28-bit halves of a 56-bit key rotated left by s places. */
  function Rotated(k: seq<Bit>, s: nat): (r: seq<Bit>)
    requires |k| == 56 && s <= 28
    ensures |r| == 56
  {
    seq(56, p requires 0 <= p < 56 =>
      if p < 28 then k[if p + s < 28 then p + s else p + s - 28]
      else k[if p + s < 56 then p + s else p + s - 28])
  }

  /** One more place of rotation. */
  lemma RotatedStep(k: seq<Bit>, s: nat)
    requires |k| == 56 && s < 28
    ensures Rotated(Rotated(k, s), 1) == Rotated(k, s + 1)
  {
  }

  /** A full turn of 28 places gives back both halves unchanged. */
  lemma RotatedFullTurn(k: seq<Bit>)
    requires |k| == 56
    ensures Rotated(k, 28) == k && Rotated(k, 0) == k
  {
  }

  /** The PC-2 selection of 48 of the 56 key bits. */
  function PermutedChoice2(k: seq<Bit>): Subkey
    requires |k| == 56
  {
    seq(48, p requires 0 <= p < 48 => k[PC2Index(p)])
  }

  /** The 16 subkeys that GenerateKeys returns. */
  function Subkeys(keyByte: seq<Bit>): (r: seq<Subkey>)
    requires |keyByte| >= 63
    ensures |r| == 16
  {
    seq(16, i requires 0 <= i < 16 =>
      ShiftTotalBound(i + 1);
      PermutedChoice2(Rotated(PermutedChoice1(keyByte), ShiftTotal(i + 1))))
  }

  /**
   * Subkey i is PC-2 of the PC-1 key with each half rotated by the
   * schedule so far, and after the sixteenth round the halves are back
   * at their PC-1 value.
   */
  lemma SubkeySchedule(keyByte: seq<Bit>)
    requires |keyByte| >= 63
    ensures |Subkeys(keyByte)| == 16
    ensures ShiftTotal(16) == 28 && Rotated(PermutedChoice1(keyByte), ShiftTotal(16)) == PermutedChoice1(keyByte)
  {
    ScheduleSum();
    RotatedFullTurn(PermutedChoice1(keyByte));
  }

  /** The loop that rotates both halves `times` places, one place at a time. */
  method RotateTimes(key: array<Bit>, times: nat, ghost pc1: seq<Bit>, ghost s: nat)
    requires key.Length == 56 && |pc1| == 56 && s + times <= 28
    requires key[..] == Rotated(pc1, s)
    modifies key
    ensures key[..] == Rotated(pc1, s + times)
  {
    for j := 0 to times
      invariant key[..] == Rotated(pc1, s + j)
    {
      RotatedStep(pc1, s + j);
      RotateOnce(key);
    }
  }

  lemma SubkeyAt(keyByte: seq<Bit>, i: nat)
    requires |keyByte| >= 63 && i < 16
    ensures ShiftTotal(i + 1) <= 28
    ensures Subkeys(keyByte)[i] == PermutedChoice2(Rotated(PermutedChoice1(keyByte), ShiftTotal(i + 1)))
  {
    ShiftTotalBound(i + 1);
  }

  /** Round i rotates by Schedule[i] more places, and stays within one turn. */
  lemma ShiftStep(i: nat)
    requires i < 16
    ensures ShiftTotal(i) + Schedule[i] <= 28 && ShiftTotal(i + 1) == ShiftTotal(i) + Schedule[i]
  {
    ShiftTotalBound(i);
  }

  /** One left rotation of both key halves, in place. */
  method RotateOnce(key: array<Bit>)
    requires key.Length == 56
    modifies key
    ensures key[..] == Rotated(old(key[..]), 1)
  {
    ghost var k0 := key[..];
    var tempLeft := key[0];
    var tempRight := key[28];
    for k := 0 to 27
      invariant forall q :: 0 <= q < k ==> key[q] == k0[q + 1]
      invariant forall q :: 28 <= q < 28 + k ==> key[q] == k0[q + 1]
      invariant forall q :: k <= q < 28 ==> key[q] == k0[q]
      invariant forall q :: 28 + k <= q < 56 ==> key[q] == k0[q]
    {
      key[k] := key[k + 1];
      key[28 + k] := key[29 + k];
    }
    key[27] := tempLeft;
    key[55] := tempRight;
    RotatedOnce(k0, key[..]);
  }

  /** Each half moved one place to the left, its first bit put last, is the rotation by one. */
  lemma RotatedOnce(k0: seq<Bit>, k: seq<Bit>)
    requires |k0| == 56 && |k| == 56
    requires forall q :: 0 <= q < 27 ==> k[q] == k0[q + 1]
    requires forall q :: 28 <= q < 55 ==> k[q] == k0[q + 1]
    requires k[27] == k0[0] && k[55] == k0[28]
    ensures k == Rotated(k0, 1)
  {
    forall p | 0 <= p < 56
      ensures k[p] == Rotated(k0, 1)[p]
    {
    }
  }

  /** The `for i < 7`, `for j < 8` loops that fill key with the PC-1 selection of keyByte. */
  method LoadPermutedChoice1(key: array<Bit>, keyByte: seq<Bit>)
    requires key.Length == 56 && |keyByte| >= 63
    modifies key
    ensures key[..] == PermutedChoice1(keyByte)
  {
    for i := 0 to 7
      invariant forall p :: 0 <= p < 8 * i ==> key[p] == keyByte[PC1Index(p)]
    {
      var j, k := 0, 7;
      while j < 8
        invariant 0 <= j <= 8 && k == 7 - j
        invariant forall p :: 0 <= p < 8 * i + j ==> key[p] == keyByte[PC1Index(p)]
      {
        PC1IndexAt(i, j);
        key[i * 8 + j] := keyByte[8 * k + i];
        j, k := j + 1, k - 1;
      }
    }
  }

  /** One pass of the schedule loop: rotate by Schedule[i], then select subkey i with PC-2. */
  method NextSubkey(key: array<Bit>, keyByte: seq<Bit>, i: nat, ghost pc1: seq<Bit>) returns (tempKey: Subkey)
    requires key.Length == 56 && |keyByte| >= 63 && i < 16
    requires pc1 == PermutedChoice1(keyByte) && ShiftTotal(i) <= 28 && key[..] == Rotated(pc1, ShiftTotal(i))
    modifies key
    ensures ShiftTotal(i + 1) <= 28 && key[..] == Rotated(pc1, ShiftTotal(i + 1))
    ensures tempKey == Subkeys(keyByte)[i]
  {
    ShiftStep(i);
    SubkeyAt(keyByte, i);
    RotateTimes(key, Schedule[i], pc1, ShiftTotal(i));
    tempKey := PermutedChoice2(key[..]);
  }

  method GenerateKeys(keyByte: seq<Bit>) returns (keys: seq<Subkey>)
    requires |keyByte| >= 63
    ensures keys == Subkeys(keyByte)
  {
    var key := new Bit[56];
    LoadPermutedChoice1(key, keyByte);
    ghost var pc1 := key[..];
    RotatedFullTurn(pc1);
    keys := [];
    for i := 0 to 16
      invariant ShiftTotal(i) <= 28
      invariant key[..] == Rotated(pc1, ShiftTotal(i))
      invariant keys == Subkeys(keyByte)[..i]
    {
      var tempKey := NextSubkey(key, keyByte, i, pc1);
      TakeSnoc(Subkeys(keyByte), i, keys, tempKey);
      keys := keys + [tempKey];
    }
    TakeAll(Subkeys(keyByte));
  }

  lemma TakeSnoc<T>(s: seq<T>, i: nat, front: seq<T>, x: T)
    requires i < |s| && front == s[..i] && x == s[i]
    ensures front + [x] == s[..i + 1]
  {
  }

  lemma TakeAll<T>(s: seq<T>)
    ensures s[..|s|] == s
  {
  }

  // ---------------------------------------------------------------------
  // Feistel rounds, Enc and Dec (self-report/des.go:226-307)
  // ---------------------------------------------------------------------

  /** The two halves ipLeft and ipRight. */
  datatype Halves = Halves(left: Half, right: Half)

  function Swap(h: Halves): Halves
  {
    Halves(h.right, h.left)
  }

  /** f(R, K) = P(S(E(R) xor K)). */
  function RoundFunction(right: Half, key: Subkey): Half
  {
    PPermute(SBox(XorBits(Expand(right), key)))
  }

  /** One round: the new left is the old right, the new right is f(R, K) xor L. */
  function Round(h: Halves, key: Subkey): Halves
  {
    Halves(h.right, XorBits(RoundFunction(h.right, key), h.left))
  }

  /**
   * The rounds of a Feistel network with round function `round` and keys
   * ks, in order. The round function is a parameter so that the facts
   * about the network hold whatever it computes.
   */
  function Rounds(round: (Halves, Subkey) -> Halves, h: Halves, ks: seq<Subkey>): Halves
  {
    if ks == [] then h else round(Rounds(round, h, ks[..|ks| - 1]), ks[|ks| - 1])
  }

  /** The sixteen DES rounds with keys ks, in order. */
  function Feistel(h: Halves, ks: seq<Subkey>): Halves
  {
    Rounds(Round, h, ks)
  }

  lemma RoundsStep(round: (Halves, Subkey) -> Halves, h: Halves, ks: seq<Subkey>, i: nat)
    requires i < |ks|
    ensures Rounds(round, h, ks[..i + 1]) == round(Rounds(round, h, ks[..i]), ks[i])
  {
    assert ks[..i + 1][..i] == ks[..i];
  }

  lemma FeistelStep(h: Halves, ks: seq<Subkey>, i: nat)
    requires i < |ks|
    ensures Feistel(h, ks[..i + 1]) == Round(Feistel(h, ks[..i]), ks[i])
  {
    RoundsStep(Round, h, ks, i);
  }

  /** A round undoes itself once the halves are swapped before and after. */
  lemma RoundInverse(h: Halves, key: Subkey)
    ensures Swap(Round(Swap(Round(h, key)), key)) == h
  {
    XorCancel(RoundFunction(h.right, key), h.left);
  }

  lemma {:induction false} RoundsCons(round: (Halves, Subkey) -> Halves, h: Halves, key: Subkey, ks: seq<Subkey>)
    ensures Rounds(round, h, [key] + ks) == Rounds(round, round(h, key), ks)
    decreases |ks|
  {
    if ks != [] {
      var s := [key] + ks;
      assert s[..|s| - 1] == [key] + ks[..|ks| - 1];
      assert s[|s| - 1] == ks[|ks| - 1];
      RoundsCons(round, h, key, ks[..|ks| - 1]);
    } else {
      assert ([key] + ks)[..0] == [];
    }
  }

  /**
   * For a round function that undoes itself between swaps, running the
   * rounds with the keys reversed on the swapped output gives back the input.
   */
  lemma {:induction false} RoundsInverse(round: (Halves, Subkey) -> Halves, h: Halves, ks: seq<Subkey>)
    requires forall g, k :: Swap(round(Swap(round(g, k)), k)) == g
    ensures Swap(Rounds(round, Swap(Rounds(round, h, ks)), Reverse(ks))) == h
    decreases |ks|
  {
    if ks != [] {
      var front, key := ks[..|ks| - 1], ks[|ks| - 1];
      var g := Rounds(round, h, front);
      assert ks == front + [key];
      ReverseSnoc(front, key);
      RoundsCons(round, Swap(round(g, key)), key, Reverse(front));
      RoundsInverse(round, h, front);
    }
  }

  /** Decrypting with the reversed keys undoes the sixteen DES rounds. */
  lemma FeistelInverse(h: Halves, ks: seq<Subkey>)
    ensures Swap(Feistel(Swap(Feistel(h, ks)), Reverse(ks))) == h
  {
    forall g, k ensures Swap(Round(Swap(Round(g, k)), k)) == g {
      RoundInverse(g, k);
    }
    RoundsInverse(Round, h, ks);
  }

  function Split(b: seq<Bit>): Halves
    requires |b| == 64
  {
    Halves(b[..32], b[32..])
  }

  function Join(h: Halves): (r: seq<Bit>)
    ensures |r| == 64
  {
    h.left + h.right
  }

  /** What Enc computes: IP, 16 rounds, the final swap (right then left), then IP⁻¹. */
  function EncBlock(dataByte: seq<Bit>, keyByte: seq<Bit>): (r: seq<Bit>)
    requires |dataByte| >= 64 && |keyByte| >= 63
    ensures |r| == 64
  {
    FinallyPermute(Join(Swap(Feistel(Split(InitPerm(dataByte)), Subkeys(keyByte)))))
  }

  /** What Dec computes: the same with subkeys 15 down to 0. */
  function DecBlock(dataByte: seq<Bit>, keyByte: seq<Bit>): (r: seq<Bit>)
    requires |dataByte| >= 64 && |keyByte| >= 63
    ensures |r| == 64
  {
    FinallyPermute(Join(Swap(Feistel(Split(InitPerm(dataByte)), Reverse(Subkeys(keyByte))))))
  }

  lemma BlockCipherInverse(x: seq<Bit>, ks: seq<Subkey>, ks': seq<Subkey>)
    requires |x| == 64
    requires ks' == Reverse(ks) || ks == Reverse(ks')
    ensures FinallyPermute(Join(Swap(Feistel(Split(InitPerm(
              FinallyPermute(Join(Swap(Feistel(Split(InitPerm(x)), ks)))))), ks')))) == x
  {
    var y := Join(Swap(Feistel(Split(InitPerm(x)), ks)));
    InitPermuteInvertsFinal(y);
    assert Split(y) == Swap(Feistel(Split(InitPerm(x)), ks));
    if ks == Reverse(ks') {
      ReverseReverse(ks');
    }
    FeistelInverse(Split(InitPerm(x)), ks);
    assert Join(Split(InitPerm(x))) == InitPerm(x);
    FinallyPermuteInvertsInit(x);
  }

  /** Dec undoes Enc under the same key. */
  lemma DecOfEnc(x: seq<Bit>, keyByte: seq<Bit>)
    requires |x| == 64 && |keyByte| >= 63
    ensures DecBlock(EncBlock(x, keyByte), keyByte) == x
  {
    BlockCipherInverse(x, Subkeys(keyByte), Reverse(Subkeys(keyByte)));
  }

  /** Enc undoes Dec under the same key. */
  lemma EncOfDec(y: seq<Bit>, keyByte: seq<Bit>)
    requires |y| == 64 && |keyByte| >= 63
    ensures EncBlock(DecBlock(y, keyByte), keyByte) == y
  {
    BlockCipherInverse(y, Reverse(Subkeys(keyByte)), Subkeys(keyByte));
  }

  /** The body of one round of Enc and Dec on the arrays ipLeft and ipRight. */
  method RoundStep(ipLeft: array<Bit>, ipRight: array<Bit>, tempLeft: array<Bit>, key: Subkey)
    requires ipLeft.Length == 32 && ipRight.Length == 32 && tempLeft.Length == 32
    requires ipLeft != ipRight && ipLeft != tempLeft && ipRight != tempLeft
    modifies ipLeft, ipRight, tempLeft
    ensures Halves(ipLeft[..], ipRight[..]) == Round(Halves(old(ipLeft[..]), old(ipRight[..])), key)
  {
    ShiftHalves(ipLeft, ipRight, tempLeft);
    var tempRight := RoundOutput(ipRight[..], key, tempLeft[..]);
    CopyInto(ipRight, tempRight);
  }

  /** The first copy loop of a round: tempLeft gets L and ipLeft gets R. */
  method ShiftHalves(ipLeft: array<Bit>, ipRight: array<Bit>, tempLeft: array<Bit>)
    requires ipLeft.Length == 32 && ipRight.Length == 32 && tempLeft.Length == 32
    requires ipLeft != ipRight && ipLeft != tempLeft && ipRight != tempLeft
    modifies ipLeft, tempLeft
    ensures tempLeft[..] == old(ipLeft[..]) && ipLeft[..] == ipRight[..] == old(ipRight[..])
  {
    for j := 0 to 32
      invariant tempLeft[..j] == old(ipLeft[..j]) && ipLeft[..j] == ipRight[..j]
      invariant ipLeft[j..] == old(ipLeft[j..])
    {
      tempLeft[j] := ipLeft[j];
      ipLeft[j] := ipRight[j];
    }
    assert tempLeft[..] == tempLeft[..32] && ipLeft[..] == ipLeft[..32];
  }

  /** A copy loop `dst[n] = src[n]` over all of dst. */
  method CopyInto(dst: array<Bit>, src: seq<Bit>)
    requires dst.Length == |src|
    modifies dst
    ensures dst[..] == src
  {
    for n := 0 to dst.Length
      invariant dst[..n] == src[..n]
    {
      dst[n] := src[n];
    }
    assert dst[..] == dst[..dst.Length];
  }

  /** f(R, K) xor L, computed by the calls of one round. */
  method RoundOutput(right: Half, key: Subkey, left: Half) returns (tempRight: Half)
    ensures tempRight == XorBits(RoundFunction(right, key), left)
  {
    var e := ExpandPermute(right);
    var x := Xor(e, key);
    var s := SBoxPermute(x);
    tempRight := Xor(PPermute(s), left);
  }

  /** The copy loop that splits the permuted block into ipLeft and ipRight. */
  method LoadHalves(ipByte: seq<Bit>, ipLeft: array<Bit>, ipRight: array<Bit>)
    requires |ipByte| == 64 && ipLeft.Length == 32 && ipRight.Length == 32 && ipLeft != ipRight
    modifies ipLeft, ipRight
    ensures Halves(ipLeft[..], ipRight[..]) == Split(ipByte)
  {
    for k := 0 to 32
      invariant ipLeft[..k] == ipByte[..k] && ipRight[..k] == ipByte[32..32 + k]
    {
      ipLeft[k] := ipByte[k];
      ipRight[k] := ipByte[32 + k];
    }
    assert ipLeft[..] == ipLeft[..32];
    assert ipRight[..] == ipRight[..32];
  }

  method Enc(dataByte: seq<Bit>, keyByte: seq<Bit>) returns (r: seq<Bit>)
    requires |dataByte| >= 64 && |keyByte| >= 63
    ensures r == EncBlock(dataByte, keyByte)
  {
    var keys := GenerateKeys(keyByte);
    var ipByte := InitPermute(dataByte);
    var ipLeft, ipRight, tempLeft := new Bit[32], new Bit[32], new Bit[32];
    LoadHalves(ipByte, ipLeft, ipRight);
    EncRounds(ipLeft, ipRight, tempLeft, keys);
    r := FinallyPermute(ipRight[..] + ipLeft[..]);
  }

  /** The round loop of Enc: subkeys 0 to 15. */
  method EncRounds(ipLeft: array<Bit>, ipRight: array<Bit>, tempLeft: array<Bit>, keys: seq<Subkey>)
    requires ipLeft.Length == 32 && ipRight.Length == 32 && tempLeft.Length == 32 && |keys| == 16
    requires ipLeft != ipRight && ipLeft != tempLeft && ipRight != tempLeft
    modifies ipLeft, ipRight, tempLeft
    ensures Halves(ipLeft[..], ipRight[..]) == Feistel(Halves(old(ipLeft[..]), old(ipRight[..])), keys)
  {
    ghost var h0 := Halves(ipLeft[..], ipRight[..]);
    for i := 0 to 16
      invariant Halves(ipLeft[..], ipRight[..]) == Feistel(h0, keys[..i])
    {
      RoundStep(ipLeft, ipRight, tempLeft, keys[i]);
      FeistelStep(h0, keys, i);
    }
    TakeAll(keys);
  }

  method Dec(dataByte: seq<Bit>, keyByte: seq<Bit>) returns (r: seq<Bit>)
    requires |dataByte| >= 64 && |keyByte| >= 63
    ensures r == DecBlock(dataByte, keyByte)
  {
    var keys := GenerateKeys(keyByte);
    var ipByte := InitPermute(dataByte);
    var ipLeft, ipRight, tempLeft := new Bit[32], new Bit[32], new Bit[32];
    LoadHalves(ipByte, ipLeft, ipRight);
    DecRounds(ipLeft, ipRight, tempLeft, keys);
    r := FinallyPermute(ipRight[..] + ipLeft[..]);
  }

  /** The round loop of Dec: subkeys 15 down to 0. */
  method DecRounds(ipLeft: array<Bit>, ipRight: array<Bit>, tempLeft: array<Bit>, keys: seq<Subkey>)
    requires ipLeft.Length == 32 && ipRight.Length == 32 && tempLeft.Length == 32 && |keys| == 16
    requires ipLeft != ipRight && ipLeft != tempLeft && ipRight != tempLeft
    modifies ipLeft, ipRight, tempLeft
    ensures Halves(ipLeft[..], ipRight[..]) == Feistel(Halves(old(ipLeft[..]), old(ipRight[..])), Reverse(keys))
  {
    ghost var h0 := Halves(ipLeft[..], ipRight[..]);
    assert Reverse(keys)[..0] == [];
    for i := 16 downto 0
      invariant Halves(ipLeft[..], ipRight[..]) == Feistel(h0, Reverse(keys)[..15 - i + 1])
    {
      DecRound(ipLeft, ipRight, tempLeft, keys, i, h0);
    }
    TakeAll(Reverse(keys));
  }

  /** One pass of Dec's round loop, with subkey i. */
  method DecRound(ipLeft: array<Bit>, ipRight: array<Bit>, tempLeft: array<Bit>, keys: seq<Subkey>, i: nat, ghost h0: Halves)
    requires ipLeft.Length == 32 && ipRight.Length == 32 && tempLeft.Length == 32 && |keys| == 16 && i < 16
    requires ipLeft != ipRight && ipLeft != tempLeft && ipRight != tempLeft
    requires Halves(ipLeft[..], ipRight[..]) == Feistel(h0, Reverse(keys)[..15 - i])
    modifies ipLeft, ipRight, tempLeft
    ensures Halves(ipLeft[..], ipRight[..]) == Feistel(h0, Reverse(keys)[..15 - i + 1])
  {
    RoundStep(ipLeft, ipRight, tempLeft, keys[i]);
    FeistelStepReversed(h0, keys, i);
  }

  /** Round 15 - i of Dec uses subkey i. */
  lemma FeistelStepReversed(h: Halves, keys: seq<Subkey>, i: nat)
    requires |keys| == 16 && i < 16
    ensures Feistel(h, Reverse(keys)[..16 - i]) == Round(Feistel(h, Reverse(keys)[..15 - i]), keys[i])
  {
    var reversed := Reverse(keys);
    assert reversed[15 - i] == keys[i];
    RoundsStep(Round, h, reversed, 15 - i);
  }
}
