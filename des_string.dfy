/**
 * The string layer of self-report/des.go: StrToBt packs up to four
 * characters into a 64-bit block, GetKeyBytes cuts a key into such blocks,
 * Bt64ToHex/HexToBt64 convert between blocks and hexadecimal text, and
 * StrEnc encrypts every four-character block of the data under the blocks
 * of up to three keys in turn.
 */
module DesString {
  import opened Wrappers
  import opened Des

  /** A 64-entry bit array, as returned by StrToBt and Enc. */
  type Block = s: seq<Bit> | |s| == 64 witness seq(64, _ => 0)

  // ---------------------------------------------------------------------
  // Arithmetic on powers of two
  // ---------------------------------------------------------------------

  function Pow2(e: nat): (r: nat)
    ensures r >= 1
  {
    if e == 0 then 1 else 2 * Pow2(e - 1)
  }

  lemma Pow2Sixteen()
    ensures Pow2(16) == 65536
  {
    assert Pow2(1) == 2;
    assert Pow2(2) == 4;
    assert Pow2(3) == 8;
    assert Pow2(4) == 16;
    assert Pow2(5) == 32;
    assert Pow2(6) == 64;
    assert Pow2(7) == 128;
    assert Pow2(8) == 256;
    assert Pow2(9) == 512;
    assert Pow2(10) == 1024;
    assert Pow2(11) == 2048;
    assert Pow2(12) == 4096;
    assert Pow2(13) == 8192;
    assert Pow2(14) == 16384;
    assert Pow2(15) == 32768;
    assert Pow2(16) == 65536;
  }

  lemma MulAtLeast(a: int, d: int)
    requires a >= 1 && d > 0
    ensures a * d >= d
  {
  }

  /** Euclidean division is determined by quotient and remainder. */
  lemma DivUnique(k: int, d: int, q: int, r: int)
    requires d > 0 && k == q * d + r && 0 <= r < d
    ensures k / d == q && k % d == r
  {
    var q', r' := k / d, k % d;
    assert (q - q') * d == r' - r;
    if q > q' {
      MulAtLeast(q - q', d);
    } else if q < q' {
      MulAtLeast(q' - q, d);
    }
  }

  lemma DivHalf(k: nat, d: nat)
    requires d > 0
    ensures (k / d) / 2 == k / (2 * d)
  {
    var q, r := k / d, k % d;
    var h, b := q / 2, q % 2;
    assert k == q * d + r;
    assert k == h * (2 * d) + (b * d + r);
    DivUnique(k, 2 * d, h, b * d + r);
  }

  // ---------------------------------------------------------------------
  // StrToBt (self-report/des.go:887-932)
  // ---------------------------------------------------------------------

  /** Bit j (most significant first) of the 16-bit binary of k: `(k / 2^(15-j)) % 2`. */
  function Bit16(k: nat, j: nat): Bit
    requires j < 16
  {
    (k / Pow2(15 - j)) % 2
  }

  function Bits16Prefix(k: nat, n: nat): (r: seq<Bit>)
    requires n <= 16
    ensures |r| == n
  {
    seq(n, j requires 0 <= j < n => Bit16(k, j))
  }

  /** The 16-bit big-endian binary of k. */
  function Bits16(k: nat): (r: seq<Bit>)
    ensures |r| == 16
  {
    Bits16Prefix(k, 16)
  }

  lemma {:induction false} Bits16PrefixValue(k: nat, n: nat)
    requires n <= 16 && k < 65536
    ensures BitsValue(Bits16Prefix(k, n)) == k / Pow2(16 - n)
  {
    if n == 0 {
      Pow2Sixteen();
      DivUnique(k, 65536, 0, k);
    } else {
      Bits16PrefixValue(k, n - 1);
      var p := Bits16Prefix(k, n);
      assert p[..n - 1] == Bits16Prefix(k, n - 1);
      var d := Pow2(15 - (n - 1));
      assert Pow2(16 - (n - 1)) == 2 * d;
      DivHalf(k, d);
      var q := k / d;
      assert p[n - 1] == q % 2;
      assert BitsValue(p) == 2 * (q / 2) + q % 2;
    }
  }

  /** Bits16 is a binary spelling: its value is k. */
  lemma Bits16Value(k: nat)
    requires k < 65536
    ensures BitsValue(Bits16(k)) == k
  {
    Bits16PrefixValue(k, 16);
  }

  /** What StrToBt computes: character i of the first four fills bits 16i..16i+15; missing characters give zeros. */
  function StrBits(str: seq<Byte>): Block
  {
    seq(64, p requires 0 <= p < 64 => if p / 16 < |str| then Bit16(str[p / 16], p % 16) else 0)
  }

  lemma DivMod16(i: nat, j: nat)
    requires j < 16
    ensures (16 * i + j) / 16 == i && (16 * i + j) % 16 == j
  {
  }

  lemma StrBitsChunk(str: seq<Byte>, i: nat)
    requires i < 4
    ensures StrBits(str)[16 * i .. 16 * i + 16] == Bits16(if i < |str| then str[i] else 0)
  {
    forall p | 16 * i <= p < 16 * i + 16
      ensures StrBits(str)[p] == Bits16(if i < |str| then str[i] else 0)[p - 16 * i]
    {
      DivMod16(i, p - 16 * i);
    }
  }

  /**
   * Bits 16i..16i+15 of StrToBt's result are the 16-bit big-endian binary
   * of character i when there is one, and zero otherwise.
   */
  lemma StrBitsValue(str: seq<Byte>, i: nat)
    requires i < 4
    ensures BitsValue(StrBits(str)[16 * i .. 16 * i + 16]) == if i < |str| then str[i] else 0
  {
    StrBitsChunk(str, i);
    Bits16Value(if i < |str| then str[i] else 0);
  }

  /** The `for j` loop of StrToBt for one character k, with its `pow` loop. */
  method FillBits16(bt: array<Bit>, i: nat, k: nat)
    requires bt.Length == 64 && i < 4
    modifies bt
    ensures bt[16 * i .. 16 * i + 16] == Bits16(k)
    ensures bt[..16 * i] == old(bt[..16 * i]) && bt[16 * i + 16..] == old(bt[16 * i + 16..])
  {
    for j := 0 to 16
      invariant bt[16 * i .. 16 * i + j] == Bits16(k)[..j]
      invariant bt[..16 * i] == old(bt[..16 * i]) && bt[16 * i + 16..] == old(bt[16 * i + 16..])
    {
      var pow := 1;
      var m := 15;
      while m > j
        invariant j <= m <= 15 && pow == Pow2(15 - m)
      {
        pow := pow * 2;
        m := m - 1;
      }
      bt[16 * i + j] := (k / pow) % 2;
      assert bt[16 * i .. 16 * i + j + 1] == bt[16 * i .. 16 * i + j] + [bt[16 * i + j]];
    }
  }

  method StrToBt(str: seq<Byte>) returns (r: Block)
    ensures r == StrBits(str)
  {
    var leng := |str|;
    var bt := new Bit[64](_ => 0);
    if leng < 4 {
      for i := 0 to leng
        invariant bt[..16 * i] == StrBits(str)[..16 * i]
      {
        FillBits16(bt, i, str[i]);
        StrBitsChunk(str, i);
        assert bt[..16 * i + 16] == bt[..16 * i] + bt[16 * i .. 16 * i + 16];
        assert StrBits(str)[..16 * i + 16] == StrBits(str)[..16 * i] + StrBits(str)[16 * i .. 16 * i + 16];
      }
      for p := leng to 4
        invariant bt[..16 * p] == StrBits(str)[..16 * p]
      {
        FillBits16(bt, p, 0);
        StrBitsChunk(str, p);
        assert bt[..16 * p + 16] == bt[..16 * p] + bt[16 * p .. 16 * p + 16];
        assert StrBits(str)[..16 * p + 16] == StrBits(str)[..16 * p] + StrBits(str)[16 * p .. 16 * p + 16];
      }
    } else {
      for i := 0 to 4
        invariant bt[..16 * i] == StrBits(str)[..16 * i]
      {
        FillBits16(bt, i, str[i]);
        StrBitsChunk(str, i);
        assert bt[..16 * i + 16] == bt[..16 * i] + bt[16 * i .. 16 * i + 16];
        assert StrBits(str)[..16 * i + 16] == StrBits(str)[..16 * i] + StrBits(str)[16 * i .. 16 * i + 16];
      }
    }
    assert bt[..] == bt[..64];
    r := bt[..];
  }

  // ---------------------------------------------------------------------
  // GetKeyBytes (self-report/des.go:816-830)
  // ---------------------------------------------------------------------

  /**
   * What GetKeyBytes returns: `len/4 + 1` slots, one block per full group
   * of four characters, then a block for the remainder; when the length is
   * a multiple of four the last slot stays nil (`None`).
   */
  function KeyBlocks(key: seq<Byte>): (r: seq<Option<Block>>)
    ensures |r| == |key| / 4 + 1
  {
    seq(|key| / 4 + 1, i requires 0 <= i < |key| / 4 + 1 =>
      if i < |key| / 4 then Some(StrBits(key[i * 4 .. i * 4 + 4]))
      else if |key| % 4 > 0 then Some(StrBits(key[i * 4 ..]))
      else None)
  }

  predicate AllPresent(ks: seq<Option<Block>>)
  {
    forall i :: 0 <= i < |ks| ==> ks[i].Some?
  }

  /**
   * Every slot is filled exactly when the key length is not a multiple of
   * four, and then there are ⌈len/4⌉ blocks; otherwise the last slot is nil.
   */
  lemma KeyBlocksPresent(key: seq<Byte>)
    ensures AllPresent(KeyBlocks(key)) <==> |key| % 4 != 0
    ensures |key| % 4 != 0 ==> |KeyBlocks(key)| == (|key| + 3) / 4
    ensures |key| % 4 == 0 ==> KeyBlocks(key)[|key| / 4] == None
  {
    var q, r := |key| / 4, |key| % 4;
    if r == 0 {
      assert KeyBlocks(key)[q] == None;
    } else {
      DivUnique(|key| + 3, 4, q + 1, r - 1);
      forall i | 0 <= i < |KeyBlocks(key)|
        ensures KeyBlocks(key)[i].Some?
      {
      }
    }
  }

  method GetKeyBytes(key: seq<Byte>) returns (keyBytes: seq<Option<Block>>)
    ensures keyBytes == KeyBlocks(key)
  {
    var slots := new Option<Block>[|key| / 4 + 1](_ => None);
    var leng := |key|;
    var blockCount := leng / 4;
    var remainder := leng % 4;
    for i := 0 to blockCount
      invariant slots[..i] == KeyBlocks(key)[..i]
      invariant forall j :: i <= j < slots.Length ==> slots[j] == None
    {
      var bt := StrToBt(key[i * 4 + 0 .. i * 4 + 4]);
      slots[i] := Some(bt);
      assert slots[..i + 1] == slots[..i] + [slots[i]];
    }
    if remainder > 0 {
      var bt := StrToBt(key[blockCount * 4 + 0 .. leng]);
      assert key[blockCount * 4 + 0 .. leng] == key[blockCount * 4 ..];
      slots[blockCount] := Some(bt);
    }
    assert slots[blockCount] == KeyBlocks(key)[blockCount];
    assert slots[..] == slots[..blockCount] + [slots[blockCount]];
    assert KeyBlocks(key) == KeyBlocks(key)[..blockCount] + [KeyBlocks(key)[blockCount]];
    keyBytes := slots[..];
  }

  // ---------------------------------------------------------------------
  // Hexadecimal text (self-report/des.go:157-224, 807-814, 832-885)
  // ---------------------------------------------------------------------

  /** The hexadecimal digit of a value 0..15, in upper case. */
  function HexChar(v: Nibble): char
  {
    "0123456789ABCDEF"[v]
  }

  /**
   * The switch of Bt4ToHex: a four-character binary string to one hex
   * digit, anything else to "". Two strings of four characters are equal
   * exactly when their characters are, so each case is matched character
   * by character.
   */
  function Bt4ToHex(binary: string): (hex: string)
    ensures hex != "" ==> |binary| == 4 && forall k :: 0 <= k < 4 ==> binary[k] == '0' || binary[k] == '1'
  {
    if |binary| != 4 then ""
    else
      match (binary[0], binary[1], binary[2], binary[3])
      case ('0', '0', '0', '0') => "0"
      case ('0', '0', '0', '1') => "1"
      case ('0', '0', '1', '0') => "2"
      case ('0', '0', '1', '1') => "3"
      case ('0', '1', '0', '0') => "4"
      case ('0', '1', '0', '1') => "5"
      case ('0', '1', '1', '0') => "6"
      case ('0', '1', '1', '1') => "7"
      case ('1', '0', '0', '0') => "8"
      case ('1', '0', '0', '1') => "9"
      case ('1', '0', '1', '0') => "A"
      case ('1', '0', '1', '1') => "B"
      case ('1', '1', '0', '0') => "C"
      case ('1', '1', '0', '1') => "D"
      case ('1', '1', '1', '0') => "E"
      case ('1', '1', '1', '1') => "F"
      case _ => ""
  }

  /** The switch of HexToBt4: one upper-case hex digit to four binary digits, anything else to "". */
  function HexToBt4(hex: string): (binary: string)
    ensures binary != "" ==> |hex| == 1 && |binary| == 4
  {
    if |hex| != 1 then ""
    else
      match hex[0]
      case '0' => "0000"
      case '1' => "0001"
      case '2' => "0010"
      case '3' => "0011"
      case '4' => "0100"
      case '5' => "0101"
      case '6' => "0110"
      case '7' => "0111"
      case '8' => "1000"
      case '9' => "1001"
      case 'A' => "1010"
      case 'B' => "1011"
      case 'C' => "1100"
      case 'D' => "1101"
      case 'E' => "1110"
      case 'F' => "1111"
      case _ => ""
  }

  lemma NibbleSpelling0(v: Nibble)
    requires 0 <= v < 4
    ensures Bt4ToHex(BitChars(NibbleBits(v))) == [HexChar(v)]
    ensures HexToBt4([HexChar(v)]) == BitChars(NibbleBits(v))
  {
    var s := BitChars(NibbleBits(v));
    if v == 0 { assert s == "0000" && Bt4ToHex("0000") == "0" && HexToBt4("0") == "0000" && HexChar(0) == '0'; }
    else if v == 1 { assert s == "0001" && Bt4ToHex("0001") == "1" && HexToBt4("1") == "0001" && HexChar(1) == '1'; }
    else if v == 2 { assert s == "0010" && Bt4ToHex("0010") == "2" && HexToBt4("2") == "0010" && HexChar(2) == '2'; }
    else { assert s == "0011" && Bt4ToHex("0011") == "3" && HexToBt4("3") == "0011" && HexChar(3) == '3'; }
  }

  lemma NibbleSpelling1(v: Nibble)
    requires 4 <= v < 8
    ensures Bt4ToHex(BitChars(NibbleBits(v))) == [HexChar(v)]
    ensures HexToBt4([HexChar(v)]) == BitChars(NibbleBits(v))
  {
    var s := BitChars(NibbleBits(v));
    if v == 4 { assert s == "0100" && Bt4ToHex("0100") == "4" && HexToBt4("4") == "0100" && HexChar(4) == '4'; }
    else if v == 5 { assert s == "0101" && Bt4ToHex("0101") == "5" && HexToBt4("5") == "0101" && HexChar(5) == '5'; }
    else if v == 6 { assert s == "0110" && Bt4ToHex("0110") == "6" && HexToBt4("6") == "0110" && HexChar(6) == '6'; }
    else { assert s == "0111" && Bt4ToHex("0111") == "7" && HexToBt4("7") == "0111" && HexChar(7) == '7'; }
  }

  lemma NibbleSpelling2(v: Nibble)
    requires 8 <= v < 12
    ensures Bt4ToHex(BitChars(NibbleBits(v))) == [HexChar(v)]
    ensures HexToBt4([HexChar(v)]) == BitChars(NibbleBits(v))
  {
    var s := BitChars(NibbleBits(v));
    if v == 8 { assert s == "1000" && Bt4ToHex("1000") == "8" && HexToBt4("8") == "1000" && HexChar(8) == '8'; }
    else if v == 9 { assert s == "1001" && Bt4ToHex("1001") == "9" && HexToBt4("9") == "1001" && HexChar(9) == '9'; }
    else if v == 10 { assert s == "1010" && Bt4ToHex("1010") == "A" && HexToBt4("A") == "1010" && HexChar(10) == 'A'; }
    else { assert s == "1011" && Bt4ToHex("1011") == "B" && HexToBt4("B") == "1011" && HexChar(11) == 'B'; }
  }

  lemma NibbleSpelling3(v: Nibble)
    requires 12 <= v < 16
    ensures Bt4ToHex(BitChars(NibbleBits(v))) == [HexChar(v)]
    ensures HexToBt4([HexChar(v)]) == BitChars(NibbleBits(v))
  {
    var s := BitChars(NibbleBits(v));
    if v == 12 { assert s == "1100" && Bt4ToHex("1100") == "C" && HexToBt4("C") == "1100" && HexChar(12) == 'C'; }
    else if v == 13 { assert s == "1101" && Bt4ToHex("1101") == "D" && HexToBt4("D") == "1101" && HexChar(13) == 'D'; }
    else if v == 14 { assert s == "1110" && Bt4ToHex("1110") == "E" && HexToBt4("E") == "1110" && HexChar(14) == 'E'; }
    else { assert s == "1111" && Bt4ToHex("1111") == "F" && HexToBt4("F") == "1111" && HexChar(15) == 'F'; }
  }

  /** The two switches agree with the arithmetic spelling of every value 0..15. */
  lemma NibbleSpelling(v: Nibble)
    ensures Bt4ToHex(BitChars(NibbleBits(v))) == [HexChar(v)]
    ensures HexToBt4([HexChar(v)]) == BitChars(NibbleBits(v))
  {
    if v < 4 { NibbleSpelling0(v); }
    else if v < 8 { NibbleSpelling1(v); }
    else if v < 12 { NibbleSpelling2(v); }
    else { NibbleSpelling3(v); }
  }

  lemma NibbleOfBits(b: seq<Bit>)
    requires |b| == 4
    ensures BitsValue(b) < 16 && NibbleBits(BitsValue(b)) == b
  {
    assert BitsValue(b[..1]) == b[0] by { assert b[..1][..0] == []; }
    assert BitsValue(b[..2]) == 2 * (b[0] as int) + b[1] by { assert b[..2][..1] == b[..1]; }
    assert BitsValue(b[..3]) == 4 * (b[0] as int) + 2 * (b[1] as int) + b[2] by { assert b[..3][..2] == b[..2]; }
    assert b[..3] == b[..|b| - 1];
    var v := BitsValue(b);
    assert v == 8 * (b[0] as int) + 4 * (b[1] as int) + 2 * (b[2] as int) + b[3];
    NibbleDigits(b[0], b[1], b[2], b[3]);
    FourEqual(NibbleBits(v), b);
  }

  /** The arithmetic digits of 8·b0 + 4·b1 + 2·b2 + b3 are b0, b1, b2, b3. */
  lemma NibbleDigits(b0: Bit, b1: Bit, b2: Bit, b3: Bit)
    ensures var v := 8 * (b0 as int) + 4 * (b1 as int) + 2 * (b2 as int) + b3;
      v < 16 && v / 8 == b0 && (v / 4) % 2 == b1 && (v / 2) % 2 == b2 && v % 2 == b3
  {
  }

  lemma FourEqual<T>(a: seq<T>, b: seq<T>)
    requires |a| == 4 && |b| == 4 && a[0] == b[0] && a[1] == b[1] && a[2] == b[2] && a[3] == b[3]
    ensures a == b
  {
  }

  /** Bt4ToHex of four bits is the hex digit of their value. */
  lemma Bt4ToHexOfBits(b: seq<Bit>)
    requires |b| == 4
    ensures BitsValue(b) < 16 && Bt4ToHex(BitChars(b)) == [HexChar(BitsValue(b))]
  {
    NibbleOfBits(b);
    NibbleSpelling(BitsValue(b));
  }

  /** HexToBt4 undoes Bt4ToHex on every four-bit string. */
  lemma Bt4RoundTrip(b: seq<Bit>)
    requires |b| == 4
    ensures HexToBt4(Bt4ToHex(BitChars(b))) == BitChars(b)
  {
    NibbleOfBits(b);
    NibbleSpelling(BitsValue(b));
  }

  /** Bt4ToHex undoes HexToBt4 on every hex digit. */
  lemma Hex4RoundTrip(v: Nibble)
    ensures Bt4ToHex(HexToBt4([HexChar(v)])) == [HexChar(v)]
  {
    NibbleSpelling(v);
  }

  /** The hex text of a 64-bit block: digit i spells the value of bits 4i..4i+3. */
  function HexOf(b: seq<Bit>): (r: string)
    requires |b| >= 64
    ensures |r| == 16
  {
    seq(16, i requires 0 <= i < 16 => HexChar(BitsValue(NibbleAt(b, i))))
  }

  function NibbleAt(b: seq<Bit>, i: nat): (r: seq<Bit>)
    requires |b| >= 64 && i < 16
    ensures |r| == 4 && BitsValue(r) < 16
  {
    NibbleOfBits(b[4 * i .. 4 * i + 4]);
    b[4 * i .. 4 * i + 4]
  }

  /** `fmt.Sprintf("%d")` of an entry that is 0 or 1. */
  function DigitChar(x: Bit): char
  {
    if x == 0 then '0' else '1'
  }

  method Bt64ToHex(byteData: seq<Bit>) returns (hex: string)
    requires |byteData| >= 64
    ensures hex == HexOf(byteData)
  {
    hex := "";
    for i := 0 to 16
      invariant hex == HexOf(byteData)[..i]
    {
      var bt := NibbleText(byteData, i);
      var digit := Bt4ToHex(bt);
      HexDigitAt(byteData, i, digit);
      TakeSnoc(HexOf(byteData), i, hex, HexOf(byteData)[i]);
      hex := hex + digit;
    }
    TakeAll(HexOf(byteData));
  }

  /** The inner `for j < 4` loop of Bt64ToHex: the digits of bits 4i..4i+3 as text. */
  method NibbleText(byteData: seq<Bit>, i: nat) returns (bt: string)
    requires |byteData| >= 64 && i < 16
    ensures bt == BitChars(NibbleAt(byteData, i))
  {
    bt := "";
    for j := 0 to 4
      invariant bt == BitChars(byteData[i * 4 .. i * 4 + j])
    {
      bt := bt + [DigitChar(byteData[i * 4 + j])];
    }
  }

  /** Bt4ToHex of the text of nibble i is hex digit i of the block. */
  lemma HexDigitAt(b: seq<Bit>, i: nat, digit: string)
    requires |b| >= 64 && i < 16
    requires digit == Bt4ToHex(BitChars(NibbleAt(b, i)))
    ensures digit == [HexOf(b)[i]]
  {
    Bt4ToHexOfBits(NibbleAt(b, i));
  }

  /** The concatenation of HexToBt4 over the characters of hex. */
  function HexBinary(hex: string): string
  {
    if hex == [] then "" else HexBinary(hex[..|hex| - 1]) + HexToBt4([hex[|hex| - 1]])
  }

  lemma HexBinarySnoc(hex: string, i: nat)
    requires i < |hex|
    ensures HexBinary(hex[..i + 1]) == HexBinary(hex[..i]) + HexToBt4(hex[i .. i + 1])
  {
    assert hex[..i + 1][..i] == hex[..i];
    assert hex[i .. i + 1] == [hex[..i + 1][i]];
  }

  method HexToBt64(hex: string) returns (binaryStr: string)
    requires |hex| >= 16
    ensures binaryStr == HexBinary(hex[..16])
  {
    binaryStr := "";
    for i := 0 to 16
      invariant binaryStr == HexBinary(hex[..i])
    {
      HexBinarySnoc(hex, i);
      binaryStr := binaryStr + HexToBt4(hex[i .. i + 1]);
    }
  }

  lemma {:induction false} HexBinaryOfHexOf(b: seq<Bit>, n: nat)
    requires |b| >= 64 && n <= 16
    ensures HexBinary(HexOf(b)[..n]) == BitChars(b[..4 * n])
  {
    if n > 0 {
      HexBinaryOfHexOf(b, n - 1);
      var nib := NibbleAt(b, n - 1);
      assert HexOf(b)[..n][..n - 1] == HexOf(b)[..n - 1];
      NibbleOfBits(nib);
      NibbleSpelling(BitsValue(nib));
      assert b[..4 * n] == b[..4 * (n - 1)] + nib;
    }
  }

  /** HexToBt64 recovers the binary digits of the block that Bt64ToHex spelled. */
  lemma Hex64RoundTrip(b: seq<Bit>)
    requires |b| >= 64
    ensures HexBinary(HexOf(b)[..16]) == BitChars(b[..64])
  {
    HexBinaryOfHexOf(b, 16);
  }

  /** Reading binary digits back as bits: a reader for the round-trip lemmas, not a part of des.go. */
  function ParseBits(s: string): (r: seq<Bit>)
    ensures |r| == |s|
  {
    seq(|s|, i requires 0 <= i < |s| => if s[i] == '1' then 1 else 0)
  }

  // ---------------------------------------------------------------------
  // StrEnc (self-report/des.go:11-155)
  // ---------------------------------------------------------------------

  /** The data cut into groups of four characters, the last one possibly shorter. */
  function DataBlocks(data: seq<Byte>): (r: seq<seq<Byte>>)
    ensures |r| == (|data| + 3) / 4
  {
    seq((|data| + 3) / 4, i requires 0 <= i < (|data| + 3) / 4 =>
      if i * 4 + 4 <= |data| then data[i * 4 .. i * 4 + 4] else data[i * 4 ..])
  }

  /** Groups before |data|/4 are full; a shorter remainder group follows when the length is not a multiple of four. */
  lemma DataBlocksShape(data: seq<Byte>)
    ensures forall i :: 0 <= i < |data| / 4 ==> DataBlocks(data)[i] == data[i * 4 .. i * 4 + 4]
    ensures |data| % 4 == 0 ==> |DataBlocks(data)| == |data| / 4
    ensures |data| % 4 != 0 ==>
      |DataBlocks(data)| == |data| / 4 + 1 && DataBlocks(data)[|data| / 4] == data[|data| / 4 * 4 ..]
  {
    var q, r := |data| / 4, |data| % 4;
    if r == 0 {
      DivUnique(|data| + 3, 4, q, 3);
    } else {
      DivUnique(|data| + 3, 4, q + 1, r - 1);
    }
  }

  /**
   * What StrEnc needs of its keys when the data is non-empty: a non-empty
   * first key, and no key that takes part in the chain with a length that
   * is a multiple of four (its nil last block would be indexed by Enc).
   */
  predicate KeysUsable(firstKey: seq<Byte>, secondKey: seq<Byte>, thirdKey: seq<Byte>)
  {
    firstKey != [] && |firstKey| % 4 != 0 &&
    (secondKey != [] ==> |secondKey| % 4 != 0) &&
    (secondKey != [] && thirdKey != [] ==> |thirdKey| % 4 != 0)
  }

  function Present(ks: seq<Option<Block>>): (r: seq<Block>)
    requires AllPresent(ks)
    ensures |r| == |ks|
  {
    seq(|ks|, i requires 0 <= i < |ks| => ks[i].value)
  }

  /**
   * The key blocks the chain runs through: the first key's, then the
   * second's when it is non-empty, then the third's when both it and the
   * second are non-empty.
   */
  function ChainKeys(firstKey: seq<Byte>, secondKey: seq<Byte>, thirdKey: seq<Byte>): (r: seq<Block>)
    requires KeysUsable(firstKey, secondKey, thirdKey)
  {
    KeyBlocksPresent(firstKey);
    KeyBlocksPresent(secondKey);
    KeyBlocksPresent(thirdKey);
    Present(KeyBlocks(firstKey)) +
    (if secondKey != [] then
       Present(KeyBlocks(secondKey)) + (if thirdKey != [] then Present(KeyBlocks(thirdKey)) else [])
     else [])
  }

  /** Enc under each key block in turn. */
  function EncryptChain(bt: Block, ks: seq<Block>): Block
  {
    if ks == [] then bt else EncBlock(EncryptChain(bt, ks[..|ks| - 1]), ks[|ks| - 1])
  }

  /** Dec under each key block, last one first. */
  function DecryptChain(bt: Block, ks: seq<Block>): Block
    decreases |ks|
  {
    if ks == [] then bt else DecryptChain(DecBlock(bt, ks[|ks| - 1]), ks[..|ks| - 1])
  }

  /** Decrypting with the key blocks in reverse order undoes the chain. */
  lemma {:induction false} ChainInverse(bt: Block, ks: seq<Block>)
    ensures DecryptChain(EncryptChain(bt, ks), ks) == bt
  {
    if ks != [] {
      DecOfEnc(EncryptChain(bt, ks[..|ks| - 1]), ks[|ks| - 1]);
      ChainInverse(bt, ks[..|ks| - 1]);
    }
  }

  lemma {:induction false} ChainAppend(bt: Block, a: seq<Block>, b: seq<Block>)
    ensures EncryptChain(EncryptChain(bt, a), b) == EncryptChain(bt, a + b)
  {
    if b != [] {
      ChainAppend(bt, a, b[..|b| - 1]);
      assert (a + b)[..|a + b| - 1] == a + b[..|b| - 1];
    } else {
      assert a + b == a;
    }
  }

  /** Every group of data encrypted through the key blocks ks. */
  function Ciphers(blocks: seq<seq<Byte>>, ks: seq<Block>): (r: seq<Block>)
    ensures |r| == |blocks|
  {
    seq(|blocks|, i requires 0 <= i < |blocks| => EncryptChain(StrBits(blocks[i]), ks))
  }

  /** The hex text of each block, in order. */
  function HexConcat(cs: seq<Block>): (r: string)
    ensures |r| == 16 * |cs|
  {
    if cs == [] then "" else HexConcat(cs[..|cs| - 1]) + HexOf(cs[|cs| - 1])
  }

  /** Hex digits 16i..16i+15 of the concatenation spell block i. */
  lemma {:induction false} HexConcatBlock(cs: seq<Block>, i: nat)
    requires i < |cs|
    ensures HexConcat(cs)[16 * i .. 16 * i + 16] == HexOf(cs[i])
  {
    var n := |cs|;
    var prefix := HexConcat(cs[..n - 1]);
    assert HexConcat(cs) == prefix + HexOf(cs[n - 1]);
    if i < n - 1 {
      HexConcatBlock(cs[..n - 1], i);
      assert cs[..n - 1][i] == cs[i];
      assert HexConcat(cs)[16 * i .. 16 * i + 16] == prefix[16 * i .. 16 * i + 16];
    } else {
      assert HexConcat(cs)[16 * i .. 16 * i + 16] == HexOf(cs[n - 1]);
    }
  }

  /** What StrEnc returns. */
  function StrEncSpec(data: seq<Byte>, firstKey: seq<Byte>, secondKey: seq<Byte>, thirdKey: seq<Byte>): string
    requires |data| > 0 ==> KeysUsable(firstKey, secondKey, thirdKey)
  {
    if |data| == 0 then "" else HexConcat(Ciphers(DataBlocks(data), ChainKeys(firstKey, secondKey, thirdKey)))
  }

  /** StrEnc is empty exactly for empty data and has 16 hex digits per four-character group. */
  lemma StrEncLength(data: seq<Byte>, firstKey: seq<Byte>, secondKey: seq<Byte>, thirdKey: seq<Byte>)
    requires |data| > 0 ==> KeysUsable(firstKey, secondKey, thirdKey)
    ensures |StrEncSpec(data, firstKey, secondKey, thirdKey)| == 16 * ((|data| + 3) / 4)
    ensures data == [] <==> StrEncSpec(data, firstKey, secondKey, thirdKey) == ""
  {
  }

  /**
   * StrEnc can be decrypted: hex digits 16i..16i+15 of its output, read
   * back with HexToBt64 and run through Dec with the key blocks in reverse
   * order, give StrToBt of the i-th group of four characters.
   */
  lemma StrEncDecrypts(data: seq<Byte>, firstKey: seq<Byte>, secondKey: seq<Byte>, thirdKey: seq<Byte>, i: nat)
    requires |data| > 0 && KeysUsable(firstKey, secondKey, thirdKey)
    requires i < (|data| + 3) / 4
    ensures
      var segment := StrEncSpec(data, firstKey, secondKey, thirdKey)[16 * i .. 16 * i + 16];
      var bits := ParseBits(HexBinary(segment));
      |bits| == 64 && DecryptChain(bits, ChainKeys(firstKey, secondKey, thirdKey)) == StrBits(DataBlocks(data)[i])
  {
    var ks := ChainKeys(firstKey, secondKey, thirdKey);
    var cs := Ciphers(DataBlocks(data), ks);
    HexConcatBlock(cs, i);
    HexBitsRoundTrip(cs[i]);
    ChainInverse(StrBits(DataBlocks(data)[i]), ks);
  }

  /** Reading back the hex text of a block with HexToBt64 gives its bits. */
  lemma HexBitsRoundTrip(b: Block)
    ensures ParseBits(HexBinary(HexOf(b))) == b
  {
    assert HexOf(b)[..16] == HexOf(b);
    Hex64RoundTrip(b);
    assert b[..64] == b;
  }

  /** The `for x` loop of one key: Enc under each of its blocks. */
  method EncryptAll(tempBt: Block, keyBt: seq<Option<Block>>) returns (r: Block)
    requires AllPresent(keyBt)
    ensures r == EncryptChain(tempBt, Present(keyBt))
  {
    r := tempBt;
    for x := 0 to |keyBt|
      invariant r == EncryptChain(tempBt, Present(keyBt)[..x])
    {
      assert Present(keyBt)[..x + 1][..x] == Present(keyBt)[..x];
      r := Enc(r, keyBt[x].value);
    }
    assert Present(keyBt)[..|keyBt|] == Present(keyBt);
  }

  lemma ChainThree(x: Block, a: seq<Block>, b: seq<Block>, c: seq<Block>)
    ensures EncryptChain(EncryptChain(x, a), b) == EncryptChain(x, a + b)
    ensures EncryptChain(EncryptChain(EncryptChain(x, a), b), c) == EncryptChain(x, a + b + c)
  {
    ChainAppend(x, a, b);
    ChainAppend(x, a + b, c);
  }

  /** The key blocks of each branch of StrEnc's key chain. */
  lemma ChainKeysCases(firstKey: seq<Byte>, secondKey: seq<Byte>, thirdKey: seq<Byte>)
    requires KeysUsable(firstKey, secondKey, thirdKey)
    ensures AllPresent(KeyBlocks(firstKey))
    ensures secondKey != [] ==> AllPresent(KeyBlocks(secondKey))
    ensures secondKey != [] && thirdKey != [] ==> AllPresent(KeyBlocks(thirdKey))
    ensures secondKey != [] && thirdKey != [] ==>
      ChainKeys(firstKey, secondKey, thirdKey) ==
      Present(KeyBlocks(firstKey)) + Present(KeyBlocks(secondKey)) + Present(KeyBlocks(thirdKey))
    ensures secondKey != [] && thirdKey == [] ==>
      ChainKeys(firstKey, secondKey, thirdKey) == Present(KeyBlocks(firstKey)) + Present(KeyBlocks(secondKey))
    ensures secondKey == [] ==> ChainKeys(firstKey, secondKey, thirdKey) == Present(KeyBlocks(firstKey))
  {
    KeyBlocksPresent(firstKey);
    KeyBlocksPresent(secondKey);
    KeyBlocksPresent(thirdKey);
  }

  /** The three-way branch on which keys are non-empty, run on one block. */
  method EncryptWithKeys(tempByte: Block, firstKey: seq<Byte>, secondKey: seq<Byte>, thirdKey: seq<Byte>,
                         firstKeyBt: seq<Option<Block>>, secondKeyBt: seq<Option<Block>>, thirdKeyBt: seq<Option<Block>>)
    returns (encByte: Block)
    requires KeysUsable(firstKey, secondKey, thirdKey)
    requires firstKeyBt == KeyBlocks(firstKey) && secondKeyBt == KeyBlocks(secondKey) && thirdKeyBt == KeyBlocks(thirdKey)
    ensures encByte == EncryptChain(tempByte, ChainKeys(firstKey, secondKey, thirdKey))
  {
    ChainKeysCases(firstKey, secondKey, thirdKey);
    if firstKey != [] && secondKey != [] && thirdKey != [] {
      var tempBt := EncryptAll(tempByte, firstKeyBt);
      tempBt := EncryptAll(tempBt, secondKeyBt);
      tempBt := EncryptAll(tempBt, thirdKeyBt);
      ChainThree(tempByte, Present(firstKeyBt), Present(secondKeyBt), Present(thirdKeyBt));
      encByte := tempBt;
    } else if firstKey != [] && secondKey != [] {
      var tempBt := EncryptAll(tempByte, firstKeyBt);
      tempBt := EncryptAll(tempBt, secondKeyBt);
      ChainThree(tempByte, Present(firstKeyBt), Present(secondKeyBt), []);
      encByte := tempBt;
    } else {
      encByte := EncryptAll(tempByte, firstKeyBt);
    }
  }

  /** One group of StrEnc: StrToBt, the key chain, then Bt64ToHex. */
  method EncryptGroup(group: seq<Byte>, firstKey: seq<Byte>, secondKey: seq<Byte>, thirdKey: seq<Byte>,
                      firstKeyBt: seq<Option<Block>>, secondKeyBt: seq<Option<Block>>, thirdKeyBt: seq<Option<Block>>)
    returns (hex: string)
    requires KeysUsable(firstKey, secondKey, thirdKey)
    requires firstKeyBt == KeyBlocks(firstKey) && secondKeyBt == KeyBlocks(secondKey) && thirdKeyBt == KeyBlocks(thirdKey)
    ensures hex == HexOf(EncryptChain(StrBits(group), ChainKeys(firstKey, secondKey, thirdKey)))
  {
    var tempByte := StrToBt(group);
    var encByte := EncryptWithKeys(tempByte, firstKey, secondKey, thirdKey, firstKeyBt, secondKeyBt, thirdKeyBt);
    hex := Bt64ToHex(encByte);
  }

  lemma HexConcatSnoc(cs: seq<Block>, i: nat)
    requires i < |cs|
    ensures HexConcat(cs[..i + 1]) == HexConcat(cs[..i]) + HexOf(cs[i])
  {
    assert cs[..i + 1][..i] == cs[..i];
  }

  /** The `for i := 0; i < iterator` loop of StrEnc: every full group of four characters. */
  method EncryptFullGroups(data: seq<Byte>, firstKey: seq<Byte>, secondKey: seq<Byte>, thirdKey: seq<Byte>,
                           firstKeyBt: seq<Option<Block>>, secondKeyBt: seq<Option<Block>>, thirdKeyBt: seq<Option<Block>>)
    returns (encData: string)
    requires KeysUsable(firstKey, secondKey, thirdKey)
    requires firstKeyBt == KeyBlocks(firstKey) && secondKeyBt == KeyBlocks(secondKey) && thirdKeyBt == KeyBlocks(thirdKey)
    ensures |data| / 4 <= |DataBlocks(data)|
    ensures encData == HexConcat(Ciphers(DataBlocks(data), ChainKeys(firstKey, secondKey, thirdKey))[..|data| / 4])
  {
    ghost var cs := Ciphers(DataBlocks(data), ChainKeys(firstKey, secondKey, thirdKey));
    DataBlocksShape(data);
    encData := "";
    for i := 0 to |data| / 4
      invariant encData == HexConcat(cs[..i])
    {
      var hex := EncryptGroup(data[i * 4 + 0 .. i * 4 + 4], firstKey, secondKey, thirdKey, firstKeyBt, secondKeyBt, thirdKeyBt);
      FullGroupStep(data, ChainKeys(firstKey, secondKey, thirdKey), i, encData, hex);
      encData := encData + hex;
    }
  }

  /** One more full group of four characters extends the hex text by that group's cipher. */
  lemma FullGroupStep(data: seq<Byte>, ks: seq<Block>, i: nat, prefix: string, hex: string)
    requires i < |data| / 4
    requires prefix == HexConcat(Ciphers(DataBlocks(data), ks)[..i])
    requires hex == HexOf(EncryptChain(StrBits(data[i * 4 + 0 .. i * 4 + 4]), ks))
    ensures prefix + hex == HexConcat(Ciphers(DataBlocks(data), ks)[..i + 1])
  {
    var cs := Ciphers(DataBlocks(data), ks);
    DataBlocksShape(data);
    assert DataBlocks(data)[i] == data[i * 4 + 0 .. i * 4 + 4];
    assert cs[i] == EncryptChain(StrBits(data[i * 4 + 0 .. i * 4 + 4]), ks);
    HexConcatSnoc(cs, i);
  }

  /** Data shorter than four characters is one group. */
  lemma ShortData(data: seq<Byte>, ks: seq<Block>, hex: string)
    requires 0 < |data| < 4
    requires hex == HexOf(EncryptChain(StrBits(data), ks))
    ensures hex == HexConcat(Ciphers(DataBlocks(data), ks))
  {
    var cs := Ciphers(DataBlocks(data), ks);
    DataBlocksShape(data);
    assert data[0..] == data;
    assert cs[0] == EncryptChain(StrBits(data), ks);
    HexConcatSnoc(cs, 0);
    assert cs[..1] == cs;
  }

  /** The shorter last group follows the full ones. */
  lemma RemainderGroup(data: seq<Byte>, ks: seq<Block>, prefix: string, hex: string)
    requires |data| % 4 > 0 && |data| / 4 <= |DataBlocks(data)|
    requires prefix == HexConcat(Ciphers(DataBlocks(data), ks)[..|data| / 4])
    requires hex == HexOf(EncryptChain(StrBits(data[|data| / 4 * 4 + 0 .. |data|]), ks))
    ensures prefix + hex == HexConcat(Ciphers(DataBlocks(data), ks))
  {
    var cs := Ciphers(DataBlocks(data), ks);
    var q := |data| / 4;
    DataBlocksShape(data);
    assert data[q * 4 + 0 .. |data|] == data[q * 4 ..];
    assert cs[q] == EncryptChain(StrBits(data[q * 4 + 0 .. |data|]), ks);
    HexConcatSnoc(cs, q);
    assert cs[..q + 1] == cs;
  }

  /** With no remainder the full groups are all the groups. */
  lemma NoRemainder(data: seq<Byte>, ks: seq<Block>, prefix: string)
    requires |data| % 4 == 0 && |data| / 4 <= |DataBlocks(data)|
    requires prefix == HexConcat(Ciphers(DataBlocks(data), ks)[..|data| / 4])
    ensures prefix == HexConcat(Ciphers(DataBlocks(data), ks))
  {
    DataBlocksShape(data);
    var cs := Ciphers(DataBlocks(data), ks);
    assert cs[..|data| / 4] == cs;
  }

  method StrEnc(data: seq<Byte>, firstKey: seq<Byte>, secondKey: seq<Byte>, thirdKey: seq<Byte>)
    returns (encData: string)
    requires |data| > 0 ==> KeysUsable(firstKey, secondKey, thirdKey)
    ensures encData == StrEncSpec(data, firstKey, secondKey, thirdKey)
  {
    var leng := |data|;
    encData := "";
    if leng <= 0 {
      return;
    }
    var firstKeyBt := GetKeyBytes(firstKey);
    var secondKeyBt := GetKeyBytes(secondKey);
    var thirdKeyBt := GetKeyBytes(thirdKey);
    ghost var ks := ChainKeys(firstKey, secondKey, thirdKey);
    if leng < 4 {
      encData := EncryptGroup(data, firstKey, secondKey, thirdKey, firstKeyBt, secondKeyBt, thirdKeyBt);
      ShortData(data, ks, encData);
    } else {
      var blockCount := leng / 4;
      var remainder := leng % 4;
      encData := EncryptFullGroups(data, firstKey, secondKey, thirdKey, firstKeyBt, secondKeyBt, thirdKeyBt);
      if remainder > 0 {
        var hex := EncryptGroup(data[blockCount * 4 + 0 .. leng], firstKey, secondKey, thirdKey, firstKeyBt, secondKeyBt, thirdKeyBt);
        RemainderGroup(data, ks, encData, hex);
        encData := encData + hex;
      } else {
        NoRemainder(data, ks, encData);
      }
    }
  }
}
