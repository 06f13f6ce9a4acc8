/**
 * Stellar destination addresses (stellar-melt-quote.ts): the base-32 decoder,
 * the CRC-16/XMODEM checksum and the validity test of SEP-0023.
 */
module Strkey {
  import opened Outcomes

  // ------------------------------------------------------- base 32 digits

  /** Position in the alphabet A-Z 2-7, or None for any other character. */
  function Digit(c: char): Option<bv8> {
    match c
    case 'A' => Some(0)
    case 'B' => Some(1)
    case 'C' => Some(2)
    case 'D' => Some(3)
    case 'E' => Some(4)
    case 'F' => Some(5)
    case 'G' => Some(6)
    case 'H' => Some(7)
    case 'I' => Some(8)
    case 'J' => Some(9)
    case 'K' => Some(10)
    case 'L' => Some(11)
    case 'M' => Some(12)
    case 'N' => Some(13)
    case 'O' => Some(14)
    case 'P' => Some(15)
    case 'Q' => Some(16)
    case 'R' => Some(17)
    case 'S' => Some(18)
    case 'T' => Some(19)
    case 'U' => Some(20)
    case 'V' => Some(21)
    case 'W' => Some(22)
    case 'X' => Some(23)
    case 'Y' => Some(24)
    case 'Z' => Some(25)
    case '2' => Some(26)
    case '3' => Some(27)
    case '4' => Some(28)
    case '5' => Some(29)
    case '6' => Some(30)
    case '7' => Some(31)
    case _ => None
  }

  const ALPHABET := "ABCDEFGHIJKLMNOPQRSTUVWXYZ234567"

  predicate InAlphabet(c: char) { Digit(c).Some? }

  /** The alphabet read backwards; digits have five bits. */
  function Letter(d: bv8): char
    requires d < 32
  {
    ALPHABET[d as nat]
  }

  lemma LetterOfDigit(c: char)
    requires InAlphabet(c)
    ensures Digit(c).value < 32 && Letter(Digit(c).value) == c
  {
  }

  function Digits(s: string): (d: seq<bv8>)
    requires forall i :: 0 <= i < |s| ==> InAlphabet(s[i])
    ensures |d| == |s|
    ensures forall i :: 0 <= i < |s| ==> InAlphabet(s[i]) && d[i] == Digit(s[i]).value && d[i] < 32
  {
    seq(|s|, i requires 0 <= i < |s| => (assert InAlphabet(s[i]); LetterOfDigit(s[i]); Digit(s[i]).value))
  }

  // --------------------------------------- the byte layout of RFC 4648

  // Eight digits a..h make five bytes; each byte from the two or three digits it overlaps.
  function Pack0(a: bv8, b: bv8): bv8 { (a << 3) | (b >> 2) }
  function Pack1(b: bv8, c: bv8, d: bv8): bv8 { (b << 6) | (c << 1) | (d >> 4) }
  function Pack2(d: bv8, e: bv8): bv8 { (d << 4) | (e >> 1) }
  function Pack3(e: bv8, f: bv8, g: bv8): bv8 { (e << 7) | (f << 2) | (g >> 3) }
  function Pack4(g: bv8, h: bv8): bv8 { (g << 5) | h }

  /** Byte `k` of the 5-byte groups that section 6 of RFC 4648 lays out over 8 digits. */
  function ByteAt(d: seq<bv8>, k: nat): bv8
    requires 8 * k + 8 <= 5 * |d|
  {
    var b := 8 * (k / 5);
    match k % 5
    case 0 => Pack0(d[b], d[b + 1])
    case 1 => Pack1(d[b + 1], d[b + 2], d[b + 3])
    case 2 => Pack2(d[b + 3], d[b + 4])
    case 3 => Pack3(d[b + 4], d[b + 5], d[b + 6])
    case _ => Pack4(d[b + 6], d[b + 7])
  }

  function Bytes(d: seq<bv8>): (bytes: seq<bv8>)
    ensures |bytes| == 5 * |d| / 8
    ensures forall k :: 0 <= k < |bytes| ==> bytes[k] == ByteAt(d, k)
  {
    seq(5 * |d| / 8, k requires 0 <= k < 5 * |d| / 8 => ByteAt(d, k))
  }

  /** The trailing bits that fill no byte. */
  function Leftover(d: seq<bv8>): bv32 {
    var n := |d|;
    match n % 8
    case 0 => 0
    case 1 => d[n - 1] as bv32
    case 2 => (d[n - 1] & 3) as bv32
    case 3 => ((d[n - 2] & 3) as bv32 << 5) | d[n - 1] as bv32
    case 4 => (d[n - 1] & 15) as bv32
    case 5 => (d[n - 1] & 1) as bv32
    case 6 => ((d[n - 2] & 1) as bv32 << 5) | d[n - 1] as bv32
    case _ => (d[n - 1] & 7) as bv32
  }

  function Decoded(s: string): Option<seq<bv8>> {
    if exists i :: 0 <= i < |s| && !InAlphabet(s[i]) then None
    else if Leftover(Digits(s)) != 0 then None
    else Some(Bytes(Digits(s)))
  }

  lemma PackGroup(a: bv8, b: bv8, c: bv8)
    requires a < 32 && b < 32 && c < 32
    ensures var buffer := ((a as bv32) << 5) | c as bv32;
            ((buffer >> 2) & 0xff) as bv8 == (a << 3) | (c >> 2) && buffer & 3 == (c & 3) as bv32
    ensures var buffer := ((((a & 3) as bv32 << 5) | b as bv32) << 5) | c as bv32;
            ((buffer >> 4) & 0xff) as bv8 == (a << 6) | (b << 1) | (c >> 4) && buffer & 15 == (c & 15) as bv32
    ensures var buffer := ((b & 15) as bv32 << 5) | c as bv32;
            ((buffer >> 1) & 0xff) as bv8 == (b << 4) | (c >> 1) && buffer & 1 == (c & 1) as bv32
    ensures var buffer := ((((a & 1) as bv32 << 5) | b as bv32) << 5) | c as bv32;
            ((buffer >> 3) & 0xff) as bv8 == (a << 7) | (b << 2) | (c >> 3) && buffer & 7 == (c & 7) as bv32
    ensures var buffer := ((b & 7) as bv32 << 5) | c as bv32;
            (buffer & 0xff) as bv8 == (b << 5) | c
  {
  }

  /** `(buffer << 5) | digit`. */
  function ShiftIn(buffer: bv32, digit: bv8): bv32 {
    (buffer << 5) | digit as bv32
  }

  /** `buffer & ((1 << bits) - 1)`, written out per shift amount. */
  function Low(buffer: bv32, bits: nat): bv32
    requires bits < 8
  {
    match bits
    case 0 => 0
    case 1 => buffer & 1
    case 2 => buffer & 3
    case 3 => buffer & 7
    case 4 => buffer & 15
    case 5 => buffer & 31
    case 6 => buffer & 63
    case _ => buffer & 127
  }

  /** `(buffer >> bits) & 0xff`, written out per shift amount. */
  function High(buffer: bv32, bits: nat): bv8
    requires bits < 8
  {
    match bits
    case 0 => (buffer & 0xff) as bv8
    case 1 => ((buffer >> 1) & 0xff) as bv8
    case 2 => ((buffer >> 2) & 0xff) as bv8
    case 3 => ((buffer >> 3) & 0xff) as bv8
    case 4 => ((buffer >> 4) & 0xff) as bv8
    case 5 => ((buffer >> 5) & 0xff) as bv8
    case 6 => ((buffer >> 6) & 0xff) as bv8
    case _ => ((buffer >> 7) & 0xff) as bv8
  }

  /** Shifting one more digit into the buffer yields the next byte of the layout and the new leftover. */
  predicate ShiftsIn(d: seq<bv8>)
    requires |d| > 0
  {
    var n := |d| - 1;
    var buffer := ShiftIn(Leftover(d[..n]), d[n]);
    var bits := 5 * n % 8 + 5;
    if bits < 8 then Leftover(d) == buffer && 5 * |d| / 8 == 5 * n / 8
    else
      && 5 * |d| / 8 == 5 * n / 8 + 1
      && High(buffer, bits - 8) == ByteAt(d, 5 * n / 8)
      && Leftover(d) == Low(buffer, bits - 8)
  }

  lemma ShiftInFirstHalf(d: seq<bv8>)
    requires |d| > 0 && (|d| - 1) % 8 < 4 && forall i :: 0 <= i < |d| ==> d[i] < 32
    ensures ShiftsIn(d)
  {
    var n := |d| - 1;
    if n % 8 == 0 {
      assert n == 8 * (n / 8);
    } else if n % 8 == 1 {
      ShiftInFirstByte(d);
    } else if n % 8 == 2 {
      assert n == 8 * (n / 8) + 2;
    } else {
      ShiftInSecondByte(d);
    }
  }

  lemma ShiftInFirstByte(d: seq<bv8>)
    requires |d| > 0 && (|d| - 1) % 8 == 1 && forall i :: 0 <= i < |d| ==> d[i] < 32
    ensures ShiftsIn(d)
  {
    var n := |d| - 1;
    assert n == 8 * (n / 8) + 1 && 5 * n / 8 == 5 * (n / 8);
    PackGroup(d[n - 1], d[n - 1], d[n]);
  }

  lemma ShiftInSecondByte(d: seq<bv8>)
    requires |d| > 0 && (|d| - 1) % 8 == 3 && forall i :: 0 <= i < |d| ==> d[i] < 32
    ensures ShiftsIn(d)
  {
    var n := |d| - 1;
    assert n == 8 * (n / 8) + 3 && 5 * n / 8 == 5 * (n / 8) + 1;
    PackGroup(d[n - 2], d[n - 1], d[n]);
  }

  lemma ShiftInSecondHalf(d: seq<bv8>)
    requires |d| > 0 && (|d| - 1) % 8 >= 4 && forall i :: 0 <= i < |d| ==> d[i] < 32
    ensures ShiftsIn(d)
  {
    var n := |d| - 1;
    var group := n / 8;
    if n % 8 == 4 {
      assert n == 8 * group + 4 && 5 * n / 8 == 5 * group + 2;
      PackGroup(d[n - 2], d[n - 1], d[n]);
    } else if n % 8 == 5 {
      assert n == 8 * group + 5;
    } else {
      ShiftInGroupEnd(d);
    }
  }

  lemma ShiftInGroupEnd(d: seq<bv8>)
    requires |d| > 0 && (|d| - 1) % 8 >= 6 && forall i :: 0 <= i < |d| ==> d[i] < 32
    ensures ShiftsIn(d)
  {
    var n := |d| - 1;
    var group := n / 8;
    PackGroup(d[n - 2], d[n - 1], d[n]);
    if n % 8 == 6 {
      assert n == 8 * group + 6 && 5 * n / 8 == 5 * group + 3;
    } else {
      assert n == 8 * group + 7 && 5 * n / 8 == 5 * group + 4;
    }
  }

  lemma BytesGrow(d: seq<bv8>)
    requires |d| > 0
    ensures var n := |d| - 1;
            && 5 * n / 8 <= 5 * |d| / 8 <= 5 * n / 8 + 1
            && Bytes(d) == Bytes(d[..n]) + if 5 * |d| / 8 == 5 * n / 8 then [] else [ByteAt(d, 5 * n / 8)]
  {
    var n := |d| - 1;
    var front := d[..n];
    forall k | 0 <= k < 5 * n / 8 ensures ByteAt(d, k) == ByteAt(front, k) {
    }
  }

  method DecodeBase32(value: string) returns (decoded: Option<seq<bv8>>)
    ensures decoded == Decoded(value)
  {
    hide ByteAt, Leftover, High, Low, Digit, ShiftIn;
    var output: seq<bv8> := [];
    var buffer: bv32 := 0;
    var bufferedBits := 0;
    NoDigits();
    for index := 0 to |value|
      invariant forall i :: 0 <= i < index ==> InAlphabet(value[i])
      invariant bufferedBits == 5 * index % 8
      invariant buffer == Leftover(Digits(value[..index]))
      invariant output == Bytes(Digits(value[..index]))
    {
      var digit := Digit(value[index]);
      if digit.None? {
        assert !InAlphabet(value[index]);
        return None;
      }
      ghost var d := Digits(value[..index + 1]);
      assert d[..index] == Digits(value[..index]);
      if index % 8 < 4 { ShiftInFirstHalf(d); } else { ShiftInSecondHalf(d); }
      BytesGrow(d);
      buffer := ShiftIn(buffer, digit.value);
      bufferedBits := bufferedBits + 5;
      if bufferedBits >= 8 {
        bufferedBits := bufferedBits - 8;
        output := output + [High(buffer, bufferedBits)];
        buffer := Low(buffer, bufferedBits);
      }
    }
    assert value[..|value|] == value;
    if buffer != 0 {
      return None;
    }
    return Some(output);
  }

  lemma NoDigits()
    ensures Leftover(Digits("")) == 0 && Bytes(Digits("")) == []
  {
  }

  // ------------------------------------------------------ CRC-16/XMODEM

  function CrcBit(c: bv16): bv16 {
    if c & 0x8000 != 0 then (c << 1) ^ 0x1021 else c << 1
  }

  function CrcBits(c: bv16, n: nat): bv16 {
    if n == 0 then c else CrcBit(CrcBits(c, n - 1))
  }

  function CrcByte(c: bv16, byte: bv8): bv16 {
    CrcBits(Absorb(c, byte), 8)
  }

  function Absorb(c: bv16, byte: bv8): bv16 {
    c ^ (byte as bv16 << 8)
  }

  function Crc(bytes: seq<bv8>): bv16 {
    if bytes == [] then 0 else CrcByte(Crc(bytes[..|bytes| - 1]), bytes[|bytes| - 1])
  }

  method Crc16Xmodem(value: seq<bv8>) returns (checksum: bv16)
    ensures checksum == Crc(value)
  {
    hide CrcBit;
    checksum := 0;
    for index := 0 to |value|
      invariant checksum == Crc(value[..index])
    {
      checksum := checksum ^ (value[index] as bv16 << 8);
      ghost var start := checksum;
      for bit := 0 to 8
        invariant checksum == CrcBits(start, bit)
      {
        checksum := CrcBit(checksum);
      }
      assert value[..index + 1][..index] == value[..index];
    }
    assert value[..|value|] == value;
  }

  lemma EightBits(c: bv16)
    ensures CrcBits(c, 8) == CrcBit(CrcBit(CrcBit(CrcBit(CrcBit(CrcBit(CrcBit(CrcBit(c))))))))
  {
    hide CrcBit;
    assert CrcBits(c, 2) == CrcBit(CrcBit(c)) by { assert CrcBits(c, 1) == CrcBit(c); }
    assert CrcBits(c, 4) == CrcBit(CrcBit(CrcBits(c, 2))) by { assert CrcBits(c, 3) == CrcBit(CrcBits(c, 2)); }
    assert CrcBits(c, 6) == CrcBit(CrcBit(CrcBits(c, 4))) by { assert CrcBits(c, 5) == CrcBit(CrcBits(c, 4)); }
    assert CrcBits(c, 8) == CrcBit(CrcBit(CrcBits(c, 6))) by { assert CrcBits(c, 7) == CrcBit(CrcBits(c, 6)); }
  }

  lemma XorAndShift(a: bv16, b: bv16)
    ensures (a ^ b) << 1 == (a << 1) ^ (b << 1)
    ensures (a ^ b) & 0x8000 == (a & 0x8000) ^ (b & 0x8000)
    ensures a & 0x8000 == 0 || a & 0x8000 == 0x8000
  {
  }

  lemma XorRegroups(x: bv16, y: bv16, k: bv16)
    ensures (x ^ k) ^ (y ^ k) == x ^ y
    ensures (x ^ k) ^ y == (x ^ y) ^ k
    ensures x ^ (y ^ k) == (x ^ y) ^ k
  {
  }

  function Xor(a: bv16, b: bv16): bv16 {
    a ^ b
  }

  lemma CrcBitIsLinear(a: bv16, b: bv16)
    ensures CrcBit(Xor(a, b)) == Xor(CrcBit(a), CrcBit(b))
  {
    XorAndShift(a, b);
    XorAndShift(b, a);
    XorRegroups(a << 1, b << 1, 0x1021);
  }

  lemma CrcBitKeepsNonzero(a: bv16)
    requires a != 0
    ensures CrcBit(a) != 0
  {
  }

  lemma {:induction false} CrcBitsIsLinear(a: bv16, b: bv16, n: nat)
    ensures CrcBits(Xor(a, b), n) == Xor(CrcBits(a, n), CrcBits(b, n))
  {
    hide CrcBit, Xor;
    if n > 0 {
      CrcBitsIsLinear(a, b, n - 1);
      CrcBitIsLinear(CrcBits(a, n - 1), CrcBits(b, n - 1));
    }
  }

  lemma {:induction false} CrcBitsKeepsNonzero(c: bv16, n: nat)
    requires c != 0
    ensures CrcBits(c, n) != 0
  {
    if n > 0 {
      CrcBitsKeepsNonzero(c, n - 1);
      CrcBitKeepsNonzero(CrcBits(c, n - 1));
    }
  }

  /** No two register values meet again, however many bits are shifted through both. */
  lemma CrcBitsIsInjective(a: bv16, b: bv16, n: nat)
    requires a != b
    ensures CrcBits(a, n) != CrcBits(b, n)
  {
    CrcBitsKeepsNonzero(Xor(a, b), n);
    CrcBitsIsLinear(a, b, n);
  }

  /** The published check value of CRC-16/XMODEM for the nine ASCII digits "123456789". */
  lemma CrcCheckValue()
    ensures Crc([0x31, 0x32, 0x33, 0x34, 0x35, 0x36, 0x37, 0x38, 0x39]) == 0x31C3
  {
    hide CrcByte, Crc;
    var digits: seq<bv8> := [0x31, 0x32, 0x33, 0x34, 0x35, 0x36, 0x37, 0x38, 0x39];
    CrcPrefixes(digits);
    CrcOneByte(0x0, 0x31, 0x3100, 0x2672);
    assert Crc(digits[..1]) == 0x2672;
    CrcOneByte(0x2672, 0x32, 0x1472, 0x20b5);
    assert Crc(digits[..2]) == 0x20b5;
    CrcOneByte(0x20b5, 0x33, 0x13b5, 0x9752);
    assert Crc(digits[..3]) == 0x9752;
    CrcOneByte(0x9752, 0x34, 0xa352, 0xd789);
    assert Crc(digits[..4]) == 0xd789;
    CrcOneByte(0xd789, 0x35, 0xe289, 0x546c);
    assert Crc(digits[..5]) == 0x546c;
    CrcOneByte(0x546c, 0x36, 0x626c, 0x20e4);
    assert Crc(digits[..6]) == 0x20e4;
    CrcOneByte(0x20e4, 0x37, 0x17e4, 0x86d6);
    assert Crc(digits[..7]) == 0x86d6;
    CrcOneByte(0x86d6, 0x38, 0xbed6, 0x9015);
    assert Crc(digits[..8]) == 0x9015;
    CrcOneByte(0x9015, 0x39, 0xa915, 0x31c3);
    assert Crc(digits[..9]) == 0x31c3;
    assert digits[..9] == digits;
  }

  lemma CrcOneByte(c: bv16, byte: bv8, register: bv16, next: bv16)
    requires register == c ^ (byte as bv16 << 8)
    requires next == CrcBit(CrcBit(CrcBit(CrcBit(CrcBit(CrcBit(CrcBit(CrcBit(register))))))))
    ensures CrcByte(c, byte) == next
  {
    EightBits(register);
  }

  lemma CrcPrefixes(bytes: seq<bv8>)
    ensures Crc(bytes[..0]) == 0
    ensures forall k :: 0 <= k < |bytes| ==> Crc(bytes[..k + 1]) == CrcByte(Crc(bytes[..k]), bytes[k])
  {
    forall k | 0 <= k < |bytes| ensures Crc(bytes[..k + 1]) == CrcByte(Crc(bytes[..k]), bytes[k]) {
      assert bytes[..k + 1][..k] == bytes[..k];
    }
  }

  // ------------------------------------------- what the checksum detects

  lemma ByteAfterByte(c: bv16, x: bv8, y: bv8)
    ensures CrcByte(CrcByte(c, x), y) == CrcBits(CrcBits(Xor(c, (x as bv16 << 8) | y as bv16), 8), 8)
  {
    var first := c ^ (x as bv16 << 8);
    LowByteShiftsUp(y);
    CrcBitsIsLinear(first, y as bv16, 8);
    PairRegister(c, x, y);
    hide CrcBits;
  }

  lemma PairRegister(c: bv16, x: bv8, y: bv8)
    ensures Xor(c ^ (x as bv16 << 8), y as bv16) == Xor(c, (x as bv16 << 8) | y as bv16)
  {
  }

  /** A value below 2^8 meets no feedback during eight shifts. */
  lemma LowByteShiftsUp(y: bv8)
    ensures CrcBits(y as bv16, 8) == y as bv16 << 8
  {
    EightBits(y as bv16);
    hide CrcBits;
  }

  lemma DistinctPairsDistinctRegisters(c: bv16, x: bv8, y: bv8, u: bv8, v: bv8)
    requires (x, y) != (u, v)
    ensures CrcByte(CrcByte(c, x), y) != CrcByte(CrcByte(c, u), v)
  {
    var p, q := (x as bv16 << 8) | y as bv16, (u as bv16 << 8) | v as bv16;
    ByteAfterByte(c, x, y);
    ByteAfterByte(c, u, v);
    PairsDiffer(c, x, y, u, v);
    hide CrcByte, Xor, CrcBits;
    CrcBitsIsInjective(Xor(c, p), Xor(c, q), 8);
    CrcBitsIsInjective(CrcBits(Xor(c, p), 8), CrcBits(Xor(c, q), 8), 8);
  }

  lemma PairsDiffer(c: bv16, x: bv8, y: bv8, u: bv8, v: bv8)
    requires (x, y) != (u, v)
    ensures Xor(c, (x as bv16 << 8) | y as bv16) != Xor(c, (u as bv16 << 8) | v as bv16)
  {
  }

  lemma {:induction false} DifferenceSurvives(p: seq<bv8>, q: seq<bv8>, m: nat)
    requires |p| == |q| && m <= |p| && Crc(p[..m]) != Crc(q[..m])
    requires forall k :: m <= k < |p| ==> p[k] == q[k]
    ensures Crc(p) != Crc(q)
  {
    if m == |p| {
      assert p[..m] == p && q[..m] == q;
    } else {
      var n := |p| - 1;
      assert p[..n][..m] == p[..m] && q[..n][..m] == q[..m];
      DifferenceSurvives(p[..n], q[..n], m);
      SameByteKeepsDifference(Crc(p[..n]), Crc(q[..n]), p[n]);
    }
  }

  lemma SameByteKeepsDifference(a: bv16, b: bv16, byte: bv8)
    requires a != b
    ensures CrcByte(a, byte) != CrcByte(b, byte)
  {
    var x, y := a ^ (byte as bv16 << 8), b ^ (byte as bv16 << 8);
    assert x != y;
    CrcBitsIsInjective(x, y, 8);
  }

  lemma {:induction false} CrcOfCommonPrefix(p: seq<bv8>, q: seq<bv8>, m: nat)
    requires m <= |p| && m <= |q| && forall k :: 0 <= k < m ==> p[k] == q[k]
    ensures Crc(p[..m]) == Crc(q[..m])
  {
    assert p[..m] == q[..m];
  }

  /** Any change confined to two neighbouring payload bytes changes the checksum. */
  lemma NeighbourChangeDetected(p: seq<bv8>, q: seq<bv8>, m: nat)
    requires |p| == |q| && m + 1 < |p| && p != q
    requires forall k :: 0 <= k < |p| && k != m && k != m + 1 ==> p[k] == q[k]
    ensures Crc(p) != Crc(q)
  {
    hide CrcByte;
    CrcOfCommonPrefix(p, q, m);
    CrcPrefixes(p);
    CrcPrefixes(q);
    assert Crc(p[..m + 2]) == CrcByte(CrcByte(Crc(p[..m]), p[m]), p[m + 1]);
    assert Crc(q[..m + 2]) == CrcByte(CrcByte(Crc(q[..m]), q[m]), q[m + 1]);
    DistinctPairsDistinctRegisters(Crc(p[..m]), p[m], p[m + 1], q[m], q[m + 1]);
    DifferenceSurvives(p, q, m + 2);
  }

  /** A change in the low four bits of the last payload byte reaches the high checksum byte. */
  lemma LastNibbleReachesHighByte(p: seq<bv8>, q: seq<bv8>)
    requires |p| == |q| > 0 && p[..|p| - 1] == q[..|q| - 1]
    requires p[|p| - 1] ^ q[|q| - 1] < 16 && p != q
    ensures Crc(p) >> 8 != Crc(q) >> 8
  {
    hide *;
    var n := |p| - 1;
    CrcPrefixes(p);
    CrcPrefixes(q);
    assert p[..n + 1] == p && q[..n + 1] == q;
    assert p == p[..n] + [p[n]] && q == q[..n] + [q[n]];
    hide Crc, CrcByte;
    assert p[n] != q[n];
    NibbleReachesHighByte(Crc(p[..n]), p[n], q[n]);
  }

  lemma NibbleReachesHighByte(c: bv16, x: bv8, y: bv8)
    requires x ^ y < 16 && x != y
    ensures CrcByte(c, x) >> 8 != CrcByte(c, y) >> 8
  {
    NibbleFeedback(x, y);
    RegisterDifference(c, x, y);
    CrcBitsIsLinear(Absorb(c, x), Absorb(c, y), 8);
    hide Absorb, Xor, CrcBits;
    assert CrcByte(c, x) == CrcBits(Absorb(c, x), 8) && CrcByte(c, y) == CrcBits(Absorb(c, y), 8);
    HighBytesDiffer(CrcByte(c, x), CrcByte(c, y));
  }

  lemma RegisterDifference(c: bv16, x: bv8, y: bv8)
    ensures Xor(Absorb(c, x), Absorb(c, y)) == (x ^ y) as bv16 << 8
  {
  }

  lemma HighBytesDiffer(a: bv16, b: bv16)
    requires Xor(a, b) >> 8 != 0
    ensures a >> 8 != b >> 8
  {
  }

  lemma NibbleFeedback(x: bv8, y: bv8)
    requires x ^ y < 16 && x != y
    ensures CrcBits((x ^ y) as bv16 << 8, 8) >> 8 != 0
  {
    EightBits((x ^ y) as bv16 << 8);
    hide CrcBits;
  }

  // ------------------------------------------------- valid destinations

  const ACCOUNT_ID_VERSION: bv8 := 0x30
  const MUXED_ACCOUNT_VERSION: bv8 := 0x60
  const ACCOUNT_ID_BYTES := 35
  const MUXED_ACCOUNT_BYTES := 43

  /** The address pattern: G and 55 more letters of the alphabet, or M and 68 more. */
  predicate MatchesPattern(s: string) {
    && (forall i :: 0 <= i < |s| ==> InAlphabet(s[i]))
    && ((|s| == 56 && s[0] == 'G') || (|s| == 69 && s[0] == 'M'))
  }

  /** The last two bytes carry the checksum of the bytes before them, low byte first. */
  predicate ChecksumHolds(bytes: seq<bv8>) {
    && |bytes| >= 2
    && var n := |bytes|;
       var checksum := Crc(bytes[..n - 2]);
       bytes[n - 2] as bv16 == checksum & 0xff && bytes[n - 1] as bv16 == checksum >> 8
  }

  predicate IsValidDestination(s: string) {
    && MatchesPattern(s)
    && Decoded(s).Some?
    && var bytes := Decoded(s).value;
       && |bytes| == (if s[0] == 'M' then MUXED_ACCOUNT_BYTES else ACCOUNT_ID_BYTES)
       && bytes[0] == (if s[0] == 'M' then MUXED_ACCOUNT_VERSION else ACCOUNT_ID_VERSION)
       && ChecksumHolds(bytes)
  }

  method IsValidStellarDestination(value: string) returns (valid: bool)
    ensures valid == IsValidDestination(value)
  {
    if !MatchesPattern(value) {
      return false;
    }
    var decoded := DecodeBase32(value);
    if decoded.None? {
      return false;
    }
    var bytes := decoded.value;
    var isMuxed := value[0] == 'M';
    var expectedLength := if isMuxed then MUXED_ACCOUNT_BYTES else ACCOUNT_ID_BYTES;
    var expectedVersion := if isMuxed then MUXED_ACCOUNT_VERSION else ACCOUNT_ID_VERSION;
    if |bytes| != expectedLength || bytes[0] != expectedVersion {
      return false;
    }
    var checksum := Crc16Xmodem(bytes[..|bytes| - 2]);
    return bytes[|bytes| - 2] as bv16 == checksum & 0xff && bytes[|bytes| - 1] as bv16 == checksum >> 8;
  }

  // ----------------------------------------------------- encoding and back

  function ByteOrZero(bytes: seq<bv8>, k: nat): bv8 {
    if k < |bytes| then bytes[k] else 0
  }

  // Digits a..h cut back out of the one or two bytes that hold them.
  function Cut0(x: bv8): bv8 { x >> 3 }
  function Cut1(x: bv8, y: bv8): bv8 { ((x & 7) << 2) | (y >> 6) }
  function Cut2(y: bv8): bv8 { (y >> 1) & 31 }
  function Cut3(y: bv8, z: bv8): bv8 { ((y & 1) << 4) | (z >> 4) }
  function Cut4(z: bv8, u: bv8): bv8 { ((z & 15) << 1) | (u >> 7) }
  function Cut5(u: bv8): bv8 { (u >> 2) & 31 }
  function Cut6(u: bv8, v: bv8): bv8 { ((u & 3) << 3) | (v >> 5) }
  function Cut7(v: bv8): bv8 { v & 31 }

  /** Digit `i` of the base-32 encoding in section 6 of RFC 4648, with zero bits past the end. */
  function EncodedDigit(bytes: seq<bv8>, i: nat): (d: bv8)
    ensures d < 32
  {
    var b := 5 * (i / 8);
    match i % 8
    case 0 => Cut0(ByteOrZero(bytes, b))
    case 1 => Cut1(ByteOrZero(bytes, b), ByteOrZero(bytes, b + 1))
    case 2 => Cut2(ByteOrZero(bytes, b + 1))
    case 3 => Cut3(ByteOrZero(bytes, b + 1), ByteOrZero(bytes, b + 2))
    case 4 => Cut4(ByteOrZero(bytes, b + 2), ByteOrZero(bytes, b + 3))
    case 5 => Cut5(ByteOrZero(bytes, b + 3))
    case 6 => Cut6(ByteOrZero(bytes, b + 3), ByteOrZero(bytes, b + 4))
    case _ => Cut7(ByteOrZero(bytes, b + 4))
  }

  function EncodedLength(bytes: seq<bv8>): nat { (8 * |bytes| + 4) / 5 }

  function Encoded(bytes: seq<bv8>): (s: string)
    ensures |s| == EncodedLength(bytes)
    ensures forall i :: 0 <= i < |s| ==> s[i] == Letter(EncodedDigit(bytes, i))
  {
    seq(EncodedLength(bytes), i requires 0 <= i < EncodedLength(bytes) => Letter(EncodedDigit(bytes, i)))
  }

  lemma CutPacked(a: bv8, b: bv8, c: bv8, d: bv8, e: bv8, f: bv8, g: bv8, h: bv8)
    requires a < 32 && b < 32 && c < 32 && d < 32 && e < 32 && f < 32 && g < 32 && h < 32
    ensures Cut0(Pack0(a, b)) == a
    ensures Cut1(Pack0(a, b), Pack1(b, c, d)) == b
    ensures Cut2(Pack1(b, c, d)) == c
    ensures Cut3(Pack1(b, c, d), Pack2(d, e)) == d
    ensures Cut4(Pack2(d, e), Pack3(e, f, g)) == e
    ensures e & 1 == 0 ==> Cut4(Pack2(d, e), 0) == e
    ensures Cut5(Pack3(e, f, g)) == f
    ensures Cut6(Pack3(e, f, g), Pack4(g, h)) == g
    ensures Cut7(Pack4(g, h)) == h
  {
  }

  lemma PackedCut(x: bv8, y: bv8, z: bv8, u: bv8, v: bv8)
    ensures Pack0(Cut0(x), Cut1(x, y)) == x
    ensures Pack1(Cut1(x, y), Cut2(y), Cut3(y, z)) == y
    ensures Pack2(Cut3(y, z), Cut4(z, u)) == z
    ensures Pack3(Cut4(z, u), Cut5(u), Cut6(u, v)) == u
    ensures Pack4(Cut6(u, v), Cut7(v)) == v
    ensures Cut4(z, 0) & 1 == 0
  {
  }

  /** The eight digits of one group, read from its five bytes. */
  lemma GroupDigits(bytes: seq<bv8>, g: nat)
    requires 5 * g + 5 <= |bytes|
    ensures var o, b := 8 * g, 5 * g;
            && EncodedDigit(bytes, o) == Cut0(bytes[b])
            && EncodedDigit(bytes, o + 1) == Cut1(bytes[b], bytes[b + 1])
            && EncodedDigit(bytes, o + 2) == Cut2(bytes[b + 1])
            && EncodedDigit(bytes, o + 3) == Cut3(bytes[b + 1], bytes[b + 2])
            && EncodedDigit(bytes, o + 4) == Cut4(bytes[b + 2], bytes[b + 3])
            && EncodedDigit(bytes, o + 5) == Cut5(bytes[b + 3])
            && EncodedDigit(bytes, o + 6) == Cut6(bytes[b + 3], bytes[b + 4])
            && EncodedDigit(bytes, o + 7) == Cut7(bytes[b + 4])
  {
    hide Cut0, Cut1, Cut2, Cut3, Cut4, Cut5, Cut6, Cut7;
  }

  lemma DigitsOfFullGroup(d: seq<bv8>, i: nat)
    requires forall j :: 0 <= j < |d| ==> d[j] < 32
    requires 8 * (i / 8) + 8 <= |d|
    ensures EncodedDigit(Bytes(d), i) == d[i]
  {
    hide *;
    var g := i / 8;
    var o := 8 * g;
    CutPacked(d[o], d[o + 1], d[o + 2], d[o + 3], d[o + 4], d[o + 5], d[o + 6], d[o + 7]);
    GroupBytes(d, g);
    GroupDigits(Bytes(d), g);
    assert i == o || i == o + 1 || i == o + 2 || i == o + 3 || i == o + 4 || i == o + 5 || i == o + 6 || i == o + 7;
  }

  /** The digits of a decoded string are recovered from its bytes. */
  lemma DigitsFromBytes(d: seq<bv8>, i: nat)
    requires |d| == 56 || |d| == 69
    requires forall j :: 0 <= j < |d| ==> d[j] < 32
    requires Leftover(d) == 0 && i < |d|
    ensures EncodedDigit(Bytes(d), i) == d[i]
  {
    hide Pack0, Pack1, Pack2, Pack3, Pack4, Cut0, Cut1, Cut2, Cut3, Cut4, Cut5, Cut6, Cut7, ByteAt, Leftover;
    if 8 * (i / 8) + 8 <= |d| {
      DigitsOfFullGroup(d, i);
    } else {
      EvenLeftover(d);
      CutPacked(d[64], d[65], d[66], d[67], d[68], 0, 0, 0);
      GroupBytes(d, 8);
    }
  }

  lemma EvenLeftover(d: seq<bv8>)
    requires |d| == 69 && Leftover(d) == 0
    ensures d[68] & 1 == 0
  {
  }

  lemma GroupBytes(d: seq<bv8>, g: nat)
    requires 8 * g + 5 <= |d|
    ensures var o := 8 * g;
            var bytes := Bytes(d);
            && 5 * g + 3 <= |bytes|
            && bytes[5 * g] == Pack0(d[o], d[o + 1])
            && bytes[5 * g + 1] == Pack1(d[o + 1], d[o + 2], d[o + 3])
            && bytes[5 * g + 2] == Pack2(d[o + 3], d[o + 4])
            && (o + 8 <= |d| ==>
                  && 5 * g + 5 <= |bytes|
                  && bytes[5 * g + 3] == Pack3(d[o + 4], d[o + 5], d[o + 6])
                  && bytes[5 * g + 4] == Pack4(d[o + 6], d[o + 7]))
  {
    hide Pack0, Pack1, Pack2, Pack3, Pack4;
    assert (5 * g) / 5 == g && (5 * g + 1) / 5 == g && (5 * g + 2) / 5 == g && (5 * g + 3) / 5 == g && (5 * g + 4) / 5 == g;
  }

  /** Re-encoding the decoded bytes of a valid destination gives back the string. */
  lemma ValidDestinationReencodes(s: string)
    requires IsValidDestination(s)
    ensures Encoded(Decoded(s).value) == s
  {
    var d := Digits(s);
    var bytes := Decoded(s).value;
    assert EncodedLength(bytes) == |s|;
    forall i | 0 <= i < |s| ensures Letter(EncodedDigit(bytes, i)) == s[i] {
      DigitsFromBytes(d, i);
      LetterOfDigit(s[i]);
    }
  }

  lemma DigitOfLetter(d: bv8)
    requires d < 32
    ensures Digit(Letter(d)) == Some(d)
  {
  }

  lemma BytesOfFullGroup(bytes: seq<bv8>, d: seq<bv8>, k: nat)
    requires |bytes| == 35 || |bytes| == 43
    requires |d| == EncodedLength(bytes) && forall i :: 0 <= i < |d| ==> d[i] == EncodedDigit(bytes, i)
    requires 5 * (k / 5) + 5 <= |bytes|
    ensures ByteAt(d, k) == bytes[k]
  {
    hide *;
    hide EncodedLength;
    var g := k / 5;
    var b := 5 * g;
    PackedCut(bytes[b], bytes[b + 1], bytes[b + 2], bytes[b + 3], bytes[b + 4]);
    GroupDigits(bytes, g);
    LengthCovers(bytes, g);
    PackedBytes(d, g);
    assert k == b || k == b + 1 || k == b + 2 || k == b + 3 || k == b + 4;
  }

  lemma LengthCovers(bytes: seq<bv8>, g: nat)
    requires 5 * g + 5 <= |bytes|
    ensures 8 * g + 8 <= EncodedLength(bytes)
  {
  }

  lemma PackedBytes(d: seq<bv8>, g: nat)
    requires 8 * g + 8 <= |d|
    ensures var o, b := 8 * g, 5 * g;
            && ByteAt(d, b) == Pack0(d[o], d[o + 1])
            && ByteAt(d, b + 1) == Pack1(d[o + 1], d[o + 2], d[o + 3])
            && ByteAt(d, b + 2) == Pack2(d[o + 3], d[o + 4])
            && ByteAt(d, b + 3) == Pack3(d[o + 4], d[o + 5], d[o + 6])
            && ByteAt(d, b + 4) == Pack4(d[o + 6], d[o + 7])
  {
    GroupBytes(d, g);
  }

  /** The last, shorter group of the longer form. */
  lemma BytesOfLastGroup(bytes: seq<bv8>, d: seq<bv8>, k: nat)
    requires |bytes| == 43 && 40 <= k < 43
    requires |d| == 69 && forall i :: 0 <= i < |d| ==> d[i] == EncodedDigit(bytes, i)
    ensures ByteAt(d, k) == bytes[k] && Leftover(d) == 0
  {
    PackedCut(bytes[40], bytes[41], bytes[42], 0, 0);
    LastGroupDigits(bytes);
    assert Leftover(d) == 0;
    hide *;
    GroupBytes(d, 8);
    assert k == 40 || k == 41 || k == 42;
  }

  lemma LastGroupDigits(bytes: seq<bv8>)
    requires |bytes| == 43
    ensures EncodedDigit(bytes, 64) == Cut0(bytes[40])
    ensures EncodedDigit(bytes, 65) == Cut1(bytes[40], bytes[41])
    ensures EncodedDigit(bytes, 66) == Cut2(bytes[41])
    ensures EncodedDigit(bytes, 67) == Cut3(bytes[41], bytes[42])
    ensures EncodedDigit(bytes, 68) == Cut4(bytes[42], 0)
  {
    hide Cut0, Cut1, Cut2, Cut3, Cut4;
  }

  lemma EncodedDigitsDecode(bytes: seq<bv8>, d: seq<bv8>)
    requires |bytes| == 35 || |bytes| == 43
    requires |d| == EncodedLength(bytes) && forall i :: 0 <= i < |d| ==> d[i] == EncodedDigit(bytes, i)
    ensures Bytes(d) == bytes && Leftover(d) == 0
  {
    hide ByteAt, EncodedDigit;
    forall k | 0 <= k < |bytes| ensures ByteAt(d, k) == bytes[k] {
      if k < 40 {
        BytesOfFullGroup(bytes, d, k);
      } else {
        BytesOfLastGroup(bytes, d, k);
      }
    }
    if |bytes| == 43 { BytesOfLastGroup(bytes, d, 40); }
  }

  function WithChecksum(payload: seq<bv8>): seq<bv8> {
    payload + [(Crc(payload) & 0xff) as bv8, (Crc(payload) >> 8) as bv8]
  }

  /** SEP-0023: an account payload of 33 bytes, or a muxed one of 41, led by its version byte. */
  predicate IsDestinationPayload(payload: seq<bv8>) {
    || (|payload| == 33 && payload[0] == ACCOUNT_ID_VERSION)
    || (|payload| == 41 && payload[0] == MUXED_ACCOUNT_VERSION)
  }

  lemma EncodedPayloadIsValid(payload: seq<bv8>)
    requires IsDestinationPayload(payload)
    ensures IsValidDestination(Encoded(WithChecksum(payload)))
    ensures Decoded(Encoded(WithChecksum(payload))) == Some(WithChecksum(payload))
  {
    hide Leftover, Crc, Letter, Digit, ByteAt;
    var bytes := WithChecksum(payload);
    var s := Encoded(bytes);
    forall i | 0 <= i < |s| ensures Digit(s[i]) == Some(EncodedDigit(bytes, i)) && InAlphabet(s[i]) {
      DigitOfLetter(EncodedDigit(bytes, i));
    }
    EncodedDigitsDecode(bytes, Digits(s));
    assert s[0] == if |payload| == 33 then 'G' else 'M' by { FirstLetter(bytes); }
    ChecksumAppended(payload);
  }

  lemma FirstLetter(bytes: seq<bv8>)
    requires |bytes| > 0 && bytes[0] in {ACCOUNT_ID_VERSION, MUXED_ACCOUNT_VERSION}
    ensures Letter(EncodedDigit(bytes, 0)) == if bytes[0] == ACCOUNT_ID_VERSION then 'G' else 'M'
  {
  }

  lemma ChecksumAppended(payload: seq<bv8>)
    ensures ChecksumHolds(WithChecksum(payload))
  {
    var bytes := WithChecksum(payload);
    assert bytes[..|bytes| - 2] == payload;
  }

  lemma ValidIsCanonical(s: string) returns (payload: seq<bv8>)
    requires IsValidDestination(s)
    ensures IsDestinationPayload(payload) && s == Encoded(WithChecksum(payload))
  {
    hide Leftover, Crc, Encoded, Digits, ByteAt, Bytes;
    ValidDestinationReencodes(s);
    var bytes := Decoded(s).value;
    payload := bytes[..|bytes| - 2];
    SplitChecksum(bytes);
  }

  lemma SplitChecksum(bytes: seq<bv8>)
    requires ChecksumHolds(bytes)
    ensures bytes == WithChecksum(bytes[..|bytes| - 2])
  {
    hide Crc;
    var payload := bytes[..|bytes| - 2];
    BytesFromParts(Crc(payload), bytes[|bytes| - 2], bytes[|bytes| - 1]);
  }

  /** The decoder accepts exactly the canonical encodings of checksummed account and muxed payloads. */
  lemma ValidIffCanonicalEncoding(s: string)
    ensures IsValidDestination(s)
            <==> exists payload :: IsDestinationPayload(payload) && s == Encoded(WithChecksum(payload))
  {
    hide *;
    if IsValidDestination(s) {
      var payload := ValidIsCanonical(s);
    }
    forall payload | IsDestinationPayload(payload) && s == Encoded(WithChecksum(payload))
      ensures IsValidDestination(s)
    {
      EncodedPayloadIsValid(payload);
    }
  }

  lemma BytesFromParts(c: bv16, x: bv8, y: bv8)
    requires x as bv16 == c & 0xff && y as bv16 == c >> 8
    ensures x == (c & 0xff) as bv8 && y == (c >> 8) as bv8
  {
  }

  // ------------------------------------------ one wrong character is caught

  /** Byte `k` reads only the digits whose bits it overlaps. */
  lemma ByteReadsItsWindow(d: seq<bv8>, e: seq<bv8>, i: nat, k: nat)
    requires |d| == |e| && i < |d| && 8 * k + 8 <= 5 * |d|
    requires forall j :: 0 <= j < |d| && j != i ==> d[j] == e[j]
    requires k != 5 * i / 8 && k != (5 * i + 4) / 8
    ensures ByteAt(d, k) == ByteAt(e, k)
  {
    hide Pack0, Pack1, Pack2, Pack3, Pack4;
    var g := k / 5;
    assert k == 5 * g + k % 5;
  }

  /** Two checksummed byte strings cannot differ in only two neighbouring bytes. */
  lemma ChecksumsExclude(p: seq<bv8>, q: seq<bv8>, lo: nat)
    requires |p| == |q| >= 35 && lo < |p| && p != q
    requires forall k :: 0 <= k < |p| && k != lo && k != lo + 1 ==> p[k] == q[k]
    requires lo == |p| - 3 ==> p[lo] ^ q[lo] < 16
    ensures !(ChecksumHolds(p) && ChecksumHolds(q))
  {
    var m := |p| - 2;
    var a, b := p[..m], q[..m];
    hide Crc;
    if a == b {
      assert p == a + [p[m], p[m + 1]] && q == b + [q[m], q[m + 1]];
      SameChecksumBytes(Crc(a), p[m], p[m + 1], q[m], q[m + 1]);
    } else if lo + 1 < m {
      NeighbourChangeDetected(a, b, lo);
      ChecksumBytesDetermine(Crc(a), Crc(b), p[m], p[m + 1]);
    } else {
      assert lo == m - 1;
      LastNibbleReachesHighByte(a, b);
      assert p[m + 1] == q[m + 1];
    }
  }

  lemma SameChecksumBytes(c: bv16, x: bv8, y: bv8, u: bv8, v: bv8)
    ensures x as bv16 == c & 0xff && y as bv16 == c >> 8 && u as bv16 == c & 0xff && v as bv16 == c >> 8
            ==> x == u && y == v
  {
  }

  lemma ChecksumBytesDetermine(c: bv16, d: bv16, x: bv8, y: bv8)
    requires c != d
    ensures !(x as bv16 == c & 0xff && y as bv16 == c >> 8 && x as bv16 == d & 0xff && y as bv16 == d >> 8)
  {
  }

  /** The one digit that straddles payload and checksum reaches only low payload bits. */
  lemma StraddlingDigit(d: seq<bv8>, e: seq<bv8>, i: nat)
    requires (|d| == |e| == 56 && i == 52) || (|d| == |e| == 69 && i == 65)
    requires forall j :: 0 <= j < |d| ==> d[j] < 32 && e[j] < 32 && (j != i ==> d[j] == e[j])
    ensures ByteAt(d, 5 * i / 8) ^ ByteAt(e, 5 * i / 8) < 16
  {
    if i == 52 {
      assert ByteAt(d, 32) == Pack2(d[51], d[52]) && ByteAt(e, 32) == Pack2(d[51], e[52]);
      LowBitsOnly(d[51], d[52], e[52]);
    } else {
      assert ByteAt(d, 40) == Pack0(d[64], d[65]) && ByteAt(e, 40) == Pack0(d[64], e[65]);
      LowBitsOnly(d[64], d[65], e[65]);
    }
  }

  lemma LowBitsOnly(a: bv8, x: bv8, y: bv8)
    requires x < 32 && y < 32
    ensures Pack2(a, x) ^ Pack2(a, y) < 16 && Pack0(a, x) ^ Pack0(a, y) < 16
  {
  }

  /** Replacing any one character of a valid destination by any other character makes it invalid. */
  lemma OneCharacterChangeIsDetected(s: string, i: nat, c: char)
    requires i < |s| && c != s[i]
    ensures !IsValidDestination(s) || !IsValidDestination(s[i := c])
  {
    hide ChecksumHolds, EncodedDigit, Bytes, Letter, Digit;
    var t := s[i := c];
    if IsValidDestination(s) && MatchesPattern(t) && Decoded(t).Some? {
      assert t[i] == c && InAlphabet(t[i]);
      var d, e := Digits(s), Digits(t);
      var p, q := Bytes(d), Bytes(e);
      // Digit 64 of the longer form lies wholly in the last payload byte: pair it with the byte before.
      var lo := if |s| == 69 && i == 64 then 39 else 5 * i / 8;
      DigitsFromBytes(d, i);
      DigitsFromBytes(e, i);
      LetterOfDigit(s[i]);
      LetterOfDigit(c);
      assert d[i] != e[i];
      forall k | 0 <= k < |p| && k != lo && k != lo + 1 ensures p[k] == q[k] {
        ByteReadsItsWindow(d, e, i, k);
      }
      assert p != q;
      if lo == |p| - 3 {
        StraddlingDigit(d, e, i);
      }
      ChecksumsExclude(p, q, lo);
    }
  }
}
