/** Byte strings, as Java's `byte[]`, and the little-endian integer reads and writes of `ByteBuffer`. */
module ByteStrings {
  import opened Powers

  type byte = bv8

  type Bytes = seq<byte>

  // ---- Binary digits, least significant first

  function Digits(n: int, count: nat): (ds: seq<bool>)
    ensures |ds| == count
    decreases count
  {
    if count == 0 then [] else [n % 2 == 1] + Digits(n / 2, count - 1)
  }

  function Value(ds: seq<bool>): nat {
    if ds == [] then 0 else (if ds[0] then 1 else 0) + 2 * Value(ds[1..])
  }

  lemma HalfModulo(n: int, m: nat)
    requires m > 0
    ensures n % (2 * m) == n % 2 + 2 * (n / 2 % m)
  {
    var q, low := n / 2 / m, n / 2 % m;
    assert n / 2 == m * q + low;
    assert n == (2 * m) * q + (n % 2 + 2 * low);
    DivisionIsUnique(n, 2 * m, q, n % 2 + 2 * low);
  }

  lemma {:induction false} ValueOfDigits(n: int, count: nat)
    ensures Value(Digits(n, count)) == n % Power2(count)
    decreases count
  {
    if count > 0 {
      ValueOfDigits(n / 2, count - 1);
      assert Digits(n, count)[1..] == Digits(n / 2, count - 1);
      HalfModulo(n, Power2(count - 1));
    }
  }

  lemma {:induction false} DigitsOfValue(ds: seq<bool>)
    ensures Digits(Value(ds), |ds|) == ds
    ensures Value(ds) < Power2(|ds|)
  {
    if ds != [] {
      DigitsOfValue(ds[1..]);
      assert Value(ds) / 2 == Value(ds[1..]);
      assert ds == [ds[0]] + ds[1..];
    }
  }

  lemma PowerOfByte()
    ensures Power2(8) == 256
  {
    assert Power2(4) == 16;
  }

  // ---- Bytes and numbers

  function Bit(on: bool, mask: byte): byte { if on then mask else 0 }

  function BitsOf(b: byte): (ds: seq<bool>)
    ensures |ds| == 8
  {
    [b & 1 != 0, b & 2 != 0, b & 4 != 0, b & 8 != 0, b & 16 != 0, b & 32 != 0, b & 64 != 0, b & 128 != 0]
  }

  function ByteOf(ds: seq<bool>): byte
    requires |ds| == 8
  {
    Bit(ds[0], 1) | Bit(ds[1], 2) | Bit(ds[2], 4) | Bit(ds[3], 8)
    | Bit(ds[4], 16) | Bit(ds[5], 32) | Bit(ds[6], 64) | Bit(ds[7], 128)
  }

  lemma BitsAreApart(d0: bool, d1: bool, d2: bool, d3: bool, d4: bool, d5: bool, d6: bool, d7: bool)
    ensures BitsOf(ByteOf([d0, d1, d2, d3, d4, d5, d6, d7])) == [d0, d1, d2, d3, d4, d5, d6, d7]
  {
  }

  lemma BitsOfByteOf(ds: seq<bool>)
    requires |ds| == 8
    ensures BitsOf(ByteOf(ds)) == ds
  {
    hide BitsOf, ByteOf;
    BitsAreApart(ds[0], ds[1], ds[2], ds[3], ds[4], ds[5], ds[6], ds[7]);
    EightDigits(ds);
  }

  lemma EightDigits(ds: seq<bool>)
    requires |ds| == 8
    ensures ds == [ds[0], ds[1], ds[2], ds[3], ds[4], ds[5], ds[6], ds[7]]
  {
  }

  lemma ByteOfBitsOf(b: byte)
    ensures ByteOf(BitsOf(b)) == b
  {
  }

  function Digit(on: bool): nat { if on then 1 else 0 }

  lemma ValueFrom(ds: seq<bool>, i: nat)
    requires i < |ds|
    ensures Value(ds[i..]) == Digit(ds[i]) + 2 * Value(ds[i + 1..])
  {
    assert ds[i..][1..] == ds[i + 1..];
  }

  function Nibble(d0: bool, d1: bool, d2: bool, d3: bool): nat {
    Digit(d0) + 2 * Digit(d1) + 4 * Digit(d2) + 8 * Digit(d3)
  }

  lemma ValueFromNibble(ds: seq<bool>, i: nat)
    requires i + 4 <= |ds|
    ensures Value(ds[i..]) == Nibble(ds[i], ds[i + 1], ds[i + 2], ds[i + 3]) + 16 * Value(ds[i + 4..])
  {
    hide Digit, Value;
    ValueFrom(ds, i);
    ValueFrom(ds, i + 1);
    ValueFrom(ds, i + 2);
    ValueFrom(ds, i + 3);
  }

  /** The unsigned value of a byte, the source's `b & 0xFF`. */
  function ToInt(b: byte): (n: nat)
    ensures n < 256
  {
    b as nat
  }

  lemma SumOfBits(b: byte)
    ensures ToInt(b) == Nibble(b & 1 != 0, b & 2 != 0, b & 4 != 0, b & 8 != 0)
                        + 16 * Nibble(b & 16 != 0, b & 32 != 0, b & 64 != 0, b & 128 != 0)
  {
  }

  lemma ValueOfNibbles(ds: seq<bool>)
    requires |ds| == 8
    ensures Value(ds) == Nibble(ds[0], ds[1], ds[2], ds[3]) + 16 * Nibble(ds[4], ds[5], ds[6], ds[7])
  {
    assert ds[0..] == ds && Value(ds[8..]) == 0;
    hide Nibble, Value;
    ValueFromNibble(ds, 0);
    ValueFromNibble(ds, 4);
  }

  /** A byte's value is that of its binary digits. */
  lemma ValueOfBits(b: byte)
    ensures ToInt(b) == Value(BitsOf(b))
  {
    hide ToInt, Nibble, Value;
    SumOfBits(b);
    ValueOfNibbles(BitsOf(b));
  }

  /** The eight low-order bits of a number, the source's `(byte) n`. */
  function ToByte(n: int): byte { ByteOf(Digits(n, 8)) }

  lemma IntRoundTrip(n: int)
    ensures ToInt(ToByte(n)) == n % 256
  {
    hide ToInt, BitsOf, ByteOf, Digits, Value, Power2;
    BitsOfByteOf(Digits(n, 8));
    ValueOfBits(ToByte(n));
    ValueOfDigits(n, 8);
    PowerOfByte();
  }

  lemma ByteRoundTrip(b: byte)
    ensures ToByte(ToInt(b)) == b
  {
    hide ToInt, BitsOf, ByteOf, Digits, Value;
    ValueOfBits(b);
    DigitsOfValue(BitsOf(b));
    ByteOfBitsOf(b);
  }

  lemma ZeroByte()
    ensures ToInt(0) == 0
  {
  }

  /** The length byte 0x25: the UUID's 36 characters and one more. */
  lemma ThirtySeven()
    ensures ToInt(37) == 37
  {
  }

  lemma SmallByte(b: byte)
    ensures b < 8 <==> ToInt(b) < 8
  {
  }

  lemma ToByteModulo(n: int)
    ensures ToByte(n) == ToByte(n % 256)
  {
    IntRoundTrip(n);
    IntRoundTrip(n % 256);
    ByteRoundTrip(ToByte(n));
    ByteRoundTrip(ToByte(n % 256));
    hide ToByte, ToInt;
  }

  function Zeros(n: nat): (s: Bytes)
    ensures |s| == n
  {
    seq(n, _ => 0)
  }

  /** `Arrays.copyOfRange`, or an `arraycopy` into a fresh array of the right length. */
  method CopyOfRange(s: Bytes, from: nat, to: nat) returns (r: Bytes)
    requires from <= to <= |s|
    ensures r == s[from..to]
  {
    var out := new byte[to - from];
    forall i | 0 <= i < to - from {
      out[i] := s[from + i];
    }
    r := out[..];
  }

  // ---- Little-endian integers of any width, in two's complement

  function Power256(n: nat): (p: nat)
    ensures p > 0
  {
    if n == 0 then 1 else 256 * Power256(n - 1)
  }

  /** The `width` low-order bytes of `n`, least significant first. */
  function LittleEndian(n: int, width: nat): (s: Bytes)
    ensures |s| == width
    decreases width
  {
    if width == 0 then [] else [ToByte(n)] + LittleEndian(n / 256, width - 1)
  }

  function Unsigned(s: Bytes): nat {
    if s == [] then 0 else ToInt(s[0]) + 256 * Unsigned(s[1..])
  }

  lemma ProductGrows(d: nat, x: int)
    requires x >= 1
    ensures d * x >= d
  {
    assert d * x == d + d * (x - 1);
  }

  lemma DivisionIsUnique(n: int, d: nat, q: int, r: nat)
    requires r < d && n == d * q + r
    ensures n % d == r && n / d == q
  {
    var q', r' := n / d, n % d;
    assert n == d * q' + r' && 0 <= r' < d;
    assert d * (q - q') == r' - r && d * (q' - q) == r - r';
    if q > q' {
      ProductGrows(d, q - q');
    } else if q < q' {
      ProductGrows(d, q' - q);
    }
  }

  lemma SplitModulo(n: int, m: nat)
    requires m > 0
    ensures n % (256 * m) == n % 256 + 256 * (n / 256 % m)
  {
    var q, low := n / 256 / m, n / 256 % m;
    assert n / 256 == m * q + low;
    assert n == (256 * m) * q + (n % 256 + 256 * low);
    DivisionIsUnique(n, 256 * m, q, n % 256 + 256 * low);
  }

  /** Writing and then reading a `width`-byte field reduces the number modulo 2^(8*width). */
  lemma {:induction false} LittleEndianRoundTrip(n: int, width: nat)
    ensures Unsigned(LittleEndian(n, width)) == n % Power256(width)
    decreases width
  {
    hide ToInt, ToByte;
    if width > 0 {
      LittleEndianRoundTrip(n / 256, width - 1);
      IntRoundTrip(n);
      SplitModulo(n, Power256(width - 1));
    }
  }

  /** Every byte string is the little-endian form of its own value. */
  lemma {:induction false} UnsignedRoundTrip(s: Bytes)
    ensures LittleEndian(Unsigned(s), |s|) == s
    ensures Unsigned(s) < Power256(|s|)
  {
    hide ToInt, ToByte;
    if s != [] {
      UnsignedRoundTrip(s[1..]);
      ByteRoundTrip(s[0]);
      assert Unsigned(s) % 256 == ToInt(s[0]) && Unsigned(s) / 256 == Unsigned(s[1..]);
      ToByteModulo(Unsigned(s));
      assert ToByte(Unsigned(s)) == ToByte(ToInt(s[0])) == s[0];
      assert s == [s[0]] + s[1..];
    }
  }

  /** The value of a field read by `getInt` or `getLong`: two's complement of its own width. */
  function Signed(s: Bytes): int {
    var n := Unsigned(s);
    if 2 * n < Power256(|s|) then n else n - Power256(|s|)
  }

  /** A number that fits a signed field of that width is read back unchanged. */
  lemma SignedRoundTrip(n: int, width: nat)
    requires width > 0
    requires -(Power256(width) as int) <= 2 * n < Power256(width)
    ensures Signed(LittleEndian(n, width)) == n
  {
    LittleEndianRoundTrip(n, width);
    if n >= 0 {
      DivisionIsUnique(n, Power256(width), 0, n);
    } else {
      DivisionIsUnique(n, Power256(width), -1, n + Power256(width));
    }
  }
}
