/** The padding both TEA ciphers put around a plaintext: a random header and seven zero bytes. */
module TeaPadding {
  import opened ByteStrings

  const MIN_HEADER_LEN: nat := 3
  const TRAILER_LEN: nat := 7

  function HeaderLen(dataLen: nat): (h: nat)
    ensures MIN_HEADER_LEN <= h < MIN_HEADER_LEN + 8
    ensures (h + dataLen + TRAILER_LEN) % 8 == 0
  {
    (8 - (dataLen + MIN_HEADER_LEN + TRAILER_LEN) % 8) % 8 + MIN_HEADER_LEN
  }

  lemma LowBits(b: byte)
    ensures b & 7 < 8
    ensures b < 8 ==> b & 7 == b
  {
  }

  /** The header length a decrypted first byte declares. */
  function DeclaredHeaderLen(first: byte): (h: nat)
    ensures MIN_HEADER_LEN <= h < MIN_HEADER_LEN + 8
  {
    LowBits(first);
    SmallByte(first & 7);
    ToInt(first & 7) + MIN_HEADER_LEN
  }

  lemma SmallDeclaration(n: nat)
    requires MIN_HEADER_LEN <= n < MIN_HEADER_LEN + 8
    ensures ToByte(n - MIN_HEADER_LEN) < 8
    ensures DeclaredHeaderLen(ToByte(n - MIN_HEADER_LEN)) == n
  {
    hide ToByte, ToInt;
    IntRoundTrip(n - MIN_HEADER_LEN);
    LowBits(ToByte(n - MIN_HEADER_LEN));
    SmallByte(ToByte(n - MIN_HEADER_LEN));
  }

  lemma DeclarationOfSmall(b: byte)
    requires b < 8
    ensures b == ToByte(DeclaredHeaderLen(b) - MIN_HEADER_LEN)
  {
    hide ToByte, ToInt;
    LowBits(b);
    ByteRoundTrip(b);
  }

  /** The random bytes drawn for one message: everything in the header after its first byte. */
  predicate IsFiller(filler: Bytes, dataLen: nat) {
    |filler| == HeaderLen(dataLen) - 1
  }

  function Padded(p: Bytes, filler: Bytes): (r: Bytes)
    requires IsFiller(filler, |p|)
    ensures |r| == HeaderLen(|p|) + |p| + TRAILER_LEN
    ensures |r| % 8 == 0
  {
    [ToByte(HeaderLen(|p|) - MIN_HEADER_LEN)] + filler + p + Zeros(TRAILER_LEN)
  }

  /** The padded buffer has the least multiple of 8 that leaves room for 10 bytes of framing. */
  lemma PaddedLength(p: Bytes, filler: Bytes)
    requires IsFiller(filler, |p|)
    ensures |Padded(p, filler)| % 8 == 0
    ensures |p| + 10 <= |Padded(p, filler)| < |p| + 18
  {
  }

  ghost predicate IsPaddingOf(padded: Bytes, p: Bytes) {
    exists filler :: IsFiller(filler, |p|) && padded == Padded(p, filler)
  }

  ghost predicate LooksLikePaddingOf(padded: Bytes, p: Bytes)
    requires |padded| > 0
  {
    var h := DeclaredHeaderLen(padded[0]);
    && padded[0] < 8
    && |padded| == h + |p| + TRAILER_LEN
    && padded[h..h + |p|] == p
    && padded[h + |p|..] == Zeros(TRAILER_LEN)
  }

  lemma PaddedLooksRight(p: Bytes, filler: Bytes)
    requires IsFiller(filler, |p|)
    ensures LooksLikePaddingOf(Padded(p, filler), p)
  {
    hide DeclaredHeaderLen, ToByte;
    SmallDeclaration(HeaderLen(|p|));
  }

  lemma HeaderLenIsUnique(h: nat, dataLen: nat)
    requires MIN_HEADER_LEN <= h < MIN_HEADER_LEN + 8
    requires (h + dataLen + TRAILER_LEN) % 8 == 0
    ensures HeaderLen(dataLen) == h
  {
  }

  lemma LooksRightIsPadded(padded: Bytes, p: Bytes)
    requires |padded| % 8 == 0 && |padded| > 0 && LooksLikePaddingOf(padded, p)
    ensures IsPaddingOf(padded, p)
  {
    hide DeclaredHeaderLen, ToByte, HeaderLen;
    var h := DeclaredHeaderLen(padded[0]);
    DeclarationOfSmall(padded[0]);
    HeaderLenIsUnique(h, |p|);
    var filler, e := padded[1..h], h + |p|;
    FourParts(padded, h, e);
    assert IsFiller(filler, |p|) && padded == Padded(p, filler);
  }

  lemma FourParts(s: Bytes, h: nat, e: nat)
    requires 1 <= h <= e <= |s|
    ensures s == [s[0]] + s[1..h] + s[h..e] + s[e..]
  {
  }

  /** Which aligned buffers are paddings, and of what. */
  lemma PaddingRecognised(padded: Bytes, p: Bytes)
    requires |padded| % 8 == 0 && |padded| > 0
    ensures IsPaddingOf(padded, p) <==> LooksLikePaddingOf(padded, p)
  {
    hide LooksLikePaddingOf, Padded;
    if LooksLikePaddingOf(padded, p) {
      LooksRightIsPadded(padded, p);
    }
    if IsPaddingOf(padded, p) {
      var filler :| IsFiller(filler, |p|) && padded == Padded(p, filler);
      PaddedLooksRight(p, filler);
    }
  }

  /** Builds the padded buffer in place, as both `encrypt` methods do before the chain. */
  method Pad(p: Bytes, filler: Bytes) returns (padded: array<byte>)
    requires IsFiller(filler, |p|)
    ensures fresh(padded) && padded[..] == Padded(p, filler)
  {
    hide ToByte;
    var headerLen := HeaderLen(|p|);
    padded := new byte[headerLen + |p| + TRAILER_LEN](_ => 0);
    padded[0] := ToByte(headerLen - MIN_HEADER_LEN);
    for i := 1 to headerLen
      invariant padded[0] == ToByte(headerLen - MIN_HEADER_LEN)
      invariant forall j :: 1 <= j < i ==> padded[j] == filler[j - 1]
      invariant forall j :: i <= j < padded.Length ==> padded[j] == 0
    {
      padded[i] := filler[i - 1];
    }
    forall i | 0 <= i < |p| {
      padded[headerLen + i] := p[i];
    }
    assert padded[..] == Padded(p, filler);
  }
}
