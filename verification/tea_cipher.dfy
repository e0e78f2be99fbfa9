/** `TeaCipher`: the padded cipher whose decryption checks the zero trailer. */
module TeaCipher {
  import opened Wrappers
  import opened ByteStrings
  import opened TeaChain
  import opened TeaPadding

  datatype CipherError =
    | EmptyPlaintext
    | BadKeyLength
    | BadCiphertextLength
    | TrailerCheckFailed
    | LengthUnderflow
    | PayloadTooShort

  type Outcome = Result<Bytes, CipherError>

  // ---- Results as functions of the input

  ghost function Encryption(p: Bytes, key: Bytes, filler: Bytes): Outcome
    requires IsFiller(filler, |p|)
  {
    if p == [] then Err(EmptyPlaintext)
    else if |key| != KEY_LEN then Err(BadKeyLength)
    else Ok(EncryptedBytes(Padded(p, filler), ReadKeyWords(key)))
  }

  ghost function Unpadded(padded: Bytes): Outcome
    requires |padded| > 0 && |padded| % 8 == 0
  {
    var dataEnd := |padded| - TRAILER_LEN;
    var headerLen := DeclaredHeaderLen(padded[0]);
    if padded[dataEnd..] != Zeros(TRAILER_LEN) then Err(TrailerCheckFailed)
    else if dataEnd < headerLen then Err(LengthUnderflow)
    else Ok(padded[headerLen..dataEnd])
  }

  ghost function Decryption(c: Bytes, key: Bytes): Outcome {
    if |c| == 0 || |c| % 8 != 0 then Err(BadCiphertextLength)
    else if |key| != KEY_LEN then Err(BadKeyLength)
    else Unpadded(DecryptedBytes(c, ReadKeyWords(key)))
  }

  // ---- The methods

  method Encrypt(plaintext: Bytes, key: Bytes, filler: Bytes) returns (r: Outcome)
    requires IsFiller(filler, |plaintext|)
    ensures r == Encryption(plaintext, key, filler)
    ensures r.Ok? <==> plaintext != [] && |key| == KEY_LEN
    ensures r.Ok? ==> Decryption(r.value, key) == Ok(plaintext)
  {
    hide ReadKeyWords;
    if |plaintext| == 0 {
      return Err(EmptyPlaintext);
    }
    if |key| != KEY_LEN {
      return Err(BadKeyLength);
    }
    var padded := Pad(plaintext, filler);
    var c := EncryptChain(padded[..], key);
    DecryptionOfPadding(plaintext, key, filler);
    r := Ok(c);
  }

  method TrailerIsZero(padded: Bytes) returns (zero: bool)
    requires |padded| >= TRAILER_LEN
    ensures zero <==> padded[|padded| - TRAILER_LEN..] == Zeros(TRAILER_LEN)
  {
    var dataEnd := |padded| - TRAILER_LEN;
    for i := dataEnd to |padded|
      invariant forall j :: dataEnd <= j < i ==> padded[j] == 0
    {
      if padded[i] != 0 {
        assert padded[dataEnd..][i - dataEnd] != Zeros(TRAILER_LEN)[i - dataEnd];
        return false;
      }
    }
    zero := true;
  }

  /** Checks the trailer and takes the payload out of a decrypted buffer. */
  method Unpad(padded: Bytes) returns (r: Outcome)
    requires |padded| > 0 && |padded| % 8 == 0
    ensures r == Unpadded(padded)
  {
    hide DeclaredHeaderLen;
    var zero := TrailerIsZero(padded);
    if !zero {
      return Err(TrailerCheckFailed);
    }
    var headerLen := DeclaredHeaderLen(padded[0]);
    var dataLen := |padded| - headerLen - TRAILER_LEN;
    if dataLen < 0 {
      return Err(LengthUnderflow);
    }
    var out := CopyOfRange(padded, headerLen, headerLen + dataLen);
    r := Ok(out);
  }

  method Decrypt(ciphertext: Bytes, key: Bytes) returns (r: Outcome)
    ensures r == Decryption(ciphertext, key)
  {
    hide ReadKeyWords, DecryptedBytes, Unpadded;
    if |ciphertext| == 0 || |ciphertext| % 8 != 0 {
      return Err(BadCiphertextLength);
    }
    if |key| != KEY_LEN {
      return Err(BadKeyLength);
    }
    var padded := DecryptChain(ciphertext, key);
    r := Unpad(padded);
  }

  // ---- Laws

  /** Decrypting any padded plaintext, empty or not, gives it back. */
  lemma DecryptionOfPadding(p: Bytes, key: Bytes, filler: Bytes)
    requires IsFiller(filler, |p|) && |key| == KEY_LEN
    ensures Decryption(EncryptedBytes(Padded(p, filler), ReadKeyWords(key)), key) == Ok(p)
  {
    hide ReadKeyWords, DeclaredHeaderLen, DecryptedBytes, EncryptedBytes;
    var padded := Padded(p, filler);
    ChainInverse(padded, ReadKeyWords(key));
    PaddingRecognised(padded, p);
    assert IsPaddingOf(padded, p);
  }

  /** The round trip: every nonempty plaintext, every 16-byte key, every choice of random header. */
  lemma RoundTrip(p: Bytes, key: Bytes, filler: Bytes)
    requires p != [] && |key| == KEY_LEN && IsFiller(filler, |p|)
    ensures Encryption(p, key, filler).Ok?
    ensures Decryption(Encryption(p, key, filler).value, key) == Ok(p)
  {
    DecryptionOfPadding(p, key, filler);
  }

  /** Exactly the accepted ciphertexts whose padded buffer starts below 8 are produced by `encrypt`. */
  lemma EncryptionImage(c: Bytes, key: Bytes, p: Bytes)
    requires |key| == KEY_LEN
    ensures (exists filler :: IsFiller(filler, |p|) && Encryption(p, key, filler) == Ok(c))
       <==> && p != []
            && Decryption(c, key) == Ok(p)
            && DecryptedBytes(c, ReadKeyWords(key))[0] < 8
  {
    hide ReadKeyWords, DeclaredHeaderLen, DecryptedBytes, EncryptedBytes, Padded;
    var k := ReadKeyWords(key);
    if p != [] && Decryption(c, key) == Ok(p) && DecryptedBytes(c, k)[0] < 8 {
      var padded := DecryptedBytes(c, k);
      ChainInverse(c, k);
      PaddingRecognised(padded, p);
      var filler :| IsFiller(filler, |p|) && padded == Padded(p, filler);
      assert Encryption(p, key, filler) == Ok(c);
    }
    if filler :| IsFiller(filler, |p|) && Encryption(p, key, filler) == Ok(c) {
      RoundTrip(p, key, filler);
      ChainInverse(Padded(p, filler), k);
      assert IsPaddingOf(Padded(p, filler), p);
      PaddingRecognised(Padded(p, filler), p);
    }
  }

  /** The low three bits of the first byte are all that `decrypt` reads of it. */
  lemma OnlyLowBitsMatter(padded: Bytes, first: byte, p: Bytes)
    requires |padded| > 0 && |padded| % 8 == 0 && LooksLikePaddingOf(padded, p)
    requires first & 7 == padded[0]
    ensures Unpadded([first] + padded[1..]) == Ok(p)
  {
    var marked, h, e := [first] + padded[1..], DeclaredHeaderLen(padded[0]), |padded| - TRAILER_LEN;
    LowBits(padded[0]);
    assert DeclaredHeaderLen(first) == h;
    assert 1 <= h <= e && marked[0] == first;
    SameFrom(padded, marked, h, e);
  }

  lemma SameFrom(s: Bytes, t: Bytes, h: nat, e: nat)
    requires 1 <= h <= e <= |s| == |t| && s[1..] == t[1..]
    ensures s[h..e] == t[h..e] && s[e..] == t[e..]
  {
    forall i | 1 <= i < |s|
      ensures s[i] == t[i]
    {
      assert s[i] == s[1..][i - 1] == t[1..][i - 1] == t[i];
    }
  }

  /** Any other first byte with these bits gives a ciphertext that is accepted and that `encrypt` never produces. */
  lemma HighFirstByteIsAccepted(p: Bytes, key: Bytes, filler: Bytes, first: byte)
    requires |key| == KEY_LEN && IsFiller(filler, |p|)
    requires first >= 8 && first & 7 == Padded(p, filler)[0]
    ensures
      var c := EncryptedBytes([first] + Padded(p, filler)[1..], ReadKeyWords(key));
      && Decryption(c, key) == Ok(p)
      && !exists other :: IsFiller(other, |p|) && Encryption(p, key, other) == Ok(c)
  {
    hide ReadKeyWords, DecryptedBytes, EncryptedBytes, Unpadded, Padded, LooksLikePaddingOf;
    var padded := Padded(p, filler);
    assert IsPaddingOf(padded, p);
    PaddingRecognised(padded, p);
    OnlyLowBitsMatter(padded, first, p);
    var marked := [first] + padded[1..];
    ChainInverse(marked, ReadKeyWords(key));
    EncryptionImage(EncryptedBytes(marked, ReadKeyWords(key)), key, p);
  }

  /** One block never holds header, data and trailer, so no 8-byte ciphertext is accepted. */
  lemma OneBlockIsRejected(c: Bytes, key: Bytes)
    requires |c| == 8
    ensures Decryption(c, key).Err?
  {
    hide ReadKeyWords, DeclaredHeaderLen, DecryptedBytes;
  }

  lemma LowBitsOfSeven(b: byte)
    ensures DeclaredHeaderLen(b) == 10 <==> b & 7 == 7
  {
    assert ToInt(b & 7) == 7 <==> b & 7 == 7;
  }

  lemma UnpadRefusals(padded: Bytes)
    requires padded != [] && |padded| % 8 == 0
    ensures
      var trailer := padded[|padded| - 7..];
      && (Unpadded(padded) == Err(TrailerCheckFailed) <==> trailer != Zeros(7))
      && (Unpadded(padded) == Err(LengthUnderflow) <==>
            trailer == Zeros(7) && (|padded| == 8 || (|padded| == 16 && padded[0] & 7 == 7)))
      && Unpadded(padded) != Err(BadCiphertextLength) && Unpadded(padded) != Err(BadKeyLength)
  {
    LowBitsOfSeven(padded[0]);
    hide DeclaredHeaderLen;
  }

  /** Which input is refused for what. The length can underflow only in one block, or in two under the longest header. */
  lemma RefusalsAreExact(c: Bytes, key: Bytes)
    ensures Decryption(c, key) == Err(BadCiphertextLength) <==> c == [] || |c| % 8 != 0
    ensures Decryption(c, key) == Err(BadKeyLength) <==> c != [] && |c| % 8 == 0 && |key| != 16
    ensures c != [] && |c| % 8 == 0 && |key| == 16 ==>
              var padded := DecryptedBytes(c, ReadKeyWords(key));
              var trailer := padded[|padded| - 7..];
              && |padded| == |c|
              && (Decryption(c, key) == Err(TrailerCheckFailed) <==> trailer != Zeros(7))
              && (Decryption(c, key) == Err(LengthUnderflow) <==>
                    trailer == Zeros(7) && (|c| == 8 || (|c| == 16 && padded[0] & 7 == 7)))
  {
    hide ReadKeyWords, DecryptedBytes, Unpadded;
    if c != [] && |c| % 8 == 0 && |key| == 16 {
      UnpadRefusals(DecryptedBytes(c, ReadKeyWords(key)));
    }
  }
}
