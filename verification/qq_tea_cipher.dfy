/** `QqTeaCipher`: the same chain and padding, with the trailer left on the decrypted bytes. */
module QqTeaCipher {
  import opened Wrappers
  import opened ByteStrings
  import opened TeaChain
  import opened TeaPadding
  import TeaCipher

  /** A call throws, answers null, or answers bytes. */
  datatype Outcome = Threw | Null | Answer(bytes: Bytes)

  ghost function Encryption(p: Bytes, key: Bytes, filler: Bytes): Outcome
    requires IsFiller(filler, |p|)
  {
    if |key| < KEY_LEN then Threw
    else Answer(EncryptedBytes(Padded(p, filler), ReadKeyWords(key)))
  }

  function StripHeader(padded: Bytes): Bytes
    requires |padded| > 0
  {
    var padLen := DeclaredHeaderLen(padded[0]);
    if padLen < |padded| then padded[padLen..] else padded
  }

  /** The buffers on which `decryptCore` reads no word past the end of the key or the buffer. */
  predicate Decryptable(c: Bytes, key: Bytes) {
    |key| >= KEY_LEN && |c| >= 8 && |c| % 8 == 0
  }

  ghost function Decryption(c: Bytes, key: Bytes): Outcome {
    if |c| < 8 then Null
    else if !Decryptable(c, key) then Threw
    else Answer(StripHeader(DecryptedBytes(c, ReadKeyWords(key))))
  }

  // ---- The methods

  method Encrypt(buffer: Bytes, key: Bytes, filler: Bytes) returns (r: Outcome)
    requires IsFiller(filler, |buffer|)
    ensures r == Encryption(buffer, key, filler)
    ensures |key| >= KEY_LEN ==> r.Answer? && Decryption(r.bytes, key) == Answer(buffer + Zeros(TRAILER_LEN))
  {
    hide ReadKeyWords;
    if |key| < KEY_LEN {
      return Threw;
    }
    var padded := Pad(buffer, filler);
    var c := EncryptChain(padded[..], key);
    DecryptionOfPadding(buffer, key, filler);
    r := Answer(c);
  }

  method WithoutHeader(out: Bytes) returns (r: Bytes)
    requires |out| > 0
    ensures r == StripHeader(out) && r != []
  {
    hide DeclaredHeaderLen;
    var padLen := DeclaredHeaderLen(out[0]);
    if padLen < |out| {
      r := CopyOfRange(out, padLen, |out|);
    } else {
      r := out;
    }
  }

  method Decrypt(buffer: Bytes, key: Bytes) returns (r: Outcome)
    ensures r == Decryption(buffer, key)
    ensures r.Answer? <==> Decryptable(buffer, key)
    ensures r.Answer? ==> r.bytes != []
  {
    hide ReadKeyWords, StripHeader, DecryptedBytes;
    if |buffer| < 8 {
      return Null;
    }
    if |key| < KEY_LEN || |buffer| % 8 != 0 {
      return Threw;
    }
    var out := DecryptChain(buffer, key);
    var stripped := WithoutHeader(out);
    r := Answer(stripped);
  }

  // ---- Laws

  /** Every plaintext, empty or not, decrypts to itself followed by the seven zero bytes. */
  lemma DecryptionOfPadding(p: Bytes, key: Bytes, filler: Bytes)
    requires IsFiller(filler, |p|) && |key| >= KEY_LEN
    ensures Decryption(EncryptedBytes(Padded(p, filler), ReadKeyWords(key)), key) == Answer(p + Zeros(TRAILER_LEN))
  {
    hide ReadKeyWords, DeclaredHeaderLen, DecryptedBytes, EncryptedBytes;
    var padded := Padded(p, filler);
    ChainInverse(padded, ReadKeyWords(key));
    assert IsPaddingOf(padded, p);
    PaddingRecognised(padded, p);
    var h := DeclaredHeaderLen(padded[0]);
    assert padded[h..] == padded[h..h + |p|] + padded[h + |p|..];
  }

  lemma RoundTrip(p: Bytes, key: Bytes, filler: Bytes)
    requires |key| >= KEY_LEN && IsFiller(filler, |p|)
    ensures Encryption(p, key, filler).Answer?
    ensures Decryption(Encryption(p, key, filler).bytes, key) == Answer(p + Zeros(TRAILER_LEN))
    ensures |key| == KEY_LEN ==> TeaCipher.Decryption(Encryption(p, key, filler).bytes, key) == Ok(p)
  {
    DecryptionOfPadding(p, key, filler);
    if |key| == KEY_LEN {
      TeaCipher.DecryptionOfPadding(p, key, filler);
    }
  }

  /** The two ciphers agree: `TeaCipher` accepts with p exactly when, beyond one block, this one answers p and seven zeros. */
  lemma CiphersAgree(c: Bytes, key: Bytes, p: Bytes)
    requires |key| == KEY_LEN
    ensures TeaCipher.Decryption(c, key) == Ok(p) <==> |c| > 8 && Decryption(c, key) == Answer(p + Zeros(TRAILER_LEN))
  {
    hide ReadKeyWords, DeclaredHeaderLen, DecryptedBytes;
    if |c| % 8 == 0 && |c| > 8 {
      var padded := DecryptedBytes(c, ReadKeyWords(key));
      var h, e := DeclaredHeaderLen(padded[0]), |padded| - TRAILER_LEN;
      if h <= e {
        assert padded[h..] == padded[h..e] + padded[e..];
      }
      if padded[h..] == p + Zeros(TRAILER_LEN) {
        assert |padded| - h == |p| + TRAILER_LEN;
        assert padded[e..] == padded[h..][|p|..] == Zeros(TRAILER_LEN);
        assert padded[h..e] == padded[h..][..|p|] == p;
      }
    }
    if |c| == 8 {
      TeaCipher.OneBlockIsRejected(c, key);
    }
  }

  /** A buffer below one block is answered with null, even under a short key; an unaligned one and a short key throw. */
  lemma RefusalsAreExact(c: Bytes, key: Bytes)
    ensures Decryption(c, key) == Null <==> |c| < 8
    ensures Decryption(c, key) == Threw <==> |c| >= 8 && (|c| % 8 != 0 || |key| < 16)
  {
    hide ReadKeyWords, DecryptedBytes, StripHeader;
  }
}
