/** `Cc2018Cipher`: a TEA ciphertext that carries its own 16-byte key in front. */
module Cc2018Cipher {
  import opened Wrappers
  import opened ByteStrings
  import opened TeaChain
  import opened TeaPadding
  import opened TeaCipher

  ghost function Encoding(p: Bytes, key: Bytes, filler: Bytes): Outcome
    requires |key| == KEY_LEN && IsFiller(filler, |p|)
  {
    var c := Encryption(p, key, filler);
    if c.Ok? then Ok(key + c.value) else c
  }

  ghost function Decoding(payload: Bytes): Outcome {
    if |payload| < KEY_LEN + 8 then Err(PayloadTooShort)
    else Decryption(payload[KEY_LEN..], payload[..KEY_LEN])
  }

  /** `key` and `filler` are the random draws. */
  method Encode(plaintext: Bytes, key: Bytes, filler: Bytes) returns (r: Outcome)
    requires |key| == KEY_LEN && IsFiller(filler, |plaintext|)
    ensures r == Encoding(plaintext, key, filler)
    ensures plaintext == [] <==> r == Err(EmptyPlaintext)
    ensures r.Ok? ==> Decoding(r.value) == Ok(plaintext)
  {
    hide Decryption, IsFiller, Padded, ReadKeyWords, EncryptedBytes, HeaderLen, Zeros;
    var ciphertext := Encrypt(plaintext, key, filler);
    if ciphertext.Err? {
      return ciphertext;
    }
    var result := new byte[KEY_LEN + |ciphertext.value|];
    forall i | 0 <= i < KEY_LEN {
      result[i] := key[i];
    }
    forall i | 0 <= i < |ciphertext.value| {
      result[KEY_LEN + i] := ciphertext.value[i];
    }
    assert result[..] == key + ciphertext.value;
    RoundTrip(plaintext, key, filler);
    r := Ok(result[..]);
  }

  method Decode(payload: Bytes) returns (r: Outcome)
    ensures r == Decoding(payload)
  {
    if |payload| < KEY_LEN + 8 {
      return Err(PayloadTooShort);
    }
    r := Decrypt(payload[KEY_LEN..], payload[..KEY_LEN]);
  }

  /** The payload is as short as a key and an aligned padding can be, so the length guard never rejects it. */
  lemma RoundTrip(p: Bytes, key: Bytes, filler: Bytes)
    requires p != [] && |key| == KEY_LEN && IsFiller(filler, |p|)
    ensures Encoding(p, key, filler).Ok?
    ensures var n := |Encoding(p, key, filler).value| - KEY_LEN;
            n % 8 == 0 && |p| + 10 <= n < |p| + 18
    ensures Decoding(Encoding(p, key, filler).value) == Ok(p)
  {
    TeaCipher.RoundTrip(p, key, filler);
    PaddedLength(p, filler);
    var payload := Encoding(p, key, filler).value;
    assert payload[..KEY_LEN] == key && payload[KEY_LEN..] == Encryption(p, key, filler).value;
  }

  /** The payloads refused for their length are those that leave no room for a block behind the key. */
  lemma RefusalIsExact(payload: Bytes)
    ensures Decoding(payload) == Err(PayloadTooShort) <==> |payload| < 24
    ensures Decoding(payload) == Err(BadCiphertextLength) <==> |payload| >= 24 && |payload| % 8 != 0
  {
    if |payload| >= 24 {
      TeaCipher.RefusalsAreExact(payload[16..], payload[..16]);
    }
    hide Decryption;
  }
}
