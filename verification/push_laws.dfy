/** What the decoders make of each kind of body: compressed, poke, gzip and acknowledgement, live and replayed. */
module PushLaws {
  import opened Wrappers
  import opened ByteStrings
  import opened AsciiText
  import opened HtImPacketFramer
  import opened HtImFrameDecoder
  import opened TeaChain
  import opened TeaPadding
  import QqTeaCipher

  // ---- One decrypted body

  /** A JSON push, or nothing where the parser fails. */
  function ParsedAs<J>(root: Option<J>): F2Push<J> {
    match root case Some(r) => Json(r) case None => Ignored
  }

  predicate IsText(s: Bytes, first: byte) { s != [] && s[0] == first && 0 !in s }

  lemma TextIsTrimmed(s: Bytes)
    requires s != [] && s[0] > 0x20 && 0 !in s
    ensures Trim(StripNulls(s)) == TrimEnd(s) && TrimEnd(s) != [] && TrimEnd(s)[0] == s[0]
  {
    StripNullsOfText(s);
    TrimOfPrintableStart(s);
  }

  /** A compressed body is what its inflated text parses to; it is ignored when it does not inflate to an object. */
  lemma CompressedBodyIsInflated<J>(lib: Library<J>, d: Bytes)
    requires d != [] && d[0] == 0x78
    ensures lib.unzip(d).None? ==> DecodePushBody(lib, d) == Ignored
    ensures lib.unzip(d).Some? && IsText(lib.unzip(d).value, 0x7B) ==>
              DecodePushBody(lib, d) == ParsedAs(lib.parse(TrimEnd(lib.unzip(d).value)))
    ensures lib.unzip(d).Some? && lib.unzip(d).value != [] && 0 !in lib.unzip(d).value
            && lib.unzip(d).value[0] > 0x20 && lib.unzip(d).value[0] != 0x7B ==>
              DecodePushBody(lib, d) == Ignored
  {
    hide StripNulls, Trim, TrimEnd;
    if lib.unzip(d).Some? {
      var text := lib.unzip(d).value;
      if text != [] && 0 !in text && text[0] > 0x20 {
        TextIsTrimmed(text);
      }
    }
  }

  /** The first byte alone tells a poke, and a body of no known kind. */
  lemma FirstByteDecides<J>(lib: Library<J>, d: Bytes)
    requires d != []
    ensures DecodePushBody(lib, d) == Poke <==> d[0] == 0x08
    ensures DecodePushBody(lib, d) == Unknown(ToInt(d[0]), d) <==> d[0] !in [0x25, 0x08, 0x78, 0x7B]
    ensures DecodePushBody(lib, d).Receipt? <==> d[0] == 0x25 && |d| >= 38
    ensures DecodePushBody(lib, d).Json? ==> d[0] == 0x78 || d[0] == 0x7B
  {
    hide StripNulls, Trim;
  }

  // ---- The same body sent encrypted, live and replayed

  lemma ReplayOfBody<J>(lib: Library<J>, raw: Bytes, sessionKey: Option<Bytes>)
    requires |raw| >= HEADER_LEN && RawPayload(raw) != []
    ensures
      var body := OfflineBody(lib, OfflinePayload(RawPayload(raw), ToInt(raw[2]), sessionKey));
      var replay := Replay(lib, Some(raw), sessionKey);
      (replay.Some? <==> body.Some?) && (body.Some? ==> replay.value.body == body.value)
  {
    hide OfflineBody, OfflinePayload, OfflineBodyLen, Unsigned, Signed, ToInt;
  }

  lemma PayloadIsDecrypted(c: Bytes, key: Bytes, d: Bytes)
    requires c != [] && d != [] && QqTeaCipher.Decryption(c, key) == QqTeaCipher.Answer(d)
    ensures OfflinePayload(c, 1, Some(key)) == d
    ensures OfflinePayload(c, 0, Some(key)) == if c[0] !in [0x78, 0x1F, 0x7B, 0x25] && d[0] in [0x78, 0x1F, 0x7B, 0x25] then d else c
  {
    hide ReadKeyWords, DecryptedBytes;
  }

  /** A packet as the upstream stores it: the last field of its header is the length of the ciphertext after it. */
  ghost function Stored(front: Bytes, body: Bytes, key: Bytes, filler: Bytes): Bytes
    requires |front| == 16 && |key| >= KEY_LEN && IsFiller(filler, |body|)
  {
    WithLength(front, QqTeaCipher.Encryption(body, key, filler).bytes)
  }

  lemma StoredCipher(front: Bytes, body: Bytes, key: Bytes, filler: Bytes)
    requires |front| == 16 && |key| >= KEY_LEN && IsFiller(filler, |body|) && |body| + 17 <= MAX_LENGTH
    ensures
      var c, raw := QqTeaCipher.Encryption(body, key, filler).bytes, Stored(front, body, key, filler);
      && c != [] && |raw| == 20 + |c| && raw[2] == front[2] && RawPayload(raw) == c
      && raw == (front + LittleEndian(|c|, 4)) + c
      && QqTeaCipher.Decryption(c, key) == QqTeaCipher.Answer(body + Zeros(7))
  {
    PaddedLength(body, filler);
    hide ReadKeyWords, EncryptedBytes, QqTeaCipher.Decryption, HeaderLen, Padded, RawPayload, LittleEndian;
    LengthIsRead(front, QqTeaCipher.Encryption(body, key, filler).bytes);
    QqTeaCipher.RoundTrip(body, key, filler);
  }

  /** Sent live or replayed, an encrypted body that is not gzip decodes to what it is with the cipher's trailer on it. */
  lemma BodyIsReadBothWays<J>(lib: Library<J>, front: Bytes, body: Bytes, key: Bytes, filler: Bytes)
    requires |front| == 16 && ToInt(front[2]) == 1 && body != [] && body[0] != 0x1F
    requires |key| >= KEY_LEN && IsFiller(filler, |body|) && |body| + 17 <= MAX_LENGTH
    ensures
      var raw := Stored(front, body, key, filler);
      var c, expected := QqTeaCipher.Encryption(body, key, filler).bytes, DecodePushBody(lib, body + Zeros(7));
      && LivePush(lib, raw, |c|, Some(key)) == Some(expected)
      && Replay(lib, Some(raw), Some(key)).Some? && Replay(lib, Some(raw), Some(key)).value.body == expected
  {
    StoredCipher(front, body, key, filler);
    hide QqTeaCipher.Encryption, QqTeaCipher.Decryption, DecodePushBody, LivePush, Replay, Stored, RawPayload, OfflinePayload, ToInt;
    var c, raw := QqTeaCipher.Encryption(body, key, filler).bytes, Stored(front, body, key, filler);
    EncryptedBodyIsDecoded(lib, front + LittleEndian(|c|, 4), body, key, filler);
    PayloadIsDecrypted(c, key, body + Zeros(7));
    ReplayOfBody(lib, raw, Some(key));
  }

  /** A compressed push survives encryption: live and replayed, its inflated text reaches the parser, end-trimmed. */
  lemma CompressedPushSurvives<J>(lib: Library<J>, front: Bytes, body: Bytes, key: Bytes, filler: Bytes, text: Bytes)
    requires |front| == 16 && ToInt(front[2]) == 1
    requires |key| >= KEY_LEN && IsFiller(filler, |body|) && |body| + 17 <= MAX_LENGTH
    requires body != [] && body[0] == 0x78 && lib.unzip(body + Zeros(7)) == Some(text) && IsText(text, 0x7B)
    ensures
      var raw, c := Stored(front, body, key, filler), QqTeaCipher.Encryption(body, key, filler).bytes;
      && LivePush(lib, raw, |c|, Some(key)) == Some(ParsedAs(lib.parse(TrimEnd(text))))
      && Replay(lib, Some(raw), Some(key)).Some?
      && Replay(lib, Some(raw), Some(key)).value.body == ParsedAs(lib.parse(TrimEnd(text)))
  {
    hide QqTeaCipher.Encryption, DecodePushBody, LivePush, Replay, Stored, ToInt, TrimEnd;
    CompressedBodyIsInflated(lib, body + Zeros(7));
    BodyIsReadBothWays(lib, front, body, key, filler);
  }

  /** So does a poke, whatever follows its first byte. */
  lemma PokeSurvives<J>(lib: Library<J>, front: Bytes, rest: Bytes, key: Bytes, filler: Bytes)
    requires |front| == 16 && ToInt(front[2]) == 1
    requires |key| >= KEY_LEN && IsFiller(filler, 1 + |rest|) && |rest| + 18 <= MAX_LENGTH
    ensures
      var raw, c := Stored(front, [0x08] + rest, key, filler), QqTeaCipher.Encryption([0x08] + rest, key, filler).bytes;
      && LivePush(lib, raw, |c|, Some(key)) == Some(Poke)
      && Replay(lib, Some(raw), Some(key)).Some? && Replay(lib, Some(raw), Some(key)).value.body == Poke
  {
    hide QqTeaCipher.Encryption, DecodePushBody, LivePush, Replay, Stored, ToInt;
    FirstByteDecides(lib, [0x08] + rest + Zeros(7));
    BodyIsReadBothWays(lib, front, [0x08] + rest, key, filler);
  }

  // ---- Replayed packets of the other key types

  /**
   * A JSON body encrypted in a packet that does not say so (key type 0) is decrypted all the same, unless the first byte
   * of its ciphertext happens to be that of a body: then the ciphertext is decoded as it stands.
   */
  lemma UndeclaredCipherIsTried<J>(lib: Library<J>, front: Bytes, body: Bytes, key: Bytes, filler: Bytes)
    requires |front| == 16 && ToInt(front[2]) == 0 && IsText(body, 0x7B)
    requires |key| >= KEY_LEN && IsFiller(filler, |body|) && |body| + 17 <= MAX_LENGTH
    ensures
      var raw, c := Stored(front, body, key, filler), QqTeaCipher.Encryption(body, key, filler).bytes;
      && c != []
      && (c[0] !in [0x78, 0x1F, 0x7B, 0x25] ==>
            && Replay(lib, Some(raw), Some(key)).Some?
            && Replay(lib, Some(raw), Some(key)).value.body == ParsedAs(lib.parse(TrimEnd(body))))
      && (c[0] in [0x78, 0x1F, 0x7B, 0x25] ==> Replay(lib, Some(raw), Some(key)) == Replay(lib, Some(raw), None))
  {
    StoredCipher(front, body, key, filler);
    TextIsRead(lib, body);
    hide QqTeaCipher.Encryption, QqTeaCipher.Decryption, DecodePushBody, Replay, Stored, RawPayload, OfflinePayload, ToInt,
      ParsedAs, TrimEnd, IsText;
    var raw, c := Stored(front, body, key, filler), QqTeaCipher.Encryption(body, key, filler).bytes;
    PayloadIsDecrypted(c, key, body + Zeros(7));
    if c[0] in [0x78, 0x1F, 0x7B, 0x25] {
      SamePayloadSameReplay(lib, raw, Some(key));
    } else {
      ReplayOfBody(lib, raw, Some(key));
    }
  }

  lemma TextIsRead<J>(lib: Library<J>, body: Bytes)
    requires IsText(body, 0x7B)
    ensures OfflineBody(lib, body + Zeros(7)) == Some(ParsedAs(lib.parse(TrimEnd(body))))
  {
    hide StripNulls, Trim, TrimEnd, DecodePushBody;
    JsonIgnoresTrailer(lib, body);
  }

  lemma SamePayloadSameReplay<J>(lib: Library<J>, raw: Bytes, sessionKey: Option<Bytes>)
    requires |raw| >= HEADER_LEN && RawPayload(raw) != []
    requires OfflinePayload(RawPayload(raw), ToInt(raw[2]), sessionKey) == RawPayload(raw)
    ensures Replay(lib, Some(raw), sessionKey) == Replay(lib, Some(raw), None)
  {
    assert OfflinePayload(RawPayload(raw), ToInt(raw[2]), None) == RawPayload(raw);
    hide OfflineBody, OfflinePayload, OfflineBodyLen, Unsigned, Signed, ToInt;
  }

  /** Nothing is decrypted without a key, for another key type, or when the payload cannot be a ciphertext. */
  lemma PayloadStaysAsItIs(payload: Bytes, keyType: nat, sessionKey: Option<Bytes>)
    requires payload != []
    requires sessionKey.None? || keyType > 1 || |payload| % 8 != 0 || |sessionKey.value| < 16
    ensures OfflinePayload(payload, keyType, sessionKey) == payload
  {
    hide ReadKeyWords, DecryptedBytes;
  }

  // ---- Gzip

  /** A gzip body is what its text, an object or an array, parses to; otherwise the packet is dropped. */
  lemma GzipBodyIsInflated<J>(lib: Library<J>, payload: Bytes)
    requires IsGzip(payload)
    ensures lib.gunzip(payload).None? ==> OfflineBody(lib, payload) == None
    ensures lib.gunzip(payload).Some? && (IsText(lib.gunzip(payload).value, 0x7B) || IsText(lib.gunzip(payload).value, 0x5B)) ==>
              OfflineBody(lib, payload) ==
              match lib.parse(TrimEnd(lib.gunzip(payload).value)) { case Some(root) => Some(Json(root)) case None => None }
    ensures lib.gunzip(payload).Some? && lib.gunzip(payload).value != [] && 0 !in lib.gunzip(payload).value
            && lib.gunzip(payload).value[0] > 0x20 && lib.gunzip(payload).value[0] !in [0x7B, 0x5B] ==>
              OfflineBody(lib, payload) == None
  {
    hide StripNulls, Trim, TrimEnd;
    if lib.gunzip(payload).Some? {
      var text := lib.gunzip(payload).value;
      if text != [] && 0 !in text && text[0] > 0x20 {
        TextIsTrimmed(text);
      }
    }
  }

  /** In a packet that is not encrypted, with or without a session key, a gzip payload reaches the parser inflated. */
  lemma GzipIsReplayed<J>(lib: Library<J>, front: Bytes, payload: Bytes, sessionKey: Option<Bytes>, text: Bytes)
    requires |front| == 16 && ToInt(front[2]) == 0
    requires |payload| >= 2 && payload[0] == 0x1F && payload[1] == 0x8B && |payload| <= MAX_LENGTH
    requires lib.gunzip(payload) == Some(text) && (IsText(text, 0x7B) || IsText(text, 0x5B))
    ensures
      var replay := Replay(lib, Some(WithLength(front, payload)), sessionKey);
      match lib.parse(TrimEnd(text))
      case Some(root) => replay.Some? && replay.value.body == Json(root)
      case None => replay == None
  {
    hide Replay, WithLength, RawPayload, ToInt, TrimEnd, OfflinePayload, OfflineBody;
    LengthIsRead(front, payload);
    GzipStaysAsItIs(payload, sessionKey);
    GzipBodyIsInflated(lib, payload);
    ReplayOfBody(lib, WithLength(front, payload), sessionKey);
  }

  lemma GzipStaysAsItIs(payload: Bytes, sessionKey: Option<Bytes>)
    requires |payload| >= 2 && payload[0] == 0x1F
    ensures OfflinePayload(payload, 0, sessionKey) == payload
  {
    hide ReadKeyWords, DecryptedBytes;
  }

  // ---- Declared lengths

  /** A replayed packet's payload is what follows its header, cut to the declared length; a negative one means none. */
  lemma ReplayedPayloadIsCut<J>(lib: Library<J>, front: Bytes, n: int, rest: Bytes, sessionKey: Option<Bytes>)
    requires |front| == 16 && -0x8000_0000 <= n < 0x8000_0000
    ensures var raw := front + LittleEndian(n, 4) + rest;
            && RawPayload(raw) == (if n < 0 then [] else if n < |rest| then rest[..n] else rest)
            && (n <= 0 ==> Replay(lib, Some(raw), sessionKey) == None)
  {
    hide Signed, LittleEndian, OfflineBody, OfflinePayload;
    ThreeParts(front, LittleEndian(n, 4), rest);
    FieldWidths();
    SignedRoundTrip(n, 4);
  }

  // ---- Acknowledgements

  lemma ShortAckIsEmpty<J>(lib: Library<J>, payload: Bytes)
    requires 0 < |payload| <= 16 && payload[0] != 0x78
    ensures AckView(lib, payload) == Some(MessageAck([], 0, 0))
  {
  }

  /** A compressed acknowledgement is the one it inflates to; one that does not inflate is read as it stands. */
  lemma CompressedAckIsInflated<J>(lib: Library<J>, payload: Bytes, raw: Bytes)
    requires payload != [] && payload[0] == 0x78
    requires lib.unzip(payload) == Some(raw) && raw != [] && raw[0] != 0x78
    ensures AckView(lib, payload) == AckView(lib, raw)
  {
    hide StrictAck, ScannedAck;
  }

  predicate IsPrintable(text: Bytes) { forall i :: 0 <= i < |text| ==> text[i] > 0x20 }

  /** Length (big-endian, with the prefix), prefix, text, a zero byte and the sequence. */
  function SentAck(prefix: byte, text: Bytes, sequence: int): Bytes {
    [ToByte((|text| + 1) / 256), ToByte(|text| + 1), prefix] + text + ([0] + LittleEndian(sequence, 8))
  }

  lemma SentAckParts(prefix: byte, text: Bytes, sequence: int)
    ensures
      var raw, n := SentAck(prefix, text, sequence), |text| + 1;
      && |raw| == n + 11 && raw[0] == ToByte(n / 256) && raw[1] == ToByte(n) && raw[2] == prefix
      && raw[3..2 + n] == text && raw[2 + n] == 0 && raw[3 + n..11 + n] == LittleEndian(sequence, 8)
  {
    hide ToByte, LittleEndian;
  }

  lemma LengthIsBigEndian(raw: Bytes, n: nat)
    requires |raw| >= 2 + n && 256 * ToInt(raw[0]) + ToInt(raw[1]) == n
    ensures FieldLength(raw) == n
  {
    hide ToInt;
  }

  lemma StrictAckOfParts(raw: Bytes, n: nat, text: Bytes, tail: Bytes)
    requires n > 0 && |raw| == n + 11 && FieldLength(raw) == n
    requires raw[3..2 + n] == text && raw[2 + n] == 0 && raw[3 + n..11 + n] == tail
    requires Trim(StripNulls(text)) == text && FindUuid(text, 0).Some?
    ensures StrictAck(raw) == Some(MessageAck(text, Signed(tail), ToInt(raw[2])))
  {
    hide ToInt, FindUuid, StripNulls, Trim, Signed, Unsigned, FieldLength;
  }

  lemma StrictAckIsTaken<J>(lib: Library<J>, raw: Bytes)
    requires |raw| > 16 && raw[0] != 0x78 && StrictAck(raw).Some?
    ensures AckView(lib, raw) == StrictAck(raw)
  {
    hide StrictAck;
  }

  /** The id of an acknowledgement is its whole text, of which the UUID may be any part. */
  lemma AckKeepsItsText<J>(lib: Library<J>, prefix: byte, text: Bytes, sequence: int)
    requires IsPrintable(text) && FindUuid(text, 0).Some?
    requires |text| + 1 < 0x1_0000 && (|text| + 1) / 256 != 0x78
    requires -0x8000_0000_0000_0000 <= sequence < 0x8000_0000_0000_0000
    ensures AckView(lib, SentAck(prefix, text, sequence)) == Some(MessageAck(text, sequence, ToInt(prefix)))
  {
    var raw, n := SentAck(prefix, text, sequence), |text| + 1;
    SentAckParts(prefix, text, sequence);
    LengthBytes(n);
    PrintableIsKept(text);
    SequenceIsRead(sequence);
    hide ToByte, ToInt, LittleEndian, FindUuid, Signed, Unsigned, SentAck, StrictAck, IsPrintable, StripNulls, Trim, AckView, FieldLength;
    LengthIsBigEndian(raw, n);
    StrictAckOfParts(raw, n, text, LittleEndian(sequence, 8));
    StrictAckIsTaken(lib, raw);
  }

  lemma SequenceIsRead(sequence: int)
    requires -0x8000_0000_0000_0000 <= sequence < 0x8000_0000_0000_0000
    ensures Signed(LittleEndian(sequence, 8)) == sequence
  {
    hide LittleEndian, Signed, Unsigned;
    PowerOf64Bits();
    SignedRoundTrip(sequence, 8);
  }

  lemma LengthBytes(n: nat)
    requires n < 0x1_0000 && n / 256 != 0x78
    ensures 256 * ToInt(ToByte(n / 256)) + ToInt(ToByte(n)) == n
    ensures ToByte(n / 256) != 0x78
  {
    hide ToByte, ToInt;
    IntRoundTrip(n / 256);
    IntRoundTrip(n);
    FirstIsNotZlib(n / 256);
  }

  lemma FirstIsNotZlib(n: int)
    requires 0 <= n < 256 && n != 0x78
    ensures ToByte(n) != 0x78
  {
    IntRoundTrip(n);
    ZlibByte();
    hide ToByte, ToInt;
  }

  lemma ZlibByte()
    ensures ToInt(0x78) == 0x78
  {
  }

  lemma PrintableIsKept(text: Bytes)
    requires IsPrintable(text) && FindUuid(text, 0).Some?
    ensures Trim(StripNulls(text)) == text
  {
    StripNullsOfText(text);
    TrimOfPrintableStart(text);
  }

  lemma ScannedAt(raw: Bytes, uuid: Bytes)
    requires |raw| == 46 && raw[2..38] == uuid && IsUuid(uuid) && raw[0] == 0 && raw[1] == 0
    ensures FindUuid(raw, 0) == Some(2)
  {
    ZerosAreNoUuid(raw);
    hide IsUuid;
    assert UuidAt(raw, 2);
    assert FindUuid(raw, 1) == FindUuid(raw, 2);
  }

  /** Without a length the first UUID is the id and the last eight bytes are the sequence. */
  lemma AckIsScanned<J>(lib: Library<J>, uuid: Bytes, sequence: int)
    requires IsUuid(uuid) && -0x8000_0000_0000_0000 <= sequence < 0x8000_0000_0000_0000
    ensures AckView(lib, [0, 0] + uuid + LittleEndian(sequence, 8)) == Some(MessageAck(uuid, sequence, 0))
  {
    var raw := [0, 0] + uuid + LittleEndian(sequence, 8);
    ZeroByte();
    assert raw[2..38] == uuid && raw[|raw| - 8..] == LittleEndian(sequence, 8);
    ScannedAt(raw, uuid);
    hide ToInt, LittleEndian, Signed, Unsigned, IsUuid, StripNulls, Trim, FindUuid;
    SequenceIsRead(sequence);
  }

  lemma ZerosAreNoUuid(raw: Bytes)
    requires |raw| >= 2 && raw[0] == 0 && raw[1] == 0
    ensures !UuidAt(raw, 0) && !UuidAt(raw, 1)
  {
    assert !IsUuidCharacter(0, 0);
    if |raw| >= 37 {
      assert raw[0..36][0] == 0 && raw[1..37][0] == 0;
    }
  }

  // ---- UUIDs

  predicate IsHex(s: Bytes) {
    forall i :: 0 <= i < |s| ==> 0x30 <= s[i] <= 0x39 || 0x41 <= s[i] <= 0x46 || 0x61 <= s[i] <= 0x66
  }

  /** A UUID is five groups of hexadecimal digits of either case, of 8, 4, 4, 4 and 12, with hyphens between them. */
  lemma UuidGroups(a: Bytes, b: Bytes, c: Bytes, d: Bytes, e: Bytes)
    requires |a| == 8 && |b| == 4 && |c| == 4 && |d| == 4 && |e| == 12
    ensures IsUuid(a + [0x2D] + b + [0x2D] + c + [0x2D] + d + [0x2D] + e) <==>
              IsHex(a) && IsHex(b) && IsHex(c) && IsHex(d) && IsHex(e)
  {
    var s := a + [0x2D] + b + [0x2D] + c + [0x2D] + d + [0x2D] + e;
    hide IsUuidCharacter;
    Group(s, a, 0);
    Group(s, b, 9);
    Group(s, c, 14);
    Group(s, d, 19);
    Group(s, e, 24);
    Hyphens();
    assert IsUuid(s) <==> forall j :: 0 <= j < 36 ==> IsUuidCharacter(j, s[j]);
  }

  lemma Hyphens()
    ensures IsUuidCharacter(8, 0x2D) && IsUuidCharacter(13, 0x2D) && IsUuidCharacter(18, 0x2D) && IsUuidCharacter(23, 0x2D)
  {
  }

  /** The digits of one group. */
  lemma Group(s: Bytes, g: Bytes, from: nat)
    requires from + |g| <= |s| && s[from..from + |g|] == g
    requires (from == 0 && |g| == 8) || (from in {9, 14, 19} && |g| == 4) || (from == 24 && |g| == 12)
    ensures IsHex(g) <==> forall j :: from <= j < from + |g| ==> IsUuidCharacter(j, s[j])
  {
    assert forall j :: from <= j < from + |g| ==> s[j] == g[j - from];
    if IsHex(g) {
      forall j | from <= j < from + |g|
        ensures IsUuidCharacter(j, s[j])
      {
        assert s[j] == g[j - from];
      }
    }
    if forall j :: from <= j < from + |g| ==> IsUuidCharacter(j, s[j]) {
      forall i | 0 <= i < |g|
        ensures 0x30 <= g[i] <= 0x39 || 0x41 <= g[i] <= 0x46 || 0x61 <= g[i] <= 0x66
      {
        assert IsUuidCharacter(from + i, s[from + i]);
      }
    }
  }

  // ---- Payloads that cannot be decrypted

  lemma DecodedIsNoFailure<J>(lib: Library<J>, d: Bytes)
    requires d != []
    ensures DecodePushBody(lib, d) != DecryptFailed
  {
    hide StripNulls, Trim, Inflate;
  }

  /** Live, a payload below one block is ignored, and an unaligned one or a short key is a failure to decrypt. */
  lemma UndecryptablePushes<J>(lib: Library<J>, data: Bytes, c: Bytes, key: Bytes)
    requires c != [] && CopyPayload(data, |c|) == Some(c)
    ensures LivePush(lib, data, |c|, Some(key)) == Some(DecryptFailed) <==> |c| >= 8 && (|c| % 8 != 0 || |key| < 16)
    ensures |c| < 8 ==> LivePush(lib, data, |c|, Some(key)) == Some(Ignored)
  {
    QqTeaCipher.RefusalsAreExact(c, key);
    hide QqTeaCipher.Decryption, DecodePushBody, CopyPayload;
    var d := QqTeaCipher.Decryption(c, key);
    if d.Answer? && d.bytes != [] {
      DecodedIsNoFailure(lib, d.bytes);
    }
  }

  /** Without a session key or a payload a push is ignored; with both, a length past the end is the caller's exception. */
  lemma UnreadPushes<J>(lib: Library<J>, data: Bytes, payloadLen: int, sessionKey: Option<Bytes>)
    requires |data| >= 20
    ensures sessionKey.None? || payloadLen == 0 ==> LivePush(lib, data, payloadLen, sessionKey) == Some(Ignored)
    ensures LivePush(lib, data, payloadLen, sessionKey) == None <==>
              sessionKey.Some? && (payloadLen < 0 || payloadLen > |data| - 20)
  {
    hide QqTeaCipher.Decryption, DecodePushBody;
  }
}
