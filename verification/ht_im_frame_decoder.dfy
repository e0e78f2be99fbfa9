/** `HtImFrameDecoder`: from the bytes of an ht_im packet to its decoded body. */
module HtImFrameDecoder {
  import opened Wrappers
  import opened ByteStrings
  import opened AsciiText
  import opened HtImPacketFramer
  import opened TeaChain
  import opened TeaPadding
  import QqTeaCipher

  /** The library calls: zlib (either mode), gzip and Jackson. `None` stands for a failure. */
  datatype Library<!J> = Library(
    unzip: Bytes -> Option<Bytes>,
    gunzip: Bytes -> Option<Bytes>,
    parse: Bytes -> Option<J>)

  datatype F2Push<J> =
    | Receipt(msgId: Bytes)
    | Poke
    | Json(root: J)
    | Unknown(firstByte: nat, bytes: Bytes)
    | DecryptFailed
    | Ignored

  datatype OfflinePacket<J> = OfflinePacket(header: Header, body: F2Push<J>)

  const ZLIB: byte := 0x78
  const BRACE: byte := 0x7B
  const BRACKET: byte := 0x5B
  const RECEIPT: byte := 0x25
  const POKE: byte := 0x08

  function Inflate<J>(lib: Library<J>, data: Bytes): Option<Bytes> {
    if data == [] || data[0] != ZLIB then Some(data) else lib.unzip(data)
  }

  predicate StartsWith(s: Bytes, b: byte) { s != [] && s[0] == b }

  predicate IsGzip(s: Bytes) { |s| >= 2 && s[0] == 0x1F && s[1] == 0x8B }

  predicate IsRecognizedMagic(b: byte) { b == ZLIB || b == 0x1F || b == BRACE || b == RECEIPT }

  function ParseObject<J>(lib: Library<J>, text: Bytes): F2Push<J> {
    if !StartsWith(text, BRACE) then Ignored
    else match lib.parse(text) { case Some(root) => Json(root) case None => Ignored }
  }

  function DecodePushBody<J>(lib: Library<J>, decrypted: Bytes): F2Push<J>
    requires decrypted != []
  {
    var first := decrypted[0];
    if first == RECEIPT then
      if |decrypted| < 38 then Ignored else Receipt(Trim(StripNulls(decrypted[2..38])))
    else if first == POKE then Poke
    else if first == ZLIB then
      match Inflate(lib, decrypted)
      case None => Ignored
      case Some(bytes) => ParseObject(lib, Trim(StripNulls(bytes)))
    else if first == BRACE then ParseObject(lib, Trim(StripNulls(decrypted)))
    else Unknown(ToInt(first), decrypted)
  }

  // ---- Live pushes

  /** `None`: the payload cannot be copied and the exception leaves the method. */
  ghost function LivePush<J>(lib: Library<J>, data: Bytes, payloadLen: int, sessionKey: Option<Bytes>): Option<F2Push<J>> {
    if sessionKey.None? || payloadLen == 0 then Some(Ignored)
    else
      match CopyPayload(data, payloadLen)
      case None => None
      case Some(payload) =>
        Some(match QqTeaCipher.Decryption(payload, sessionKey.value)
             case Threw => DecryptFailed
             case Null => Ignored
             case Answer(d) => if d == [] then Ignored else DecodePushBody(lib, d))
  }

  method DecodeF2<J>(lib: Library<J>, data: Bytes, payloadLen: int, sessionKey: Option<Bytes>)
    returns (r: Option<F2Push<J>>)
    ensures r == LivePush(lib, data, payloadLen, sessionKey)
  {
    hide DecodePushBody, DeclaredHeaderLen, ReadKeyWords, DecryptedBytes;
    if sessionKey.None? || payloadLen == 0 {
      return Some(Ignored);
    }
    var encPayload := CopyPayload(data, payloadLen);
    if encPayload.None? {
      return None;
    }
    var decrypted := QqTeaCipher.Decrypt(encPayload.value, sessionKey.value);
    match decrypted {
      case Threw => r := Some(DecryptFailed);
      case Null => r := Some(Ignored);
      case Answer(d) => r := Some(if d == [] then Ignored else DecodePushBody(lib, d));
    }
  }

  // ---- Replayed packets

  function OfflineBodyLen(raw: Bytes): (n: nat)
    requires |raw| >= HEADER_LEN
    ensures HEADER_LEN + n <= |raw|
  {
    var declared := Signed(raw[16..20]);
    if declared < 0 then 0 else if declared < |raw| - HEADER_LEN then declared else |raw| - HEADER_LEN
  }

  /** The payload a replayed packet is decoded from: decrypted when the key type and the bytes call for it. */
  ghost function OfflinePayload(payload: Bytes, keyType: nat, sessionKey: Option<Bytes>): (r: Bytes)
    requires payload != []
    ensures r != []
  {
    if sessionKey.None? then payload
    else
      match QqTeaCipher.Decryption(payload, sessionKey.value)
      case Answer(d) =>
        if keyType == 1 && d != [] then d
        else if keyType == 0 && !IsRecognizedMagic(payload[0]) && d != [] && IsRecognizedMagic(d[0]) then d
        else payload
      case _ => payload
  }

  function GunzippedBody<J>(lib: Library<J>, payload: Bytes): Option<F2Push<J>> {
    match lib.gunzip(payload)
    case None => None
    case Some(bytes) =>
      var text := Trim(StripNulls(bytes));
      if !StartsWith(text, BRACE) && !StartsWith(text, BRACKET) then None
      else match lib.parse(text) { case Some(root) => Some(Json(root)) case None => None }
  }

  function OfflineBody<J>(lib: Library<J>, payload: Bytes): Option<F2Push<J>>
    requires payload != []
  {
    if IsGzip(payload) then GunzippedBody(lib, payload) else Some(DecodePushBody(lib, payload))
  }

  /** `raw` is the Base64-decoded packet, `None` when the text is not Base64. */
  ghost function Replay<J>(lib: Library<J>, raw: Option<Bytes>, sessionKey: Option<Bytes>): Option<OfflinePacket<J>> {
    if raw.None? || |raw.value| < HEADER_LEN then None
    else
      var h := ParseHeader(raw.value).value;
      var bodyLen := OfflineBodyLen(raw.value);
      if bodyLen == 0 then None
      else
        var payload := raw.value[HEADER_LEN..HEADER_LEN + bodyLen];
        match OfflineBody(lib, OfflinePayload(payload, h.keyType, sessionKey))
        case None => None
        case Some(body) =>
          Some(OfflinePacket(Header(PKT_PUSH, h.keyType, h.cmdId, 0, h.fromId, h.toId, bodyLen), body))
  }

  method DecryptOffline(raw: Bytes, keyType: nat, sessionKey: Option<Bytes>) returns (payload: Bytes)
    requires raw != []
    ensures payload == OfflinePayload(raw, keyType, sessionKey)
  {
    hide DeclaredHeaderLen, ReadKeyWords, DecryptedBytes;
    payload := raw;
    if keyType == 1 && sessionKey.Some? {
      var dec := QqTeaCipher.Decrypt(payload, sessionKey.value);
      if dec.Answer? && |dec.bytes| > 0 {
        payload := dec.bytes;
      }
    } else if keyType == 0 && sessionKey.Some? && !IsRecognizedMagic(payload[0]) {
      var dec := QqTeaCipher.Decrypt(payload, sessionKey.value);
      if dec.Answer? && |dec.bytes| > 0 && IsRecognizedMagic(dec.bytes[0]) {
        payload := dec.bytes;
      }
    }
  }

  method DecodeOfflinePacket<J>(lib: Library<J>, raw: Option<Bytes>, sessionKey: Option<Bytes>)
    returns (r: Option<OfflinePacket<J>>)
    ensures r == Replay(lib, raw, sessionKey)
  {
    hide OfflinePayload, OfflineBody, OfflineBodyLen, Unsigned, Signed, ToInt;
    if raw.None? || |raw.value| < HEADER_LEN {
      return None;
    }
    var data := raw.value;
    var keyType := ToInt(data[2]);
    var cmdId := Unsigned(data[4..6]);
    var fromId := Unsigned(data[8..12]);
    var toId := Unsigned(data[12..16]);
    var bodyLen := OfflineBodyLen(data);
    var payload := CopyOfRange(data, HEADER_LEN, HEADER_LEN + bodyLen);
    if |payload| == 0 {
      return None;
    }
    payload := DecryptOffline(payload, keyType, sessionKey);
    var body := OfflineBody(lib, payload);
    if body.None? {
      return None;
    }
    r := Some(OfflinePacket(Header(PKT_PUSH, keyType, cmdId, 0, fromId, toId, bodyLen), body.value));
  }

  // ---- Laws of pushes

  ghost function RawPayload(raw: Bytes): Bytes
    requires |raw| >= HEADER_LEN
  {
    raw[HEADER_LEN..HEADER_LEN + OfflineBodyLen(raw)]
  }

  /**
   * For every nonempty encrypted packet and key, live and replayed decoding give the same body exactly when
   * the payload decrypts to something that is not gzip, or is shorter than a block and decodes to nothing as it stands.
   */
  lemma LiveAndReplayedAgree<J>(lib: Library<J>, raw: Bytes, key: Bytes)
    requires |raw| >= HEADER_LEN && ToInt(raw[2]) == 1 && RawPayload(raw) != []
    ensures var payload := RawPayload(raw);
            var live := LivePush(lib, raw, |payload|, Some(key));
            var replayed := Replay(lib, Some(raw), Some(key));
            && live.Some?
            && (replayed.Some? && replayed.value.body == live.value
                <==> match QqTeaCipher.Decryption(payload, key)
                     case Answer(d) => !IsGzip(d)
                     case Null => !IsGzip(payload) && DecodePushBody(lib, payload) == Ignored
                     case Threw => false)
  {
    hide DeclaredHeaderLen, ReadKeyWords, DecryptedBytes, StripNulls, Trim, Inflate, Signed, Unsigned, ToInt;
  }

  /** A replayed packet is given the header of a push, with the key type, command and ids of its own. */
  lemma ReplayedHeader<J>(lib: Library<J>, raw: Bytes, sessionKey: Option<Bytes>)
    requires |raw| >= HEADER_LEN
    ensures
      var replay := Replay(lib, Some(raw), sessionKey);
      replay.Some? ==>
        replay.value.header == Header(PKT_PUSH, ToInt(raw[2]), Unsigned(raw[4..6]), 0,
                                      Unsigned(raw[8..12]), Unsigned(raw[12..16]), |RawPayload(raw)|)
  {
    hide OfflineBody, OfflinePayload, OfflineBodyLen, Unsigned, Signed, ToInt;
  }

  /** What an encrypted body decodes to, live, at the end of a header whatever that header says. */
  lemma EncryptedBodyIsDecoded<J>(lib: Library<J>, header: Bytes, body: Bytes, key: Bytes, filler: Bytes)
    requires |header| == HEADER_LEN && |key| >= KEY_LEN && IsFiller(filler, |body|)
    ensures var c := QqTeaCipher.Encryption(body, key, filler).bytes;
            LivePush(lib, header + c, |c|, Some(key)) == Some(DecodePushBody(lib, body + Zeros(TRAILER_LEN)))
  {
    hide DeclaredHeaderLen, ReadKeyWords, DecryptedBytes, EncryptedBytes, DecodePushBody, Padded, HeaderLen,
      QqTeaCipher.StripHeader, ToInt;
    var c := QqTeaCipher.Encryption(body, key, filler).bytes;
    QqTeaCipher.RoundTrip(body, key, filler);
    assert (header + c)[HEADER_LEN..HEADER_LEN + |c|] == c;
  }

  /** A header's last field is the length of what follows it. */
  function WithLength(front: Bytes, c: Bytes): Bytes
    requires |front| == HEADER_LEN - 4
  {
    front + LittleEndian(|c|, 4) + c
  }

  lemma ThreeParts(a: Bytes, b: Bytes, c: Bytes)
    requires |a| == 16 && |b| == 4
    ensures var s := a + b + c; s[16..20] == b && s[20..20 + |c|] == c && s == (a + b) + c && s[2] == a[2]
  {
  }

  lemma LengthIsRead(front: Bytes, c: Bytes)
    requires |front| == HEADER_LEN - 4 && c != [] && |c| <= MAX_LENGTH
    ensures RawPayload(WithLength(front, c)) == c
    ensures WithLength(front, c) == (front + LittleEndian(|c|, 4)) + c && WithLength(front, c)[2] == front[2]
  {
    hide Signed, LittleEndian;
    ThreeParts(front, LittleEndian(|c|, 4), c);
    FieldWidths();
    SignedRoundTrip(|c|, 4);
  }

  /** Every gzip body is a push on which the two decoders differ: live it is unknown, replayed it is JSON or nothing. */
  lemma GzipPushesDiffer<J>(lib: Library<J>, front: Bytes, body: Bytes, key: Bytes, filler: Bytes)
    requires |front| == HEADER_LEN - 4 && ToInt(front[2]) == 1
    requires IsGzip(body) && |key| >= KEY_LEN && IsFiller(filler, |body|) && |body| + 17 <= MAX_LENGTH
    ensures
      var c := QqTeaCipher.Encryption(body, key, filler).bytes;
      var replay := Replay(lib, Some(WithLength(front, c)), Some(key));
      && LivePush(lib, WithLength(front, c), |c|, Some(key)) == Some(Unknown(0x1F, body + Zeros(TRAILER_LEN)))
      && (replay.Some? ==> replay.value.body.Json?)
  {
    var c := QqTeaCipher.Encryption(body, key, filler).bytes;
    var d := body + Zeros(TRAILER_LEN);
    PaddedLength(body, filler);
    UnknownGzip(lib, d);
    hide ReadKeyWords, EncryptedBytes, QqTeaCipher.Decryption, LivePush, WithLength, RawPayload, HeaderLen, Padded, DecodePushBody,
      ToInt, Replay;
    LengthIsRead(front, c);
    EncryptedBodyIsDecoded(lib, front + LittleEndian(|c|, 4), body, key, filler);
    QqTeaCipher.RoundTrip(body, key, filler);
    assert IsGzip(d);
    GzipIsReplayedAsJson(lib, WithLength(front, c), key, d);
  }

  lemma UnknownGzip<J>(lib: Library<J>, d: Bytes)
    requires IsGzip(d)
    ensures DecodePushBody(lib, d) == Unknown(0x1F, d)
  {
  }

  lemma GzipIsReplayedAsJson<J>(lib: Library<J>, raw: Bytes, key: Bytes, d: Bytes)
    requires |raw| >= HEADER_LEN && ToInt(raw[2]) == 1 && RawPayload(raw) != []
    requires QqTeaCipher.Decryption(RawPayload(raw), key) == QqTeaCipher.Answer(d) && IsGzip(d)
    ensures var replay := Replay(lib, Some(raw), Some(key)); replay.Some? ==> replay.value.body.Json?
  {
    hide ReadKeyWords, DecryptedBytes, StripNulls, Trim, Signed, Unsigned, ToInt, DecodePushBody;
  }

  /** The trailer the cipher leaves behind is invisible in a JSON push: the parser sees the text that was encrypted. */
  lemma JsonIgnoresTrailer<J>(lib: Library<J>, body: Bytes)
    requires StartsWith(body, BRACE)
    ensures DecodePushBody(lib, body + Zeros(TRAILER_LEN)) == ParseObject(lib, Trim(StripNulls(body)))
    ensures 0 !in body ==> Trim(StripNulls(body)) == TrimEnd(body) && StartsWith(TrimEnd(body), BRACE)
  {
    hide StripNulls, TrimStart, TrimEnd, Trim, ParseObject;
    StripNullsConcat(body, Zeros(TRAILER_LEN));
    StripNullsOfZeros(TRAILER_LEN);
    assert StripNulls(body) + [] == StripNulls(body);
    if 0 !in body {
      StripNullsOfText(body);
      TrimOfPrintableStart(body);
    }
  }

  /** A receipt names the text of bytes 2 to 38; from 31 bytes on the trailer fills up what is missing. */
  lemma ReceiptIgnoresTrailer<J>(lib: Library<J>, body: Bytes)
    requires StartsWith(body, RECEIPT)
    ensures DecodePushBody(lib, body + Zeros(TRAILER_LEN)) ==
            if |body| < 31 then Ignored
            else Receipt(Trim(StripNulls(body[2..if |body| < 38 then |body| else 38])))
  {
    hide StripNulls, TrimStart, TrimEnd, Trim;
    var whole := body + Zeros(TRAILER_LEN);
    if |body| >= 38 {
      assert whole[2..38] == body[2..38];
    } else if |body| >= 31 {
      assert whole[2..38] == body[2..] + Zeros(38 - |body|);
      StripNullsConcat(body[2..], Zeros(38 - |body|));
      StripNullsOfZeros(38 - |body|);
      assert StripNulls(body[2..]) + [] == StripNulls(body[2..]);
      assert body[2..|body|] == body[2..];
    }
  }

  /** A push survives encryption, framing and decoding: the parser sees the text that was sent, end-trimmed. */
  lemma JsonPushSurvives<J>(lib: Library<J>, header: Bytes, body: Bytes, key: Bytes, filler: Bytes)
    requires |header| == HEADER_LEN && |key| >= KEY_LEN && IsFiller(filler, |body|)
    requires StartsWith(body, BRACE) && 0 !in body
    ensures var c := QqTeaCipher.Encryption(body, key, filler).bytes;
            LivePush(lib, header + c, |c|, Some(key)) ==
              Some(match lib.parse(TrimEnd(body)) { case Some(root) => Json(root) case None => Ignored })
    ensures StartsWith(TrimEnd(body), BRACE)
  {
    hide StripNulls, TrimStart, TrimEnd, Trim, DecodePushBody, LivePush;
    EncryptedBodyIsDecoded(lib, header, body, key, filler);
    JsonIgnoresTrailer(lib, body);
  }

  lemma ReceiptSurvives<J>(lib: Library<J>, header: Bytes, body: Bytes, key: Bytes, filler: Bytes)
    requires |header| == HEADER_LEN && |key| >= KEY_LEN && IsFiller(filler, |body|)
    requires StartsWith(body, RECEIPT) && |body| >= 38
    ensures var c := QqTeaCipher.Encryption(body, key, filler).bytes;
            LivePush(lib, header + c, |c|, Some(key)) == Some(Receipt(Trim(StripNulls(body[2..38]))))
  {
    hide StripNulls, TrimStart, TrimEnd, Trim, DecodePushBody, LivePush;
    EncryptedBodyIsDecoded(lib, header, body, key, filler);
    ReceiptIgnoresTrailer(lib, body);
  }

  // ---- Message acknowledgements

  datatype MessageAck = MessageAck(msgId: Bytes, sequence: int, prefix: nat)

  /** The length field, big-endian unless only the little-endian reading fits. */
  function FieldLength(raw: Bytes): nat
    requires |raw| >= 2
  {
    var lenBE := 256 * ToInt(raw[0]) + ToInt(raw[1]);
    var lenLE := ToInt(raw[0]) + 256 * ToInt(raw[1]);
    if 2 + lenBE > |raw| && 2 + lenLE <= |raw| then lenLE else lenBE
  }

  function SequenceAt(raw: Bytes, offset: nat): int
    requires offset <= |raw|
  {
    if |raw| - offset >= 8 then Signed(raw[offset..offset + 8])
    else if |raw| - offset >= 4 then Unsigned(raw[offset..offset + 4])
    else 0
  }

  /** The declared layout: length, prefix, message id, an optional zero byte, sequence. */
  function StrictAck(raw: Bytes): Option<MessageAck>
    requires |raw| >= 3
  {
    var n := FieldLength(raw);
    if n == 0 || 2 + n > |raw| then None
    else
      var text := Trim(StripNulls(raw[3..2 + n]));
      var skip := if 2 + n < |raw| && raw[2 + n] == 0 then 1 else 0;
      if FindUuid(text, 0).None? then None
      else Some(MessageAck(text, SequenceAt(raw, 2 + n + skip), ToInt(raw[2])))
  }

  /** The fallback: the first UUID anywhere and the last eight bytes. */
  function ScannedAck(raw: Bytes): Option<MessageAck>
    requires |raw| > 16
  {
    match FindUuid(raw, 0)
    case None => None
    case Some(i) => Some(MessageAck(raw[i..i + UUID_LEN], Signed(raw[|raw| - 8..]), 0))
  }

  function AckView<J>(lib: Library<J>, payload: Bytes): Option<MessageAck> {
    if payload == [] then None
    else
      var inflated := Inflate(lib, payload);
      var raw := if inflated.Some? then inflated.value else payload;
      if |raw| <= 16 then Some(MessageAck([], 0, 0))
      else if StrictAck(raw).Some? then StrictAck(raw)
      else ScannedAck(raw)
  }

  method ReadStrictAck(raw: Bytes) returns (r: Option<MessageAck>)
    requires |raw| > 16
    ensures r == StrictAck(raw)
  {
    hide StripNulls, Trim, IsUuid, Signed, Unsigned, ToInt;
    var lenBE := 256 * ToInt(raw[0]) + ToInt(raw[1]);
    var lenLE := ToInt(raw[0]) + 256 * ToInt(raw[1]);
    var strLen := lenBE;
    if 2 + lenBE > |raw| && 2 + lenLE <= |raw| {
      strLen := lenLE;
    }
    if strLen > 0 && 2 + strLen <= |raw| {
      var prefix := ToInt(raw[2]);
      var strVal := Trim(StripNulls(raw[3..2 + strLen]));
      var sequence := 0;
      var nextOffset := 2 + strLen;
      if nextOffset < |raw| && raw[nextOffset] == 0 {
        nextOffset := nextOffset + 1;
      }
      var sequenceBytes := |raw| - nextOffset;
      if sequenceBytes >= 8 {
        sequence := Signed(raw[nextOffset..nextOffset + 8]);
      } else if sequenceBytes >= 4 {
        sequence := Unsigned(raw[nextOffset..nextOffset + 4]);
      }
      if FindUuid(strVal, 0).Some? {
        return Some(MessageAck(strVal, sequence, prefix));
      }
    }
    r := None;
  }

  method DecodeMsgAck<J>(lib: Library<J>, payload: Bytes) returns (r: Option<MessageAck>)
    ensures r == AckView(lib, payload)
  {
    hide StrictAck, IsUuid, Signed, Unsigned, ToInt;
    if |payload| == 0 {
      return None;
    }
    var raw := payload;
    if payload[0] == ZLIB {
      var inflated := Inflate(lib, payload);
      if inflated.Some? {
        raw := inflated.value;
      }
    }
    if |raw| <= 16 {
      return Some(MessageAck([], 0, 0));
    }
    r := ReadStrictAck(raw);
    if r.Some? {
      return;
    }
    var m := FindUuid(raw, 0);
    if m.Some? {
      var sequence := Signed(raw[|raw| - 8..]);
      return Some(MessageAck(raw[m.value..m.value + UUID_LEN], sequence, 0));
    }
    r := None;
  }

  // ---- Laws of acknowledgements

  /** Length 37 in either byte order. */
  function LengthField(bigEndian: bool): (s: Bytes)
    ensures |s| == 2
  {
    if bigEndian then [0, 37] else [37, 0]
  }

  function AckBody(bigEndian: bool, prefix: byte, uuid: Bytes, tail: Bytes): Bytes {
    LengthField(bigEndian) + [prefix] + uuid + tail
  }

  lemma AckParts(bigEndian: bool, prefix: byte, uuid: Bytes, tail: Bytes)
    requires |uuid| == UUID_LEN
    ensures
      var raw := AckBody(bigEndian, prefix, uuid, tail);
      && |raw| == 39 + |tail|
      && raw[0] == LengthField(bigEndian)[0] && raw[1] == LengthField(bigEndian)[1] && raw[2] == prefix
      && raw[3..39] == uuid && raw[39..] == tail
  {
    hide LengthField;
  }

  lemma SequenceInTail(raw: Bytes, tail: Bytes, skip: nat)
    requires 39 <= |raw| && raw[39..] == tail && skip <= |tail|
    ensures SequenceAt(raw, 39 + skip) == SequenceAt(tail, skip)
  {
    hide Signed, Unsigned;
    if |tail| - skip >= 8 {
      assert raw[39 + skip..39 + skip + 8] == tail[skip..skip + 8];
    } else if |tail| - skip >= 4 {
      assert raw[39 + skip..39 + skip + 4] == tail[skip..skip + 4];
    }
  }

  /** A body of this layout decodes to its parts; a zero byte in front of the sequence is passed over. */
  lemma AckBodyIsStrict<J>(lib: Library<J>, bigEndian: bool, prefix: byte, uuid: Bytes, tail: Bytes)
    requires IsUuid(uuid) && |tail| <= 9
    ensures var skip := if tail != [] && tail[0] == 0 then 1 else 0;
            AckView(lib, AckBody(bigEndian, prefix, uuid, tail)) ==
              Some(MessageAck(uuid, SequenceAt(tail, skip), ToInt(prefix)))
  {
    assert |uuid| == UUID_LEN;
    hide StripNulls, Trim, FindUuid, IsUuid, SequenceAt, ToInt, AckBody;
    var raw := AckBody(bigEndian, prefix, uuid, tail);
    ZeroByte();
    ThirtySeven();
    AckParts(bigEndian, prefix, uuid, tail);
    assert FieldLength(raw) == 37;
    UuidIsPlainText(uuid);
    var skip := if tail != [] && tail[0] == 0 then 1 else 0;
    assert tail != [] ==> raw[39] == tail[0];
    SequenceInTail(raw, tail, skip);
  }

  /** With the zero byte, the acknowledgement carries exactly the id, the 64-bit sequence and the prefix. */
  lemma AckWithZeroByte<J>(lib: Library<J>, bigEndian: bool, prefix: byte, uuid: Bytes, sequence: int)
    requires IsUuid(uuid)
    requires -0x8000_0000_0000_0000 <= sequence < 0x8000_0000_0000_0000
    ensures AckView(lib, AckBody(bigEndian, prefix, uuid, [0] + LittleEndian(sequence, 8))) ==
              Some(MessageAck(uuid, sequence, ToInt(prefix)))
  {
    hide AckView, AckBody, IsUuid, ToByte, ToInt, Signed, Unsigned;
    var tail := [0] + LittleEndian(sequence, 8);
    AckBodyIsStrict(lib, bigEndian, prefix, uuid, tail);
    assert tail[1..9] == LittleEndian(sequence, 8);
    PowerOf64Bits();
    SignedRoundTrip(sequence, 8);
  }

  lemma PowerOf64Bits()
    ensures Power256(8) == 0x1_0000_0000_0000_0000
  {
    FieldWidths();
    assert Power256(5) == 256 * Power256(4);
    assert Power256(6) == 256 * Power256(5);
    assert Power256(7) == 256 * Power256(6);
    assert Power256(8) == 256 * Power256(7);
  }

  /** Without the zero byte the sequence is right exactly when its low byte is not taken for that byte. */
  lemma AckWithoutZeroByte<J>(lib: Library<J>, bigEndian: bool, prefix: byte, uuid: Bytes, sequence: int)
    requires IsUuid(uuid)
    requires -0x8000_0000_0000_0000 <= sequence < 0x8000_0000_0000_0000
    ensures AckView(lib, AckBody(bigEndian, prefix, uuid, LittleEndian(sequence, 8))) ==
              Some(MessageAck(uuid, sequence, ToInt(prefix)))
       <==> sequence % 256 != 0 || sequence == 0
  {
    hide AckView, AckBody, IsUuid, ToByte, ToInt, SequenceAt;
    var tail := LittleEndian(sequence, 8);
    AckBodyIsStrict(lib, bigEndian, prefix, uuid, tail);
    SequenceWithoutZeroByte(sequence);
  }

  /** The first byte of the sequence is skipped when it is zero, and then only four bytes are read. */
  lemma SequenceWithoutZeroByte(sequence: int)
    requires -0x8000_0000_0000_0000 <= sequence < 0x8000_0000_0000_0000
    ensures var tail := LittleEndian(sequence, 8);
            SequenceAt(tail, if tail[0] == 0 then 1 else 0) ==
              if sequence % 256 != 0 then sequence else sequence / 256 % 0x1_0000_0000
  {
    hide ToByte, ToInt, Signed, Unsigned;
    var tail := LittleEndian(sequence, 8);
    IntRoundTrip(sequence);
    ZeroByte();
    ByteRoundTrip(tail[0]);
    ByteRoundTrip(0);
    assert tail[0] == 0 <==> sequence % 256 == 0;
    if tail[0] != 0 {
      assert tail[0..8] == tail;
      PowerOf64Bits();
      SignedRoundTrip(sequence, 8);
    } else {
      var low := sequence / 256;
      assert tail[1..] == LittleEndian(low, 7);
      LittleEndianPrefix(low, 7, 4);
      assert tail[1..5] == LittleEndian(low, 7)[..4];
      LittleEndianRoundTrip(low, 4);
      FieldWidths();
    }
  }

  lemma {:induction false} LittleEndianPrefix(n: int, width: nat, w: nat)
    requires w <= width
    ensures LittleEndian(n, width)[..w] == LittleEndian(n, w)
    decreases w
  {
    if w > 0 {
      LittleEndianPrefix(n / 256, width - 1, w - 1);
      assert LittleEndian(n, width)[..w] == [ToByte(n)] + LittleEndian(n / 256, width - 1)[..w - 1];
    }
  }
}
