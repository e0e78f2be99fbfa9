/** What the connector does with whole frames: pushes, acknowledgements, typing and responses, from bytes to effects. */
module FrameLaws {
  import opened Wrappers
  import opened ByteStrings
  import opened AsciiText
  import opened HtImPacketFramer
  import opened HtImFrameDecoder
  import opened HtImDispatch
  import opened HtImConnector
  import opened TeaChain
  import opened TeaPadding
  import opened PushLaws
  import QqTeaCipher

  // ---- Frames and their payloads

  lemma PacketIsOpened(userId: int, toId: int, commandId: int, flag: int, seqNum: int, payload: Bytes)
    requires |payload| <= MAX_LENGTH
    ensures
      var frame := Packet(userId, toId, commandId, flag, seqNum, payload);
      var h := Header(flag % 0x100, 0, commandId % 0x1_0000, seqNum % 0x1_0000,
                      userId % 0x1_0000_0000, toId % 0x1_0000_0000, |payload|);
      && |frame| >= HEADER_LEN && ParseHeader(frame) == Some(h)
      && PayloadLen(h, frame) == |payload| && CopyPayload(frame, |payload|) == Some(payload)
  {
    hide ParseHeader, CopyPayload, HeaderBytes;
    ParsePacket(userId, toId, commandId, flag, seqNum, payload);
  }

  /** The payload of a frame is what follows its header, cut to the declared length; a negative length cannot be copied. */
  lemma PayloadIsCut(front: Bytes, n: int, rest: Bytes)
    requires |front| == 16 && -0x8000_0000 <= n < 0x8000_0000
    ensures
      var frame := front + LittleEndian(n, 4) + rest;
      |frame| >= HEADER_LEN && ParseHeader(frame).Some?
      && CopyPayload(frame, PayloadLen(ParseHeader(frame).value, frame)) ==
           if n < 0 then None else Some(if n < |rest| then rest[..n] else rest)
  {
    hide Signed, Unsigned, LittleEndian, ToInt;
    ThreeParts(front, LittleEndian(n, 4), rest);
    FieldWidths();
    SignedRoundTrip(n, 4);
    var frame := front + LittleEndian(n, 4) + rest;
    assert frame[20..] == rest;
    if 0 <= n < |rest| {
      assert frame[20..20 + n] == rest[..n];
    }
  }

  // ---- Pushes

  /** While connected, a push is acknowledged first of all. */
  function AckOf<J>(frame: Bytes, link: Link): seq<Effect<J>>
    requires |frame| >= HEADER_LEN
  {
    if link.connected then [AckSent(Ack(frame))] else []
  }

  lemma PushIsDispatched<J>(ctx: Context<J>, frame: Bytes, h: Header, link: Link, push: F2Push<J>)
    requires |frame| >= HEADER_LEN && ParseHeader(frame) == Some(h)
    requires h.packetType == 0xF2 && h.cmdId != 16386
    requires LivePush(ctx.lib, frame, PayloadLen(h, frame), link.sessionKey) == Some(push)
    ensures Handled(ctx, frame, link) == Handling(AckOf(frame, link) + DispatchPush(push, h, link.connected), false, link)
  {
    hide Ack, AckView, LivePush, TypingStatus, ParseHeader, CopyPayload, ToInt, DispatchPush;
  }

  lemma EncryptedPushIsDispatched<J>(
      ctx: Context<J>, userId: int, toId: int, commandId: int, seqNum: int,
      body: Bytes, key: Bytes, filler: Bytes, link: Link)
    requires |key| >= KEY_LEN && IsFiller(filler, |body|) && |body| + 17 <= MAX_LENGTH
    requires commandId % 0x1_0000 != 16386 && link.sessionKey == Some(key)
    ensures
      var frame := PushPacket(userId, toId, commandId, seqNum, body, key, filler);
      && |frame| >= HEADER_LEN && ParseHeader(frame).Some?
      && Handled(ctx, frame, link) ==
           Handling(AckOf(frame, link)
                    + DispatchPush(DecodePushBody(ctx.lib, body + Zeros(7)), ParseHeader(frame).value, link.connected),
                    false, link)
  {
    hide QqTeaCipher.Encryption, LivePush, HeaderBytes, DecodePushBody, DispatchPush, ParseHeader, PayloadLen, Handled, AckOf;
    CipherLength(body, key, filler);
    var c := QqTeaCipher.Encryption(body, key, filler).bytes;
    var frame := PushPacket(userId, toId, commandId, seqNum, body, key, filler);
    PushHeader(userId, toId, commandId, seqNum, body, key, filler);
    EncryptedBodyIsDecoded(ctx.lib, HeaderBytes(PKT_PUSH, commandId, seqNum, userId, toId, |c|), body, key, filler);
    PushIsDispatched(ctx, frame, ParseHeader(frame).value, link, DecodePushBody(ctx.lib, body + Zeros(7)));
  }

  /** A poke is acknowledged and answered with a request for what was missed; nothing is sent while not connected. */
  lemma PokeIsAnswered<J>(
      ctx: Context<J>, userId: int, toId: int, commandId: int, seqNum: int,
      rest: Bytes, key: Bytes, filler: Bytes, link: Link)
    requires |key| >= KEY_LEN && IsFiller(filler, 1 + |rest|) && |rest| + 18 <= MAX_LENGTH
    requires commandId % 0x1_0000 != 16386 && link.sessionKey == Some(key)
    ensures
      var frame := PushPacket(userId, toId, commandId, seqNum, [0x08] + rest, key, filler);
      && |frame| >= HEADER_LEN
      && Handled(ctx, frame, link) ==
           Handling(if link.connected then [AckSent(Ack(frame)), SyncRequested(0, 29967, 0xF0)] else [], false, link)
  {
    hide PushPacket, Handled, DecodePushBody, Ack;
    EncryptedPushIsDispatched(ctx, userId, toId, commandId, seqNum, [0x08] + rest, key, filler, link);
    FirstByteDecides(ctx.lib, [0x08] + rest + Zeros(7));
  }

  /** A read receipt names the message whose UUID its bytes 2 to 38 are. */
  lemma ReceiptIsShown<J>(
      ctx: Context<J>, userId: int, toId: int, commandId: int, seqNum: int,
      second: byte, uuid: Bytes, rest: Bytes, key: Bytes, filler: Bytes, link: Link)
    requires |key| >= KEY_LEN && IsUuid(uuid) && IsFiller(filler, 38 + |rest|) && |rest| + 55 <= MAX_LENGTH
    requires commandId % 0x1_0000 != 16386 && link.sessionKey == Some(key)
    ensures
      var frame := PushPacket(userId, toId, commandId, seqNum, [0x25, second] + uuid + rest, key, filler);
      && |frame| >= HEADER_LEN
      && Handled(ctx, frame, link) == Handling(AckOf(frame, link) + [ReceiptRead(uuid)], false, link)
  {
    UuidIsPlainText(uuid);
    hide PushPacket, Handled, DecodePushBody, AckOf, IsUuid, StripNulls, Trim;
    var body := [0x25, second] + uuid + rest;
    EncryptedPushIsDispatched(ctx, userId, toId, commandId, seqNum, body, key, filler, link);
    assert body[2..38] == uuid;
    ReceiptIgnoresTrailer(ctx.lib, body);
  }

  /** A compressed push is acknowledged and what its text parses to is handed on with the frame's header. */
  lemma CompressedPushIsDelivered<J>(
      ctx: Context<J>, userId: int, toId: int, commandId: int, seqNum: int,
      body: Bytes, key: Bytes, filler: Bytes, link: Link, text: Bytes)
    requires |key| >= KEY_LEN && IsFiller(filler, |body|) && |body| + 17 <= MAX_LENGTH
    requires body != [] && body[0] == 0x78 && ctx.lib.unzip(body + Zeros(7)) == Some(text) && IsText(text, 0x7B)
    requires commandId % 0x1_0000 != 16386 && link.sessionKey == Some(key)
    ensures
      var frame := PushPacket(userId, toId, commandId, seqNum, body, key, filler);
      && |frame| >= HEADER_LEN && Handled(ctx, frame, link) == Delivery(ctx.lib, frame, TrimEnd(text), link)
  {
    hide PushPacket, Handled, DecodePushBody, Ack, ParseHeader, TrimEnd;
    EncryptedPushIsDispatched(ctx, userId, toId, commandId, seqNum, body, key, filler, link);
    CompressedBodyIsInflated(ctx.lib, body + Zeros(7));
  }

  // ---- Acknowledgements

  lemma MessageAckIsHandled<J>(ctx: Context<J>, frame: Bytes, h: Header, payload: Bytes, view: MessageAck, link: Link)
    requires |frame| >= HEADER_LEN && ParseHeader(frame) == Some(h) && h.packetType == 0xF2 && h.cmdId == 16386
    requires CopyPayload(frame, PayloadLen(h, frame)) == Some(payload) && AckView(ctx.lib, payload) == Some(view)
    ensures Handled(ctx, frame, link) == Handling(AckOf(frame, link) + [Acknowledged(view)], false, link)
  {
    hide Ack, AckView, LivePush, TypingStatus, ParseHeader, CopyPayload, ToInt;
  }

  /** A readable acknowledgement of a sent message is shown, and the frame is itself acknowledged. */
  lemma MessageAckIsShown<J>(
      ctx: Context<J>, userId: int, toId: int, seqNum: int, body: Bytes, view: MessageAck, link: Link)
    requires |body| <= MAX_LENGTH && AckView(ctx.lib, body) == Some(view)
    ensures
      var frame := Packet(userId, toId, 16386, 0xF2, seqNum, body);
      |frame| >= HEADER_LEN && Handled(ctx, frame, link) == Handling(AckOf(frame, link) + [Acknowledged(view)], false, link)
  {
    hide AckView, AckOf, ParseHeader, CopyPayload, PayloadLen, Packet, Handled;
    PacketIsOpened(userId, toId, 16386, 0xF2, seqNum, body);
    var frame := Packet(userId, toId, 16386, 0xF2, seqNum, body);
    MessageAckIsHandled(ctx, frame, ParseHeader(frame).value, body, view, link);
  }

  /** From the wire: the id, sequence and prefix that were sent are those shown. */
  lemma SentAckIsShown<J>(
      ctx: Context<J>, userId: int, toId: int, seqNum: int, prefix: byte, uuid: Bytes, sequence: int, link: Link)
    requires IsUuid(uuid) && -0x8000_0000_0000_0000 <= sequence < 0x8000_0000_0000_0000
    ensures
      var frame := Packet(userId, toId, 16386, 0xF2, seqNum, AckBody(true, prefix, uuid, [0] + LittleEndian(sequence, 8)));
      && |frame| >= HEADER_LEN
      && Handled(ctx, frame, link) ==
           Handling(AckOf(frame, link) + [Acknowledged(MessageAck(uuid, sequence, ToInt(prefix)))], false, link)
  {
    AckLength(prefix, uuid, sequence);
    hide AckBody, AckView, AckOf, ToInt, IsUuid, Packet, LittleEndian, Handled;
    AckWithZeroByte(ctx.lib, true, prefix, uuid, sequence);
    MessageAckIsShown(ctx, userId, toId, seqNum, AckBody(true, prefix, uuid, [0] + LittleEndian(sequence, 8)),
                      MessageAck(uuid, sequence, ToInt(prefix)), link);
  }

  lemma AckLength(prefix: byte, uuid: Bytes, sequence: int)
    requires IsUuid(uuid)
    ensures |AckBody(true, prefix, uuid, [0] + LittleEndian(sequence, 8))| == 48
  {
  }

  // ---- Typing

  /** The status is the third 16-bit half of the body: 1 for typing; a body too short to hold it counts as typing. */
  lemma TypingIsRead<J>(lib: Library<J>, front: Bytes, flag: int, rest: Bytes, sessionKey: Option<Bytes>)
    requires |front| == 4 && front[0] != 0x78
    ensures TypingStatus(lib, front + LittleEndian(flag, 2) + rest, sessionKey, 0) <==> flag % 0x1_0000 == 1
  {
    hide ToInt, ToByte, LittleEndian;
    var body := front + LittleEndian(flag, 2) + rest;
    assert body[4] == LittleEndian(flag, 2)[0] && body[5] == LittleEndian(flag, 2)[1];
    TwoBytes(flag);
  }

  lemma TwoBytes(n: int)
    ensures ToInt(LittleEndian(n, 2)[0]) + 256 * ToInt(LittleEndian(n, 2)[1]) == n % 0x1_0000
  {
    hide ToInt, ToByte;
    LittleEndianRoundTrip(n, 2);
    FieldWidths();
    var s := LittleEndian(n, 2);
    assert Unsigned(s[1..]) == ToInt(s[1]) + 256 * Unsigned(s[1..][1..]);
  }

  /** A compressed body is inflated first; one that does not inflate is read as it stands. */
  lemma CompressedTypingIsRead<J>(lib: Library<J>, body: Bytes, sessionKey: Option<Bytes>)
    requires |body| >= 6 && body[0] == 0x78
    ensures
      var status := if lib.unzip(body).Some? then lib.unzip(body).value else body;
      |status| >= 6 ==> (TypingStatus(lib, body, sessionKey, 0) <==> ToInt(status[4]) + 256 * ToInt(status[5]) == 1)
  {
    hide ToInt;
  }

  lemma ShortTypingIsTyping<J>(lib: Library<J>, payload: Bytes, sessionKey: Option<Bytes>)
    requires |payload| < 6 && (payload != [] ==> payload[0] != 0x78)
    ensures TypingStatus(lib, payload, sessionKey, 0)
  {
  }

  lemma DecryptedTyping<J>(lib: Library<J>, c: Bytes, key: Bytes, d: Bytes)
    requires c != [] && QqTeaCipher.Decryption(c, key) == QqTeaCipher.Answer(d) && |d| >= 6 && d[0] != 0x78
    ensures TypingStatus(lib, c, Some(key), 1) <==> ToInt(d[4]) + 256 * ToInt(d[5]) == 1
  {
    hide QqTeaCipher.Decryption, ToInt;
  }

  /** Encrypted, the status is read from the decrypted body; one too short is filled up by the trailer, and is not typing. */
  lemma EncryptedTypingIsRead<J>(lib: Library<J>, body: Bytes, key: Bytes, filler: Bytes)
    requires |key| >= KEY_LEN && IsFiller(filler, |body|) && (body + Zeros(7))[0] != 0x78
    ensures
      var c, status := QqTeaCipher.Encryption(body, key, filler).bytes, body + Zeros(7);
      TypingStatus(lib, c, Some(key), 1) <==> ToInt(status[4]) + 256 * ToInt(status[5]) == 1
    ensures |body| <= 4 ==> !TypingStatus(lib, QqTeaCipher.Encryption(body, key, filler).bytes, Some(key), 1)
  {
    CipherLength(body, key, filler);
    ZeroByte();
    hide QqTeaCipher.Encryption, QqTeaCipher.Decryption, ToInt, TypingStatus;
    QqTeaCipher.RoundTrip(body, key, filler);
    DecryptedTyping(lib, QqTeaCipher.Encryption(body, key, filler).bytes, key, body + Zeros(7));
  }

  lemma TypingIsHandled<J>(ctx: Context<J>, frame: Bytes, h: Header, payload: Bytes, link: Link)
    requires |frame| >= HEADER_LEN && ParseHeader(frame) == Some(h) && h.packetType == 0xF5 && h.cmdId == 16407
    requires CopyPayload(frame, PayloadLen(h, frame)) == Some(payload)
    ensures Handled(ctx, frame, link) ==
            Handling([TypingShown(h.fromId, TypingStatus(ctx.lib, payload, link.sessionKey, h.keyType))], false, link)
  {
    hide Ack, AckView, LivePush, TypingStatus, ParseHeader, CopyPayload, ToInt;
  }

  /** A typing frame shows its sender as typing or not. */
  lemma TypingIsShown<J>(
      ctx: Context<J>, userId: int, toId: int, seqNum: int, front: Bytes, flag: int, rest: Bytes, link: Link)
    requires |front| == 4 && front[0] != 0x78 && |rest| + 6 <= MAX_LENGTH
    ensures
      var frame := Packet(userId, toId, 16407, 0xF5, seqNum, front + LittleEndian(flag, 2) + rest);
      Handled(ctx, frame, link) == Handling([TypingShown(userId % 0x1_0000_0000, flag % 0x1_0000 == 1)], false, link)
  {
    hide ParseHeader, CopyPayload, PayloadLen, Packet, LittleEndian, TypingStatus, Handled, ToInt, ToByte;
    TypingIsRead(ctx.lib, front, flag, rest, link.sessionKey);
    TypingBodyIsShown(ctx, userId, toId, seqNum, front + LittleEndian(flag, 2) + rest, link);
  }

  lemma TypingBodyIsShown<J>(ctx: Context<J>, userId: int, toId: int, seqNum: int, body: Bytes, link: Link)
    requires |body| <= MAX_LENGTH
    ensures Handled(ctx, Packet(userId, toId, 16407, 0xF5, seqNum, body), link) ==
            Handling([TypingShown(userId % 0x1_0000_0000, TypingStatus(ctx.lib, body, link.sessionKey, 0))], false, link)
  {
    hide ParseHeader, CopyPayload, PayloadLen, Packet, TypingStatus, Handled;
    PacketIsOpened(userId, toId, 16407, 0xF5, seqNum, body);
    var frame := Packet(userId, toId, 16407, 0xF5, seqNum, body);
    TypingIsHandled(ctx, frame, ParseHeader(frame).value, body, link);
  }

  // ---- Responses

  lemma ResponseIsParsed<J>(ctx: Context<J>, text: Bytes)
    requires IsText(text, 0x7B)
    ensures DecodeF1(ctx.lib, text) == ctx.lib.parse(TrimEnd(text))
  {
    hide StripNulls, Trim, TrimEnd;
    TextIsTrimmed(text);
  }

  /** A compressed response is what its inflated text parses to, and nothing when it does not inflate. */
  lemma CompressedResponseIsParsed<J>(lib: Library<J>, data: Bytes)
    requires data != [] && data[0] == 0x78
    ensures lib.unzip(data).None? ==> DecodeF1(lib, data) == None
    ensures lib.unzip(data).Some? && IsText(lib.unzip(data).value, 0x7B) ==>
              DecodeF1(lib, data) == lib.parse(TrimEnd(lib.unzip(data).value))
  {
    hide StripNulls, Trim, TrimEnd;
    if lib.unzip(data).Some? && IsText(lib.unzip(data).value, 0x7B) {
      TextIsTrimmed(lib.unzip(data).value);
    }
  }

  lemma ParsedResponseIsHandled<J>(ctx: Context<J>, frame: Bytes, h: Header, text: Bytes, root: J, link: Link)
    requires |frame| >= HEADER_LEN && ParseHeader(frame) == Some(h) && h.packetType == 0xF1 && h.cmdId !in {16386, 0x9002}
    requires CopyPayload(frame, PayloadLen(h, frame)) == Some(text) && DecodeF1(ctx.lib, text) == Some(root)
    ensures Handled(ctx, frame, link) ==
            if h.cmdId in {16454, 29968} then Handling(ListHandled(ctx, h.cmdId, root, link), false, link)
            else LoginHandled(ctx, root, link)
  {
    hide Ack, AckView, LivePush, TypingStatus, ParseHeader, CopyPayload, ToInt, DecodeF1, ListHandled, LoginHandled;
  }

  lemma ResponseIsHandled<J>(
      ctx: Context<J>, userId: int, toId: int, commandId: int, seqNum: int, text: Bytes, root: J, link: Link)
    requires IsText(text, 0x7B) && |text| <= MAX_LENGTH && ctx.lib.parse(TrimEnd(text)) == Some(root)
    requires commandId % 0x1_0000 !in {16386, 0x9002}
    ensures
      Handled(ctx, Packet(userId, toId, commandId, 0xF1, seqNum, text), link) ==
        if commandId % 0x1_0000 in {16454, 29968}
        then Handling(ListHandled(ctx, commandId % 0x1_0000, root, link), false, link)
        else LoginHandled(ctx, root, link)
  {
    ResponseIsParsed(ctx, text);
    hide ParseHeader, CopyPayload, PayloadLen, Packet, DecodeF1, ListHandled, LoginHandled, TrimEnd, IsText, Handled;
    PacketIsOpened(userId, toId, commandId, 0xF1, seqNum, text);
    var frame := Packet(userId, toId, commandId, 0xF1, seqNum, text);
    ParsedResponseIsHandled(ctx, frame, ParseHeader(frame).value, text, root, link);
  }

  /** A page of missed messages is dispatched, and while connected the next one is asked for: offline with 16453, group with 29967. */
  lemma PageIsHandled<J>(
      ctx: Context<J>, userId: int, toId: int, commandId: int, seqNum: int, text: Bytes, root: J,
      raws: seq<Option<Bytes>>, lastId: int, link: Link)
    requires IsText(text, 0x7B) && |text| <= MAX_LENGTH && ctx.lib.parse(TrimEnd(text)) == Some(root)
    requires commandId in {16454, 29968} && ctx.packets(root, commandId) == Some(Packets(raws, Some(lastId)))
    ensures
      var next := if commandId == 16454 then SyncRequested(lastId, 16453, 0xF2) else SyncRequested(lastId, 29967, 0xF0);
      Handled(ctx, Packet(userId, toId, commandId, 0xF1, seqNum, text), link) ==
        Handling(Replayed(ctx.lib, raws, link) + (if link.connected then [next] else []), false, link)
  {
    hide Handled, Packet, Replayed, LoginHandled, TrimEnd;
    ResponseIsHandled(ctx, userId, toId, commandId, seqNum, text, root, link);
  }

  /** A login's session key is kept, the session is shown and kept alive, and what was missed is asked for in both forms. */
  lemma SessionStarts<J>(
      ctx: Context<J>, userId: int, toId: int, commandId: int, seqNum: int, text: Bytes, root: J, key: Bytes, link: Link)
    requires IsText(text, 0x7B) && |text| <= MAX_LENGTH && ctx.lib.parse(TrimEnd(text)) == Some(root)
    requires commandId % 0x1_0000 !in {16386, 0x9002, 16454, 29968} && ctx.login(root) == SessionKey(key)
    requires link.connected && !link.pumpShut
    ensures Handled(ctx, Packet(userId, toId, commandId, 0xF1, seqNum, text), link) ==
            Handling([ConnectedShown, HeartbeatStarted, SyncRequested(0, 29967, 0xF0), SyncRequested(0, 16453, 0xF2)],
                     false, Link(Some(key), true, false))
  {
    hide Handled, Packet, ListHandled, TrimEnd;
    ResponseIsHandled(ctx, userId, toId, commandId, seqNum, text, root, link);
  }

  /** A refused login is shown and the connector closed, unless a mismatched session can log in again. */
  lemma LoginIsRefused<J>(
      ctx: Context<J>, userId: int, toId: int, commandId: int, seqNum: int, text: Bytes, root: J, link: Link)
    requires IsText(text, 0x7B) && |text| <= MAX_LENGTH && ctx.lib.parse(TrimEnd(text)) == Some(root)
    requires commandId % 0x1_0000 !in {16386, 0x9002, 16454, 29968} && (ctx.login(root).Banned? || ctx.login(root).Mismatched?)
    ensures
      var r := Handled(ctx, Packet(userId, toId, commandId, 0xF1, seqNum, text), link);
      var again := ctx.login(root).Mismatched? && ctx.relogins;
      && r.effects == [AccountShown(if ctx.login(root).Banned? then "banned" else "session_mismatch"),
                       if again then ReloginStarted else Closing]
      && r.link == (if again then link else Link(link.sessionKey, false, true)) && !r.threw
  {
    hide Handled, Packet, ListHandled, TrimEnd;
    ResponseIsHandled(ctx, userId, toId, commandId, seqNum, text, root, link);
  }

  /** The packets of a list are dispatched in order, whatever came before them. */
  lemma {:induction false} ReplayedConcat<J>(lib: Library<J>, a: seq<Option<Bytes>>, b: seq<Option<Bytes>>, link: Link)
    ensures Replayed(lib, a + b, link) == Replayed(lib, a, link) + Replayed(lib, b, link)
    decreases |b|
  {
    hide Replay, DispatchPush;
    if b == [] {
      assert a + b == a;
    } else {
      var n := |b| - 1;
      ReplayedConcat(lib, a, b[..n], link);
      assert (a + b)[..|a + b| - 1] == a + b[..n];
    }
  }

  /** A pong, and a frame of a type with no handler, have no effect. */
  lemma OthersAreIgnored<J>(
      ctx: Context<J>, userId: int, toId: int, commandId: int, flag: int, seqNum: int, payload: Bytes, link: Link)
    requires |payload| <= MAX_LENGTH && commandId % 0x1_0000 != 16386
    requires (flag % 0x100 == 0xF1 && commandId % 0x1_0000 == 0x9002) || flag % 0x100 !in {0xF1, 0xF2, 0xF5}
             || (flag % 0x100 == 0xF5 && commandId % 0x1_0000 != 16407)
    ensures Handled(ctx, Packet(userId, toId, commandId, flag, seqNum, payload), link) == Handling([], false, link)
  {
    hide AckView, LivePush, TypingStatus, ParseHeader, CopyPayload, Ack, HeaderBytes, ResponseHandled;
    PacketIsOpened(userId, toId, commandId, flag, seqNum, payload);
  }

  // ---- Bytes on the wire

  /** A built packet, byte by byte where the fields are single bytes: type, version 4, key type 0, 1. */
  lemma PacketBytes(userId: int, toId: int, commandId: int, flag: int, seqNum: int, payload: Bytes)
    requires |payload| <= MAX_LENGTH
    ensures
      var p := Packet(userId, toId, commandId, flag, seqNum, payload);
      && |p| == 20 + |payload| && p[20..] == payload
      && ToInt(p[0]) == flag % 0x100 && p[1] == 4 && p[2] == 0 && p[3] == 1
      && Unsigned(p[4..6]) == commandId % 0x1_0000 && Unsigned(p[6..8]) == seqNum % 0x1_0000
      && Unsigned(p[8..12]) == userId % 0x1_0000_0000 && Unsigned(p[12..16]) == toId % 0x1_0000_0000
      && Unsigned(p[16..20]) == |payload|
  {
    hide LittleEndian, ToByte, ToInt, Unsigned;
    FieldsOfHeader(
      [ToByte(flag), 4, 0, 1], LittleEndian(commandId, 2), LittleEndian(seqNum, 2),
      LittleEndian(userId, 4), LittleEndian(toId, 4), LittleEndian(|payload|, 4), payload);
    var p := Packet(userId, toId, commandId, flag, seqNum, payload);
    assert p[..4] == [ToByte(flag), 4, 0, 1];
    FourBytes(p, flag);
    IntRoundTrip(flag);
    LittleEndianRoundTrip(commandId, 2);
    LittleEndianRoundTrip(seqNum, 2);
    LittleEndianRoundTrip(userId, 4);
    LittleEndianRoundTrip(toId, 4);
    LittleEndianRoundTrip(|payload|, 4);
    FieldWidths();
  }

  lemma FourBytes(p: Bytes, flag: int)
    requires |p| >= 4 && p[..4] == [ToByte(flag), 4, 0, 1]
    ensures p[0] == ToByte(flag) && p[1] == 4 && p[2] == 0 && p[3] == 1
  {
    hide ToByte;
    assert p[0] == p[..4][0] && p[1] == p[..4][1] && p[2] == p[..4][2] && p[3] == p[..4][3];
  }

  /** The ack of a frame: type 0xF3 with the same single bytes, the next command, and bytes 6 to 16 copied. */
  lemma AckBytes(inbound: Bytes)
    requires |inbound| >= 20
    ensures
      var p := Ack(inbound);
      && |p| == 20 && ToInt(p[0]) == 0xF3 && p[1] == 4 && p[2] == 0 && p[3] == 1
      && Unsigned(p[4..6]) == (Unsigned(inbound[4..6]) + 1) % 0x1_0000
      && p[6..16] == inbound[6..16] && Unsigned(p[16..20]) == 0
  {
    hide LittleEndian, ToByte, ToInt, Unsigned;
    var p, c := Ack(inbound), LittleEndian(Unsigned(inbound[4..6]) + 1, 2);
    assert p == [ToByte(PKT_ACK), 4, 0, 1] + c + inbound[6..16] + LittleEndian(0, 4);
    assert p[..4] == [ToByte(PKT_ACK), 4, 0, 1] && p[4..6] == c && p[6..16] == inbound[6..16] && p[16..20] == LittleEndian(0, 4);
    FourBytes(p, PKT_ACK);
    IntRoundTrip(PKT_ACK);
    LittleEndianRoundTrip(Unsigned(inbound[4..6]) + 1, 2);
    LittleEndianRoundTrip(0, 4);
    FieldWidths();
  }

  // ---- Responses without an effect

  /** A response that is not an object, or that the parser refuses, has none. */
  lemma UnreadableResponseIsIgnored<J>(
      ctx: Context<J>, userId: int, toId: int, commandId: int, seqNum: int, text: Bytes, link: Link)
    requires text != [] && text[0] > 0x20 && text[0] != 0x78 && 0 !in text && |text| <= MAX_LENGTH
    requires text[0] != 0x7B || ctx.lib.parse(TrimEnd(text)) == None
    requires commandId % 0x1_0000 != 16386
    ensures Handled(ctx, Packet(userId, toId, commandId, 0xF1, seqNum, text), link) == Handling([], false, link)
  {
    TextIsNotParsed(ctx.lib, text);
    hide Packet, DecodeF1, TrimEnd, Handled;
    UnparsedPacketIsIgnored(ctx, userId, toId, commandId, seqNum, text, link);
  }

  lemma UnparsedPacketIsIgnored<J>(
      ctx: Context<J>, userId: int, toId: int, commandId: int, seqNum: int, text: Bytes, link: Link)
    requires |text| <= MAX_LENGTH && commandId % 0x1_0000 != 16386 && DecodeF1(ctx.lib, text) == None
    ensures Handled(ctx, Packet(userId, toId, commandId, 0xF1, seqNum, text), link) == Handling([], false, link)
  {
    hide ParseHeader, CopyPayload, PayloadLen, Packet, DecodeF1, Handled;
    PacketIsOpened(userId, toId, commandId, 0xF1, seqNum, text);
    var frame := Packet(userId, toId, commandId, 0xF1, seqNum, text);
    UnparsedResponseIsIgnored(ctx, frame, ParseHeader(frame).value, text, link);
  }

  lemma TextIsNotParsed<J>(lib: Library<J>, text: Bytes)
    requires text != [] && text[0] > 0x20 && text[0] != 0x78 && 0 !in text
    requires text[0] != 0x7B || lib.parse(TrimEnd(text)) == None
    ensures DecodeF1(lib, text) == None
  {
    hide StripNulls, Trim, TrimEnd;
    TextIsTrimmed(text);
  }

  lemma UnparsedResponseIsIgnored<J>(ctx: Context<J>, frame: Bytes, h: Header, text: Bytes, link: Link)
    requires |frame| >= HEADER_LEN && ParseHeader(frame) == Some(h) && h.packetType == 0xF1 && h.cmdId != 16386
    requires CopyPayload(frame, PayloadLen(h, frame)) == Some(text) && DecodeF1(ctx.lib, text) == None
    ensures Handled(ctx, frame, link) == Handling([], false, link)
  {
    hide Ack, AckView, LivePush, TypingStatus, ParseHeader, CopyPayload, ToInt, DecodeF1;
  }

  /** One that is read but holds no list, or no session and no refusal, has none either; a last page asks for no other. */
  lemma EmptyResponseIsIgnored<J>(
      ctx: Context<J>, userId: int, toId: int, commandId: int, seqNum: int, text: Bytes, root: J, link: Link)
    requires IsText(text, 0x7B) && |text| <= MAX_LENGTH && ctx.lib.parse(TrimEnd(text)) == Some(root)
    requires commandId % 0x1_0000 !in {16386, 0x9002}
    requires if commandId % 0x1_0000 in {16454, 29968}
             then ctx.packets(root, commandId % 0x1_0000) in {None, Some(Packets([], None))}
             else ctx.login(root).NoSession?
    ensures Handled(ctx, Packet(userId, toId, commandId, 0xF1, seqNum, text), link) == Handling([], false, link)
  {
    hide Handled, Packet, TrimEnd;
    ResponseIsHandled(ctx, userId, toId, commandId, seqNum, text, root, link);
  }
}
