/** `HtImUpstreamConnector`: the connector's methods, and runs of inbound frames. */
module HtImConnector {
  import opened Wrappers
  import opened ByteStrings
  import opened AsciiText
  import opened HtImPacketFramer
  import opened HtImFrameDecoder
  import opened HtImDispatch
  import opened HtImReassembly
  import opened TeaChain
  import opened TeaPadding
  import QqTeaCipher

  class ImConnector<J> {
    const ctx: Context<J>
    var sessionKey: Option<Bytes>
    var connected: bool
    /** Whether the heartbeat's scheduler was shut down. */
    var pumpShut: bool
    var binaryBuf: Bytes
    var effects: seq<Effect<J>>
    /** The frames handed to `HandlePacket` so far. */
    ghost var handled: seq<Bytes>

    function View(): Link
      reads this
    {
      Link(sessionKey, connected, pumpShut)
    }

    constructor (ctx: Context<J>)
      ensures this.ctx == ctx && View() == Link(None, false, false) && binaryBuf == [] && effects == [] && handled == []
    {
      this.ctx := ctx;
      sessionKey, connected, pumpShut := None, false, false;
      binaryBuf := [];
      effects := [];
      handled := [];
    }

    /** The socket of a connection attempt that was not closed meanwhile. */
    method OnOpen()
      modifies this`connected
      ensures View() == old(View()).(connected := true)
    {
      connected := true;
    }

    method OnClose()
      modifies this`connected
      ensures View() == old(View()).(connected := false)
    {
      connected := false;
    }

    method Do(e: Effect<J>)
      modifies this`effects
      ensures effects == old(effects) + [e]
    {
      effects := effects + [e];
    }

    /** `sendBinary` */
    method Send(e: Effect<J>)
      modifies this`effects
      ensures effects == old(effects) + SendIf(connected, e)
    {
      if !connected {
        return;
      }
      Do(e);
    }

    method Close()
      modifies this`connected, this`pumpShut, this`effects
      ensures View() == ClosedLink(old(View())) && effects == old(effects) + [Closing]
    {
      connected := false;
      pumpShut := true;
      Do(Closing);
    }

    // ---- Pushes

    method DecodeTypingStatus(payload: Bytes, keyType: nat) returns (isTyping: bool)
      ensures isTyping == TypingStatus(ctx.lib, payload, sessionKey, keyType)
    {
      hide ToInt, DeclaredHeaderLen, ReadKeyWords, DecryptedBytes;
      var body := payload;
      if keyType == 1 && sessionKey.Some? && |payload| > 0 {
        var dec := QqTeaCipher.Decrypt(payload, sessionKey.value);
        if dec.Answer? {
          body := dec.bytes;
        }
      }
      if |body| > 0 && body[0] == ZLIB {
        var inflated := Inflate(ctx.lib, body);
        if inflated.Some? {
          body := inflated.value;
        }
      }
      if |body| >= 6 {
        return ToInt(body[4]) + 256 * ToInt(body[5]) == 1;
      }
      isTyping := true;
    }

    method Dispatch(push: F2Push<J>, h: Header)
      modifies this`effects
      ensures effects == old(effects) + DispatchPush(push, h, connected)
    {
      match push {
        case Receipt(msgId) => Do(ReceiptRead(msgId));
        case Poke => Send(SyncRequested(0, CMD_OFFLINE_SYNC, 0xF0));
        case Json(root) => Do(PushMapped(root, h));
        case _ =>
      }
    }

    // ---- Responses

    method HandleLogin(root: J) returns (threw: bool)
      modifies this`sessionKey, this`connected, this`pumpShut, this`effects
      ensures var r := LoginHandled(ctx, root, old(View()));
              effects == old(effects) + r.effects && threw == r.threw && View() == r.link
    {
      threw := false;
      match ctx.login(root) {
        case Banned =>
          Do(AccountShown("banned"));
          Close();
        case Mismatched =>
          Do(AccountShown("session_mismatch"));
          if ctx.relogins {
            Do(ReloginStarted);
          } else {
            Close();
          }
        case SessionKey(key) =>
          sessionKey := Some(key);
          Do(ConnectedShown);
          if pumpShut {
            return true;
          }
          Do(HeartbeatStarted);
          Send(SyncRequested(0, CMD_OFFLINE_SYNC, 0xF0));
          Send(SyncRequested(0, CMD_OFFLINE_SYNC_PAGE, 0xF2));
        case NoSession =>
      }
    }

    /** `handleOfflineResponse` and `handleGroupResponse` */
    method HandleList(cmdId: nat, root: J)
      modifies this`effects
      ensures effects == old(effects) + ListHandled(ctx, cmdId, root, View())
    {
      hide Replay, DispatchPush;
      var packets := ctx.packets(root, cmdId);
      if packets.None? {
        return;
      }
      var raws := packets.value.raws;
      for i := 0 to |raws|
        invariant effects == old(effects) + Replayed(ctx.lib, raws[..i], View())
      {
        assert raws[..i + 1][..i] == raws[..i];
        var packet := DecodeOfflinePacket(ctx.lib, raws[i], sessionKey);
        if packet.Some? {
          Dispatch(packet.value.body, packet.value.header);
        }
      }
      assert raws[..|raws|] == raws;
      if packets.value.more.Some? {
        Send(NextPage(cmdId, packets.value.more.value));
      }
    }

    method HandleResponse(cmdId: nat, payload: Bytes) returns (threw: bool)
      modifies this`sessionKey, this`connected, this`pumpShut, this`effects
      ensures var r := ResponseHandled(ctx, cmdId, payload, old(View()));
              effects == old(effects) + r.effects && threw == r.threw && View() == r.link
    {
      hide LoginHandled, ListHandled, DecodeF1;
      threw := false;
      var root := DecodeF1(ctx.lib, payload);
      if root.Some? {
        if IsListResponse(cmdId) {
          HandleList(cmdId, root.value);
        } else {
          threw := HandleLogin(root.value);
        }
      }
    }

    // ---- Packets

    method HandleMsgAck(payload: Bytes)
      modifies this`effects
      ensures effects == old(effects) + AckHandled(ctx.lib, payload)
    {
      hide AckView;
      var view := DecodeMsgAck(ctx.lib, payload);
      if view.Some? {
        Do(Acknowledged(view.value));
      }
    }

    /** Message acknowledgements are recognised before the packet type is looked at. */
    method HandlePacket(data: Bytes) returns (threw: bool)
      modifies this`sessionKey, this`connected, this`pumpShut, this`effects
      ensures var r := Handled(ctx, data, old(View()));
              effects == old(effects) + r.effects && threw == r.threw && View() == r.link
    {
      hide AckHandled, LivePush, TypingStatus, Ack, Signed, Unsigned, ToInt, DispatchPush, ResponseHandled;
      threw := false;
      var parsed := ParseHeader(data);
      if parsed.None? {
        return;
      }
      var h := parsed.value;
      var payloadLen := PayloadLen(h, data);
      var payload := CopyPayload(data, payloadLen);
      if h.cmdId == CMD_MSG_ACK {
        if h.packetType == PKT_PUSH {
          Send(AckSent(Ack(data)));
        }
        if payload.None? {
          return true;
        }
        HandleMsgAck(payload.value);
      } else if h.packetType == PKT_PUSH {
        Send(AckSent(Ack(data)));
        var push := DecodeF2(ctx.lib, data, payloadLen, sessionKey);
        if push.None? {
          return true;
        }
        Dispatch(push.value, h);
      } else if h.packetType == PKT_TYPING && h.cmdId == CMD_TYPING {
        if payload.None? {
          return true;
        }
        var isTyping := DecodeTypingStatus(payload.value, h.keyType);
        Do(TypingShown(h.fromId, isTyping));
      } else if h.packetType == PKT_RESPONSE && h.cmdId != CMD_PONG {
        if payload.None? {
          return true;
        }
        threw := HandleResponse(h.cmdId, payload.value);
      }
    }

    /** One call of the socket listener. */
    method OnBinary(data: Bytes, last: bool) returns (threw: bool)
      modifies this`binaryBuf, this`handled, this`sessionKey, this`connected, this`pumpShut, this`effects
      ensures binaryBuf == OnChunk(old(binaryBuf), Chunk(data, last)).0
      ensures handled == old(handled) + OnChunk(old(binaryBuf), Chunk(data, last)).1
      ensures !last ==> effects == old(effects) && View() == old(View()) && !threw
      ensures last ==> var r := Handled(ctx, old(binaryBuf) + data, old(View()));
                       effects == old(effects) + r.effects && threw == r.threw && View() == r.link
    {
      hide Handled;
      binaryBuf := binaryBuf + data;
      threw := false;
      if last {
        var frame := binaryBuf;
        binaryBuf := [];
        handled := handled + [frame];
        threw := HandlePacket(frame);
      }
    }
  }

  // ---- Acknowledgements over a run

  /** The effects of handling frames one after another, each with the fields it finds; other callers may change them in between. */
  ghost function HandledAll<J>(ctx: Context<J>, frames: seq<Bytes>, links: seq<Link>): seq<Effect<J>>
    requires |links| == |frames|
  {
    if frames == [] then []
    else Handled(ctx, frames[0], links[0]).effects + HandledAll(ctx, frames[1..], links[1..])
  }

  ghost function AcksDue(frames: seq<Bytes>, links: seq<Link>): seq<Bytes>
    requires |links| == |frames|
  {
    if frames == [] then []
    else (if IsPush(frames[0]) && links[0].connected then [Ack(frames[0])] else []) + AcksDue(frames[1..], links[1..])
  }

  /** Whatever arrives in whatever chunks, the acks sent are those of the original pushes met while connected, in their order. */
  lemma {:induction false} AcksOfRun<J>(ctx: Context<J>, frames: seq<Bytes>, cuts: seq<seq<Chunk>>, links: seq<Link>)
    requires AreCutsOf(cuts, frames) && |links| == |frames|
    ensures Reassembled([], Joined(cuts)).1 == frames
    ensures Acks(HandledAll(ctx, frames, links)) == AcksDue(frames, links)
  {
    hide Handled, Ack;
    ReassemblyIsExact(frames, cuts);
    if frames != [] {
      assert AreCutsOf(cuts[1..], frames[1..]);
      AcksOfRun(ctx, frames[1..], cuts[1..], links[1..]);
      OneAckPerPush(ctx, frames[0], links[0]);
      AcksConcat(Handled(ctx, frames[0], links[0]).effects, HandledAll(ctx, frames[1..], links[1..]));
    }
  }

  // ---- The whole path of a push

  ghost function PushPacket(
      userId: int, toId: int, commandId: int, seqNum: int, body: Bytes, key: Bytes, filler: Bytes): Bytes
    requires |key| >= KEY_LEN && IsFiller(filler, |body|)
  {
    Packet(userId, toId, commandId, PKT_PUSH, seqNum, QqTeaCipher.Encryption(body, key, filler).bytes)
  }

  /** Acknowledge the frame while connected, then hand on what the parser makes of the text, if anything. */
  ghost function Delivery<J>(lib: Library<J>, frame: Bytes, text: Bytes, link: Link): Handling<J>
    requires |frame| >= HEADER_LEN
  {
    var h := ParseHeader(frame).value;
    var handedOn := match lib.parse(text) { case Some(root) => [PushMapped(root, h)] case None => [] };
    Handling(SendIf(link.connected, AckSent(Ack(frame))) + handedOn, false, link)
  }

  /** A frame whose live push is an object's text is acknowledged and its parse handed on. */
  lemma ObjectIsHandedOn<J>(ctx: Context<J>, frame: Bytes, h: Header, link: Link, text: Bytes)
    requires |frame| >= HEADER_LEN && ParseHeader(frame) == Some(h)
    requires h.packetType == PKT_PUSH && h.cmdId != CMD_MSG_ACK
    requires LivePush(ctx.lib, frame, PayloadLen(h, frame), link.sessionKey) == Some(ParseObject(ctx.lib, text))
    requires StartsWith(text, BRACE)
    ensures Handled(ctx, frame, link) == Delivery(ctx.lib, frame, text, link)
  {
    hide Ack, AckView, LivePush, TypingStatus, ParseHeader, CopyPayload, ToInt;
  }

  lemma CipherLength(body: Bytes, key: Bytes, filler: Bytes)
    requires |key| >= KEY_LEN && IsFiller(filler, |body|)
    ensures QqTeaCipher.Encryption(body, key, filler).Answer?
    ensures |body| + 10 <= |QqTeaCipher.Encryption(body, key, filler).bytes| < |body| + 18
  {
    PaddedLength(body, filler);
  }

  /** The header of such a frame, which the payload fills exactly. */
  lemma PushHeader(
      userId: int, toId: int, commandId: int, seqNum: int, body: Bytes, key: Bytes, filler: Bytes)
    requires |key| >= KEY_LEN && IsFiller(filler, |body|) && |body| + 17 <= MAX_LENGTH
    ensures
      var frame := PushPacket(userId, toId, commandId, seqNum, body, key, filler);
      var h := ParseHeader(frame);
      && |frame| >= HEADER_LEN && h.Some? && h.value.packetType == PKT_PUSH && h.value.cmdId == commandId % 0x1_0000
      && PayloadLen(h.value, frame) == |QqTeaCipher.Encryption(body, key, filler).bytes|
  {
    CipherLength(body, key, filler);
    hide QqTeaCipher.Encryption, ParseHeader, CopyPayload, HeaderBytes, Padded, HeaderLen;
    ParsePacket(userId, toId, commandId, PKT_PUSH, seqNum, QqTeaCipher.Encryption(body, key, filler).bytes);
  }

  lemma PushIsLive<J>(
      lib: Library<J>, userId: int, toId: int, commandId: int, seqNum: int, body: Bytes, key: Bytes, filler: Bytes)
    requires |key| >= KEY_LEN && IsFiller(filler, |body|)
    requires StartsWith(body, BRACE) && 0 !in body
    ensures
      var c := QqTeaCipher.Encryption(body, key, filler).bytes;
      && LivePush(lib, PushPacket(userId, toId, commandId, seqNum, body, key, filler), |c|, Some(key))
         == Some(ParseObject(lib, TrimEnd(body)))
      && StartsWith(TrimEnd(body), BRACE)
  {
    hide QqTeaCipher.Encryption, LivePush, TrimEnd, HeaderBytes;
    CipherLength(body, key, filler);
    var c := QqTeaCipher.Encryption(body, key, filler).bytes;
    JsonPushSurvives(lib, HeaderBytes(PKT_PUSH, commandId, seqNum, userId, toId, |c|), body, key, filler);
  }

  lemma PushIsHandled<J>(
      ctx: Context<J>, userId: int, toId: int, commandId: int, seqNum: int,
      body: Bytes, key: Bytes, filler: Bytes, link: Link)
    requires |key| >= KEY_LEN && IsFiller(filler, |body|) && |body| + 17 <= MAX_LENGTH
    requires StartsWith(body, BRACE) && 0 !in body
    requires commandId % 0x1_0000 != CMD_MSG_ACK && link.sessionKey == Some(key)
    ensures var frame := PushPacket(userId, toId, commandId, seqNum, body, key, filler);
            Handled(ctx, frame, link) == Delivery(ctx.lib, frame, TrimEnd(body), link)
  {
    hide PushPacket, ParseHeader, PayloadLen, LivePush, Handled, Delivery, TrimEnd, QqTeaCipher.Encryption, ParseObject;
    var frame := PushPacket(userId, toId, commandId, seqNum, body, key, filler);
    PushHeader(userId, toId, commandId, seqNum, body, key, filler);
    PushIsLive(ctx.lib, userId, toId, commandId, seqNum, body, key, filler);
    ObjectIsHandedOn(ctx, frame, ParseHeader(frame).value, link, TrimEnd(body));
  }

  /**
   * From the sender's text to the receiver's parser: a JSON body encrypted, framed as a push and cut into
   * chunks in any way reaches the connector as one frame, is acknowledged once while connected, and is parsed as it was sent.
   */
  lemma PushIsDelivered<J>(
      ctx: Context<J>, userId: int, toId: int, commandId: int, seqNum: int,
      body: Bytes, key: Bytes, filler: Bytes, chunks: seq<Chunk>, link: Link)
    requires |key| >= KEY_LEN && IsFiller(filler, |body|) && |body| + 17 <= MAX_LENGTH
    requires StartsWith(body, BRACE) && 0 !in body
    requires commandId % 0x1_0000 != CMD_MSG_ACK && link.sessionKey == Some(key)
    requires IsCutOf(chunks, PushPacket(userId, toId, commandId, seqNum, body, key, filler))
    ensures var frame := PushPacket(userId, toId, commandId, seqNum, body, key, filler);
            && Reassembled([], chunks) == ([], [frame])
            && Handled(ctx, frame, link) == Delivery(ctx.lib, frame, TrimEnd(body), link)
  {
    hide PushPacket, Handled, Delivery, TrimEnd;
    var frame := PushPacket(userId, toId, commandId, seqNum, body, key, filler);
    ReassemblyIsExact([frame], [chunks]);
    assert Joined([chunks]) == chunks + Joined([]) == chunks;
    PushIsHandled(ctx, userId, toId, commandId, seqNum, body, key, filler, link);
  }
}
