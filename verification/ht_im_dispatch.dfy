/** `HtImUpstreamConnector`: what the handling of one inbound packet does. */
module HtImDispatch {
  import opened Wrappers
  import opened ByteStrings
  import opened AsciiText
  import opened HtImPacketFramer
  import opened HtImFrameDecoder
  import QqTeaCipher

  const CMD_OFFLINE_SYNC_PAGE: nat := 16453
  const CMD_OFFLINE_RESPONSE: nat := 16454
  const CMD_GROUP_RESPONSE: nat := 29968

  /** What a login response says, in the order its fields are looked at. */
  datatype Login = Banned | Mismatched | SessionKey(key: Bytes) | NoSession

  /**
   * The list in an offline or group response: each nonempty entry decoded from Base64, `None` where it is not
   * Base64, and the id to ask for the next page from, if there is one.
   */
  datatype Packets = Packets(raws: seq<Option<Bytes>>, more: Option<int>)

  /**
   * The library calls, the field lookups in a parsed response (`packets` is `None` when the list is missing), and
   * whether credentials for a new login are configured.
   */
  datatype Context<!J> = Context(
    lib: Library<J>,
    login: J -> Login,
    packets: (J, nat) -> Option<Packets>,
    relogins: bool)

  /** The connector's fields the handling depends on; `connected` implies that there is a socket. */
  datatype Link = Link(sessionKey: Option<Bytes>, connected: bool, pumpShut: bool)

  /** What handling a packet makes the connector do, in order. */
  datatype Effect<J> =
    | AckSent(packet: Bytes)
    | SyncRequested(lastId: int, cmdId: nat, flag: nat)
    | ReceiptRead(msgId: Bytes)
    | PushMapped(root: J, header: Header)
    | Acknowledged(view: MessageAck)
    | TypingShown(fromId: nat, isTyping: bool)
    | AccountShown(status: string)
    | ConnectedShown
    | HeartbeatStarted
    | ReloginStarted
    | Closing

  /** The effects and the fields at the end of the call, or at the exception that ended it. */
  datatype Handling<J> = Handling(effects: seq<Effect<J>>, threw: bool, link: Link)

  // ---- Pushes

  function PayloadLen(h: Header, data: Bytes): int
    requires |data| >= HEADER_LEN
  {
    if h.payloadLen < |data| - HEADER_LEN then h.payloadLen else |data| - HEADER_LEN
  }

  /** `sendOutbound` drops a packet while the connector does not count as connected. */
  function SendIf<J>(connected: bool, e: Effect<J>): seq<Effect<J>> { if connected then [e] else [] }

  ghost function DispatchPush<J>(push: F2Push<J>, h: Header, connected: bool): seq<Effect<J>> {
    match push
    case Receipt(msgId) => [ReceiptRead(msgId)]
    case Poke => SendIf(connected, SyncRequested(0, CMD_OFFLINE_SYNC, 0xF0))
    case Json(root) => [PushMapped(root, h)]
    case _ => []
  }

  ghost function TypingStatus<J>(lib: Library<J>, payload: Bytes, sessionKey: Option<Bytes>, keyType: nat): bool {
    var plain :=
      if keyType == 1 && sessionKey.Some? && payload != [] then
        match QqTeaCipher.Decryption(payload, sessionKey.value) { case Answer(d) => d case _ => payload }
      else payload;
    var inflated := Inflate(lib, plain);
    var body := if inflated.Some? then inflated.value else plain;
    if |body| >= 6 then ToInt(body[4]) + 256 * ToInt(body[5]) == 1 else true
  }

  // ---- Responses

  function DecodeF1<J>(lib: Library<J>, payload: Bytes): Option<J> {
    match Inflate(lib, payload)
    case None => None
    case Some(bytes) =>
      var text := Trim(StripNulls(bytes));
      if StartsWith(text, BRACE) then lib.parse(text) else None
  }

  function ClosedLink(link: Link): Link { link.(connected := false, pumpShut := true) }

  /** A new session starts the heartbeat, which throws on a pump that was shut down, and then asks for what was missed. */
  function LoginHandled<J>(ctx: Context<J>, root: J, link: Link): Handling<J> {
    match ctx.login(root)
    case Banned => Handling([AccountShown("banned"), Closing], false, ClosedLink(link))
    case Mismatched =>
      if ctx.relogins then Handling([AccountShown("session_mismatch"), ReloginStarted], false, link)
      else Handling([AccountShown("session_mismatch"), Closing], false, ClosedLink(link))
    case SessionKey(key) =>
      var keyed := link.(sessionKey := Some(key));
      if link.pumpShut then Handling([ConnectedShown], true, keyed)
      else
        Handling(
          [ConnectedShown, HeartbeatStarted]
          + SendIf(link.connected, SyncRequested(0, CMD_OFFLINE_SYNC, 0xF0))
          + SendIf(link.connected, SyncRequested(0, CMD_OFFLINE_SYNC_PAGE, 0xF2)),
          false, keyed)
    case NoSession => Handling([], false, link)
  }

  /** Each replayed packet that decodes is dispatched as a live push would be. */
  ghost function Replayed<J>(lib: Library<J>, raws: seq<Option<Bytes>>, link: Link): seq<Effect<J>> {
    if raws == [] then []
    else
      var n := |raws| - 1;
      var packet := Replay(lib, raws[n], link.sessionKey);
      Replayed(lib, raws[..n], link)
      + if packet.Some? then DispatchPush(packet.value.body, packet.value.header, link.connected) else []
  }

  function NextPage<J>(cmdId: nat, lastId: int): Effect<J> {
    if cmdId == CMD_OFFLINE_RESPONSE then SyncRequested(lastId, CMD_OFFLINE_SYNC_PAGE, 0xF2)
    else SyncRequested(lastId, CMD_OFFLINE_SYNC, 0xF0)
  }

  ghost function ListHandled<J>(ctx: Context<J>, cmdId: nat, root: J, link: Link): seq<Effect<J>> {
    match ctx.packets(root, cmdId)
    case None => []
    case Some(list) =>
      Replayed(ctx.lib, list.raws, link)
      + if list.more.Some? then SendIf(link.connected, NextPage(cmdId, list.more.value)) else []
  }

  predicate IsListResponse(cmdId: nat) { cmdId == CMD_OFFLINE_RESPONSE || cmdId == CMD_GROUP_RESPONSE }

  ghost function ResponseHandled<J>(ctx: Context<J>, cmdId: nat, payload: Bytes, link: Link): Handling<J> {
    match DecodeF1(ctx.lib, payload)
    case None => Handling([], false, link)
    case Some(root) =>
      if IsListResponse(cmdId) then Handling(ListHandled(ctx, cmdId, root, link), false, link)
      else LoginHandled(ctx, root, link)
  }

  // ---- Packets

  ghost function AckHandled<J>(lib: Library<J>, payload: Bytes): seq<Effect<J>> {
    var view := AckView(lib, payload);
    if view.Some? then [Acknowledged(view.value)] else []
  }

  ghost function Handled<J>(ctx: Context<J>, data: Bytes, link: Link): Handling<J> {
    if |data| < HEADER_LEN then Handling([], false, link)
    else
      var h := ParseHeader(data).value;
      var payload := CopyPayload(data, PayloadLen(h, data));
      var acks := if h.packetType == PKT_PUSH then SendIf(link.connected, AckSent(Ack(data))) else [];
      if h.cmdId == CMD_MSG_ACK then
        if payload.None? then Handling(acks, true, link)
        else Handling(acks + AckHandled(ctx.lib, payload.value), false, link)
      else if h.packetType == PKT_PUSH then
        var push := LivePush(ctx.lib, data, PayloadLen(h, data), link.sessionKey);
        if push.None? then Handling(acks, true, link)
        else Handling(acks + DispatchPush(push.value, h, link.connected), false, link)
      else if h.packetType == PKT_TYPING && h.cmdId == CMD_TYPING then
        if payload.None? then Handling([], true, link)
        else Handling([TypingShown(h.fromId, TypingStatus(ctx.lib, payload.value, link.sessionKey, h.keyType))], false, link)
      else if h.packetType == PKT_RESPONSE && h.cmdId != CMD_PONG then
        if payload.None? then Handling([], true, link)
        else ResponseHandled(ctx, h.cmdId, payload.value, link)
      else Handling([], false, link)
  }

  // ---- Laws

  predicate IsPush(data: Bytes) {
    |data| >= HEADER_LEN && ToInt(data[0]) == PKT_PUSH
  }

  ghost function Acks<J>(effects: seq<Effect<J>>): seq<Bytes> {
    if effects == [] then []
    else if effects[0].AckSent? then [effects[0].packet] + Acks(effects[1..])
    else Acks(effects[1..])
  }

  lemma {:induction false} AcksConcat<J>(a: seq<Effect<J>>, b: seq<Effect<J>>)
    ensures Acks(a + b) == Acks(a) + Acks(b)
  {
    if a == [] {
      assert a + b == b;
    } else {
      AcksConcat(a[1..], b);
      assert (a + b)[0] == a[0] && (a + b)[1..] == a[1..] + b;
      if a[0].AckSent? {
        assert Acks(a) == [a[0].packet] + Acks(a[1..]);
      }
    }
  }

  /** Only a push has an ack among its effects. */
  predicate HasNoAck<J>(effects: seq<Effect<J>>) {
    forall i :: 0 <= i < |effects| ==> !effects[i].AckSent?
  }

  lemma {:induction false} NoAcks<J>(effects: seq<Effect<J>>)
    requires HasNoAck(effects)
    ensures Acks(effects) == []
  {
    if effects != [] {
      NoAcks(effects[1..]);
    }
  }

  lemma {:induction false} ReplayedHasNoAck<J>(lib: Library<J>, raws: seq<Option<Bytes>>, link: Link)
    ensures HasNoAck(Replayed(lib, raws, link))
  {
    hide Replay;
    if raws != [] {
      ReplayedHasNoAck(lib, raws[..|raws| - 1], link);
    }
  }

  lemma ResponseHasNoAck<J>(ctx: Context<J>, cmdId: nat, payload: Bytes, link: Link)
    ensures HasNoAck(ResponseHandled(ctx, cmdId, payload, link).effects)
  {
    hide DecodeF1, Replayed;
    var root := DecodeF1(ctx.lib, payload);
    if root.Some? && IsListResponse(cmdId) {
      var list := ctx.packets(root.value, cmdId);
      if list.Some? {
        ReplayedHasNoAck(ctx.lib, list.value.raws, link);
      }
    }
  }

  /** The effects of a frame are its ack, if one is due and can be sent, and then none that are acks. */
  lemma AckComesFirst<J>(ctx: Context<J>, data: Bytes, link: Link) returns (rest: seq<Effect<J>>)
    ensures HasNoAck(rest)
    ensures Handled(ctx, data, link).effects
         == (if IsPush(data) && link.connected then [AckSent(Ack(data))] else []) + rest
  {
    hide Ack, AckView, LivePush, TypingStatus, Signed, Unsigned, ToInt, ResponseHandled;
    var effects := Handled(ctx, data, link).effects;
    if |data| < HEADER_LEN {
      rest := [];
    } else {
      var h := ParseHeader(data).value;
      var payload := CopyPayload(data, PayloadLen(h, data));
      if payload.Some? {
        ResponseHasNoAck(ctx, h.cmdId, payload.value, link);
      }
      rest := if IsPush(data) && link.connected then effects[1..] else effects;
    }
  }

  /** While connected, exactly one ack for a complete frame of type 0xF2, none for any other, whatever the rest of it holds. */
  lemma OneAckPerPush<J>(ctx: Context<J>, data: Bytes, link: Link)
    ensures Acks(Handled(ctx, data, link).effects) == if IsPush(data) && link.connected then [Ack(data)] else []
  {
    hide Ack, Handled, ToInt;
    var rest := AckComesFirst(ctx, data, link);
    NoAcks(rest);
    if IsPush(data) && link.connected {
      AcksConcat([AckSent(Ack(data))], rest);
    } else {
      assert [] + rest == rest;
    }
  }

  /** The frames whose payload is copied out by its declared length. */
  predicate CopiesPayload(h: Header, sessionKey: Option<Bytes>) {
    || h.cmdId == CMD_MSG_ACK
    || (h.packetType == PKT_PUSH && sessionKey.Some?)
    || (h.packetType == PKT_TYPING && h.cmdId == CMD_TYPING)
    || (h.packetType == PKT_RESPONSE && h.cmdId != CMD_PONG)
  }

  /** A response that is read as the answer to a login and carries a session key. */
  predicate StartsSession<J>(ctx: Context<J>, h: Header, data: Bytes)
    requires |data| >= HEADER_LEN
  {
    && h.packetType == PKT_RESPONSE && h.cmdId !in {CMD_MSG_ACK, CMD_PONG} && !IsListResponse(h.cmdId)
    && var payload := CopyPayload(data, PayloadLen(h, data));
       && payload.Some?
       && var root := DecodeF1(ctx.lib, payload.value);
          root.Some? && ctx.login(root.value).SessionKey?
  }

  /**
   * Handling throws exactly when a copied payload has a negative declared length, or a login response starts a session
   * after the heartbeat's scheduler was shut down.
   */
  lemma WhenHandlingThrows<J>(ctx: Context<J>, data: Bytes, link: Link)
    ensures Handled(ctx, data, link).threw <==>
            && |data| >= HEADER_LEN
            && var h := ParseHeader(data).value;
               || (h.payloadLen < 0 && CopiesPayload(h, link.sessionKey))
               || (link.pumpShut && StartsSession(ctx, h, data))
  {
    hide Ack, AckView, TypingStatus, Signed, Unsigned, ToInt, DispatchPush, DecodePushBody, DecodeF1, ListHandled;
  }

  /** The key a login response carries. */
  function KeyOf<J>(ctx: Context<J>, h: Header, data: Bytes): Bytes
    requires |data| >= HEADER_LEN && StartsSession(ctx, h, data)
  {
    ctx.login(DecodeF1(ctx.lib, CopyPayload(data, PayloadLen(h, data)).value).value).key
  }

  /** The session key changes exactly by such a response; the connection can only be lost, and the pump only be shut. */
  lemma WhatHandlingChanges<J>(ctx: Context<J>, data: Bytes, link: Link)
    ensures var r := Handled(ctx, data, link);
            && r.link.sessionKey ==
                 (if |data| >= HEADER_LEN && StartsSession(ctx, ParseHeader(data).value, data)
                  then Some(KeyOf(ctx, ParseHeader(data).value, data)) else link.sessionKey)
            && (link.pumpShut ==> r.link.pumpShut)
            && (r.link.connected ==> link.connected)
  {
    hide Ack, AckView, LivePush, TypingStatus, Signed, Unsigned, ToInt, DecodeF1, ListHandled, DispatchPush;
  }

  /**
   * Once the scheduler was shut down, by `close` or before a new login, a login response that carries a session key
   * is shown as connected, starts no heartbeat, asks for nothing that was missed, and ends in an exception.
   */
  lemma SessionAfterShutdown<J>(ctx: Context<J>, data: Bytes, link: Link)
    requires |data| >= HEADER_LEN && StartsSession(ctx, ParseHeader(data).value, data)
    ensures var r := Handled(ctx, data, link);
            && r.threw == link.pumpShut
            && (if link.pumpShut then r.effects == [ConnectedShown] else [ConnectedShown, HeartbeatStarted] <= r.effects)
  {
    hide Ack, AckView, LivePush, TypingStatus, Signed, Unsigned, ToInt, DecodeF1, ListHandled, DispatchPush;
  }

  /** A listed packet on which live and replayed decoding agree has the effects of the live push. */
  lemma ListedPushIsDispatched<J>(ctx: Context<J>, raw: Bytes, key: Bytes, link: Link)
    requires |raw| >= HEADER_LEN && ToInt(raw[2]) == 1 && RawPayload(raw) != []
    requires link.sessionKey == Some(key)
    requires match QqTeaCipher.Decryption(RawPayload(raw), key) { case Answer(d) => !IsGzip(d) case _ => false }
    ensures
      var live := LivePush(ctx.lib, raw, |RawPayload(raw)|, Some(key));
      var h := Header(PKT_PUSH, 1, Unsigned(raw[4..6]), 0, Unsigned(raw[8..12]), Unsigned(raw[12..16]), |RawPayload(raw)|);
      live.Some? && Replayed(ctx.lib, [Some(raw)], link) == DispatchPush(live.value, h, link.connected)
  {
    LiveAndReplayedAgree(ctx.lib, raw, key);
    ReplayedHeader(ctx.lib, raw, Some(key));
    hide LivePush, DispatchPush, ToInt, Signed, Unsigned, Replay, RawPayload, QqTeaCipher.Decryption;
    OneReplayed(ctx.lib, Some(raw), link);
  }

  lemma OneReplayed<J>(lib: Library<J>, raw: Option<Bytes>, link: Link)
    ensures
      var packet := Replay(lib, raw, link.sessionKey);
      Replayed(lib, [raw], link)
      == if packet.Some? then DispatchPush(packet.value.body, packet.value.header, link.connected) else []
  {
    hide Replay, DispatchPush;
    assert [raw][..0] == [];
    assert Replayed(lib, [raw][..0], link) == [];
  }
}
