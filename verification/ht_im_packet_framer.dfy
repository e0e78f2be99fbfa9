/** `HtImPacketFramer`: the 20-byte header of ht_im packets, written and read. */
module HtImPacketFramer {
  import opened Wrappers
  import opened ByteStrings

  const HEADER_LEN: nat := 20

  // Packet types, the first byte of a packet.
  const PKT_RESPONSE: nat := 0xF1
  const PKT_PUSH: nat := 0xF2
  const PKT_ACK: nat := 0xF3
  const PKT_TYPING: nat := 0xF5

  // Command numbers.
  const CMD_PONG: nat := 0x9002
  const CMD_MSG_ACK: nat := 16386
  const CMD_TYPING: nat := 16407
  const CMD_OFFLINE_SYNC: nat := 29967

  datatype Header = Header(
    packetType: nat, keyType: nat, cmdId: nat, seqNum: nat, fromId: nat, toId: nat, payloadLen: int)

  // ---- Packets as byte strings

  function HeaderBytes(flag: int, cmdId: int, seqNum: int, fromId: int, toId: int, payloadLen: int): (s: Bytes)
    ensures |s| == HEADER_LEN
  {
    [ToByte(flag), 4, 0, 1]
    + LittleEndian(cmdId, 2) + LittleEndian(seqNum, 2)
    + LittleEndian(fromId, 4) + LittleEndian(toId, 4) + LittleEndian(payloadLen, 4)
  }

  function Packet(userId: int, toId: int, commandId: int, flag: int, seqNum: int, payload: Bytes): Bytes {
    HeaderBytes(flag, commandId, seqNum, userId, toId, |payload|) + payload
  }

  /** Copies the sequence number and both ids, and answers command `c` with `c + 1`. */
  function Ack(inbound: Bytes): Bytes
    requires |inbound| >= 16
  {
    [ToByte(PKT_ACK), 4, 0, 1]
    + LittleEndian(Unsigned(inbound[4..6]) + 1, 2) + inbound[6..8] + inbound[8..16] + LittleEndian(0, 4)
  }

  function ParseHeader(data: Bytes): Option<Header> {
    if |data| < HEADER_LEN then None
    else Some(Header(
      ToInt(data[0]), ToInt(data[2]),
      Unsigned(data[4..6]), Unsigned(data[6..8]), Unsigned(data[8..12]), Unsigned(data[12..16]),
      Signed(data[16..20])))
  }

  /** `None` is the exception Java raises for a negative length or one past the end of the packet. */
  function CopyPayload(data: Bytes, payloadLen: int): Option<Bytes> {
    if payloadLen < 0 || HEADER_LEN + payloadLen > |data| then None
    else Some(data[HEADER_LEN..HEADER_LEN + payloadLen])
  }

  // ---- Laws

  /** The largest payload Java can hold. */
  const MAX_LENGTH: nat := 0x7FFF_FFFF

  lemma FieldsOfHeader(a: Bytes, b: Bytes, c: Bytes, d: Bytes, e: Bytes, f: Bytes, rest: Bytes)
    requires |a| == 4 && |b| == 2 && |c| == 2 && |d| == 4 && |e| == 4 && |f| == 4
    ensures var s := a + b + c + d + e + f + rest;
            && s[..4] == a && s[4..6] == b && s[6..8] == c
            && s[8..12] == d && s[12..16] == e && s[16..20] == f && s[20..] == rest
  {
  }

  lemma FieldWidths()
    ensures Power256(2) == 0x1_0000 && Power256(4) == 0x1_0000_0000
  {
    assert Power256(1) == 256;
    assert Power256(3) == 0x100_0000;
  }

  /** Parsing a built packet gives back every field, reduced to its width, and the payload. */
  lemma ParsePacket(userId: int, toId: int, commandId: int, flag: int, seqNum: int, payload: Bytes)
    requires |payload| <= MAX_LENGTH
    ensures var p := Packet(userId, toId, commandId, flag, seqNum, payload);
            && ParseHeader(p) == Some(Header(
                 flag % 0x100, 0, commandId % 0x1_0000, seqNum % 0x1_0000,
                 userId % 0x1_0000_0000, toId % 0x1_0000_0000, |payload|))
            && CopyPayload(p, |payload|) == Some(payload)
  {
    hide LittleEndian, ToByte, ToInt, Unsigned, Signed;
    var p := Packet(userId, toId, commandId, flag, seqNum, payload);
    FieldsOfHeader(
      [ToByte(flag), 4, 0, 1], LittleEndian(commandId, 2), LittleEndian(seqNum, 2),
      LittleEndian(userId, 4), LittleEndian(toId, 4), LittleEndian(|payload|, 4), payload);
    assert p[0] == p[..4][0] == ToByte(flag) && p[2] == p[..4][2] == 0;
    IntRoundTrip(flag);
    ZeroByte();
    LittleEndianRoundTrip(commandId, 2);
    LittleEndianRoundTrip(seqNum, 2);
    LittleEndianRoundTrip(userId, 4);
    LittleEndianRoundTrip(toId, 4);
    FieldWidths();
    SignedRoundTrip(|payload|, 4);
    assert p[HEADER_LEN..HEADER_LEN + |payload|] == p[HEADER_LEN..];
  }

  /** An ack parses to the next command with the inbound sequence number and ids, and no payload. */
  lemma ParseAck(inbound: Bytes)
    requires |inbound| >= HEADER_LEN
    ensures var h := ParseHeader(inbound).value;
            ParseHeader(Ack(inbound)) ==
              Some(Header(PKT_ACK, 0, (h.cmdId + 1) % 0x1_0000, h.seqNum, h.fromId, h.toId, 0))
    ensures |Ack(inbound)| == HEADER_LEN
  {
    hide LittleEndian, ToByte, ToInt, Unsigned, Signed;
    var ack := Ack(inbound);
    assert inbound[8..16] == inbound[8..12] + inbound[12..16];
    FieldsOfHeader(
      [ToByte(PKT_ACK), 4, 0, 1], LittleEndian(Unsigned(inbound[4..6]) + 1, 2), inbound[6..8],
      inbound[8..12], inbound[12..16], LittleEndian(0, 4), []);
    assert ack == [ToByte(PKT_ACK), 4, 0, 1] + LittleEndian(Unsigned(inbound[4..6]) + 1, 2) + inbound[6..8]
                  + inbound[8..12] + inbound[12..16] + LittleEndian(0, 4) + [];
    assert ack[0] == ack[..4][0] == ToByte(PKT_ACK) && ack[2] == ack[..4][2] == 0;
    IntRoundTrip(PKT_ACK);
    ZeroByte();
    LittleEndianRoundTrip(Unsigned(inbound[4..6]) + 1, 2);
    FieldWidths();
    SignedRoundTrip(0, 4);
  }

  // ---- The builders

  /** The builders share one sequence counter. Java's wraps at 2^32, a multiple of the 2^16 that is kept. */
  class PacketFramer {
    var counter: int

    constructor ()
      ensures counter == 1
    {
      counter := 1;
    }

    method NextSeq() returns (seqNum: nat)
      modifies this
      ensures seqNum == old(counter) % 0x1_0000
      ensures counter == old(counter) + 1
    {
      seqNum := counter % 0x1_0000;
      counter := counter + 1;
    }

    /** The packet parses back to its arguments, with a sequence number one past the previous packet's. */
    method BuildPacket(userId: int, toId: int, commandId: int, flag: int, payload: Bytes) returns (r: Bytes)
      requires |payload| <= MAX_LENGTH
      modifies this
      ensures r == Packet(userId, toId, commandId, flag, old(counter) % 0x1_0000, payload)
      ensures counter == old(counter) + 1
      ensures ParseHeader(r) == Some(Header(
                flag % 0x100, 0, commandId % 0x1_0000, old(counter) % 0x1_0000,
                userId % 0x1_0000_0000, toId % 0x1_0000_0000, |payload|))
      ensures CopyPayload(r, |payload|) == Some(payload)
    {
      hide LittleEndian, ParseHeader, CopyPayload;
      var seqNum := NextSeq();
      r := [ToByte(flag)];
      r := r + [4];
      r := r + [0];
      r := r + [1];
      r := r + LittleEndian(commandId, 2);
      r := r + LittleEndian(seqNum, 2);
      r := r + LittleEndian(userId, 4);
      r := r + LittleEndian(toId, 4);
      r := r + LittleEndian(|payload|, 4);
      r := r + payload;
      ParsePacket(userId, toId, commandId, flag, seqNum, payload);
    }
  }
}
