/** The two-way feedback chain over 8-byte blocks: `encryptChain` and `decryptChain`. */
module TeaChain {
  import opened ByteStrings
  import opened TeaBlock

  const KEY_LEN: nat := 16

  // ---- Little-endian words

  function Word(b0: byte, b1: byte, b2: byte, b3: byte): word {
    (b0 as word) | (b1 as word << 8) | (b2 as word << 16) | (b3 as word << 24)
  }

  function WordBytes(w: word): (s: Bytes)
    ensures |s| == 4
  {
    [(w & 0xFF) as byte, ((w >> 8) & 0xFF) as byte, ((w >> 16) & 0xFF) as byte, ((w >> 24) & 0xFF) as byte]
  }

  lemma WordRoundTrip(w: word, b0: byte, b1: byte, b2: byte, b3: byte)
    ensures var s := WordBytes(w); Word(s[0], s[1], s[2], s[3]) == w
    ensures WordBytes(Word(b0, b1, b2, b3)) == [b0, b1, b2, b3]
  {
  }

  function GetInt(s: Bytes, offset: nat): word
    requires offset + 4 <= |s|
  {
    Word(s[offset], s[offset + 1], s[offset + 2], s[offset + 3])
  }

  method PutInt(out: array<byte>, offset: nat, w: word)
    requires offset + 4 <= out.Length
    modifies out
    ensures out[..] == old(out[..offset]) + WordBytes(w) + old(out[offset + 4..])
  {
    hide WordBytes;
    var s := WordBytes(w);
    out[offset], out[offset + 1], out[offset + 2], out[offset + 3] := s[0], s[1], s[2], s[3];
  }

  /** A key longer than 16 bytes is read by its first 16. */
  function ReadKeyWords(key: Bytes): Key
    requires |key| >= KEY_LEN
  {
    Key(GetInt(key, 0), GetInt(key, 4), GetInt(key, 8), GetInt(key, 12))
  }

  // ---- Blocks and bytes

  const ZERO: Block := Block(0, 0)

  function Xor(a: Block, b: Block): Block {
    Block(a.v0 ^ b.v0, a.v1 ^ b.v1)
  }

  lemma XorCancels(a: Block, b: Block)
    ensures Xor(Xor(a, b), b) == a
    ensures Xor(a, ZERO) == a
  {
  }

  function GetBlock(s: Bytes, offset: nat): Block
    requires offset + 8 <= |s|
  {
    Block(GetInt(s, offset), GetInt(s, offset + 4))
  }

  function BlockBytes(b: Block): (s: Bytes)
    ensures |s| == 8
  {
    WordBytes(b.v0) + WordBytes(b.v1)
  }

  lemma BlockRoundTrip(b: Block, s: Bytes)
    requires |s| == 8
    ensures GetBlock(BlockBytes(b), 0) == b
    ensures BlockBytes(GetBlock(s, 0)) == s
  {
    hide Word, WordBytes;
    WordRoundTrip(b.v0, s[0], s[1], s[2], s[3]);
    WordRoundTrip(b.v1, s[4], s[5], s[6], s[7]);
  }

  function ToBlocks(s: Bytes): (bs: seq<Block>)
    requires |s| % 8 == 0
    ensures 8 * |bs| == |s|
  {
    if s == [] then [] else [GetBlock(s, 0)] + ToBlocks(s[8..])
  }

  function FromBlocks(bs: seq<Block>): (s: Bytes)
    ensures |s| == 8 * |bs|
  {
    if bs == [] then [] else BlockBytes(bs[0]) + FromBlocks(bs[1..])
  }

  lemma {:induction false} BlocksRoundTrip(bs: seq<Block>)
    ensures ToBlocks(FromBlocks(bs)) == bs
  {
    hide GetInt, BlockBytes;
    if bs != [] {
      var s := FromBlocks(bs);
      BlocksRoundTrip(bs[1..]);
      BlockRoundTrip(bs[0], s[..8]);
      assert s[..8] == BlockBytes(bs[0]) && s[8..] == FromBlocks(bs[1..]);
      GetBlockOfPrefix(s);
      assert bs == [bs[0]] + bs[1..];
    }
  }

  lemma {:induction false} BytesRoundTrip(s: Bytes)
    requires |s| % 8 == 0
    ensures FromBlocks(ToBlocks(s)) == s
  {
    hide GetInt, BlockBytes;
    if s != [] {
      BytesRoundTrip(s[8..]);
      BlockRoundTrip(ZERO, s[..8]);
      GetBlockOfPrefix(s);
      assert s == s[..8] + s[8..];
    }
  }

  lemma GetBlockOfPrefix(s: Bytes)
    requires |s| >= 8
    ensures GetBlock(s, 0) == GetBlock(s[..8], 0)
  {
    hide Word;
  }

  // ---- The chain, from any pair of carried blocks

  /** `prevD` is the last input of the block transform, `prevC` the last ciphertext block. */
  ghost function EncryptFrom(k: Key, ps: seq<Block>, prevD: Block, prevC: Block): (cs: seq<Block>)
    ensures |cs| == |ps|
  {
    if ps == [] then []
    else
      var d := Xor(ps[0], prevC);
      var c := Xor(Encrypted(d, k), prevD);
      [c] + EncryptFrom(k, ps[1..], d, c)
  }

  ghost function DecryptFrom(k: Key, cs: seq<Block>, prevD: Block, prevC: Block): (ps: seq<Block>)
    ensures |ps| == |cs|
  {
    if cs == [] then []
    else
      var d := Decrypted(Xor(cs[0], prevD), k);
      [Xor(d, prevC)] + DecryptFrom(k, cs[1..], d, cs[0])
  }

  lemma {:induction false} DecryptUndoesEncrypt(k: Key, ps: seq<Block>, prevD: Block, prevC: Block)
    ensures DecryptFrom(k, EncryptFrom(k, ps, prevD, prevC), prevD, prevC) == ps
  {
    hide Xor, Encrypted, Decrypted;
    if ps != [] {
      var d := Xor(ps[0], prevC);
      var c := Xor(Encrypted(d, k), prevD);
      var cs := EncryptFrom(k, ps, prevD, prevC);
      assert cs[0] == c && cs[1..] == EncryptFrom(k, ps[1..], d, c);
      XorCancels(Encrypted(d, k), prevD);
      BlockInverse(d, k);
      XorCancels(ps[0], prevC);
      DecryptUndoesEncrypt(k, ps[1..], d, c);
    }
  }

  lemma {:induction false} EncryptUndoesDecrypt(k: Key, cs: seq<Block>, prevD: Block, prevC: Block)
    ensures EncryptFrom(k, DecryptFrom(k, cs, prevD, prevC), prevD, prevC) == cs
  {
    hide Xor, Encrypted, Decrypted;
    if cs != [] {
      var x := Xor(cs[0], prevD);
      var d := Decrypted(x, k);
      var ps := DecryptFrom(k, cs, prevD, prevC);
      assert ps[0] == Xor(d, prevC) && ps[1..] == DecryptFrom(k, cs[1..], d, cs[0]);
      XorCancels(d, prevC);
      BlockInverse(x, k);
      XorCancels(cs[0], prevD);
      EncryptUndoesDecrypt(k, cs[1..], d, cs[0]);
    }
  }

  // ---- The chain on whole buffers

  /** The first block has no predecessor, which is the same as two zero carried blocks. */
  ghost function EncryptedBytes(s: Bytes, k: Key): (r: Bytes)
    requires |s| % 8 == 0
    ensures |r| == |s|
  {
    FromBlocks(EncryptFrom(k, ToBlocks(s), ZERO, ZERO))
  }

  ghost function DecryptedBytes(s: Bytes, k: Key): (r: Bytes)
    requires |s| % 8 == 0
    ensures |r| == |s|
  {
    FromBlocks(DecryptFrom(k, ToBlocks(s), ZERO, ZERO))
  }

  /** The two chains undo each other, in both orders, for every key and every aligned buffer. */
  lemma ChainInverse(s: Bytes, k: Key)
    requires |s| % 8 == 0
    ensures DecryptedBytes(EncryptedBytes(s, k), k) == s
    ensures EncryptedBytes(DecryptedBytes(s, k), k) == s
  {
    var bs := ToBlocks(s);
    BytesRoundTrip(s);
    BlocksRoundTrip(EncryptFrom(k, bs, ZERO, ZERO));
    BlocksRoundTrip(DecryptFrom(k, bs, ZERO, ZERO));
    DecryptUndoesEncrypt(k, bs, ZERO, ZERO);
    EncryptUndoesDecrypt(k, bs, ZERO, ZERO);
  }

  // ---- The loops

  /** What is still to be written when the loop stands at `offset` with these carried blocks. */
  ghost function EncryptRest(k: Key, s: Bytes, offset: nat, prevD: Block, prevC: Block): Bytes
    requires |s| % 8 == 0 && offset % 8 == 0 && offset <= |s|
  {
    FromBlocks(EncryptFrom(k, ToBlocks(s[offset..]), prevD, prevC))
  }

  ghost function DecryptRest(k: Key, s: Bytes, offset: nat, prevD: Block, prevC: Block): Bytes
    requires |s| % 8 == 0 && offset % 8 == 0 && offset <= |s|
  {
    FromBlocks(DecryptFrom(k, ToBlocks(s[offset..]), prevD, prevC))
  }

  lemma NextBlock(s: Bytes, offset: nat)
    requires |s| % 8 == 0 && offset % 8 == 0 && offset < |s|
    ensures offset + 8 <= |s|
    ensures ToBlocks(s[offset..]) == [GetBlock(s, offset)] + ToBlocks(s[offset + 8..])
  {
    hide Word;
    assert s[offset..][8..] == s[offset + 8..];
  }

  lemma EncryptStep(k: Key, s: Bytes, offset: nat, prevD: Block, prevC: Block)
    requires |s| % 8 == 0 && offset % 8 == 0 && offset < |s|
    ensures offset + 8 <= |s|
    ensures var d := Xor(GetBlock(s, offset), prevC);
            var c := Xor(Encrypted(d, k), prevD);
            EncryptRest(k, s, offset, prevD, prevC) == BlockBytes(c) + EncryptRest(k, s, offset + 8, d, c)
  {
    hide Word, Xor, Encrypted, BlockBytes, GetInt;
    NextBlock(s, offset);
    var d := Xor(GetBlock(s, offset), prevC);
    var c := Xor(Encrypted(d, k), prevD);
    var rest := ToBlocks(s[offset..]);
    assert rest[1..] == ToBlocks(s[offset + 8..]);
    assert EncryptFrom(k, rest, prevD, prevC) == [c] + EncryptFrom(k, rest[1..], d, c);
    assert ([c] + EncryptFrom(k, rest[1..], d, c))[1..] == EncryptFrom(k, rest[1..], d, c);
  }

  lemma DecryptStep(k: Key, s: Bytes, offset: nat, prevD: Block, prevC: Block)
    requires |s| % 8 == 0 && offset % 8 == 0 && offset < |s|
    ensures offset + 8 <= |s|
    ensures var c := GetBlock(s, offset);
            var d := Decrypted(Xor(c, prevD), k);
            DecryptRest(k, s, offset, prevD, prevC) == BlockBytes(Xor(d, prevC)) + DecryptRest(k, s, offset + 8, d, c)
  {
    hide Word, Xor, Decrypted, BlockBytes, GetInt;
    NextBlock(s, offset);
    var c := GetBlock(s, offset);
    var d := Decrypted(Xor(c, prevD), k);
    var rest := ToBlocks(s[offset..]);
    assert rest[1..] == ToBlocks(s[offset + 8..]);
    assert DecryptFrom(k, rest, prevD, prevC) == [Xor(d, prevC)] + DecryptFrom(k, rest[1..], d, c);
    assert ([Xor(d, prevC)] + DecryptFrom(k, rest[1..], d, c))[1..] == DecryptFrom(k, rest[1..], d, c);
  }

  lemma WholeBuffer(k: Key, s: Bytes)
    requires |s| % 8 == 0
    ensures EncryptRest(k, s, 0, ZERO, ZERO) == EncryptedBytes(s, k)
    ensures DecryptRest(k, s, 0, ZERO, ZERO) == DecryptedBytes(s, k)
  {
    assert s[0..] == s;
  }

  method PutBlock(out: array<byte>, offset: nat, b: Block)
    requires offset + 8 <= out.Length
    modifies out
    ensures out[..offset + 8] == old(out[..offset]) + BlockBytes(b)
  {
    hide WordBytes;
    PutInt(out, offset, b.v0);
    PutInt(out, offset + 4, b.v1);
  }

  method EncryptChain(buffer: Bytes, key: Bytes) returns (r: Bytes)
    requires |buffer| > 0 && |buffer| % 8 == 0 && |key| >= KEY_LEN
    ensures r == EncryptedBytes(buffer, ReadKeyWords(key))
    ensures DecryptedBytes(r, ReadKeyWords(key)) == buffer
  {
    hide Xor, Encrypted, Decrypted, GetInt, ReadKeyWords, BlockBytes, EncryptRest, EncryptedBytes, DecryptedBytes;
    var k := ReadKeyWords(key);
    var out := new byte[|buffer|];
    WholeBuffer(k, buffer);
    EncryptStep(k, buffer, 0, ZERO, ZERO);
    var p := GetBlock(buffer, 0);
    var c := EncryptBlock(p, k);
    XorCancels(p, ZERO);
    XorCancels(c, ZERO);
    PutBlock(out, 0, c);
    var prevD, prevC := p, c;
    var offset := 8;
    while offset < |buffer|
      invariant offset % 8 == 0 && 8 <= offset <= |buffer| == out.Length
      invariant EncryptedBytes(buffer, k) == out[..offset] + EncryptRest(k, buffer, offset, prevD, prevC)
    {
      EncryptStep(k, buffer, offset, prevD, prevC);
      var d := Xor(GetBlock(buffer, offset), prevC);
      var e := EncryptBlock(d, k);
      var curC := Xor(e, prevD);
      PutBlock(out, offset, curC);
      prevD, prevC := d, curC;
      offset := offset + 8;
    }
    ChainInverse(buffer, k);
    r := out[..];
  }

  method DecryptChain(buffer: Bytes, key: Bytes) returns (r: Bytes)
    requires |buffer| > 0 && |buffer| % 8 == 0 && |key| >= KEY_LEN
    ensures r == DecryptedBytes(buffer, ReadKeyWords(key))
    ensures EncryptedBytes(r, ReadKeyWords(key)) == buffer
  {
    hide Xor, Encrypted, Decrypted, GetInt, ReadKeyWords, BlockBytes, DecryptRest, EncryptedBytes, DecryptedBytes;
    var k := ReadKeyWords(key);
    var out := new byte[|buffer|];
    WholeBuffer(k, buffer);
    DecryptStep(k, buffer, 0, ZERO, ZERO);
    var c := GetBlock(buffer, 0);
    XorCancels(c, ZERO);
    var d := DecryptBlock(c, k);
    XorCancels(d, ZERO);
    PutBlock(out, 0, d);
    var prevD, prevC := d, c;
    var offset := 8;
    while offset < |buffer|
      invariant offset % 8 == 0 && 8 <= offset <= |buffer| == out.Length
      invariant DecryptedBytes(buffer, k) == out[..offset] + DecryptRest(k, buffer, offset, prevD, prevC)
    {
      DecryptStep(k, buffer, offset, prevD, prevC);
      var curC := GetBlock(buffer, offset);
      var dec := DecryptBlock(Xor(curC, prevD), k);
      PutBlock(out, offset, Xor(dec, prevC));
      prevD, prevC := dec, curC;
      offset := offset + 8;
    }
    ChainInverse(buffer, k);
    r := out[..];
  }
}
