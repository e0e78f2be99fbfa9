/** A known answer of the native codec: a payload it produced and the text it was given. */
module TeaVectors {
  import opened Wrappers
  import opened ByteStrings
  import opened TeaBlock
  import opened TeaChain
  import opened TeaPadding
  import opened TeaCipher
  import opened Cc2018Cipher

  /** The key in front of the payload, as words. */
  const KEY: Key := Key(0x9A10D112, 0x044C6E5E, 0x071DA9EB, 0xB4609CD2)

  lemma SumVector()
    ensures DecryptSum(0) == 0xE3779B90
    ensures DecryptSum(1) == 0x454021D7
    ensures DecryptSum(2) == 0xA708A81E
    ensures DecryptSum(3) == 0x08D12E65
    ensures DecryptSum(4) == 0x6A99B4AC
    ensures DecryptSum(5) == 0xCC623AF3
    ensures DecryptSum(6) == 0x2E2AC13A
    ensures DecryptSum(7) == 0x8FF34781
    ensures DecryptSum(8) == 0xF1BBCDC8
    ensures DecryptSum(9) == 0x5384540F
    ensures DecryptSum(10) == 0xB54CDA56
    ensures DecryptSum(11) == 0x1715609D
    ensures DecryptSum(12) == 0x78DDE6E4
    ensures DecryptSum(13) == 0xDAA66D2B
    ensures DecryptSum(14) == 0x3C6EF372
    ensures DecryptSum(15) == 0x9E3779B9
  {
  }

  /** The first block is decrypted as it is. */
  lemma FirstBlock()
    ensures Decrypted(Block(0x6844DEAE, 0x2AF978AD), KEY) == Block(0xADADADAF, 0xADADADAD)
  {
    var b := Block(0x6844DEAE, 0x2AF978AD);
    SumVector();
    assert DecryptRounds(b, KEY, 1) == Block(0x1AFDDF3E, 0xB3844B7B);
    assert DecryptRounds(b, KEY, 2) == Block(0x1A71F5F0, 0x4F873466);
    assert DecryptRounds(b, KEY, 3) == Block(0x29D09CB4, 0x75137A02);
    assert DecryptRounds(b, KEY, 4) == Block(0x4501CF83, 0x51E9DA7D);
    assert DecryptRounds(b, KEY, 5) == Block(0x88DBFF58, 0x03C04D03);
    assert DecryptRounds(b, KEY, 6) == Block(0x692619DA, 0x8A7B7317);
    assert DecryptRounds(b, KEY, 7) == Block(0x0C7CFEEE, 0xD0F521D8);
    assert DecryptRounds(b, KEY, 8) == Block(0xD999F937, 0xEA9BC76B);
    assert DecryptRounds(b, KEY, 9) == Block(0x9FA0C73E, 0x19D6302C);
    assert DecryptRounds(b, KEY, 10) == Block(0xF5129820, 0xCE838A9F);
    assert DecryptRounds(b, KEY, 11) == Block(0x584E9E69, 0x80722291);
    assert DecryptRounds(b, KEY, 12) == Block(0x3DF7D4C1, 0x2C2AA3D9);
    assert DecryptRounds(b, KEY, 13) == Block(0xFB9BD1BB, 0x460B8EB3);
    assert DecryptRounds(b, KEY, 14) == Block(0xCC41726F, 0x9B660E91);
    assert DecryptRounds(b, KEY, 15) == Block(0xE46504FE, 0x221FF132);
    assert DecryptRounds(b, KEY, 16) == Block(0xADADADAF, 0xADADADAD);
  }

  /** The second one after it was joined with the output of the first. */
  lemma SecondBlock()
    ensures Decrypted(Block(0x4235EB15, 0xC6FEA5E0), KEY) == Block(0x5A757303, 0x1CCC4C9E)
  {
    var b := Block(0x4235EB15, 0xC6FEA5E0);
    SumVector();
    assert DecryptRounds(b, KEY, 1) == Block(0xA68DF084, 0x0D5B142C);
    assert DecryptRounds(b, KEY, 2) == Block(0x1B0F1F53, 0xCFB36806);
    assert DecryptRounds(b, KEY, 3) == Block(0x1A16D4F6, 0x00921A60);
    assert DecryptRounds(b, KEY, 4) == Block(0xAC68B6BB, 0xC13E70F7);
    assert DecryptRounds(b, KEY, 5) == Block(0xF42E29C0, 0x5DD5D47C);
    assert DecryptRounds(b, KEY, 6) == Block(0xFBC5B49D, 0x2743A504);
    assert DecryptRounds(b, KEY, 7) == Block(0xA53717EA, 0xD08D58EA);
    assert DecryptRounds(b, KEY, 8) == Block(0xEB7CF2A1, 0xFA5E3679);
    assert DecryptRounds(b, KEY, 9) == Block(0x3BF52455, 0x21F59E84);
    assert DecryptRounds(b, KEY, 10) == Block(0x8B352E5F, 0x229ECBD9);
    assert DecryptRounds(b, KEY, 11) == Block(0x8998A6AB, 0xE0560AAF);
    assert DecryptRounds(b, KEY, 12) == Block(0x5A0C420D, 0x27AA98DB);
    assert DecryptRounds(b, KEY, 13) == Block(0x31DA24A3, 0x656F7C33);
    assert DecryptRounds(b, KEY, 14) == Block(0x751589C3, 0xC79F7411);
    assert DecryptRounds(b, KEY, 15) == Block(0x3359FF6A, 0x75A40203);
    assert DecryptRounds(b, KEY, 16) == Block(0x5A757303, 0x1CCC4C9E);
  }

  /** The third one after it was joined with the output of the second. */
  lemma ThirdBlock()
    ensures Decrypted(Block(0x04E85A07, 0xEBB666A4), KEY) == Block(0xEF98468D, 0x6B53084D)
  {
    var b := Block(0x04E85A07, 0xEBB666A4);
    SumVector();
    assert DecryptRounds(b, KEY, 1) == Block(0x91BA86CC, 0xE23B0636);
    assert DecryptRounds(b, KEY, 2) == Block(0x6EEED964, 0x95683736);
    assert DecryptRounds(b, KEY, 3) == Block(0x2E9133D0, 0x41436502);
    assert DecryptRounds(b, KEY, 4) == Block(0xD60EE935, 0xCEBBC254);
    assert DecryptRounds(b, KEY, 5) == Block(0xEC43F27E, 0x3B060D93);
    assert DecryptRounds(b, KEY, 6) == Block(0xEE04AB48, 0x72CDCCB4);
    assert DecryptRounds(b, KEY, 7) == Block(0x15349B32, 0x3235DBEF);
    assert DecryptRounds(b, KEY, 8) == Block(0xB0494C6F, 0xE7EADDDC);
    assert DecryptRounds(b, KEY, 9) == Block(0xDF0B7818, 0xD7955003);
    assert DecryptRounds(b, KEY, 10) == Block(0x45BE278F, 0x59933025);
    assert DecryptRounds(b, KEY, 11) == Block(0x96A6A033, 0x2B0D82F5);
    assert DecryptRounds(b, KEY, 12) == Block(0x68186127, 0xC5DF06DD);
    assert DecryptRounds(b, KEY, 13) == Block(0xBB135BEB, 0xE5EA5B52);
    assert DecryptRounds(b, KEY, 14) == Block(0x65962736, 0x4E16C516);
    assert DecryptRounds(b, KEY, 15) == Block(0x310517D1, 0xD90E7B2E);
    assert DecryptRounds(b, KEY, 16) == Block(0xEF98468D, 0x6B53084D);
  }

  // ---- The payload: the key, then three blocks

  const KEY_BYTES: Bytes :=
    [0x12, 0xD1, 0x10, 0x9A, 0x5E, 0x6E, 0x4C, 0x04,
      0xEB, 0xA9, 0x1D, 0x07, 0xD2, 0x9C, 0x60, 0xB4]

  const C1: Bytes := [0xAE, 0xDE, 0x44, 0x68, 0xAD, 0x78, 0xF9, 0x2A]
  const C2: Bytes := [0xBA, 0x46, 0x98, 0xEF, 0x4D, 0x08, 0x53, 0x6B]
  const C3: Bytes := [0x04, 0x29, 0x9D, 0x5E, 0x3A, 0x2A, 0x7A, 0xF7]

  const CIPHERTEXT: Bytes := C1 + (C2 + (C3 + []))

  const CIPHER_BLOCKS: seq<Block> :=
    [Block(0x6844DEAE, 0x2AF978AD),
     Block(0xEF9846BA, 0x6B53084D),
     Block(0x5E9D2904, 0xF77A2A3A)]

  const PLAIN_BLOCKS: seq<Block> :=
    [Block(0xADADADAF, 0xADADADAD),
     Block(0x3231ADAD, 0x36353433),
     Block(0x00000037, 0x00000000)]

  const P1: Bytes := [0xAF, 0xAD, 0xAD, 0xAD, 0xAD, 0xAD, 0xAD, 0xAD]
  const P2: Bytes := [0xAD, 0xAD, 0x31, 0x32, 0x33, 0x34, 0x35, 0x36]
  const P3: Bytes := [0x37, 0x00, 0x00, 0x00, 0x00, 0x00, 0x00, 0x00]

  const PADDED: Bytes := P1 + (P2 + (P3 + []))

  /** The text "1234567". */
  const TEXT: Bytes := [0x31, 0x32, 0x33, 0x34, 0x35, 0x36, 0x37]

  lemma KeyIsRead()
    ensures ReadKeyWords(KEY_BYTES) == KEY
  {
  }

  lemma BlockIsRead(s: Bytes, rest: Bytes)
    requires |s| == 8 && |rest| % 8 == 0
    ensures ToBlocks(s + rest) == [GetBlock(s, 0)] + ToBlocks(rest)
  {
    hide GetInt;
    assert (s + rest)[8..] == rest && (s + rest)[..8] == s;
    GetBlockOfPrefix(s + rest);
  }

  lemma BlocksAreRead()
    ensures ToBlocks(CIPHERTEXT) == CIPHER_BLOCKS
  {
    WordsAreRead();
    hide GetBlock;
    BlockIsRead(C3, []);
    BlockIsRead(C2, C3 + []);
    BlockIsRead(C1, C2 + (C3 + []));
  }

  lemma WordsAreRead()
    ensures GetBlock(C1, 0) == CIPHER_BLOCKS[0]
    ensures GetBlock(C2, 0) == CIPHER_BLOCKS[1]
    ensures GetBlock(C3, 0) == CIPHER_BLOCKS[2]
  {
  }

  /** A block is joined with the last output of the block transform before, and its own output with the last ciphertext. */
  lemma OneBlock(k: Key, c: Block, rest: seq<Block>, prevD: Block, prevC: Block, d: Block)
    requires Decrypted(Xor(c, prevD), k) == d
    ensures DecryptFrom(k, [c] + rest, prevD, prevC) == [Xor(d, prevC)] + DecryptFrom(k, rest, d, c)
  {
    hide Xor, Decrypted;
    assert ([c] + rest)[1..] == rest;
  }

  lemma ChainIsDecrypted()
    ensures DecryptFrom(KEY, CIPHER_BLOCKS, ZERO, ZERO) == PLAIN_BLOCKS
  {
    FirstBlock();
    SecondBlock();
    ThirdBlock();
    hide Decrypted;
    var c1, c2, c3 := CIPHER_BLOCKS[0], CIPHER_BLOCKS[1], CIPHER_BLOCKS[2];
    var d1, d2, d3 := Block(0xADADADAF, 0xADADADAD), Block(0x5A757303, 0x1CCC4C9E), Block(0xEF98468D, 0x6B53084D);
    OneBlock(KEY, c3, [], d2, c2, d3);
    OneBlock(KEY, c2, [c3] + [], d1, c1, d2);
    OneBlock(KEY, c1, [c2] + ([c3] + []), ZERO, ZERO, d1);
    assert CIPHER_BLOCKS == [c1] + ([c2] + ([c3] + []));
    assert PLAIN_BLOCKS == [Xor(d1, ZERO)] + ([Xor(d2, c1)] + ([Xor(d3, c2)] + []));
  }

  lemma BlockIsWritten(b: Block, rest: seq<Block>)
    ensures FromBlocks([b] + rest) == BlockBytes(b) + FromBlocks(rest)
  {
    hide BlockBytes;
    assert ([b] + rest)[1..] == rest;
  }

  lemma BlocksAreWritten()
    ensures FromBlocks(PLAIN_BLOCKS) == PADDED
  {
    WordsAreWritten();
    hide BlockBytes;
    var p1, p2, p3 := PLAIN_BLOCKS[0], PLAIN_BLOCKS[1], PLAIN_BLOCKS[2];
    BlockIsWritten(p3, []);
    BlockIsWritten(p2, [p3] + []);
    BlockIsWritten(p1, [p2] + ([p3] + []));
    assert PLAIN_BLOCKS == [p1] + ([p2] + ([p3] + []));
  }

  lemma WordsAreWritten()
    ensures BlockBytes(PLAIN_BLOCKS[0]) == P1
    ensures BlockBytes(PLAIN_BLOCKS[1]) == P2
    ensures BlockBytes(PLAIN_BLOCKS[2]) == P3
  {
  }

  lemma HeaderIsDeclared()
    ensures DeclaredHeaderLen(0xAF) == 10
  {
    assert (0xAF as byte) & 7 == 7;
    assert ToInt(7) == 7;
  }

  lemma PaddingIsRemoved()
    ensures Unpadded(PADDED) == Ok(TEXT)
  {
    hide DeclaredHeaderLen;
    HeaderIsDeclared();
    assert PADDED[17..] == Zeros(7);
    assert PADDED[10..17] == TEXT;
  }

  lemma DecodesBy(key: Bytes, c: Bytes, k: Key, cs: seq<Block>, ps: seq<Block>, padded: Bytes, text: Bytes)
    requires |key| == KEY_LEN && |c| > 0 && |c| % 8 == 0
    requires ReadKeyWords(key) == k && ToBlocks(c) == cs
    requires DecryptFrom(k, cs, ZERO, ZERO) == ps && FromBlocks(ps) == padded
    requires |padded| > 0 && |padded| % 8 == 0 && Unpadded(padded) == Ok(text)
    ensures Decoding(key + c) == Ok(text)
  {
    hide ReadKeyWords, ToBlocks, DecryptFrom, FromBlocks, Unpadded;
    assert (key + c)[..KEY_LEN] == key && (key + c)[KEY_LEN..] == c;
  }

  /** The payload decodes to the text. */
  lemma PayloadIsDecoded()
    ensures Decoding(KEY_BYTES + CIPHERTEXT) == Ok(TEXT)
  {
    hide ReadKeyWords, ToBlocks, DecryptFrom, FromBlocks, Unpadded, Decoding;
    KeyIsRead();
    BlocksAreRead();
    ChainIsDecrypted();
    BlocksAreWritten();
    PaddingIsRemoved();
    DecodesBy(KEY_BYTES, CIPHERTEXT, KEY, CIPHER_BLOCKS, PLAIN_BLOCKS, PADDED, TEXT);
  }

  /** And encrypting the padded buffer gives the ciphertext. Its first byte is one that `encrypt` never writes itself. */
  lemma ChainIsEncrypted()
    ensures EncryptedBytes(PADDED, ReadKeyWords(KEY_BYTES)) == CIPHERTEXT
    ensures PADDED[0] >= 8
  {
    KeyIsRead();
    BlocksAreRead();
    ChainIsDecrypted();
    BlocksAreWritten();
    assert DecryptedBytes(CIPHERTEXT, KEY) == PADDED by {
      hide ReadKeyWords, ToBlocks, DecryptFrom, FromBlocks;
    }
    ChainInverse(CIPHERTEXT, KEY);
    hide ReadKeyWords, ToBlocks, DecryptFrom, FromBlocks, EncryptedBytes, DecryptedBytes;
  }
}
