/** The 16-round block transform shared by TeaCipher and QqTeaCipher, on 32-bit words. */
module TeaBlock {

  type word = bv32

  /** One 8-byte block, read as two little-endian words. */
  datatype Block = Block(v0: word, v1: word)

  /** The four words of a 16-byte key. */
  datatype Key = Key(k0: word, k1: word, k2: word, k3: word)

  const DELTA: word := 0x61C88647
  const ENCRYPT_SUM: word := 0x9E3779B9
  const DECRYPT_SUM: word := 0xE3779B90
  const ROUNDS: nat := 16

  /** `>>` on bit-vectors is the logical shift, the source's `>>>`. */
  function Term(v: word, sum: word, ka: word, kb: word): word {
    ((v << 4) + ka) ^ (v + sum) ^ ((v >> 5) + kb)
  }

  /** Wrapping addition and subtraction, named so that proofs can treat them as symbols. */
  function Plus(a: word, b: word): word { a + b }

  function Minus(a: word, b: word): word { a - b }

  lemma PlusMinusCancel(a: word, t: word)
    ensures Minus(Plus(a, t), t) == a
    ensures Plus(Minus(a, t), t) == a
  {
    assert Minus(a + t, t) == a;
    assert Plus(a - t, t) == a;
  }

  // ---- One round and its inverse

  function EncryptRound(b: Block, k: Key, sum: word): Block {
    var v0 := Plus(b.v0, Term(b.v1, sum, k.k0, k.k1));
    Block(v0, Plus(b.v1, Term(v0, sum, k.k2, k.k3)))
  }

  function DecryptRound(b: Block, k: Key, sum: word): Block {
    var v1 := Minus(b.v1, Term(b.v0, sum, k.k2, k.k3));
    Block(Minus(b.v0, Term(v1, sum, k.k0, k.k1)), v1)
  }

  lemma RoundsCancel(b: Block, k: Key, sum: word)
    ensures DecryptRound(EncryptRound(b, k, sum), k, sum) == b
    ensures EncryptRound(DecryptRound(b, k, sum), k, sum) == b
  {
    hide Term, Plus, Minus;
    var e, d := EncryptRound(b, k, sum), DecryptRound(b, k, sum);
    PlusMinusCancel(b.v0, Term(b.v1, sum, k.k0, k.k1));
    PlusMinusCancel(b.v1, Term(e.v0, sum, k.k2, k.k3));
    PlusMinusCancel(b.v1, Term(b.v0, sum, k.k2, k.k3));
    PlusMinusCancel(b.v0, Term(d.v1, sum, k.k0, k.k1));
  }

  // ---- The two sum schedules

  /** The sum used by encryption round `i`, counted from 0. */
  function EncryptSum(i: nat): word {
    if i == 0 then ENCRYPT_SUM else Minus(EncryptSum(i - 1), DELTA)
  }

  /** The sum used by decryption round `i`, counted from 0. */
  function DecryptSum(i: nat): word {
    if i == 0 then DECRYPT_SUM else Plus(DecryptSum(i - 1), DELTA)
  }

  /** Decryption starts at the sum encryption ends with and walks the schedule backwards. */
  lemma {:induction false} SchedulesAreReversed(i: nat)
    requires i < ROUNDS
    ensures DecryptSum(i) == EncryptSum(ROUNDS - 1 - i)
  {
    if i == 0 {
      assert EncryptSum(3) == 0x78DDE6E4;
      assert EncryptSum(7) == 0xF1BBCDC8;
      assert EncryptSum(11) == 0x6A99B4AC;
      assert EncryptSum(15) == DECRYPT_SUM;
    } else {
      SchedulesAreReversed(i - 1);
      PlusMinusCancel(EncryptSum(ROUNDS - 1 - i), DELTA);
    }
  }

  // ---- All rounds

  function EncryptRounds(b: Block, k: Key, n: nat): Block {
    if n == 0 then b else EncryptRound(EncryptRounds(b, k, n - 1), k, EncryptSum(n - 1))
  }

  function DecryptRounds(b: Block, k: Key, n: nat): Block {
    if n == 0 then b else DecryptRound(DecryptRounds(b, k, n - 1), k, DecryptSum(n - 1))
  }

  ghost function Encrypted(b: Block, k: Key): Block { EncryptRounds(b, k, ROUNDS) }

  ghost function Decrypted(b: Block, k: Key): Block { DecryptRounds(b, k, ROUNDS) }

  lemma {:induction false} DecryptUndoesLastRounds(b: Block, k: Key, n: nat)
    requires n <= ROUNDS
    ensures DecryptRounds(Encrypted(b, k), k, n) == EncryptRounds(b, k, ROUNDS - n)
  {
    hide Term, Plus, Minus, EncryptRound, DecryptRound;
    if n > 0 {
      DecryptUndoesLastRounds(b, k, n - 1);
      SchedulesAreReversed(n - 1);
      RoundsCancel(EncryptRounds(b, k, ROUNDS - n), k, EncryptSum(ROUNDS - n));
    }
  }

  lemma {:induction false} EncryptUndoesLastRounds(c: Block, k: Key, n: nat)
    requires n <= ROUNDS
    ensures EncryptRounds(Decrypted(c, k), k, n) == DecryptRounds(c, k, ROUNDS - n)
  {
    hide Term, Plus, Minus, EncryptRound, DecryptRound;
    if n > 0 {
      EncryptUndoesLastRounds(c, k, n - 1);
      SchedulesAreReversed(ROUNDS - n);
      RoundsCancel(DecryptRounds(c, k, ROUNDS - n), k, DecryptSum(ROUNDS - n));
    }
  }

  /** For every key the block transform is a bijection and the two methods are its two directions. */
  lemma BlockInverse(b: Block, k: Key)
    ensures Decrypted(Encrypted(b, k), k) == b
    ensures Encrypted(Decrypted(b, k), k) == b
  {
    DecryptUndoesLastRounds(b, k, ROUNDS);
    EncryptUndoesLastRounds(b, k, ROUNDS);
  }

  // ---- The loops

  method EncryptBlock(b: Block, k: Key) returns (r: Block)
    ensures r == Encrypted(b, k)
    ensures Decrypted(r, k) == b
  {
    hide Term, Plus, Minus;
    var v0, v1, sum := b.v0, b.v1, ENCRYPT_SUM;
    for i := 0 to ROUNDS
      invariant Block(v0, v1) == EncryptRounds(b, k, i)
      invariant sum == EncryptSum(i)
    {
      var term2 := Term(v1, sum, k.k0, k.k1);
      v0 := Plus(v0, term2);
      var term1 := Term(v0, sum, k.k2, k.k3);
      v1 := Plus(v1, term1);
      sum := Minus(sum, DELTA);
    }
    BlockInverse(b, k);
    r := Block(v0, v1);
  }

  method DecryptBlock(b: Block, k: Key) returns (r: Block)
    ensures r == Decrypted(b, k)
    ensures Encrypted(r, k) == b
  {
    hide Term, Plus, Minus;
    var v0, v1, sum := b.v0, b.v1, DECRYPT_SUM;
    for i := 0 to ROUNDS
      invariant Block(v0, v1) == DecryptRounds(b, k, i)
      invariant sum == DecryptSum(i)
    {
      var term1 := Term(v0, sum, k.k2, k.k3);
      v1 := Minus(v1, term1);
      var term2 := Term(v1, sum, k.k0, k.k1);
      v0 := Minus(v0, term2);
      sum := Plus(sum, DELTA);
    }
    BlockInverse(b, k);
    r := Block(v0, v1);
  }
}
