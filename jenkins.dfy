/**
 Bob Jenkins' 96-bit integer mix, as used by the bloom filter to turn a
 (hash key, element) pair into a 32-bit value. All arithmetic is on 32-bit
 unsigned words, so `bv32` gives exactly the source's wrap-around.
 */
module Jenkins {

  /** The low 32 bits of a 64-bit key (the word `a` starts from). */
  function Lo(key: bv64): bv32 {
    (key & 0xFFFF_FFFF) as bv32
  }

  /** The high 32 bits of a 64-bit key (the word `b` starts from). */
  function Hi(key: bv64): bv32 {
    (key >> 32) as bv32
  }

  /** Rebuilds a 64-bit key from its high and low words. */
  function Join(hi: bv32, lo: bv32): bv64 {
    (hi as bv64 << 32) | lo as bv64
  }

  /** Splitting a key into the words `b` and `a` loses nothing. */
  lemma SplitJoin(key: bv64)
    ensures Join(Hi(key), Lo(key)) == key
  {
  }

  /** Joining two words and splitting again gives the words back. */
  lemma JoinSplit(hi: bv32, lo: bv32)
    ensures Hi(Join(hi, lo)) == hi && Lo(Join(hi, lo)) == lo
  {
  }

  /**
   The mix as the source writes it: nine subtract/xor/shift steps over the
   words a, b, c, returning the final c.
   */
  function HashMix(key: bv64, c: bv32): bv32 {
    var a0, b0, c0 := Lo(key), Hi(key), c;
    var a1 := (a0 - (b0 + c0)) ^ (c0 >> 13);
    var b1 := (b0 - (c0 + a1)) ^ (a1 << 8);
    var c1 := (c0 - (a1 + b1)) ^ (b1 >> 13);
    var a2 := (a1 - (b1 + c1)) ^ (c1 >> 12);
    var b2 := (b1 - (c1 + a2)) ^ (a2 << 16);
    var c2 := (c1 - (a2 + b2)) ^ (b2 >> 5);
    var a3 := (a2 - (b2 + c2)) ^ (c2 >> 3);
    var b3 := (b2 - (c2 + a3)) ^ (a3 << 10);
    var c3 := (c2 - (a3 + b3)) ^ (b3 >> 15);
    c3
  }

  lemma KnownAnswers()
    ensures HashMix(0, 0) == 0
    ensures HashMix(0, 1) == 0xed37d444
    ensures HashMix(0x6b8b_4567, 0) == 0x43d5_31ec
    ensures HashMix(0x6b8b_4567, 1) == 0xcdfc_9bd5
    ensures HashMix(0x1234_5678_9abc_def0, 42) == 0x053c_5e43
  {
  }
}
