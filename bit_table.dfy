/**
 The packed bit table: bit `index` of the filter lives in byte `index / 8`
 at position `index % 8`. The table is a sequence of bytes here; the class
 in BloomFilter keeps it in an array and reads it through `[..]`.
 */
module BitTable {

  /**
   The mask of bit position `b` within a byte, as a table of the eight
   values: the solver handles it far more cheaply than a shift by a variable
   amount. `BitMaskIsShift` shows it is the source's `1 << b`.
   */
  function BitMask(b: nat): bv8
    requires b < 8
  {
    match b
    case 0 => 0x01
    case 1 => 0x02
    case 2 => 0x04
    case 3 => 0x08
    case 4 => 0x10
    case 5 => 0x20
    case 6 => 0x40
    case 7 => 0x80
  }

  /** The table of masks is the source's `1 << b`. */
  lemma BitMaskIsShift(b: nat)
    requires b < 8
    ensures BitMask(b) == 1 << b
  {
  }

  /** The byte mask of bit `index`: `1 << (index % 8)`. */
  function Mask(index: nat): bv8 {
    BitMask(index % 8)
  }

  /** Bit `index` has a byte to live in. */
  predicate InTable(t: seq<bv8>, index: nat) {
    index / 8 < |t|
  }

  /** Whether bit `index` is set (the test in `contains`). */
  predicate IsSet(t: seq<bv8>, index: nat)
    requires InTable(t, index)
  {
    t[index / 8] & Mask(index) != 0
  }

  /** Two bit positions of one byte: setting the first one sets exactly it. */
  lemma OrMask(x: bv8, p: nat, q: nat)
    requires p < 8 && q < 8
    ensures (x | BitMask(p)) & BitMask(q) != 0 <==> x & BitMask(q) != 0 || p == q
  {
  }

  /** Sets bit `index` by OR-ing its mask into its byte (the store in `insert`). */
  function SetBit(t: seq<bv8>, index: nat): (r: seq<bv8>)
    requires InTable(t, index)
    ensures |r| == |t|
  {
    t[index / 8 := t[index / 8] | Mask(index)]
  }

  /** Setting bit `index` sets exactly that bit; every other bit keeps its value. */
  lemma SetBitExactly(t: seq<bv8>, index: nat)
    requires InTable(t, index)
    ensures forall k: nat :: InTable(t, k) ==> (IsSet(SetBit(t, index), k) <==> IsSet(t, k) || k == index)
  {
    forall k: nat | InTable(t, k)
      ensures IsSet(SetBit(t, index), k) <==> IsSet(t, k) || k == index
    {
      SetBitAt(t, index, k);
    }
  }

  lemma SetBitAt(t: seq<bv8>, index: nat, k: nat)
    requires InTable(t, index) && InTable(t, k)
    ensures IsSet(SetBit(t, index), k) <==> IsSet(t, k) || k == index
  {
    if k / 8 == index / 8 {
      OrMask(t[k / 8], index % 8, k % 8);
      assert k == index <==> k % 8 == index % 8;
    }
  }

  /** Bit `b` of one byte. */
  predicate BitOf(x: bv8, b: nat)
    requires b < 8
  {
    x & BitMask(b) != 0
  }

  /** A byte is determined by its eight bits. */
  lemma ByteFromBits(x: bv8, y: bv8)
    requires forall b: nat :: b < 8 ==> BitOf(x, b) == BitOf(y, b)
    ensures x == y
  {
    assert BitOf(x, 0) == BitOf(y, 0) && BitOf(x, 1) == BitOf(y, 1);
    assert BitOf(x, 2) == BitOf(y, 2) && BitOf(x, 3) == BitOf(y, 3);
    assert BitOf(x, 4) == BitOf(y, 4) && BitOf(x, 5) == BitOf(y, 5);
    assert BitOf(x, 6) == BitOf(y, 6) && BitOf(x, 7) == BitOf(y, 7);
  }

  /** Two tables of one length with the same bits set are the same table. */
  lemma TableFromBits(t: seq<bv8>, u: seq<bv8>)
    requires |t| == |u|
    requires forall k: nat :: InTable(t, k) ==> IsSet(t, k) == IsSet(u, k)
    ensures t == u
  {
    forall p | 0 <= p < |t|
      ensures t[p] == u[p]
    {
      forall b: nat | b < 8
        ensures BitOf(t[p], b) == BitOf(u[p], b)
      {
        var k := 8 * p + b;
        assert k / 8 == p && k % 8 == b;
        assert InTable(t, k);
      }
      ByteFromBits(t[p], u[p]);
    }
  }
}
