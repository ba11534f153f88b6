/**
 The filter object `concurrent_bloom`: a packed byte table updated in place,
 the hash keys drawn at construction, and the two batch operations. The
 OpenMP parallel loops are sequential loops here: their iterations write
 disjoint scratch slots (insert) or only read the table (contains), and the
 lemmas in BatchSpec show the outcome does not depend on the order of the
 batch elements.
 */
module BloomFilter {
  import opened Jenkins
  import opened BitTable
  import opened BatchSpec

  const DefaultNumHashes: nat := 20
  /** 128 MiB, the default `table_size`. */
  const DefaultTableSize: nat := 128 * 1024 * 1024
  /**
   The value `table_bit_size` always has: its default member initializer is
   computed from the default `table_size`, before any constructor body runs.
   */
  const DefaultTableBitSize: nat := DefaultTableSize * 8
  /** The largest C `int` (the loop counters are `int`). */
  const IntMax: nat := 0x7FFF_FFFF
  /** One past the largest `uint32_t`. */
  const UInt32Bound: nat := 0x1_0000_0000

  /**
   The C library generator: `rand(seed, i)` is the value of the i-th call of
   `rand()` after `srand(seed)`. Its algorithm is not part of this model.
   */
  type RandStream = (int, nat) -> bv64

  /**
   The constructors' key loop: `hashes + 1` draws (the loop runs while
   `i <= num_hashes`), of which `insert` and `contains` use the first
   `hashes`.
   */
  method DrawKeys(rand: RandStream, seed: int, hashes: nat) returns (keys: seq<bv64>)
    requires hashes < IntMax
    ensures |keys| == hashes + 1
    ensures forall i :: 0 <= i < |keys| ==> keys[i] == rand(seed, i)
  {
    keys := [];
    var i := 0;
    while i <= hashes
      invariant 0 <= i <= hashes + 1
      invariant |keys| == i
      invariant forall k :: 0 <= k < i ==> keys[k] == rand(seed, k)
    {
      keys := keys + [rand(seed, i)];
      i := i + 1;
    }
  }

  class ConcurrentBloom {
    var tableData: array<bv8>
    var hashKeys: seq<bv64>
    var numHashes: nat
    var tableSize: nat
    var tableBitSize: nat

    /** The shape every constructor leaves and no operation changes. */
    ghost predicate Valid()
      reads this
    {
      && tableData.Length == tableSize
      && |hashKeys| == numHashes + 1
      && numHashes < IntMax
      && tableSize < UInt32Bound
      && 0 < tableBitSize < UInt32Bound
    }

    /**
     Every bit index (below `tableBitSize`) has its byte in the table. The
     source does not check this; `insert` and `contains` index out of bounds
     without it.
     */
    ghost predicate IndexesFit()
      reads this
    {
      tableBitSize <= 8 * tableSize
    }

    /**
     The configuration that places an element's bits: bit index `j` of `x`
     is `Probe(Cfg(), j, x)`, the hash of `x` under key `j` modulo the
     number of addressable bits.
     */
    function Cfg(): Config
      reads this
    {
      Config(hashKeys, numHashes, tableBitSize)
    }

    /** The table's bytes. */
    ghost function Table(): seq<bv8>
      reads this, tableData
    {
      tableData[..]
    }

    /**
     The default constructor: seed 0, 20 hashes, a 128 MiB table whose
     bytes are whatever the allocator left (`initial`).
     */
    constructor (rand: RandStream, initial: seq<bv8>)
      requires |initial| == DefaultTableSize
      ensures Valid() && IndexesFit() && fresh(tableData)
      ensures numHashes == DefaultNumHashes
      ensures tableSize == DefaultTableSize && tableBitSize == DefaultTableBitSize
      ensures forall i :: 0 <= i < |hashKeys| ==> hashKeys[i] == rand(0, i)
      ensures Table() == initial
    {
      numHashes := DefaultNumHashes;
      tableSize := DefaultTableSize;
      tableBitSize := DefaultTableBitSize;
      tableData := new bv8[|initial|](p requires 0 <= p < |initial| => initial[p]);
      var keys := DrawKeys(rand, 0, DefaultNumHashes);
      hashKeys := keys;
    }

    /**
     The constructor with parameters, as written: it sets `table_size` and
     `num_hashes` but `table_bit_size` keeps its default, so the indexes fit
     only when the table has at least the default size.
     */
    constructor WithParams(seed: int, hashes: nat, size: nat, rand: RandStream, initial: seq<bv8>)
      requires hashes < IntMax && size < UInt32Bound
      requires |initial| == size
      ensures Valid() && fresh(tableData)
      ensures numHashes == hashes && tableSize == size
      ensures tableBitSize == DefaultTableBitSize
      ensures IndexesFit() <==> size >= DefaultTableSize
      ensures forall i :: 0 <= i < |hashKeys| ==> hashKeys[i] == rand(seed, i)
      ensures Table() == initial
    {
      tableSize := size;
      numHashes := hashes;
      tableBitSize := DefaultTableBitSize;
      tableData := new bv8[size](p requires 0 <= p < |initial| => initial[p]);
      var keys := DrawKeys(rand, seed, hashes);
      hashKeys := keys;
    }

    /**
     The constructor with parameters as evidently intended: `table_bit_size`
     follows the table's own size, so every index fits whatever the size.
     */
    constructor Sized(seed: int, hashes: nat, size: nat, rand: RandStream, initial: seq<bv8>)
      requires hashes < IntMax && 0 < size && 8 * size < UInt32Bound
      requires |initial| == size
      ensures Valid() && IndexesFit() && fresh(tableData)
      ensures numHashes == hashes && tableSize == size
      ensures tableBitSize == 8 * size
      ensures forall i :: 0 <= i < |hashKeys| ==> hashKeys[i] == rand(seed, i)
      ensures Table() == initial
    {
      tableSize := size;
      numHashes := hashes;
      tableBitSize := 8 * size;
      tableData := new bv8[size](p requires 0 <= p < |initial| => initial[p]);
      var keys := DrawKeys(rand, seed, hashes);
      hashKeys := keys;
    }

    /**
     The inner loop of the hash phase for one batch element `x`: slots
     `base .. base + numHashes` of the scratch array receive the element's
     bit indices; no other slot changes.
     */
    method HashRow(indexes: array<nat>, base: nat, x: bv32)
      requires Valid()
      requires base + numHashes <= indexes.Length
      modifies indexes
      ensures indexes[..base] == old(indexes[..base])
      ensures indexes[base..base + numHashes] == Row(Cfg(), x)
      ensures indexes[base + numHashes..] == old(indexes[base + numHashes..])
    {
      var j := 0;
      while j < numHashes
        invariant 0 <= j <= numHashes
        invariant indexes[..base] == old(indexes[..base])
        invariant indexes[base..base + j] == Row(Cfg(), x)[..j]
        invariant indexes[base + numHashes..] == old(indexes[base + numHashes..])
      {
        indexes[base + j] := Probe(Cfg(), j, x);
        assert indexes[base..base + j + 1] == indexes[base..base + j] + [indexes[base + j]];
        j := j + 1;
      }
    }

    /**
     The hash phase of `insert` (the parallel loop): a fresh scratch array
     whose slot `i * numHashes + j` holds the bit index of hash `j` for batch
     element `i`.
     */
    method HashPhase(batch: array<bv32>, batchSize: nat) returns (indexes: array<nat>)
      requires Valid()
      requires batchSize <= batch.Length
      requires batchSize * numHashes <= IntMax
      ensures fresh(indexes)
      ensures indexes[..] == Scratch(Cfg(), batch[..batchSize])
    {
      var h := numHashes;
      indexes := new nat[batchSize * h];
      var i := 0;
      ghost var base := 0;
      while i < batchSize
        invariant 0 <= i <= batchSize
        invariant base == i * h <= batchSize * h == indexes.Length
        invariant indexes[..base] == Scratch(Cfg(), batch[..i])
      {
        NextRow(batchSize, h, i);
        ghost var previous := indexes[..];
        HashRow(indexes, i * h, batch[i]);
        ScratchGrows(Cfg(), batch[..], i, previous, indexes[..], base);
        base := base + h;
        i := i + 1;
      }
      assert indexes[..base] == indexes[..];
    }

    /**
     `insert`: hash the batch into the scratch array, then OR every scratch
     index into its byte, in slot order.
     */
    method Insert(batch: array<bv32>, batchSize: nat)
      requires Valid() && IndexesFit()
      requires batchSize <= batch.Length
      requires batchSize * numHashes <= IntMax
      modifies tableData
      ensures Table() == InsertBatch(Cfg(), old(Table()), batch[..batchSize])
    {
      var indexes := HashPhase(batch, batchSize);
      ghost var before := tableData[..];
      forall s | 0 <= s < indexes.Length
        ensures InTable(before, indexes[s])
      {
        ByteBelow(indexes[s], tableSize);
      }
      OrIndexes(indexes);
      assert indexes[..] == Scratch(Cfg(), batch[..batchSize]);
    }

    /**
     The serial phase of `insert`: OR the bit of every scratch index into
     the table, in scratch order.
     */
    method OrIndexes(indexes: array<nat>)
      requires Valid()
      // A `uint32_t*` scratch buffer and the `uint8_t*` table cannot alias in C++.
      requires indexes as object != tableData
      requires forall s :: 0 <= s < indexes.Length ==> InTable(Table(), indexes[s])
      modifies tableData
      ensures Table() == OrAll(old(Table()), indexes[..])
    {
      ghost var before := tableData[..];
      var i := 0;
      while i < indexes.Length
        invariant 0 <= i <= indexes.Length
        invariant tableData[..] == OrAll(before, indexes[..i])
      {
        var index := indexes[i];
        ghost var current := tableData[..];
        assert InTable(current, index);
        tableData[index / 8] := tableData[index / 8] | Mask(index);
        assert tableData[..] == SetBit(current, index);
        assert indexes[..i + 1][..i] == indexes[..i];
        i := i + 1;
      }
      assert indexes[..i] == indexes[..];
    }

    /**
     The body of the parallel loop of `contains` for one element: test its
     bits in hash order and stop at the first clear one.
     */
    method Query(x: bv32) returns (flag: bool)
      requires Valid() && IndexesFit()
      ensures flag == MayContain(Cfg(), Table(), x)
    {
      flag := true;
      var j := 0;
      while j < numHashes
        invariant 0 <= j <= numHashes
        invariant forall j' :: 0 <= j' < j ==> IsSet(Table(), Probe(Cfg(), j', x))
      {
        var index := Probe(Cfg(), j, x);
        ProbeInTable(Cfg(), Table(), j, x);
        if tableData[index / 8] & Mask(index) == 0 {
          assert !IsSet(Table(), Probe(Cfg(), j, x));
          flag := false;
          break;
        }
        j := j + 1;
      }
    }

    /**
     `contains`: `boolArray[i]` becomes whether every bit of `batch[i]` is
     set, for each `i < batchSize`; the table and the rest of `boolArray`
     are left alone.
     */
    method Contains(batch: array<bv32>, batchSize: nat, boolArray: array<bool>)
      requires Valid() && IndexesFit()
      requires batchSize <= batch.Length && batchSize <= boolArray.Length
      // The `bool[]` answers, the `uint8_t*` table and the `uint32_t[]` batch have
      // different element types, so in C++ they cannot alias.
      requires boolArray as object != tableData && boolArray as object != batch
      modifies boolArray
      ensures unchanged(this, tableData)
      ensures forall i :: 0 <= i < batchSize ==> boolArray[i] == MayContain(Cfg(), Table(), batch[i])
      ensures forall i :: batchSize <= i < boolArray.Length ==> boolArray[i] == old(boolArray[i])
    {
      var i := 0;
      while i < batchSize
        invariant 0 <= i <= batchSize
        invariant forall i' :: 0 <= i' < i ==> boolArray[i'] == MayContain(Cfg(), Table(), batch[i'])
        invariant forall i' :: i <= i' < boolArray.Length ==> boolArray[i'] == old(boolArray[i'])
      {
        var flag := Query(batch[i]);
        boolArray[i] := flag;
        i := i + 1;
      }
    }
  }

  /** Moving from row `i` to row `i + 1` of an `n`-row, `h`-column buffer. */
  lemma NextRow(n: nat, h: nat, i: nat)
    requires i < n
    ensures (i + 1) * h == i * h + h <= n * h
  {
    assert (i + 1) * h <= n * h;
  }

  /**
   The three-argument constructor with a table smaller than 128 MiB: with
   one hash and first key 0x6b8b4567 (the first `rand()` of the GNU C
   library after `srand(0)`), element 1 lands on bit 234658773, whose byte
   29332346 is far past the end of a 1 KiB table. The second key `spare` is
   the extra draw, which no probe reads.
   */
  lemma SmallTableOverrun(spare: bv64, t: seq<bv8>)
    requires |t| == 1024
    ensures Config([0x6b8b_4567, spare], 1, DefaultTableBitSize).Valid()
    ensures Probe(Config([0x6b8b_4567, spare], 1, DefaultTableBitSize), 0, 1) == 234658773
    ensures !InTable(t, Probe(Config([0x6b8b_4567, spare], 1, DefaultTableBitSize), 0, 1))
  {
    KnownAnswers();
  }
}
