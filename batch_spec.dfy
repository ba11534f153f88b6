/**
 What a batch does to the bit table, as functions on values: the scratch
 sequence of bit indices that the hash phase of `insert` fills, the OR of
 those indices into the table, and the per-element test of `contains`.
 The class in BloomFilter is proved against these definitions.
 */
module BatchSpec {
  import opened Jenkins
  import opened BitTable

  /**
   The part of a filter that fixes where an element's bits are: the hash
   keys, how many of them are used, and the number of addressable bits.
   */
  datatype Config = Config(keys: seq<bv64>, numHashes: nat, bitSize: nat) {
    predicate Valid() {
      numHashes <= |keys| && 0 < bitSize
    }
  }

  /** Every bit index the configuration can produce has a byte in `t`. */
  predicate Fits(cfg: Config, t: seq<bv8>) {
    cfg.Valid() && cfg.bitSize <= 8 * |t|
  }

  /** A bit index below `8 * size` has its byte among the first `size`. */
  lemma ByteBelow(index: nat, size: nat)
    requires index < 8 * size
    ensures index / 8 < size
  {
  }

  /** The bit index of hash function `j` for element `x`. */
  function Probe(cfg: Config, j: nat, x: bv32): (index: nat)
    requires cfg.Valid() && j < cfg.numHashes
    ensures index < cfg.bitSize
  {
    var v: int := HashMix(cfg.keys[j], x) as int;
    v % cfg.bitSize
  }

  /** Every probe of a configuration that fits the table has its byte there. */
  lemma ProbeInTable(cfg: Config, t: seq<bv8>, j: nat, x: bv32)
    requires Fits(cfg, t) && j < cfg.numHashes
    ensures InTable(t, Probe(cfg, j, x))
  {
    ByteBelow(Probe(cfg, j, x), |t|);
  }

  /** The bit indices of one element, one per hash function, in order. */
  function Row(cfg: Config, x: bv32): (r: seq<nat>)
    requires cfg.Valid()
    ensures |r| == cfg.numHashes
  {
    seq(cfg.numHashes, j requires 0 <= j < cfg.numHashes => Probe(cfg, j, x))
  }

  /**
   The scratch buffer of `insert`: the rows of the batch elements laid end to
   end, so slot `i * numHashes + j` belongs to element `i` and hash `j`.
   */
  function Scratch(cfg: Config, batch: seq<bv32>): (r: seq<nat>)
    requires cfg.Valid()
    ensures |r| == |batch| * cfg.numHashes
    ensures forall s :: 0 <= s < |r| ==> r[s] < cfg.bitSize
    decreases |batch|
  {
    if batch == [] then []
    else
      var n := |batch|;
      var r := Scratch(cfg, batch[..n - 1]) + Row(cfg, batch[n - 1]);
      assert |r| == (n - 1) * cfg.numHashes + cfg.numHashes == n * cfg.numHashes;
      r
  }

  /** Slot `i * h + j` of a batch of `n` elements with `h` hashes is in range. */
  lemma SlotInRange(n: nat, h: nat, i: nat, j: nat)
    requires i < n && j < h
    ensures i * h + j < n * h
  {
    assert i * h + j < i * h + h == (i + 1) * h;
    assert (i + 1) * h <= n * h;
  }

  /** Distinct (element, hash) pairs own distinct scratch slots. */
  lemma SlotsDistinct(h: nat, i: nat, j: nat, i': nat, j': nat)
    requires j < h && j' < h
    requires i * h + j == i' * h + j'
    ensures i == i' && j == j'
  {
    if i < i' {
      SlotInRange(i', h, i, j);
      assert false;
    } else if i' < i {
      SlotInRange(i, h, i', j');
      assert false;
    }
  }

  /**
   Slot `i * numHashes + j` of the scratch buffer holds the bit index of hash
   `j` for element `i`.
   */
  lemma {:induction false} ScratchSlot(cfg: Config, batch: seq<bv32>, i: nat, j: nat)
    requires cfg.Valid()
    requires i < |batch| && j < cfg.numHashes
    ensures i * cfg.numHashes + j < |Scratch(cfg, batch)|
    ensures Scratch(cfg, batch)[i * cfg.numHashes + j] == Probe(cfg, j, batch[i])
  {
    var n, h := |batch|, cfg.numHashes;
    SlotInRange(n, h, i, j);
    var front := Scratch(cfg, batch[..n - 1]);
    assert Scratch(cfg, batch) == front + Row(cfg, batch[n - 1]);
    if i == n - 1 {
      assert |front| == i * h;
    } else {
      ScratchSlot(cfg, batch[..n - 1], i, j);
    }
  }

  /**
   One step of the hash phase: if the scratch buffer held the rows of the
   first `i` elements, then after row `i` is written past them it holds the
   rows of the first `i + 1`.
   */
  lemma ScratchGrows(cfg: Config, batch: seq<bv32>, i: nat, previous: seq<nat>, current: seq<nat>, base: nat)
    requires cfg.Valid() && i < |batch|
    requires base + cfg.numHashes <= |previous| == |current|
    requires previous[..base] == Scratch(cfg, batch[..i])
    requires current[..base] == previous[..base]
    requires current[base..base + cfg.numHashes] == Row(cfg, batch[i])
    ensures current[..base + cfg.numHashes] == Scratch(cfg, batch[..i + 1])
  {
    assert batch[..i + 1][..i] == batch[..i];
    assert current[..base + cfg.numHashes] == current[..base] + current[base..base + cfg.numHashes];
  }

  /** The elements of a batch, forgetting order and repetition. */
  function Elements(batch: seq<bv32>): set<bv32> {
    set x | x in batch
  }

  /** The elements of two batches laid end to end are the elements of either. */
  lemma ElementsAppend(b1: seq<bv32>, b2: seq<bv32>)
    ensures Elements(b1 + b2) == Elements(b1) + Elements(b2)
  {
    forall x | x in Elements(b1 + b2)
      ensures x in Elements(b1) + Elements(b2)
    {
      var s :| 0 <= s < |b1 + b2| && (b1 + b2)[s] == x;
      if s < |b1| {
        assert b1[s] == x;
      } else {
        assert b2[s - |b1|] == x;
      }
    }
  }

  /** The bits that a set of elements implies: every hash of every element. */
  function ImpliedBits(cfg: Config, xs: set<bv32>): set<nat>
    requires cfg.Valid()
  {
    set x, j | x in xs && 0 <= j < cfg.numHashes :: Probe(cfg, j, x)
  }

  /** The scratch buffer holds exactly the bits the batch's elements imply. */
  lemma {:induction false} ScratchHoldsImpliedBits(cfg: Config, batch: seq<bv32>)
    requires cfg.Valid()
    ensures forall k :: k in Scratch(cfg, batch) <==> k in ImpliedBits(cfg, Elements(batch))
  {
    if batch != [] {
      var n := |batch|;
      var front, last := batch[..n - 1], batch[n - 1];
      ScratchHoldsImpliedBits(cfg, front);
      assert Scratch(cfg, batch) == Scratch(cfg, front) + Row(cfg, last);
      assert Elements(batch) == Elements(front) + {last} by {
        assert batch == front + [last];
      }
      forall k
        ensures k in Scratch(cfg, batch) <==> k in ImpliedBits(cfg, Elements(batch))
      {
        if k in Row(cfg, last) {
          var j :| 0 <= j < cfg.numHashes && Row(cfg, last)[j] == k;
          assert k == Probe(cfg, j, last);
        }
        if k in ImpliedBits(cfg, Elements(batch)) {
          var x, j :| x in Elements(batch) && 0 <= j < cfg.numHashes && k == Probe(cfg, j, x);
          if x == last {
            assert Row(cfg, last)[j] == k;
          } else {
            assert k in ImpliedBits(cfg, Elements(front));
          }
        }
      }
    }
  }

  /** The serial phase of `insert`: OR every index of `idx` into the table, first to last. */
  function OrAll(t: seq<bv8>, idx: seq<nat>): (r: seq<bv8>)
    requires forall s :: 0 <= s < |idx| ==> InTable(t, idx[s])
    ensures |r| == |t|
    decreases |idx|
  {
    if idx == [] then t
    else
      var n := |idx|;
      var front := OrAll(t, idx[..n - 1]);
      assert InTable(front, idx[n - 1]) by {
        assert InTable(t, idx[n - 1]);
      }
      SetBit(front, idx[n - 1])
  }

  /**
   After OR-ing in `idx`, a bit is set exactly when it was set before or it
   is one of the indices.
   */
  lemma {:induction false} OrAllExactly(t: seq<bv8>, idx: seq<nat>)
    requires forall s :: 0 <= s < |idx| ==> InTable(t, idx[s])
    ensures forall k: nat :: InTable(t, k) ==> (IsSet(OrAll(t, idx), k) <==> IsSet(t, k) || k in idx)
    decreases |idx|
  {
    if idx != [] {
      var n := |idx|;
      var front := OrAll(t, idx[..n - 1]);
      OrAllExactly(t, idx[..n - 1]);
      SetBitExactly(front, idx[n - 1]);
      assert idx == idx[..n - 1] + [idx[n - 1]];
    }
  }

  /** The table after `insert` of `batch`: the scratch indices OR-ed in. */
  function InsertBatch(cfg: Config, t: seq<bv8>, batch: seq<bv32>): (r: seq<bv8>)
    requires Fits(cfg, t)
    ensures |r| == |t|
  {
    OrAll(t, Scratch(cfg, batch))
  }

  /**
   `insert` sets the bits the batch implies and no others; bits set before
   stay set.
   */
  lemma InsertSetsImpliedBits(cfg: Config, t: seq<bv8>, batch: seq<bv32>)
    requires Fits(cfg, t)
    ensures forall k: nat :: InTable(t, k) ==>
      (IsSet(InsertBatch(cfg, t, batch), k) <==> IsSet(t, k) || k in ImpliedBits(cfg, Elements(batch)))
  {
    OrAllExactly(t, Scratch(cfg, batch));
    ScratchHoldsImpliedBits(cfg, batch);
  }

  /** The test `contains` makes of one element: all its bits are set. */
  predicate MayContain(cfg: Config, t: seq<bv8>, x: bv32)
    requires Fits(cfg, t)
  {
    forall j :: 0 <= j < cfg.numHashes ==> IsSet(t, Probe(cfg, j, x))
  }

  /** No false negatives: after `insert`, every element of the batch is reported. */
  lemma NoFalseNegatives(cfg: Config, t: seq<bv8>, batch: seq<bv32>, x: bv32)
    requires Fits(cfg, t)
    requires x in batch
    ensures MayContain(cfg, InsertBatch(cfg, t, batch), x)
  {
    InsertSetsImpliedBits(cfg, t, batch);
    forall j | 0 <= j < cfg.numHashes
      ensures IsSet(InsertBatch(cfg, t, batch), Probe(cfg, j, x))
    {
      assert Probe(cfg, j, x) in ImpliedBits(cfg, Elements(batch));
    }
  }

  /** A later `insert` never turns a reported element into an unreported one. */
  lemma InsertKeepsMembers(cfg: Config, t: seq<bv8>, batch: seq<bv32>, x: bv32)
    requires Fits(cfg, t)
    requires MayContain(cfg, t, x)
    ensures MayContain(cfg, InsertBatch(cfg, t, batch), x)
  {
    InsertSetsImpliedBits(cfg, t, batch);
  }

  /** Inserting the same batch twice leaves the table as inserting it once. */
  lemma InsertIdempotent(cfg: Config, t: seq<bv8>, batch: seq<bv32>)
    requires Fits(cfg, t)
    ensures InsertBatch(cfg, InsertBatch(cfg, t, batch), batch) == InsertBatch(cfg, t, batch)
  {
    var once := InsertBatch(cfg, t, batch);
    InsertSetsImpliedBits(cfg, t, batch);
    InsertSetsImpliedBits(cfg, once, batch);
    TableFromBits(InsertBatch(cfg, once, batch), once);
  }

  /**
   The table after `insert` depends only on which elements the batch holds,
   not on their order or repetition: any schedule of the batch gives the
   same table.
   */
  lemma InsertOrderIrrelevant(cfg: Config, t: seq<bv8>, b1: seq<bv32>, b2: seq<bv32>)
    requires Fits(cfg, t)
    requires Elements(b1) == Elements(b2)
    ensures InsertBatch(cfg, t, b1) == InsertBatch(cfg, t, b2)
  {
    InsertSetsImpliedBits(cfg, t, b1);
    InsertSetsImpliedBits(cfg, t, b2);
    TableFromBits(InsertBatch(cfg, t, b1), InsertBatch(cfg, t, b2));
  }

  /** The bits implied by a union of elements are the union of their bits. */
  lemma ImpliedBitsUnion(cfg: Config, xs: set<bv32>, ys: set<bv32>)
    requires cfg.Valid()
    ensures ImpliedBits(cfg, xs + ys) == ImpliedBits(cfg, xs) + ImpliedBits(cfg, ys)
  {
    forall k | k in ImpliedBits(cfg, xs + ys)
      ensures k in ImpliedBits(cfg, xs) + ImpliedBits(cfg, ys)
    {
      var x, j :| x in xs + ys && 0 <= j < cfg.numHashes && k == Probe(cfg, j, x);
      if x in xs {
        assert k in ImpliedBits(cfg, xs);
      } else {
        assert k in ImpliedBits(cfg, ys);
      }
    }
  }

  /** Two inserts in a row leave the table as one insert of both batches. */
  lemma InsertTwice(cfg: Config, t: seq<bv8>, b1: seq<bv32>, b2: seq<bv32>)
    requires Fits(cfg, t)
    ensures InsertBatch(cfg, InsertBatch(cfg, t, b1), b2) == InsertBatch(cfg, t, b1 + b2)
  {
    var mid := InsertBatch(cfg, t, b1);
    InsertSetsImpliedBits(cfg, t, b1);
    InsertSetsImpliedBits(cfg, mid, b2);
    InsertSetsImpliedBits(cfg, t, b1 + b2);
    ElementsAppend(b1, b2);
    ImpliedBitsUnion(cfg, Elements(b1), Elements(b2));
    TableFromBits(InsertBatch(cfg, mid, b2), InsertBatch(cfg, t, b1 + b2));
  }

  /** A table of zero bytes reports no element, when at least one hash is used. */
  lemma ZeroTableReportsNothing(cfg: Config, t: seq<bv8>, x: bv32)
    requires Fits(cfg, t) && 0 < cfg.numHashes
    requires forall p :: 0 <= p < |t| ==> t[p] == 0
    ensures !MayContain(cfg, t, x)
  {
    assert !IsSet(t, Probe(cfg, 0, x));
  }
}
