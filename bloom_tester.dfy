/**
 The driver that compares a filter filled on one thread with one filled on
 four: two default filters receive the same data batch, each answers
 `contains` for that batch, and the two answer arrays must agree. Thread
 counts do not exist in this model, so the comparison is stated for any
 two default filters, whatever bytes their tables started with.
 */
module BloomTester {
  import opened BatchSpec
  import opened BloomFilter

  /** The number of elements the driver inserts and then looks up. */
  const BatchSize: nat := 1000000

  /**
   One half of the driver: insert the whole batch into `filter`, then ask
   it about every element; every answer is yes.
   */
  method InsertThenCheck(filter: ConcurrentBloom, data: array<bv32>) returns (check: array<bool>)
    requires filter.Valid() && filter.IndexesFit()
    requires filter.numHashes == DefaultNumHashes
    requires data.Length == BatchSize
    modifies filter.tableData
    ensures fresh(check) && check.Length == BatchSize
    ensures forall i :: 0 <= i < BatchSize ==> check[i]
  {
    ghost var initial := filter.Table();
    filter.Insert(data, BatchSize);
    check := new bool[BatchSize](_ => false);
    filter.Contains(data, BatchSize, check);
    ghost var cfg, batch := filter.Cfg(), data[..];
    assert data[..BatchSize] == batch;
    assert filter.Table() == InsertBatch(cfg, initial, batch);
    forall i | 0 <= i < BatchSize
      ensures check[i]
    {
      assert check[i] == MayContain(cfg, filter.Table(), batch[i]);
      NoFalseNegatives(cfg, initial, batch, batch[i]);
    }
  }

  /**
   Insert `data` into two default filters built over the tables
   `seqInitial` and `parInitial`, ask each whether it contains every
   element, and return both answer arrays: they are equal, and every
   answer is yes.
   */
  method CheckAgreement(rand: RandStream, seqInitial: seq<bv8>, parInitial: seq<bv8>, data: array<bv32>)
    returns (seqCheck: array<bool>, parCheck: array<bool>)
    requires |seqInitial| == DefaultTableSize && |parInitial| == DefaultTableSize
    requires data.Length == BatchSize
    ensures seqCheck.Length == BatchSize && parCheck.Length == BatchSize
    ensures seqCheck[..] == parCheck[..]
    ensures forall i :: 0 <= i < BatchSize ==> seqCheck[i]
  {
    var seqFilter := new ConcurrentBloom(rand, seqInitial);
    var parFilter := new ConcurrentBloom(rand, parInitial);
    seqCheck := InsertThenCheck(seqFilter, data);
    parCheck := InsertThenCheck(parFilter, data);
    assert seqCheck[..] == parCheck[..];
  }
}
