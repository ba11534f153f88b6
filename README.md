# concurrent_bloom in Dafny

This project models `concurrent_bloom`, a batch Bloom filter. The filter
keeps a packed byte table of `table_bit_size` addressable bits. It draws
`num_hashes + 1` 64-bit hash keys at construction and uses the first
`num_hashes`. A bit index of an element is
Bob Jenkins' 96-bit mix of a hash key and the element, taken modulo
`table_bit_size`. `insert` works in two phases. It first fills a scratch
buffer with every bit index of every batch element, then ORs each index into
its byte. `contains` recomputes the indices of each element and reports
whether all of their bits are set. It stops at the first clear bit.

Modules:

- `Jenkins` (`jenkins.dfy`): `HashMix` over `bv32`, so the words wrap exactly
  as `uint32_t` does.
- `BitTable` (`bit_table.dfy`): the table as a `seq<bv8>`. Bit `k` is bit
  `k % 8` of byte `k / 8`. Setting one bit changes that bit only.
- `BatchSpec` (`batch_spec.dfy`): specification functions on values. These
  are the bit index (`Probe`), the scratch buffer (`Scratch`), the fold of
  ORs (`OrAll`, `InsertBatch`) and the membership test (`MayContain`). The
  lemmas state what an insert does and does not depend on.
- `BloomFilter` (`bloom_filter.dfy`): the class `ConcurrentBloom`. It has the
  source's fields, a `tableData` array updated in place, the constructors,
  and `insert` and `contains` as loops over arrays. Each method is proved
  against the `BatchSpec` functions.
- `BloomTester` (`bloom_tester.dfy`): the assertion of the tester driver.
  Two default filters given the same batch give identical `contains`
  answers, and every answer is yes.

The OpenMP `parallel for` loops are sequential loops here. In `insert`,
their iterations write disjoint scratch slots (`SlotsDistinct`). In
`contains`, each iteration only reads the table and writes its own answer
slot. The table after an insert depends only on the set of elements in the
batch (`InsertOrderIrrelevant`), so the order in which threads handle the
elements does not matter.

These behaviours of the code are modelled as written:

- Each constructor draws `num_hashes + 1` keys, and only the first
  `num_hashes` are used.
- The table is not zeroed. Its initial bytes are a constructor parameter
  (`initial`).
- The constructors validate nothing, so no error path exists.
- `insert` and `contains` do not reduce the index modulo the bit count when
  they touch the table. The index is reduced once, when it is computed.
- `table_bit_size` is always `2^30`. The default member initializer computes
  it from the default `table_size` before a constructor body runs. `insert`
  and `contains` therefore require `IndexesFit()`, meaning
  `table_bit_size <= 8 * table_size`, instead of assuming it.

Both constructors reseed the process-wide C generator with `srand`.
`rand()` after `srand(seed)` is a parameter: `rand(seed, i)` is the value of
the `i`-th call.

## Model

| member | source | states |
|---|---|---|
| Jenkins.HashMix | concurrent_bloom_filter.hpp:38-53 | The mix itself: `a` and `b` are the low and high words of the key, `c` the input, nine wrapping subtract/xor/shift steps with shifts 13, 8, 13, 12, 16, 5, 3, 10, 15, result `c`. Its values are pinned by `KnownAnswers`. |
| Jenkins.KnownAnswers | concurrent_bloom_filter.hpp:38-53 | The nine-step wrapping mix gives fixed outputs for fixed inputs. For example, key 0 and input 1 give 0xed37d444, and key 0 and input 0 give 0. |
| Jenkins.SplitJoin | concurrent_bloom_filter.hpp:39-40 | The low word `a` and the high word `b` together hold the whole 64-bit key. |
| Jenkins.JoinSplit | concurrent_bloom_filter.hpp:39-40 | Splitting a key built from two words returns those words as `b` and `a`. |
| BitTable.BitMaskIsShift | concurrent_bloom_filter.hpp:95 | The mask of bit position `b < 8` is `1 << b`, a single bit of the byte. |
| BitTable.Mask | concurrent_bloom_filter.hpp:95 | The byte mask of bit `index` is the mask of position `index % 8`, which `BitMaskIsShift` shows is `1 << (index % 8)`. |
| BitTable.IsSet | concurrent_bloom_filter.hpp:108 | Bit `index` is set when byte `index / 8` ANDed with its mask is non-zero. `SetBitExactly` relates it to the OR at line 95. |
| BitTable.SetBit | concurrent_bloom_filter.hpp:95 | OR-ing the mask into byte `index / 8` keeps the table's length. Which bits it sets is stated by `SetBitExactly`. |
| BitTable.SetBitExactly | concurrent_bloom_filter.hpp:95 | After the OR, a bit is set exactly when it was set before or it is bit `index`. No bit is cleared and no other bit is set. |
| BitTable.SetBitAt | concurrent_bloom_filter.hpp:95 | The same statement for one bit `k`, in both directions. |
| BitTable.OrMask | concurrent_bloom_filter.hpp:95 | OR-ing mask `p` into a byte makes bit `q` set exactly when it was set or `p == q`. |
| BitTable.ByteFromBits | concurrent_bloom_filter.hpp:118 | Two bytes with the same eight bits are equal. |
| BitTable.TableFromBits | concurrent_bloom_filter.hpp:118 | Two byte tables of the same length with the same set bits are equal. |
| BatchSpec.Probe | concurrent_bloom_filter.hpp:89-90 | The bit index of hash `j` for an element is below `table_bit_size`. |
| BatchSpec.ProbeInTable | concurrent_bloom_filter.hpp:106-108 | When `table_bit_size <= 8 * table_size`, the byte `index / 8` of every bit index is inside the table. |
| BatchSpec.Row | concurrent_bloom_filter.hpp:88-91 | One element has exactly `num_hashes` bit indices. |
| BatchSpec.Scratch | concurrent_bloom_filter.hpp:83-92 | The scratch buffer has `batch_size * num_hashes` slots, and every slot is below `table_bit_size`. |
| BatchSpec.SlotsDistinct | concurrent_bloom_filter.hpp:89 | Distinct pairs `(i, j)` with `j < num_hashes` have distinct slots `i * num_hashes + j`. |
| BatchSpec.ScratchSlot | concurrent_bloom_filter.hpp:87-92 | Slot `i * num_hashes + j` is in range and holds `HashMix(hash_keys[j], batch[i]) % table_bit_size`. |
| BatchSpec.ScratchGrows | concurrent_bloom_filter.hpp:87-92 | Writing row `i` after the rows of the first `i` elements gives the rows of the first `i + 1`. |
| BatchSpec.Elements | concurrent_bloom_filter.hpp:86-92 | The set of values in a batch. `ElementsAppend` shows the elements of two batches laid end to end are the union of their elements. |
| BatchSpec.ElementsAppend | concurrent_bloom_filter.hpp:86-92 | The elements of `b1 + b2` are the elements of `b1` together with those of `b2`. |
| BatchSpec.ScratchHoldsImpliedBits | concurrent_bloom_filter.hpp:83-92 | An index is in the scratch buffer exactly when it is some hash of some batch element. |
| BatchSpec.OrAll | concurrent_bloom_filter.hpp:94-96 | The serial phase keeps the table's length. Which bits it sets is stated by `OrAllExactly`. |
| BatchSpec.OrAllExactly | concurrent_bloom_filter.hpp:94-96 | After the serial phase, a bit is set exactly when it was set before or it is one of the scratch indices. |
| BatchSpec.InsertBatch | concurrent_bloom_filter.hpp:82-97 | An insert keeps the table's length. Which bits it sets is stated by `InsertSetsImpliedBits`. |
| BatchSpec.InsertSetsImpliedBits | concurrent_bloom_filter.hpp:82-97 | After an insert, a bit is set exactly when it was set before or it is a hash of a batch element. Bits are never cleared. |
| BatchSpec.MayContain | concurrent_bloom_filter.hpp:104-113 | The answer `contains` gives for one element: every one of its `num_hashes` bits is set. `Query` computes it and `NoFalseNegatives` shows inserted elements pass it. |
| BatchSpec.NoFalseNegatives | concurrent_bloom_filter.hpp:82-115 | After inserting a batch, every element of the batch passes the membership test. |
| BatchSpec.InsertKeepsMembers | concurrent_bloom_filter.hpp:94-96 | An element that passes the test before an insert still passes after it. |
| BatchSpec.InsertIdempotent | concurrent_bloom_filter.hpp:95 | Inserting the same batch twice leaves the table as inserting it once. |
| BatchSpec.InsertOrderIrrelevant | concurrent_bloom_filter.hpp:86-92 | Batches with the same set of elements leave the same table, whatever their order or repetitions. |
| BatchSpec.ImpliedBitsUnion | concurrent_bloom_filter.hpp:88-90 | The bits of a union of element sets are the union of their bits. |
| BatchSpec.InsertTwice | concurrent_bloom_filter.hpp:82-97 | Inserting `b1` and then `b2` leaves the same table as inserting `b1 + b2` once. |
| BatchSpec.ZeroTableReportsNothing | concurrent_bloom_filter.hpp:100-115 | With at least one hash, an all-zero table passes no element. |
| BloomFilter.DrawKeys | concurrent_bloom_filter.hpp:62-64 | The key loop draws `num_hashes + 1` keys. Key `i` is the `i`-th `rand()` after seeding. |
| BloomFilter.ConcurrentBloom.constructor | concurrent_bloom_filter.hpp:57-65 | The filter has 20 hashes, a 128 MiB table holding `initial`, `2^30` bits, and 21 keys from seed 0. Every index fits the table. |
| BloomFilter.ConcurrentBloom.WithParams | concurrent_bloom_filter.hpp:69-79 | `table_size` and `num_hashes` come from the arguments and `table_bit_size` stays `2^30`. The indexes fit the table exactly when `size >= 128 MiB`. |
| BloomFilter.ConcurrentBloom.Sized | concurrent_bloom_filter.hpp:69-79 | The corrected constructor sets `table_bit_size` to `8 * size`, so the indexes fit the table for every size. |
| BloomFilter.ConcurrentBloom.HashRow | concurrent_bloom_filter.hpp:88-91 | The inner loop writes row `Row(x)` into slots `base .. base + num_hashes` and leaves every other slot alone. |
| BloomFilter.ConcurrentBloom.HashPhase | concurrent_bloom_filter.hpp:83-92 | The new scratch array equals `Scratch` of the batch prefix. |
| BloomFilter.ConcurrentBloom.OrIndexes | concurrent_bloom_filter.hpp:94-96 | The serial loop leaves the table equal to `OrAll` of the old table and the scratch array. |
| BloomFilter.ConcurrentBloom.Insert | concurrent_bloom_filter.hpp:82-97 | The table becomes `InsertBatch` of the old table and `batch[..batch_size]`. |
| BloomFilter.ConcurrentBloom.Query | concurrent_bloom_filter.hpp:104-113 | The flag is true exactly when all `num_hashes` bits of the element are set. The early `break` does not change the answer. |
| BloomFilter.ConcurrentBloom.Contains | concurrent_bloom_filter.hpp:100-115 | `bool_array[i]` becomes `MayContain` of `batch[i]` for `i < batch_size`. The table and the rest of `bool_array` are unchanged. |
| BloomFilter.SmallTableOverrun | concurrent_bloom_filter.hpp:122 | With `table_bit_size` fixed at `2^30`, one hash with first key 0x6b8b4567 and element 1 give bit 234658773, whose byte 29332346 lies outside a 1 KiB table. |
| BloomTester.InsertThenCheck | bloom_tester.cpp:49-59 | After a default filter inserts the batch, `contains` answers yes for every element. |
| BloomTester.CheckAgreement | bloom_tester.cpp:43-67 | The answer arrays of the two default filters are equal and all true, whatever bytes their tables started with. |

## Left out

- `#pragma omp parallel for schedule(dynamic)`: the loops are sequential. Thread count and chunking are not observable. Disjoint slots and order independence are proved instead.
- `std::srand` and `rand()`: the generator is the parameter `rand`. Its algorithm and its global state shared between filters are not modelled.
- Heap allocation: the `new` arrays are never freed in the source. Ownership and leaks are not modelled.
- The false-positive rate and the statistical quality of `HashMix` are probabilistic and are not modelled. Only the function itself is modelled.
- HashMix: no algebraic property beyond its definition and known answers is stated.
- DrawKeys: requires `hashes < 2^31 - 1`. For any `num_hashes >= 2^31 - 1`, the `int` counter of the loop `i <= num_hashes` would have to overflow, which is undefined behaviour. Negative `int` arguments converted to `uint32_t` are not modelled.
- BloomFilter.ConcurrentBloom.WithParams: `size` and `hashes` are `nat`. Negative `seed` is allowed, but negative `hashes` is not.
- BloomFilter.ConcurrentBloom.Sized: requires `0 < size`. The corrected bit count `8 * size` must be non-zero for the modulo, and must fit in 32 bits.
- BloomFilter.ConcurrentBloom.Insert: requires `batch_size * num_hashes <= 2^31 - 1`. The source computes this product in 32-bit arithmetic and compares it against an `int` counter, and the wrapped case is not modelled.
- BloomFilter.ConcurrentBloom.Insert: the scratch buffer is a fresh array of `nat`. The `uint32_t` element type is not modelled, but every index is below `table_bit_size < 2^32`, so every index fits `uint32_t` and nothing is lost.
- BloomFilter.ConcurrentBloom.Insert and BloomFilter.ConcurrentBloom.Contains: `batchSize` is a `nat`. A negative `int batch_size` is not modelled. With one, `contains` does nothing, and `insert` allocates `(unsigned)batch_size * num_hashes` slots and then ORs in their uninitialised contents.
- BloomFilter.ConcurrentBloom.Insert and BloomFilter.ConcurrentBloom.Contains: require `IndexesFit()`, which is sufficient but not necessary. Without it, any computed index whose byte is at or past `table_size` reads or writes past the table, which is undefined behaviour. Calls whose indices all happen to fit are excluded too, including an empty batch and `num_hashes == 0` on a small table.
- `bloom_timer.cpp`: the benchmark driver only measures wall-clock time and is not part of this model.
- `bloom_tester.cpp`: the data generation loop, console output and the `exit;` statement at line 65 are not modelled. That statement names the function without calling it, so a failure would not stop the loop. The data batch is a parameter.

## Findings

| source | as written | input that shows it | evidently intended | confidence | as-written member | corrected member |
|---|---|---|---|---|---|---|
| concurrent_bloom_filter.hpp:122 | `table_bit_size` is initialised from the default `table_size` before the three-argument constructor stores `size`, so it stays `2^30` for every size | `concurrent_bloom(0, 1, 1024)`, whose first key is 0x6b8b4567 under the GNU C library's `rand()`, then `insert` of element 1: the index is 234658773, and its byte 29332346 is far past the 1024-byte table | `table_bit_size == 8 * table_size`, so every index lands in the table | not executed | BloomFilter.SmallTableOverrun | BloomFilter.ConcurrentBloom.Sized |
