# usernode-circuits: a verified model of the hashing, batching and transaction core

This project models, in Dafny, the deterministic core of the usernode-circuits crate. Its parts:

- **The BN254 field value.** A 32-byte big-endian array, with `Field::from(u128)`, `zero`, `one`, the byte conversions and the length check of `binprot_read`.
- **The Poseidon2 sponge `hash_fields`.** Rate 3, capacity 1, IV `2^64·len`, plus its domain-tagged wrappers `h2`, `hash6`, `hash10`, `hash_spend_leaf`, `hash_merge_leaf` and `hash_manifest`.
- **UTXO commitments and the leaf hashes** of spend and merge transactions.
- **The batch planner:**
  - pairing leaves and deferring an odd tail;
  - the deterministic candidate order;
  - the leaf-hash re-check;
  - the `produced`/`consumed` double-spend bookkeeping;
  - the level-by-level `canonical_root_even` fold.
- **The transaction builder's work before and after proving:**
  - the signer and key checks;
  - the unique transfer-slot search;
  - the remainder arithmetic;
  - the spend and merge digests and ABI input maps;
  - the salt-collision retry loop;
  - signing, proving, optional verification and assembly of `SpendTx`/`MergeTx`.
- **The circuit catalog.** A name→entry registry with insert, fill-once `update_vk`, clear, `all_loaded` and `init_embedded`, plus the side table of verifying-key entries.
- **The prover glue:**
  - recursive ABI flattening (`push_param`);
  - the fixed-layout `encode_*_privates`;
  - 32-byte chunking of public inputs;
  - hex formatting of key ids;
  - witness-index assignment;
  - key-id → verifying-key dispatch with regeneration and caching.

Foreign code becomes a function-typed parameter:

- the Poseidon2 permutation `permute4`;
- Schnorr signing;
- the proving backend (prove, verify, `compile_mega`, `write_vk_mega_honk`, `mega_vk_hash`, `mega_public_inputs`);
- ABI JSON parsing;
- the `ensure_unique` oracle;
- the membership oracle of the batch planner.

The randomness of `random_salt_field` becomes a finite input stream of salts. Field addition, subtraction and multiplication (FFI calls in the source) are modelled explicitly as arithmetic modulo the BN254 scalar prime on the big-endian value.

Modules and files:

| module | file | models |
|---|---|---|
| `Wrappers` | wrappers.dfy | `Option`, `Result` and the error values |
| `Bytes` | bytes.dfy | big-endian byte strings and their lexicographic order |
| `Bn254` | bn254.dfy | src/bn254.rs |
| `Poseidon2` | poseidon2.dfy | src/poseidon2.rs |
| `Sorting` | sorting.dfy | the stable sort used by `sort_by` and `sort_unstable` |
| `Types` | types.dfy | src/types.rs |
| `Acir` | acir.dfy | the ACIR field element and the reductions `fe_from_field_bytes`, `fe_from_field`, `fe_from_u8` |
| `Batch` | batch.dfy | src/batch.rs |
| `Tx` | tx.dfy | src/tx.rs |
| `Catalog` | catalog.dfy | src/catalog.rs |
| `Prover` | prover.dfy | src/prover.rs |

## Model

| member | source | states |
|---|---|---|
| Bytes.BeValueOfBeBytes | src/bn254.rs:8-12 | decoding the n-byte big-endian encoding of a value below 256^n gives the value back |
| Bytes.BeBytesOfBeValue | src/bn254.rs:22-28 | every byte string is the big-endian encoding of its own value (the other round trip) |
| Bytes.BeBytesInjective | src/bn254.rs:8-12 | equal big-endian encodings of the same width come from equal values |
| Bytes.BeBytesPadded | src/bn254.rs:9-10 | encoding into m+n bytes is m zero bytes followed by the n-byte encoding |
| Bytes.CompareEqual | src/batch.rs:281-283 | byte-wise comparison reports Equal exactly for equal arrays |
| Bytes.CompareFlip | src/batch.rs:281-283 | a < b under byte-wise comparison exactly when b > a |
| Bytes.CompareTransitive | src/batch.rs:281-283 | byte-wise Less is transitive |
| Bytes.CompareIsNumeric | src/batch.rs:281-283 | on equal-length arrays byte-wise Less and Equal coincide with < and = on the big-endian values |
| Bn254.Value | src/bn254.rs:4-5 | the value of a field element is below 2^256 |
| Bn254.FieldOfNat | src/bn254.rs:37-41 | the element built from v < 2^256 has value v |
| Bn254.FromU128 | src/bn254.rs:8-12 | `Field::from(v)` has value v |
| Bn254.FromU128Bytes | src/bn254.rs:8-12 | `Field::from(v)` is 16 zero bytes followed by v's 16-byte big-endian encoding |
| Bn254.FromU128Injective | src/bn254.rs:8-12 | `Field::from` is injective on u128 |
| Bn254.Zero | src/bn254.rs:14-16 | `zero()` has value 0 |
| Bn254.ZeroIsFromZero | src/bn254.rs:14-16 | `zero() == from(0)` |
| Bn254.One | src/bn254.rs:18-20 | `one()` has value 1 and differs from `zero()` |
| Bn254.BytesRoundTrip | src/bn254.rs:22-28 | `to_bytes(from_bytes(b)) == b` and `from_bytes(to_bytes(f)) == f` |
| Bn254.ValueInjective | src/bn254.rs:4-5 | field equality is equality of the byte arrays (equal values are equal elements) |
| Bn254.Add | src/bn254.rs:111-129 | the sum is reduced and is the sum of the reduced operands, minus p when that reaches p |
| Bn254.Sub | src/bn254.rs:132-150 | the difference is reduced and is a−b, plus p when a < b |
| Bn254.Mul | src/bn254.rs:153-171 | the product is reduced and equals a·b when that is below p |
| Bn254.CanonOfReduced | src/bn254.rs:111-129 | a value already below p is its own reduction |
| Bn254.AddZero | src/bn254.rs:55-61 | adding zero to a reduced element leaves it unchanged |
| Bn254.BinprotRead | src/bn254.rs:194-207 | decoding succeeds exactly when the byte vector has length 32, returns `from_bytes` of it, and otherwise reports the length |
| Bn254.BinprotRoundTrip | src/bn254.rs:187-207 | reading what `binprot_write` wrote gives the element back |
| Poseidon2.IvIsFieldProduct | src/poseidon2.rs:41-44 | the IV `from(2^64)·from(n)` is the field element 2^64·n |
| Poseidon2.IvInjective | src/poseidon2.rs:41-44 | inputs of different lengths start from different IVs |
| Poseidon2.RoundsCount | src/poseidon2.rs:48-67 | the round count on n inputs is max(1, ⌈n/3⌉) |
| Poseidon2.ChunksCount | src/poseidon2.rs:48-61 | the input is cut into exactly as many chunks as the sponge runs rounds |
| Poseidon2.JoinChunks | src/poseidon2.rs:48-61 | the chunks, put back together in order, are the input |
| Poseidon2.ChunkSizes | src/poseidon2.rs:48-61 | every chunk but the last is full; the last is non-empty unless the input is empty |
| Poseidon2.AbsorbIsRoundPerChunk | src/poseidon2.rs:48-67 | absorption applies exactly one round per chunk, in order |
| Poseidon2.SpongePermutationCount | src/poseidon2.rs:39-69 | `hash_fields` applies `permute4` max(1, ⌈n/3⌉) times, once per chunk of the input in order, and returns `state[0]` |
| Poseidon2.AddRate | src/poseidon2.rs:62-66 | the final add puts only the first `cache_size` cache entries into state slots 0..cache_size |
| Poseidon2.StreamingIsChunked | src/poseidon2.rs:48-68 | the streaming loop with its 3-slot cache equals absorbing the input in chunks of three and taking `state[0]` |
| Poseidon2.FeedAllKeepsAbsorb | src/poseidon2.rs:48-61 | the loop keeps `cache_size` in 0..=3, makes it ≥ 1 after the first input, and absorbs the inputs in order |
| Poseidon2.HashFields | src/poseidon2.rs:39-69 | the imperative sponge loop computes the chunked sponge of its input |
| Poseidon2.ChunkedAbsorb | src/poseidon2.rs:48-67 | for up to ten inputs, absorption is one permutation per chunk of three |
| Poseidon2.H2Rounds | src/poseidon2.rs:79-81 | `h2(l, r)` is one permutation over [20, l, r] from the IV for length 3 |
| Poseidon2.HashSpendLeafRounds | src/poseidon2.rs:83-100 | the spend leaf absorbs tag 11 followed by its six arguments in order |
| Poseidon2.HashMergeLeafRounds | src/poseidon2.rs:102-109 | the merge leaf absorbs tag 12 followed by its three arguments in order |
| Poseidon2.Hash6Rounds | src/poseidon2.rs:71-73 | `hash6` is `hash_fields` over the six elements |
| Poseidon2.Hash10Rounds | src/poseidon2.rs:75-77 | `hash10` is `hash_fields` over the ten elements |
| Poseidon2.HashManifestRounds | src/poseidon2.rs:111-124 | the manifest hashes [40, block id, root, leaf count, `hash_fields(leaves)`] |
| Poseidon2.ZeroPaddingAbsorbsToSameState | src/poseidon2.rs:62-66 | adding only the filled cache slots equals adding a zero-padded chunk |
| Poseidon2.TagsDistinct | src/poseidon2.rs:5-8 | the four domain tags are distinct field elements |
| Sorting.Insert | src/batch.rs:116-121 | inserting adds exactly one element and keeps the multiset otherwise |
| Sorting.InsertSorted | src/batch.rs:116-121 | inserting into a sorted sequence under a total preorder keeps it sorted |
| Sorting.SortBy | src/batch.rs:116-121 | sorting returns a permutation of its input |
| Sorting.SortBySorted | src/batch.rs:116-121 | under a total preorder the result is sorted |
| Sorting.InsertClass | src/batch.rs:116-121 | insertion puts the new element ahead of the elements that compare equal to it and keeps their order |
| Sorting.SortByStable | src/batch.rs:116-121 | the sort is stable for any transitive comparison: elements that compare equal keep their input order, as `sort_by` does |
| Types.EmptyAsset | src/types.rs:22-30 | `Asset::empty()` has token 0 and amount 0 |
| Types.UtxoOf | src/types.rs:32-40 | a UTXO holds exactly four asset slots, built slot by slot from the token and amount vectors |
| Types.UtxoOfTokensAmounts | src/types.rs:32-40 | splitting a UTXO into tokens and amounts and rebuilding it gives it back |
| Types.CommitmentInputs | src/types.rs:44-57 | the commitment input is [recipient_pk_x, t0, a0, …, t3, a3, salt] |
| Types.CommitmentLayoutRoundTrip | src/types.rs:44-57 | the ten-element commitment layout is a bijection with UTXOs |
| Types.CommitmentInputsInjective | src/types.rs:44-57 | different UTXOs give different commitment inputs |
| Types.Compute | src/types.rs:63-68 | `UtxoCommitment::compute(u)` holds the bytes of `u.commitment()` |
| Types.Dummy | src/types.rs:92-99 | `dummy(u)` keeps u, has index 0, an empty path and u's commitment |
| Types.SpendLeafBindsInput | src/types.rs:141-158 | for a consistent witness the spend leaf hashes the tag, the input UTXO's commitment, both expected outputs and the transfer, in order |
| Types.MergeLeafBindsInputs | src/types.rs:183-194 | for consistent witnesses the merge leaf hashes the tag, both input commitments and the expected output |
| Acir.FeOfBytes | src/prover.rs:407-409 | reducing a 32-byte value below p gives that value |
| Acir.FeOfField | src/prover.rs:411-413 | converting a field element reduces its bytes |
| Acir.FesOfBytes | src/prover.rs:415-417 | each byte becomes the element of the same value, in order |
| Acir.FesOfFields | src/prover.rs:411-413 | each field element is converted in order |
| Batch.Hashes | src/batch.rs:54-57 | the manifest's leaf list is the leaf hashes, in leaf order |
| Batch.ManifestCoversLeafHashesOnly | src/batch.rs:54-57 | the manifest hash ignores publisher ids and `deferred` |
| Batch.PlanBlock | src/batch.rs:76-92 | an even number of leaves; leaves followed by `deferred` is the input; `deferred` is set exactly for odd input |
| Batch.FieldCmpIsNumeric | src/batch.rs:281-283 | `field_cmp` orders by the big-endian value, Equal exactly for equal fields |
| Batch.KeyCmpFlip | src/batch.rs:116-121 | the (arrival time, hash, publisher) comparison is antisymmetric |
| Batch.KeyCmpEqual | src/batch.rs:116-121 | the comparison reports Equal exactly for equal keys |
| Batch.KeyCmpTransitive | src/batch.rs:116-121 | the comparison's Less is transitive |
| Batch.KeyedPreorder | src/batch.rs:116-121 | ordering by the key is a total preorder |
| Batch.LeavesOfCandidates | src/batch.rs:122-126 | each candidate becomes its leaf, in order |
| Batch.CandidateOrderSorted | src/batch.rs:111-130 | the planned order is a permutation of the candidates, sorted by (arrival time, hash bytes, publisher id) |
| Batch.PlanBlockFromCandidates | src/batch.rs:111-130 | the block pairs the sorted candidates' leaves, deferring an odd tail |
| Batch.RecordsAgreeWithTransactions | src/batch.rs:150-195 | a record's recomputed leaf hash, inputs and outputs agree with its transaction's |
| Batch.KeysOfMembership | src/batch.rs:244-249 | a key is in the inserted set exactly when some commitment has those bytes |
| Batch.InputsOk | src/batch.rs:261-278 | accepts exactly when every input is unconsumed and either a member or produced earlier |
| Batch.RecordOrderSorted | src/batch.rs:222-227 | records are processed as a sorted permutation of the candidates |
| Batch.LeavesOfRecords | src/batch.rs:250-253 | each accepted record becomes its leaf, in order |
| Batch.ValidateAndPlanBlock | src/batch.rs:213-258 | the block's leaves and `deferred` are the accepted candidates of the in-order ledger run, paired |
| Batch.InsertKeys | src/batch.rs:244-249 | inserting a record's commitments adds exactly their byte keys |
| Batch.RunStep | src/batch.rs:234-255 | a rejected candidate changes neither `produced`, `consumed` nor the accepted list; an accepted one extends them |
| Batch.AcceptedHashesChecked | src/batch.rs:235-238 | every accepted candidate's recomputed leaf hash equals its declared one |
| Batch.AcceptedKeepOrder | src/batch.rs:234-255 | the accepted candidates are a sub-multiset of the input and keep its sorted order |
| Batch.AcceptedIsSubsequence | src/batch.rs:234-255 | the accepted candidates are a subsequence of the input: the k-th sits at the k-th of strictly increasing positions |
| Batch.LedgerSets | src/batch.rs:240-249 | `produced` and `consumed` are exactly the outputs and inputs of the accepted candidates |
| Batch.NoDoubleSpend | src/batch.rs:244-246 | no commitment is consumed by two different accepted candidates |
| Batch.AcceptedInputsExist | src/batch.rs:270-274 | every input of an accepted candidate is a member or an output of an earlier accepted one |
| Batch.RepeatedMergeInputAccepted | src/batch.rs:270-276 | a merge spending the same commitment twice is accepted, and a later spend of it is rejected |
| Batch.Fold | src/batch.rs:292-299 | the fold ends at one node for non-empty input |
| Batch.RootWith | src/batch.rs:286-303 | the root exists exactly for non-empty even-length input |
| Batch.CanonicalRootEven | src/batch.rs:286-303 | the imperative level loop computes the reference fold |
| Batch.PairUp | src/batch.rs:292-298 | one level pairs adjacent elements left to right |
| Batch.PlannedBlockRoot | src/batch.rs:60-68 | a planned block has a root exactly when it has leaves |
| Batch.RootOfPair | src/batch.rs:309-314 | the root of [a, b] is the combination of a and b |
| Batch.CanonicalRootOfPair | src/batch.rs:309-314 | `canonical_root_even([a, b]) == Some(h2(a, b))` |
| Batch.LevelDropsOddTail | src/batch.rs:292-298 | on an odd-length level the last node is dropped |
| Batch.RootOfSix | src/batch.rs:290-301 | for six hashes the root is h(h(0,1), h(2,3)); hashes 4 and 5 are dropped at the second level |
| Tx.CommitWithSponge | src/types.rs:44-57 | the transaction builder's commitment is the UTXO commitment |
| Tx.FindTransferSlot | src/tx.rs:162-172 | succeeds exactly for a unique matching slot and returns it; a duplicate or missing token gives its own error |
| Tx.OnlyAt | src/tx.rs:174-177 | the receiver vector holds the value at the slot and zeros elsewhere |
| Tx.RemainderAsWritten | src/tx.rs:179-198 | as written, slot 0 accepts when in[0] ≥ transfer + fee computed in the field |
| Tx.Remainder | src/tx.rs:179-198 | accepts exactly when the funds cover transfer and fee, with the source's two errors; the remainder plus what leaves equals the input; other slots are unchanged |
| Tx.SubTwice | src/tx.rs:181-186 | subtracting transfer and then fee leaves in[0] − transfer − fee when that is non-negative |
| Tx.RemainderAgreesWithoutWrap | src/tx.rs:179-198 | when transfer + fee stays below p the source's guard and the checked remainder agree |
| Tx.RemainderAsWrittenWraps | src/tx.rs:181-186 | a transfer of p − 1 and a fee of 2 pass the guard on a balance of 1, leaving a remainder of 0, so remainder + transfer + fee exceeds the input by p |
| Tx.RemainderExample | src/tx.rs:179-198 | 100 with transfer 40 and fee 2 in slot 0 leaves 58 |
| Tx.SpendCommitments | src/tx.rs:665-685 | returns the receiver and remainder commitments, the digest and the digest's bytes |
| Tx.PackSpendInputs | src/tx.rs:420-532 | the commitments, digest and `msg32` agree with `spend_commitments`, and the map is the spend ABI map |
| Tx.FillSpendAbi | src/tx.rs:451-523 | the successive inserts build the spend ABI map |
| Tx.SpendAbiKeys | src/tx.rs:451-523 | the spend map has exactly the 18 `input.*` keys |
| Tx.SpendAbiLengths | src/tx.rs:451-523 | `msg32` holds 32 elements, token/amount vectors 4, scalars 1 |
| Tx.SigKeyIsNew | src/tx.rs:233-237 | `input.schnorr.sig64` is not among the packed keys |
| Tx.SpendAbiContents | src/tx.rs:451-523 | `msg32` holds the digest bytes; the sender owns the input and the remainder; the receiver key is the recipient's |
| Tx.MergeCommitment | src/tx.rs:689-700 | returns the output commitment, the digest and the digest's bytes |
| Tx.PackMergeInputs | src/tx.rs:567-656 | the output commitment, digest and `msg32` agree with `merge_commitment`, and the map is the merge ABI map |
| Tx.FillMergeAbi | src/tx.rs:588-648 | the successive inserts build the merge ABI map |
| Tx.MergeAbiKeys | src/tx.rs:588-648 | the merge map has exactly the 15 `input.*` keys: Schnorr key and message, both inputs and the output |
| Tx.MergeAbiLengths | src/tx.rs:588-648 | `msg32` holds 32 elements, token/amount vectors 4, scalars 1 |
| Tx.MergeAbiContents | src/tx.rs:588-648 | `msg32` holds the digest bytes; both inputs and the output belong to the sender |
| Tx.RetryKeepsFirstUnique | src/tx.rs:203-230 | without an oracle the first attempt is kept; with one, the kept attempt is the first reported unique; an error is the oracle's first error or salt exhaustion |
| Tx.SpendAttemptCommits | src/tx.rs:200-221 | each salt pair yields one attempt's two output commitments |
| Tx.SpendRetry | src/tx.rs:203-230 | the retry loop returns the reference retry outcome over the salt pairs |
| Tx.MergeAttemptCommits | src/tx.rs:320-337 | each salt yields one attempt's output commitment |
| Tx.MergeRetry | src/tx.rs:322-343 | the retry loop returns the reference retry outcome over the salts |
| Tx.SignAndProve | src/tx.rs:232-245 | signs the digest bytes, proves with the signature added, and with `verify_proof` set rejects a proof that fails verification; backend errors pass through |
| Tx.FinishSpend | src/tx.rs:200-279 | a result is built from the kept attempt, its commitments, signature and proof; retry errors pass through |
| Tx.ProveSpend | src/tx.rs:122-279 | each failed check gives its error in source order, with the corrected slot-0 funds guard of `Tx.Remainder`; success implies the checks passed and the transaction is the spend outcome |
| Tx.SpendConservesValue | src/tx.rs:174-198 | per slot, input = receiver + remainder (+ fee in slot 0); remainder keeps the tokens and the sender key; receiver gets the transfer at the slot |
| Tx.MergeSalts | src/tx.rs:320 | a supplied `out_salt` is tried first, then the stream |
| Tx.FinishMerge | src/tx.rs:320-377 | a result is built from the kept attempt, its commitment, signature and proof; retry errors pass through |
| Tx.ProveMerge | src/tx.rs:287-378 | each failed key check gives its error in source order; success implies the checks passed and the transaction is the merge outcome |
| Tx.MergeUsesGivenSalt | src/tx.rs:320-367 | with `out_salt` and no oracle the output is the sender's UTXO with that salt |
| Catalog.WithEntry | src/catalog.rs:30-32 | insert adds or replaces the entry's name and keeps names consistent |
| Catalog.GetAfterInsert | src/catalog.rs:26-32 | `get(name)` after `insert(e)` is e for e's name, unchanged for other names, and None for unregistered names |
| Catalog.WithVk | src/catalog.rs:34-40 | `update_vk` writes only an existing entry with empty vk; otherwise nothing changes |
| Catalog.UpdateVkFillsOnce | src/catalog.rs:34-40 | a second `update_vk` after a non-empty write is a no-op |
| Catalog.WithVkMeta | src/prover.rs:184 | the four-argument update replaces a non-empty vk, a supplied hash and a supplied key id, and keeps the rest |
| Catalog.VkMetaNeverForgets | src/prover.rs:122 | the four-argument update never drops a cached hash or a non-empty vk |
| Catalog.Names | src/catalog.rs:46-58 | the set of names of the embedded circuits |
| Catalog.InitStopsAtFirstFailure | src/catalog.rs:46-58 | loading stops at the first ABI parse failure with its error, keeping the earlier inserts |
| Catalog.LoadedKeys | src/catalog.rs:46-58 | when all ABIs parse, every embedded circuit is registered |
| Catalog.LastEmbeddedWins | src/catalog.rs:46-58 | of two embedded circuits with one name, the later one stays |
| Catalog.Catalog.constructor | src/catalog.rs:16-20 | the registry starts empty |
| Catalog.Catalog.Get | src/catalog.rs:26-28 | returns the registered entry, or None exactly for an unregistered name |
| Catalog.Catalog.Insert | src/catalog.rs:30-32 | the entries become the inserted map |
| Catalog.Catalog.UpdateVk | src/catalog.rs:34-40 | the entries become the fill-once update |
| Catalog.Catalog.UpdateVkMeta | src/prover.rs:184 | the entries become the four-argument update |
| Catalog.Catalog.Clear | src/catalog.rs:42-44 | removes every entry |
| Catalog.Catalog.AllLoaded | src/catalog.rs:22-24 | lists exactly the registered names, each once |
| Catalog.Catalog.GetVkEntry | src/prover.rs:81 | returns the verifying-key entry for the id, or None exactly when absent |
| Catalog.Catalog.UpsertVkEntry | src/prover.rs:135 | sets the entry for the id and changes nothing else |
| Catalog.Catalog.InitEmbedded | src/catalog.rs:46-58 | the entries and result are those of loading the embedded circuits in order |
| Prover.CollectOk | src/prover.rs:632-635 | flattening a struct succeeds exactly when every field does, with the total length |
| Prover.CollectFirstError | src/prover.rs:632-635 | the first failing field's error aborts the whole struct |
| Prover.FlattenSize | src/prover.rs:581-639 | a successful flatten yields exactly the type's size in elements |
| Prover.FieldParts | src/prover.rs:631-636 | one part per struct field, under the key `name.field` |
| Prover.FlattenStruct | src/prover.rs:631-636 | a struct flattens to its fields' parts in declared order |
| Prover.PushLeaf | src/prover.rs:588-630 | appends a scalar or an array to the accumulator, or gives the flatten's error |
| Prover.PushFields | src/prover.rs:631-636 | the field loop appends every field in order, or gives the first error |
| Prover.PushParam | src/prover.rs:581-639 | appends the parameter's flattening to the accumulator, or gives its error |
| Prover.FlattenInputs | src/prover.rs:641-646 | flattens only the private parameters, in ABI order |
| Prover.FlattenPrivateSize | src/prover.rs:641-646 | the private flattening has the sum of the private parameters' sizes |
| Prover.ScalarParam | src/prover.rs:588-598 | a Field, Integer or Boolean parameter needs exactly one element; a missing key is an error |
| Prover.SchnorrFes | src/prover.rs:456-459 | the Schnorr block has 98 elements |
| Prover.UtxoFes | src/prover.rs:460-463 | a UTXO block has 10 elements |
| Prover.TransferFes | src/prover.rs:464-466 | the transfer block has 3 elements |
| Prover.SpendFes | src/prover.rs:454-476 | the spend layout has 131 elements |
| Prover.MergeFes | src/prover.rs:478-497 | the merge layout has 128 elements |
| Prover.PushUtxo | src/prover.rs:460-463 | appends a UTXO block |
| Prover.PushSchnorr | src/prover.rs:456-459 | builds the Schnorr block |
| Prover.EncodeSpendPrivates | src/prover.rs:454-476 | builds the 131-element spend layout |
| Prover.EncodeMergePrivates | src/prover.rs:478-497 | builds the 128-element merge layout |
| Prover.FieldOfFe | src/prover.rs:407-413 | the field element of an ACIR value has that value |
| Prover.FieldOfFeRoundTrip | src/prover.rs:411-413 | converting a reduced field element to ACIR and back gives it back |
| Prover.KeyOfFeRoundTrip | src/prover.rs:407-409 | a key below p survives the reduction to ACIR and back |
| Prover.UtxoRoundTrip | src/prover.rs:460-463 | the UTXO block decodes back to the UTXO |
| Prover.SchnorrRoundTrip | src/prover.rs:456-459 | the Schnorr block decodes back to the key, signature and message |
| Prover.SpendLayoutRoundTrip | src/prover.rs:454-476 | the spend layout decodes back to its inputs: the order is fixed and lossless |
| Prover.MergeLayoutRoundTrip | src/prover.rs:478-497 | the merge layout decodes back to its inputs |
| Prover.Concat | src/prover.rs:319-325 | concatenating k chunks gives 32·k bytes |
| Prover.ChunkPublicInputs | src/prover.rs:314-325 | errors unless the length is a multiple of 32; otherwise len/32 chunks whose concatenation is the input |
| Prover.HexDigit | src/prover.rs:109 | a nibble becomes a lowercase hex digit |
| Prover.HexDigitValue | src/prover.rs:109 | the hex digit reads back as its nibble |
| Prover.KeyIdHexDigits | src/prover.rs:105-112 | two lowercase hex digits per byte, high nibble first, in order |
| Prover.ParseHex | src/prover.rs:105-112 | two hex characters per byte |
| Prover.KeyIdHexRoundTrip | src/prover.rs:105-112 | parsing the hex text gives the key id back |
| Prover.FormatKeyId | src/prover.rs:105-112 | the loop yields the 64-character hex text of the id |
| Prover.IndexLeIsTotalPreorder | src/prover.rs:221 | the witness-index order is a total preorder |
| Prover.ZipInsertPlaces | src/prover.rs:226-228 | with distinct indices, input i is placed at index i and only those indices are set |
| Prover.AssignWitnesses | src/prover.rs:212-229 | errors exactly when there are more inputs than indices; otherwise zips the inputs onto the sorted indices |
| Prover.AssignedInOrder | src/prover.rs:212-229 | input i goes to the i-th smallest index, and surplus indices stay unset |
| Prover.GetCircuitByKeyId | src/prover.rs:96-103 | finds a registered entry with the id, or None exactly when none has it |
| Prover.Regenerated | src/prover.rs:176-186 | regeneration fails for an unknown name or a backend error without changes; on success it stores the new vk, hash and key id and changes nothing else |
| Prover.RegenerateVk | src/prover.rs:176-186 | the catalog becomes the regenerated state |
| Prover.ServeFromCircuit | src/prover.rs:63-80 | a non-empty vk is served as is; an empty one is regenerated, and the id must not change |
| Prover.ServeFromVkEntry | src/prover.rs:81-93 | the fallback serves non-empty bytes, errors on empty bytes, and errors on an unknown id |
| Prover.GetVkBytesById | src/prover.rs:61-94 | dispatches to the circuit path or the fallback |
| Prover.ServeAgain | src/prover.rs:61-80 | after a successful serve, serving again returns the same bytes and changes nothing |
| Prover.HashFromVkEntry | src/prover.rs:125-141 | a cached hash is returned without recomputing; otherwise the hash of non-empty bytes is computed and cached |
| Prover.HashFallbackCaches | src/prover.rs:125-137 | a second fallback call returns the cached hash and changes nothing |
| Prover.GetVkHashById | src/prover.rs:114-142 | dispatches to the circuit path or the fallback |
| Prover.HashCachedAfterServe | src/prover.rs:116-123 | after the circuit path computes a hash, the entry caches it and the next call returns it unchanged |
| Prover.ServedKeepsMatch | src/prover.rs:63-77 | serving leaves every matching entry matching the id |
| Prover.FetchBatchPublicInputs | src/prover.rs:305-326 | the verifying key is served by id, then the backend's raw inputs are chunked |

## Left out

- The Poseidon2 permutation `permute4` (src/poseidon2.rs:10-36) is a parameter; no collision resistance is assumed or proved.
- Field comparison (`PartialOrd`, `fr_cmp`) is modelled as order on the reduced values. The FFI implementations of field arithmetic (src/bn254.rs:49-185) are replaced by explicit modular arithmetic.
- Schnorr signing and keys (src/keys.rs) are a function-typed signer, and `random_salt_field` (src/tx.rs:53-57) is a finite stream of salts. Running out of salts is an extra error, `SaltStreamExhausted`, that the unbounded source loop never returns.
- The following external library calls are parameters of the model, not modelled:
  - proving and verification: `prove`, `prove_with_priv_and_pub`'s ACVM solving and witness serialisation, `public_outputs`, `verify` (src/prover.rs:188-193, 249-285, 332-405);
  - key generation: `compile_mega`, `write_vk_mega_honk`, `mega_vk_hash`, `mega_public_inputs`;
  - `batch_merge_h2` in `merge_batch_h2_by_id` (src/prover.rs:287-303).
- `init_circuit_from_artifacts` (src/prover.rs:144-174) is not modelled, because it consists of those external calls followed by one catalog insert.
- CRS setup (`ensure_crs`), `ensure_circuit_loaded` and the `OnceLock`/global-mutex machinery are left out as process-wide initialisation and concurrency. So are `init_embedded_catalog`'s `hydrate` and `init_default_circuits`. The catalog is one owned object.
- `insert_circuit`, `get_circuit` and `get_key_id` (src/prover.rs:46-59) are thin wrappers over `Catalog.Catalog.Insert` and `Catalog.Catalog.Get` and get no members of their own.
- ABI JSON parsing and `from_be_bytes_reduce` are modelled as follows:
  - parsing is a parameter;
  - `from_be_bytes_reduce` is reduction modulo p on the big-endian value.
- The binprot wire framing is not modelled; only the length check of `binprot_read` is.
- `prove_with_abi`'s `push_param` (src/prover.rs:504-562) is identical to the one in `prove_with_all_inputs`, and `Prover.PushParam` models both.
- Prover.PushLeaf: the Field and Integer/Boolean arms report differently worded messages. The model uses one `WrongLength` error for both.
- The snapshot of src/catalog.rs lacks the `key_id` and `vk_hash` fields of `CircuitEntry`, the four-argument `update_vk`, `get_vk_entry_by_id` and `upsert_vk_entry`, all of which src/prover.rs uses. They are modelled from their use in src/prover.rs:
  - the entry carries `keyId` and `vkHash`;
  - `init_embedded` takes the key-id function as a parameter;
  - the four-argument update is `Catalog.Catalog.UpdateVkMeta`;
  - the verifying-key side table is a map.
- `SpendInput`/`MergeInput` are missing from src/types.rs. Both are modelled as one signed-input record: the signer's public key and an inclusion witness.
- `HashMap` iteration order in `all_loaded` and `get_circuit_by_key_id` is unspecified. The model picks any order or any matching entry.
- The `MissingAfterRegeneration` error of `get_vk_bytes_by_id` (src/prover.rs:66-71) cannot occur in the model: regeneration never removes an entry.
- Tx.FinishSpend: the retry loop checks the candidate output commitments. The ABI map is packed once, for the accepted attempt; the source packs and discards a map on each rejected attempt.
  - The Err contract names only retry errors. Backend errors are stated by `Tx.SignAndProve`.
- Tx.FinishMerge: the same two simplifications as `Tx.FinishSpend`.
- Tx.ProveSpend: uses the checked slot-0 guard of `Tx.Remainder`, not the wrapping one of src/tx.rs:181-186 (see Findings). When transfer + fee wraps past p, for example a balance of 1, a transfer of p − 1 and a fee of 2, the model refuses with `InsufficientForTransferAndFee`; the source would go on to sign and prove. Whenever transfer + fee < p the two guards agree (`Tx.RemainderAgreesWithoutWrap`).
- Tx.SpendConservesValue: stated for the spend built on the checked remainder; for the wrapping guard conservation holds only modulo p (`Tx.RemainderAsWrittenWraps`).
- Tx.ProveSpend: the literal `SpendTx` (src/tx.rs:264-278) does not set the `sender_pk_x` field that src/types.rs declares. The model sets it to the sender's x-coordinate.
- Tx.ProveMerge: the literal `MergeTx` (src/tx.rs:369-377) does not set `sender_pk_x` either; it is filled in the same way.
  - The same-signer check (src/tx.rs:309-313) cannot fail once the signer matches both inputs, so it has no error case of its own.
- The membership oracle of `validate_and_plan_block` is a parameter.

## Findings

| source | as written | input that shows it | evidently intended | confidence | as-written member | corrected member |
|---|---|---|---|---|---|---|
| src/tx.rs:181-186 | with the transfer in slot 0 the guard compares in[0] with `transfer + fee` computed as a field addition, which wraps modulo p | in[0] = 1, transfer = p − 1, fee = 2: the field sum is 1 and the guard passes; the remainder is 0 (1 − (p − 1) wraps to 2, less the fee of 2), so the receiver is credited p − 1 from a balance of 1, and remainder + transfer + fee equals in[0] only modulo p | refuse the spend unless in[0] ≥ transfer + fee as integers, so that remainder + transfer + fee = in[0] | not executed | Tx.RemainderAsWritten, Tx.RemainderAsWrittenWraps | Tx.Remainder |
