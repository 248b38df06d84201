/**
 * Batch planning: ordering candidate leaves, re-checking their leaf hashes,
 * double-spend bookkeeping, the pair-completeness rule and the pairwise root.
 */
module Batch {
  import opened Wrappers
  import opened Bytes
  import opened Bn254
  import opened Poseidon2
  import opened Sorting
  import opened Types

  /** One transaction leaf of a block. */
  datatype BindingLeaf = BindingLeaf(leafId: seq<uint8>, leafHash: Field)

  /** A planned block: an even number of leaves and the odd one out, if any. */
  datatype BindingBlock = BindingBlock(
    blockId: u64,
    acceptanceRoot: Field,
    leaves: seq<BindingLeaf>,
    deferred: Option<BindingLeaf>)

  /** The leaf hashes, in leaf order. */
  function Hashes(leaves: seq<BindingLeaf>): (hs: seq<Field>)
    ensures |hs| == |leaves|
    ensures forall i :: 0 <= i < |leaves| ==> hs[i] == leaves[i].leafHash
  {
    seq(|leaves|, i requires 0 <= i < |leaves| => leaves[i].leafHash)
  }

  function DeferredSeq(d: Option<BindingLeaf>): seq<BindingLeaf>
  {
    if d.Some? then [d.value] else []
  }

  /** `BindingBlock::manifest_hash`. */
  function ManifestHash(perm: Permutation, b: BindingBlock): Field
    requires |b.leaves| < TWO_POW_64
  {
    HashManifest(perm, b.blockId, b.acceptanceRoot, Hashes(b.leaves))
  }

  /**
   * The manifest covers the block id, the acceptance root and the leaf
   * hashes in order, through `hash_manifest`; the deferred leaf and the leaf
   * ids take no part.
   */
  lemma ManifestCoversLeafHashesOnly(perm: Permutation, b: BindingBlock, ids: seq<seq<uint8>>, d: Option<BindingLeaf>)
    requires |b.leaves| < TWO_POW_64 && |ids| == |b.leaves|
    ensures var relabelled := seq(|b.leaves|, i requires 0 <= i < |b.leaves| => BindingLeaf(ids[i], b.leaves[i].leafHash));
            ManifestHash(perm, b.(leaves := relabelled, deferred := d)) == ManifestHash(perm, b)
  {
    var relabelled := seq(|b.leaves|, i requires 0 <= i < |b.leaves| => BindingLeaf(ids[i], b.leaves[i].leafHash));
    assert Hashes(relabelled) == Hashes(b.leaves);
  }

  /**
   * `plan_block`: pops the last leaf into `deferred` when the count is odd.
   * The block keeps an even number of leaves, and its leaves followed by the
   * deferred one are the input.
   */
  method PlanBlock(blockId: u64, acceptanceRoot: Field, leaves: seq<BindingLeaf>) returns (b: BindingBlock)
    ensures b.blockId == blockId && b.acceptanceRoot == acceptanceRoot
    ensures |b.leaves| % 2 == 0
    ensures b.leaves + DeferredSeq(b.deferred) == leaves
    ensures b.deferred.Some? <==> |leaves| % 2 == 1
  {
    var ls := leaves;
    var deferred: Option<BindingLeaf> := None;
    if |ls| % 2 == 1 {
      deferred := Some(ls[|ls| - 1]);
      ls := ls[..|ls| - 1];
    }
    b := BindingBlock(blockId, acceptanceRoot, ls, deferred);
  }

  // ---------------------------------------------------------------------------
  // Ordering

  /** `Ord::cmp` on `u64`. */
  function CmpNat(a: nat, b: nat): Ordering
  {
    if a < b then Less else if a > b then Greater else Equal
  }

  /** `Ordering::then_with`: the second comparison only breaks ties of the first. */
  function ThenWith(first: Ordering, next: Ordering): Ordering
  {
    if first == Equal then next else first
  }

  /** `field_cmp`: the order of the big-endian byte encodings. */
  function FieldCmp(a: Field, b: Field): Ordering
  {
    Compare(ToBytes(a), ToBytes(b))
  }

  /** Comparing the encodings compares the 256-bit integers they spell. */
  lemma FieldCmpIsNumeric(a: Field, b: Field)
    ensures FieldCmp(a, b) == Less <==> Value(a) < Value(b)
    ensures FieldCmp(a, b) == Equal <==> a == b
    ensures FieldCmp(a, b) == Greater <==> Value(a) > Value(b)
  {
    CompareIsNumeric(a.bytes, b.bytes);
    CompareIsNumeric(b.bytes, a.bytes);
    CompareFlip(a.bytes, b.bytes);
    CompareEqual(a.bytes, b.bytes);
  }

  /** The sort key of a candidate: arrival time, then leaf hash, then publisher. */
  datatype SortKey = SortKey(arrival: u64, hash: Field, publisher: Bytes32)

  function KeyCmp(a: SortKey, b: SortKey): Ordering
  {
    ThenWith(CmpNat(a.arrival, b.arrival), ThenWith(FieldCmp(a.hash, b.hash), Compare(a.publisher, b.publisher)))
  }

  /** Swapping the keys swaps `Less` and `Greater`. */
  lemma KeyCmpFlip(a: SortKey, b: SortKey)
    ensures KeyCmp(a, b) == Less <==> KeyCmp(b, a) == Greater
  {
    CompareFlip(a.hash.bytes, b.hash.bytes);
    CompareFlip(b.hash.bytes, a.hash.bytes);
    CompareFlip(a.publisher, b.publisher);
    CompareFlip(b.publisher, a.publisher);
    CompareEqual(a.hash.bytes, b.hash.bytes);
    CompareEqual(b.hash.bytes, a.hash.bytes);
  }

  /** Only equal keys compare `Equal`. */
  lemma KeyCmpEqual(a: SortKey, b: SortKey)
    ensures KeyCmp(a, b) == Equal <==> a == b
  {
    CompareEqual(a.hash.bytes, b.hash.bytes);
    CompareEqual(a.publisher, b.publisher);
  }

  lemma KeyCmpTransitive(a: SortKey, b: SortKey, c: SortKey)
    requires KeyCmp(a, b) == Less && KeyCmp(b, c) == Less
    ensures KeyCmp(a, c) == Less
  {
    CompareEqual(a.hash.bytes, b.hash.bytes);
    CompareEqual(b.hash.bytes, c.hash.bytes);
    CompareEqual(a.publisher, b.publisher);
    CompareEqual(b.publisher, c.publisher);
    if a.arrival == b.arrival == c.arrival {
      if FieldCmp(a.hash, b.hash) == Less && FieldCmp(b.hash, c.hash) == Less {
        CompareTransitive(a.hash.bytes, b.hash.bytes, c.hash.bytes);
      } else if a.hash == b.hash == c.hash {
        CompareTransitive(a.publisher, b.publisher, c.publisher);
      }
    }
  }

  predicate KeyLe(a: SortKey, b: SortKey)
  {
    KeyCmp(a, b) != Greater
  }

  /** Any order that compares elements by their sort keys is a total preorder. */
  lemma KeyedPreorder<T(!new)>(key: T -> SortKey, le: (T, T) -> bool)
    requires forall a, b :: le(a, b) == KeyLe(key(a), key(b))
    ensures TotalPreorder(le)
  {
    forall a, b
      ensures le(a, b) || le(b, a)
    {
      KeyCmpFlip(key(a), key(b));
      KeyCmpFlip(key(b), key(a));
    }
    forall a, b, c | le(a, b) && le(b, c)
      ensures le(a, c)
    {
      KeyCmpEqual(key(a), key(b));
      KeyCmpEqual(key(b), key(c));
      if KeyCmp(key(a), key(b)) == Less && KeyCmp(key(b), key(c)) == Less {
        KeyCmpTransitive(key(a), key(b), key(c));
      }
    }
  }

  // ---------------------------------------------------------------------------
  // Planning from candidates

  datatype CandidateLeaf = CandidateLeaf(leafId: seq<uint8>, leafHash: Field, arrivalTimeNs: u64, publisherId: Bytes32)

  function CandidateKey(c: CandidateLeaf): SortKey
  {
    SortKey(c.arrivalTimeNs, c.leafHash, c.publisherId)
  }

  predicate CandidateLe(a: CandidateLeaf, b: CandidateLeaf)
  {
    KeyLe(CandidateKey(a), CandidateKey(b))
  }

  function LeafOfCandidate(c: CandidateLeaf): BindingLeaf
  {
    BindingLeaf(c.leafId, c.leafHash)
  }

  function LeavesOfCandidates(cs: seq<CandidateLeaf>): (ls: seq<BindingLeaf>)
    ensures |ls| == |cs|
    ensures forall i :: 0 <= i < |cs| ==> ls[i] == LeafOfCandidate(cs[i])
  {
    seq(|cs|, i requires 0 <= i < |cs| => LeafOfCandidate(cs[i]))
  }

  /**
   * The candidate order is a sorted permutation: sorting by (arrival time,
   * leaf hash bytes, publisher bytes) keeps every candidate and puts them in
   * non-decreasing key order.
   */
  lemma CandidateOrderSorted(cs: seq<CandidateLeaf>)
    ensures multiset(SortBy(cs, CandidateLe)) == multiset(cs)
    ensures SortedBy(SortBy(cs, CandidateLe), CandidateLe)
  {
    KeyedPreorder(CandidateKey, CandidateLe);
    SortBySorted(cs, CandidateLe);
  }

  /** `plan_block_from_candidates`: sort by key, drop the ordering fields, plan. */
  method PlanBlockFromCandidates(blockId: u64, acceptanceRoot: Field, candidates: seq<CandidateLeaf>)
    returns (b: BindingBlock)
    ensures b.blockId == blockId && b.acceptanceRoot == acceptanceRoot
    ensures |b.leaves| % 2 == 0
    ensures b.leaves + DeferredSeq(b.deferred) == LeavesOfCandidates(SortBy(candidates, CandidateLe))
  {
    var sorted := SortBy(candidates, CandidateLe);
    b := PlanBlock(blockId, acceptanceRoot, LeavesOfCandidates(sorted));
  }

  // ---------------------------------------------------------------------------
  // Leaf records

  /** The public data of a proved transaction, from which the planner recomputes its leaf hash. */
  datatype LeafRecord =
    | Spend(inCommit: Field, outCommit0: Field, outCommit1: Field,
            transferToken: Field, transferAmount: Field, feeAmount: Field)
    | Merge(inCommit0: Field, inCommit1: Field, outCommit: Field)

  /** `LeafRecord::recompute_leaf_hash`. */
  function RecomputeLeafHash(perm: Permutation, r: LeafRecord): Field
  {
    match r
    case Spend(i, o0, o1, t, a, f) => HashSpendLeaf(perm, i, o0, o1, t, a, f)
    case Merge(i0, i1, o) => HashMergeLeaf(perm, i0, i1, o)
  }

  /** `LeafRecord::outputs`. */
  function Outputs(r: LeafRecord): seq<Field>
  {
    match r
    case Spend(_, o0, o1, _, _, _) => [o0, o1]
    case Merge(_, _, o) => [o]
  }

  /** `LeafRecord::inputs`. */
  function Inputs(r: LeafRecord): seq<Field>
  {
    match r
    case Spend(i, _, _, _, _, _) => [i]
    case Merge(i0, i1, _) => [i0, i1]
  }

  /** The record of a proved spend: the same data `SpendTx::leaf_hash` hashes. */
  function SpendRecord(tx: SpendTx): LeafRecord
  {
    Spend(FromBytes(tx.input.commitment.bytes), tx.expectedOutCommits.0, tx.expectedOutCommits.1,
          tx.transferToken, tx.transferAmount, tx.feeAmount)
  }

  function MergeRecord(tx: MergeTx): LeafRecord
  {
    Merge(FromBytes(tx.inputs.0.commitment.bytes), FromBytes(tx.inputs.1.commitment.bytes), tx.expectedOutCommit)
  }

  /**
   * The planner's recomputation agrees with the transactions' own leaf
   * hashes, and a record consumes the transaction's inputs and creates its
   * outputs: one input and two outputs for a spend, two inputs and one output
   * for a merge.
   */
  lemma RecordsAgreeWithTransactions(perm: Permutation, s: SpendTx, m: MergeTx)
    requires s.outputs.SpendOutput? && m.outputs.MergeOutput?
    ensures RecomputeLeafHash(perm, SpendRecord(s)) == SpendLeafHash(perm, s)
    ensures RecomputeLeafHash(perm, MergeRecord(m)) == MergeLeafHash(perm, m)
    ensures Inputs(SpendRecord(s)) == [FromBytes(s.input.commitment.bytes)]
    ensures Outputs(SpendRecord(s)) == [s.expectedOutCommits.0, s.expectedOutCommits.1]
    ensures Inputs(MergeRecord(m)) == [FromBytes(m.inputs.0.commitment.bytes), FromBytes(m.inputs.1.commitment.bytes)]
    ensures Outputs(MergeRecord(m)) == [m.expectedOutCommit]
  {
  }

  // ---------------------------------------------------------------------------
  // Validation

  /** The byte keys of a list of commitments, as the planner's hash sets store them. */
  function KeysOf(xs: seq<Field>): set<Bytes32>
    decreases |xs|
  {
    if xs == [] then {} else KeysOf(xs[..|xs| - 1]) + {ToBytes(xs[|xs| - 1])}
  }

  lemma {:induction false} KeysOfMembership(xs: seq<Field>, k: Bytes32)
    ensures k in KeysOf(xs) <==> exists i :: 0 <= i < |xs| && ToBytes(xs[i]) == k
  {
    if xs != [] {
      var init := xs[..|xs| - 1];
      KeysOfMembership(init, k);
      if k in KeysOf(init) {
        var i :| 0 <= i < |init| && ToBytes(init[i]) == k;
        assert ToBytes(xs[i]) == k;
      }
      if exists i :: 0 <= i < |xs| && ToBytes(xs[i]) == k {
        var i :| 0 <= i < |xs| && ToBytes(xs[i]) == k;
        if i < |init| {
          assert ToBytes(init[i]) == k;
        }
      }
    }
  }

  /** An input may be spent: it exists already or was produced earlier, and it has not been consumed. */
  predicate Available(x: Field, member: Field -> bool, produced: set<Bytes32>, consumed: set<Bytes32>)
  {
    (member(x) || ToBytes(x) in produced) && ToBytes(x) !in consumed
  }

  predicate InputsAvailable(r: LeafRecord, member: Field -> bool, produced: set<Bytes32>, consumed: set<Bytes32>)
  {
    forall i :: 0 <= i < |Inputs(r)| ==> Available(Inputs(r)[i], member, produced, consumed)
  }

  /** `inputs_ok`: every input is available; the first unavailable one ends the check. */
  method InputsOk(r: LeafRecord, member: Field -> bool, produced: set<Bytes32>, consumed: set<Bytes32>)
    returns (ok: bool)
    ensures ok == InputsAvailable(r, member, produced, consumed)
  {
    var ins := Inputs(r);
    for i := 0 to |ins|
      invariant forall k :: 0 <= k < i ==> Available(ins[k], member, produced, consumed)
    {
      var key := ToBytes(ins[i]);
      var prev := member(ins[i]) || key in produced;
      if !prev || key in consumed {
        return false;
      }
    }
    return true;
  }

  datatype CandidateWithRecord = CandidateWithRecord(
    leafId: seq<uint8>,
    arrivalTimeNs: u64,
    publisherId: Bytes32,
    record: LeafRecord,
    declaredLeafHash: Field)

  function RecordKey(c: CandidateWithRecord): SortKey
  {
    SortKey(c.arrivalTimeNs, c.declaredLeafHash, c.publisherId)
  }

  predicate RecordLe(a: CandidateWithRecord, b: CandidateWithRecord)
  {
    KeyLe(RecordKey(a), RecordKey(b))
  }

  /** `validate_and_plan_block` orders its candidates as `plan_block_from_candidates` does, by the declared hash. */
  lemma RecordOrderSorted(cs: seq<CandidateWithRecord>)
    ensures multiset(SortBy(cs, RecordLe)) == multiset(cs)
    ensures SortedBy(SortBy(cs, RecordLe), RecordLe)
  {
    KeyedPreorder(RecordKey, RecordLe);
    SortBySorted(cs, RecordLe);
  }

  /** How the planner recomputes a leaf hash from a record. */
  type LeafHasher = LeafRecord -> Field

  function Recompute(perm: Permutation): LeafHasher
  {
    r => RecomputeLeafHash(perm, r)
  }

  /**
   * The planner's state between candidates. The walk is stated for any
   * recomputation `hash`; `validate_and_plan_block` uses `Recompute(perm)`.
   */
  datatype Ledger = Ledger(produced: set<Bytes32>, consumed: set<Bytes32>, accepted: seq<CandidateWithRecord>)

  /** A candidate is accepted when its declared hash is the recomputed one and its inputs are available. */
  predicate Admissible(hash: LeafHasher, member: Field -> bool, st: Ledger, c: CandidateWithRecord)
  {
    hash(c.record) == c.declaredLeafHash
    && InputsAvailable(c.record, member, st.produced, st.consumed)
  }

  function Step(hash: LeafHasher, member: Field -> bool, st: Ledger, c: CandidateWithRecord): Ledger
  {
    if Admissible(hash, member, st, c) then
      Ledger(st.produced + KeysOf(Outputs(c.record)), st.consumed + KeysOf(Inputs(c.record)), st.accepted + [c])
    else st
  }

  /** The planner's state after the candidates `cs`, taken in order from an empty state. */
  function Run(hash: LeafHasher, member: Field -> bool, cs: seq<CandidateWithRecord>): Ledger
    decreases |cs|
  {
    if cs == [] then Ledger({}, {}, [])
    else Step(hash, member, Run(hash, member, cs[..|cs| - 1]), cs[|cs| - 1])
  }

  function LeafOfRecord(c: CandidateWithRecord): BindingLeaf
  {
    BindingLeaf(c.leafId, c.declaredLeafHash)
  }

  function LeavesOfRecords(cs: seq<CandidateWithRecord>): (ls: seq<BindingLeaf>)
    ensures |ls| == |cs|
    ensures forall i :: 0 <= i < |cs| ==> ls[i] == LeafOfRecord(cs[i])
  {
    seq(|cs|, i requires 0 <= i < |cs| => LeafOfRecord(cs[i]))
  }

  /**
   * `validate_and_plan_block`: sorts the candidates, then walks them in order,
   * skipping those whose declared hash is wrong or whose inputs are not
   * available, and recording the inputs and outputs of each accepted one
   * before the next is examined; the accepted leaves are then planned.
   */
  method ValidateAndPlanBlock(perm: Permutation, blockId: u64, acceptanceRoot: Field,
                              candidates: seq<CandidateWithRecord>, member: Field -> bool)
    returns (b: BindingBlock)
    ensures b.blockId == blockId && b.acceptanceRoot == acceptanceRoot
    ensures |b.leaves| % 2 == 0
    ensures b.leaves + DeferredSeq(b.deferred)
         == LeavesOfRecords(Run(Recompute(perm), member, SortBy(candidates, RecordLe)).accepted)
  {
    var sorted := SortBy(candidates, RecordLe);
    var produced: set<Bytes32> := {};
    var consumed: set<Bytes32> := {};
    var leaves: seq<BindingLeaf> := [];
    ghost var accepted: seq<CandidateWithRecord> := [];
    for i := 0 to |sorted|
      invariant Run(Recompute(perm), member, sorted[..i]) == Ledger(produced, consumed, accepted)
      invariant leaves == LeavesOfRecords(accepted)
    {
      var cand := sorted[i];
      RunPrefix(Recompute(perm), member, sorted, i);
      ghost var st := Ledger(produced, consumed, accepted);
      var recomputed := RecomputeLeafHash(perm, cand.record);
      var ok := false;
      if recomputed == cand.declaredLeafHash {
        ok := InputsOk(cand.record, member, produced, consumed);
      }
      assert ok == Admissible(Recompute(perm), member, st, cand);
      if ok {
        consumed := InsertKeys(consumed, Inputs(cand.record));
        produced := InsertKeys(produced, Outputs(cand.record));
        LeavesOfRecordsSnoc(accepted, cand);
        leaves := leaves + [LeafOfRecord(cand)];
        accepted := accepted + [cand];
      }
    }
    assert sorted[..|sorted|] == sorted;
    b := PlanBlock(blockId, acceptanceRoot, leaves);
  }

  /** The `for` loops of `validate_and_plan_block` that insert each commitment's bytes into a set. */
  method InsertKeys(s: set<Bytes32>, xs: seq<Field>) returns (r: set<Bytes32>)
    ensures r == s + KeysOf(xs)
  {
    r := s;
    for j := 0 to |xs|
      invariant r == s + KeysOf(xs[..j])
    {
      assert xs[..j + 1][..j] == xs[..j];
      r := r + {ToBytes(xs[j])};
    }
    assert xs[..|xs|] == xs;
  }

  lemma LeavesOfRecordsSnoc(acc: seq<CandidateWithRecord>, c: CandidateWithRecord)
    ensures LeavesOfRecords(acc + [c]) == LeavesOfRecords(acc) + [LeafOfRecord(c)]
  {
    assert LeavesOfRecords(acc + [c])[..|acc|] == LeavesOfRecords(acc);
  }

  lemma RunPrefix(hash: LeafHasher, member: Field -> bool, cs: seq<CandidateWithRecord>, i: nat)
    requires i < |cs|
    ensures Run(hash, member, cs[..i + 1]) == Step(hash, member, Run(hash, member, cs[..i]), cs[i])
  {
    assert cs[..i + 1][..i] == cs[..i];
  }

  // ---------------------------------------------------------------------------
  // What validation guarantees

  /** Accepting a candidate appends it; rejecting it leaves produced, consumed and accepted as they were. */
  lemma RunStep(hash: LeafHasher, member: Field -> bool, cs: seq<CandidateWithRecord>, c: CandidateWithRecord)
    ensures !Admissible(hash, member, Run(hash, member, cs), c) ==> Run(hash, member, cs + [c]) == Run(hash, member, cs)
    ensures Admissible(hash, member, Run(hash, member, cs), c) ==>
              Run(hash, member, cs + [c]).accepted == Run(hash, member, cs).accepted + [c]
  {
    assert (cs + [c])[..|cs|] == cs;
  }

  /** Every accepted candidate's declared leaf hash is the recomputed one. */
  lemma {:induction false} AcceptedHashesChecked(hash: LeafHasher, member: Field -> bool, cs: seq<CandidateWithRecord>)
    ensures forall c :: c in Run(hash, member, cs).accepted ==> hash(c.record) == c.declaredLeafHash
    decreases |cs|
  {
    if cs != [] {
      AcceptedHashesChecked(hash, member, cs[..|cs| - 1]);
    }
  }

  /**
   * Acceptance keeps the input order: the accepted candidates are a
   * sub-multiset of the candidates and, when the candidates are sorted, are
   * sorted too.
   */
  lemma {:induction false} AcceptedKeepOrder(hash: LeafHasher, member: Field -> bool, cs: seq<CandidateWithRecord>,
                                             le: (CandidateWithRecord, CandidateWithRecord) -> bool)
    requires SortedBy(cs, le)
    ensures multiset(Run(hash, member, cs).accepted) <= multiset(cs)
    ensures SortedBy(Run(hash, member, cs).accepted, le)
    decreases |cs|
  {
    if cs != [] {
      var init, c := cs[..|cs| - 1], cs[|cs| - 1];
      assert cs == init + [c];
      AcceptedKeepOrder(hash, member, init, le);
      var acc := Run(hash, member, init).accepted;
      if Admissible(hash, member, Run(hash, member, init), c) {
        forall i | 0 <= i < |acc|
          ensures le(acc[i], c)
        {
          assert acc[i] in multiset(init);
          var k :| 0 <= k < |init| && init[k] == acc[i];
        }
      }
    }
  }

  /** The positions in `cs` of the candidates `Run` accepts, in order. */
  function AcceptedPositions(hash: LeafHasher, member: Field -> bool, cs: seq<CandidateWithRecord>): seq<nat>
    decreases |cs|
  {
    if cs == [] then []
    else
      var init := cs[..|cs| - 1];
      if Admissible(hash, member, Run(hash, member, init), cs[|cs| - 1])
      then AcceptedPositions(hash, member, init) + [|cs| - 1]
      else AcceptedPositions(hash, member, init)
  }

  /**
   * The accepted candidates are a subsequence of the candidates: the k-th
   * accepted one is the candidate at the k-th of a strictly increasing list
   * of positions.
   */
  lemma {:induction false} AcceptedIsSubsequence(hash: LeafHasher, member: Field -> bool, cs: seq<CandidateWithRecord>)
    ensures var acc, pos := Run(hash, member, cs).accepted, AcceptedPositions(hash, member, cs);
            && |pos| == |acc|
            && (forall k :: 0 <= k < |pos| ==> pos[k] < |cs| && acc[k] == cs[pos[k]])
            && (forall a, b :: 0 <= a < b < |pos| ==> pos[a] < pos[b])
    decreases |cs|
  {
    if cs != [] {
      var init, c := cs[..|cs| - 1], cs[|cs| - 1];
      AcceptedIsSubsequence(hash, member, init);
      var acc0, pos0 := Run(hash, member, init).accepted, AcceptedPositions(hash, member, init);
      forall k | 0 <= k < |pos0|
        ensures pos0[k] < |cs| - 1 && acc0[k] == cs[pos0[k]]
      {
        assert init[pos0[k]] == cs[pos0[k]];
      }
    }
  }

  /** The commitments produced and consumed by a list of accepted candidates. */
  function ProducedBy(acc: seq<CandidateWithRecord>): set<Bytes32>
    decreases |acc|
  {
    if acc == [] then {} else ProducedBy(acc[..|acc| - 1]) + KeysOf(Outputs(acc[|acc| - 1].record))
  }

  function ConsumedBy(acc: seq<CandidateWithRecord>): set<Bytes32>
    decreases |acc|
  {
    if acc == [] then {} else ConsumedBy(acc[..|acc| - 1]) + KeysOf(Inputs(acc[|acc| - 1].record))
  }

  /** The sets hold exactly the outputs and the inputs of the accepted candidates. */
  lemma {:induction false} LedgerSets(hash: LeafHasher, member: Field -> bool, cs: seq<CandidateWithRecord>)
    ensures Run(hash, member, cs).produced == ProducedBy(Run(hash, member, cs).accepted)
    ensures Run(hash, member, cs).consumed == ConsumedBy(Run(hash, member, cs).accepted)
    decreases |cs|
  {
    if cs != [] {
      var init, c := cs[..|cs| - 1], cs[|cs| - 1];
      var st := Run(hash, member, init);
      LedgerSets(hash, member, init);
      assert Run(hash, member, cs) == Step(hash, member, st, c);
      if Admissible(hash, member, st, c) {
        var acc := st.accepted + [c];
        assert acc[..|acc| - 1] == st.accepted && acc[|acc| - 1] == c;
        assert ProducedBy(acc) == ProducedBy(st.accepted) + KeysOf(Outputs(c.record));
        assert ConsumedBy(acc) == ConsumedBy(st.accepted) + KeysOf(Inputs(c.record));
      }
    }
  }

  lemma {:induction false} ConsumedByCovers(acc: seq<CandidateWithRecord>, i: nat)
    requires i < |acc|
    ensures KeysOf(Inputs(acc[i].record)) <= ConsumedBy(acc)
    decreases |acc|
  {
    if i < |acc| - 1 {
      ConsumedByCovers(acc[..|acc| - 1], i);
    }
  }

  /** Two inputs share no key. */
  predicate SpendDisjoint(a: CandidateWithRecord, b: CandidateWithRecord)
  {
    KeysOf(Inputs(a.record)) !! KeysOf(Inputs(b.record))
  }

  /** No double spend: no commitment is consumed by two different accepted candidates. */
  lemma {:induction false} NoDoubleSpend(hash: LeafHasher, member: Field -> bool, cs: seq<CandidateWithRecord>)
    ensures var acc := Run(hash, member, cs).accepted;
            forall i, j :: 0 <= i < j < |acc| ==> SpendDisjoint(acc[i], acc[j])
    decreases |cs|
  {
    if cs != [] {
      var init, c := cs[..|cs| - 1], cs[|cs| - 1];
      NoDoubleSpend(hash, member, init);
      var st := Run(hash, member, init);
      if Admissible(hash, member, st, c) {
        LedgerSets(hash, member, init);
        var acc := st.accepted;
        forall i | 0 <= i < |acc|
          ensures SpendDisjoint(acc[i], c)
        {
          ConsumedByCovers(acc, i);
          forall k | k in KeysOf(Inputs(c.record))
            ensures k !in KeysOf(Inputs(acc[i].record))
          {
            KeysOfMembership(Inputs(c.record), k);
            var m :| 0 <= m < |Inputs(c.record)| && ToBytes(Inputs(c.record)[m]) == k;
            assert Available(Inputs(c.record)[m], member, st.produced, st.consumed);
          }
        }
      }
    }
  }

  /** Where an accepted candidate's inputs come from: the ledger, or an earlier accepted candidate. */
  predicate InputsProvenanced(member: Field -> bool, acc: seq<CandidateWithRecord>, j: nat)
    requires j < |acc|
  {
    forall m :: 0 <= m < |Inputs(acc[j].record)| ==>
      member(Inputs(acc[j].record)[m]) || ToBytes(Inputs(acc[j].record)[m]) in ProducedBy(acc[..j])
  }

  /** Appending a candidate does not change where an earlier one's inputs come from. */
  lemma ProvenanceExtends(member: Field -> bool, acc: seq<CandidateWithRecord>, c: CandidateWithRecord, j: nat)
    requires j < |acc| && InputsProvenanced(member, acc, j)
    ensures InputsProvenanced(member, acc + [c], j)
  {
    assert (acc + [c])[..j] == acc[..j];
    assert (acc + [c])[j] == acc[j];
  }

  /** Every input of an accepted candidate exists in the ledger or is an output of an earlier accepted candidate. */
  lemma {:induction false} AcceptedInputsExist(hash: LeafHasher, member: Field -> bool, cs: seq<CandidateWithRecord>)
    ensures var acc := Run(hash, member, cs).accepted;
            forall j :: 0 <= j < |acc| ==> InputsProvenanced(member, acc, j)
    decreases |cs|
  {
    if cs != [] {
      var init, c := cs[..|cs| - 1], cs[|cs| - 1];
      AcceptedInputsExist(hash, member, init);
      var st := Run(hash, member, init);
      if Admissible(hash, member, st, c) {
        LedgerSets(hash, member, init);
        var acc := st.accepted + [c];
        forall j | 0 <= j < |acc|
          ensures InputsProvenanced(member, acc, j)
        {
          if j == |st.accepted| {
            assert acc[..j] == st.accepted;
            forall m | 0 <= m < |Inputs(c.record)|
              ensures member(Inputs(c.record)[m]) || ToBytes(Inputs(c.record)[m]) in ProducedBy(st.accepted)
            {
              assert Available(Inputs(c.record)[m], member, st.produced, st.consumed);
            }
          } else {
            ProvenanceExtends(member, st.accepted, c, j);
          }
        }
      }
    }
  }

  /**
   * `consumed` is checked before any of a record's inputs are recorded, so a
   * merge whose two inputs are the same existing commitment is accepted; a
   * later spend of that commitment is rejected.
   */
  lemma RepeatedMergeInputAccepted(hash: LeafHasher, member: Field -> bool, x: Field, o: Field,
                                   c: CandidateWithRecord, d: CandidateWithRecord)
    requires member(x)
    requires c.record == Merge(x, x, o) && c.declaredLeafHash == hash(c.record)
    requires d.record.Spend? && d.record.inCommit == x
    ensures Run(hash, member, [c]).accepted == [c]
    ensures Run(hash, member, [c, d]).accepted == [c]
  {
    assert [c][..0] == [];
    assert [c, d][..1] == [c];
    var st := Run(hash, member, [c]);
    assert ToBytes(x) in st.consumed;
    assert !Available(Inputs(d.record)[0], member, st.produced, st.consumed);
  }

  // ---------------------------------------------------------------------------
  // The pairwise root

  /** How two nodes combine into their parent. */
  type Combiner = (Field, Field) -> Field

  /** The combiner of `canonical_root_even`: `h2`. */
  function H2Of(perm: Permutation): Combiner
  {
    (left, right) => H2(perm, left, right)
  }

  /** One level of the fold: adjacent pairs, left to right, combined by `h`; an odd last element is dropped. */
  function Level(h: Combiner, xs: seq<Field>): seq<Field>
  {
    seq(|xs| / 2, i requires 0 <= i < |xs| / 2 => h(xs[2 * i], xs[2 * i + 1]))
  }

  /** Folds levels until at most one element is left. */
  function Fold(h: Combiner, xs: seq<Field>): (r: seq<Field>)
    ensures |xs| >= 1 ==> |r| == 1
    ensures |xs| == 0 ==> r == []
    decreases |xs|
  {
    if |xs| <= 1 then xs else Fold(h, Level(h, xs))
  }

  /** The root over `h`: none for an empty or odd list, otherwise the last node of the fold. */
  function RootWith(h: Combiner, hs: seq<Field>): (r: Option<Field>)
    ensures r.Some? <==> |hs| > 0 && |hs| % 2 == 0
  {
    if |hs| == 0 || |hs| % 2 == 1 then None else Some(Fold(h, hs)[0])
  }

  /** The root that the free function `canonical_root_even` computes. */
  function CanonicalRoot(perm: Permutation, hs: seq<Field>): Option<Field>
  {
    RootWith(H2Of(perm), hs)
  }

  /** `canonical_root_even`: rebuilds the level from its pairs until one node is left. */
  method CanonicalRootEven(perm: Permutation, hashes: seq<Field>) returns (r: Option<Field>)
    ensures r == CanonicalRoot(perm, hashes)
  {
    if |hashes| == 0 || |hashes| % 2 == 1 {
      return None;
    }
    var level := hashes;
    while |level| > 1
      invariant |level| >= 1
      invariant Fold(H2Of(perm), level) == Fold(H2Of(perm), hashes)
      decreases |level|
    {
      var next := PairUp(H2Of(perm), level);
      level := next;
    }
    r := Some(level[0]);
  }

  /** The inner loop of `canonical_root_even`: `h` (there `h2`) of each pair that `chunks_exact(2)` yields. */
  method PairUp(h: Combiner, level: seq<Field>) returns (next: seq<Field>)
    ensures next == Level(h, level)
  {
    next := [];
    for k := 0 to |level| / 2
      invariant |next| == k
      invariant forall m :: 0 <= m < k ==> next[m] == h(level[2 * m], level[2 * m + 1])
    {
      var left, right := level[2 * k], level[2 * k + 1];
      next := next + [h(left, right)];
    }
  }

  /** `BindingBlock::canonical_root_even`. */
  function BlockRoot(perm: Permutation, b: BindingBlock): Option<Field>
  {
    CanonicalRoot(perm, Hashes(b.leaves))
  }

  /** A planned block has a root exactly when it has leaves. */
  lemma PlannedBlockRoot(perm: Permutation, b: BindingBlock)
    requires |b.leaves| % 2 == 0
    ensures BlockRoot(perm, b).Some? <==> b.leaves != []
  {
  }

  /** Two leaves: the root is their parent. */
  lemma RootOfPair(h: Combiner, a: Field, b: Field)
    ensures RootWith(h, [a, b]) == Some(h(a, b))
  {
    var l := Level(h, [a, b]);
    assert l == [h(a, b)];
    assert Fold(h, [a, b]) == Fold(h, l);
  }

  /** For `canonical_root_even` on two leaves that parent is `h2` of them. */
  lemma CanonicalRootOfPair(perm: Permutation, a: Field, b: Field)
    ensures CanonicalRoot(perm, [a, b]) == Some(H2(perm, a, b))
  {
    RootOfPair(H2Of(perm), a, b);
  }

  /** An odd level loses its last node: the fold never sees it. */
  lemma LevelDropsOddTail(h: Combiner, xs: seq<Field>)
    requires |xs| % 2 == 1
    ensures Level(h, xs) == Level(h, xs[..|xs| - 1])
  {
  }

  /**
   * Six leaves: the second level has three nodes and its third is dropped, so
   * the root is that of the first four leaves and the last two take no part.
   */
  lemma RootOfSix(h: Combiner, hs: seq<Field>)
    requires |hs| == 6
    ensures RootWith(h, hs) == Some(h(h(hs[0], hs[1]), h(hs[2], hs[3])))
    ensures RootWith(h, hs) == RootWith(h, hs[..4])
  {
    var l1 := Level(h, hs);
    assert |l1| == 3;
    var l2 := Level(h, l1);
    assert l2 == [h(l1[0], l1[1])];
    assert Fold(h, hs) == Fold(h, l1);
    assert Fold(h, l1) == Fold(h, l2);
    var h4 := hs[..4];
    var f1 := Level(h, h4);
    assert f1 == [l1[0], l1[1]];
    assert Level(h, f1) == l2;
    assert Fold(h, h4) == Fold(h, f1);
    assert Fold(h, f1) == Fold(h, l2);
  }
}
