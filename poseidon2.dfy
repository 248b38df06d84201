/**
 * The Poseidon2 sponge over BN254 (`hash_fields`) and the tagged hashes built
 * on it. The width-4 permutation itself is computed by the proving backend and
 * enters the model as a parameter `perm`; every statement below holds for any
 * permutation.
 */
module Poseidon2 {
  import opened Bytes
  import opened Bn254

  const RATE: nat := 3
  const LEAF_SPEND_TAG: nat := 11
  const LEAF_MERGE_TAG: nat := 12
  const BATCH_TAG: nat := 20
  const MANIFEST_TAG: nat := 40
  /** 2^64, the weight of the input length in the initial capacity lane. */
  const TWO_POW_64: nat := 18446744073709551616

  /** The sponge state: three rate lanes and one capacity lane. */
  type State = s: seq<Field> | |s| == 4 witness [Zero(), Zero(), Zero(), Zero()]

  /** The backend's width-4 permutation (`permute4`). */
  type Permutation = State -> State

  /** One step of the sponge: absorb a chunk into the state, then permute. */
  type RoundFn = (State, seq<Field>) -> State

  lemma ShiftBound(n: nat)
    requires n < TWO_POW_64
    ensures TWO_POW_64 * n < U128_LIMIT
  {
    assert TWO_POW_64 * TWO_POW_64 - TWO_POW_64 * n == TWO_POW_64 * (TWO_POW_64 - n);
  }

  /** The capacity lane's initial value: the input length shifted up by 64 bits. */
  function Iv(n: nat): Field
    requires n < TWO_POW_64
  {
    ShiftBound(n);
    FromU128(TWO_POW_64 * n)
  }

  /** `hash_fields` computes the initial capacity as the field product `2^64 * len`; that product is `Iv`. */
  lemma IvIsFieldProduct(n: nat)
    requires n < TWO_POW_64
    ensures Mul(FromU128(TWO_POW_64), FromU128(n)) == Iv(n)
  {
    ShiftBound(n);
    var a, b := FromU128(TWO_POW_64), FromU128(n);
    CanonOfReduced(a);
    CanonOfReduced(b);
    ValueInjective(Mul(a, b), FromU128(TWO_POW_64 * n));
  }

  /** Inputs of different lengths start from different capacity lanes. */
  lemma IvInjective(n: nat, m: nat)
    requires n < TWO_POW_64 && m < TWO_POW_64
    ensures Iv(n) == Iv(m) <==> n == m
  {
    ShiftBound(n);
    ShiftBound(m);
    FromU128Injective(TWO_POW_64 * n, TWO_POW_64 * m);
  }

  function InitState(n: nat): State
    requires n < TWO_POW_64
  {
    [Zero(), Zero(), Zero(), Iv(n)]
  }

  /** Adds the chunk `c` into the first `|c|` rate lanes, leaving the others as they are. */
  function AbsorbChunk(st: State, c: seq<Field>): State
  {
    [Lane(st, c, 0), Lane(st, c, 1), Lane(st, c, 2), st[3]]
  }

  function Lane(st: State, c: seq<Field>, j: nat): Field
    requires j < 4
  {
    if j < |c| then Add(st[j], c[j]) else st[j]
  }

  /** A round of the sponge under the permutation `perm`. */
  function Round(perm: Permutation, st: State, c: seq<Field>): State
  {
    perm(AbsorbChunk(st, c))
  }

  function RoundOf(perm: Permutation): RoundFn
  {
    (st: State, c: seq<Field>) => Round(perm, st, c)
  }

  /**
   * Feeds `xs` to `round` three elements at a time; the last chunk holds one
   * to three elements (none when `xs` is empty) and always gets its round.
   */
  function Absorb(round: RoundFn, st: State, xs: seq<Field>): State
    decreases |xs|
  {
    if |xs| <= RATE then round(st, xs)
    else Absorb(round, round(st, xs[..RATE]), xs[RATE..])
  }

  /** The sponge hash of `xs`: the first lane of the final state. */
  function Sponge(perm: Permutation, xs: seq<Field>): Field
    requires |xs| < TWO_POW_64
  {
    Absorb(RoundOf(perm), InitState(|xs|), xs)[0]
  }

  /** The number of rounds `Absorb` performs on `n` inputs. */
  function Rounds(n: nat): nat
    decreases n
  {
    if n <= RATE then 1 else 1 + Rounds(n - RATE)
  }

  /** One permutation per started chunk of three, and one for the empty input. */
  lemma {:induction false} RoundsCount(n: nat)
    ensures Rounds(n) == if n == 0 then 1 else (n + 2) / 3
  {
    if n > RATE {
      RoundsCount(n - RATE);
    }
  }

  /**
   * The chunks `Absorb` feeds to the permutation: runs of three, the last one
   * holding one to three elements (the only chunk of the empty input is empty).
   */
  function Chunks(xs: seq<Field>): seq<seq<Field>>
    decreases |xs|
  {
    if |xs| <= RATE then [xs] else [xs[..RATE]] + Chunks(xs[RATE..])
  }

  function Join(cs: seq<seq<Field>>): seq<Field>
    decreases |cs|
  {
    if cs == [] then [] else cs[0] + Join(cs[1..])
  }

  /** Applies `round` once per chunk, in order. */
  function ApplyRounds(round: RoundFn, st: State, cs: seq<seq<Field>>): State
    decreases |cs|
  {
    if cs == [] then st else ApplyRounds(round, round(st, cs[0]), cs[1..])
  }

  /** There are `Rounds(|xs|)` chunks. */
  lemma {:induction false} ChunksCount(xs: seq<Field>)
    ensures |Chunks(xs)| == Rounds(|xs|)
    decreases |xs|
  {
    if |xs| > RATE {
      ChunksCount(xs[RATE..]);
    }
  }

  /** The chunks put back together are the input, in order. */
  lemma {:induction false} JoinChunks(xs: seq<Field>)
    ensures Join(Chunks(xs)) == xs
    decreases |xs|
  {
    if |xs| <= RATE {
      assert Join(Chunks(xs)) == xs + Join([]);
    } else {
      JoinChunks(xs[RATE..]);
      var rest := Chunks(xs[RATE..]);
      assert ([xs[..RATE]] + rest)[1..] == rest;
      assert xs == xs[..RATE] + xs[RATE..];
    }
  }

  /** Every chunk but the last is full; the last is non-empty unless the input is empty. */
  lemma {:induction false} ChunkSizes(xs: seq<Field>)
    ensures forall i :: 0 <= i < |Chunks(xs)| - 1 ==> |Chunks(xs)[i]| == RATE
    ensures 0 < |Chunks(xs)[|Chunks(xs)| - 1]| <= RATE || xs == []
    decreases |xs|
  {
    if |xs| > RATE {
      ChunkSizes(xs[RATE..]);
      var rest := Chunks(xs[RATE..]);
      assert Chunks(xs) == [xs[..RATE]] + rest;
    }
  }

  /** `Absorb` is exactly one round per chunk. */
  lemma {:induction false} AbsorbIsRoundPerChunk(round: RoundFn, st: State, xs: seq<Field>)
    ensures Absorb(round, st, xs) == ApplyRounds(round, st, Chunks(xs))
    decreases |xs|
  {
    if |xs| <= RATE {
      assert Chunks(xs)[1..] == [];
    } else {
      AbsorbIsRoundPerChunk(round, round(st, xs[..RATE]), xs[RATE..]);
      assert Chunks(xs)[1..] == Chunks(xs[RATE..]);
    }
  }

  /**
   * The sponge applies the permutation once per chunk, to the chunks of the
   * input in order: max(1, ceil(n / 3)) times on n inputs.
   */
  lemma SpongePermutationCount(perm: Permutation, xs: seq<Field>)
    requires |xs| < TWO_POW_64
    ensures Sponge(perm, xs) == ApplyRounds(RoundOf(perm), InitState(|xs|), Chunks(xs))[0]
    ensures Join(Chunks(xs)) == xs
    ensures |Chunks(xs)| == if |xs| == 0 then 1 else (|xs| + 2) / 3
  {
    AbsorbIsRoundPerChunk(RoundOf(perm), InitState(|xs|), xs);
    ChunksCount(xs);
    JoinChunks(xs);
    RoundsCount(|xs|);
  }

  /** The lane-wise addition loop of `hash_fields`: adds the first `count` cache slots into the rate lanes. */
  method AddRate(state: State, cache: seq<Field>, count: nat) returns (r: State)
    requires |cache| == RATE && count <= RATE
    ensures r == AbsorbChunk(state, cache[..count])
  {
    r := state;
    for j := 0 to RATE
      invariant forall k :: 0 <= k < 4 ==> r[k] == (if k < j then Lane(state, cache[..count], k) else state[k])
    {
      if j < count {
        r := r[j := Add(r[j], cache[j])];
      }
    }
  }

  /** The streaming sponge between inputs: the state and the inputs waiting in the cache. */
  datatype Sponger = Sponger(state: State, pending: seq<Field>)

  /** One input arrives: a full cache is flushed first, then the input is cached. */
  function Feed(perm: Permutation, sp: Sponger, x: Field): Sponger
  {
    if |sp.pending| == RATE then Sponger(Round(perm, sp.state, sp.pending), [x])
    else Sponger(sp.state, sp.pending + [x])
  }

  function FeedAll(perm: Permutation, sp: Sponger, xs: seq<Field>): Sponger
    decreases |xs|
  {
    if xs == [] then sp else Feed(perm, FeedAll(perm, sp, xs[..|xs| - 1]), xs[|xs| - 1])
  }

  /** After the last input: absorb what is cached, permute, read the first lane. */
  function Finish(perm: Permutation, sp: Sponger): Field
  {
    Round(perm, sp.state, sp.pending)[0]
  }

  /**
   * Streaming the inputs through the cache and finishing computes the
   * chunked sponge: the flush-on-next-input discipline of `hash_fields`
   * forms exactly the chunks of three that `Absorb` takes.
   */
  lemma StreamingIsChunked(perm: Permutation, xs: seq<Field>)
    requires |xs| < TWO_POW_64
    ensures Finish(perm, FeedAll(perm, Sponger(InitState(|xs|), []), xs)) == Sponge(perm, xs)
  {
    StreamingFrom(perm, Sponger(InitState(|xs|), []), xs);
  }

  lemma StreamingFrom(perm: Permutation, sp0: Sponger, xs: seq<Field>)
    requires sp0.pending == []
    ensures Finish(perm, FeedAll(perm, sp0, xs)) == Absorb(RoundOf(perm), sp0.state, xs)[0]
  {
    FeedAllKeepsAbsorb(perm, sp0, xs, []);
    assert xs + [] == xs;
    var sp := FeedAll(perm, sp0, xs);
    assert sp.pending + [] == sp.pending;
    assert Absorb(RoundOf(perm), sp.state, sp.pending) == RoundOf(perm)(sp.state, sp.pending);
  }

  /**
   * After streaming a prefix `a` of `a + b`, absorbing the cached inputs
   * followed by `b` gives what absorbing all of `a + b` from the start gives.
   */
  lemma {:induction false} FeedAllKeepsAbsorb(perm: Permutation, sp0: Sponger, a: seq<Field>, b: seq<Field>)
    requires sp0.pending == []
    ensures |FeedAll(perm, sp0, a).pending| <= RATE
    ensures a != [] ==> FeedAll(perm, sp0, a).pending != []
    ensures Absorb(RoundOf(perm), FeedAll(perm, sp0, a).state, FeedAll(perm, sp0, a).pending + b)
         == Absorb(RoundOf(perm), sp0.state, a + b)
    decreases |a|
  {
    if a != [] {
      var init, x := a[..|a| - 1], a[|a| - 1];
      assert a == init + [x];
      assert a + b == init + ([x] + b);
      FeedAllKeepsAbsorb(perm, sp0, init, [x] + b);
      var sp := FeedAll(perm, sp0, init);
      FeedKeepsAbsorb(perm, sp, x, b);
    }
  }

  /** Feeding one input preserves what the cached inputs and the rest absorb to. */
  lemma FeedKeepsAbsorb(perm: Permutation, sp: Sponger, x: Field, b: seq<Field>)
    requires |sp.pending| <= RATE
    ensures |Feed(perm, sp, x).pending| <= RATE && Feed(perm, sp, x).pending != []
    ensures Absorb(RoundOf(perm), Feed(perm, sp, x).state, Feed(perm, sp, x).pending + b)
         == Absorb(RoundOf(perm), sp.state, sp.pending + ([x] + b))
  {
    var all := sp.pending + ([x] + b);
    if |sp.pending| == RATE {
      assert all[..RATE] == sp.pending;
      assert all[RATE..] == [x] + b;
    } else {
      assert all == (sp.pending + [x]) + b;
    }
  }

  /**
   * `hash_fields`: streams the inputs through a three-slot cache, flushing
   * (absorb all three, permute) when the cache is full and another input
   * arrives, then absorbs the partial cache and permutes once more.
   */
  method HashFields(perm: Permutation, xs: seq<Field>) returns (h: Field)
    requires |xs| < TWO_POW_64
    ensures h == Sponge(perm, xs)
  {
    var n := |xs|;
    var state: State := InitState(n);
    var cache: seq<Field> := [Zero(), Zero(), Zero()];
    var cacheSize: nat := 0;
    ghost var sp0 := Sponger(state, []);
    var i := 0;
    while i < n
      invariant 0 <= i <= n
      invariant |cache| == RATE && cacheSize <= RATE
      invariant Sponger(state, cache[..cacheSize]) == FeedAll(perm, sp0, xs[..i])
    {
      assert xs[..i + 1][..i] == xs[..i];
      if cacheSize == RATE {
        assert cache[..RATE] == cache;
        state := AddRate(state, cache, RATE);
        state := perm(state);
        cache := [xs[i], Zero(), Zero()];
        cacheSize := 1;
        assert cache[..cacheSize] == [xs[i]];
      } else {
        ghost var before := cache[..cacheSize];
        cache := cache[cacheSize := xs[i]];
        cacheSize := cacheSize + 1;
        assert cache[..cacheSize] == before + [xs[i]];
      }
      i := i + 1;
    }
    assert xs[..n] == xs;
    state := AddRate(state, cache, cacheSize);
    state := perm(state);
    h := state[0];
    StreamingIsChunked(perm, xs);
  }

  /**
   * The sponge on up to ten inputs, written out round by round: chunks of
   * three from the front, one round each, the remainder last.
   */
  lemma ChunkedAbsorb(round: RoundFn, st: State, xs: seq<Field>)
    requires 0 < |xs| <= 10
    ensures |xs| <= 3 ==> Absorb(round, st, xs) == round(st, xs)
    ensures 3 < |xs| <= 6 ==> Absorb(round, st, xs) == round(round(st, xs[..3]), xs[3..])
    ensures 6 < |xs| <= 9 ==> Absorb(round, st, xs) == round(round(round(st, xs[..3]), xs[3..6]), xs[6..])
    ensures |xs| == 10 ==>
              Absorb(round, st, xs) == round(round(round(round(st, xs[..3]), xs[3..6]), xs[6..9]), xs[9..])
  {
    if |xs| > 3 {
      var s1 := round(st, xs[..3]);
      var ys := xs[3..];
      assert Absorb(round, st, xs) == Absorb(round, s1, ys);
      if |ys| > 3 {
        assert ys[..3] == xs[3..6];
        var s2 := round(s1, xs[3..6]);
        var zs := ys[3..];
        assert zs == xs[6..];
        assert Absorb(round, s1, ys) == Absorb(round, s2, zs);
        if |zs| > 3 {
          assert zs[..3] == xs[6..9];
          assert zs[3..] == xs[9..];
          var s3 := round(s2, xs[6..9]);
          assert Absorb(round, s2, zs) == Absorb(round, s3, xs[9..]);
        }
      }
    }
  }

  /** `h2`: the batch tag, then the two children. */
  function H2(perm: Permutation, left: Field, right: Field): Field
  {
    Sponge(perm, [FromU128(BATCH_TAG), left, right])
  }

  /** `hash_spend_leaf`: the spend tag, then the six leaf fields in order. */
  function HashSpendLeaf(perm: Permutation, inCommit: Field, outCommit0: Field, outCommit1: Field,
                         transferToken: Field, transferAmount: Field, feeAmount: Field): Field
  {
    Sponge(perm, [FromU128(LEAF_SPEND_TAG), inCommit, outCommit0, outCommit1, transferToken, transferAmount, feeAmount])
  }

  /** `hash_merge_leaf`: the merge tag, then the two inputs and the output. */
  function HashMergeLeaf(perm: Permutation, inCommit0: Field, inCommit1: Field, outCommit: Field): Field
  {
    Sponge(perm, [FromU128(LEAF_MERGE_TAG), inCommit0, inCommit1, outCommit])
  }

  /** `hash6`. */
  function Hash6(perm: Permutation, xs: seq<Field>): Field
    requires |xs| == 6
  {
    Sponge(perm, xs)
  }

  /** `hash10`. */
  function Hash10(perm: Permutation, xs: seq<Field>): Field
    requires |xs| == 10
  {
    Sponge(perm, xs)
  }

  /**
   * `hash_manifest`: a digest of the ordered leaf hashes, then the manifest
   * tag, the block id, the acceptance root, the leaf count and that digest.
   */
  function HashManifest(perm: Permutation, blockId: nat, acceptanceRoot: Field, leaves: seq<Field>): Field
    requires blockId < TWO_POW_64 && |leaves| < TWO_POW_64
  {
    Sponge(perm, [FromU128(MANIFEST_TAG), FromU128(blockId), acceptanceRoot, FromU128(|leaves|), Sponge(perm, leaves)])
  }

  /** `h2` is a single permutation over the tag, both children and the length-3 capacity. */
  lemma H2Rounds(perm: Permutation, left: Field, right: Field)
    ensures H2(perm, left, right) == Round(perm, InitState(3), [FromU128(BATCH_TAG), left, right])[0]
  {
    ChunkedAbsorb(RoundOf(perm), InitState(3), [FromU128(BATCH_TAG), left, right]);
  }

  /** The spend leaf takes three permutations, the last absorbing the fee alone. */
  lemma HashSpendLeafRounds(perm: Permutation, inCommit: Field, outCommit0: Field, outCommit1: Field,
                            transferToken: Field, transferAmount: Field, feeAmount: Field)
    ensures HashSpendLeaf(perm, inCommit, outCommit0, outCommit1, transferToken, transferAmount, feeAmount)
         == Round(perm, Round(perm, Round(perm, InitState(7),
              [FromU128(LEAF_SPEND_TAG), inCommit, outCommit0]),
              [outCommit1, transferToken, transferAmount]),
              [feeAmount])[0]
  {
    var xs := [FromU128(LEAF_SPEND_TAG), inCommit, outCommit0, outCommit1, transferToken, transferAmount, feeAmount];
    ChunkedAbsorb(RoundOf(perm), InitState(7), xs);
    assert xs[..3] == [FromU128(LEAF_SPEND_TAG), inCommit, outCommit0];
    assert xs[3..6] == [outCommit1, transferToken, transferAmount];
    assert xs[6..] == [feeAmount];
  }

  /** The merge leaf takes two permutations, the last absorbing the output commitment alone. */
  lemma HashMergeLeafRounds(perm: Permutation, inCommit0: Field, inCommit1: Field, outCommit: Field)
    ensures HashMergeLeaf(perm, inCommit0, inCommit1, outCommit)
         == Round(perm, Round(perm, InitState(4),
              [FromU128(LEAF_MERGE_TAG), inCommit0, inCommit1]),
              [outCommit])[0]
  {
    var xs := [FromU128(LEAF_MERGE_TAG), inCommit0, inCommit1, outCommit];
    ChunkedAbsorb(RoundOf(perm), InitState(4), xs);
    assert xs[..3] == [FromU128(LEAF_MERGE_TAG), inCommit0, inCommit1];
    assert xs[3..] == [outCommit];
  }

  /** `hash6` is two full chunks. */
  lemma Hash6Rounds(perm: Permutation, xs: seq<Field>)
    requires |xs| == 6
    ensures Hash6(perm, xs) == Round(perm, Round(perm, InitState(6), xs[..3]), xs[3..])[0]
  {
    ChunkedAbsorb(RoundOf(perm), InitState(6), xs);
  }

  /** `hash10` is three full chunks and a last chunk of one. */
  lemma Hash10Rounds(perm: Permutation, xs: seq<Field>)
    requires |xs| == 10
    ensures Hash10(perm, xs) == Round(perm, Round(perm, Round(perm, Round(perm, InitState(10),
              xs[..3]), xs[3..6]), xs[6..9]), xs[9..])[0]
  {
    ChunkedAbsorb(RoundOf(perm), InitState(10), xs);
  }

  /**
   * The manifest takes two permutations: tag, block id and root, then the
   * leaf count and the digest of the leaf hashes.
   */
  lemma HashManifestRounds(perm: Permutation, blockId: nat, acceptanceRoot: Field, leaves: seq<Field>)
    requires blockId < TWO_POW_64 && |leaves| < TWO_POW_64
    ensures HashManifest(perm, blockId, acceptanceRoot, leaves)
         == Round(perm, Round(perm, InitState(5),
              [FromU128(MANIFEST_TAG), FromU128(blockId), acceptanceRoot]),
              [FromU128(|leaves|), Sponge(perm, leaves)])[0]
  {
    var xs := [FromU128(MANIFEST_TAG), FromU128(blockId), acceptanceRoot, FromU128(|leaves|), Sponge(perm, leaves)];
    ChunkedAbsorb(RoundOf(perm), InitState(5), xs);
    assert xs[..3] == [FromU128(MANIFEST_TAG), FromU128(blockId), acceptanceRoot];
    assert xs[3..] == [FromU128(|leaves|), Sponge(perm, leaves)];
  }

  /**
   * Padding alone would not separate lengths: absorbing a trailing zero into
   * reduced rate lanes changes nothing, so `[x]` and `[x, 0]` differ only
   * through the length in the initial capacity lane (`IvInjective`).
   */
  lemma ZeroPaddingAbsorbsToSameState(st: State, c: seq<Field>)
    requires |c| < RATE
    requires forall k :: 0 <= k < RATE ==> Value(st[k]) < P
    ensures AbsorbChunk(st, c + [Zero()]) == AbsorbChunk(st, c)
  {
    var d := c + [Zero()];
    AddZero(st[|c|]);
    assert d[|c|] == Zero();
    assert forall j :: 0 <= j < |c| ==> d[j] == c[j];
    assert Lane(st, d, 0) == Lane(st, c, 0);
    assert Lane(st, d, 1) == Lane(st, c, 1);
    assert Lane(st, d, 2) == Lane(st, c, 2);
  }

  /** The four domain tags are distinct field elements. */
  lemma TagsDistinct()
    ensures FromU128(LEAF_SPEND_TAG) != FromU128(LEAF_MERGE_TAG)
    ensures FromU128(LEAF_SPEND_TAG) != FromU128(BATCH_TAG) && FromU128(LEAF_MERGE_TAG) != FromU128(BATCH_TAG)
    ensures FromU128(MANIFEST_TAG) !in {FromU128(LEAF_SPEND_TAG), FromU128(LEAF_MERGE_TAG), FromU128(BATCH_TAG)}
  {
  }
}
