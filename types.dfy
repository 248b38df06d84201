/**
 * The domain records shared by the transaction builder and the batch planner:
 * assets, UTXOs and their commitments, inclusion witnesses and the two proved
 * transaction kinds with their leaf hashes.
 */
module Types {
  import opened Bytes
  import opened Bn254
  import opened Poseidon2

  /** The fixed number of asset slots of every UTXO. */
  const MAX_ASSETS: nat := 4

  /** A 64-byte Schnorr signature. */
  type Bytes64 = s: seq<uint8> | |s| == 64 witness Zeros(64)

  /** A `u64`. */
  type u64 = x: nat | x < TWO_POW_64

  datatype Asset = Asset(token: Field, amount: Field)

  /** `Asset::empty`: the zero token with amount zero. */
  function EmptyAsset(): (a: Asset)
    ensures Value(a.token) == 0 && Value(a.amount) == 0
    ensures a.token == Zero() && a.amount == Zero()
  {
    ZeroIsFromZero();
    Asset(FromU128(0), FromU128(0))
  }

  /** Exactly `MAX_ASSETS` slots. */
  type Assets = s: seq<Asset> | |s| == MAX_ASSETS witness [EmptyAsset(), EmptyAsset(), EmptyAsset(), EmptyAsset()]

  datatype Utxo = Utxo(assets: Assets, recipientPkX: Field, salt: Field)

  /** A `[Field; 4]`: one value per asset slot. */
  type Fields4 = s: seq<Field> | |s| == MAX_ASSETS witness [Zero(), Zero(), Zero(), Zero()]

  /** The UTXO whose slot `i` holds `tokens[i]` and `amounts[i]` (the `array_init` constructions). */
  function UtxoOf(tokens: Fields4, amounts: Fields4, recipientPkX: Field, salt: Field): (u: Utxo)
    ensures forall i :: 0 <= i < MAX_ASSETS ==> u.assets[i] == Asset(tokens[i], amounts[i])
    ensures u.recipientPkX == recipientPkX && u.salt == salt
  {
    Utxo([Asset(tokens[0], amounts[0]), Asset(tokens[1], amounts[1]),
          Asset(tokens[2], amounts[2]), Asset(tokens[3], amounts[3])], recipientPkX, salt)
  }

  function Tokens(u: Utxo): (ts: Fields4)
    ensures forall i :: 0 <= i < MAX_ASSETS ==> ts[i] == u.assets[i].token
  {
    [u.assets[0].token, u.assets[1].token, u.assets[2].token, u.assets[3].token]
  }

  function Amounts(u: Utxo): (as_: Fields4)
    ensures forall i :: 0 <= i < MAX_ASSETS ==> as_[i] == u.assets[i].amount
  {
    [u.assets[0].amount, u.assets[1].amount, u.assets[2].amount, u.assets[3].amount]
  }

  /** Splitting a UTXO into its token and amount arrays and rebuilding it gives it back. */
  lemma UtxoOfTokensAmounts(u: Utxo)
    ensures UtxoOf(Tokens(u), Amounts(u), u.recipientPkX, u.salt) == u
  {
    assert UtxoOf(Tokens(u), Amounts(u), u.recipientPkX, u.salt).assets == u.assets;
  }

  /**
   * The ten hash inputs of a UTXO commitment: the recipient key, then token
   * and amount of each slot in slot order, then the salt.
   */
  function CommitmentInputs(u: Utxo): (xs: seq<Field>)
    ensures |xs| == 10
    ensures xs[0] == u.recipientPkX && xs[9] == u.salt
    ensures forall k :: 0 <= k < MAX_ASSETS ==> xs[1 + 2 * k] == u.assets[k].token && xs[2 + 2 * k] == u.assets[k].amount
  {
    [u.recipientPkX,
     u.assets[0].token, u.assets[0].amount,
     u.assets[1].token, u.assets[1].amount,
     u.assets[2].token, u.assets[2].amount,
     u.assets[3].token, u.assets[3].amount,
     u.salt]
  }

  /** Reads a UTXO back from the ten commitment inputs. */
  function UtxoOfInputs(xs: seq<Field>): (u: Utxo)
    requires |xs| == 10
  {
    Utxo([Asset(xs[1], xs[2]), Asset(xs[3], xs[4]), Asset(xs[5], xs[6]), Asset(xs[7], xs[8])], xs[0], xs[9])
  }

  /**
   * The commitment layout loses nothing: every field of the UTXO sits in its
   * own position, so the layout is a bijection between UTXOs and ten-element
   * input vectors.
   */
  lemma CommitmentLayoutRoundTrip(u: Utxo, xs: seq<Field>)
    requires |xs| == 10
    ensures UtxoOfInputs(CommitmentInputs(u)) == u
    ensures CommitmentInputs(UtxoOfInputs(xs)) == xs
  {
    var v := UtxoOfInputs(CommitmentInputs(u));
    assert v.assets == u.assets;
  }

  /** `Utxo::commitment`: `hash10` over the commitment inputs. */
  function Commitment(perm: Permutation, u: Utxo): Field
  {
    Hash10(perm, CommitmentInputs(u))
  }

  /** Two UTXOs that hash the same input vector are the same UTXO. */
  lemma CommitmentInputsInjective(u: Utxo, v: Utxo)
    requires CommitmentInputs(u) == CommitmentInputs(v)
    ensures u == v
  {
    CommitmentLayoutRoundTrip(u, CommitmentInputs(v));
    CommitmentLayoutRoundTrip(v, CommitmentInputs(u));
  }

  /** The raw 32-byte form of a commitment. */
  datatype UtxoCommitment = UtxoCommitment(bytes: Bytes32)

  /** `UtxoCommitment::compute`: the bytes of the commitment, which read back as the commitment. */
  function Compute(perm: Permutation, u: Utxo): (c: UtxoCommitment)
    ensures FromBytes(c.bytes) == Commitment(perm, u)
  {
    UtxoCommitment(ToBytes(Commitment(perm, u)))
  }

  datatype MerklePathNode = MerklePathNode(sibling: Field, isLeft: bool)

  datatype UtxoInclusionWitness = UtxoInclusionWitness(
    commitment: UtxoCommitment,
    index: u64,
    path: seq<MerklePathNode>,
    utxo: Utxo)

  /** A witness whose commitment is that of the UTXO it carries. */
  predicate WitnessConsistent(perm: Permutation, w: UtxoInclusionWitness)
  {
    FromBytes(w.commitment.bytes) == Commitment(perm, w.utxo)
  }

  /** `UtxoInclusionWitness::dummy`: a consistent witness at index 0 with an empty path. */
  function Dummy(perm: Permutation, u: Utxo): (w: UtxoInclusionWitness)
    ensures WitnessConsistent(perm, w)
    ensures w.utxo == u && w.index == 0 && w.path == []
  {
    UtxoInclusionWitness(Compute(perm, u), 0, [], u)
  }

  datatype TransactionOutput =
    | SpendOutput(receiver: Utxo, remainder: Utxo)
    | MergeOutput(utxo: Utxo)

  datatype SpendTx = SpendTx(
    input: UtxoInclusionWitness,
    outputs: TransactionOutput,
    expectedOutCommits: (Field, Field),
    proof: seq<uint8>,
    senderPkX: Field,
    transferToken: Field,
    transferAmount: Field,
    feeAmount: Field,
    signature: Bytes64,
    msg32: Bytes32,
    digest: Field)

  datatype MergeTx = MergeTx(
    inputs: (UtxoInclusionWitness, UtxoInclusionWitness),
    outputs: TransactionOutput,
    expectedOutCommit: Field,
    proof: seq<uint8>,
    senderPkX: Field,
    signature: Bytes64,
    msg32: Bytes32,
    digest: Field)

  /**
   * `SpendTx::leaf_hash`: the spend leaf over the input commitment, both
   * expected output commitments and the transfer. A spend carrying merge
   * outputs panics in the source; it is excluded here.
   */
  function SpendLeafHash(perm: Permutation, tx: SpendTx): Field
    requires tx.outputs.SpendOutput?
  {
    HashSpendLeaf(perm, FromBytes(tx.input.commitment.bytes), tx.expectedOutCommits.0, tx.expectedOutCommits.1,
                  tx.transferToken, tx.transferAmount, tx.feeAmount)
  }

  /** `MergeTx::leaf_hash`: the merge leaf over both input commitments and the expected output. */
  function MergeLeafHash(perm: Permutation, tx: MergeTx): Field
    requires tx.outputs.MergeOutput?
  {
    HashMergeLeaf(perm, FromBytes(tx.inputs.0.commitment.bytes), FromBytes(tx.inputs.1.commitment.bytes),
                  tx.expectedOutCommit)
  }

  /**
   * For a consistent input witness the spend leaf commits to the input UTXO
   * itself: it starts with the spend tag and that UTXO's commitment.
   */
  lemma SpendLeafBindsInput(perm: Permutation, tx: SpendTx)
    requires tx.outputs.SpendOutput? && WitnessConsistent(perm, tx.input)
    ensures SpendLeafHash(perm, tx)
         == Sponge(perm, [FromU128(LEAF_SPEND_TAG), Commitment(perm, tx.input.utxo), tx.expectedOutCommits.0,
                          tx.expectedOutCommits.1, tx.transferToken, tx.transferAmount, tx.feeAmount])
  {
  }

  /** For consistent input witnesses the merge leaf commits to both input UTXOs in order. */
  lemma MergeLeafBindsInputs(perm: Permutation, tx: MergeTx)
    requires tx.outputs.MergeOutput?
    requires WitnessConsistent(perm, tx.inputs.0) && WitnessConsistent(perm, tx.inputs.1)
    ensures MergeLeafHash(perm, tx)
         == Sponge(perm, [FromU128(LEAF_MERGE_TAG), Commitment(perm, tx.inputs.0.utxo),
                          Commitment(perm, tx.inputs.1.utxo), tx.expectedOutCommit])
  {
  }
}
