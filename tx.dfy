/**
 * The transaction builder's work before and around the proof: key checks,
 * the transfer-slot search, the remainder arithmetic, the ABI maps with the
 * output commitments and digests, and the salt-retry loops of `prove_spend`
 * and `prove_merge`. Signing, proving and verifying are parameters; the salts
 * the builder draws at random come from a finite stream.
 */
module Tx {
  import opened Wrappers
  import opened Bytes
  import opened Bn254
  import opened Poseidon2
  import opened Types
  import opened Acir

  const SPEND_CIRCUIT: string := "utxo_spend"
  const MERGE_CIRCUIT: string := "utxo_merge"

  // ---------------------------------------------------------------- hashing

  /**
   * `hash_fields` as a value. The builder only ever feeds it whole input
   * vectors, so everything below holds for any hash; `SpongeHasher` is the
   * crate's own.
   */
  type Hasher = seq<Field> -> Field

  /** `hash_fields`: the sponge over the backend permutation (no slice reaches 2^64 elements). */
  function SpongeHasher(perm: Permutation): Hasher
  {
    xs => if |xs| < TWO_POW_64 then Sponge(perm, xs) else Zero()
  }

  /** `Utxo::commitment` computed with `hash`. */
  function CommitWith(hash: Hasher, u: Utxo): Field
  {
    hash(CommitmentInputs(u))
  }

  /** With the crate's sponge, `CommitWith` is the UTXO commitment. */
  lemma CommitWithSponge(perm: Permutation, u: Utxo)
    ensures CommitWith(SpongeHasher(perm), u) == Commitment(perm, u)
  {
  }

  // ---------------------------------------------------------------- keys

  /** A Grumpkin public key as its two 32-byte coordinates. */
  datatype PublicKey = PublicKey(pkX: Bytes32, pkY: Bytes32)

  /** `pk_x_field`: the x-coordinate read as a field. */
  function PkXField(k: PublicKey): Field
  {
    FromBytes(k.pkX)
  }

  /** A keypair: its public key and its Schnorr prehash signer (the secret key stays inside `sign`). */
  datatype Keypair = Keypair(publicKey: PublicKey, sign: Bytes32 -> Bytes64)

  /** A consumed UTXO with its inclusion witness and the key that signs for it. */
  datatype SignedInput = SignedInput(signer: PublicKey, inclusion: UtxoInclusionWitness)

  /** The backend calls: proving an ABI map for a circuit and verifying a proof. */
  datatype Backend = Backend(
    prove: (string, AbiMap) -> Result<seq<uint8>>,
    verify: (string, seq<uint8>) -> Result<bool>)

  /** The optional uniqueness oracle over output commitments. */
  type EnsureUnique = Option<seq<Field> -> Result<bool>>

  // ---------------------------------------------------------------- slot search

  /** `s` is the one slot of `tokens` that holds `t`. */
  predicate UniqueSlot(tokens: Fields4, t: Field, s: nat)
  {
    s < MAX_ASSETS && tokens[s] == t && forall j :: 0 <= j < MAX_ASSETS && j != s ==> tokens[j] != t
  }

  /** Two different slots of `tokens` hold `t`. */
  predicate DuplicateSlots(tokens: Fields4, t: Field)
  {
    exists j, k :: 0 <= j < k < MAX_ASSETS && tokens[j] == t && tokens[k] == t
  }

  /**
   * The transfer-slot loop of `prove_spend`: scans the slots in order and
   * fails at the second slot holding the token, or at the end when none does.
   */
  method FindTransferSlot(tokens: Fields4, t: Field) returns (r: Result<nat>)
    ensures r.Ok? <==> exists s :: UniqueSlot(tokens, t, s)
    ensures r.Ok? ==> UniqueSlot(tokens, t, r.value)
    ensures r == Err(DuplicateTransferSlot) <==> DuplicateSlots(tokens, t)
    ensures r == Err(TransferTokenMissing) <==> forall j :: 0 <= j < MAX_ASSETS ==> tokens[j] != t
    ensures r.Err? ==> r.error == DuplicateTransferSlot || r.error == TransferTokenMissing
  {
    var slot: Option<nat> := None;
    for idx := 0 to MAX_ASSETS
      invariant slot.None? ==> forall j :: 0 <= j < idx ==> tokens[j] != t
      invariant slot.Some? ==> slot.value < idx && tokens[slot.value] == t
      invariant slot.Some? ==> forall j :: 0 <= j < idx && j != slot.value ==> tokens[j] != t
    {
      if tokens[idx] == t {
        if slot.Some? {
          assert !UniqueSlot(tokens, t, idx) && !UniqueSlot(tokens, t, slot.value);
          return Err(DuplicateTransferSlot);
        }
        slot := Some(idx);
      }
    }
    if slot.None? {
      return Err(TransferTokenMissing);
    }
    assert UniqueSlot(tokens, t, slot.value);
    r := Ok(slot.value);
  }

  /** The receiver's arrays: `v` in slot `s`, zero everywhere else. */
  function OnlyAt(s: nat, v: Field): (xs: Fields4)
    requires s < MAX_ASSETS
    ensures xs[s] == v
    ensures forall j :: 0 <= j < MAX_ASSETS && j != s ==> xs[j] == FromU128(0)
  {
    [FromU128(0), FromU128(0), FromU128(0), FromU128(0)][s := v]
  }

  // ---------------------------------------------------------------- remainder

  /**
   * The remainder amounts exactly as `prove_spend` writes them: in slot 0 the
   * guard compares the input with the field sum `transfer + fee`, which wraps
   * around the prime.
   */
  function RemainderAsWritten(inAmounts: Fields4, s: nat, t: Field, f: Field): (r: Result<Fields4>)
    requires s < MAX_ASSETS
    ensures s == 0 ==> (r.Ok? <==> Ge(inAmounts[0], Add(t, f)))
  {
    if s == 0 then
      if !Ge(inAmounts[0], Add(t, f)) then Err(InsufficientForTransferAndFee)
      else Ok(inAmounts[0 := Sub(Sub(inAmounts[0], t), f)])
    else if !Ge(inAmounts[s], t) then Err(InsufficientForTransfer)
    else if !Ge(inAmounts[0], f) then Err(InsufficientForFee)
    else Ok(inAmounts[s := Sub(inAmounts[s], t)][0 := Sub(inAmounts[0], f)])
  }

  /**
   * The remainder amounts with the slot-0 guard on the integer sum
   * `transfer + fee`. Whenever it succeeds, value is conserved: the remainder
   * plus what leaves equals the input, slot by slot, and every other slot is
   * carried over.
   */
  function Remainder(inAmounts: Fields4, s: nat, t: Field, f: Field): (r: Result<Fields4>)
    requires s < MAX_ASSETS
    ensures s == 0 ==> (r.Ok? <==> Canon(inAmounts[0]) >= Canon(t) + Canon(f))
    ensures s != 0 ==> (r.Ok? <==> Canon(inAmounts[s]) >= Canon(t) && Canon(inAmounts[0]) >= Canon(f))
    ensures s == 0 && r.Err? ==> r.error == InsufficientForTransferAndFee
    ensures s != 0 && r.Err? ==>
              r.error == (if Canon(inAmounts[s]) < Canon(t) then InsufficientForTransfer else InsufficientForFee)
    ensures r.Ok? && s == 0 ==> Value(r.value[0]) + Canon(t) + Canon(f) == Canon(inAmounts[0])
    ensures r.Ok? && s != 0 ==> Value(r.value[s]) + Canon(t) == Canon(inAmounts[s])
                                && Value(r.value[0]) + Canon(f) == Canon(inAmounts[0])
    ensures r.Ok? ==> forall j :: 0 < j < MAX_ASSETS && j != s ==> r.value[j] == inAmounts[j]
  {
    if s == 0 then
      if Canon(inAmounts[0]) < Canon(t) + Canon(f) then Err(InsufficientForTransferAndFee)
      else
        SubTwice(inAmounts[0], t, f);
        Ok(inAmounts[0 := Sub(Sub(inAmounts[0], t), f)])
    else if !Ge(inAmounts[s], t) then Err(InsufficientForTransfer)
    else if !Ge(inAmounts[0], f) then Err(InsufficientForFee)
    else Ok(inAmounts[s := Sub(inAmounts[s], t)][0 := Sub(inAmounts[0], f)])
  }

  /** Taking `t` and then `f` from `a` leaves exactly `a - t - f` when `a` covers both. */
  lemma SubTwice(a: Field, t: Field, f: Field)
    requires Canon(a) >= Canon(t) + Canon(f)
    ensures Value(Sub(Sub(a, t), f)) + Canon(t) + Canon(f) == Canon(a)
  {
    var d := Sub(a, t);
    CanonOfReduced(d);
  }

  /** While `transfer + fee` stays below the prime the code as written computes the checked remainder. */
  lemma RemainderAgreesWithoutWrap(inAmounts: Fields4, s: nat, t: Field, f: Field)
    requires s < MAX_ASSETS
    requires Canon(t) + Canon(f) < P
    ensures RemainderAsWritten(inAmounts, s, t, f) == Remainder(inAmounts, s, t, f)
  {
    if s == 0 {
      assert Canon(Add(t, f)) == Canon(t) + Canon(f);
    }
  }

  /**
   * The wrapped guard lets a transfer of p - 1 plus a fee of 2 through from
   * an input of 1: the sum wraps to 1 and the guard passes. The remainder is
   * 0 (1 - (p - 1) wraps to 2, less the fee of 2), so the receiver is
   * credited p - 1 out of a balance of 1 and the remainder plus what leaves
   * equals the input only modulo p. The checked remainder refuses it.
   */
  lemma RemainderAsWrittenWraps()
    ensures var inAmounts: Fields4 := [FromU128(1), FromU128(0), FromU128(0), FromU128(0)];
            var t := FieldOfNat(P - 1);
            var f := FromU128(2);
            var r := RemainderAsWritten(inAmounts, 0, t, f);
            && r.Ok?
            && Value(r.value[0]) == 0
            && Value(r.value[0]) + Canon(t) + Canon(f) == Canon(inAmounts[0]) + P
            && Remainder(inAmounts, 0, t, f) == Err(InsufficientForTransferAndFee)
  {
    var a := FromU128(1);
    var t := FieldOfNat(P - 1);
    var f := FromU128(2);
    assert Canon(a) == 1 && Canon(t) == P - 1 && Canon(f) == 2;
    assert Value(Add(t, f)) == 1;
    var d := Sub(a, t);
    assert Value(d) == 2;
    CanonOfReduced(d);
    assert Value(Sub(d, f)) == 0;
  }

  /** The worked example: 40 out of 100 with a fee of 2, all in slot 0, leaves 58. */
  lemma RemainderExample()
    ensures Remainder([FromU128(100), FromU128(0), FromU128(0), FromU128(0)], 0, FromU128(40), FromU128(2))
         == Ok([FromU128(58), FromU128(0), FromU128(0), FromU128(0)])
  {
    var inAmounts: Fields4 := [FromU128(100), FromU128(0), FromU128(0), FromU128(0)];
    var t, f := FromU128(40), FromU128(2);
    assert Canon(inAmounts[0]) == 100 && Canon(t) == 40 && Canon(f) == 2;
    var left := Sub(inAmounts[0], t);
    assert Value(left) == 60;
    var rem := Sub(left, f);
    assert Value(rem) == 58;
    ValueInjective(rem, FromU128(58));
    assert Remainder(inAmounts, 0, t, f) == Ok(inAmounts[0 := rem]);
    assert inAmounts[0 := rem] == [rem, FromU128(0), FromU128(0), FromU128(0)];
  }

  // ---------------------------------------------------------------- spend packing

  /** The spend circuit's private inputs (`SpendInputs`). */
  datatype SpendInputs = SpendInputs(
    senderPkX: Bytes32, senderPkY: Bytes32, recipientPkX: Bytes32,
    inTokens: Fields4, inAmounts: Fields4, inSalt: Field,
    transferToken: Field, transferAmount: Field, feeAmount: Field,
    receiverTokens: Fields4, receiverAmounts: Fields4, receiverSalt: Field,
    remainderTokens: Fields4, remainderAmounts: Fields4, remainderSalt: Field)

  /** `SpendPrepared`: the ABI map with the expected commitments and the digest. */
  datatype SpendPrepared = SpendPrepared(
    abiInputs: AbiMap, receiverCommit: Field, remainderCommit: Field, digest: Field, msg32: Bytes32)

  /** The receiver output, owned by the recipient key. */
  function ReceiverUtxo(i: SpendInputs): Utxo
  {
    UtxoOf(i.receiverTokens, i.receiverAmounts, FromBytes(i.recipientPkX), i.receiverSalt)
  }

  /** The remainder (change) output, owned by the sender key. */
  function RemainderUtxo(i: SpendInputs): Utxo
  {
    UtxoOf(i.remainderTokens, i.remainderAmounts, FromBytes(i.senderPkX), i.remainderSalt)
  }

  /** The spend pre-hash: domain 1, sender, transfer, fee and both output commitments. */
  function SpendDigest(hash: Hasher, senderPkX: Field, token: Field, amount: Field, fee: Field,
                       receiverCommit: Field, remainderCommit: Field): Field
  {
    hash([FromU128(1), senderPkX, token, amount, fee, receiverCommit, remainderCommit])
  }

  /**
   * `spend_commitments`: both output commitments, the digest and its bytes;
   * the bytes read back as the digest.
   */
  function SpendCommitments(hash: Hasher, senderPkX: Field, receiver: Utxo, remainder: Utxo,
                            token: Field, amount: Field, fee: Field): (r: (Field, Field, Field, Bytes32))
    ensures FromBytes(r.3) == r.2
  {
    var receiverCommit := CommitWith(hash, receiver);
    var remainderCommit := CommitWith(hash, remainder);
    var digest := SpendDigest(hash, senderPkX, token, amount, fee, receiverCommit, remainderCommit);
    (receiverCommit, remainderCommit, digest, ToBytes(digest))
  }

  // Dotted paths of the circuits' `input` struct, one constant each.
  const SCHNORR_PK_X: string := "input.schnorr.pk_x"
  const SCHNORR_PK_Y: string := "input.schnorr.pk_y"
  const SCHNORR_MSG32: string := "input.schnorr.msg32"
  const IN0_ASSETS_TOKENS: string := "input.in0.assets_tokens"
  const IN0_ASSETS_AMOUNTS: string := "input.in0.assets_amounts"
  const IN0_RECIPIENT_PK_X: string := "input.in0.recipient_pk_x"
  const IN0_SALT: string := "input.in0.salt"
  const TRANSFER_TOKEN: string := "input.transfer.token"
  const TRANSFER_AMOUNT: string := "input.transfer.amount"
  const TRANSFER_FEE: string := "input.transfer.fee"
  const RECEIVER_ASSETS_TOKENS: string := "input.receiver.assets_tokens"
  const RECEIVER_ASSETS_AMOUNTS: string := "input.receiver.assets_amounts"
  const RECEIVER_RECIPIENT_PK_X: string := "input.receiver.recipient_pk_x"
  const RECEIVER_SALT: string := "input.receiver.salt"
  const REMAINDER_ASSETS_TOKENS: string := "input.remainder.assets_tokens"
  const REMAINDER_ASSETS_AMOUNTS: string := "input.remainder.assets_amounts"
  const REMAINDER_RECIPIENT_PK_X: string := "input.remainder.recipient_pk_x"
  const REMAINDER_SALT: string := "input.remainder.salt"
  const IN1_ASSETS_TOKENS: string := "input.in1.assets_tokens"
  const IN1_ASSETS_AMOUNTS: string := "input.in1.assets_amounts"
  const IN1_RECIPIENT_PK_X: string := "input.in1.recipient_pk_x"
  const IN1_SALT: string := "input.in1.salt"
  const OUT_ASSETS_TOKENS: string := "input.out.assets_tokens"
  const OUT_ASSETS_AMOUNTS: string := "input.out.assets_amounts"
  const OUT_RECIPIENT_PK_X: string := "input.out.recipient_pk_x"
  const OUT_SALT: string := "input.out.salt"

  /** The eighteen dotted paths of the spend circuit's `input` struct that the packer fills. */
  const SPEND_KEYS: set<string> := {
    SCHNORR_PK_X, SCHNORR_PK_Y, SCHNORR_MSG32,
    IN0_ASSETS_TOKENS, IN0_ASSETS_AMOUNTS, IN0_RECIPIENT_PK_X, IN0_SALT,
    TRANSFER_TOKEN, TRANSFER_AMOUNT, TRANSFER_FEE,
    RECEIVER_ASSETS_TOKENS, RECEIVER_ASSETS_AMOUNTS, RECEIVER_RECIPIENT_PK_X, RECEIVER_SALT,
    REMAINDER_ASSETS_TOKENS, REMAINDER_ASSETS_AMOUNTS, REMAINDER_RECIPIENT_PK_X,
    REMAINDER_SALT}

  /** The path of the signature, added after signing. */
  const SIG_KEY: string := "input.schnorr.sig64"

  /** The spend ABI map for the inputs and the signed message. */
  function SpendAbi(i: SpendInputs, msg32: Bytes32): AbiMap
  {
    map[
      SCHNORR_PK_X := [FeOfBytes(i.senderPkX)],
      SCHNORR_PK_Y := [FeOfBytes(i.senderPkY)],
      SCHNORR_MSG32 := FesOfBytes(msg32),
      IN0_ASSETS_TOKENS := FesOfFields(i.inTokens),
      IN0_ASSETS_AMOUNTS := FesOfFields(i.inAmounts),
      IN0_RECIPIENT_PK_X := [FeOfBytes(i.senderPkX)],
      IN0_SALT := [FeOfField(i.inSalt)],
      TRANSFER_TOKEN := [FeOfField(i.transferToken)],
      TRANSFER_AMOUNT := [FeOfField(i.transferAmount)],
      TRANSFER_FEE := [FeOfField(i.feeAmount)],
      RECEIVER_ASSETS_TOKENS := FesOfFields(i.receiverTokens),
      RECEIVER_ASSETS_AMOUNTS := FesOfFields(i.receiverAmounts),
      RECEIVER_RECIPIENT_PK_X := [FeOfBytes(i.recipientPkX)],
      RECEIVER_SALT := [FeOfField(i.receiverSalt)],
      REMAINDER_ASSETS_TOKENS := FesOfFields(i.remainderTokens),
      REMAINDER_ASSETS_AMOUNTS := FesOfFields(i.remainderAmounts),
      REMAINDER_RECIPIENT_PK_X := [FeOfBytes(i.senderPkX)],
      REMAINDER_SALT := [FeOfField(i.remainderSalt)]
    ]
  }

  /**
   * `p` is what packing `i` yields: the commitments, digest and message of
   * `spend_commitments` on the two outputs, and the ABI map for that message.
   */
  predicate SpendPacked(hash: Hasher, i: SpendInputs, p: SpendPrepared)
  {
    && (p.receiverCommit, p.remainderCommit, p.digest, p.msg32)
       == SpendCommitments(hash, FromBytes(i.senderPkX), ReceiverUtxo(i), RemainderUtxo(i),
                           i.transferToken, i.transferAmount, i.feeAmount)
    && p.abiInputs == SpendAbi(i, p.msg32)
  }

  /**
   * `pack_spend_inputs`: builds both outputs, their commitments and the
   * digest, then fills the ABI map one path at a time.
   */
  method PackSpendInputs(hash: Hasher, i: SpendInputs) returns (p: SpendPrepared)
    ensures SpendPacked(hash, i, p)
  {
    var receiverCommit := CommitWith(hash, ReceiverUtxo(i));
    var remainderCommit := CommitWith(hash, RemainderUtxo(i));
    var digest := hash([FromU128(1), FromBytes(i.senderPkX), i.transferToken, i.transferAmount,
                        i.feeAmount, receiverCommit, remainderCommit]);
    var msg32 := ToBytes(digest);
    var m := FillSpendAbi(i, msg32);
    p := SpendPrepared(m, receiverCommit, remainderCommit, digest, msg32);
  }

  /** The map-filling half of `pack_spend_inputs`: one insert per path, in the source's order. */
  method FillSpendAbi(i: SpendInputs, msg32: Bytes32) returns (m: AbiMap)
    ensures m == SpendAbi(i, msg32)
  {
    m := map[];
    m := m[SCHNORR_PK_X := [FeOfBytes(i.senderPkX)]];
    m := m[SCHNORR_PK_Y := [FeOfBytes(i.senderPkY)]];
    m := m[SCHNORR_MSG32 := FesOfBytes(msg32)];
    m := m[IN0_ASSETS_TOKENS := FesOfFields(i.inTokens)];
    m := m[IN0_ASSETS_AMOUNTS := FesOfFields(i.inAmounts)];
    m := m[IN0_RECIPIENT_PK_X := [FeOfBytes(i.senderPkX)]];
    m := m[IN0_SALT := [FeOfField(i.inSalt)]];
    m := m[TRANSFER_TOKEN := [FeOfField(i.transferToken)]];
    m := m[TRANSFER_AMOUNT := [FeOfField(i.transferAmount)]];
    m := m[TRANSFER_FEE := [FeOfField(i.feeAmount)]];
    m := m[RECEIVER_ASSETS_TOKENS := FesOfFields(i.receiverTokens)];
    m := m[RECEIVER_ASSETS_AMOUNTS := FesOfFields(i.receiverAmounts)];
    m := m[RECEIVER_RECIPIENT_PK_X := [FeOfBytes(i.recipientPkX)]];
    m := m[RECEIVER_SALT := [FeOfField(i.receiverSalt)]];
    m := m[REMAINDER_ASSETS_TOKENS := FesOfFields(i.remainderTokens)];
    m := m[REMAINDER_ASSETS_AMOUNTS := FesOfFields(i.remainderAmounts)];
    m := m[REMAINDER_RECIPIENT_PK_X := [FeOfBytes(i.senderPkX)]];
    m := m[REMAINDER_SALT := [FeOfField(i.remainderSalt)]];
  }

  /** The number of elements the spend circuit expects at each path. */
  function SpendEntryLength(key: string): nat
  {
    if key == SCHNORR_MSG32 then 32
    else if key in {IN0_ASSETS_TOKENS, IN0_ASSETS_AMOUNTS,
                    RECEIVER_ASSETS_TOKENS, RECEIVER_ASSETS_AMOUNTS,
                    REMAINDER_ASSETS_TOKENS, REMAINDER_ASSETS_AMOUNTS} then MAX_ASSETS
    else 1
  }

  /** The spend ABI map fills exactly the eighteen paths. */
  lemma SpendAbiKeys(i: SpendInputs, msg32: Bytes32)
    ensures SpendAbi(i, msg32).Keys == SPEND_KEYS
  {
  }

  /** Every path of the spend ABI map holds as many elements as the circuit expects there. */
  lemma SpendAbiLengths(i: SpendInputs, msg32: Bytes32)
    ensures forall k :: k in SpendAbi(i, msg32) ==> |SpendAbi(i, msg32)[k]| == SpendEntryLength(k)
  {
  }

  /** Inserting the signature adds a nineteenth path rather than replacing one of the eighteen. */
  lemma SigKeyIsNew()
    ensures SIG_KEY !in SPEND_KEYS && SIG_KEY !in MERGE_KEYS
  {
  }

  /**
   * What the spend map carries: the message bytes one element each, and the
   * sender's x-coordinate as the key of the signature, of the consumed input
   * and of the remainder.
   */
  lemma SpendAbiContents(i: SpendInputs, msg32: Bytes32)
    ensures var m := SpendAbi(i, msg32);
            && (forall j :: 0 <= j < 32 ==> m[SCHNORR_MSG32][j] == msg32[j])
            && m[IN0_RECIPIENT_PK_X] == m[SCHNORR_PK_X] == m[REMAINDER_RECIPIENT_PK_X]
            && m[RECEIVER_RECIPIENT_PK_X] == [Canon(FromBytes(i.recipientPkX))]
  {
  }

  // ---------------------------------------------------------------- merge packing

  /** The merge circuit's private inputs (`MergeInputs`). */
  datatype MergeInputs = MergeInputs(
    senderPkX: Bytes32, senderPkY: Bytes32,
    in0Tokens: Fields4, in0Amounts: Fields4, in0Salt: Field,
    in1Tokens: Fields4, in1Amounts: Fields4, in1Salt: Field,
    outTokens: Fields4, outAmounts: Fields4, outSalt: Field)

  /** `MergePrepared`: the ABI map with the expected output commitment and the digest. */
  datatype MergePrepared = MergePrepared(abiInputs: AbiMap, outCommit: Field, digest: Field, msg32: Bytes32)

  /** The merged output, owned by the sender key. */
  function OutUtxo(i: MergeInputs): Utxo
  {
    UtxoOf(i.outTokens, i.outAmounts, FromBytes(i.senderPkX), i.outSalt)
  }

  /** The merge pre-hash: domain 2, sender, output commitment, three zeros. */
  function MergeDigest(hash: Hasher, senderPkX: Field, outCommit: Field): Field
  {
    hash([FromU128(2), senderPkX, outCommit, FromU128(0), FromU128(0), FromU128(0)])
  }

  /** `merge_commitment`: the output commitment, the digest and its bytes; the bytes read back as the digest. */
  function MergeCommitment(hash: Hasher, senderPkX: Field, out: Utxo): (r: (Field, Field, Bytes32))
    ensures FromBytes(r.2) == r.1
  {
    var outCommit := CommitWith(hash, out);
    var digest := MergeDigest(hash, senderPkX, outCommit);
    (outCommit, digest, ToBytes(digest))
  }

  /** The fifteen dotted paths of the merge circuit's `input` struct that the packer fills. */
  const MERGE_KEYS: set<string> := {
    SCHNORR_PK_X, SCHNORR_PK_Y, SCHNORR_MSG32,
    IN0_ASSETS_TOKENS, IN0_ASSETS_AMOUNTS, IN0_RECIPIENT_PK_X, IN0_SALT,
    IN1_ASSETS_TOKENS, IN1_ASSETS_AMOUNTS, IN1_RECIPIENT_PK_X, IN1_SALT,
    OUT_ASSETS_TOKENS, OUT_ASSETS_AMOUNTS, OUT_RECIPIENT_PK_X, OUT_SALT}

  /** The merge ABI map for the inputs and the signed message. */
  function MergeAbi(i: MergeInputs, msg32: Bytes32): AbiMap
  {
    map[
      SCHNORR_PK_X := [FeOfBytes(i.senderPkX)],
      SCHNORR_PK_Y := [FeOfBytes(i.senderPkY)],
      SCHNORR_MSG32 := FesOfBytes(msg32),
      IN0_ASSETS_TOKENS := FesOfFields(i.in0Tokens),
      IN0_ASSETS_AMOUNTS := FesOfFields(i.in0Amounts),
      IN0_RECIPIENT_PK_X := [FeOfBytes(i.senderPkX)],
      IN0_SALT := [FeOfField(i.in0Salt)],
      IN1_ASSETS_TOKENS := FesOfFields(i.in1Tokens),
      IN1_ASSETS_AMOUNTS := FesOfFields(i.in1Amounts),
      IN1_RECIPIENT_PK_X := [FeOfBytes(i.senderPkX)],
      IN1_SALT := [FeOfField(i.in1Salt)],
      OUT_ASSETS_TOKENS := FesOfFields(i.outTokens),
      OUT_ASSETS_AMOUNTS := FesOfFields(i.outAmounts),
      OUT_RECIPIENT_PK_X := [FeOfBytes(i.senderPkX)],
      OUT_SALT := [FeOfField(i.outSalt)]
    ]
  }

  /** `p` is what packing `i` yields: `merge_commitment` on the output and the ABI map for its message. */
  predicate MergePacked(hash: Hasher, i: MergeInputs, p: MergePrepared)
  {
    && (p.outCommit, p.digest, p.msg32) == MergeCommitment(hash, FromBytes(i.senderPkX), OutUtxo(i))
    && p.abiInputs == MergeAbi(i, p.msg32)
  }

  /** `pack_merge_inputs`: builds the output, its commitment and the digest, then fills the ABI map. */
  method PackMergeInputs(hash: Hasher, i: MergeInputs) returns (p: MergePrepared)
    ensures MergePacked(hash, i, p)
  {
    var outCommit := CommitWith(hash, OutUtxo(i));
    var digest := hash([FromU128(2), FromBytes(i.senderPkX), outCommit, FromU128(0), FromU128(0), FromU128(0)]);
    var msg32 := ToBytes(digest);
    var m := FillMergeAbi(i, msg32);
    p := MergePrepared(m, outCommit, digest, msg32);
  }

  /** The map-filling half of `pack_merge_inputs`. */
  method FillMergeAbi(i: MergeInputs, msg32: Bytes32) returns (m: AbiMap)
    ensures m == MergeAbi(i, msg32)
  {
    m := map[];
    m := m[SCHNORR_PK_X := [FeOfBytes(i.senderPkX)]];
    m := m[SCHNORR_PK_Y := [FeOfBytes(i.senderPkY)]];
    m := m[SCHNORR_MSG32 := FesOfBytes(msg32)];
    m := m[IN0_ASSETS_TOKENS := FesOfFields(i.in0Tokens)];
    m := m[IN0_ASSETS_AMOUNTS := FesOfFields(i.in0Amounts)];
    m := m[IN0_RECIPIENT_PK_X := [FeOfBytes(i.senderPkX)]];
    m := m[IN0_SALT := [FeOfField(i.in0Salt)]];
    m := m[IN1_ASSETS_TOKENS := FesOfFields(i.in1Tokens)];
    m := m[IN1_ASSETS_AMOUNTS := FesOfFields(i.in1Amounts)];
    m := m[IN1_RECIPIENT_PK_X := [FeOfBytes(i.senderPkX)]];
    m := m[IN1_SALT := [FeOfField(i.in1Salt)]];
    m := m[OUT_ASSETS_TOKENS := FesOfFields(i.outTokens)];
    m := m[OUT_ASSETS_AMOUNTS := FesOfFields(i.outAmounts)];
    m := m[OUT_RECIPIENT_PK_X := [FeOfBytes(i.senderPkX)]];
    m := m[OUT_SALT := [FeOfField(i.outSalt)]];
  }

  /** The number of elements the merge circuit expects at each path. */
  function MergeEntryLength(key: string): nat
  {
    if key == SCHNORR_MSG32 then 32
    else if key in {IN0_ASSETS_TOKENS, IN0_ASSETS_AMOUNTS,
                    IN1_ASSETS_TOKENS, IN1_ASSETS_AMOUNTS,
                    OUT_ASSETS_TOKENS, OUT_ASSETS_AMOUNTS} then MAX_ASSETS
    else 1
  }

  /** The merge ABI map fills exactly the fifteen paths. */
  lemma MergeAbiKeys(i: MergeInputs, msg32: Bytes32)
    ensures MergeAbi(i, msg32).Keys == MERGE_KEYS
  {
  }

  /** Every path of the merge ABI map holds as many elements as the circuit expects there. */
  lemma MergeAbiLengths(i: MergeInputs, msg32: Bytes32)
    ensures forall k :: k in MergeAbi(i, msg32) ==> |MergeAbi(i, msg32)[k]| == MergeEntryLength(k)
  {
  }

  /** Both inputs and the output of a merge are keyed to the signer's x-coordinate. */
  lemma MergeAbiContents(i: MergeInputs, msg32: Bytes32)
    ensures var m := MergeAbi(i, msg32);
            && (forall j :: 0 <= j < 32 ==> m[SCHNORR_MSG32][j] == msg32[j])
            && m[IN0_RECIPIENT_PK_X] == m[SCHNORR_PK_X]
            && m[IN1_RECIPIENT_PK_X] == m[SCHNORR_PK_X]
            && m[OUT_RECIPIENT_PK_X] == m[SCHNORR_PK_X]
  {
  }

  // ---------------------------------------------------------------- salt retry

  /**
   * The outcome of the salt-retry loop from attempt `i` on, where attempt `k`
   * yields the output commitments `commits[k]`: without an oracle the attempt
   * is kept; with one, attempts go on while it reports a collision, its first
   * error aborts, and running out of salts is an error.
   */
  function Retry(check: EnsureUnique, commits: seq<seq<Field>>, i: nat): Result<nat>
    requires i <= |commits|
    decreases |commits| - i
  {
    if i == |commits| then Err(SaltStreamExhausted)
    else if check.None? then Ok(i)
    else match check.value(commits[i])
      case Err(e) => Err(e)
      case Ok(collides) => if collides then Retry(check, commits, i + 1) else Ok(i)
  }

  /**
   * The retry loop keeps the first attempt the oracle accepts, and the first
   * one outright without an oracle; every attempt it skipped was reported as
   * a collision. It fails only on an oracle error, after collisions, or when
   * every attempt collided.
   */
  lemma {:induction false} RetryKeepsFirstUnique(check: EnsureUnique, commits: seq<seq<Field>>, i: nat)
    requires i <= |commits|
    ensures check.None? && i < |commits| ==> Retry(check, commits, i) == Ok(i)
    ensures Retry(check, commits, i).Ok? ==>
              var k := Retry(check, commits, i).value;
              && i <= k < |commits|
              && (check.None? ==> k == i)
              && (check.Some? ==> check.value(commits[k]) == Ok(false)
                                  && forall j :: i <= j < k ==> check.value(commits[j]) == Ok(true))
    ensures Retry(check, commits, i).Err? ==>
              var e := Retry(check, commits, i).error;
              || (e == SaltStreamExhausted
                  && forall j :: i <= j < |commits| ==> check.Some? && check.value(commits[j]) == Ok(true))
              || (exists k :: i <= k < |commits| && check.Some? && check.value(commits[k]) == Err(e)
                              && forall j :: i <= j < k ==> check.value(commits[j]) == Ok(true))
    decreases |commits| - i
  {
    if i < |commits| && check.Some? && check.value(commits[i]) == Ok(true) {
      RetryKeepsFirstUnique(check, commits, i + 1);
    }
  }

  /** The spend inputs of attempt `k`: salts `2k` and `2k + 1` of the stream. */
  function SpendAttempt(base: SpendInputs, salts: seq<Field>, k: nat): SpendInputs
    requires 2 * k + 1 < |salts|
  {
    base.(receiverSalt := salts[2 * k], remainderSalt := salts[2 * k + 1])
  }

  /** The output commitments of every spend attempt the salt stream allows. */
  function SpendAttemptCommits(hash: Hasher, base: SpendInputs, salts: seq<Field>): (cs: seq<seq<Field>>)
    ensures |cs| == |salts| / 2
  {
    seq(|salts| / 2, k requires 0 <= k < |salts| / 2 =>
      [CommitWith(hash, ReceiverUtxo(SpendAttempt(base, salts, k))),
       CommitWith(hash, RemainderUtxo(SpendAttempt(base, salts, k)))])
  }

  /**
   * The retry loop of `prove_spend`: packs with the current pair of salts,
   * hands the oracle the attempt's two output commitments and draws a fresh
   * pair while it reports a collision. The result is the accepted attempt.
   */
  method SpendRetry(hash: Hasher, base: SpendInputs, salts: seq<Field>, check: EnsureUnique)
    returns (r: Result<nat>)
    ensures r.Ok? ==> 2 * r.value + 1 < |salts|
    ensures r == Retry(check, SpendAttemptCommits(hash, base, salts), 0)
  {
    ghost var commits := SpendAttemptCommits(hash, base, salts);
    var k: nat := 0;
    while true
      invariant k <= |commits|
      invariant Retry(check, commits, k) == Retry(check, commits, 0)
      decreases |commits| - k
    {
      if 2 * k + 1 >= |salts| {
        return Err(SaltStreamExhausted);
      }
      var attempt := SpendAttempt(base, salts, k);
      var outputs := [CommitWith(hash, ReceiverUtxo(attempt)), CommitWith(hash, RemainderUtxo(attempt))];
      assert outputs == commits[k];
      if check.Some? {
        var collides :- check.value(outputs);
        if collides {
          k := k + 1;
          continue;
        }
      }
      return Ok(k);
    }
  }

  /** The merge inputs of attempt `k`: output salt `k` of the candidates. */
  function MergeAttempt(base: MergeInputs, salts: seq<Field>, k: nat): MergeInputs
    requires k < |salts|
  {
    base.(outSalt := salts[k])
  }

  /** The output commitment of every merge attempt the salt candidates allow. */
  function MergeAttemptCommits(hash: Hasher, base: MergeInputs, salts: seq<Field>): (cs: seq<seq<Field>>)
    ensures |cs| == |salts|
  {
    seq(|salts|, k requires 0 <= k < |salts| => [CommitWith(hash, OutUtxo(MergeAttempt(base, salts, k)))])
  }

  /** The retry loop of `prove_merge`: hands the oracle the output commitment and draws a fresh salt on a collision. */
  method MergeRetry(hash: Hasher, base: MergeInputs, salts: seq<Field>, check: EnsureUnique)
    returns (r: Result<nat>)
    ensures r.Ok? ==> r.value < |salts|
    ensures r == Retry(check, MergeAttemptCommits(hash, base, salts), 0)
  {
    ghost var commits := MergeAttemptCommits(hash, base, salts);
    var k: nat := 0;
    while true
      invariant k <= |commits|
      invariant Retry(check, commits, k) == Retry(check, commits, 0)
      decreases |commits| - k
    {
      if k >= |salts| {
        return Err(SaltStreamExhausted);
      }
      var outputs := [CommitWith(hash, OutUtxo(MergeAttempt(base, salts, k)))];
      assert outputs == commits[k];
      if check.Some? {
        var collides :- check.value(outputs);
        if collides {
          k := k + 1;
          continue;
        }
      }
      return Ok(k);
    }
  }

  // ---------------------------------------------------------------- prove_spend

  /** `SpendRequest`. */
  datatype SpendRequest = SpendRequest(
    signer: Keypair,
    recipientPkX: Bytes32,
    input: SignedInput,
    transferToken: Field,
    transferAmount: Field,
    feeAmount: Field,
    ensureUnique: EnsureUnique,
    verifyProof: bool)

  /** The key checks of `prove_spend`: the signer owns the input, and the input UTXO is keyed to it. */
  predicate SpendAuthorized(req: SpendRequest)
  {
    && req.signer.publicKey == req.input.signer
    && req.input.inclusion.utxo.recipientPkX == PkXField(req.input.signer)
  }

  /** The spend inputs before salts are drawn, for transfer slot `s` and remainder amounts `rest`. */
  function SpendBase(req: SpendRequest, s: nat, rest: Fields4): SpendInputs
    requires s < MAX_ASSETS
  {
    var u := req.input.inclusion.utxo;
    SpendInputs(
      req.input.signer.pkX, req.input.signer.pkY, req.recipientPkX,
      Tokens(u), Amounts(u), u.salt,
      req.transferToken, req.transferAmount, req.feeAmount,
      OnlyAt(s, req.transferToken), OnlyAt(s, req.transferAmount), FromU128(0),
      Tokens(u), rest, FromU128(0))
  }

  /** The full ABI map handed to the prover: the packed map plus the signature bytes. */
  function SignedAbi(abi: AbiMap, sig: Bytes64): AbiMap
  {
    abi[SIG_KEY := FesOfBytes(sig)]
  }

  /**
   * The tail both provers share: sign the message, prove the signed map
   * and, when asked, verify the proof. A failing backend call returns its
   * error; a proof the verifier rejects is `ProofRejected`.
   */
  method SignAndProve(backend: Backend, signer: Keypair, circuit: string, abi: AbiMap, msg32: Bytes32, verifyProof: bool)
    returns (r: Result<(Bytes64, seq<uint8>)>)
    ensures r.Ok? ==> r.value.0 == signer.sign(msg32)
                      && backend.prove(circuit, SignedAbi(abi, r.value.0)) == Ok(r.value.1)
                      && (verifyProof ==> backend.verify(circuit, r.value.1) == Ok(true))
    ensures var proved := backend.prove(circuit, SignedAbi(abi, signer.sign(msg32)));
            && (proved.Err? ==> r == Err(proved.error))
            && (proved.Ok? && !verifyProof ==> r.Ok?)
            && (proved.Ok? && verifyProof && backend.verify(circuit, proved.value).Err?
                ==> r == Err(backend.verify(circuit, proved.value).error))
            && (proved.Ok? && verifyProof && backend.verify(circuit, proved.value) == Ok(false) ==> r == Err(ProofRejected))
  {
    var signature := signer.sign(msg32);
    var proof :- backend.prove(circuit, SignedAbi(abi, signature));
    if verifyProof {
      var ok :- backend.verify(circuit, proof);
      if !ok {
        return Err(ProofRejected);
      }
    }
    return Ok((signature, proof));
  }

  /**
   * What the second half of `prove_spend` returns for the spend inputs
   * `base` and retry attempt `k`: the salts are those of the first attempt the
   * oracle accepted; commitments, digest and message are `spend_commitments`
   * of the two outputs; the signature signs that message; and the proof is
   * the backend's proof of the signed map, accepted by the backend when asked.
   */
  predicate SpendFinished(hash: Hasher, backend: Backend, req: SpendRequest, salts: seq<Field>, base: SpendInputs,
                          tx: SpendTx, k: nat)
  {
    && Retry(req.ensureUnique, SpendAttemptCommits(hash, base, salts), 0) == Ok(k)
    && 2 * k + 1 < |salts|
    && var attempt := SpendAttempt(base, salts, k);
       && tx.outputs == SpendOutput(ReceiverUtxo(attempt), RemainderUtxo(attempt))
       && (tx.expectedOutCommits.0, tx.expectedOutCommits.1, tx.digest, tx.msg32)
          == SpendCommitments(hash, FromBytes(base.senderPkX), ReceiverUtxo(attempt), RemainderUtxo(attempt),
                              base.transferToken, base.transferAmount, base.feeAmount)
       && tx.signature == req.signer.sign(tx.msg32)
       && backend.prove(SPEND_CIRCUIT, SignedAbi(SpendAbi(attempt, tx.msg32), tx.signature)) == Ok(tx.proof)
       && (req.verifyProof ==> backend.verify(SPEND_CIRCUIT, tx.proof) == Ok(true))
       && tx.input == req.input.inclusion
       && tx.senderPkX == FromBytes(base.senderPkX)
       && tx.transferToken == base.transferToken
       && tx.transferAmount == base.transferAmount
       && tx.feeAmount == base.feeAmount
  }

  /**
   * What a successful `prove_spend` returns, for transfer slot `s` and retry
   * attempt `k`: the slot is the one holding the token; the receiver gets the
   * transfer there and zeros elsewhere; the remainder keeps the input's tokens
   * and the checked remainder amounts; the rest is `SpendFinished`.
   */
  predicate SpendOutcome(hash: Hasher, backend: Backend, req: SpendRequest, salts: seq<Field>, tx: SpendTx,
                         s: nat, k: nat)
  {
    var u := req.input.inclusion.utxo;
    && UniqueSlot(Tokens(u), req.transferToken, s)
    && Remainder(Amounts(u), s, req.transferAmount, req.feeAmount).Ok?
    && SpendFinished(hash, backend, req, salts,
                     SpendBase(req, s, Remainder(Amounts(u), s, req.transferAmount, req.feeAmount).value), tx, k)
  }

  /** The salt retry, signing, proving and optional verification of `prove_spend`. */
  method FinishSpend(hash: Hasher, backend: Backend, req: SpendRequest, salts: seq<Field>, base: SpendInputs)
    returns (r: Result<SpendTx>)
    ensures r.Ok? ==> exists k :: SpendFinished(hash, backend, req, salts, base, r.value, k)
    ensures Retry(req.ensureUnique, SpendAttemptCommits(hash, base, salts), 0).Err?
            ==> r == Err(Retry(req.ensureUnique, SpendAttemptCommits(hash, base, salts), 0).error)
  {
    var k :- SpendRetry(hash, base, salts, req.ensureUnique);
    var attempt := SpendAttempt(base, salts, k);
    var p := PackSpendInputs(hash, attempt);
    var signed :- SignAndProve(backend, req.signer, SPEND_CIRCUIT, p.abiInputs, p.msg32, req.verifyProof);
    var (signature, proof) := signed;
    var tx := SpendTx(req.input.inclusion, SpendOutput(ReceiverUtxo(attempt), RemainderUtxo(attempt)),
                      (p.receiverCommit, p.remainderCommit), proof, FromBytes(base.senderPkX),
                      base.transferToken, base.transferAmount, base.feeAmount, signature, p.msg32, p.digest);
    assert SpendFinished(hash, backend, req, salts, base, tx, k);
    r := Ok(tx);
  }

  /**
   * `prove_spend`: the key checks, the transfer-slot search, the remainder,
   * then `FinishSpend`. Each check that fails returns its own error.
   */
  method ProveSpend(hash: Hasher, backend: Backend, req: SpendRequest, salts: seq<Field>) returns (r: Result<SpendTx>)
    ensures req.signer.publicKey != req.input.signer ==> r == Err(SignerKeyMismatch)
    ensures req.signer.publicKey == req.input.signer && !SpendAuthorized(req) ==> r == Err(RecipientKeyMismatch)
    ensures SpendAuthorized(req) && DuplicateSlots(Tokens(req.input.inclusion.utxo), req.transferToken)
            ==> r == Err(DuplicateTransferSlot)
    ensures SpendAuthorized(req) && (forall j :: 0 <= j < MAX_ASSETS ==> req.input.inclusion.utxo.assets[j].token != req.transferToken)
            ==> r == Err(TransferTokenMissing)
    ensures forall s :: (SpendAuthorized(req) && UniqueSlot(Tokens(req.input.inclusion.utxo), req.transferToken, s)
                         && Remainder(Amounts(req.input.inclusion.utxo), s, req.transferAmount, req.feeAmount).Err?)
                        ==> r == Err(Remainder(Amounts(req.input.inclusion.utxo), s, req.transferAmount, req.feeAmount).error)
    ensures r.Ok? ==> SpendAuthorized(req) && exists s, k :: SpendOutcome(hash, backend, req, salts, r.value, s, k)
  {
    if req.signer.publicKey != req.input.signer {
      return Err(SignerKeyMismatch);
    }
    var u := req.input.inclusion.utxo;
    if u.recipientPkX != PkXField(req.input.signer) {
      return Err(RecipientKeyMismatch);
    }
    var s :- FindTransferSlot(Tokens(u), req.transferToken);
    var rest :- Remainder(Amounts(u), s, req.transferAmount, req.feeAmount);
    r := FinishSpend(hash, backend, req, salts, SpendBase(req, s, rest));
    if r.Ok? {
      var k :| SpendFinished(hash, backend, req, salts, SpendBase(req, s, rest), r.value, k);
      assert SpendOutcome(hash, backend, req, salts, r.value, s, k);
    }
  }

  /**
   * Value is conserved by a successful spend, slot by slot: what the input
   * held is what the receiver and the remainder hold, plus the fee in slot 0.
   * The remainder keeps the input's tokens and owner; the receiver holds the
   * transfer token in the transfer slot only.
   */
  lemma SpendConservesValue(hash: Hasher, backend: Backend, req: SpendRequest, salts: seq<Field>, tx: SpendTx,
                            s: nat, k: nat)
    requires SpendAuthorized(req) && SpendOutcome(hash, backend, req, salts, tx, s, k)
    ensures tx.outputs.SpendOutput?
    ensures forall j :: 0 <= j < MAX_ASSETS ==>
              Canon(req.input.inclusion.utxo.assets[j].amount)
              == Canon(tx.outputs.receiver.assets[j].amount) + Canon(tx.outputs.remainder.assets[j].amount)
                 + (if j == 0 then Canon(req.feeAmount) else 0)
    ensures forall j :: 0 <= j < MAX_ASSETS ==>
              tx.outputs.remainder.assets[j].token == req.input.inclusion.utxo.assets[j].token
    ensures tx.outputs.receiver.assets[s].token == req.transferToken == req.input.inclusion.utxo.assets[s].token
    ensures tx.outputs.receiver.assets[s].amount == req.transferAmount
    ensures tx.outputs.remainder.recipientPkX == req.input.inclusion.utxo.recipientPkX
    ensures tx.outputs.receiver.recipientPkX == FromBytes(req.recipientPkX)
  {
    var u := req.input.inclusion.utxo;
    var rest := Remainder(Amounts(u), s, req.transferAmount, req.feeAmount).value;
    var attempt := SpendAttempt(SpendBase(req, s, rest), salts, k);
    assert tx.outputs == SpendOutput(ReceiverUtxo(attempt), RemainderUtxo(attempt));
    var recv, rem := tx.outputs.receiver, tx.outputs.remainder;
    assert Canon(FromU128(0)) == 0;
    forall j | 0 <= j < MAX_ASSETS
      ensures Canon(u.assets[j].amount) == Canon(recv.assets[j].amount) + Canon(rem.assets[j].amount)
                                           + (if j == 0 then Canon(req.feeAmount) else 0)
    {
      assert recv.assets[j].amount == OnlyAt(s, req.transferAmount)[j];
      assert rem.assets[j].amount == rest[j];
      if j == 0 || j == s {
        CanonOfReduced(rest[j]);
      }
    }
  }

  // ---------------------------------------------------------------- prove_merge

  /** `MergeRequest`; `outSalt` is the caller's salt override. */
  datatype MergeRequest = MergeRequest(
    signer: Keypair,
    inputs: (SignedInput, SignedInput),
    outTokens: Fields4,
    outAmounts: Fields4,
    outSalt: Option<Field>,
    ensureUnique: EnsureUnique,
    verifyProof: bool)

  /** The key checks of `prove_merge`: both inputs belong to the signer and are keyed to it. */
  predicate MergeAuthorized(req: MergeRequest)
  {
    && req.signer.publicKey == req.inputs.0.signer
    && req.signer.publicKey == req.inputs.1.signer
    && req.inputs.0.inclusion.utxo.recipientPkX == PkXField(req.inputs.0.signer)
    && req.inputs.1.inclusion.utxo.recipientPkX == PkXField(req.inputs.1.signer)
  }

  /** The candidate output salts: the override first when given, then the random stream. */
  function MergeSalts(outSalt: Option<Field>, salts: seq<Field>): (cs: seq<Field>)
    ensures outSalt.Some? ==> |cs| > 0 && cs[0] == outSalt.value && cs[1..] == salts
    ensures outSalt.None? ==> cs == salts
  {
    if outSalt.Some? then [outSalt.value] + salts else salts
  }

  /** The merge inputs before the output salt is chosen. */
  function MergeBase(req: MergeRequest): MergeInputs
  {
    var (a, b) := (req.inputs.0, req.inputs.1);
    MergeInputs(
      a.signer.pkX, a.signer.pkY,
      Tokens(a.inclusion.utxo), Amounts(a.inclusion.utxo), a.inclusion.utxo.salt,
      Tokens(b.inclusion.utxo), Amounts(b.inclusion.utxo), b.inclusion.utxo.salt,
      req.outTokens, req.outAmounts, FromU128(0))
  }

  /**
   * What a successful `prove_merge` returns for retry attempt `k`: the
   * requested output owned by the signer, salted with the first candidate the
   * oracle accepted; its commitment, digest and message are
   * `merge_commitment`'s; the signature signs that message; and the proof is
   * the backend's proof of the signed map, accepted by the backend when asked.
   */
  predicate MergeOutcome(hash: Hasher, backend: Backend, req: MergeRequest, salts: seq<Field>, tx: MergeTx, k: nat)
  {
    var candidates := MergeSalts(req.outSalt, salts);
    && Retry(req.ensureUnique, MergeAttemptCommits(hash, MergeBase(req), candidates), 0) == Ok(k)
    && k < |candidates|
    && var attempt := MergeAttempt(MergeBase(req), candidates, k);
       && tx.outputs == MergeOutput(OutUtxo(attempt))
       && (tx.expectedOutCommit, tx.digest, tx.msg32)
          == MergeCommitment(hash, PkXField(req.signer.publicKey), OutUtxo(attempt))
       && tx.signature == req.signer.sign(tx.msg32)
       && backend.prove(MERGE_CIRCUIT, SignedAbi(MergeAbi(attempt, tx.msg32), tx.signature)) == Ok(tx.proof)
       && (req.verifyProof ==> backend.verify(MERGE_CIRCUIT, tx.proof) == Ok(true))
       && tx.inputs == (req.inputs.0.inclusion, req.inputs.1.inclusion)
       && tx.senderPkX == PkXField(req.signer.publicKey)
  }

  /** The salt retry, signing, proving and optional verification of `prove_merge`. */
  method FinishMerge(hash: Hasher, backend: Backend, req: MergeRequest, salts: seq<Field>) returns (r: Result<MergeTx>)
    requires req.signer.publicKey == req.inputs.0.signer
    ensures r.Ok? ==> exists k :: MergeOutcome(hash, backend, req, salts, r.value, k)
    ensures Retry(req.ensureUnique, MergeAttemptCommits(hash, MergeBase(req), MergeSalts(req.outSalt, salts)), 0).Err?
            ==> r == Err(Retry(req.ensureUnique, MergeAttemptCommits(hash, MergeBase(req), MergeSalts(req.outSalt, salts)), 0).error)
  {
    var candidates := MergeSalts(req.outSalt, salts);
    var k :- MergeRetry(hash, MergeBase(req), candidates, req.ensureUnique);
    var attempt := MergeAttempt(MergeBase(req), candidates, k);
    var p := PackMergeInputs(hash, attempt);
    var signed :- SignAndProve(backend, req.signer, MERGE_CIRCUIT, p.abiInputs, p.msg32, req.verifyProof);
    var (signature, proof) := signed;
    var tx := MergeTx((req.inputs.0.inclusion, req.inputs.1.inclusion), MergeOutput(OutUtxo(attempt)),
                      p.outCommit, proof, PkXField(req.signer.publicKey), signature, p.msg32, p.digest);
    assert MergeOutcome(hash, backend, req, salts, tx, k);
    r := Ok(tx);
  }

  /**
   * `prove_merge`: the signer must own both inputs and both input UTXOs must be
   * keyed to it; then `FinishMerge`.
   */
  method ProveMerge(hash: Hasher, backend: Backend, req: MergeRequest, salts: seq<Field>) returns (r: Result<MergeTx>)
    ensures req.signer.publicKey != req.inputs.0.signer ==> r == Err(MergeSignerMismatch(0))
    ensures req.signer.publicKey == req.inputs.0.signer && req.signer.publicKey != req.inputs.1.signer
            ==> r == Err(MergeSignerMismatch(1))
    ensures req.signer.publicKey == req.inputs.0.signer == req.inputs.1.signer && !MergeAuthorized(req)
            ==> r == Err(MergeRecipientKeyMismatch)
    ensures r.Ok? ==> MergeAuthorized(req) && exists k :: MergeOutcome(hash, backend, req, salts, r.value, k)
  {
    var signer := req.signer.publicKey;
    if signer != req.inputs.0.signer {
      return Err(MergeSignerMismatch(0));
    }
    if signer != req.inputs.1.signer {
      return Err(MergeSignerMismatch(1));
    }
    var (a, b) := (req.inputs.0, req.inputs.1);
    if a.inclusion.utxo.recipientPkX != PkXField(a.signer) || b.inclusion.utxo.recipientPkX != PkXField(b.signer) {
      return Err(MergeRecipientKeyMismatch);
    }
    r := FinishMerge(hash, backend, req, salts);
  }

  /**
   * A salt override is honoured: without a uniqueness oracle the merged
   * output carries exactly the given salt, and is the requested UTXO owned by
   * the signer.
   */
  lemma MergeUsesGivenSalt(hash: Hasher, backend: Backend, req: MergeRequest, salts: seq<Field>, tx: MergeTx, k: nat)
    requires MergeAuthorized(req) && MergeOutcome(hash, backend, req, salts, tx, k)
    requires req.outSalt.Some? && req.ensureUnique.None?
    ensures tx.outputs == MergeOutput(UtxoOf(req.outTokens, req.outAmounts, PkXField(req.signer.publicKey), req.outSalt.value))
  {
    var candidates := MergeSalts(req.outSalt, salts);
    assert Retry(req.ensureUnique, MergeAttemptCommits(hash, MergeBase(req), candidates), 0) == Ok(0);
    assert k == 0 && candidates[0] == req.outSalt.value;
    var attempt := MergeAttempt(MergeBase(req), candidates, 0);
    assert attempt.outSalt == req.outSalt.value && attempt.senderPkX == req.signer.publicKey.pkX;
  }
}
