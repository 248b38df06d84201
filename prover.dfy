/**
 * The prover's own logic around the proving backend: flattening named ABI
 * inputs into the circuit's private-input vector, the fixed-layout encoders,
 * witness-index assignment, splitting public inputs into 32-byte elements,
 * key-id formatting, and the key-id to verifying-key dispatch over the
 * catalog. Compiling, key generation, key hashing and reading public inputs
 * out of a proof are calls into the backend, passed in as functions.
 */
module Prover {
  import opened Wrappers
  import opened Bytes
  import opened Bn254
  import opened Types
  import opened Acir
  import opened Sorting
  import opened Catalog

  // ---------------------------------------------------------------- flattening (push_param)

  /** Everything but an array or a struct: one element under its own name. */
  predicate IsScalar(t: AbiType)
  {
    t.FieldKind? || t.IntegerKind? || t.BooleanKind?
  }

  /**
   * The elements `push_param` appends for a parameter of type `t` under the
   * dotted path `name`: a scalar needs exactly one element, an array exactly
   * `length` elements of a scalar type, and a struct its fields in declared
   * order under `name.field`.
   */
  function FlattenType(t: AbiType, name: string, inputs: AbiMap): Result<seq<Fe>>
    decreases t
  {
    match t
    case ArrayKind(length, elem) =>
      if name !in inputs then Err(MissingInput(name))
      else if |inputs[name]| != length then Err(WrongLength(name, length, |inputs[name]|))
      else if elem.ArrayKind? then Err(NestedArray(name))
      else if elem.StructKind? then Err(ArrayOfStructs(name))
      else Ok(inputs[name])
    case StructKind(fields) =>
      Collect(seq(|fields|, i requires 0 <= i < |fields| =>
        FlattenType(fields[i].abiType, name + "." + fields[i].name, inputs)))
    case _ =>
      if name !in inputs then Err(MissingInput(name))
      else if |inputs[name]| != 1 then Err(WrongLength(name, 1, |inputs[name]|))
      else Ok(inputs[name])
  }

  /** Appends the parts in order; the first error, if any, is the result. */
  function Collect(parts: seq<Result<seq<Fe>>>): Result<seq<Fe>>
    decreases |parts|
  {
    if parts == [] then Ok([])
    else match Collect(parts[..|parts| - 1])
      case Err(e) => Err(e)
      case Ok(xs) => if parts[|parts| - 1].Err? then parts[|parts| - 1] else Ok(xs + parts[|parts| - 1].value)
  }

  /** `Collect` succeeds exactly when every part does, and then holds their concatenation. */
  lemma {:induction false} CollectOk(parts: seq<Result<seq<Fe>>>)
    ensures Collect(parts).Ok? <==> forall i :: 0 <= i < |parts| ==> parts[i].Ok?
    ensures Collect(parts).Ok? ==> |Collect(parts).value| == TotalLength(parts)
    decreases |parts|
  {
    if parts != [] {
      CollectOk(parts[..|parts| - 1]);
    }
  }

  /** `Collect` fails with the error of the first part that fails. */
  lemma {:induction false} CollectFirstError(parts: seq<Result<seq<Fe>>>, j: nat)
    requires j < |parts| && parts[j].Err? && forall i :: 0 <= i < j ==> parts[i].Ok?
    ensures Collect(parts) == Err(parts[j].error)
    decreases |parts|
  {
    if j < |parts| - 1 {
      CollectFirstError(parts[..|parts| - 1], j);
    } else {
      CollectOk(parts[..|parts| - 1]);
    }
  }

  /** The summed lengths of the successful parts. */
  function TotalLength(parts: seq<Result<seq<Fe>>>): nat
    decreases |parts|
  {
    if parts == [] then 0
    else TotalLength(parts[..|parts| - 1]) + (if parts[|parts| - 1].Ok? then |parts[|parts| - 1].value| else 0)
  }

  /** The number of elements a parameter of type `t` occupies. */
  function Size(t: AbiType): nat
    decreases t
  {
    match t
    case ArrayKind(length, _) => length
    case StructKind(fields) => Sum(seq(|fields|, i requires 0 <= i < |fields| => Size(fields[i].abiType)))
    case _ => 1
  }

  function Sum(ns: seq<nat>): nat
    decreases |ns|
  {
    if ns == [] then 0 else Sum(ns[..|ns| - 1]) + ns[|ns| - 1]
  }

  /** Parts that each have the given size add up to the sum of the sizes. */
  lemma {:induction false} TotalLengthOfSizes(parts: seq<Result<seq<Fe>>>, sizes: seq<nat>)
    requires |parts| == |sizes|
    requires forall i :: 0 <= i < |parts| ==> parts[i].Ok? && |parts[i].value| == sizes[i]
    ensures TotalLength(parts) == Sum(sizes)
    decreases |parts|
  {
    if parts != [] {
      TotalLengthOfSizes(parts[..|parts| - 1], sizes[..|sizes| - 1]);
    }
  }

  /** A successful flatten yields exactly `Size(t)` elements. */
  lemma {:induction false} FlattenSize(t: AbiType, name: string, inputs: AbiMap)
    requires FlattenType(t, name, inputs).Ok?
    ensures |FlattenType(t, name, inputs).value| == Size(t)
    decreases t
  {
    match t
    case StructKind(fields) =>
      var parts := seq(|fields|, i requires 0 <= i < |fields| =>
        FlattenType(fields[i].abiType, name + "." + fields[i].name, inputs));
      var sizes := seq(|fields|, i requires 0 <= i < |fields| => Size(fields[i].abiType));
      assert FlattenType(t, name, inputs) == Collect(parts);
      assert Size(t) == Sum(sizes);
      CollectOk(parts);
      forall i | 0 <= i < |fields|
        ensures parts[i].Ok? && |parts[i].value| == sizes[i]
      {
        assert parts[i].Ok?;
        FlattenSize(fields[i].abiType, name + "." + fields[i].name, inputs);
      }
      TotalLengthOfSizes(parts, sizes);
    case _ =>
  }

  /** The flattening of each field of a struct named `name`, in declared order. */
  function FieldParts(fields: seq<AbiStructField>, name: string, inputs: AbiMap): (parts: seq<Result<seq<Fe>>>)
    ensures |parts| == |fields|
  {
    seq(|fields|, i requires 0 <= i < |fields| => FlattenType(fields[i].abiType, name + "." + fields[i].name, inputs))
  }

  /** A struct flattens to its fields' parts collected in order. */
  lemma FlattenStruct(fields: seq<AbiStructField>, name: string, inputs: AbiMap)
    ensures FlattenType(StructKind(fields), name, inputs) == Collect(FieldParts(fields, name, inputs))
  {
  }

  /**
   * The scalar and array cases of `push_param`: the parameter's vector is
   * looked up by its full name and must have the length the type declares;
   * arrays of arrays and arrays of structs are refused.
   */
  method PushLeaf(acc: seq<Fe>, t: AbiType, name: string, inputs: AbiMap) returns (r: Result<seq<Fe>>)
    requires !t.StructKind?
    ensures FlattenType(t, name, inputs).Ok? ==> r == Ok(acc + FlattenType(t, name, inputs).value)
    ensures FlattenType(t, name, inputs).Err? ==> r == Err(FlattenType(t, name, inputs).error)
  {
    if name !in inputs {
      return Err(MissingInput(name));
    }
    var v := inputs[name];
    if t.ArrayKind? {
      if |v| != t.length {
        return Err(WrongLength(name, t.length, |v|));
      }
      if t.elem.ArrayKind? {
        return Err(NestedArray(name));
      }
      if t.elem.StructKind? {
        return Err(ArrayOfStructs(name));
      }
      r := Ok(acc + v);
    } else {
      if |v| != 1 {
        return Err(WrongLength(name, 1, |v|));
      }
      assert v == [v[0]];
      r := Ok(acc + [v[0]]);
    }
  }

  /**
   * The struct case of `push_param`: pushes each field under `name.field`
   * in declared order and stops at the first field that fails.
   */
  method PushFields(acc: seq<Fe>, t: AbiType, name: string, inputs: AbiMap) returns (r: Result<seq<Fe>>)
    requires t.StructKind?
    ensures Collect(FieldParts(t.fields, name, inputs)).Ok? ==> r == Ok(acc + Collect(FieldParts(t.fields, name, inputs)).value)
    ensures Collect(FieldParts(t.fields, name, inputs)).Err? ==> r == Err(Collect(FieldParts(t.fields, name, inputs)).error)
    decreases t, 0
  {
    var fields := t.fields;
    ghost var parts := FieldParts(fields, name, inputs);
    var out := acc;
    for i := 0 to |fields|
      invariant Collect(parts[..i]).Ok? && out == acc + Collect(parts[..i]).value
    {
      var child := name + "." + fields[i].name;
      var next := PushParam(out, fields[i].abiType, child, inputs);
      assert parts[..i + 1][..i] == parts[..i];
      if next.Err? {
        CollectOk(parts[..i]);
        CollectFirstError(parts, i);
        return next;
      }
      out := next.value;
    }
    assert parts[..|fields|] == parts;
    r := Ok(out);
  }

  /**
   * `push_param`: appends the elements of parameter `name` of type `t` to
   * `acc`; on an error the whole flatten fails with it.
   */
  method PushParam(acc: seq<Fe>, t: AbiType, name: string, inputs: AbiMap) returns (r: Result<seq<Fe>>)
    ensures FlattenType(t, name, inputs).Ok? ==> r == Ok(acc + FlattenType(t, name, inputs).value)
    ensures FlattenType(t, name, inputs).Err? ==> r == Err(FlattenType(t, name, inputs).error)
    decreases t, 1
  {
    if t.StructKind? {
      FlattenStruct(t.fields, name, inputs);
      r := PushFields(acc, t, name, inputs);
    } else {
      r := PushLeaf(acc, t, name, inputs);
    }
  }

  /** The private parameters' elements, in ABI order; public parameters contribute nothing. */
  function FlattenPrivate(params: seq<AbiParam>, inputs: AbiMap): Result<seq<Fe>>
  {
    Collect(seq(|params|, i requires 0 <= i < |params| =>
      if params[i].visibility == "private" then FlattenType(params[i].abiType, params[i].name, inputs) else Ok([])))
  }

  /**
   * The flattening loop of `prove_with_all_inputs` (and `prove_with_abi`):
   * every private parameter is pushed in ABI order, and the first error
   * aborts.
   */
  method FlattenInputs(abi: Abi, inputs: AbiMap) returns (r: Result<seq<Fe>>)
    ensures r == FlattenPrivate(abi.parameters, inputs)
  {
    var params := abi.parameters;
    ghost var parts := seq(|params|, i requires 0 <= i < |params| =>
      if params[i].visibility == "private" then FlattenType(params[i].abiType, params[i].name, inputs) else Ok([]));
    var all: seq<Fe> := [];
    for i := 0 to |params|
      invariant Collect(parts[..i]).Ok? && all == Collect(parts[..i]).value
    {
      assert parts[..i + 1][..i] == parts[..i];
      if params[i].visibility == "private" {
        var next := PushParam(all, params[i].abiType, params[i].name, inputs);
        if next.Err? {
          CollectOk(parts[..i]);
          CollectFirstError(parts, i);
          return next;
        }
        all := next.value;
      }
    }
    assert parts[..|params|] == parts;
    r := Ok(all);
  }

  /**
   * A successful flatten of the private parameters has as many elements as
   * their sizes add up to, and a parameter list with no private parameter
   * flattens to nothing.
   */
  lemma FlattenPrivateSize(params: seq<AbiParam>, inputs: AbiMap)
    requires FlattenPrivate(params, inputs).Ok?
    ensures |FlattenPrivate(params, inputs).value|
         == Sum(seq(|params|, i requires 0 <= i < |params| =>
              if params[i].visibility == "private" then Size(params[i].abiType) else 0))
  {
    var parts := seq(|params|, i requires 0 <= i < |params| =>
      if params[i].visibility == "private" then FlattenType(params[i].abiType, params[i].name, inputs) else Ok([]));
    var sizes := seq(|params|, i requires 0 <= i < |params| =>
      if params[i].visibility == "private" then Size(params[i].abiType) else 0);
    assert FlattenPrivate(params, inputs) == Collect(parts);
    CollectOk(parts);
    forall i | 0 <= i < |params|
      ensures parts[i].Ok? && |parts[i].value| == sizes[i]
    {
      assert parts[i].Ok?;
      if params[i].visibility == "private" {
        FlattenSize(params[i].abiType, params[i].name, inputs);
      }
    }
    TotalLengthOfSizes(parts, sizes);
  }

  /** A scalar parameter needs its name to map to exactly one element, which is then its flattening. */
  lemma ScalarParam(t: AbiType, name: string, inputs: AbiMap)
    requires IsScalar(t)
    ensures FlattenType(t, name, inputs).Ok? <==> name in inputs && |inputs[name]| == 1
    ensures FlattenType(t, name, inputs).Ok? ==> FlattenType(t, name, inputs).value == inputs[name]
    ensures name !in inputs ==> FlattenType(t, name, inputs) == Err(MissingInput(name))
  {
  }

  // ---------------------------------------------------------------- fixed-layout encoders

  datatype SchnorrEnc = SchnorrEnc(pkX: Bytes32, pkY: Bytes32, sig64: Bytes64, msg32: Bytes32)
  datatype UtxoEnc = UtxoEnc(assetsTokens: Fields4, assetsAmounts: Fields4, recipientPkX: Bytes32, salt: Field)
  datatype TransferEnc = TransferEnc(token: Field, amount: Field, fee: Field)
  datatype SpendInputEnc = SpendInputEnc(schnorr: SchnorrEnc, in0: UtxoEnc, transfer: TransferEnc,
                                         receiver: UtxoEnc, remainder: UtxoEnc)
  datatype MergeInputEnc = MergeInputEnc(schnorr: SchnorrEnc, in0: UtxoEnc, in1: UtxoEnc, out: UtxoEnc)

  /** The schnorr block: both key coordinates, then the 64 signature bytes and the 32 message bytes. */
  function SchnorrFes(s: SchnorrEnc): (v: seq<Fe>)
    ensures |v| == 98
  {
    [FeOfBytes(s.pkX), FeOfBytes(s.pkY)] + FesOfBytes(s.sig64) + FesOfBytes(s.msg32)
  }

  /** A UTXO block: the four tokens, the four amounts, the owner key and the salt. */
  function UtxoFes(u: UtxoEnc): (v: seq<Fe>)
    ensures |v| == 10
  {
    FesOfFields(u.assetsTokens) + FesOfFields(u.assetsAmounts) + [FeOfBytes(u.recipientPkX), FeOfField(u.salt)]
  }

  function TransferFes(t: TransferEnc): (v: seq<Fe>)
    ensures |v| == 3
  {
    [FeOfField(t.token), FeOfField(t.amount), FeOfField(t.fee)]
  }

  /** The spend layout: schnorr, input, transfer, receiver, remainder. */
  function SpendFes(enc: SpendInputEnc): (v: seq<Fe>)
    ensures |v| == 131
  {
    SchnorrFes(enc.schnorr) + UtxoFes(enc.in0) + TransferFes(enc.transfer) + UtxoFes(enc.receiver)
    + UtxoFes(enc.remainder)
  }

  /** The merge layout: schnorr, both inputs, output. */
  function MergeFes(enc: MergeInputEnc): (v: seq<Fe>)
    ensures |v| == 128
  {
    SchnorrFes(enc.schnorr) + UtxoFes(enc.in0) + UtxoFes(enc.in1) + UtxoFes(enc.out)
  }

  /** Appends a UTXO block, as the four `push`/`extend` calls of each UTXO do. */
  method PushUtxo(v: seq<Fe>, u: UtxoEnc) returns (w: seq<Fe>)
    ensures w == v + UtxoFes(u)
  {
    w := v + FesOfFields(u.assetsTokens);
    w := w + FesOfFields(u.assetsAmounts);
    w := w + [FeOfBytes(u.recipientPkX)];
    w := w + [FeOfField(u.salt)];
  }

  /** Starts the vector with the schnorr block. */
  method PushSchnorr(s: SchnorrEnc) returns (w: seq<Fe>)
    ensures w == SchnorrFes(s)
  {
    w := [];
    w := w + [FeOfBytes(s.pkX)];
    w := w + [FeOfBytes(s.pkY)];
    w := w + FesOfBytes(s.sig64);
    w := w + FesOfBytes(s.msg32);
  }

  /** `encode_spend_privates`: the 131 private inputs of the spend circuit, in its fixed order. */
  method EncodeSpendPrivates(enc: SpendInputEnc) returns (v: seq<Fe>)
    ensures |v| == 131
    ensures v == SpendFes(enc)
  {
    v := PushSchnorr(enc.schnorr);
    v := PushUtxo(v, enc.in0);
    v := v + [FeOfField(enc.transfer.token)];
    v := v + [FeOfField(enc.transfer.amount)];
    v := v + [FeOfField(enc.transfer.fee)];
    v := PushUtxo(v, enc.receiver);
    v := PushUtxo(v, enc.remainder);
  }

  /** `encode_merge_privates`: the 128 private inputs of the merge circuit, in its fixed order. */
  method EncodeMergePrivates(enc: MergeInputEnc) returns (v: seq<Fe>)
    ensures |v| == 128
    ensures v == MergeFes(enc)
  {
    v := PushSchnorr(enc.schnorr);
    v := PushUtxo(v, enc.in0);
    v := PushUtxo(v, enc.in1);
    v := PushUtxo(v, enc.out);
  }

  // Reading the layout back: every element of a canonical encoding sits in its own position.

  /** The field whose value is `x`. */
  function FieldOfFe(x: Fe): (f: Field)
    ensures Value(f) == x
  {
    Limits();
    FieldOfNat(x)
  }

  /** Fields and keys whose value is already below the prime, so that reduction loses nothing. */
  predicate CanonicalUtxo(u: UtxoEnc)
  {
    && (forall i :: 0 <= i < MAX_ASSETS ==> Value(u.assetsTokens[i]) < P && Value(u.assetsAmounts[i]) < P)
    && BeValue(u.recipientPkX) < P && Value(u.salt) < P
  }

  predicate CanonicalSchnorr(s: SchnorrEnc)
  {
    BeValue(s.pkX) < P && BeValue(s.pkY) < P
  }

  predicate CanonicalTransfer(t: TransferEnc)
  {
    Value(t.token) < P && Value(t.amount) < P && Value(t.fee) < P
  }

  /** Reads a field back from its element; for a canonical field this is the field itself. */
  lemma FieldOfFeRoundTrip(f: Field)
    requires Value(f) < P
    ensures FieldOfFe(FeOfField(f)) == f
  {
    ValueInjective(FieldOfFe(FeOfField(f)), f);
  }

  /** Reads 32 key bytes back from their element. */
  lemma KeyOfFeRoundTrip(b: Bytes32)
    requires BeValue(b) < P
    ensures ToBytes(FieldOfFe(FeOfBytes(b))) == b
  {
    ValueInjective(FieldOfFe(FeOfBytes(b)), FromBytes(b));
  }

  /** Reads a byte back from its element (elements below 256 only). */
  function ByteOfFe(x: Fe): uint8
  {
    if x < 256 then x as uint8 else 0
  }

  function BytesOfFes(v: seq<Fe>): (b: seq<uint8>)
    ensures |b| == |v|
  {
    seq(|v|, i requires 0 <= i < |v| => ByteOfFe(v[i]))
  }

  function DecodeUtxo(v: seq<Fe>): UtxoEnc
    requires |v| == 10
  {
    UtxoEnc([FieldOfFe(v[0]), FieldOfFe(v[1]), FieldOfFe(v[2]), FieldOfFe(v[3])],
            [FieldOfFe(v[4]), FieldOfFe(v[5]), FieldOfFe(v[6]), FieldOfFe(v[7])],
            ToBytes(FieldOfFe(v[8])), FieldOfFe(v[9]))
  }

  function DecodeSchnorr(v: seq<Fe>): SchnorrEnc
    requires |v| == 98
  {
    SchnorrEnc(ToBytes(FieldOfFe(v[0])), ToBytes(FieldOfFe(v[1])), BytesOfFes(v[2..66]), BytesOfFes(v[66..98]))
  }

  function DecodeTransfer(v: seq<Fe>): TransferEnc
    requires |v| == 3
  {
    TransferEnc(FieldOfFe(v[0]), FieldOfFe(v[1]), FieldOfFe(v[2]))
  }

  /** A canonical UTXO block reads back as the UTXO encoded. */
  lemma UtxoRoundTrip(u: UtxoEnc)
    requires CanonicalUtxo(u)
    ensures DecodeUtxo(UtxoFes(u)) == u
  {
    var v := UtxoFes(u);
    forall i | 0 <= i < MAX_ASSETS
      ensures FieldOfFe(v[i]) == u.assetsTokens[i] && FieldOfFe(v[4 + i]) == u.assetsAmounts[i]
    {
      FieldOfFeRoundTrip(u.assetsTokens[i]);
      FieldOfFeRoundTrip(u.assetsAmounts[i]);
    }
    KeyOfFeRoundTrip(u.recipientPkX);
    FieldOfFeRoundTrip(u.salt);
    var d := DecodeUtxo(v);
    assert d.assetsTokens == u.assetsTokens;
    assert d.assetsAmounts == u.assetsAmounts;
  }

  /** A schnorr block with canonical keys reads back as the block encoded. */
  lemma SchnorrRoundTrip(s: SchnorrEnc)
    requires CanonicalSchnorr(s)
    ensures DecodeSchnorr(SchnorrFes(s)) == s
  {
    var v := SchnorrFes(s);
    KeyOfFeRoundTrip(s.pkX);
    KeyOfFeRoundTrip(s.pkY);
    assert v[2..66] == FesOfBytes(s.sig64);
    assert v[66..98] == FesOfBytes(s.msg32);
    assert BytesOfFes(FesOfBytes(s.sig64)) == s.sig64;
    assert BytesOfFes(FesOfBytes(s.msg32)) == s.msg32;
  }

  /** Reads the spend layout back. */
  function DecodeSpendPrivates(v: seq<Fe>): SpendInputEnc
    requires |v| == 131
  {
    SpendInputEnc(DecodeSchnorr(v[..98]), DecodeUtxo(v[98..108]), DecodeTransfer(v[108..111]),
                  DecodeUtxo(v[111..121]), DecodeUtxo(v[121..131]))
  }

  /** Reads the merge layout back. */
  function DecodeMergePrivates(v: seq<Fe>): MergeInputEnc
    requires |v| == 128
  {
    MergeInputEnc(DecodeSchnorr(v[..98]), DecodeUtxo(v[98..108]), DecodeUtxo(v[108..118]), DecodeUtxo(v[118..128]))
  }

  /**
   * The spend layout loses nothing: for canonical inputs, reading the 131
   * elements back at their fixed offsets gives the encoded inputs.
   */
  lemma SpendLayoutRoundTrip(enc: SpendInputEnc)
    requires CanonicalSchnorr(enc.schnorr) && CanonicalTransfer(enc.transfer)
    requires CanonicalUtxo(enc.in0) && CanonicalUtxo(enc.receiver) && CanonicalUtxo(enc.remainder)
    ensures DecodeSpendPrivates(SpendFes(enc)) == enc
  {
    var v := SpendFes(enc);
    assert v[..98] == SchnorrFes(enc.schnorr);
    assert v[98..108] == UtxoFes(enc.in0);
    assert v[108..111] == TransferFes(enc.transfer);
    assert v[111..121] == UtxoFes(enc.receiver);
    assert v[121..131] == UtxoFes(enc.remainder);
    SchnorrRoundTrip(enc.schnorr);
    UtxoRoundTrip(enc.in0);
    UtxoRoundTrip(enc.receiver);
    UtxoRoundTrip(enc.remainder);
    FieldOfFeRoundTrip(enc.transfer.token);
    FieldOfFeRoundTrip(enc.transfer.amount);
    FieldOfFeRoundTrip(enc.transfer.fee);
  }

  /** The merge layout loses nothing either. */
  lemma MergeLayoutRoundTrip(enc: MergeInputEnc)
    requires CanonicalSchnorr(enc.schnorr)
    requires CanonicalUtxo(enc.in0) && CanonicalUtxo(enc.in1) && CanonicalUtxo(enc.out)
    ensures DecodeMergePrivates(MergeFes(enc)) == enc
  {
    var v := MergeFes(enc);
    assert v[..98] == SchnorrFes(enc.schnorr);
    assert v[98..108] == UtxoFes(enc.in0);
    assert v[108..118] == UtxoFes(enc.in1);
    assert v[118..128] == UtxoFes(enc.out);
    SchnorrRoundTrip(enc.schnorr);
    UtxoRoundTrip(enc.in0);
    UtxoRoundTrip(enc.in1);
    UtxoRoundTrip(enc.out);
  }

  // ---------------------------------------------------------------- public inputs

  /** The chunks laid end to end. */
  function Concat(chunks: seq<Bytes32>): (b: seq<uint8>)
    ensures |b| == 32 * |chunks|
    decreases |chunks|
  {
    if chunks == [] then [] else Concat(chunks[..|chunks| - 1]) + chunks[|chunks| - 1]
  }

  /**
   * The chunking of `fetch_batch_public_inputs`: a raw length that is not a
   * multiple of 32 is an error; otherwise the raw bytes are cut into
   * consecutive 32-byte elements, which laid end to end give the raw bytes.
   */
  method ChunkPublicInputs(raw: seq<uint8>) returns (r: Result<seq<Bytes32>>)
    ensures r.Ok? <==> |raw| % 32 == 0
    ensures r.Err? ==> r.error == PublicInputsLength(|raw|)
    ensures r.Ok? ==> |r.value| == |raw| / 32 && Concat(r.value) == raw
    ensures r.Ok? ==> forall k :: 0 <= k < |r.value| ==> r.value[k] == raw[32 * k .. 32 * k + 32]
  {
    if |raw| % 32 != 0 {
      return Err(PublicInputsLength(|raw|));
    }
    var inputs: seq<Bytes32> := [];
    for k := 0 to |raw| / 32
      invariant |inputs| == k
      invariant Concat(inputs) == raw[..32 * k]
      invariant forall m :: 0 <= m < k ==> inputs[m] == raw[32 * m .. 32 * m + 32]
    {
      var elem: Bytes32 := raw[32 * k .. 32 * k + 32];
      assert raw[..32 * (k + 1)] == raw[..32 * k] + elem;
      inputs := inputs + [elem];
      assert inputs[..|inputs| - 1] == inputs[..k];
    }
    assert raw[..32 * (|raw| / 32)] == raw;
    r := Ok(inputs);
  }

  // ---------------------------------------------------------------- key ids

  /** A lowercase hex digit. */
  predicate IsHexDigit(c: char)
  {
    '0' <= c <= '9' || 'a' <= c <= 'f'
  }

  /** The lowercase hex digit of `n`. */
  function HexDigit(n: nat): (c: char)
    requires n < 16
    ensures IsHexDigit(c)
  {
    if n < 10 then (48 + n) as char else (87 + n) as char
  }

  /** The value of a lowercase hex digit. */
  function DigitValue(c: char): nat
  {
    if '0' <= c <= '9' then c as nat - 48
    else if 'a' <= c <= 'f' then c as nat - 87
    else 0
  }

  lemma HexDigitValue(n: nat)
    requires n < 16
    ensures DigitValue(HexDigit(n)) == n
  {
  }

  /** `{:02x}` of every byte of `id`, in order. */
  function KeyIdHex(id: seq<uint8>): (s: string)
    ensures |s| == 2 * |id|
    decreases |id|
  {
    if id == [] then [] else KeyIdHex(id[..|id| - 1]) + [HexDigit(id[|id| - 1] as nat / 16), HexDigit(id[|id| - 1] as nat % 16)]
  }

  /** Two hex digits per byte: the high digit at `2i`, the low one at `2i + 1`, all lowercase. */
  lemma {:induction false} KeyIdHexDigits(id: seq<uint8>)
    ensures forall i :: 0 <= i < |id| ==> KeyIdHex(id)[2 * i] == HexDigit(id[i] as nat / 16)
                                          && KeyIdHex(id)[2 * i + 1] == HexDigit(id[i] as nat % 16)
    ensures forall k :: 0 <= k < 2 * |id| ==> IsHexDigit(KeyIdHex(id)[k])
    decreases |id|
  {
    if id != [] {
      var init := id[..|id| - 1];
      KeyIdHexDigits(init);
      assert forall i :: 0 <= i < |init| ==> id[i] == init[i];
    }
  }

  /** The byte two hex digits spell, 0 when either is not a digit. */
  function PairByte(hi: char, lo: char): uint8
  {
    var h, l := DigitValue(hi), DigitValue(lo);
    if h < 16 && l < 16 then (16 * h + l) as uint8 else 0
  }

  /** Reads bytes back from pairs of hex digits. */
  function ParseHex(s: string): (b: seq<uint8>)
    requires |s| % 2 == 0
    ensures |b| == |s| / 2
    decreases |s|
  {
    if s == [] then [] else ParseHex(s[..|s| - 2]) + [PairByte(s[|s| - 2], s[|s| - 1])]
  }

  /** The two hex digits of a byte spell that byte. */
  lemma PairByteOfDigits(b: nat)
    requires b < 256
    ensures PairByte(HexDigit(b / 16), HexDigit(b % 16)) == b as uint8
  {
    HexDigitValue(b / 16);
    HexDigitValue(b % 16);
    ByteDigits(b);
  }

  /** Parsing one more pair of digits appends the byte they spell. */
  lemma ParseHexSnoc(t: string, hi: char, lo: char)
    requires |t| % 2 == 0
    ensures ParseHex(t + [hi, lo]) == ParseHex(t) + [PairByte(hi, lo)]
  {
    var s := t + [hi, lo];
    assert s[..|s| - 2] == t;
  }

  /** A byte is its two hex digits. */
  lemma ByteDigits(b: nat)
    requires b < 256
    ensures b / 16 < 16 && 16 * (b / 16) + b % 16 == b
  {
  }

  /** The hex form loses nothing: parsing it gives the key id back. */
  lemma {:induction false} KeyIdHexRoundTrip(id: seq<uint8>)
    ensures ParseHex(KeyIdHex(id)) == id
    decreases |id|
  {
    if id != [] {
      var init := id[..|id| - 1];
      KeyIdHexRoundTrip(init);
      var b := id[|id| - 1] as nat;
      ParseHexSnoc(KeyIdHex(init), HexDigit(b / 16), HexDigit(b % 16));
      PairByteOfDigits(b);
      assert id == init + [id[|id| - 1]];
    }
  }

  /** `format_key_id`: 64 lowercase hex digits, two per byte in order. */
  method FormatKeyId(id: Bytes32) returns (out: string)
    ensures out == KeyIdHex(id)
    ensures |out| == 64
  {
    out := [];
    for i := 0 to 32
      invariant out == KeyIdHex(id[..i])
    {
      var byte := id[i] as nat;
      out := out + [HexDigit(byte / 16), HexDigit(byte % 16)];
      assert id[..i + 1][..i] == id[..i];
    }
    assert id[..32] == id;
  }

  // ---------------------------------------------------------------- witness indices

  /** The order `sort_unstable` puts witness indices in. */
  function IndexLe(): (nat, nat) -> bool
  {
    (a: nat, b: nat) => a <= b
  }

  lemma IndexLeIsTotalPreorder()
    ensures TotalPreorder(IndexLe())
  {
  }

  /** The witness map after inserting `values[i]` at `keys[i]`, for each `i` in order. */
  function ZipInsert(keys: seq<nat>, values: seq<Fe>): map<nat, Fe>
    requires |values| <= |keys|
    decreases |values|
  {
    if values == [] then map[]
    else ZipInsert(keys, values[..|values| - 1])[keys[|values| - 1] := values[|values| - 1]]
  }

  /** The first `n + 1` keys are the first `n` and key `n`. */
  lemma KeysUpTo(keys: seq<nat>, n: nat)
    requires n < |keys|
    ensures (set i | 0 <= i < n + 1 :: keys[i]) == (set i | 0 <= i < n :: keys[i]) + {keys[n]}
  {
  }

  /**
   * With distinct indices, input `i` sits at the `i`-th index and nothing
   * else is set: the indices past the inputs stay unset.
   */
  lemma {:induction false} ZipInsertPlaces(keys: seq<nat>, values: seq<Fe>)
    requires |values| <= |keys|
    requires forall i, j :: 0 <= i < j < |keys| ==> keys[i] != keys[j]
    ensures ZipInsert(keys, values).Keys == set i | 0 <= i < |values| :: keys[i]
    ensures forall i :: 0 <= i < |values| ==> ZipInsert(keys, values)[keys[i]] == values[i]
    decreases |values|
  {
    if values != [] {
      ZipInsertPlaces(keys, values[..|values| - 1]);
      var n := |values| - 1;
      var before := ZipInsert(keys, values[..n]);
      var after := ZipInsert(keys, values);
      assert after == before[keys[n] := values[n]];
      KeysUpTo(keys, n);
      forall i | 0 <= i < n
        ensures after[keys[i]] == values[i]
      {
        assert keys[i] != keys[n];
        assert before[keys[i]] == values[..n][i];
      }
    }
  }

  /**
   * The input placement of `prove_with_priv_and_pub` (and `public_outputs`):
   * the witness indices are sorted, more inputs than indices is an error,
   * and input `i` goes to the `i`-th smallest index.
   */
  method AssignWitnesses(indices: seq<nat>, inputs: seq<Fe>) returns (r: Result<map<nat, Fe>>)
    ensures r.Err? <==> |inputs| > |indices|
    ensures r.Err? ==> r.error == TooManyInputs
    ensures r.Ok? ==> r.value == ZipInsert(SortBy(indices, IndexLe()), inputs)
  {
    var sorted := SortBy(indices, IndexLe());
    if |inputs| > |sorted| {
      return Err(TooManyInputs);
    }
    var initial: map<nat, Fe> := map[];
    for i := 0 to |inputs|
      invariant initial == ZipInsert(sorted, inputs[..i])
    {
      assert inputs[..i + 1][..i] == inputs[..i];
      initial := initial[sorted[i] := inputs[i]];
    }
    assert inputs[..|inputs|] == inputs;
    r := Ok(initial);
  }

  /**
   * With distinct witness indices, input `i` is placed at the index that has
   * exactly `i` smaller indices, and only the first `|inputs|` indices are set.
   */
  lemma AssignedInOrder(indices: seq<nat>, inputs: seq<Fe>)
    requires |inputs| <= |indices|
    requires forall i, j :: 0 <= i < j < |indices| ==> indices[i] != indices[j]
    ensures var sorted := SortBy(indices, IndexLe());
            && (forall i, j :: 0 <= i < j < |sorted| ==> sorted[i] < sorted[j])
            && multiset(sorted) == multiset(indices)
            && ZipInsert(sorted, inputs).Keys == (set i | 0 <= i < |inputs| :: sorted[i])
            && (forall i :: 0 <= i < |inputs| ==> ZipInsert(sorted, inputs)[sorted[i]] == inputs[i])
  {
    var sorted := SortBy(indices, IndexLe());
    IndexLeIsTotalPreorder();
    SortBySorted(indices, IndexLe());
    forall i, j | 0 <= i < j < |sorted|
      ensures sorted[i] < sorted[j]
    {
      assert IndexLe()(sorted[i], sorted[j]);
      DistinctAfterSort(indices, sorted, i, j);
    }
    ZipInsertPlaces(sorted, inputs);
  }

  /** A permutation of a sequence without repeats has no repeats. */
  lemma DistinctAfterSort(indices: seq<nat>, sorted: seq<nat>, i: nat, j: nat)
    requires forall a, b :: 0 <= a < b < |indices| ==> indices[a] != indices[b]
    requires multiset(sorted) == multiset(indices)
    requires i < j < |sorted|
    ensures sorted[i] != sorted[j]
  {
    if sorted[i] == sorted[j] {
      var x := sorted[i];
      assert multiset(sorted)[x] >= 2 by {
        assert sorted == sorted[..i] + [x] + sorted[i + 1..j] + [x] + sorted[j + 1..];
      }
      MultiplicityOfDistinct(indices, x);
      assert false;
    }
  }

  lemma {:induction false} MultiplicityOfDistinct(s: seq<nat>, x: nat)
    requires forall a, b :: 0 <= a < b < |s| ==> s[a] != s[b]
    ensures multiset(s)[x] <= 1
    decreases |s|
  {
    if s != [] {
      var init := s[..|s| - 1];
      MultiplicityOfDistinct(init, x);
      assert s == init + [s[|s| - 1]];
      if s[|s| - 1] == x {
        assert x !in init;
      }
    }
  }

  // ---------------------------------------------------------------- verifying keys by id

  /**
   * The backend calls the key-id dispatch makes: compiling a circuit
   * (which yields its key id), writing its verifying key, hashing a
   * verifying key, and reading the public inputs out of a proof.
   */
  datatype KeyBackend = KeyBackend(
    compile: seq<uint8> -> Result<Bytes32>,
    writeVk: seq<uint8> -> Result<seq<uint8>>,
    vkHash: seq<uint8> -> Result<Bytes32>,
    publicInputs: (seq<uint8>, seq<uint8>) -> Result<seq<uint8>>)

  /** The circuit registered under `n` has key id `id`. */
  predicate Matches(m: Entries, id: Bytes32, n: string)
  {
    n in m && m[n].keyId == id
  }

  /**
   * `get_circuit_by_key_id`: some registered circuit whose key id is `id`
   * (the first one in the map's iteration order), or nothing when no
   * circuit has that id.
   */
  method GetCircuitByKeyId(cat: Catalog, id: Bytes32) returns (r: Option<CircuitEntry>)
    ensures r.None? <==> forall n :: n in cat.entries ==> cat.entries[n].keyId != id
    ensures r.Some? ==> r.value.keyId == id && exists n :: Matches(cat.entries, id, n) && cat.entries[n] == r.value
  {
    var names := cat.AllLoaded();
    for i := 0 to |names|
      invariant forall j :: 0 <= j < i ==> cat.entries[names[j]].keyId != id
    {
      var entry := cat.Get(names[i]);
      if entry.Some? && entry.value.keyId == id {
        assert Matches(cat.entries, id, names[i]);
        return entry;
      }
    }
    forall n | n in cat.entries
      ensures cat.entries[n].keyId != id
    {
      var j :| 0 <= j < |names| && names[j] == n;
    }
    return None;
  }

  /**
   * `regenerate_vk(name)`: compiles the circuit again, writes and hashes its
   * verifying key, and records key, hash and key id; an unregistered name
   * or a failing backend call is an error and changes nothing.
   */
  function Regenerated(m: Entries, be: KeyBackend, name: string): (r: (Entries, Result<seq<uint8>>))
    ensures r.0.Keys == m.Keys
    ensures NamesMatch(m) ==> NamesMatch(r.0)
    ensures name !in m ==> r == (m, Err(CircuitNotInitialized))
    ensures r.1.Err? ==> r.0 == m
    ensures r.1.Ok? ==> name in m && be.compile(m[name].acir).Ok? && be.writeVk(m[name].acir) == Ok(r.1.value)
                        && be.vkHash(r.1.value).Ok?
    ensures r.1.Ok? ==> r.0[name].keyId == be.compile(m[name].acir).value
                        && r.0[name].vkHash == Some(be.vkHash(r.1.value).value)
                        && r.0[name].vk == (if r.1.value != [] then r.1.value else m[name].vk)
    ensures r.1.Ok? ==> forall n :: n in m && n != name ==> r.0[n] == m[n]
  {
    if name !in m then (m, Err(CircuitNotInitialized))
    else
      var acir := m[name].acir;
      match be.compile(acir)
      case Err(e) => (m, Err(e))
      case Ok(id) =>
        match be.writeVk(acir)
        case Err(e) => (m, Err(e))
        case Ok(vk) =>
          match be.vkHash(vk)
          case Err(e) => (m, Err(e))
          case Ok(h) => (WithVkMeta(m, name, vk, Some(h), Some(id)), Ok(vk))
  }

  /** `regenerate_vk` on the registry. */
  method RegenerateVk(cat: Catalog, be: KeyBackend, name: string) returns (r: Result<seq<uint8>>)
    modifies cat
    ensures (cat.entries, r) == Regenerated(old(cat.entries), be, name)
    ensures cat.vkEntries == old(cat.vkEntries)
  {
    var entry := cat.Get(name);
    if entry.None? {
      return Err(CircuitNotInitialized);
    }
    var acir := entry.value.acir;
    var id :- be.compile(acir);
    var vk :- be.writeVk(acir);
    var h :- be.vkHash(vk);
    cat.UpdateVkMeta(name, vk, Some(h), Some(id));
    return Ok(vk);
  }

  /**
   * `get_vk_bytes_by_id` once it has found circuit `e` with key id `id`: a
   * non-empty key is served as is; an empty one is regenerated, and the
   * regenerated circuit must still be registered and still carry `id`.
   */
  function ServeFromCircuit(m: Entries, be: KeyBackend, id: Bytes32, e: CircuitEntry): (r: (Entries, Result<seq<uint8>>))
    ensures r.0.Keys == m.Keys
    ensures e.vk != [] ==> r == (m, Ok(e.vk))
    ensures e.vk == [] && r.1.Ok? ==> e.name in r.0 && r.0[e.name].keyId == id
    ensures e.vk == [] ==> r.0 == Regenerated(m, be, e.name).0
  {
    if e.vk != [] then (m, Ok(e.vk))
    else
      var (m1, rv) := Regenerated(m, be, e.name);
      if rv.Err? then (m1, rv)
      else if e.name !in m1 then (m1, Err(MissingAfterRegeneration(e.name)))
      else if m1[e.name].keyId != id then (m1, Err(KeyIdChanged(e.name)))
      else (m1, rv)
  }

  /**
   * `get_vk_bytes_by_id` when no circuit has key id `id`: the id-only key
   * registered under `id`, which must not be empty, or an error naming the
   * id in hex.
   */
  function ServeFromVkEntry(vks: map<Bytes32, VkEntry>, id: Bytes32): (r: Result<seq<uint8>>)
    ensures r.Ok? <==> id in vks && vks[id].bytes != []
    ensures r.Ok? ==> r.value == vks[id].bytes
    ensures r.Err? ==> r.error == if id in vks then VkBytesMissing(KeyIdHex(id)) else UnknownVkId(KeyIdHex(id))
  {
    if id !in vks then Err(UnknownVkId(KeyIdHex(id)))
    else if vks[id].bytes == [] then Err(VkBytesMissing(KeyIdHex(id)))
    else Ok(vks[id].bytes)
  }

  /**
   * The outcomes `get_vk_bytes_by_id(id)` may have on registry `m` and
   * id-only keys `vks`, leaving the registry as `m2`: served from some
   * circuit with key id `id` when there is one, otherwise from the id-only
   * keys with the registry untouched.
   */
  ghost predicate VkBytesServed(m: Entries, vks: map<Bytes32, VkEntry>, be: KeyBackend, id: Bytes32,
                          m2: Entries, r: Result<seq<uint8>>)
  {
    if exists n :: Matches(m, id, n) then exists n :: Matches(m, id, n) && (m2, r) == ServeFromCircuit(m, be, id, m[n])
    else m2 == m && r == ServeFromVkEntry(vks, id)
  }

  /** `get_vk_bytes_by_id`. */
  method GetVkBytesById(cat: Catalog, be: KeyBackend, id: Bytes32) returns (r: Result<seq<uint8>>)
    modifies cat
    ensures VkBytesServed(old(cat.entries), old(cat.vkEntries), be, id, cat.entries, r)
    ensures cat.vkEntries == old(cat.vkEntries)
  {
    var found := GetCircuitByKeyId(cat, id);
    if found.Some? {
      var entry := found.value;
      ghost var n :| Matches(cat.entries, id, n) && cat.entries[n] == entry;
      if entry.vk == [] {
        var vk :- RegenerateVk(cat, be, entry.name);
        var refreshed := cat.Get(entry.name);
        if refreshed.None? {
          return Err(MissingAfterRegeneration(entry.name));
        }
        if refreshed.value.keyId != id {
          return Err(KeyIdChanged(entry.name));
        }
        return Ok(vk);
      }
      return Ok(entry.vk);
    }
    var vkEntry := cat.GetVkEntry(id);
    if vkEntry.Some? {
      if vkEntry.value.bytes == [] {
        var hex := FormatKeyId(id);
        return Err(VkBytesMissing(hex));
      }
      return Ok(vkEntry.value.bytes);
    }
    var hex := FormatKeyId(id);
    return Err(UnknownVkId(hex));
  }

  /**
   * A served key is cached: once circuit `n` has served a non-empty key,
   * serving `id` from the same circuit again returns the same bytes and
   * changes nothing, with no regeneration.
   */
  lemma ServeAgain(m: Entries, be: KeyBackend, id: Bytes32, n: string)
    requires NamesMatch(m) && Matches(m, id, n)
    requires ServeFromCircuit(m, be, id, m[n]).1.Ok? && ServeFromCircuit(m, be, id, m[n]).1.value != []
    ensures var (m1, r1) := ServeFromCircuit(m, be, id, m[n]);
            Matches(m1, id, n) && ServeFromCircuit(m1, be, id, m1[n]) == (m1, r1)
  {
    var (m1, r1) := ServeFromCircuit(m, be, id, m[n]);
    if m[n].vk == [] {
      assert m[n].name == n;
      var (m2, rv) := Regenerated(m, be, n);
      assert m2 == m1 && rv == r1;
      assert m1[n].vk == r1.value;
    }
  }

  /**
   * `get_vk_hash_by_id` when no circuit has key id `id`: a hash cached with
   * the id-only key is returned as is; otherwise the (non-empty) bytes are
   * hashed and the hash is stored with them.
   */
  function HashFromVkEntry(vks: map<Bytes32, VkEntry>, be: KeyBackend, id: Bytes32)
    : (r: (map<Bytes32, VkEntry>, Result<Bytes32>))
    ensures id !in vks ==> r == (vks, Err(UnknownVkId(KeyIdHex(id))))
    ensures id in vks && vks[id].hash.Some? ==> r == (vks, Ok(vks[id].hash.value))
    ensures r.1.Ok? ==> id in vks && id in r.0 && r.0[id] == VkEntry(vks[id].bytes, Some(r.1.value))
    ensures r.1.Ok? && vks[id].hash.None? ==> vks[id].bytes != [] && be.vkHash(vks[id].bytes) == r.1
    ensures r.1.Err? ==> r.0 == vks
    ensures forall k :: k in vks && k != id ==> k in r.0 && r.0[k] == vks[k]
  {
    if id !in vks then (vks, Err(UnknownVkId(KeyIdHex(id))))
    else
      var entry := vks[id];
      if entry.hash.Some? then (vks, Ok(entry.hash.value))
      else if entry.bytes == [] then (vks, Err(VkBytesMissing(KeyIdHex(id))))
      else
        match be.vkHash(entry.bytes)
        case Err(e) => (vks, Err(e))
        case Ok(h) => (vks[id := VkEntry(entry.bytes, Some(h))], Ok(h))
  }

  /** A hash `get_vk_hash_by_id` computed from an id-only key is served from the cache next time. */
  lemma HashFallbackCaches(vks: map<Bytes32, VkEntry>, be: KeyBackend, id: Bytes32)
    requires HashFromVkEntry(vks, be, id).1.Ok?
    ensures var (vks1, r1) := HashFromVkEntry(vks, be, id);
            HashFromVkEntry(vks1, be, id) == (vks1, r1)
  {
  }

  /**
   * The last step of `get_vk_hash_by_id` for circuit `name`: the bytes the
   * nested `get_vk_bytes_by_id` served (`rb`, on registry `m1`) are hashed,
   * and the hash is recorded for `name`.
   */
  predicate HashAfterBytes(m1: Entries, be: KeyBackend, name: string, rb: Result<seq<uint8>>, m2: Entries, r: Result<Bytes32>)
  {
    match rb
    case Err(e) => m2 == m1 && r == Err(e)
    case Ok(vk) =>
      match be.vkHash(vk)
      case Err(e) => m2 == m1 && r == Err(e)
      case Ok(h) => m2 == WithVkMeta(m1, name, vk, Some(h), None) && r == Ok(h)
  }

  /**
   * `get_vk_hash_by_id` once it has found circuit `e` with key id `id`: a
   * cached hash is returned without touching anything; otherwise the key is
   * fetched by id, hashed, and the hash recorded for `e`.
   */
  ghost predicate HashFromCircuit(m: Entries, vks: map<Bytes32, VkEntry>, be: KeyBackend, id: Bytes32, e: CircuitEntry,
                                  m2: Entries, vks2: map<Bytes32, VkEntry>, r: Result<Bytes32>)
  {
    if e.vkHash.Some? then m2 == m && vks2 == vks && r == Ok(e.vkHash.value)
    else vks2 == vks && exists m1, rb :: VkBytesServed(m, vks, be, id, m1, rb) && HashAfterBytes(m1, be, e.name, rb, m2, r)
  }

  /**
   * The outcomes `get_vk_hash_by_id(id)` may have: from some circuit with
   * key id `id` when there is one, otherwise from the id-only keys with the
   * registry untouched.
   */
  ghost predicate VkHashServed(m: Entries, vks: map<Bytes32, VkEntry>, be: KeyBackend, id: Bytes32,
                               m2: Entries, vks2: map<Bytes32, VkEntry>, r: Result<Bytes32>)
  {
    if exists n :: Matches(m, id, n) then exists n :: Matches(m, id, n) && HashFromCircuit(m, vks, be, id, m[n], m2, vks2, r)
    else m2 == m && (vks2, r) == HashFromVkEntry(vks, be, id)
  }

  /** `get_vk_hash_by_id`. */
  method GetVkHashById(cat: Catalog, be: KeyBackend, id: Bytes32) returns (r: Result<Bytes32>)
    modifies cat
    ensures VkHashServed(old(cat.entries), old(cat.vkEntries), be, id, cat.entries, cat.vkEntries, r)
  {
    var found := GetCircuitByKeyId(cat, id);
    if found.Some? {
      var entry := found.value;
      ghost var n :| Matches(cat.entries, id, n) && cat.entries[n] == entry;
      if entry.vkHash.Some? {
        return Ok(entry.vkHash.value);
      }
      var vkBytes :- GetVkBytesById(cat, be, id);
      var hash :- be.vkHash(vkBytes);
      cat.UpdateVkMeta(entry.name, vkBytes, Some(hash), None);
      return Ok(hash);
    }
    var vkEntry := cat.GetVkEntry(id);
    if vkEntry.Some? {
      if vkEntry.value.hash.Some? {
        return Ok(vkEntry.value.hash.value);
      }
      if vkEntry.value.bytes == [] {
        var hex := FormatKeyId(id);
        return Err(VkBytesMissing(hex));
      }
      var hash :- be.vkHash(vkEntry.value.bytes);
      cat.UpsertVkEntry(id, vkEntry.value.bytes, Some(hash));
      return Ok(hash);
    }
    var hex := FormatKeyId(id);
    return Err(UnknownVkId(hex));
  }

  /**
   * A hash served from circuit `n` is recorded there: `n` keeps key id
   * `id`, and asking circuit `n` again returns the same hash with nothing
   * changed.
   */
  lemma HashCachedAfterServe(m: Entries, vks: map<Bytes32, VkEntry>, be: KeyBackend, id: Bytes32, n: string,
                             m2: Entries, vks2: map<Bytes32, VkEntry>, h: Bytes32)
    requires NamesMatch(m) && Matches(m, id, n)
    requires HashFromCircuit(m, vks, be, id, m[n], m2, vks2, Ok(h))
    ensures Matches(m2, id, n) && m2[n].vkHash == Some(h)
    ensures HashFromCircuit(m2, vks2, be, id, m2[n], m2, vks2, Ok(h))
  {
    if m[n].vkHash.None? {
      var m1, rb :| VkBytesServed(m, vks, be, id, m1, rb) && HashAfterBytes(m1, be, m[n].name, rb, m2, Ok(h));
      var n2 :| Matches(m, id, n2) && (m1, rb) == ServeFromCircuit(m, be, id, m[n2]);
      assert rb.Ok?;
      ServedKeepsMatch(m, be, id, n, n2);
      assert m[n].name == n;
      assert m2 == WithVkMeta(m1, n, rb.value, Some(h), None);
    }
  }

  /** Serving a key from any circuit with key id `id` leaves every circuit with that id in place. */
  lemma ServedKeepsMatch(m: Entries, be: KeyBackend, id: Bytes32, n: string, n2: string)
    requires NamesMatch(m) && Matches(m, id, n) && Matches(m, id, n2)
    requires ServeFromCircuit(m, be, id, m[n2]).1.Ok?
    ensures Matches(ServeFromCircuit(m, be, id, m[n2]).0, id, n)
  {
    assert m[n2].name == n2;
  }

  /**
   * The outcomes of `fetch_batch_public_inputs` once the verifying key was
   * served as `rb`: the backend reads the raw public inputs out of the proof
   * with that key, and a raw length that is not a multiple of 32 is an
   * error; otherwise the 32-byte elements laid end to end are the raw bytes.
   */
  predicate FetchOutcome(be: KeyBackend, proof: seq<uint8>, rb: Result<seq<uint8>>, r: Result<seq<Bytes32>>)
  {
    match rb
    case Err(e) => r == Err(e)
    case Ok(vk) =>
      match be.publicInputs(proof, vk)
      case Err(e) => r == Err(e)
      case Ok(raw) =>
        if |raw| % 32 != 0 then r == Err(PublicInputsLength(|raw|))
        else r.Ok? && |r.value| == |raw| / 32 && Concat(r.value) == raw
  }

  /** `fetch_batch_public_inputs`. */
  method FetchBatchPublicInputs(cat: Catalog, be: KeyBackend, proof: seq<uint8>, id: Bytes32)
    returns (r: Result<seq<Bytes32>>)
    modifies cat
    ensures exists rb :: VkBytesServed(old(cat.entries), old(cat.vkEntries), be, id, cat.entries, rb) && FetchOutcome(be, proof, rb, r)
    ensures cat.vkEntries == old(cat.vkEntries)
  {
    var rb := GetVkBytesById(cat, be, id);
    if rb.Err? {
      return Err(rb.error);
    }
    var raw :- be.publicInputs(proof, rb.value);
    r := ChunkPublicInputs(raw);
  }
}
