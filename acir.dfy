/**
 * The circuit side's field elements (`acir::FieldElement`) and the
 * conversions the transaction builder and the prover use to feed them.
 */
module Acir {
  import opened Bytes
  import opened Bn254

  /** An ACIR field element, by its value below the prime. */
  type Fe = x: nat | x < P

  /** The ABI map: one vector of field elements per dotted input path. */
  type AbiMap = map<string, seq<Fe>>

  /** `fe_from_field_bytes` (`FE::from_be_bytes_reduce`): the big-endian value reduced modulo the prime. */
  function FeOfBytes(b: Bytes32): (x: Fe)
    ensures BeValue(b) < P ==> x == BeValue(b)
  {
    Canon(FromBytes(b))
  }

  /** `fe_from_field`: the field's bytes read as an element. */
  function FeOfField(f: Field): (x: Fe)
    ensures x == FeOfBytes(ToBytes(f))
  {
    Canon(f)
  }

  /** `fe_from_u8` applied to every byte, in order. */
  function FesOfBytes(bs: seq<uint8>): (r: seq<Fe>)
    ensures |r| == |bs|
    ensures forall i :: 0 <= i < |bs| ==> r[i] == bs[i] as nat
  {
    seq(|bs|, i requires 0 <= i < |bs| => bs[i] as Fe)
  }

  /** `fe_from_field` applied to every field, in order. */
  function FesOfFields(fs: seq<Field>): (r: seq<Fe>)
    ensures |r| == |fs|
    ensures forall i :: 0 <= i < |fs| ==> r[i] == FeOfField(fs[i])
  {
    seq(|fs|, i requires 0 <= i < |fs| => FeOfField(fs[i]))
  }
}
