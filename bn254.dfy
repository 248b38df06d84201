/**
 * The BN254 scalar `Field`: 32 big-endian bytes. Addition, subtraction and
 * comparison, which the crate obtains from the proving backend, are arithmetic
 * modulo the BN254 prime on the byte value reduced modulo that prime.
 */
module Bn254 {
  import opened Bytes
  import opened Wrappers

  /** 2^128: the bound of a `u128`. */
  const U128_LIMIT: nat := 340282366920938463463374607431768211456
  /** 2^256: the bound of a 32-byte big-endian value. */
  const U256_LIMIT: nat := 115792089237316195423570985008687907853269984665640564039457584007913129639936
  /** The BN254 scalar field prime. */
  const P: nat := 21888242871839275222246405745257275088548364400416034343698204186575808495617

  lemma Limits()
    ensures Pow256(16) == U128_LIMIT && Pow256(32) == U256_LIMIT
    ensures U128_LIMIT < P < U256_LIMIT
  {
    assert Pow256(1) == 256;
    assert Pow256(2) == 65536;
    assert Pow256(3) == 16777216;
    assert Pow256(4) == 4294967296;
    assert Pow256(5) == 1099511627776;
    assert Pow256(6) == 281474976710656;
    assert Pow256(7) == 72057594037927936;
    assert Pow256(8) == 18446744073709551616;
    assert Pow256(9) == 4722366482869645213696;
    assert Pow256(10) == 1208925819614629174706176;
    assert Pow256(11) == 309485009821345068724781056;
    assert Pow256(12) == 79228162514264337593543950336;
    assert Pow256(13) == 20282409603651670423947251286016;
    assert Pow256(14) == 5192296858534827628530496329220096;
    assert Pow256(15) == 1329227995784915872903807060280344576;
    assert Pow256(16) == 340282366920938463463374607431768211456;
    assert Pow256(17) == 87112285931760246646623899502532662132736;
    assert Pow256(18) == 22300745198530623141535718272648361505980416;
    assert Pow256(19) == 5708990770823839524233143877797980545530986496;
    assert Pow256(20) == 1461501637330902918203684832716283019655932542976;
    assert Pow256(21) == 374144419156711147060143317175368453031918731001856;
    assert Pow256(22) == 95780971304118053647396689196894323976171195136475136;
    assert Pow256(23) == 24519928653854221733733552434404946937899825954937634816;
    assert Pow256(24) == 6277101735386680763835789423207666416102355444464034512896;
    assert Pow256(25) == 1606938044258990275541962092341162602522202993782792835301376;
    assert Pow256(26) == 411376139330301510538742295639337626245683966408394965837152256;
    assert Pow256(27) == 105312291668557186697918027683670432318895095400549111254310977536;
    assert Pow256(28) == 26959946667150639794667015087019630673637144422540572481103610249216;
    assert Pow256(29) == 6901746346790563787434755862277025452451108972170386555162524223799296;
    assert Pow256(30) == 1766847064778384329583297500742918515827483896875618958121606201292619776;
    assert Pow256(31) == 452312848583266388373324160190187140051835877600158453279131187530910662656;
    assert Pow256(32) == 115792089237316195423570985008687907853269984665640564039457584007913129639936;
  }

  /** Equality of fields is equality of their byte arrays (derived `PartialEq`). */
  datatype Field = Field(bytes: Bytes32)

  /** The big-endian integer the 32 bytes spell. */
  function Value(f: Field): (v: nat)
    ensures v < U256_LIMIT
  {
    Limits();
    BeValueBound(f.bytes);
    BeValue(f.bytes)
  }

  /** The field element whose 32-byte big-endian encoding is `v`. */
  function FieldOfNat(v: nat): (f: Field)
    requires v < U256_LIMIT
    ensures Value(f) == v
  {
    Limits();
    BeValueOfBeBytes(v, 32);
    Field(BeBytes(v, 32))
  }

  /** `Field::from(u128)`: sixteen zero bytes, then `v.to_be_bytes()`. */
  function FromU128(v: nat): (f: Field)
    requires v < U128_LIMIT
    ensures Value(f) == v
  {
    FieldOfNat(v)
  }

  /** The byte layout of `Field::from(u128)`: the `u128`'s own sixteen bytes behind sixteen zero bytes. */
  lemma FromU128Bytes(v: nat)
    requires v < U128_LIMIT
    ensures Pow256(16) == U128_LIMIT
    ensures FromU128(v).bytes == Zeros(16) + BeBytes(v, 16)
  {
    Limits();
    BeBytesPadded(v, 16, 16);
  }

  /** `Field::zero()`: all 32 bytes zero. */
  function Zero(): (f: Field)
    ensures Value(f) == 0
  {
    BeBytesOfZero(32);
    BeValueOfBeBytes(0, 32);
    Field(Zeros(32))
  }

  /** `zero()` and `from(0u128)` are the same element. */
  lemma ZeroIsFromZero()
    ensures Zero() == FromU128(0)
  {
    ValueInjective(Zero(), FromU128(0));
  }

  /** `Field::one()`. */
  function One(): (f: Field)
    ensures Value(f) == 1 && f != Zero()
  {
    FromU128(1)
  }

  /** `Field::from_bytes` and `From<[u8; 32]>`. */
  function FromBytes(b: Bytes32): (f: Field)
  {
    Field(b)
  }

  /** `Field::to_bytes` and `From<Field> for [u8; 32]`. */
  function ToBytes(f: Field): (b: Bytes32)
  {
    f.bytes
  }

  /** `to_bytes(from_bytes(b)) == b` and `from_bytes(to_bytes(f)) == f`. */
  lemma BytesRoundTrip(b: Bytes32, f: Field)
    ensures ToBytes(FromBytes(b)) == b
    ensures FromBytes(ToBytes(f)) == f
  {
  }

  /** `Field::from` is injective on `u128`. */
  lemma FromU128Injective(v: nat, w: nat)
    requires v < U128_LIMIT && w < U128_LIMIT
    ensures FromU128(v) == FromU128(w) <==> v == w
  {
  }

  /** The canonical representative of a field element (its value reduced modulo p). */
  function Canon(f: Field): nat
  {
    Value(f) % P
  }

  /** `a + b` (`bb_fr_add`). */
  function Add(a: Field, b: Field): (r: Field)
    ensures Value(r) < P
    ensures Value(r) == Canon(a) + Canon(b) || Value(r) + P == Canon(a) + Canon(b)
  {
    FieldOfNat((Canon(a) + Canon(b)) % P)
  }

  /** `a - b` (`bb_fr_sub`). */
  function Sub(a: Field, b: Field): (r: Field)
    ensures Value(r) < P
    ensures Canon(a) >= Canon(b) ==> Value(r) == Canon(a) - Canon(b)
    ensures Canon(a) < Canon(b) ==> Value(r) == Canon(a) + P - Canon(b)
  {
    FieldOfNat((Canon(a) - Canon(b)) % P)
  }

  /** `a * b` (`bb_fr_mul`): a product below the prime is exact. */
  function Mul(a: Field, b: Field): (r: Field)
    ensures Value(r) < P
    ensures Canon(a) * Canon(b) < P ==> Value(r) == Canon(a) * Canon(b)
  {
    FieldOfNat((Canon(a) * Canon(b)) % P)
  }

  /** A field is determined by its value. */
  lemma ValueInjective(a: Field, b: Field)
    requires Value(a) == Value(b)
    ensures a == b
  {
    BeBytesOfBeValue(a.bytes);
    BeBytesOfBeValue(b.bytes);
  }

  /** Reduction leaves a value below the prime unchanged. */
  lemma CanonOfReduced(f: Field)
    requires Value(f) < P
    ensures Canon(f) == Value(f)
  {
  }

  /** Adding zero to a reduced element leaves it unchanged. */
  lemma AddZero(a: Field)
    requires Value(a) < P
    ensures Add(a, Zero()) == a
  {
    ValueInjective(Add(a, Zero()), a);
  }

  /** `a >= b` through `PartialOrd` (`bb_fr_cmp`). */
  predicate Ge(a: Field, b: Field)
  {
    Canon(a) >= Canon(b)
  }

  /**
   * `binprot_read` after the byte vector itself has been decoded: any length
   * other than 32 is an error, otherwise the bytes become the field.
   */
  function BinprotRead(v: seq<uint8>): (r: Result<Field>)
    ensures r.Ok? <==> |v| == 32
    ensures r.Ok? ==> ToBytes(r.value) == v
    ensures r.Err? ==> r.error == FieldLength(|v|)
  {
    if |v| != 32 then Err(FieldLength(|v|)) else Ok(FromBytes(v))
  }

  /** Reading back what `binprot_write` wrote (the 32 bytes) gives the same field. */
  lemma BinprotRoundTrip(f: Field)
    ensures BinprotRead(ToBytes(f)) == Ok(f)
  {
  }
}
