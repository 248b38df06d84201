/** Bytes, big-endian integers and the lexicographic order Rust gives byte arrays. */
module Bytes {

  type uint8 = x: int | 0 <= x < 256

  /** A `[u8; 32]`. */
  type Bytes32 = s: seq<uint8> | |s| == 32 witness Zeros(32)

  /** `Ordering` of Rust's `Ord::cmp`. */
  datatype Ordering = Less | Equal | Greater

  function Pow256(n: nat): (r: nat)
    ensures r >= 1
  {
    if n == 0 then 1 else 256 * Pow256(n - 1)
  }

  function Zeros(n: nat): (r: seq<uint8>)
    ensures |r| == n
    ensures forall i :: 0 <= i < n ==> r[i] == 0
  {
    seq(n, _ => 0)
  }

  /** The unsigned integer whose big-endian encoding is `s`. */
  function BeValue(s: seq<uint8>): nat
  {
    if s == [] then 0 else BeValue(s[..|s| - 1]) * 256 + s[|s| - 1]
  }

  /** The `n`-byte big-endian encoding of `v` (Rust's `to_be_bytes` for an `n`-byte integer). */
  function BeBytes(v: nat, n: nat): (s: seq<uint8>)
    requires v < Pow256(n)
    ensures |s| == n
  {
    if n == 0 then [] else BeBytes(v / 256, n - 1) + [v % 256]
  }

  lemma {:induction false} BeValueBound(s: seq<uint8>)
    ensures BeValue(s) < Pow256(|s|)
  {
    if s != [] {
      var init := s[..|s| - 1];
      BeValueBound(init);
      assert BeValue(init) + 1 <= Pow256(|init|);
      assert (BeValue(init) + 1) * 256 <= Pow256(|init|) * 256;
    }
  }

  /** Decoding an encoding gives back the integer. */
  lemma {:induction false} BeValueOfBeBytes(v: nat, n: nat)
    requires v < Pow256(n)
    ensures BeValue(BeBytes(v, n)) == v
  {
    if n > 0 {
      var s := BeBytes(v, n);
      assert s[..|s| - 1] == BeBytes(v / 256, n - 1);
      BeValueOfBeBytes(v / 256, n - 1);
    }
  }

  /** Encoding a decoded byte string gives back the bytes. */
  lemma {:induction false} BeBytesOfBeValue(s: seq<uint8>)
    ensures BeValue(s) < Pow256(|s|)
    ensures BeBytes(BeValue(s), |s|) == s
  {
    BeValueBound(s);
    if s != [] {
      var init := s[..|s| - 1];
      BeBytesOfBeValue(init);
      var v := BeValue(s);
      assert v / 256 == BeValue(init) && v % 256 == s[|s| - 1];
      assert s == init + [s[|s| - 1]];
    }
  }

  /** Big-endian encoding is injective on integers of the same width. */
  lemma BeBytesInjective(v: nat, w: nat, n: nat)
    requires v < Pow256(n) && w < Pow256(n)
    requires BeBytes(v, n) == BeBytes(w, n)
    ensures v == w
  {
    BeValueOfBeBytes(v, n);
    BeValueOfBeBytes(w, n);
  }

  /** Widening an encoding prepends zero bytes. */
  lemma {:induction false} BeBytesPadded(v: nat, m: nat, n: nat)
    requires v < Pow256(n)
    ensures Pow256(n) <= Pow256(m + n)
    ensures BeBytes(v, m + n) == Zeros(m) + BeBytes(v, n)
  {
    PowMonotone(n, m + n);
    if n == 0 {
      BeBytesOfZero(m);
    } else {
      BeBytesPadded(v / 256, m, n - 1);
    }
  }

  lemma {:induction false} BeBytesOfZero(m: nat)
    ensures BeBytes(0, m) == Zeros(m)
  {
    if m > 0 {
      BeBytesOfZero(m - 1);
    }
  }

  lemma {:induction false} PowMonotone(a: nat, b: nat)
    requires a <= b
    ensures Pow256(a) <= Pow256(b)
  {
    if a < b {
      PowMonotone(a, b - 1);
    }
  }

  /** The leading byte carries weight 256^(n-1). */
  lemma {:induction false} BeValueFront(s: seq<uint8>)
    requires s != []
    ensures BeValue(s) == s[0] * Pow256(|s| - 1) + BeValue(s[1..])
  {
    if |s| > 1 {
      var init, tail := s[..|s| - 1], s[1..];
      BeValueFront(init);
      assert init[1..] == tail[..|tail| - 1];
      assert init[0] == s[0] && tail[|tail| - 1] == s[|s| - 1];
      ShiftedDigit(s[0], Pow256(|s| - 2), BeValue(init[1..]), s[|s| - 1]);
    }
  }

  /** Shifting `a * w + b` up one byte and appending `c`, as plain arithmetic. */
  lemma ShiftedDigit(a: int, w: int, b: int, c: int)
    ensures (a * w + b) * 256 + c == a * (256 * w) + (b * 256 + c)
  {
  }

  /** Lexicographic comparison of byte strings, as `Ord` for `[u8; N]` and `&[u8]`. */
  function Compare(a: seq<uint8>, b: seq<uint8>): Ordering
  {
    if a == [] && b == [] then Equal
    else if a == [] then Less
    else if b == [] then Greater
    else if a[0] < b[0] then Less
    else if a[0] > b[0] then Greater
    else Compare(a[1..], b[1..])
  }

  lemma {:induction false} CompareEqual(a: seq<uint8>, b: seq<uint8>)
    ensures Compare(a, b) == Equal <==> a == b
  {
    if a != [] && b != [] && a[0] == b[0] {
      CompareEqual(a[1..], b[1..]);
      assert a == [a[0]] + a[1..] && b == [b[0]] + b[1..];
    }
  }

  lemma {:induction false} CompareFlip(a: seq<uint8>, b: seq<uint8>)
    ensures Compare(a, b) == Less <==> Compare(b, a) == Greater
  {
    if a != [] && b != [] && a[0] == b[0] {
      CompareFlip(a[1..], b[1..]);
    }
  }

  lemma {:induction false} CompareTransitive(a: seq<uint8>, b: seq<uint8>, c: seq<uint8>)
    requires Compare(a, b) == Less && Compare(b, c) == Less
    ensures Compare(a, c) == Less
  {
    if a != [] && b != [] && c != [] && a[0] == b[0] && b[0] == c[0] {
      CompareTransitive(a[1..], b[1..], c[1..]);
    }
  }

  /** A smaller leading byte makes a smaller integer, whatever follows. */
  lemma LeadingByteDecides(a: seq<uint8>, b: seq<uint8>)
    requires |a| == |b| && a != [] && a[0] < b[0]
    ensures BeValue(a) < BeValue(b)
  {
    BeValueFront(a);
    BeValueFront(b);
    BeValueBound(a[1..]);
    WeightedDigits(a[0], b[0], Pow256(|a| - 1), BeValue(a[1..]), BeValue(b[1..]));
  }

  lemma WeightedDigits(x: nat, y: nat, k: nat, r: nat, t: nat)
    requires x < y && r < k
    ensures x * k + r < y * k + t
  {
    MulMonotone(x + 1, y, k);
    assert (x + 1) * k == x * k + k;
  }

  lemma {:induction false} MulMonotone(a: nat, b: nat, k: nat)
    requires a <= b
    ensures a * k <= b * k
  {
    if a < b {
      MulMonotone(a, b - 1, k);
      assert b * k == (b - 1) * k + k;
    }
  }

  /**
   * On byte strings of one width, lexicographic order is the order of the
   * big-endian integers they encode.
   */
  lemma {:induction false} CompareIsNumeric(a: seq<uint8>, b: seq<uint8>)
    requires |a| == |b|
    ensures Compare(a, b) == Less <==> BeValue(a) < BeValue(b)
    ensures Compare(a, b) == Equal <==> BeValue(a) == BeValue(b)
  {
    CompareEqual(a, b);
    if a == [] {
      assert b == [];
    } else if a[0] < b[0] {
      LeadingByteDecides(a, b);
    } else if a[0] > b[0] {
      LeadingByteDecides(b, a);
    } else {
      CompareIsNumeric(a[1..], b[1..]);
      BeValueFront(a);
      BeValueFront(b);
      if BeValue(a) == BeValue(b) {
        BeBytesOfBeValue(a);
        BeBytesOfBeValue(b);
      }
    }
  }
}
