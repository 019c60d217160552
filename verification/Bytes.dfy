/** Fixed-width integers, byte strings and the little- and big-endian integer encodings
    that every wire format of the bridge operator is built from. */
module Bytes {
  type u8 = x: int | 0 <= x < 0x100
  type u16 = x: int | 0 <= x < 0x1_0000
  type u32 = x: int | 0 <= x < 0x1_0000_0000
  type u64 = x: int | 0 <= x < 0x1_0000_0000_0000_0000

  type Hash20 = s: seq<u8> | |s| == 20 witness seq(20, _ => 0)
  type Hash32 = s: seq<u8> | |s| == 32 witness seq(32, _ => 0)
  type PubKey = s: seq<u8> | |s| == 33 witness seq(33, _ => 0)

  const U64_LIMIT := 0x1_0000_0000_0000_0000

  datatype Option<+T> = None | Some(value: T)

  /** The outcome of a fallible operation; error texts are not modelled. */
  datatype Result<+T> = Ok(value: T) | Err {
    predicate IsFailure() { Err? }
    function PropagateFailure<U>(): Result<U>
      requires Err?
    { Err }
    function Extract(): T
      requires Ok?
    { value }
  }

  /** A growable byte vector, as `Vec<u8>` is used by the serializers. */
  class ByteVec {
    var bytes: seq<u8>

    constructor ()
      ensures bytes == []
    { bytes := []; }

    method Push(b: u8)
      modifies this
      ensures bytes == old(bytes) + [b]
    { bytes := bytes + [b]; }

    method Extend(s: seq<u8>)
      modifies this
      ensures bytes == old(bytes) + s
    { bytes := bytes + s; }
  }

  function Pow256(n: nat): (p: nat)
    ensures p > 0
  { if n == 0 then 1 else 256 * Pow256(n - 1) }

  lemma PowValues()
    ensures Pow256(1) == 0x100 && Pow256(2) == 0x1_0000
    ensures Pow256(4) == 0x1_0000_0000 && Pow256(8) == U64_LIMIT
  {
    assert Pow256(1) == 256 && Pow256(2) == 256 * Pow256(1) && Pow256(3) == 256 * Pow256(2);
    assert Pow256(4) == 256 * Pow256(3) && Pow256(5) == 256 * Pow256(4) && Pow256(6) == 256 * Pow256(5);
    assert Pow256(7) == 256 * Pow256(6) && Pow256(8) == 256 * Pow256(7);
  }

  /** The low `n` bytes of `v`, least significant first (`(v as uN).to_le_bytes()`). */
  function LE(n: nat, v: nat): (s: seq<u8>)
    ensures |s| == n
  { if n == 0 then [] else [v % 256] + LE(n - 1, v / 256) }

  function FromLE(s: seq<u8>): nat
  { if s == [] then 0 else s[0] + 256 * FromLE(s[1..]) }

  function Reverse(s: seq<u8>): (r: seq<u8>)
    ensures |r| == |s|
    ensures forall k :: 0 <= k < |s| ==> r[k] == s[|s| - 1 - k]
  { seq(|s|, k requires 0 <= k < |s| => s[|s| - 1 - k]) }

  function BE(n: nat, v: nat): (s: seq<u8>)
    ensures |s| == n
  { Reverse(LE(n, v)) }

  function FromBE(s: seq<u8>): nat
  { FromLE(Reverse(s)) }

  lemma ReverseTwice(s: seq<u8>)
    ensures Reverse(Reverse(s)) == s
  {}

  lemma {:induction false} DecodeLE(n: nat, v: nat)
    requires v < Pow256(n)
    ensures FromLE(LE(n, v)) == v
  {
    if n > 0 {
      DecodeLE(n - 1, v / 256);
      assert LE(n, v)[1..] == LE(n - 1, v / 256);
    }
  }

  lemma {:induction false} EncodeLE(s: seq<u8>)
    ensures FromLE(s) < Pow256(|s|)
    ensures LE(|s|, FromLE(s)) == s
  {
    if s != [] {
      EncodeLE(s[1..]);
      assert FromLE(s) / 256 == FromLE(s[1..]) && FromLE(s) % 256 == s[0];
    }
  }

  lemma DecodeBE(n: nat, v: nat)
    requires v < Pow256(n)
    ensures FromBE(BE(n, v)) == v
  {
    ReverseTwice(LE(n, v));
    DecodeLE(n, v);
  }

  lemma EncodeBE(s: seq<u8>)
    ensures FromBE(s) < Pow256(|s|)
    ensures BE(|s|, FromBE(s)) == s
  {
    EncodeLE(Reverse(s));
    ReverseTwice(s);
  }

  lemma DivideTwice(v: nat, p: nat)
    requires p > 0
    ensures v / 256 / p == v / (256 * p)
  {
    var q, r := v / 256 / p, v / 256 % p;
    assert v / 256 == q * p + r;
    assert v == q * (256 * p) + (256 * r + v % 256);
    assert 256 * r + v % 256 < 256 * p;
    QuotientIs(v, 256 * p, q, 256 * r + v % 256);
  }

  lemma MultipleAtLeast(k: int, d: int)
    requires d > 0
    ensures k > 0 ==> k * d >= d
    ensures k < 0 ==> k * d <= -d
  {}

  lemma QuotientIs(v: int, d: int, q: int, r: int)
    requires 0 <= r < d && v == q * d + r
    ensures v / d == q
  {
    var k := v / d - q;
    assert v == (q + k) * d + v % d;
    assert (q + k) * d == q * d + k * d;
    MultipleAtLeast(k, d);
  }

  /** Byte `k` of a little-endian integer is its digit `k` to base 256. */
  lemma {:induction false} LEByte(n: nat, v: nat, k: nat)
    requires k < n
    ensures LE(n, v)[k] == v / Pow256(k) % 256
  {
    if k > 0 {
      LEByte(n - 1, v / 256, k - 1);
      DivideTwice(v, Pow256(k - 1));
    }
  }

  /** In a big-endian one the last byte is digit 0. */
  lemma BEByte(n: nat, v: nat, k: nat)
    requires k < n
    ensures BE(n, v)[k] == v / Pow256(n - 1 - k) % 256
  {
    LEByte(n, v, n - 1 - k);
  }

  /** `s` is `v` in big-endian order, written out by digits. */
  ghost predicate IsBE(s: seq<u8>, v: nat)
  { forall k :: 0 <= k < |s| ==> s[k] == v / Pow256(|s| - 1 - k) % 256 }

  ghost predicate IsLE(s: seq<u8>, v: nat)
  { forall k :: 0 <= k < |s| ==> s[k] == v / Pow256(k) % 256 }

  lemma BEIsBE(n: nat, v: nat)
    ensures IsBE(BE(n, v), v)
  {
    hide BE, Pow256;
    forall k | 0 <= k < n ensures BE(n, v)[k] == v / Pow256(n - 1 - k) % 256 { BEByte(n, v, k); }
  }

  lemma BEUnique(s: seq<u8>, v: nat)
    requires IsBE(s, v)
    ensures s == BE(|s|, v)
  {
    hide BE, Pow256;
    forall k | 0 <= k < |s| ensures s[k] == BE(|s|, v)[k] { BEByte(|s|, v, k); }
  }

  lemma FromBEIff(s: seq<u8>, v: nat)
    requires v < Pow256(|s|)
    ensures FromBE(s) == v <==> IsBE(s, v)
  {
    hide BE, FromBE, IsBE, Pow256;
    if FromBE(s) == v {
      EncodeBE(s);
      BEIsBE(|s|, v);
    }
    if IsBE(s, v) {
      BEUnique(s, v);
      DecodeBE(|s|, v);
    }
  }

  lemma LEIsLE(n: nat, v: nat)
    ensures IsLE(LE(n, v), v)
  {
    hide LE, Pow256;
    forall k | 0 <= k < n ensures LE(n, v)[k] == v / Pow256(k) % 256 { LEByte(n, v, k); }
  }

  lemma SliceOfSlice<T>(s: seq<T>, i: nat, j: nat, k: nat, l: nat)
    requires i <= j <= |s| && k <= l <= j - i
    ensures s[i..j][k..l] == s[i + k..i + l]
  {
    assert forall x :: 0 <= x < l - k ==> s[i..j][k..l][x] == s[i..j][k + x] == s[i + k + x];
  }

  /** Two concatenations that agree, with first parts of equal length, agree part by part. */
  lemma SplitEqual<T>(a: seq<T>, x: seq<T>, b: seq<T>, y: seq<T>)
    requires |a| == |b|
    requires a + x == b + y
    ensures a == b && x == y
  {
    assert a == (a + x)[..|a|] && b == (b + y)[..|b|];
    assert x == (a + x)[|a|..] && y == (b + y)[|b|..];
  }

  lemma LEInjective(n: nat, v: nat, w: nat)
    requires v < Pow256(n) && w < Pow256(n)
    requires LE(n, v) == LE(n, w)
    ensures v == w
  {
    DecodeLE(n, v);
    DecodeLE(n, w);
  }

  lemma BEInjective(n: nat, v: nat, w: nat)
    requires v < Pow256(n) && w < Pow256(n)
    requires BE(n, v) == BE(n, w)
    ensures v == w
  {
    DecodeBE(n, v);
    DecodeBE(n, w);
  }
}
