/** Fixed-width big-endian integers, as the data streams write and read them. */
module BigEndian {
  type Byte = b: int | 0 <= b < 256

  function Pow256(w: nat): (p: nat)
    ensures p > 0
  {
    if w == 0 then 1 else 256 * Pow256(w - 1)
  }

  function Encode(v: nat, w: nat): (bs: seq<Byte>)
    ensures |bs| == w
  {
    if w == 0 then [] else Encode(v / 256, w - 1) + [v % 256]
  }

  function Decode(bs: seq<Byte>): nat {
    if bs == [] then 0 else 256 * Decode(bs[..|bs| - 1]) + bs[|bs| - 1]
  }

  lemma DivideFirst(v: nat, p: nat)
    requires p > 0
    ensures 256 * (v / 256 % p) + v % 256 == v % (256 * p)
  {
    var q, r := v / 256 / p, v / 256 % p;
    assert v / 256 == q * p + r;
    assert v == 256 * (q * p + r) + v % 256;
    assert 256 * (q * p) == q * (256 * p);
    assert 0 <= 256 * r + v % 256 < 256 * p;
    ModuloUnique(v, 256 * p, q, 256 * r + v % 256);
  }

  lemma ModuloUnique(v: int, m: int, q: int, r: int)
    requires m > 0 && v == q * m + r && 0 <= r < m
    ensures v % m == r && v / m == q
  {
    var k := v / m - q;
    assert v == (q + k) * m + v % m == q * m + k * m + v % m;
    assert k * m == r - v % m;
    assert k >= 1 ==> k * m >= m;
    assert k <= -1 ==> k * m <= -m;
  }

  /** What is read back is what was written, modulo what fits. */
  lemma {:induction false} DecodeEncode(v: nat, w: nat)
    ensures Decode(Encode(v, w)) == v % Pow256(w)
  {
    if w > 0 {
      var bs := Encode(v, w);
      assert bs[..|bs| - 1] == Encode(v / 256, w - 1);
      DecodeEncode(v / 256, w - 1);
      DivideFirst(v, Pow256(w - 1));
    }
  }

  lemma {:induction false} EncodeDecode(bs: seq<Byte>)
    ensures Decode(bs) < Pow256(|bs|) && Encode(Decode(bs), |bs|) == bs
  {
    if bs != [] {
      EncodeDecode(bs[..|bs| - 1]);
    }
  }

  /** The most significant byte comes first: byte `i` is the one that a shift by the bytes after
      it brings down. */
  lemma {:induction false} ByteAt(v: nat, w: nat, i: nat)
    requires i < w
    ensures Encode(v, w)[i] == v / Pow256(w - 1 - i) % 256
  {
    if i < w - 1 {
      ByteAt(v / 256, w - 1, i);
      DivideTwice(v, 256, Pow256(w - 2 - i));
    }
  }

  lemma DivideTwice(v: nat, a: nat, b: nat)
    requires a > 0 && b > 0
    ensures v / a / b == v / (a * b)
  {
    var q := v / a / b;
    var r := v / a % b;
    assert v / a == q * b + r;
    assert v == (q * b + r) * a + v % a;
    assert (q * b + r) * a == q * (a * b) + r * a;
    assert r * a <= (b - 1) * a;
    assert 0 <= r * a + v % a < a * b;
    ModuloUnique(v, a * b, q, r * a + v % a);
  }

  // ---- Two's complement ----

  function ToUnsigned(v: int, w: nat): nat {
    var m: int := Pow256(w);
    v % m
  }

  function ToSigned(u: nat, w: nat): int {
    if 2 * u < Pow256(w) then u else u - Pow256(w)
  }

  /** `v` is in the range of a signed integer of `w` bytes. */
  predicate FitsSigned(v: int, w: nat) {
    0 <= 2 * v + Pow256(w) && 2 * v < Pow256(w)
  }

  lemma SignedRoundTrip(v: int, w: nat)
    requires FitsSigned(v, w)
    ensures ToSigned(ToUnsigned(v, w), w) == v
  {
    var m: int := Pow256(w);
    ModuloUnique(v, m, if v >= 0 then 0 else -1, if v >= 0 then v else v + m);
  }
}
