/** The typed values of a bytes message and their encodings. */
module TypedValues {
  import opened BigEndian

  type Int16 = v: int | -0x8000 <= v < 0x8000
  type Int32 = v: int | -0x8000_0000 <= v < 0x8000_0000
  type Int64 = v: int | -0x8000_0000_0000_0000 <= v < 0x8000_0000_0000_0000
  type UInt16 = v: int | 0 <= v < 0x1_0000
  type UInt32 = v: int | 0 <= v < 0x1_0000_0000
  type UInt64 = v: int | 0 <= v < 0x1_0000_0000_0000_0000

  /** A float or double is the bit pattern of its memory. */
  datatype Value =
    | Boolean(flag: bool)
    | Octet(octet: Byte)
    | Char(code: Byte)
    | Short(short: Int16)
    | UnsignedShort(ushort: UInt16)
    | Int(int32: Int32)
    | Long(int64: Int64)
    | Float(bits32: UInt32)
    | Double(bits64: UInt64)
    | Block(bytes: seq<Byte>)

  /** The typed reads; blocks are read by length. */
  datatype Kind = ABoolean | AnOctet | AChar | AShort | AnUnsignedShort | AnInt | ALong | AFloat | ADouble

  function Width(k: Kind): nat {
    match k
    case ABoolean => 1
    case AnOctet => 1
    case AChar => 1
    case AShort => 2
    case AnUnsignedShort => 2
    case AnInt => 4
    case ALong => 8
    case AFloat => 4
    case ADouble => 8
  }

  function KindOf(v: Value): Kind
    requires !v.Block?
  {
    match v
    case Boolean(_) => ABoolean
    case Octet(_) => AnOctet
    case Char(_) => AChar
    case Short(_) => AShort
    case UnsignedShort(_) => AnUnsignedShort
    case Int(_) => AnInt
    case Long(_) => ALong
    case Float(_) => AFloat
    case Double(_) => ADouble
  }

  function Encoding(v: Value): seq<Byte> {
    match v
    case Boolean(b) => [if b then 1 else 0]
    case Octet(n) => [n]
    case Char(c) => [c]
    case Short(n) => Encode(ToUnsigned(n, 2), 2)
    case UnsignedShort(n) => Encode(n, 2)
    case Int(n) => Encode(ToUnsigned(n, 4), 4)
    case Long(n) => Encode(ToUnsigned(n, 8), 8)
    case Float(n) => Encode(n, 4)
    case Double(n) => Encode(n, 8)
    case Block(bs) => bs
  }

  lemma Powers()
    ensures Pow256(1) == 0x100 && Pow256(2) == 0x1_0000
    ensures Pow256(4) == 0x1_0000_0000 && Pow256(8) == 0x1_0000_0000_0000_0000
  {
    assert Pow256(3) == 0x100_0000;
    assert Pow256(4) == 0x1_0000_0000;
    assert Pow256(5) == 0x100_0000_0000;
    assert Pow256(6) == 0x1_0000_0000_0000;
    assert Pow256(7) == 0x100_0000_0000_0000;
  }

  function UnsignedOf(bs: seq<Byte>): (n: nat)
    ensures n < Pow256(|bs|)
  {
    EncodeDecode(bs);
    Decode(bs)
  }

  function Decoding(k: Kind, bs: seq<Byte>): Value
    requires |bs| == Width(k)
  {
    Powers();
    var n := UnsignedOf(bs);
    match k
    case ABoolean => Boolean(bs[0] != 0)
    case AnOctet => Octet(bs[0])
    case AChar => Char(bs[0])
    case AShort => Short(ToSigned(n, 2))
    case AnUnsignedShort => UnsignedShort(n)
    case AnInt => Int(ToSigned(n, 4))
    case ALong => Long(ToSigned(n, 8))
    case AFloat => Float(n)
    case ADouble => Double(n)
  }

  lemma UnsignedRoundTrip(v: nat, w: nat)
    requires v < Pow256(w)
    ensures UnsignedOf(Encode(v, w)) == v
  {
    DecodeEncode(v, w);
    ModuloUnique(v, Pow256(w), 0, v);
  }

  /** Reading a value back with its own type gives it. */
  lemma ValueRoundTrip(v: Value)
    requires !v.Block?
    ensures |Encoding(v)| == Width(KindOf(v)) && Decoding(KindOf(v), Encoding(v)) == v
  {
    Powers();
    match v
    case Short(n) => SignedRoundTrip(n, 2); UnsignedRoundTrip(ToUnsigned(n, 2), 2);
    case Int(n) => SignedRoundTrip(n, 4); UnsignedRoundTrip(ToUnsigned(n, 4), 4);
    case Long(n) => SignedRoundTrip(n, 8); UnsignedRoundTrip(ToUnsigned(n, 8), 8);
    case UnsignedShort(n) => UnsignedRoundTrip(n, 2);
    case Float(n) => UnsignedRoundTrip(n, 4);
    case Double(n) => UnsignedRoundTrip(n, 8);
    case _ =>
  }

  /** A short read as an unsigned short is the short modulo 65536. */
  lemma ShortAsUnsigned(n: Int16)
    ensures Decoding(AnUnsignedShort, Encoding(Short(n))) == UnsignedShort(if n >= 0 then n else n + 0x1_0000)
  {
    Powers();
    UnsignedRoundTrip(ToUnsigned(n, 2), 2);
    ModuloUnique(n, 0x1_0000, if n >= 0 then 0 else -1, if n >= 0 then n else n + 0x1_0000);
  }

  /** Bytes that a typed read accepts are the encoding of what it returns; a boolean accepts any
      non-zero byte for true. */
  lemma BytesRoundTrip(k: Kind, bs: seq<Byte>)
    requires |bs| == Width(k) && (k.ABoolean? ==> bs[0] <= 1)
    ensures KindOf(Decoding(k, bs)) == k && Encoding(Decoding(k, bs)) == bs
  {
    Powers();
    EncodeDecode(bs);
    if k.AShort? || k.AnInt? || k.ALong? { UnsignedOfSigned(UnsignedOf(bs), |bs|); }
  }

  lemma UnsignedOfSigned(n: nat, w: nat)
    requires n < Pow256(w)
    ensures ToUnsigned(ToSigned(n, w), w) == n
  {
    var m: int := Pow256(w);
    ModuloUnique(ToSigned(n, w), m, if 2 * n < m then 0 else -1, n);
  }

  // ---- The bytes themselves ----

  /** A boolean is the byte 1 or 0, an octet and a char are their own byte. */
  lemma OneByteValues(n: Byte)
    ensures Encoding(Boolean(true)) == [1] && Encoding(Boolean(false)) == [0]
    ensures Encoding(Octet(n)) == [n] && Encoding(Char(n)) == [n]
  {
  }

  /** Any byte but 0 reads as true. */
  lemma OneByteReads(n: Byte)
    ensures Decoding(ABoolean, [n]) == Boolean(n != 0)
    ensures Decoding(AnOctet, [n]) == Octet(n) && Decoding(AChar, [n]) == Char(n)
  {
  }

  /** The number that a value of several bytes carries. */
  function Number(v: Value): int
    requires v.Short? || v.UnsignedShort? || v.Int? || v.Long? || v.Float? || v.Double?
  {
    match v
    case Short(n) => n
    case UnsignedShort(n) => n
    case Int(n) => n
    case Long(n) => n
    case Float(n) => n
    case Double(n) => n
  }

  /** Two bytes for the short ones, four for ints and floats, eight for longs and doubles, most
      significant byte first; a negative number counts as the number plus 256^width. */
  lemma ManyByteValues(v: Value, i: nat)
    requires v.Short? || v.UnsignedShort? || v.Int? || v.Long? || v.Float? || v.Double?
    requires i < |Encoding(v)|
    ensures |Encoding(v)| == if v.Short? || v.UnsignedShort? then 2 else if v.Int? || v.Float? then 4 else 8
    ensures var w := |Encoding(v)|;
            var n := if Number(v) < 0 then Number(v) + Pow256(w) else Number(v);
            Encoding(v)[i] == n / Pow256(w - 1 - i) % 256
  {
    Powers();
    var w := |Encoding(v)|;
    var n := if Number(v) < 0 then Number(v) + Pow256(w) else Number(v);
    ModuloUnique(Number(v), Pow256(w), if Number(v) < 0 then -1 else 0, n);
    ByteAt(n, w, i);
  }

  /** The widths, and the type a value is read back by. */
  lemma KindsSpelledOut(v: Value)
    ensures Width(ABoolean) == Width(AnOctet) == Width(AChar) == 1
    ensures Width(AShort) == Width(AnUnsignedShort) == 2 && Width(AnInt) == Width(AFloat) == 4
    ensures Width(ALong) == Width(ADouble) == 8
    ensures !v.Block? ==>
              match KindOf(v)
              case ABoolean => v.Boolean?
              case AnOctet => v.Octet?
              case AChar => v.Char?
              case AShort => v.Short?
              case AnUnsignedShort => v.UnsignedShort?
              case AnInt => v.Int?
              case ALong => v.Long?
              case AFloat => v.Float?
              case ADouble => v.Double?
  {
  }
}
