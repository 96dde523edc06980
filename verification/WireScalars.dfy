/** What the scalars of each field kind are, as numbers and texts (clients/rxclcpp/src/wire.cpp, `scalar`). */
module WireScalars {
  import opened Base
  import opened WireBytes
  import opened Wire

  /** The number that a word of bytes stands for, least significant byte first. */
  function LittleEndian(raw: Bytes): nat {
    if raw == [] then 0 else raw[0] + 256 * LittleEndian(raw[1..])
  }

  /** The ZigZag code of a signed number. */
  function ZigZag(i: int): nat {
    if i >= 0 then 2 * i else -2 * i - 1
  }

  /** An IEEE 754 word is finite unless all bits of its exponent are set: 11 bits above 52, or 8 bits above 23. */
  ghost predicate FiniteDouble(raw: Bytes) {
    LittleEndian(raw) / 0x10_0000_0000_0000 % 2048 != 2047
  }

  ghost predicate FiniteFloat(raw: Bytes) {
    LittleEndian(raw) / 0x80_0000 % 256 != 255
  }

  /** A length and that many bytes. */
  ghost predicate IsChunk(raw: Bytes, payload: Bytes) {
    exists prefix :: raw == prefix + payload && IsVarint(prefix) && Value(prefix) == |payload|
  }

  /** The values of a kind, by their encoding. */
  ghost predicate IsValue(kind: Kind, raw: Bytes) {
    match kind
    case Double => |raw| == 8 && FiniteDouble(raw)
    case Fixed64 => |raw| == 8
    case SFixed64 => |raw| == 8
    case Float => |raw| == 4 && FiniteFloat(raw)
    case Fixed32 => |raw| == 4
    case SFixed32 => |raw| == 4
    case Text => exists payload :: IsChunk(raw, payload) && Octets(payload)
    case Blob => exists payload :: IsChunk(raw, payload)
    case Message(_) => exists payload :: IsChunk(raw, payload)
    case Group => false
    case Boolean => IsVarint(raw) && (Value(raw) == 0 || Value(raw) == 1)
    case UInt32 => IsVarint(raw) && Value(raw) < 0x1_0000_0000
    case SInt32 => IsVarint(raw) && exists i: int :: -0x8000_0000 <= i < 0x8000_0000 && Value(raw) == ZigZag(i)
    case Enumeration(values) => IsVarint(raw) && 0 < Value(raw) < 0x8000_0000 && Value(raw) in values
    case Int32 => IsVarint(raw)
    case Int64 => IsVarint(raw)
    case UInt64 => IsVarint(raw)
    case SInt64 => IsVarint(raw)
  }

  /** The validator's scalars are exactly the encodings of values of the field's kind. */
  lemma ScalarsAreValues(kind: Kind, raw: Bytes)
    ensures IsScalar(kind, raw) <==> IsValue(kind, raw)
  {
    hide IsVarint, Value, WellFormed, Octets, VarintEnd;
    match kind
    case Double => if |raw| == 8 { DoubleBits(raw); }
    case Float => if |raw| == 4 { FloatBits(raw); }
    case Text => ChunksAreDelimited(kind, raw);
    case Blob => ChunksAreDelimited(kind, raw);
    case Message(_) => ChunksAreDelimited(kind, raw);
    case SInt32 => ZigZagCovers(Value(raw));
    case _ =>
  }

  /** A key opens a known field: its number is in the key above the three bits of the wire type, and the field is neither
      a map nor a group. */
  lemma KeysOpenFields(d: Descriptor, key: nat, f: Field)
    ensures Lookup(d, key, {}, {}) == Some(f) <==>
      exists number | number in d.fields ::
        8 * number <= key < 8 * number + 8 && 1 <= number < 0x8000_0000
        && d.fields[number] == f && !f.isMap && f.kind != Group
  {
    var number := key / 8;
    assert 8 * number <= key < 8 * number + 8;
    forall n | n in d.fields && 8 * n <= key < 8 * n + 8
      ensures n == number
    {
    }
  }

  /** ZigZag takes the signed 32-bit numbers onto the unsigned ones. */
  lemma ZigZagCovers(v: nat)
    ensures v < 0x1_0000_0000 <==> exists i: int :: -0x8000_0000 <= i < 0x8000_0000 && v == ZigZag(i)
  {
    var i := if v % 2 == 0 then v / 2 else -(v / 2) - 1;
    assert v == ZigZag(i);
  }

  lemma ChunksAreDelimited(kind: Kind, raw: Bytes)
    requires kind.Text? || kind.Blob? || kind.Message?
    ensures IsScalar(kind, raw) <==> exists payload :: IsChunk(raw, payload) && (kind.Text? ==> Octets(payload))
  {
    hide IsVarint, Value, WellFormed, Octets, VarintEnd;
    if IsScalar(kind, raw) {
      var n := VarintEnd(raw, 0).value;
      assert raw == raw[..n] + raw[n..];
      WellFormedIsOctets(raw[n..]);
      assert IsChunk(raw, raw[n..]);
    }
    if payload :| IsChunk(raw, payload) && (kind.Text? ==> Octets(payload)) {
      var prefix :| raw == prefix + payload && IsVarint(prefix) && Value(prefix) == |payload|;
      assert raw[..|prefix|] == prefix && raw[|prefix|..] == payload;
      VarintExact(raw, |prefix|);
      WellFormedIsOctets(payload);
    }
  }

  lemma DoubleBits(raw: Bytes)
    requires |raw| == 8
    ensures FixedAllowed(Double, raw) <==> FiniteDouble(raw)
  {
    var low := LittleEndian(raw[..6]);
    LowBytes(raw, 6);
    assert raw[6..] == [raw[6]] + [raw[7]];
    WordOfTwo(raw[6], raw[7]);
    assert Power256(6) == 0x1_0000_0000_0000;
    HighBits(low, raw[6], raw[7]);
  }

  lemma FloatBits(raw: Bytes)
    requires |raw| == 4
    ensures FixedAllowed(Float, raw) <==> FiniteFloat(raw)
  {
    var low := LittleEndian(raw[..2]);
    LowBytes(raw, 2);
    assert raw[2..] == [raw[2]] + [raw[3]];
    WordOfTwo(raw[2], raw[3]);
    assert Power256(2) == 0x1_0000;
    HighFloatBits(low, raw[2], raw[3]);
  }

  function Power256(k: nat): nat {
    if k == 0 then 1 else 256 * Power256(k - 1)
  }

  lemma {:induction false} LowBytes(raw: Bytes, k: nat)
    requires k <= |raw|
    ensures LittleEndian(raw[..k]) < Power256(k)
    ensures LittleEndian(raw) == LittleEndian(raw[..k]) + Power256(k) * LittleEndian(raw[k..])
  {
    if k == 0 {
      assert raw[..0] == [] && raw[0..] == raw;
    } else {
      LowBytes(raw[1..], k - 1);
      assert raw[..k][1..] == raw[1..][..k - 1] && raw[k..] == raw[1..][k - 1..];
      Regroup(raw[0], LittleEndian(raw[1..][..k - 1]), Power256(k - 1), LittleEndian(raw[k..]));
    }
  }

  lemma Regroup(first: nat, low: nat, power: nat, high: nat)
    ensures first + 256 * (low + power * high) == (first + 256 * low) + (256 * power) * high
  {
  }

  lemma WordOfTwo(a: byte, b: byte)
    ensures LittleEndian([a] + [b]) == a + 256 * (b as nat)
  {
    assert ([a] + [b])[1..] == [b] && [b][1..] == [];
    assert LittleEndian([b]) == b;
  }

  lemma HighBits(low: nat, a: byte, b: byte)
    requires low < 0x1_0000_0000_0000
    ensures (low + 0x1_0000_0000_0000 * (a + 256 * (b as nat))) / 0x10_0000_0000_0000 % 2048 == (b as nat) % 128 * 16 + a / 16
  {
    var n := low + 0x1_0000_0000_0000 * (a + 256 * (b as nat));
    var q := 16 * (b as nat) + a / 16;
    assert a == 16 * (a / 16) + a % 16;
    assert n == 0x10_0000_0000_0000 * q + (0x1_0000_0000_0000 * (a % 16) + low);
    assert n / 0x10_0000_0000_0000 == q;
  }

  lemma HighFloatBits(low: nat, a: byte, b: byte)
    requires low < 0x1_0000
    ensures (low + 0x1_0000 * (a + 256 * (b as nat))) / 0x80_0000 % 256 == (b as nat) % 128 * 2 + a / 128
  {
    var n := low + 0x1_0000 * (a + 256 * (b as nat));
    var q := 2 * (b as nat) + a / 128;
    assert a == 128 * (a / 128) + a % 128;
    assert n == 0x80_0000 * q + (0x1_0000 * (a % 128) + low);
    assert n / 0x80_0000 == q;
  }
}
