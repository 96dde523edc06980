/** Byte-level readers of the strict wire validator (clients/rxclcpp/src/wire.cpp):
    UTF-8 and base-128 varints. Bit masks and shifts are written as division and remainder. */
module WireBytes {
  import opened Base

  type byte = b: int | 0 <= b < 256
  type Bytes = seq<byte>

  // ---------------------------------------------------------------- UTF-8, section 4 of RFC 3629

  predicate Tail(b: byte) { 0x80 <= b <= 0xBF }

  /** UTF8-unit of the ABNF. */
  predicate IsChar(s: Bytes) {
    || (|s| == 1 && s[0] <= 0x7F)
    || (|s| == 2 && 0xC2 <= s[0] <= 0xDF && Tail(s[1]))
    || (|s| == 3 && s[0] == 0xE0 && 0xA0 <= s[1] <= 0xBF && Tail(s[2]))
    || (|s| == 3 && 0xE1 <= s[0] <= 0xEC && Tail(s[1]) && Tail(s[2]))
    || (|s| == 3 && s[0] == 0xED && 0x80 <= s[1] <= 0x9F && Tail(s[2]))
    || (|s| == 3 && 0xEE <= s[0] <= 0xEF && Tail(s[1]) && Tail(s[2]))
    || (|s| == 4 && s[0] == 0xF0 && 0x90 <= s[1] <= 0xBF && Tail(s[2]) && Tail(s[3]))
    || (|s| == 4 && 0xF1 <= s[0] <= 0xF3 && Tail(s[1]) && Tail(s[2]) && Tail(s[3]))
    || (|s| == 4 && s[0] == 0xF4 && 0x80 <= s[1] <= 0x8F && Tail(s[2]) && Tail(s[3]))
  }

  /** The leading byte fixes how many continuation bytes follow. */
  function Continuations(first: byte): Option<nat> {
    if first < 0x80 then Some(0)
    else if 0xC2 <= first <= 0xDF then Some(1)
    else if 0xE0 <= first <= 0xEF then Some(2)
    else if 0xF0 <= first <= 0xF4 then Some(3)
    else None
  }

  lemma CharLength(s: Bytes)
    requires IsChar(s)
    ensures Continuations(s[0]) == Some(|s| - 1)
    ensures forall k | 1 <= k < |s| :: Tail(s[k])
  {
  }

  /** `data` begins with a character. */
  predicate StartsWell(data: Bytes) {
    && data != []
    && var c := Continuations(data[0]);
       c.Some? && c.value < |data| && IsChar(data[..c.value + 1])
  }

  /** Characters one after the other, each found by its leading byte. */
  predicate WellFormed(data: Bytes)
    decreases |data|
  {
    data != [] ==> StartsWell(data) && WellFormed(data[Continuations(data[0]).value + 1..])
  }

  /** UTF8-octets of the ABNF: the bytes can be cut into any number of characters. */
  ghost predicate Octets(data: Bytes)
    decreases |data|
  {
    data == [] || exists n | 1 <= n <= |data| :: IsChar(data[..n]) && Octets(data[n..])
  }

  lemma {:induction false} WellFormedIsOctets(data: Bytes)
    ensures WellFormed(data) <==> Octets(data)
    decreases |data|
  {
    if data != [] {
      if Octets(data) {
        var n :| 1 <= n <= |data| && IsChar(data[..n]) && Octets(data[n..]);
        CharLength(data[..n]);
        assert data[..n][0] == data[0];
        WellFormedIsOctets(data[n..]);
      }
      if WellFormed(data) {
        var n := Continuations(data[0]).value + 1;
        WellFormedIsOctets(data[n..]);
        assert 1 <= n <= |data| && IsChar(data[..n]) && Octets(data[n..]);
      }
    }
  }

  lemma BadTail(data: Bytes, n: nat)
    requires data != [] && Continuations(data[0]).Some? && 1 <= n <= Continuations(data[0]).value < |data|
    requires !Tail(data[n])
    ensures !StartsWell(data)
  {
    var s := data[..Continuations(data[0]).value + 1];
    assert s[n] == data[n];
    if IsChar(s) { CharLength(s); }
  }

  /** Accumulated scalar value of a leading byte and its continuations. */
  function Scalar(first: nat, tail: Bytes): nat
    decreases |tail|
  {
    if tail == [] then first else Scalar(first, tail[..|tail| - 1]) * 64 + tail[|tail| - 1] % 64
  }

  function LeadBits(first: byte, count: nat): nat {
    if count == 1 then first % 32 else if count == 2 then first % 16 else first % 8
  }

  function Minimum(count: nat): nat {
    if count == 1 then 0x80 else if count == 2 then 0x800 else 0x10000
  }

  /** Shortest form, no surrogate and no value above U+10FFFF is the ABNF's second-byte table. */
  lemma ScalarRangeIsTheTable(s: Bytes, count: nat)
    requires 1 <= count <= 3 && |s| == count + 1 && Continuations(s[0]) == Some(count)
    requires forall k | 1 <= k <= count :: Tail(s[k])
    ensures var cp := Scalar(LeadBits(s[0], count), s[1..]);
      IsChar(s) <==> Minimum(count) <= cp <= 0x10FFFF && !(0xD800 <= cp <= 0xDFFF)
  {
    hide Scalar;
    var lead := LeadBits(s[0], count);
    assert Tail(s[1]);
    var one: nat := s[1] - 128;
    ScalarOfTails(s, count, lead);
    if count == 2 {
      assert Tail(s[2]);
      ThreeBytes(lead, one, s[2] - 128);
    } else if count == 3 {
      assert Tail(s[2]) && Tail(s[3]);
      FourBytes(lead, one, s[2] - 128, s[3] - 128);
    }
  }

  lemma ScalarOfTails(s: Bytes, count: nat, lead: nat)
    requires 1 <= count <= 3 && |s| == count + 1 && forall k | 1 <= k <= count :: Tail(s[k])
    ensures count == 1 ==> Scalar(lead, s[1..]) == lead * 64 + s[1] % 64
    ensures count == 2 ==> Scalar(lead, s[1..]) == lead * 4096 + (s[1] as nat) % 64 * 64 + s[2] % 64
    ensures count == 3 ==> Scalar(lead, s[1..]) == lead * 262144 + (s[1] as nat) % 64 * 4096 + (s[2] as nat) % 64 * 64 + s[3] % 64
  {
    hide Scalar;
    assert Tail(s[1]);
    ScalarOfTail(lead, s[1..], s[1]);
    if count == 1 {
      assert s[1..] == [s[1]];
    } else {
      assert Tail(s[2]);
      assert s[1..3] == [s[1]] + [s[2]];
      ScalarAppend(lead, [s[1]], s[2]);
      if count == 2 {
        assert s[1..] == s[1..3];
      } else {
        assert Tail(s[3]);
        assert s[1..] == s[1..3] + [s[3]];
        ScalarAppend(lead, s[1..3], s[3]);
      }
    }
  }

  lemma ThreeBytes(lead: nat, one: nat, two: nat)
    requires lead < 16 && one < 64 && two < 64
    ensures var cp := lead * 4096 + one * 64 + two;
      0x800 <= cp <= 0x10FFFF && !(0xD800 <= cp <= 0xDFFF) <==> (lead == 0 ==> one >= 32) && (lead == 13 ==> one < 32)
  {
  }

  lemma FourBytes(lead: nat, one: nat, two: nat, three: nat)
    requires lead <= 4 && one < 64 && two < 64 && three < 64
    ensures 0x10000 <= lead * 262144 + one * 4096 + two * 64 + three <= 0x10FFFF <==>
      (lead == 0 ==> one >= 16) && (lead == 4 ==> one < 16)
  {
  }

  lemma ScalarAppend(lead: nat, tail: Bytes, b: byte)
    requires Tail(b)
    ensures Scalar(lead, tail + [b]) == Scalar(lead, tail) * 64 + (b - 128)
  {
    assert (tail + [b])[..|tail|] == tail;
  }

  lemma ScalarOfTail(lead: nat, tail: Bytes, b: byte)
    requires tail != [] && tail[0] == b && Tail(b)
    ensures Scalar(lead, [b]) == lead * 64 + (b - 128)
  {
    assert [b] == [] + [b];
    ScalarAppend(lead, [], b);
  }

  predicate Tails(s: Bytes) {
    forall b | b in s :: Tail(b)
  }

  /** The continuation bytes of one character, folded into its scalar value. */
  method Continue(data: Bytes, start: nat, count: nat, lead: nat) returns (ok: bool, cp: nat)
    requires start + count <= |data|
    ensures ok <==> Tails(data[start..start + count])
    ensures ok ==> cp == Scalar(lead, data[start..start + count])
  {
    cp := lead;
    for n := 0 to count
      invariant cp == Scalar(lead, data[start..start + n])
      invariant Tails(data[start..start + n])
    {
      var next := data[start + n];
      assert data[start..start + n + 1] == data[start..start + n] + [next];
      if next / 64 != 2 {
        assert data[start..start + count][n] == next && next in data[start..start + count] && !Tail(next);
        return false, cp;
      }
      ScalarAppend(lead, data[start..start + n], next);
      cp := cp * 64 + (next as nat) % 64;
    }
    ok := true;
  }

  /** One character: its length when `data[i..]` begins with one. */
  method Character(data: Bytes, i: nat) returns (ok: bool, next: nat)
    requires i < |data|
    ensures ok <==> StartsWell(data[i..])
    ensures ok ==> next == i + 1 + Continuations(data[i]).value <= |data|
  {
    var first := data[i];
    next := i + 1;
    if first < 0x80 {
      return true, next;
    }
    var count: nat, lead: nat, minimum: nat;
    if 0xC2 <= first <= 0xDF { count, lead, minimum := 1, first % 32, 0x80; }
    else if 0xE0 <= first <= 0xEF { count, lead, minimum := 2, first % 16, 0x800; }
    else if 0xF0 <= first <= 0xF4 { count, lead, minimum := 3, first % 8, 0x10000; }
    else { return false, next; }
    if count > |data| - next {
      return false, next;
    }
    var tails, cp := Continue(data, next, count, lead);
    assert data[i..][1..count + 1] == data[next..next + count];
    Judge(data[i..], count);
    ok := tails && !(cp < minimum || cp > 0x10FFFF || 0xD800 <= cp <= 0xDFFF);
    next := next + count;
  }

  /** `utf8` accepts exactly the well-formed octet sequences. */
  method Utf8(data: Bytes) returns (ok: bool)
    ensures ok <==> Octets(data)
    ensures ok <==> WellFormed(data)
  {
    WellFormedIsOctets(data);
    var i := 0;
    while i < |data|
      invariant 0 <= i <= |data|
      invariant WellFormed(data) <==> WellFormed(data[i..])
    {
      var good, next := Character(data, i);
      if !good {
        return false;
      }
      assert data[i..][next - i..] == data[next..];
      i := next;
    }
    return true;
  }

  lemma Judge(data: Bytes, count: nat)
    requires 1 <= count <= 3 && count < |data| && Continuations(data[0]) == Some(count)
    ensures var cp := Scalar(LeadBits(data[0], count), data[1..count + 1]);
      StartsWell(data) <==>
        Tails(data[1..count + 1]) && Minimum(count) <= cp <= 0x10FFFF && !(0xD800 <= cp <= 0xDFFF)
  {
    var s := data[..count + 1];
    assert s[1..] == data[1..count + 1];
    if Tails(s[1..]) {
      forall k | 1 <= k <= count
        ensures Tail(s[k])
      {
        assert s[k] == s[1..][k - 1];
      }
      ScalarRangeIsTheTable(s, count);
    } else {
      var b :| b in s[1..] && !Tail(b);
      var k :| 0 <= k < count && s[1..][k] == b;
      BadTail(data, k + 1);
    }
  }

  // ---------------------------------------------------------------- varints

  /** The number written by base-128 digits, least significant first. */
  function Value(raw: Bytes): nat {
    if raw == [] then 0 else raw[0] % 128 + 128 * Value(raw[1..])
  }

  /** A 64-bit varint: at most ten digits, every one but the last marked, nothing above bit 63. */
  predicate IsVarint(raw: Bytes) {
    && 1 <= |raw| <= 10
    && (forall k | 0 <= k < |raw| - 1 :: raw[k] >= 128)
    && raw[|raw| - 1] < 128
    && (|raw| == 10 ==> raw[9] <= 1)
  }

  /** How many bytes of `b` form a varint, if its beginning is one. */
  function VarintEnd(b: Bytes, i: nat): (n: Option<nat>)
    ensures n.Some? ==> i < n.value <= |b|
    decreases 10 - i
  {
    if i >= 10 || i >= |b| || (i == 9 && b[9] > 1) then None
    else if b[i] < 128 then Some(i + 1)
    else VarintEnd(b, i + 1)
  }

  lemma {:induction false} VarintEndFinds(b: Bytes, i: nat, n: nat)
    requires i < 10 && i <= |b| && n <= |b| && (forall k | 0 <= k < i :: b[k] >= 128)
    ensures VarintEnd(b, i) == Some(n) <==> i < n && IsVarint(b[..n])
    decreases 10 - i
  {
    if i < |b| && !(i == 9 && b[9] > 1) && b[i] >= 128 {
      if i < 9 { VarintEndFinds(b, i + 1, n); }
      if n == i + 1 { assert b[..n][n - 1] == b[i]; }
    } else if i < |b| && i < n && IsVarint(b[..n]) {
      assert b[..n][i] == b[i];
      assert n == i + 1;
    }
  }

  /** Reading a varint from the front of `b`: exactly when some prefix is one. */
  lemma VarintExact(b: Bytes, n: nat)
    requires n <= |b|
    ensures VarintEnd(b, 0) == Some(n) <==> IsVarint(b[..n])
  {
    VarintEndFinds(b, 0, n);
  }

  lemma VarintEndIsPrefix(b: Bytes)
    ensures VarintEnd(b, 0).Some? ==> IsVarint(b[..VarintEnd(b, 0).value])
  {
    if VarintEnd(b, 0).Some? { VarintExact(b, VarintEnd(b, 0).value); }
  }

  function Power128(k: nat): nat {
    if k == 0 then 1 else 128 * Power128(k - 1)
  }

  lemma {:induction false} ValueAppend(raw: Bytes, b: byte)
    ensures Value(raw + [b]) == Value(raw) + b % 128 * Power128(|raw|)
  {
    if raw == [] {
      assert [b][1..] == [];
    } else {
      assert (raw + [b])[1..] == raw[1..] + [b];
      ValueAppend(raw[1..], b);
      calc {
        Value(raw + [b]);
        raw[0] % 128 + 128 * (Value(raw[1..]) + b % 128 * Power128(|raw| - 1));
        { assert 128 * (b % 128 * Power128(|raw| - 1)) == b % 128 * (128 * Power128(|raw| - 1)); }
        Value(raw) + b % 128 * Power128(|raw|);
      }
    }
  }

  /** The first value that no longer fits when `room` digits are left and the last holds one bit. */
  function Capacity(room: nat): nat
    requires room >= 1
  {
    if room == 1 then 2 else 128 * Capacity(room - 1)
  }

  lemma CapacityOfTen()
    ensures Capacity(10) == MAX_U64 + 1
  {
    assert Capacity(1) == 2;
    assert Capacity(2) == 256;
    assert Capacity(3) == 0x8000;
    assert Capacity(4) == 0x40_0000;
    assert Capacity(5) == 0x2000_0000;
    assert Capacity(6) == 0x10_0000_0000;
    assert Capacity(7) == 0x800_0000_0000;
    assert Capacity(8) == 0x4_0000_0000_0000;
    assert Capacity(9) == 0x200_0000_0000_0000;
  }

  lemma {:induction false} ValueFits(raw: Bytes, room: nat)
    requires 1 <= |raw| <= room && (|raw| == room ==> raw[room - 1] <= 1)
    ensures Value(raw) < Capacity(room)
    decreases room
  {
    if |raw| == 1 {
      assert raw[1..] == [];
      assert room > 1 ==> Capacity(room - 1) >= 1 by { if room > 1 { CapacityPositive(room - 1); } }
    } else {
      ValueFits(raw[1..], room - 1);
    }
  }

  lemma {:induction false} CapacityPositive(room: nat)
    requires room >= 1
    ensures Capacity(room) >= 2
  {
    if room > 1 { CapacityPositive(room - 1); }
  }

  /** Every varint the reader accepts is a 64-bit value. */
  lemma VarintIs64Bit(raw: Bytes)
    requires IsVarint(raw)
    ensures Value(raw) <= MAX_U64
  {
    ValueFits(raw, 10);
    CapacityOfTen();
  }

  /** The shortest encoding of a number. */
  function Encode(v: nat): Bytes {
    if v < 128 then [v] else [v % 128 + 128] + Encode(v / 128)
  }

  lemma {:induction false} EncodeFits(v: nat, room: nat)
    requires room >= 1 && v < Capacity(room)
    ensures 1 <= |Encode(v)| <= room && Value(Encode(v)) == v
    ensures IsMarked(Encode(v)) && (|Encode(v)| == room ==> Encode(v)[room - 1] <= 1)
  {
    if v < 128 {
      assert Encode(v)[1..] == [];
      assert Value(Encode(v)[1..]) == 0;
    } else {
      assert room > 1;
      FewerDigits(v, Capacity(room - 1));
      EncodeFits(v / 128, room - 1);
      MarkFirst(v % 128 + 128, Encode(v / 128));
      assert Encode(v)[1..] == Encode(v / 128);
    }
  }

  lemma FewerDigits(v: nat, capacity: nat)
    requires v < 128 * capacity
    ensures v / 128 < capacity && v == v % 128 + 128 * (v / 128)
  {
  }

  /** Every digit but the last carries the continuation mark. */
  predicate IsMarked(raw: Bytes) {
    && raw != []
    && (forall k | 0 <= k < |raw| - 1 :: raw[k] >= 128)
    && raw[|raw| - 1] < 128
  }

  lemma MarkFirst(first: byte, rest: Bytes)
    requires first >= 128 && IsMarked(rest)
    ensures IsMarked([first] + rest)
  {
  }

  /** `varint` inverts the base-128 encoding of every 64-bit value, whatever follows it. */
  lemma VarintInvertsEncode(v: U64, rest: Bytes)
    ensures VarintEnd(Encode(v) + rest, 0) == Some(|Encode(v)|)
    ensures Value((Encode(v) + rest)[..|Encode(v)|]) == v
  {
    CapacityOfTen();
    EncodeFits(v, 10);
    assert (Encode(v) + rest)[..|Encode(v)|] == Encode(v);
    VarintExact(Encode(v) + rest, |Encode(v)|);
  }

  /** The reader with its cursor: reads inside the buffer, at most ten bytes, and its loop always
      returns or fails inside the body. */
  method Varint(bytes: Bytes, start: nat) returns (value: nat, at: nat, ok: bool)
    requires start <= |bytes|
    ensures ok <==> VarintEnd(bytes[start..], 0).Some?
    ensures start <= at <= |bytes| && at <= start + 10
    ensures ok ==> VarintEnd(bytes[start..], 0) == Some(at - start)
    ensures ok ==> value == Value(bytes[start..at]) && value <= MAX_U64
  {
    at, value := start, 0;
    ghost var here := bytes[start..];
    var shift: nat, weight: nat := 0, 1;
    while shift <= 63
      invariant shift == 7 * (at - start) <= 63
      invariant start <= at <= |bytes|
      invariant weight == Power128(at - start) && value == Value(bytes[start..at])
      invariant VarintEnd(here, at - start) == VarintEnd(here, 0)
    {
      if at == |bytes| {
        return value, at, false;
      }
      var b := bytes[at];
      assert here[at - start] == b;
      at := at + 1;
      if shift == 63 && b > 1 {
        return value, at, false;
      }
      assert bytes[start..at] == bytes[start..at - 1] + [b];
      ValueAppend(bytes[start..at - 1], b);
      value := value + (b as nat) % 128 * weight;
      if b < 128 {
        Accepted(bytes, start, at);
        return value, at, true;
      }
      weight := weight * 128;
      shift := shift + 7;
    }
    assert false;
  }

  lemma Accepted(bytes: Bytes, start: nat, at: nat)
    requires start <= at <= |bytes| && VarintEnd(bytes[start..], 0) == Some(at - start)
    ensures Value(bytes[start..at]) <= MAX_U64
  {
    assert bytes[start..][..at - start] == bytes[start..at];
    VarintEndIsPrefix(bytes[start..]);
    VarintIs64Bit(bytes[start..at]);
  }
}
