/** The strict wire validator: a schema-directed recursive scanner with depth and work limits
    (clients/rxclcpp/src/wire.cpp, `scalar`, `scan`, `validate`). */
module Wire {
  import opened Base
  import opened WireBytes

  datatype Kind =
    | Double | Fixed64 | SFixed64
    | Text | Blob | Message(type_: nat)
    | Float | Fixed32 | SFixed32
    | Group
    | Boolean | UInt32 | SInt32 | Int32 | Int64 | UInt64 | SInt64 | Enumeration(values: set<nat>)

  datatype Field = Field(kind: Kind, repeated: bool, isMap: bool, oneof: Option<nat>)

  /** A message type: its fields by number, and for each oneof whether it is synthetic. */
  datatype Descriptor = Descriptor(fields: map<nat, Field>, synthetic: seq<bool>)

  type Schema = seq<Descriptor>

  /** What linking a descriptor pool guarantees: every message reference resolves. */
  predicate Linked(schema: Schema) {
    forall d | d in schema :: forall n | n in d.fields ::
      d.fields[n].kind.Message? ==> d.fields[n].kind.type_ < |schema|
  }

  datatype Code = InvalidArgument | ResourceExhausted

  const INT32_MAX: nat := 0x7FFF_FFFF
  const UINT32_MAX: nat := 0xFFFF_FFFF
  const MAX_DEPTH: nat := 64
  const MAX_MESSAGE: nat := 1_048_576
  const MAX_WORK: nat := 65_536

  function WireType(kind: Kind): Option<nat> {
    match kind
    case Double => Some(1) case Fixed64 => Some(1) case SFixed64 => Some(1)
    case Text => Some(2) case Blob => Some(2) case Message(_) => Some(2)
    case Float => Some(5) case Fixed32 => Some(5) case SFixed32 => Some(5)
    case Group => None
    case _ => Some(0)
  }

  // ---------------------------------------------------------------- scalars

  predicate VarintAllowed(kind: Kind, v: nat) {
    match kind
    case Boolean => v <= 1
    case UInt32 => v <= UINT32_MAX
    case SInt32 => v <= UINT32_MAX
    case Enumeration(values) => v != 0 && v <= INT32_MAX && v in values
    case _ => true
  }

  /** An IEEE 754 value is finite unless its exponent bits are all ones. */
  predicate FixedAllowed(kind: Kind, raw: Bytes) {
    && (kind.Double? ==> |raw| == 8 && (raw[7] as nat) % 128 * 16 + raw[6] / 16 != 2047)
    && (kind.Float? ==> |raw| == 4 && (raw[3] as nat) % 128 * 2 + raw[2] / 128 != 255)
  }

  /** `raw` is exactly one length prefix and that many bytes. */
  predicate Delimits(prefix: Bytes, length: nat) {
    IsVarint(prefix) && Value(prefix) == length
  }

  predicate IsDelimited(kind: Kind, raw: Bytes, n: nat)
    requires n <= |raw|
  {
    Delimits(raw[..n], |raw| - n) && (kind.Text? ==> WellFormed(raw[n..]))
  }

  /** The byte strings that are one value of a scalar kind. */
  predicate IsScalar(kind: Kind, raw: Bytes) {
    match WireType(kind)
    case Some(0) => IsVarint(raw) && VarintAllowed(kind, Value(raw))
    case Some(1) => |raw| == 8 && FixedAllowed(kind, raw)
    case Some(5) => |raw| == 4 && FixedAllowed(kind, raw)
    case Some(2) => VarintEnd(raw, 0).Some? && IsDelimited(kind, raw, VarintEnd(raw, 0).value)
    case _ => false
  }

  /** Payload bounds of a length-delimited value at the front of `b`. */
  function Delimited(b: Bytes): (d: Option<(nat, nat)>)
    ensures d.Some? ==> 0 < d.value.0 <= d.value.1 <= |b|
  {
    var n := VarintEnd(b, 0);
    if n.None? then None
    else if Value(b[..n.value]) > |b| - n.value then None
    else Some((n.value, n.value + Value(b[..n.value])))
  }

  /** How many bytes a scalar of this kind takes at the front of `b`. */
  function ScalarEnd(kind: Kind, b: Bytes): (n: Option<nat>)
    ensures n.Some? ==> 0 < n.value <= |b|
  {
    match WireType(kind)
    case Some(0) =>
      var n := VarintEnd(b, 0);
      if n.Some? && VarintAllowed(kind, Value(b[..n.value])) then n else None
    case Some(1) => if |b| >= 8 && FixedAllowed(kind, b[..8]) then Some(8) else None
    case Some(5) => if |b| >= 4 && FixedAllowed(kind, b[..4]) then Some(4) else None
    case Some(2) =>
      var d := Delimited(b);
      if d.Some? && (kind.Text? ==> WellFormed(b[d.value.0..d.value.1])) then Some(d.value.1) else None
    case _ => None
  }

  lemma DelimitedExact(b: Bytes, n: nat, m: nat)
    requires n <= m <= |b|
    ensures Delimited(b) == Some((n, m)) <==> Delimits(b[..n], m - n)
  {
    VarintEndIsPrefix(b);
    VarintExact(b, n);
  }

  lemma DelimitedScalarExact(kind: Kind, b: Bytes, n: nat)
    requires n <= |b| && WireType(kind) == Some(2)
    ensures ScalarEnd(kind, b) == Some(n) <==> IsScalar(kind, b[..n])
  {
    if ScalarEnd(kind, b) == Some(n) {
      var p := Delimited(b).value.0;
      assert b[..n][..p] == b[..p] && b[..n][p..] == b[p..n];
      DelimitedExact(b, p, n);
      VarintExact(b[..n], p);
    }
    if IsScalar(kind, b[..n]) {
      var p := VarintEnd(b[..n], 0).value;
      assert b[..n][..p] == b[..p] && b[..n][p..] == b[p..n];
      DelimitedExact(b, p, n);
    }
  }

  /** Reading a scalar is exact: it consumes `n` bytes precisely when the first `n` bytes are one. */
  lemma ScalarExact(kind: Kind, b: Bytes, n: nat)
    requires n <= |b|
    ensures ScalarEnd(kind, b) == Some(n) <==> IsScalar(kind, b[..n])
  {
    match WireType(kind)
    case Some(0) => VarintExact(b, n);
    case Some(2) => DelimitedScalarExact(kind, b, n);
    case _ =>
  }

  // ---------------------------------------------------------------- the scanner

  function Scan(schema: Schema, d: nat, b: Bytes, depth: nat, budget: nat): (r: Result<nat, Code>)
    requires Linked(schema) && d < |schema|
    ensures r.Ok? ==> r.value <= budget
    decreases |b|, 1
  {
    if depth >= MAX_DEPTH then Err(InvalidArgument) else ScanFields(schema, d, b, depth, budget, {}, {})
  }

  /** The packed values in `b`, each of them charged to the budget. */
  function ScanPacked(kind: Kind, b: Bytes, budget: nat): (r: Result<nat, Code>)
    ensures r.Ok? ==> r.value <= budget
    decreases |b|
  {
    if b == [] then Ok(budget)
    else if budget == 0 then Err(ResourceExhausted) else
    var n := ScalarEnd(kind, b);
    if n.None? then Err(InvalidArgument)
    else ScanPacked(kind, b[n.value..], budget - 1)
  }

  function Tag(key: nat): nat { key / 8 }

  /** The field a key may start here, given what has been seen before. */
  function Lookup(d: Descriptor, key: nat, seen: set<nat>, groups: set<nat>): Option<Field> {
    var tag := Tag(key);
    if tag == 0 || tag > INT32_MAX || tag !in d.fields then None else
    var f := d.fields[tag];
    if f.isMap || (!f.repeated && tag in seen) || (f.oneof.Some? && f.oneof.value in groups) || f.kind.Group?
    then None else Some(f)
  }

  lemma LookupLinked(schema: Schema, d: nat, key: nat, seen: set<nat>, groups: set<nat>)
    requires Linked(schema) && d < |schema| && Lookup(schema[d], key, seen, groups).Some?
    ensures var kind := Lookup(schema[d], key, seen, groups).value.kind;
      kind.Message? ==> kind.type_ < |schema|
  {
    assert schema[d] in schema;
  }

  function SeenWith(f: Field, tag: nat, seen: set<nat>): set<nat> {
    if f.repeated then seen else seen + {tag}
  }

  function GroupsWith(f: Field, groups: set<nat>): set<nat> {
    if f.oneof.Some? then groups + {f.oneof.value} else groups
  }

  predicate OneofsPresent(d: Descriptor, groups: set<nat>) {
    forall g | 0 <= g < |d.synthetic| :: !d.synthetic[g] ==> g in groups
  }

  function ScanFields(
      schema: Schema, d: nat, b: Bytes, depth: nat, budget: nat, seen: set<nat>, groups: set<nat>): (r: Result<nat, Code>)
    requires Linked(schema) && d < |schema|
    ensures r.Ok? ==> r.value <= budget
    decreases |b|, 0
  {
    if b == [] then
      if OneofsPresent(schema[d], groups) then Ok(budget) else Err(InvalidArgument)
    else if budget == 0 then Err(ResourceExhausted) else
    var n := VarintEnd(b, 0);
    if n.None? then Err(InvalidArgument) else
    var key, rest := Value(b[..n.value]), b[n.value..];
    var found := Lookup(schema[d], key, seen, groups);
    if found.None? then Err(InvalidArgument) else
    var f := found.value;
    var taken := ScanValue(schema, f, key % 8, rest, depth, budget - 1);
    if taken.Err? then Err(taken.error) else
    ScanFields(schema, d, rest[taken.value.0..], depth, taken.value.1,
               SeenWith(f, Tag(key), seen), GroupsWith(f, groups))
  }

  /** One field's value at the front of `rest`: its length and the budget left. */
  function ScanValue(
      schema: Schema, f: Field, wire: nat, rest: Bytes, depth: nat, budget: nat): (r: Result<(nat, nat), Code>)
    requires Linked(schema) && (f.kind.Message? ==> f.kind.type_ < |schema|)
    ensures r.Ok? ==> r.value.0 <= |rest| && r.value.1 <= budget
    decreases |rest|, 2
  {
    var expected := WireType(f.kind);
    if f.repeated && expected != Some(2) && wire == 2 then
      var d := Delimited(rest);
      if d.None? then Err(InvalidArgument) else
      var left := ScanPacked(f.kind, rest[d.value.0..d.value.1], budget);
      if left.Err? then Err(left.error) else Ok((d.value.1, left.value))
    else if expected != Some(wire) then Err(InvalidArgument)
    else if f.kind.Message? then
      var d := Delimited(rest);
      if d.None? then Err(InvalidArgument) else
      var left := Scan(schema, f.kind.type_, rest[d.value.0..d.value.1], depth + 1, budget);
      if left.Err? then Err(left.error) else Ok((d.value.1, left.value))
    else
      var n := ScalarEnd(f.kind, rest);
      if n.None? then Err(InvalidArgument) else Ok((n.value, budget))
  }

  /** One turn of the scanner's loop on bytes that start with a key. */
  lemma ScanOne(schema: Schema, d: nat, key: Bytes, rest: Bytes, depth: nat, budget: nat,
                seen: set<nat>, groups: set<nat>, f: Field, taken: Result<(nat, nat), Code>)
    requires Linked(schema) && d < |schema| && IsVarint(key)
    requires Lookup(schema[d], Value(key), seen, groups) == Some(f)
    requires if budget == 0 then taken == Err(ResourceExhausted)
             else taken == ScanValue(schema, f, Value(key) % 8, rest, depth, budget - 1)
    ensures taken.Err? ==>
      ScanFields(schema, d, key + rest, depth, budget, seen, groups) == Err(taken.error)
    ensures taken.Ok? ==>
      ScanFields(schema, d, key + rest, depth, budget, seen, groups) ==
      ScanFields(schema, d, rest[taken.value.0..], depth, taken.value.1,
                 SeenWith(f, Tag(Value(key)), seen), GroupsWith(f, groups))
  {
    var b := key + rest;
    assert b[..|key|] == key && b[|key|..] == rest;
    VarintExact(b, |key|);
  }

  lemma ScanEnds(schema: Schema, d: nat, depth: nat, budget: nat, seen: set<nat>, groups: set<nat>)
    requires Linked(schema) && d < |schema|
    ensures ScanFields(schema, d, [], depth, budget, seen, groups) ==
      if OneofsPresent(schema[d], groups) then Ok(budget) else Err(InvalidArgument)
  {
  }

  /** The ways in which the loop stops before a value. */
  lemma ScanStops(schema: Schema, d: nat, b: Bytes, depth: nat, budget: nat, seen: set<nat>, groups: set<nat>)
    requires Linked(schema) && d < |schema| && b != []
    ensures var n, scanned := VarintEnd(b, 0), ScanFields(schema, d, b, depth, budget, seen, groups);
      && (budget == 0 ==> scanned == Err(ResourceExhausted))
      && (budget > 0 && (n.None? || Lookup(schema[d], Value(b[..n.value]), seen, groups).None?) ==> scanned == Err(InvalidArgument))
  {
    hide ScanValue, Lookup, Value, VarintEnd;
  }

  lemma Slice(bytes: Bytes, start: nat, from: nat, to: nat)
    requires start <= from <= to <= |bytes|
    ensures bytes[start..][from - start..to - start] == bytes[from..to]
    ensures bytes[start..][..to - start] == bytes[start..to]
    ensures bytes[start..][from - start..] == bytes[from..]
  {
  }

  // ---------------------------------------------------------------- the scanner as it runs: one cursor, one budget

  /** `length_delimited`: the bounds of a payload, inside the buffer. */
  method TakeDelimited(bytes: Bytes, start: nat) returns (from: nat, to: nat, ok: bool)
    requires start <= |bytes|
    ensures ok <==> Delimited(bytes[start..]).Some?
    ensures ok ==> start <= from <= to <= |bytes| && Delimited(bytes[start..]) == Some((from - start, to - start))
  {
    var length;
    length, from, ok := Varint(bytes, start);
    to := from;
    if !ok { return; }
    Slice(bytes, start, start, from);
    if length > |bytes| - from {
      return from, from, false;
    }
    to := from + length;
  }

  method TakeScalar(kind: Kind, bytes: Bytes, start: nat) returns (at: nat, ok: bool)
    requires start <= |bytes|
    ensures ok <==> ScalarEnd(kind, bytes[start..]).Some?
    ensures ok ==> start < at <= |bytes| && ScalarEnd(kind, bytes[start..]) == Some(at - start)
  {
    hide WellFormed, Delimited, VarintEnd, IsVarint, Value, VarintAllowed, FixedAllowed;
    at := start;
    match WireType(kind)
    case Some(0) =>
      var v;
      v, at, ok := Varint(bytes, start);
      if !ok { return; }
      Slice(bytes, start, start, at);
      ok := VarintAllowed(kind, v);
    case Some(1) =>
      if |bytes| - start < 8 { return at, false; }
      at := start + 8;
      Slice(bytes, start, start, at);
      ok := FixedAllowed(kind, bytes[start..at]);
    case Some(5) =>
      if |bytes| - start < 4 { return at, false; }
      at := start + 4;
      Slice(bytes, start, start, at);
      ok := FixedAllowed(kind, bytes[start..at]);
    case Some(2) =>
      var from;
      from, at, ok := TakeDelimited(bytes, start);
      if !ok { return; }
      Slice(bytes, start, from, at);
      if kind.Text? {
        ok := Utf8(bytes[from..at]);
      }
    case _ =>
      ok := false;
  }

  method TakePacked(kind: Kind, packed: Bytes, work: nat) returns (r: Result<nat, Code>)
    ensures r == ScanPacked(kind, packed, work)
  {
    hide ScalarEnd, WellFormed;
    var budget := work;
    var pos := 0;
    while pos < |packed|
      invariant 0 <= pos <= |packed|
      invariant ScanPacked(kind, packed[pos..], budget) == ScanPacked(kind, packed, work)
    {
      if budget == 0 {
        return Err(ResourceExhausted);
      }
      budget := budget - 1;
      var next, ok := TakeScalar(kind, packed, pos);
      if !ok {
        return Err(InvalidArgument);
      }
      Slice(packed, pos, next, |packed|);
      pos := next;
    }
    return Ok(budget);
  }

  /** One field's value at the cursor. */
  method TakeValue(schema: Schema, f: Field, wire: nat, bytes: Bytes, start: nat, depth: nat, work: nat)
    returns (at: nat, r: Result<nat, Code>)
    requires Linked(schema) && start <= |bytes| && (f.kind.Message? ==> f.kind.type_ < |schema|)
    ensures var spec := ScanValue(schema, f, wire, bytes[start..], depth, work);
      if r.Ok? then start <= at <= |bytes| && spec == Ok((at - start, r.value)) else spec == Err(r.error)
    decreases |bytes| - start, 2
  {
    hide WellFormed, Linked, Scan, ScanFields, ScanPacked, ScalarEnd, Delimited, WireType;
    at := start;
    var expected := WireType(f.kind);
    if f.repeated && expected != Some(2) && wire == 2 {
      var from, to, ok := TakeDelimited(bytes, start);
      if !ok { return at, Err(InvalidArgument); }
      Slice(bytes, start, from, to);
      r := TakePacked(f.kind, bytes[from..to], work);
      at := to;
    } else if expected != Some(wire) {
      r := Err(InvalidArgument);
    } else if f.kind.Message? {
      var from, to, ok := TakeDelimited(bytes, start);
      if !ok { return at, Err(InvalidArgument); }
      Slice(bytes, start, from, to);
      r := ScanMessage(schema, f.kind.type_, bytes[from..to], depth + 1, work);
      at := to;
    } else {
      var ok;
      at, ok := TakeScalar(f.kind, bytes, start);
      r := if ok then Ok(work) else Err(InvalidArgument);
    }
  }

  method ScanMessage(schema: Schema, d: nat, bytes: Bytes, depth: nat, work: nat) returns (r: Result<nat, Code>)
    requires Linked(schema) && d < |schema|
    ensures r == Scan(schema, d, bytes, depth, work)
    decreases |bytes|, 3
  {
    hide ScanValue, ScanFields, WellFormed, Lookup, SeenWith, GroupsWith, Value, VarintEnd, IsVarint, OneofsPresent;
    if depth >= MAX_DEPTH {
      return Err(InvalidArgument);
    }
    var at, budget := 0, work;
    var seen, groups := {}, {};
    while at < |bytes|
      invariant 0 <= at <= |bytes|
      invariant ScanFields(schema, d, bytes[at..], depth, budget, seen, groups)
             == ScanFields(schema, d, bytes, depth, work, {}, {})
    {
      ScanStops(schema, d, bytes[at..], depth, budget, seen, groups);
      if budget == 0 {
        return Err(ResourceExhausted);
      }
      budget := budget - 1;
      var key, after, ok := Varint(bytes, at);
      if !ok {
        return Err(InvalidArgument);
      }
      Slice(bytes, at, after, |bytes|);
      VarintEndIsPrefix(bytes[at..]);
      assert bytes[at..] == bytes[at..after] + bytes[after..];
      var found := Lookup(schema[d], key, seen, groups);
      if found.None? {
        return Err(InvalidArgument);
      }
      var f := found.value;
      LookupLinked(schema, d, key, seen, groups);
      var next, left := TakeValue(schema, f, key % 8, bytes, after, depth, budget);
      ghost var taken := ScanValue(schema, f, key % 8, bytes[after..], depth, budget);
      ScanOne(schema, d, bytes[at..after], bytes[after..], depth, budget + 1, seen, groups, f, taken);
      if left.Err? {
        return left;
      }
      Slice(bytes, after, next, |bytes|);
      at, budget := next, left.value;
      seen, groups := SeenWith(f, Tag(key), seen), GroupsWith(f, groups);
    }
    assert bytes[at..] == [];
    ScanEnds(schema, d, depth, budget, seen, groups);
    if OneofsPresent(schema[d], groups) {
      return Ok(budget);
    }
    return Err(InvalidArgument);
  }
}
