/** An encoder of typed messages, and why the validator takes what it writes (clients/rxclcpp/src/wire.cpp). */
module WireEncoder {
  import opened Base
  import opened WireBytes
  import opened Wire
  import opened WireGrammar

  /** A scalar: a number, a word of four or eight bytes, or a string of bytes. */
  datatype Scalar = Number(number: U64) | Word(raw: Bytes) | Chunk(payload: Bytes)

  /** One field of a message by its number: a scalar, several packed scalars, or a message. */
  datatype FieldValue =
    | One(tag: nat, scalar: Scalar)
    | Many(tag: nat, scalars: seq<Scalar>)
    | Sub(tag: nat, fields: seq<FieldValue>)

  // ---------------------------------------------------------------- encoding

  function EncodeScalar(s: Scalar): Bytes {
    match s
    case Number(v) => Encode(v)
    case Word(raw) => raw
    case Chunk(payload) => Encode(|payload|) + payload
  }

  function ScalarWire(s: Scalar): nat {
    match s
    case Number(_) => 0
    case Word(raw) => if |raw| == 8 then 1 else 5
    case Chunk(_) => 2
  }

  function EncodeAll(scalars: seq<Scalar>): seq<Bytes> {
    if scalars == [] then [] else [EncodeScalar(scalars[0])] + EncodeAll(scalars[1..])
  }

  function ItemOf(v: FieldValue): Item
    decreases v
  {
    match v
    case One(tag, s) => Item(Encode(tag * 8 + ScalarWire(s)), Single(EncodeScalar(s)))
    case Many(tag, scalars) =>
      var values := EncodeAll(scalars);
      Item(Encode(tag * 8 + 2), Packed(Encode(|Flatten(values)|), values))
    case Sub(tag, fields) =>
      var items := ItemsOf(fields);
      Item(Encode(tag * 8 + 2), Nested(Encode(|Render(items)|), items))
  }

  function ItemsOf(fields: seq<FieldValue>): (items: seq<Item>)
    ensures |items| == |fields| && forall i | 0 <= i < |fields| :: items[i] == ItemOf(fields[i])
    decreases fields
  {
    if fields == [] then [] else [ItemOf(fields[0])] + ItemsOf(fields[1..])
  }

  function EncodeMessage(fields: seq<FieldValue>): Bytes { Render(ItemsOf(fields)) }

  // ---------------------------------------------------------------- valid messages

  /** A value of the field's kind. */
  predicate ScalarFits(kind: Kind, s: Scalar) {
    match s
    case Number(v) => WireType(kind) == Some(0) && VarintAllowed(kind, v)
    case Word(raw) => WireType(kind) == (if |raw| == 8 then Some(1) else Some(5)) && (|raw| == 8 || |raw| == 4) && FixedAllowed(kind, raw)
    case Chunk(payload) => (kind.Text? || kind.Blob?) && |payload| <= MAX_U64 && (kind.Text? ==> WellFormed(payload))
  }

  predicate Known(d: Descriptor, tag: nat) {
    0 < tag <= INT32_MAX && tag in d.fields && !d.fields[tag].isMap && !d.fields[tag].kind.Group?
  }

  predicate Fitting(schema: Schema, d: nat, v: FieldValue, depth: nat)
    requires Linked(schema) && d < |schema|
    decreases v
  {
    && Known(schema[d], v.tag)
    && var f := schema[d].fields[v.tag];
       match v
       case One(_, s) => ScalarFits(f.kind, s)
       case Many(_, scalars) =>
         f.repeated && WireType(f.kind) != Some(2) && (forall s | s in scalars :: ScalarFits(f.kind, s))
         && |Flatten(EncodeAll(scalars))| <= MAX_U64
       case Sub(_, fields) =>
         f.kind.Message? && ValidMessage(schema, f.kind.type_, fields, depth + 1) && |EncodeMessage(fields)| <= MAX_U64
  }

  /** No field stands where it may not, singular fields and oneofs at most once, every real oneof given. */
  predicate ValidMessage(schema: Schema, d: nat, fields: seq<FieldValue>, depth: nat)
    requires Linked(schema) && d < |schema|
    decreases fields
  {
    && depth < MAX_DEPTH
    && (forall v | v in fields :: Fitting(schema, d, v, depth))
    && (forall i, j | 0 <= i < j < |fields| :: Compatible(schema[d], fields[i].tag, fields[j].tag))
    && (forall g: nat | g < |schema[d].synthetic| && !schema[d].synthetic[g] ::
          exists v | v in fields :: v.tag in schema[d].fields && schema[d].fields[v.tag].oneof == Some(g))
  }

  predicate Compatible(d: Descriptor, a: nat, b: nat) {
    a in d.fields && b in d.fields ==>
      && (a == b ==> d.fields[a].repeated)
      && (d.fields[a].oneof.Some? ==> d.fields[a].oneof != d.fields[b].oneof)
  }

  // ---------------------------------------------------------------- encoded messages are in the grammar

  lemma EncodedVarint(v: U64)
    ensures IsVarint(Encode(v)) && Value(Encode(v)) == v
  {
    VarintInvertsEncode(v, []);
    assert Encode(v) + [] == Encode(v);
    assert Encode(v)[..|Encode(v)|] == Encode(v);
    VarintExact(Encode(v), |Encode(v)|);
  }

  lemma EncodedScalar(kind: Kind, s: Scalar)
    requires ScalarFits(kind, s)
    ensures IsScalar(kind, EncodeScalar(s)) && WireType(kind) == Some(ScalarWire(s)) && !kind.Message?
  {
    match s
    case Number(v) => EncodedVarint(v);
    case Word(_) =>
    case Chunk(payload) =>
      var prefix, raw := Encode(|payload|), EncodeScalar(s);
      VarintInvertsEncode(|payload|, payload);
      assert raw[|prefix|..] == payload && raw[..|prefix|] == prefix;
      EncodedVarint(|payload|);
  }

  lemma {:induction false} EncodedScalars(kind: Kind, scalars: seq<Scalar>)
    requires forall s | s in scalars :: ScalarFits(kind, s)
    ensures forall raw | raw in EncodeAll(scalars) :: IsScalar(kind, raw)
  {
    if scalars != [] {
      EncodedScalar(kind, scalars[0]);
      EncodedScalars(kind, scalars[1..]);
      assert EncodeAll(scalars) == [EncodeScalar(scalars[0])] + EncodeAll(scalars[1..]);
    }
  }

  /** A key says its field and its wire type. */
  lemma EncodedKey(d: Descriptor, tag: nat, wire: nat)
    requires Known(d, tag) && wire < 8
    ensures var key := Encode(tag * 8 + wire);
      && IsVarint(key) && Value(key) % 8 == wire && Tag(Value(key)) == tag
      && Lookup(d, Value(key), {}, {}) == Some(d.fields[tag])
  {
    EncodedVarint(tag * 8 + wire);
  }

  lemma {:induction false} EncodedItem(schema: Schema, d: nat, v: FieldValue, depth: nat)
    requires Linked(schema) && d < |schema| && Fitting(schema, d, v, depth)
    ensures IsItem(schema, d, ItemOf(v), depth)
    ensures StandsFor(schema[d], ItemOf(v), v)
    decreases v, 0
  {
    hide IsScalar, Lookup, Encode, IsMessage, ValidMessage, ScalarFits, IsVarint, Value;
    var f := schema[d].fields[v.tag];
    match v
    case One(tag, s) =>
      EncodedScalar(f.kind, s);
      EncodedKey(schema[d], tag, ScalarWire(s));
    case Many(tag, scalars) =>
      EncodedKey(schema[d], tag, 2);
      EncodedScalars(f.kind, scalars);
      EncodedVarint(|Flatten(EncodeAll(scalars))|);
    case Sub(tag, fields) =>
      EncodedKey(schema[d], tag, 2);
      EncodedVarint(|EncodeMessage(fields)|);
      EncodedMessage(schema, f.kind.type_, fields, depth + 1);
  }

  /** What the encoder writes for a valid message is a message of the grammar. */
  lemma {:induction false} EncodedMessage(schema: Schema, d: nat, fields: seq<FieldValue>, depth: nat)
    requires Linked(schema) && d < |schema| && ValidMessage(schema, d, fields, depth)
    ensures IsMessage(schema, d, ItemsOf(fields), depth)
    decreases fields, 1
  {
    hide IsItem, FieldOf, TagOf, ItemOf;
    var items := ItemsOf(fields);
    forall i | 0 <= i < |fields|
      ensures IsItem(schema, d, items[i], depth) && StandsFor(schema[d], items[i], fields[i])
    {
      assert fields[i] in fields;
      EncodedItem(schema, d, fields[i], depth);
    }
    EncodedOnce(schema, d, fields, depth);
    EncodedOneofs(schema, d, fields, depth);
  }

  /** The item is of the field's number. */
  ghost predicate StandsFor(d: Descriptor, item: Item, v: FieldValue) {
    v.tag in d.fields && TagOf(item) == v.tag && FieldOf(d, item) == Some(d.fields[v.tag])
  }

  lemma EncodedOnce(schema: Schema, d: nat, fields: seq<FieldValue>, depth: nat)
    requires Linked(schema) && d < |schema| && ValidMessage(schema, d, fields, depth)
    requires forall i | 0 <= i < |fields| :: StandsFor(schema[d], ItemsOf(fields)[i], fields[i])
    ensures Once(schema[d], ItemsOf(fields))
  {
    hide Fitting, FieldOf, TagOf, ItemOf;
    var items := ItemsOf(fields);
    forall i, j | 0 <= i < j < |items|
      ensures !Clash(schema[d], items[i], items[j])
    {
      assert Compatible(schema[d], fields[i].tag, fields[j].tag);
      assert StandsFor(schema[d], items[i], fields[i]) && StandsFor(schema[d], items[j], fields[j]);
    }
  }

  lemma EncodedOneofs(schema: Schema, d: nat, fields: seq<FieldValue>, depth: nat)
    requires Linked(schema) && d < |schema| && ValidMessage(schema, d, fields, depth)
    requires forall i | 0 <= i < |fields| :: StandsFor(schema[d], ItemsOf(fields)[i], fields[i])
    ensures OneofsGiven(schema[d], ItemsOf(fields))
  {
    hide Fitting, FieldOf, TagOf, ItemOf;
    var items := ItemsOf(fields);
    forall g: nat | g < |schema[d].synthetic| && !schema[d].synthetic[g]
      ensures OneofGiven(schema[d], items, g)
    {
      var v :| v in fields && v.tag in schema[d].fields && schema[d].fields[v.tag].oneof == Some(g);
      var i :| 0 <= i < |fields| && fields[i] == v;
      assert StandsFor(schema[d], items[i], fields[i]) && items[i] in items;
    }
  }

  /** Every valid message, encoded, passes the scanner and is charged its cost. */
  lemma EncodedMessageIsAccepted(schema: Schema, d: nat, fields: seq<FieldValue>, depth: nat, budget: nat)
    requires Linked(schema) && d < |schema| && ValidMessage(schema, d, fields, depth)
    ensures Scan(schema, d, EncodeMessage(fields), depth, budget) == Charged(budget, Cost(ItemsOf(fields)))
  {
    EncodedMessage(schema, d, fields, depth);
    MessageAccepted(schema, d, ItemsOf(fields), depth, budget);
  }

  /** Within the limits of size and work the validator accepts it, and for no other reason refuses it. */
  method ValidateEncoded(schema: Schema, d: nat, fields: seq<FieldValue>) returns (r: Result<(), Code>)
    requires Linked(schema) && d < |schema| && ValidMessage(schema, d, fields, 0)
    ensures r.Ok? <==> |EncodeMessage(fields)| <= MAX_MESSAGE && Cost(ItemsOf(fields)) <= MAX_WORK
  {
    hide IsMessage, Scan;
    r := Validate(schema, d, EncodeMessage(fields));
    EncodedMessage(schema, d, fields, 0);
    assert Reads(schema, d, EncodeMessage(fields), 0, ItemsOf(fields));
    if r.Ok? {
      ghost var items :| Reads(schema, d, EncodeMessage(fields), 0, items) && Cost(items) <= MAX_WORK;
      ReadAlike(schema, d, items, ItemsOf(fields));
    }
  }

  lemma ReadAlike(schema: Schema, d: nat, a: seq<Item>, b: seq<Item>)
    requires Linked(schema) && d < |schema| && IsMessage(schema, d, a, 0) && IsMessage(schema, d, b, 0) && Render(a) == Render(b)
    ensures a == b
  {
    OneReading(schema, d, a, b, 0);
  }
}
