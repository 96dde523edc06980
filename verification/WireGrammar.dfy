/** What the validator accepts, said without a scanner: items that render to the bytes. */
module WireGrammar {
  import opened Base
  import opened WireBytes
  import opened Wire

  /** One field occurrence, kept byte for byte. */
  datatype Item = Item(key: Bytes, body: Body)
  datatype Body =
    | Single(raw: Bytes)
    | Packed(prefix: Bytes, values: seq<Bytes>)
    | Nested(prefix: Bytes, items: seq<Item>)

  function Render(items: seq<Item>): Bytes
    decreases items
  {
    if items == [] then [] else RenderItem(items[0]) + Render(items[1..])
  }

  function RenderItem(item: Item): Bytes
    decreases item
  {
    item.key + RenderBody(item.body)
  }

  function RenderBody(body: Body): Bytes
    decreases body
  {
    match body
    case Single(raw) => raw
    case Packed(prefix, values) => prefix + Flatten(values)
    case Nested(prefix, items) => prefix + Render(items)
  }

  function Flatten(values: seq<Bytes>): Bytes {
    if values == [] then [] else values[0] + Flatten(values[1..])
  }

  /** The work an item costs: one per field, one per packed value, and all nested work. */
  function Cost(items: seq<Item>): nat
    decreases items
  {
    if items == [] then 0 else 1 + BodyCost(items[0].body) + Cost(items[1..])
  }

  function BodyCost(body: Body): nat
    decreases body
  {
    match body
    case Single(_) => 0
    case Packed(_, values) => |values|
    case Nested(_, items) => Cost(items)
  }

  function FieldOf(d: Descriptor, item: Item): Option<Field> {
    Lookup(d, Value(item.key), {}, {})
  }

  function TagOf(item: Item): nat { Tag(Value(item.key)) }

  /** A known field with a value of its own wire form. */
  ghost predicate IsItem(schema: Schema, d: nat, item: Item, depth: nat)
    requires Linked(schema) && d < |schema|
    decreases item
  {
    && IsVarint(item.key)
    && FieldOf(schema[d], item).Some?
    && IsBody(schema, FieldOf(schema[d], item).value, Value(item.key) % 8, item.body, depth)
  }

  ghost predicate IsBody(schema: Schema, f: Field, wire: nat, body: Body, depth: nat)
    requires Linked(schema) && (f.kind.Message? ==> f.kind.type_ < |schema|)
    decreases body
  {
    match body
    case Single(raw) => !f.kind.Message? && WireType(f.kind) == Some(wire) && IsScalar(f.kind, raw)
    case Packed(prefix, values) =>
      && f.repeated && WireType(f.kind) != Some(2) && wire == 2
      && Delimits(prefix, |Flatten(values)|)
      && forall v | v in values :: IsScalar(f.kind, v)
    case Nested(prefix, items) =>
      && f.kind.Message? && wire == 2
      && Delimits(prefix, |Render(items)|)
      && IsMessage(schema, f.kind.type_, items, depth + 1)
  }

  /** Two items may not stand in one message: a singular field twice, or one oneof twice. */
  ghost predicate Clash(d: Descriptor, a: Item, b: Item) {
    && FieldOf(d, a).Some? && FieldOf(d, b).Some?
    && (|| (TagOf(a) == TagOf(b) && !FieldOf(d, a).value.repeated)
        || (FieldOf(d, a).value.oneof.Some? && FieldOf(d, a).value.oneof == FieldOf(d, b).value.oneof))
  }

  ghost predicate Once(d: Descriptor, items: seq<Item>) {
    forall i, j | 0 <= i < j < |items| :: !Clash(d, items[i], items[j])
  }

  ghost predicate OneofGiven(d: Descriptor, items: seq<Item>, g: nat) {
    exists it | it in items :: FieldOf(d, it).Some? && FieldOf(d, it).value.oneof == Some(g)
  }

  /** Every real oneof has a value. */
  ghost predicate OneofsGiven(d: Descriptor, items: seq<Item>) {
    forall g: nat | g < |d.synthetic| && !d.synthetic[g] :: OneofGiven(d, items, g)
  }

  ghost predicate IsMessage(schema: Schema, d: nat, items: seq<Item>, depth: nat)
    requires Linked(schema) && d < |schema|
    decreases items
  {
    && depth < MAX_DEPTH
    && (forall it | it in items :: IsItem(schema, d, it, depth))
    && Once(schema[d], items)
    && OneofsGiven(schema[d], items)
  }

  /** `items` is a reading of the bytes `b` as a message. */
  ghost predicate Reads(schema: Schema, d: nat, b: Bytes, depth: nat, items: seq<Item>)
    requires Linked(schema) && d < |schema|
  {
    Render(items) == b && IsMessage(schema, d, items, depth)
  }

  // ---------------------------------------------------------------- everything in the grammar is accepted

  function GroupsBy(d: Descriptor, items: seq<Item>): set<nat> {
    set it | it in items && FieldOf(d, it).Some? && FieldOf(d, it).value.oneof.Some? :: FieldOf(d, it).value.oneof.value
  }

  function Charged(budget: nat, cost: nat): Result<nat, Code> {
    if cost <= budget then Ok(budget - cost) else Err(ResourceExhausted)
  }

  lemma {:induction false} PackedAccepted(kind: Kind, values: seq<Bytes>, budget: nat)
    requires forall v | v in values :: IsScalar(kind, v)
    ensures ScanPacked(kind, Flatten(values), budget) == Charged(budget, |values|)
  {
    hide IsScalar, WellFormed, ScalarEnd;
    if values != [] {
      var b := Flatten(values);
      var first := values[0];
      assert b[..|first|] == first && b[|first|..] == Flatten(values[1..]);
      assert first in values;
      ScalarExact(kind, b, |first|);
      assert forall v | v in values[1..] :: v in values;
      if budget > 0 { PackedAccepted(kind, values[1..], budget - 1); }
    }
  }

  lemma PrefixFound(prefix: Bytes, payload: Bytes, tail: Bytes)
    requires Delimits(prefix, |payload|)
    ensures Delimited(prefix + payload + tail) == Some((|prefix|, |prefix| + |payload|))
    ensures (prefix + payload + tail)[|prefix|..|prefix| + |payload|] == payload
  {
    var b := prefix + payload + tail;
    assert b[..|prefix|] == prefix;
    DelimitedExact(b, |prefix|, |prefix| + |payload|);
  }

  lemma {:induction false} BodyAccepted(
      schema: Schema, f: Field, wire: nat, body: Body, tail: Bytes, depth: nat, budget: nat)
    requires Linked(schema) && (f.kind.Message? ==> f.kind.type_ < |schema|)
    requires IsBody(schema, f, wire, body, depth)
    ensures var r := ScanValue(schema, f, wire, RenderBody(body) + tail, depth, budget);
      if BodyCost(body) <= budget then r == Ok((|RenderBody(body)|, budget - BodyCost(body)))
      else r == Err(ResourceExhausted)
    decreases body, 0
  {
    hide Delimited, Delimits, ScalarEnd, IsScalar, ScanPacked, Scan, IsMessage;
    var rest := RenderBody(body) + tail;
    match body
    case Single(raw) =>
      assert rest[..|raw|] == raw;
      ScalarExact(f.kind, rest, |raw|);
    case Packed(prefix, values) =>
      PrefixFound(prefix, Flatten(values), tail);
      PackedAccepted(f.kind, values, budget);
    case Nested(prefix, items) =>
      PrefixFound(prefix, Render(items), tail);
      MessageAccepted(schema, f.kind.type_, items, depth + 1, budget);
  }

  /** A well-formed message is read to its end when the budget covers its cost, and otherwise is refused
      for exactly that reason. */
  lemma {:induction false} MessageAccepted(schema: Schema, d: nat, items: seq<Item>, depth: nat, budget: nat)
    requires Linked(schema) && d < |schema| && IsMessage(schema, d, items, depth)
    ensures Scan(schema, d, Render(items), depth, budget) == Charged(budget, Cost(items))
    decreases items, 1
  {
    MessageFits(schema, d, items, depth);
    ItemsAccepted(schema, d, items, depth, budget, {}, {});
  }

  lemma MessageFits(schema: Schema, d: nat, items: seq<Item>, depth: nat)
    requires Linked(schema) && d < |schema| && depth < MAX_DEPTH
    ensures IsMessage(schema, d, items, depth) <==> Fits(schema, d, items, depth, {}, {})
  {
    FitsIsDeclared(schema, d, items, depth, {}, {});
    AllGroupsPresent(schema[d], items);
    assert {} + GroupsBy(schema[d], items) == GroupsBy(schema[d], items);
  }

  lemma RenderFirst(items: seq<Item>)
    requires items != []
    ensures Render(items) == items[0].key + (RenderBody(items[0].body) + Render(items[1..]))
  {
  }

  /** `items` may follow what has been seen, and bring the oneofs that are still missing. */
  ghost predicate Fits(schema: Schema, d: nat, items: seq<Item>, depth: nat, seen: set<nat>, groups: set<nat>)
    requires Linked(schema) && d < |schema|
    decreases items
  {
    if items == [] then OneofsPresent(schema[d], groups) else
    var f := Lookup(schema[d], Value(items[0].key), seen, groups);
    && IsItem(schema, d, items[0], depth) && f.Some? && f == FieldOf(schema[d], items[0])
    && Fits(schema, d, items[1..], depth, SeenWith(f.value, TagOf(items[0]), seen), GroupsWith(f.value, groups))
  }

  /** From any point of a message the scanner reads the items that remain and charges their cost. */
  lemma {:induction false} ItemsAccepted(
      schema: Schema, d: nat, items: seq<Item>, depth: nat, budget: nat, seen: set<nat>, groups: set<nat>)
    requires Linked(schema) && d < |schema| && Fits(schema, d, items, depth, seen, groups)
    ensures ScanFields(schema, d, Render(items), depth, budget, seen, groups) == Charged(budget, Cost(items))
    decreases items, 0
  {
    hide IsItem, IsBody, IsMessage, Lookup, SeenWith, GroupsWith, ScanValue, ScanFields, Value, OneofsPresent;
    if items == [] {
      EndAccepted(schema, d, depth, budget, seen, groups);
    } else {
      var item, more := items[0], items[1..];
      var f := FieldOf(schema[d], item).value;
      var seen', groups' := SeenWith(f, TagOf(item), seen), GroupsWith(f, groups);
      assert Fits(schema, d, more, depth, seen', groups');
      assert Render(items) == RenderItem(item) + Render(more);
      assert Cost(items) == 1 + BodyCost(item.body) + Cost(more);
      ItemAccepted(schema, d, item, Render(more), depth, budget, seen, groups, f);
      if 1 + BodyCost(item.body) <= budget {
        ItemsAccepted(schema, d, more, depth, budget - 1 - BodyCost(item.body), seen', groups');
      }
    }
  }

  lemma EndAccepted(schema: Schema, d: nat, depth: nat, budget: nat, seen: set<nat>, groups: set<nat>)
    requires Linked(schema) && d < |schema| && OneofsPresent(schema[d], groups)
    ensures ScanFields(schema, d, Render([]), depth, budget, seen, groups) == Ok(budget)
  {
  }

  lemma {:induction false} ItemAccepted(
      schema: Schema, d: nat, item: Item, tail: Bytes, depth: nat, budget: nat,
      seen: set<nat>, groups: set<nat>, f: Field)
    requires Linked(schema) && d < |schema| && IsItem(schema, d, item, depth)
    requires FieldOf(schema[d], item) == Lookup(schema[d], Value(item.key), seen, groups) == Some(f)
    ensures 1 + BodyCost(item.body) > budget ==>
      ScanFields(schema, d, RenderItem(item) + tail, depth, budget, seen, groups) == Err(ResourceExhausted)
    ensures 1 + BodyCost(item.body) <= budget ==>
      ScanFields(schema, d, RenderItem(item) + tail, depth, budget, seen, groups) ==
      ScanFields(schema, d, tail, depth, budget - 1 - BodyCost(item.body),
                 SeenWith(f, TagOf(item), seen), GroupsWith(f, groups))
    decreases item
  {
    hide IsItem, IsBody, IsVarint, Scan, ScanFields, ScanValue, Lookup, Value, FieldOf, TagOf, SeenWith, GroupsWith,
      RenderBody, BodyCost;
    ItemParts(schema, d, item, depth, f);
    var rest := RenderBody(item.body) + tail;
    assert RenderItem(item) + tail == item.key + rest;
    var taken: Result<(nat, nat), Code> := Err(ResourceExhausted);
    if budget > 0 {
      BodyAccepted(schema, f, Value(item.key) % 8, item.body, tail, depth, budget - 1);
      assert rest[|RenderBody(item.body)|..] == tail;
      taken := ScanValue(schema, f, Value(item.key) % 8, rest, depth, budget - 1);
    }
    ScanOne(schema, d, item.key, rest, depth, budget, seen, groups, f, taken);
  }

  lemma ItemParts(schema: Schema, d: nat, item: Item, depth: nat, f: Field)
    requires Linked(schema) && d < |schema| && IsItem(schema, d, item, depth) && FieldOf(schema[d], item) == Some(f)
    ensures IsVarint(item.key) && (f.kind.Message? ==> f.kind.type_ < |schema|)
    ensures IsBody(schema, f, Value(item.key) % 8, item.body, depth) && TagOf(item) == Tag(Value(item.key))
  {
    hide IsBody, IsVarint, Value;
    LookupLinked(schema, d, Value(item.key), {}, {});
  }

  ghost predicate Declared(schema: Schema, d: nat, items: seq<Item>, depth: nat, seen: set<nat>, groups: set<nat>)
    requires Linked(schema) && d < |schema|
  {
    && (forall it | it in items :: IsItem(schema, d, it, depth))
    && Once(schema[d], items) && Unseen(schema[d], items, seen, groups)
    && OneofsPresent(schema[d], groups + GroupsBy(schema[d], items))
  }

  /** Checking items one after the other is checking them all at once. */
  lemma {:induction false} FitsIsDeclared(
      schema: Schema, d: nat, items: seq<Item>, depth: nat, seen: set<nat>, groups: set<nat>)
    requires Linked(schema) && d < |schema|
    ensures Fits(schema, d, items, depth, seen, groups) <==> Declared(schema, d, items, depth, seen, groups)
    decreases |items|
  {
    if items == [] {
      assert groups + GroupsBy(schema[d], items) == groups;
    } else {
      var item, more := items[0], items[1..];
      assert items == [item] + more && forall it :: it in items <==> it == item || it in more;
      if FieldOf(schema[d], item).Some? {
        var f := FieldOf(schema[d], item).value;
        FitsIsDeclared(schema, d, more, depth, SeenWith(f, TagOf(item), seen), GroupsWith(f, groups));
        if Declared(schema, d, items, depth, seen, groups) {
          SplitFirst(schema[d], item, more, seen, groups);
        }
        if Fits(schema, d, items, depth, seen, groups) {
          JoinFirst(schema[d], item, more, seen, groups);
        }
      }
    }
  }

  /** No item of `items` repeats a singular field or a oneof that was seen before. */
  ghost predicate Unseen(d: Descriptor, items: seq<Item>, seen: set<nat>, groups: set<nat>) {
    forall it | it in items && FieldOf(d, it).Some? ::
      Lookup(d, Value(it.key), seen, groups) == FieldOf(d, it)
  }

  lemma SplitFirst(d: Descriptor, first: Item, more: seq<Item>, seen: set<nat>, groups: set<nat>)
    requires FieldOf(d, first).Some? && Once(d, [first] + more) && Unseen(d, [first] + more, seen, groups)
    requires OneofsPresent(d, groups + GroupsBy(d, [first] + more))
    ensures var f := FieldOf(d, first).value;
      && Once(d, more)
      && Unseen(d, more, SeenWith(f, TagOf(first), seen), GroupsWith(f, groups))
      && OneofsPresent(d, GroupsWith(f, groups) + GroupsBy(d, more))
  {
    var items := [first] + more;
    forall i, j | 0 <= i < j < |more|
      ensures !Clash(d, more[i], more[j])
    {
      assert items[i + 1] == more[i] && items[j + 1] == more[j];
    }
    forall it | it in more
      ensures !Clash(d, first, it) && it in items
    {
      var j :| 0 <= j < |more| && more[j] == it;
      assert items[0] == first && items[j + 1] == it;
    }
    GroupsOfJoined(d, first, more, groups);
  }

  lemma GroupsOfJoined(d: Descriptor, first: Item, more: seq<Item>, groups: set<nat>)
    requires FieldOf(d, first).Some?
    ensures groups + GroupsBy(d, [first] + more) == GroupsWith(FieldOf(d, first).value, groups) + GroupsBy(d, more)
  {
    var items := [first] + more;
    assert forall it :: it in items <==> it == first || it in more;
  }

  lemma AllGroupsPresent(d: Descriptor, items: seq<Item>)
    ensures OneofsGiven(d, items) <==> OneofsPresent(d, GroupsBy(d, items))
  {
    if OneofsGiven(d, items) {
      forall g | 0 <= g < |d.synthetic| && !d.synthetic[g]
        ensures g in GroupsBy(d, items)
      {
        assert OneofGiven(d, items, g);
      }
    }
    if OneofsPresent(d, GroupsBy(d, items)) {
      forall g: nat | g < |d.synthetic| && !d.synthetic[g]
        ensures OneofGiven(d, items, g)
      {
        assert g in GroupsBy(d, items);
      }
    }
  }

  // ---------------------------------------------------------------- everything accepted is in the grammar

  lemma {:induction false} PackedRead(kind: Kind, b: Bytes, budget: nat) returns (values: seq<Bytes>)
    requires ScanPacked(kind, b, budget).Ok?
    ensures Flatten(values) == b && (forall v | v in values :: IsScalar(kind, v))
    ensures ScanPacked(kind, b, budget).value + |values| == budget
    decreases |b|
  {
    if b == [] {
      values := [];
    } else {
      var n := ScalarEnd(kind, b).value;
      ScalarExact(kind, b, n);
      var rest := PackedRead(kind, b[n..], budget - 1);
      values := [b[..n]] + rest;
      assert values[1..] == rest && b == b[..n] + b[n..];
    }
  }

  lemma {:induction false} BodyRead(schema: Schema, f: Field, wire: nat, rest: Bytes, depth: nat, budget: nat)
    returns (body: Body)
    requires Linked(schema) && (f.kind.Message? ==> f.kind.type_ < |schema|)
    requires ScanValue(schema, f, wire, rest, depth, budget).Ok?
    ensures var r := ScanValue(schema, f, wire, rest, depth, budget).value;
      && RenderBody(body) == rest[..r.0]
      && IsBody(schema, f, wire, body, depth)
      && r.1 + BodyCost(body) == budget
    decreases |rest|, 2
  {
    hide Delimited, Delimits, ScalarEnd, IsScalar, ScanPacked, Scan, IsMessage;
    var r := ScanValue(schema, f, wire, rest, depth, budget).value;
    var expected := WireType(f.kind);
    if f.repeated && expected != Some(2) && wire == 2 {
      var (p, m) := Delimited(rest).value;
      DelimitedExact(rest, p, m);
      var values := PackedRead(f.kind, rest[p..m], budget);
      body := Packed(rest[..p], values);
      assert rest[..m] == rest[..p] + rest[p..m];
    } else if f.kind.Message? {
      var (p, m) := Delimited(rest).value;
      DelimitedExact(rest, p, m);
      var items := MessageRead(schema, f.kind.type_, rest[p..m], depth + 1, budget);
      body := Nested(rest[..p], items);
      assert rest[..m] == rest[..p] + rest[p..m];
    } else {
      ScalarExact(f.kind, rest, r.0);
      body := Single(rest[..r.0]);
    }
  }

  lemma {:induction false} MessageRead(schema: Schema, d: nat, b: Bytes, depth: nat, budget: nat)
    returns (items: seq<Item>)
    requires Linked(schema) && d < |schema| && Scan(schema, d, b, depth, budget).Ok?
    ensures Reads(schema, d, b, depth, items)
    ensures Scan(schema, d, b, depth, budget).value + Cost(items) == budget
    decreases |b|, 1
  {
    items := ItemsRead(schema, d, b, depth, budget, {}, {});
    MessageFits(schema, d, items, depth);
  }

  lemma {:induction false} ItemsRead(
      schema: Schema, d: nat, b: Bytes, depth: nat, budget: nat, seen: set<nat>, groups: set<nat>)
    returns (items: seq<Item>)
    requires Linked(schema) && d < |schema| && ScanFields(schema, d, b, depth, budget, seen, groups).Ok?
    ensures Render(items) == b && Fits(schema, d, items, depth, seen, groups)
    ensures ScanFields(schema, d, b, depth, budget, seen, groups).value + Cost(items) == budget
    decreases |b|, 0, 1
  {
    if b == [] {
      items := [];
    } else {
      var first, used, left := ItemRead(schema, d, b, depth, budget, seen, groups);
      var f := FieldOf(schema[d], first).value;
      var more := ItemsRead(schema, d, b[used..], depth, left, SeenWith(f, TagOf(first), seen), GroupsWith(f, groups));
      items := [first] + more;
      assert items[1..] == more && b == b[..used] + b[used..];
    }
  }

  lemma {:induction false} ItemRead(
      schema: Schema, d: nat, b: Bytes, depth: nat, budget: nat, seen: set<nat>, groups: set<nat>)
    returns (first: Item, used: nat, left: nat)
    requires Linked(schema) && d < |schema| && b != []
    requires ScanFields(schema, d, b, depth, budget, seen, groups).Ok?
    ensures 0 < used <= |b| && RenderItem(first) == b[..used] && IsItem(schema, d, first, depth)
    ensures left + 1 + BodyCost(first.body) == budget
    ensures Lookup(schema[d], Value(first.key), seen, groups) == FieldOf(schema[d], first)
    ensures var f := FieldOf(schema[d], first).value;
      ScanFields(schema, d, b, depth, budget, seen, groups) ==
      ScanFields(schema, d, b[used..], depth, left, SeenWith(f, TagOf(first), seen), GroupsWith(f, groups))
    decreases |b|, 0, 0
  {
    hide ScanValue, ScanFields, WellFormed, VarintEnd, IsVarint, IsBody, Value, Lookup;
    ItemScanned(schema, d, b, depth, budget, seen, groups);
    var n := VarintEnd(b, 0).value;
    VarintEndIsPrefix(b);
    var key, rest := Value(b[..n]), b[n..];
    var f := Lookup(schema[d], key, seen, groups).value;
    LookupLinked(schema, d, key, seen, groups);
    LookupWasOpen(schema[d], key, seen, groups);
    var body := BodyRead(schema, f, key % 8, rest, depth, budget - 1);
    var r := ScanValue(schema, f, key % 8, rest, depth, budget - 1).value;
    first, used, left := Item(b[..n], body), n + r.0, r.1;
    assert rest[r.0..] == b[used..] && b[..used] == b[..n] + rest[..r.0];
  }

  /** What the scanner has read of an accepted message when it has read one field. */
  lemma ItemScanned(schema: Schema, d: nat, b: Bytes, depth: nat, budget: nat, seen: set<nat>, groups: set<nat>)
    requires Linked(schema) && d < |schema| && b != []
    requires ScanFields(schema, d, b, depth, budget, seen, groups).Ok?
    ensures budget > 0 && VarintEnd(b, 0).Some?
    ensures var n := VarintEnd(b, 0).value; var key, rest := Value(b[..n]), b[n..];
      var f := Lookup(schema[d], key, seen, groups);
      && f.Some? && (f.value.kind.Message? ==> f.value.kind.type_ < |schema|)
      && var taken := ScanValue(schema, f.value, key % 8, rest, depth, budget - 1);
      && taken.Ok?
      && ScanFields(schema, d, b, depth, budget, seen, groups) ==
         ScanFields(schema, d, rest[taken.value.0..], depth, taken.value.1,
                    SeenWith(f.value, Tag(key), seen), GroupsWith(f.value, groups))
  {
    hide ScanValue, WellFormed, VarintEnd, Value, Lookup, SeenWith, GroupsWith;
    if Lookup(schema[d], Value(b[..VarintEnd(b, 0).value]), seen, groups).Some? {
      LookupLinked(schema, d, Value(b[..VarintEnd(b, 0).value]), seen, groups);
    }
  }

  lemma LookupWasOpen(d: Descriptor, key: nat, seen: set<nat>, groups: set<nat>)
    requires Lookup(d, key, seen, groups).Some?
    ensures Lookup(d, key, {}, {}) == Lookup(d, key, seen, groups)
  {
  }

  lemma JoinFirst(d: Descriptor, first: Item, more: seq<Item>, seen: set<nat>, groups: set<nat>)
    requires FieldOf(d, first).Some? && Lookup(d, Value(first.key), seen, groups) == FieldOf(d, first)
    requires Once(d, more)
    requires var f := FieldOf(d, first).value;
      Unseen(d, more, SeenWith(f, TagOf(first), seen), GroupsWith(f, groups))
      && OneofsPresent(d, GroupsWith(f, groups) + GroupsBy(d, more))
    ensures Once(d, [first] + more) && Unseen(d, [first] + more, seen, groups)
    ensures OneofsPresent(d, groups + GroupsBy(d, [first] + more))
  {
    var items := [first] + more;
    forall it | it in more
      ensures !Clash(d, first, it)
    {
    }
    forall i, j | 0 <= i < j < |items|
      ensures !Clash(d, items[i], items[j])
    {
      if i == 0 { assert items[j] in more; } else { assert items[i] == more[i - 1] && items[j] == more[j - 1]; }
    }
    assert forall it :: it in items <==> it == first || it in more;
    GroupsOfJoined(d, first, more, groups);
  }

  /** The scanner accepts a byte string exactly when it has a reading it can pay for, and what is left of
      the budget is what the reading does not cost. */
  lemma AcceptsExactlyTheGrammar(schema: Schema, d: nat, b: Bytes, depth: nat, budget: nat, left: nat)
    requires Linked(schema) && d < |schema|
    ensures Scan(schema, d, b, depth, budget) == Ok(left) <==>
            exists items :: Reads(schema, d, b, depth, items) && Cost(items) + left == budget
  {
    if Scan(schema, d, b, depth, budget) == Ok(left) {
      var items := MessageRead(schema, d, b, depth, budget);
    }
    if exists items :: Reads(schema, d, b, depth, items) && Cost(items) + left == budget {
      var items :| Reads(schema, d, b, depth, items) && Cost(items) + left == budget;
      MessageAccepted(schema, d, items, depth, budget);
    }
  }

  /** `validate`: at most 1 MiB and a fixed amount of work, for a message that has a reading. */
  method Validate(schema: Schema, d: nat, bytes: Bytes) returns (r: Result<(), Code>)
    requires Linked(schema) && d < |schema|
    ensures r.Ok? <==> |bytes| <= MAX_MESSAGE && exists items :: Reads(schema, d, bytes, 0, items) && Cost(items) <= MAX_WORK
    ensures |bytes| > MAX_MESSAGE ==> r == Err(ResourceExhausted)
    ensures (exists items :: Reads(schema, d, bytes, 0, items)) && r.Err? ==> r == Err(ResourceExhausted)
  {
    if |bytes| > MAX_MESSAGE {
      return Err(ResourceExhausted);
    }
    var left := ScanMessage(schema, d, bytes, 0, MAX_WORK);
    forall items | Reads(schema, d, bytes, 0, items)
      ensures left == Charged(MAX_WORK, Cost(items))
    {
      MessageAccepted(schema, d, items, 0, MAX_WORK);
    }
    if left.Err? {
      return Err(left.error);
    }
    AcceptsExactlyTheGrammar(schema, d, bytes, 0, MAX_WORK, left.value);
    return Ok(());
  }

  // ---------------------------------------------------------------- one reading

  lemma SamePrefix(a: Bytes, b: Bytes, x: Bytes, y: Bytes)
    requires a + x == b + y && |a| == |b|
    ensures a == b && x == y
  {
    assert (a + x)[..|a|] == a && (b + y)[..|b|] == b;
    assert (a + x)[|a|..] == x && (b + y)[|b|..] == y;
  }

  lemma SameVarint(a: Bytes, b: Bytes, x: Bytes, y: Bytes)
    requires IsVarint(a) && IsVarint(b) && a + x == b + y
    ensures a == b && x == y
  {
    assert (a + x)[..|a|] == a && (b + y)[..|b|] == b;
    VarintExact(a + x, |a|);
    VarintExact(b + y, |b|);
    SamePrefix(a, b, x, y);
  }

  lemma SameScalar(kind: Kind, a: Bytes, b: Bytes, x: Bytes, y: Bytes)
    requires IsScalar(kind, a) && IsScalar(kind, b) && a + x == b + y
    ensures a == b && x == y
  {
    assert (a + x)[..|a|] == a && (b + y)[..|b|] == b;
    ScalarExact(kind, a + x, |a|);
    ScalarExact(kind, b + y, |b|);
    SamePrefix(a, b, x, y);
  }

  lemma {:induction false} SameValues(kind: Kind, a: seq<Bytes>, b: seq<Bytes>)
    requires (forall v | v in a :: IsScalar(kind, v)) && (forall v | v in b :: IsScalar(kind, v))
    requires Flatten(a) == Flatten(b)
    ensures a == b
  {
    if a != [] && b != [] {
      assert a[0] in a && b[0] in b;
      SameScalar(kind, a[0], b[0], Flatten(a[1..]), Flatten(b[1..]));
      assert forall v | v in a[1..] :: v in a;
      assert forall v | v in b[1..] :: v in b;
      SameValues(kind, a[1..], b[1..]);
      assert a == [a[0]] + a[1..] && b == [b[0]] + b[1..];
    } else if a != [] {
      assert a[0] in a;
      ScalarNotEmpty(kind, a[0]);
    } else if b != [] {
      assert b[0] in b;
      ScalarNotEmpty(kind, b[0]);
    }
  }

  lemma ScalarNotEmpty(kind: Kind, raw: Bytes)
    requires IsScalar(kind, raw)
    ensures raw != []
  {
    assert raw[..|raw|] == raw;
    ScalarExact(kind, raw, |raw|);
  }

  lemma {:induction false} SameBody(
      schema: Schema, f: Field, wire: nat, a: Body, b: Body, x: Bytes, y: Bytes, depth: nat)
    requires Linked(schema) && (f.kind.Message? ==> f.kind.type_ < |schema|)
    requires IsBody(schema, f, wire, a, depth) && IsBody(schema, f, wire, b, depth)
    requires RenderBody(a) + x == RenderBody(b) + y
    ensures a == b && x == y
    decreases a, 0
  {
    hide Linked, IsScalar, WellFormed;
    if a.Single? {
      SameScalar(f.kind, a.raw, b.raw, x, y);
    } else {
      var pa := if a.Packed? then Flatten(a.values) else Render(a.items);
      var pb := if b.Packed? then Flatten(b.values) else Render(b.items);
      assert a.prefix + (pa + x) == RenderBody(a) + x && b.prefix + (pb + y) == RenderBody(b) + y;
      SameVarint(a.prefix, b.prefix, pa + x, pb + y);
      SamePrefix(pa, pb, x, y);
      if a.Packed? { SameValues(f.kind, a.values, b.values); } else { OneReading(schema, f.kind.type_, a.items, b.items, depth + 1); }
    }
  }

  /** No byte string has two readings. */
  lemma {:induction false} OneReading(schema: Schema, d: nat, a: seq<Item>, b: seq<Item>, depth: nat)
    requires Linked(schema) && d < |schema| && Render(a) == Render(b)
    requires forall it | it in a :: IsItem(schema, d, it, depth)
    requires forall it | it in b :: IsItem(schema, d, it, depth)
    ensures a == b
    decreases a, 1
  {
    if a != [] { assert IsItem(schema, d, a[0], depth); RenderFirst(a); }
    if b != [] { assert IsItem(schema, d, b[0], depth); RenderFirst(b); }
    if a != [] && b != [] {
      var x, y := Render(a[1..]), Render(b[1..]);
      SameVarint(a[0].key, b[0].key, RenderBody(a[0].body) + x, RenderBody(b[0].body) + y);
      var f := FieldOf(schema[d], a[0]).value;
      SameBody(schema, f, Value(a[0].key) % 8, a[0].body, b[0].body, x, y, depth);
      assert forall it | it in a[1..] :: it in a;
      assert forall it | it in b[1..] :: it in b;
      OneReading(schema, d, a[1..], b[1..], depth);
      assert a == [a[0]] + a[1..] && b == [b[0]] + b[1..];
    }
  }
}
