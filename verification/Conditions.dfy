/** Bounded three-valued conditions over facts with evidence and an expiry (crates/rx-domain/src/condition.rs). */
module Conditions {
  import opened Base

  datatype Verdict = Pass | Fail | Unknown

  datatype TypedValue = Boolean(b: bool) | Integer(i: int) | Real(r: real) | Symbol(s: Name) | Reals(rs: seq<real>)

  datatype FactValue = Scalar(value: TypedValue) | Set(members: seq<Name>)

  datatype Condition =
    | All(children: seq<Condition>)
    | Any(children: seq<Condition>)
    | Eq(fact: Name, schema: Name, units: Name, expected: TypedValue)
    | Range(fact: Name, schema: Name, units: Name, min: real, max: real)
    | SetContains(fact: Name, schema: Name, units: Name, member: Name)

  datatype TimePoint = TimePoint(clock: string, ticks: U64)

  datatype Fact = Fact(
    schema: Name, units: Name, sourceGeneration: Id, acquiredAt: TimePoint, maximumAge: U64, uncertainty: U64,
    qualityGood: bool, originAgeBounded: bool, disputed: bool, value: FactValue, evidence: Id)

  datatype Context = Context(now: TimePoint, facts: map<Name, Fact>, generations: map<Name, Id>)

  datatype Evaluation = Evaluation(verdict: Verdict, evidence: seq<Id>, validUntil: Option<TimePoint>)

  datatype Refusal = ComplexityLimit | EmptyGroup | ReversedRange

  const MAX_DEPTH: nat := 32
  const BUDGET: nat := 1024

  // ---------------------------------------------------------------- one fact

  function AgeOf(now: TimePoint, older: TimePoint): Option<U64> {
    if now.clock == "" || now.clock != older.clock then None else CheckedSub(now.ticks, older.ticks)
  }

  predicate Usable(ctx: Context, id: Name, fact: Fact, schema: Name, units: Name) {
    && fact.qualityGood && fact.originAgeBounded && !fact.disputed && fact.schema == schema && fact.units == units
    && id in ctx.generations && ctx.generations[id] == fact.sourceGeneration
    && var age := AgeOf(ctx.now, fact.acquiredAt);
    && age.Some?
    && var total := CheckedAdd(age.value, fact.uncertainty);
       total.Some? && total.value <= fact.maximumAge
  }

  /** The last tick at which the fact still counts, unless 64 bits cannot hold it. */
  function Expiry(fact: Fact): Option<U64> {
    var end := CheckedAdd(fact.acquiredAt.ticks, fact.maximumAge);
    if end.None? then None else CheckedSub(end.value, fact.uncertainty)
  }

  predicate SameKind(a: TypedValue, b: TypedValue) {
    (a.Boolean? && b.Boolean?) || (a.Integer? && b.Integer?) || (a.Real? && b.Real?) || (a.Symbol? && b.Symbol?)
    || (a.Reals? && b.Reals?)
  }

  function Compare(c: Condition, value: FactValue): Option<bool> {
    match c
    case Eq(_, _, _, expected) =>
      if value.Scalar? && SameKind(value.value, expected) then Some(value.value == expected) else None
    case Range(_, _, _, min, max) =>
      if value.Scalar? && value.value.Real? then Some(min <= value.value.r <= max) else None
    case SetContains(_, _, _, member) =>
      if value.Set? then Some(member in value.members) else None
    case _ => None
  }

  function Leaf(c: Condition, ctx: Context): Evaluation
    requires !c.All? && !c.Any?
  {
    if c.fact !in ctx.facts then Evaluation(Unknown, [], None) else
    var fact := ctx.facts[c.fact];
    var verdict :=
      if !Usable(ctx, c.fact, fact, c.schema, c.units) then Unknown else
      match Compare(c, fact.value)
      case Some(true) => Pass
      case Some(false) => Fail
      case None => Unknown;
    var until := Expiry(fact);
    Evaluation(verdict, [fact.evidence],
      if verdict == Pass && until.Some? then Some(TimePoint(ctx.now.clock, until.value)) else None)
  }

  // ---------------------------------------------------------------- groups

  predicate Has(results: seq<Evaluation>, v: Verdict) {
    exists i :: 0 <= i < |results| && results[i].verdict == v
  }

  function GroupVerdict(all: bool, results: seq<Evaluation>): Verdict {
    if Has(results, if all then Fail else Pass) then if all then Fail else Pass
    else if Has(results, Unknown) then Unknown
    else if all then Pass else Fail
  }

  /** `None` is below every expiry. */
  predicate NoLater(a: Option<TimePoint>, b: Option<TimePoint>) {
    a.None? || (b.Some? && a.value.ticks <= b.value.ticks)
  }

  /** `filter` on passing results, then `max_by_key` on their expiry: the last of the longest. */
  function LongestPass(results: seq<Evaluation>): Option<Evaluation> {
    if results == [] then None else
    var before, last := LongestPass(results[..|results| - 1]), results[|results| - 1];
    if last.verdict == Pass && (before.None? || NoLater(before.value.validUntil, last.validUntil)) then Some(last)
    else before
  }

  function Supporting(all: bool, results: seq<Evaluation>): seq<Evaluation> {
    if !all && GroupVerdict(all, results) == Pass
    then var best := LongestPass(results); if best.Some? then [best.value] else []
    else results
  }

  /** `filter_map` then `min_by_key`: the first of the shortest expiries. */
  function Shortest(results: seq<Evaluation>): Option<TimePoint> {
    if results == [] then None else
    var before, last := Shortest(results[..|results| - 1]), results[|results| - 1].validUntil;
    if last.Some? && (before.None? || last.value.ticks < before.value.ticks) then last else before
  }

  function Dedup(s: seq<Id>): seq<Id> {
    if |s| <= 1 then s
    else if s[|s| - 2] == s[|s| - 1] then Dedup(s[..|s| - 1])
    else Dedup(s[..|s| - 1]) + [s[|s| - 1]]
  }

  function AllEvidence(results: seq<Evaluation>): seq<Id> {
    if results == [] then [] else AllEvidence(results[..|results| - 1]) + results[|results| - 1].evidence
  }

  function Group(all: bool, results: seq<Evaluation>): Evaluation {
    var verdict := GroupVerdict(all, results);
    var supporting := Supporting(all, results);
    Evaluation(verdict, Dedup(Sort(AllEvidence(supporting))),
      if verdict == Pass && forall r | r in supporting :: r.validUntil.Some? then Shortest(supporting) else None)
  }

  // ---------------------------------------------------------------- evaluation under limits

  /** The evaluation and what is left of the node budget. */
  function Eval(c: Condition, ctx: Context, depth: nat, remaining: nat): Result<(Evaluation, nat), Refusal>
    decreases c, 1
  {
    if depth >= MAX_DEPTH || remaining == 0 then Err(ComplexityLimit)
    else if c.All? || c.Any? then
      if c.children == [] then Err(EmptyGroup) else
      var results := EvalEach(c.children, ctx, depth + 1, remaining - 1);
      if results.Err? then Err(results.error) else Ok((Group(c.All?, results.value.0), results.value.1))
    else if c.Range? && c.min > c.max then Err(ReversedRange)
    else Ok((Leaf(c, ctx), remaining - 1))
  }

  function EvalEach(cs: seq<Condition>, ctx: Context, depth: nat, remaining: nat): Result<(seq<Evaluation>, nat), Refusal>
    decreases cs, 0
  {
    if cs == [] then Ok(([], remaining)) else
    var first := Eval(cs[0], ctx, depth, remaining);
    if first.Err? then Err(first.error) else
    var rest := EvalEach(cs[1..], ctx, depth, first.value.1);
    if rest.Err? then Err(rest.error) else Ok(([first.value.0] + rest.value.0, rest.value.1))
  }

  function Evaluate(c: Condition, ctx: Context): Result<Evaluation, Refusal> {
    var r := Eval(c, ctx, 0, BUDGET);
    if r.Err? then Err(r.error) else Ok(r.value.0)
  }

  // ---------------------------------------------------------------- the limits decide, not the context

  function Nodes(c: Condition): nat
    decreases c, 1
  {
    if c.All? || c.Any? then 1 + NodesOf(c.children) else 1
  }

  function NodesOf(cs: seq<Condition>): nat
    decreases cs, 0
  {
    if cs == [] then 0 else Nodes(cs[0]) + NodesOf(cs[1..])
  }

  function Height(c: Condition): nat
    decreases c, 1
  {
    if c.All? || c.Any? then 1 + HeightOf(c.children) else 1
  }

  function HeightOf(cs: seq<Condition>): nat
    decreases cs, 0
  {
    if cs == [] then 0 else
    var first, rest := Height(cs[0]), HeightOf(cs[1..]);
    if first > rest then first else rest
  }

  /** No empty group and no reversed range, anywhere. */
  predicate Sound(c: Condition)
    decreases c, 1
  {
    if c.All? || c.Any? then c.children != [] && SoundEach(c.children) else c.Range? ==> c.min <= c.max
  }

  predicate SoundEach(cs: seq<Condition>)
    decreases cs, 0
  {
    cs != [] ==> Sound(cs[0]) && SoundEach(cs[1..])
  }

  /** What a condition means when no limit is in the way. */
  function Value(c: Condition, ctx: Context): Evaluation
    decreases c, 1
  {
    if c.All? || c.Any? then Group(c.All?, ValueEach(c.children, ctx)) else Leaf(c, ctx)
  }

  function ValueEach(cs: seq<Condition>, ctx: Context): seq<Evaluation>
    decreases cs, 0
  {
    if cs == [] then [] else [Value(cs[0], ctx)] + ValueEach(cs[1..], ctx)
  }

  /** Evaluation succeeds exactly within the limits, charges one unit per node, and then gives the meaning. */
  lemma {:induction false} EvalWithinLimits(c: Condition, ctx: Context, depth: nat, remaining: nat)
    ensures Eval(c, ctx, depth, remaining).Ok? <==>
      Nodes(c) <= remaining && depth + Height(c) <= MAX_DEPTH && Sound(c)
    ensures Eval(c, ctx, depth, remaining).Ok? ==>
      Eval(c, ctx, depth, remaining) == Ok((Value(c, ctx), remaining - Nodes(c)))
    decreases c, 1
  {
    hide Group, Leaf, EvalEach, ValueEach, NodesOf, HeightOf, SoundEach;
    if (c.All? || c.Any?) && depth < MAX_DEPTH && remaining > 0 && c.children != [] {
      EvalEachWithinLimits(c.children, ctx, depth + 1, remaining - 1);
    }
  }

  lemma HeightIsPositive(c: Condition)
    ensures Height(c) >= 1
  {
  }

  lemma {:induction false} EvalEachWithinLimits(cs: seq<Condition>, ctx: Context, depth: nat, remaining: nat)
    ensures EvalEach(cs, ctx, depth, remaining).Ok? <==>
      NodesOf(cs) <= remaining && (cs == [] || depth + HeightOf(cs) <= MAX_DEPTH) && SoundEach(cs)
    ensures EvalEach(cs, ctx, depth, remaining).Ok? ==>
      EvalEach(cs, ctx, depth, remaining) == Ok((ValueEach(cs, ctx), remaining - NodesOf(cs)))
    ensures cs != [] ==> HeightOf(cs) >= 1
    decreases cs, 0
  {
    hide Eval, Value, Nodes, Height, Sound;
    if cs != [] {
      HeightIsPositive(cs[0]);
      EvalWithinLimits(cs[0], ctx, depth, remaining);
      if Eval(cs[0], ctx, depth, remaining).Ok? {
        EvalEachWithinLimits(cs[1..], ctx, depth, remaining - Nodes(cs[0]));
      }
    }
  }

  /** Within the limits a condition has its meaning; outside them no context can make it evaluate. */
  lemma EvaluatesExactlyWithinLimits(c: Condition, ctx: Context)
    ensures Evaluate(c, ctx).Ok? <==> Nodes(c) <= 1024 && Height(c) <= 32 && Sound(c)
    ensures Evaluate(c, ctx).Ok? ==> Evaluate(c, ctx) == Ok(Value(c, ctx))
  {
    EvalWithinLimits(c, ctx, 0, BUDGET);
  }

  /** A refusal, and its kind, are the same in every context: an empty one finds every structural fault. */
  lemma RefusalIsStructural(c: Condition, a: Context, b: Context)
    ensures Evaluate(c, a).Err? ==> Evaluate(c, b) == Evaluate(c, a)
  {
    SameRefusal(c, a, b, 0, BUDGET);
  }

  lemma {:induction false} SameRefusal(c: Condition, a: Context, b: Context, depth: nat, remaining: nat)
    ensures Eval(c, a, depth, remaining).Err? ==> Eval(c, b, depth, remaining) == Eval(c, a, depth, remaining)
    decreases c, 1
  {
    hide Group, Leaf, EvalEach;
    if (c.All? || c.Any?) && depth < MAX_DEPTH && remaining > 0 && c.children != [] {
      SameRefusals(c.children, a, b, depth + 1, remaining - 1);
    }
  }

  lemma {:induction false} SameRefusals(cs: seq<Condition>, a: Context, b: Context, depth: nat, remaining: nat)
    ensures EvalEach(cs, a, depth, remaining).Err? ==> EvalEach(cs, b, depth, remaining) == EvalEach(cs, a, depth, remaining)
    decreases cs, 0
  {
    hide Eval, Value, ValueEach, Nodes, NodesOf, Height, HeightOf, Sound, SoundEach;
    if cs != [] {
      SameRefusal(cs[0], a, b, depth, remaining);
      SameRefusal(cs[0], b, a, depth, remaining);
      EvalWithinLimits(cs[0], a, depth, remaining);
      EvalWithinLimits(cs[0], b, depth, remaining);
      if Eval(cs[0], a, depth, remaining).Ok? {
        SameRefusals(cs[1..], a, b, depth, remaining - Nodes(cs[0]));
      }
    }
  }

  // ---------------------------------------------------------------- what a group says

  lemma {:induction false} ValueAt(cs: seq<Condition>, ctx: Context)
    ensures |ValueEach(cs, ctx)| == |cs|
    ensures forall i | 0 <= i < |cs| :: ValueEach(cs, ctx)[i] == Value(cs[i], ctx)
  {
    hide Value;
    if cs != [] { ValueAt(cs[1..], ctx); }
  }

  lemma {:induction false} LongestPassSpec(results: seq<Evaluation>)
    ensures LongestPass(results).Some? <==> Has(results, Pass)
    ensures var best := LongestPass(results);
      best.Some? ==>
        && best.value in results && best.value.verdict == Pass
        && forall r | r in results && r.verdict == Pass :: NoLater(r.validUntil, best.value.validUntil)
  {
    if results != [] {
      var front, last := results[..|results| - 1], results[|results| - 1];
      LongestPassSpec(front);
      assert results == front + [last];
      if Has(results, Pass) && last.verdict != Pass {
        var i :| 0 <= i < |results| && results[i].verdict == Pass;
        assert front[i].verdict == Pass;
      }
      if Has(front, Pass) {
        var i :| 0 <= i < |front| && front[i].verdict == Pass;
        assert results[i].verdict == Pass;
      }
    }
  }

  lemma {:induction false} ShortestSpec(results: seq<Evaluation>)
    ensures var t := Shortest(results);
      && (t.None? <==> forall r | r in results :: r.validUntil.None?)
      && (t.Some? ==> forall r | r in results && r.validUntil.Some? :: t.value.ticks <= r.validUntil.value.ticks)
      && (t.Some? ==> exists r :: r in results && r.validUntil == t)
  {
    if results != [] {
      var front, last := results[..|results| - 1], results[|results| - 1];
      ShortestSpec(front);
      assert results == front + [last];
    }
  }

  /** All: passing means every child passes, and the group lasts exactly as long as the first to expire. */
  lemma AllPasses(results: seq<Evaluation>)
    ensures Group(true, results).verdict == Pass <==> forall r | r in results :: r.verdict == Pass
    ensures Group(true, results).verdict == Fail <==> Has(results, Fail)
    ensures Group(true, results).validUntil.Some? <==>
      results != [] && forall r | r in results :: r.verdict == Pass && r.validUntil.Some?
    ensures var t := Group(true, results).validUntil;
      t.Some? ==>
        && (forall r | r in results && r.validUntil.Some? :: t.value.ticks <= r.validUntil.value.ticks)
        && (exists r :: r in results && r.validUntil == t)
  {
    ShortestSpec(results);
    if results != [] { assert results[0] in results; }
  }

  /** Any: passing means some child passes, and the group lasts exactly as long as the last to expire. */
  lemma AnyPasses(results: seq<Evaluation>)
    ensures Group(false, results).verdict == Pass <==> Has(results, Pass)
    ensures Group(false, results).verdict == Fail <==> forall r | r in results :: r.verdict == Fail
    ensures Has(results, Pass) ==> forall r | r in results && r.verdict == Pass ::
      NoLater(r.validUntil, Group(false, results).validUntil)
    ensures var t := Group(false, results).validUntil;
      t.Some? ==> exists r :: r in results && r.verdict == Pass && r.validUntil == t
  {
    LongestPassSpec(results);
    var best := LongestPass(results);
    if best.Some? {
      var only := [best.value];
      assert only[..0] == [] && only[0] == best.value;
      assert Shortest(only) == best.value.validUntil;
      assert Group(false, results).validUntil == best.value.validUntil;
    }
  }

  // ---------------------------------------------------------------- expiry

  function At(ctx: Context, ticks: U64): Context {
    ctx.(now := TimePoint(ctx.now.clock, ticks))
  }

  /** A pass with an expiry stays a pass, with no earlier expiry, at every later time up to that expiry. */
  lemma {:induction false} PassLastsUntilExpiry(c: Condition, ctx: Context, later: U64)
    requires Value(c, ctx).verdict == Pass && Value(c, ctx).validUntil.Some?
    requires ctx.now.ticks <= later <= Value(c, ctx).validUntil.value.ticks
    ensures Value(c, ctx).validUntil.value.clock == ctx.now.clock
    ensures Value(c, At(ctx, later)).verdict == Pass
    ensures NoLater(Value(c, ctx).validUntil, Value(c, At(ctx, later)).validUntil)
    decreases c
  {
    hide Group, Usable;
    if c.All? || c.Any? {
      var before, after := ValueEach(c.children, ctx), ValueEach(c.children, At(ctx, later));
      ValueAt(c.children, ctx);
      ValueAt(c.children, At(ctx, later));
      var until := Value(c, ctx).validUntil.value;
      forall i | 0 <= i < |before| && before[i].verdict == Pass && before[i].validUntil.Some?
                 && until.ticks <= before[i].validUntil.value.ticks
        ensures before[i].validUntil.value.clock == ctx.now.clock && after[i].verdict == Pass
        ensures NoLater(before[i].validUntil, after[i].validUntil)
      {
        PassLastsUntilExpiry(c.children[i], ctx, later);
      }
      if c.All? {
        AllPassLasts(before, after, until);
      } else {
        AnyPassLasts(before, after, until);
      }
    } else {
      LeafLasts(c, ctx, later);
    }
  }

  lemma LeafLasts(c: Condition, ctx: Context, later: U64)
    requires !c.All? && !c.Any? && Leaf(c, ctx).verdict == Pass && Leaf(c, ctx).validUntil.Some?
    requires ctx.now.ticks <= later <= Leaf(c, ctx).validUntil.value.ticks
    ensures Leaf(c, At(ctx, later)) == Leaf(c, ctx)
  {
  }

  lemma AllPassLasts(before: seq<Evaluation>, after: seq<Evaluation>, until: TimePoint)
    requires |before| == |after| && Group(true, before).verdict == Pass && Group(true, before).validUntil == Some(until)
    requires forall i | 0 <= i < |before| && before[i].verdict == Pass && before[i].validUntil.Some?
                && until.ticks <= before[i].validUntil.value.ticks ::
      after[i].verdict == Pass && NoLater(before[i].validUntil, after[i].validUntil)
    ensures Group(true, after).verdict == Pass && NoLater(Some(until), Group(true, after).validUntil)
    ensures exists i :: 0 <= i < |before| && before[i].verdict == Pass && before[i].validUntil == Some(until)
  {
    hide Group;
    AllPasses(before);
    AllPasses(after);
    forall r | r in after
      ensures r.verdict == Pass && r.validUntil.Some? && until.ticks <= r.validUntil.value.ticks
    {
      var i :| 0 <= i < |after| && after[i] == r;
      assert before[i] in before;
    }
  }

  lemma AnyPassLasts(before: seq<Evaluation>, after: seq<Evaluation>, until: TimePoint)
    requires |before| == |after| && Group(false, before).verdict == Pass && Group(false, before).validUntil == Some(until)
    requires forall i | 0 <= i < |before| && before[i].verdict == Pass && before[i].validUntil.Some?
                && until.ticks <= before[i].validUntil.value.ticks ::
      after[i].verdict == Pass && NoLater(before[i].validUntil, after[i].validUntil)
    ensures Group(false, after).verdict == Pass && NoLater(Some(until), Group(false, after).validUntil)
    ensures exists i :: 0 <= i < |before| && before[i].verdict == Pass && before[i].validUntil == Some(until)
  {
    hide Group;
    AnyPasses(before);
    AnyPasses(after);
    var r :| r in before && r.verdict == Pass && r.validUntil == Some(until);
    var i :| 0 <= i < |before| && before[i] == r;
    assert after[i] in after && Has(after, Pass);
  }

  /** Every fact was acquired by now, and 64 bits hold the end of its life. */
  predicate Timely(ctx: Context) {
    forall f | f in ctx.facts ::
      && ctx.facts[f].acquiredAt.ticks <= ctx.now.ticks
      && ctx.facts[f].acquiredAt.ticks + ctx.facts[f].maximumAge <= MAX_U64
  }

  /** On timely facts the expiry is exact: a pass always has one, and after it the condition no longer passes.
      Nothing that fails to pass starts to pass by waiting. */
  lemma {:induction false} PassEndsAfterExpiry(c: Condition, ctx: Context, later: U64)
    requires Timely(ctx) && ctx.now.ticks <= later && Sound(c)
    ensures Value(c, ctx).verdict == Pass ==> Value(c, ctx).validUntil.Some?
    ensures Value(c, At(ctx, later)).verdict == Pass ==>
      Value(c, ctx).verdict == Pass && later <= Value(c, ctx).validUntil.value.ticks
    decreases c
  {
    hide Group;
    if c.All? || c.Any? {
      var before, after := ValueEach(c.children, ctx), ValueEach(c.children, At(ctx, later));
      ValueAt(c.children, ctx);
      ValueAt(c.children, At(ctx, later));
      forall i | 0 <= i < |before|
        ensures before[i].verdict == Pass ==> before[i].validUntil.Some?
        ensures after[i].verdict == Pass ==> before[i].verdict == Pass && later <= before[i].validUntil.value.ticks
      {
        SoundAt(c.children, i);
        PassEndsAfterExpiry(c.children[i], ctx, later);
      }
      if c.All? {
        AllPassEnds(before, after, later);
      } else {
        AnyPassEnds(before, after, later);
      }
    }
  }

  lemma {:induction false} SoundAt(cs: seq<Condition>, i: nat)
    requires SoundEach(cs) && i < |cs|
    ensures Sound(cs[i])
  {
    if i > 0 { SoundAt(cs[1..], i - 1); }
  }

  lemma AllPassEnds(before: seq<Evaluation>, after: seq<Evaluation>, later: U64)
    requires |before| == |after| && before != []
    requires forall i | 0 <= i < |before| :: before[i].verdict == Pass ==> before[i].validUntil.Some?
    requires forall i | 0 <= i < |before| ::
      after[i].verdict == Pass ==> before[i].verdict == Pass && later <= before[i].validUntil.value.ticks
    ensures Group(true, before).verdict == Pass ==> Group(true, before).validUntil.Some?
    ensures Group(true, after).verdict == Pass ==>
      Group(true, before).verdict == Pass && later <= Group(true, before).validUntil.value.ticks
  {
    hide Group;
    AllPasses(before);
    AllPasses(after);
    if Group(true, after).verdict == Pass {
      forall i | 0 <= i < |before|
        ensures before[i].verdict == Pass && later <= before[i].validUntil.value.ticks
      {
        assert after[i] in after;
      }
    }
  }

  lemma AnyPassEnds(before: seq<Evaluation>, after: seq<Evaluation>, later: U64)
    requires |before| == |after|
    requires forall i | 0 <= i < |before| :: before[i].verdict == Pass ==> before[i].validUntil.Some?
    requires forall i | 0 <= i < |before| ::
      after[i].verdict == Pass ==> before[i].verdict == Pass && later <= before[i].validUntil.value.ticks
    ensures Group(false, before).verdict == Pass ==> Group(false, before).validUntil.Some?
    ensures Group(false, after).verdict == Pass ==>
      Group(false, before).verdict == Pass && later <= Group(false, before).validUntil.value.ticks
  {
    hide Group;
    AnyPasses(before);
    AnyPasses(after);
    if Has(before, Pass) {
      var i :| 0 <= i < |before| && before[i].verdict == Pass;
      assert before[i] in before;
    }
    if Has(after, Pass) {
      var i :| 0 <= i < |after| && after[i].verdict == Pass;
      assert before[i] in before;
    }
  }

  // ---------------------------------------------------------------- more facts, and just enough of them

  /** `more` knows everything `less` knows, at the same instant. */
  ghost predicate Knows(more: Context, less: Context) {
    && more.now == less.now
    && (forall f | f in less.facts :: f in more.facts && more.facts[f] == less.facts[f])
    && (forall g | g in less.generations :: g in more.generations && more.generations[g] == less.generations[g])
  }

  /** More information never flips a pass or a fail. */
  lemma {:induction false} InformationIsMonotone(c: Condition, less: Context, more: Context)
    requires Knows(more, less) && Value(c, less).verdict != Unknown
    ensures Value(c, more).verdict == Value(c, less).verdict
    decreases c
  {
    hide Group;
    if c.All? || c.Any? {
      var known, all := ValueEach(c.children, less), ValueEach(c.children, more);
      ValueAt(c.children, less);
      ValueAt(c.children, more);
      forall i | 0 <= i < |known| && known[i].verdict != Unknown
        ensures all[i].verdict == known[i].verdict
      {
        InformationIsMonotone(c.children[i], less, more);
      }
      GroupIsMonotone(c.All?, known, all);
    }
  }

  lemma GroupIsMonotone(all: bool, known: seq<Evaluation>, more: seq<Evaluation>)
    requires |known| == |more| && Group(all, known).verdict != Unknown
    requires forall i | 0 <= i < |known| :: known[i].verdict != Unknown ==> more[i].verdict == known[i].verdict
    ensures Group(all, more).verdict == Group(all, known).verdict
  {
    var v := if all then Fail else Pass;
    if Has(known, v) {
      var i :| 0 <= i < |known| && known[i].verdict == v;
      assert more[i].verdict == v;
    } else {
      forall i | 0 <= i < |known|
        ensures known[i].verdict != Unknown && more[i].verdict == known[i].verdict
      {
        assert !Has(known, Unknown);
      }
    }
  }

  /** Only the facts with this evidence. */
  function Restricted(ctx: Context, evidence: seq<Id>): Context {
    ctx.(facts := map f | f in ctx.facts && ctx.facts[f].evidence in evidence :: ctx.facts[f])
  }

  /** The evidence named by an evaluation is enough: the facts it names alone give the same pass or fail. */
  lemma {:induction false} EvidenceSuffices(c: Condition, ctx: Context)
    requires Value(c, ctx).verdict != Unknown
    ensures Value(c, Restricted(ctx, Value(c, ctx).evidence)).verdict == Value(c, ctx).verdict
    decreases c
  {
    hide Group;
    if c.All? || c.Any? {
      var named := Value(c, ctx).evidence;
      var all, few := ValueEach(c.children, ctx), ValueEach(c.children, Restricted(ctx, named));
      ValueAt(c.children, ctx);
      ValueAt(c.children, Restricted(ctx, named));
      forall i | 0 <= i < |all| && all[i].verdict != Unknown && Covers(named, all[i].evidence)
        ensures few[i].verdict == all[i].verdict
      {
        EvidenceSuffices(c.children[i], ctx);
        InformationIsMonotone(c.children[i], Restricted(ctx, all[i].evidence), Restricted(ctx, named));
      }
      SupportedVerdict(c.All?, all, few);
    }
  }

  predicate Covers(named: seq<Id>, evidence: seq<Id>) {
    forall e | e in evidence :: e in named
  }

  lemma SupportedVerdict(all: bool, results: seq<Evaluation>, few: seq<Evaluation>)
    requires |results| == |few| && Group(all, results).verdict != Unknown
    requires forall i | 0 <= i < |results| ::
      results[i].verdict != Unknown && Covers(Group(all, results).evidence, results[i].evidence) ==>
        few[i].verdict == results[i].verdict
    ensures Group(all, few).verdict == Group(all, results).verdict
  {
    var group := Group(all, results);
    GroupEvidence(all, results);
    if !all && group.verdict == Pass {
      LongestPassSpec(results);
      var best := LongestPass(results).value;
      var i :| 0 <= i < |results| && results[i] == best;
      assert best in Supporting(all, results);
      assert few[i].verdict == Pass;
    } else {
      forall i | 0 <= i < |results|
        ensures Covers(group.evidence, results[i].evidence)
      {
        assert results[i] in Supporting(all, results);
      }
      GroupIsMonotone(all, results, few);
    }
  }

  lemma {:induction false} AllEvidenceHolds(results: seq<Evaluation>)
    ensures forall e :: e in AllEvidence(results) <==> exists r :: r in results && e in r.evidence
  {
    if results != [] {
      var front, last := results[..|results| - 1], results[|results| - 1];
      assert results == front + [last];
      AllEvidenceHolds(front);
    }
  }

  lemma {:induction false} DedupKeeps(s: seq<Id>)
    ensures forall e :: e in Dedup(s) <==> e in s
    ensures s != [] ==> Dedup(s) != [] && Dedup(s)[|Dedup(s)| - 1] == s[|s| - 1]
    ensures Ascending(s) ==> Ascending(Dedup(s)) && Distinct(Dedup(s))
  {
    if |s| > 1 {
      assert s == s[..|s| - 1] + [s[|s| - 1]];
      DedupKeeps(s[..|s| - 1]);
      if Ascending(s) { LastIsGreatest(Dedup(s[..|s| - 1]), s[|s| - 2]); }
    }
  }

  lemma LastIsGreatest(s: seq<Id>, last: Id)
    requires Ascending(s) && s != [] && s[|s| - 1] == last
    ensures forall e | e in s :: e <= last
  {
  }

  /** A group names, in order and once each, exactly the evidence of the results that support its verdict. */
  lemma GroupEvidence(all: bool, results: seq<Evaluation>)
    ensures var supporting := Supporting(all, results);
      forall e :: e in Group(all, results).evidence <==> exists r :: r in supporting && e in r.evidence
    ensures Ascending(Group(all, results).evidence) && Distinct(Group(all, results).evidence)
  {
    var found := AllEvidence(Supporting(all, results));
    AllEvidenceHolds(Supporting(all, results));
    SortSpec(found);
    DedupKeeps(Sort(found));
    assert forall e :: e in Sort(found) <==> e in multiset(Sort(found));
    assert forall e :: e in found <==> e in multiset(found);
  }

  // ---------------------------------------------------------------- the same for bounded evaluation

  lemma EvaluatedPassLasts(c: Condition, ctx: Context, later: U64)
    requires Evaluate(c, ctx).Ok? && Evaluate(c, ctx).value.verdict == Pass && Evaluate(c, ctx).value.validUntil.Some?
    requires ctx.now.ticks <= later <= Evaluate(c, ctx).value.validUntil.value.ticks
    ensures var again := Evaluate(c, At(ctx, later));
      again.Ok? && again.value.verdict == Pass && NoLater(Evaluate(c, ctx).value.validUntil, again.value.validUntil)
  {
    hide Value, Eval, Nodes, Height, Sound;
    EvaluatesExactlyWithinLimits(c, ctx);
    EvaluatesExactlyWithinLimits(c, At(ctx, later));
    PassLastsUntilExpiry(c, ctx, later);
  }

  lemma EvaluatedEvidenceSuffices(c: Condition, ctx: Context)
    requires Evaluate(c, ctx).Ok? && Evaluate(c, ctx).value.verdict != Unknown
    ensures var again := Evaluate(c, Restricted(ctx, Evaluate(c, ctx).value.evidence));
      again.Ok? && again.value.verdict == Evaluate(c, ctx).value.verdict
  {
    hide Value, Eval, Nodes, Height, Sound;
    EvaluatesExactlyWithinLimits(c, ctx);
    EvaluatesExactlyWithinLimits(c, Restricted(ctx, Evaluate(c, ctx).value.evidence));
    EvidenceSuffices(c, ctx);
  }

  // ---------------------------------------------------------------- what a condition says about the facts

  /** The fact speaks for a leaf that asks for this schema and these units: good, bounded, undisputed, from the source's
      current generation, and with its uncertainty no older than it may be, on a clock that both instants share. */
  ghost predicate Speaks(ctx: Context, id: Name, schema: Name, units: Name) {
    && id in ctx.facts
    && var fact := ctx.facts[id];
    && fact.qualityGood && fact.originAgeBounded && !fact.disputed
    && fact.schema == schema && fact.units == units
    && id in ctx.generations && ctx.generations[id] == fact.sourceGeneration
    && ctx.now.clock != "" && ctx.now.clock == fact.acquiredAt.clock && fact.acquiredAt.ticks <= ctx.now.ticks
    && ctx.now.ticks - fact.acquiredAt.ticks + fact.uncertainty <= fact.maximumAge
  }

  /** Two values of one kind that differ. */
  ghost predicate Differ(a: TypedValue, b: TypedValue) {
    match (a, b)
    case (Boolean(x), Boolean(y)) => x != y
    case (Integer(x), Integer(y)) => x != y
    case (Real(x), Real(y)) => x != y
    case (Symbol(x), Symbol(y)) => x != y
    case (Reals(x), Reals(y)) => x != y
    case _ => false
  }

  /** The facts bear the condition out. A range includes both its ends. */
  ghost predicate Holds(c: Condition, ctx: Context)
    decreases c
  {
    match c
    case All(children) => forall d | d in children :: Holds(d, ctx)
    case Any(children) => exists d | d in children :: Holds(d, ctx)
    case Eq(id, schema, units, expected) => Speaks(ctx, id, schema, units) && ctx.facts[id].value == Scalar(expected)
    case Range(id, schema, units, min, max) =>
      Speaks(ctx, id, schema, units) && exists r: real :: ctx.facts[id].value == Scalar(Real(r)) && min <= r && r <= max
    case SetContains(id, schema, units, member) =>
      Speaks(ctx, id, schema, units) && exists s :: ctx.facts[id].value == Set(s) && member in s
  }

  /** The facts speak against it: a value of the right kind that differs, lies outside, or lacks the member. */
  ghost predicate Denied(c: Condition, ctx: Context)
    decreases c
  {
    match c
    case All(children) => exists d | d in children :: Denied(d, ctx)
    case Any(children) => forall d | d in children :: Denied(d, ctx)
    case Eq(id, schema, units, expected) =>
      Speaks(ctx, id, schema, units) && exists v :: ctx.facts[id].value == Scalar(v) && Differ(v, expected)
    case Range(id, schema, units, min, max) =>
      Speaks(ctx, id, schema, units) && exists r: real :: ctx.facts[id].value == Scalar(Real(r)) && (r < min || max < r)
    case SetContains(id, schema, units, member) =>
      Speaks(ctx, id, schema, units) && exists s :: ctx.facts[id].value == Set(s) && member !in s
  }

  /** A condition passes exactly when the facts bear it out, fails exactly when they speak against it, and is unknown
      otherwise, through any nesting. */
  lemma {:induction false} VerdictIsMeaning(c: Condition, ctx: Context)
    ensures Value(c, ctx).verdict == Pass <==> Holds(c, ctx)
    ensures Value(c, ctx).verdict == Fail <==> Denied(c, ctx)
    decreases c
  {
    hide Group, Leaf;
    if c.All? || c.Any? {
      var results := ValueEach(c.children, ctx);
      ValueAt(c.children, ctx);
      AllPasses(results);
      AnyPasses(results);
      forall i | 0 <= i < |c.children|
        ensures results[i].verdict == Pass <==> Holds(c.children[i], ctx)
        ensures results[i].verdict == Fail <==> Denied(c.children[i], ctx)
      {
        VerdictIsMeaning(c.children[i], ctx);
      }
      VerdictsOfEach(c.children, results, ctx);
    } else {
      LeafMeaning(c, ctx);
    }
  }

  lemma VerdictsOfEach(cs: seq<Condition>, results: seq<Evaluation>, ctx: Context)
    requires |results| == |cs|
    requires forall i | 0 <= i < |cs| :: results[i].verdict == Pass <==> Holds(cs[i], ctx)
    requires forall i | 0 <= i < |cs| :: results[i].verdict == Fail <==> Denied(cs[i], ctx)
    ensures (forall r | r in results :: r.verdict == Pass) <==> forall d | d in cs :: Holds(d, ctx)
    ensures (forall r | r in results :: r.verdict == Fail) <==> forall d | d in cs :: Denied(d, ctx)
    ensures Has(results, Pass) <==> exists d | d in cs :: Holds(d, ctx)
    ensures Has(results, Fail) <==> exists d | d in cs :: Denied(d, ctx)
  {
    hide Holds, Denied;
    assert forall i | 0 <= i < |cs| :: results[i] in results && cs[i] in cs;
  }

  lemma LeafMeaning(c: Condition, ctx: Context)
    requires !c.All? && !c.Any?
    ensures Leaf(c, ctx).verdict == Pass <==> Holds(c, ctx)
    ensures Leaf(c, ctx).verdict == Fail <==> Denied(c, ctx)
  {
    hide Usable, Speaks;
    if c.fact in ctx.facts { UsableSpeaks(ctx, c.fact, c.schema, c.units); } else { UnknownIsSilent(ctx, c.fact, c.schema, c.units); }
  }

  lemma UsableSpeaks(ctx: Context, id: Name, schema: Name, units: Name)
    requires id in ctx.facts
    ensures Usable(ctx, id, ctx.facts[id], schema, units) <==> Speaks(ctx, id, schema, units)
  {
  }

  lemma UnknownIsSilent(ctx: Context, id: Name, schema: Name, units: Name)
    requires id !in ctx.facts
    ensures !Speaks(ctx, id, schema, units)
  {
  }

  /** What a single leaf names as evidence, and how long its pass lasts: until the fact, with its uncertainty, is as old
      as it may be, if 64 bits can hold that instant. */
  lemma LeafEvidenceAndExpiry(c: Condition, ctx: Context)
    requires !c.All? && !c.Any?
    ensures Value(c, ctx).evidence == if c.fact in ctx.facts then [ctx.facts[c.fact].evidence] else []
    ensures Holds(c, ctx) ==>
      var fact := ctx.facts[c.fact];
      if fact.acquiredAt.ticks + fact.maximumAge <= MAX_U64
      then Value(c, ctx).validUntil == Some(TimePoint(ctx.now.clock, fact.acquiredAt.ticks + fact.maximumAge - fact.uncertainty))
      else Value(c, ctx).validUntil == None
    ensures !Holds(c, ctx) ==> Value(c, ctx).validUntil == None
  {
    LeafMeaning(c, ctx);
  }

  /** A fact that is disputed, of poor quality, of unbounded origin, of another generation or too old decides nothing. */
  lemma SilentFactsDecideNothing(c: Condition, ctx: Context)
    requires !c.All? && !c.Any? && c.fact in ctx.facts
    requires var fact := ctx.facts[c.fact];
      || fact.disputed || !fact.qualityGood || !fact.originAgeBounded
      || c.fact !in ctx.generations || ctx.generations[c.fact] != fact.sourceGeneration
      || ctx.now.ticks > fact.acquiredAt.ticks + fact.maximumAge
    ensures Value(c, ctx).verdict == Unknown
  {
    VerdictIsMeaning(c, ctx);
  }

  /** The same for the bounded evaluator. */
  lemma EvaluatedVerdictIsMeaning(c: Condition, ctx: Context)
    requires Evaluate(c, ctx).Ok?
    ensures Evaluate(c, ctx).value.verdict == Pass <==> Holds(c, ctx)
    ensures Evaluate(c, ctx).value.verdict == Fail <==> Denied(c, ctx)
  {
    EvaluatesExactlyWithinLimits(c, ctx);
    VerdictIsMeaning(c, ctx);
  }
}
