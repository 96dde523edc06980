/** Runs of a compiled process: operations start where the planner offers them and advance by their own
    interface, branches are chosen, waits end (crates/rx-application/src/engine/process.rs). */
module ProcessRuns {
  import opened Base
  import opened Process
  import opened Predecessors
  import Op = Operations

  datatype Event =
    | Start(node: Name, operation: Id, intent: nat)
    | Advance(node: Name, calls: seq<Op.Call>)
    | Choose(node: Name, chosen: bool)
    | EndWait(node: Name, satisfied: bool)

  /** The engine lets an event happen. */
  ghost predicate Enabled(root: Node, v: View, e: Event) {
    var plan := Evaluate(root, v);
    match e
    case Start(n, id, _) =>
      plan.Ok? && n in plan.value.operations && forall m | m in v.operations :: v.operations[m].id != id
    case Advance(n, _) => n in v.operations
    case Choose(n, _) => plan.Ok? && n in plan.value.decisions
    case EndWait(n, _) => plan.Ok? && n in plan.value.waits
  }

  function Apply(v: View, e: Event): View {
    match e
    case Start(n, id, intent) => v.(operations := v.operations[n := Op.Admit(id, intent)])
    case Advance(n, calls) =>
      if n in v.operations then v.(operations := v.operations[n := Op.After(v.operations[n], calls)]) else v
    case Choose(n, chosen) => v.(branches := v.branches[n := chosen])
    case EndWait(n, satisfied) => v.(waits := v.waits[n := satisfied])
  }

  function Play(v: View, events: seq<Event>): View
    decreases |events|
  {
    if events == [] then v else Play(Apply(v, events[0]), events[1..])
  }

  ghost predicate Runs(root: Node, v: View, events: seq<Event>)
    decreases |events|
  {
    events != [] ==> Enabled(root, v, events[0]) && Runs(root, Apply(v, events[0]), events[1..])
  }

  lemma {:induction false} RunsConcat(root: Node, v: View, a: seq<Event>, b: seq<Event>)
    requires Runs(root, v, a) && Runs(root, Play(v, a), b)
    ensures Runs(root, v, a + b) && Play(v, a + b) == Play(Play(v, a), b)
    decreases |a|
  {
    if a == [] {
      assert a + b == b;
    } else {
      assert (a + b)[1..] == a[1..] + b;
      RunsConcat(root, Apply(v, a[0]), a[1..], b);
    }
  }

  lemma {:induction false} RunsPrefix(root: Node, v: View, events: seq<Event>, i: nat)
    requires Runs(root, v, events) && i < |events|
    ensures Enabled(root, Play(v, events[..i]), events[i])
    decreases i
  {
    if i > 0 {
      assert events[..i][1..] == events[1..][..i - 1];
      RunsPrefix(root, Apply(v, events[0]), events[1..], i - 1);
    }
  }

  // ---------------------------------------------------------------- every run of an accepted tree

  lemma {:induction false} ActionsHaveIds(node: Node, op: Node)
    requires op in Actions(node)
    ensures op.Operation? && op.id in Ids(node)
    decreases node, 1
  {
    match node
    case Sequence(_, children) => ActionsOfHaveIds(children, op);
    case ParallelAll(_, children) => ActionsOfHaveIds(children, op);
    case Branch(_, _, t, f) => if op in Actions(t) { ActionsHaveIds(t, op); } else { ActionsHaveIds(f, op); }
    case _ =>
  }

  lemma {:induction false} ActionsOfHaveIds(nodes: seq<Node>, op: Node)
    requires op in ActionsOf(nodes)
    ensures op.Operation? && op.id in IdsOf(nodes)
    decreases nodes, 0
  {
    if op in Actions(nodes[0]) { ActionsHaveIds(nodes[0], op); } else { ActionsOfHaveIds(nodes[1..], op); }
  }

  lemma {:induction false} ActionsUnique(node: Node, a: Node, b: Node)
    requires Unique(node) && a in Actions(node) && b in Actions(node) && a.id == b.id
    ensures a == b
    decreases node, 1
  {
    match node
    case Sequence(_, children) => ActionsOfUnique(children, a, b);
    case ParallelAll(_, children) => ActionsOfUnique(children, a, b);
    case Branch(_, _, t, f) =>
      ActionsHaveIds(if a in Actions(t) then t else f, a);
      ActionsHaveIds(if b in Actions(t) then t else f, b);
      if a in Actions(t) && b in Actions(t) {
        ActionsUnique(t, a, b);
      } else if a in Actions(f) && b in Actions(f) {
        ActionsUnique(f, a, b);
      }
    case _ =>
  }

  lemma {:induction false} ActionsOfUnique(nodes: seq<Node>, a: Node, b: Node)
    requires UniqueEach(nodes) && a in ActionsOf(nodes) && b in ActionsOf(nodes) && a.id == b.id
    ensures a == b
    decreases nodes, 0
  {
    if a in Actions(nodes[0]) { ActionsHaveIds(nodes[0], a); } else { ActionsOfHaveIds(nodes[1..], a); }
    if b in Actions(nodes[0]) { ActionsHaveIds(nodes[0], b); } else { ActionsOfHaveIds(nodes[1..], b); }
    if a in Actions(nodes[0]) && b in Actions(nodes[0]) {
      ActionsUnique(nodes[0], a, b);
    } else if a in ActionsOf(nodes[1..]) && b in ActionsOf(nodes[1..]) {
      ActionsOfUnique(nodes[1..], a, b);
    }
  }

  /** In every run of an accepted tree, over every branch choice and interleaving, an operation starts
      only when all predecessors of its step have finished. */
  lemma AcceptedRunsStartInOrder(root: Node, plan: Plan, events: seq<Event>, i: nat, op: Node)
    requires Unique(root) && Check(root, plan, {}).Ok?
    requires Runs(root, NO_PROGRESS, events) && i < |events| && events[i].Start?
    requires op in Actions(root) && op.id == events[i].node
    ensures op.Operation? && GateOpen(plan, op.binding, DoneIn(root, plan, Play(NO_PROGRESS, events[..i])))
  {
    ActionsHaveIds(root, op);
    var v := Play(NO_PROGRESS, events[..i]);
    RunsPrefix(root, NO_PROGRESS, events, i);
    AcceptedTreeIsSafe(root, plan, {}, v);
    assert OpenAction(Actions(root), plan, op.id, {} + DoneIn(root, plan, v));
    var other :| other in Actions(root) && other.Operation? && other.id == op.id
                 && GateOpen(plan, other.binding, {} + DoneIn(root, plan, v));
    ActionsUnique(root, op, other);
    assert {} + DoneIn(root, plan, v) == DoneIn(root, plan, v);
  }

  ghost predicate CompletedRun(root: Node, events: seq<Event>) {
    && Runs(root, NO_PROGRESS, events)
    && Evaluate(root, Play(NO_PROGRESS, events)).Ok?
    && Evaluate(root, Play(NO_PROGRESS, events)).value.state == Completed
  }

  lemma CompletedRunsFinishTheSet(root: Node, plan: Plan, events: seq<Event>)
    requires Check(root, plan, {}).Ok? && CompletedRun(root, events)
    ensures Check(root, plan, {}).value <= DoneIn(root, plan, Play(NO_PROGRESS, events))
  {
    AcceptedTreeIsSafe(root, plan, {}, Play(NO_PROGRESS, events));
    CheckReturnsMust(root, plan, {});
  }

  // ---------------------------------------------------------------- building runs: where the planner looks

  ghost predicate Benign(node: Node, v: View) {
    Evaluate(node, v).Ok? && Evaluate(node, v).value.state != Blocked
    && Evaluate(node, v).value.state != State.Failed
  }

  ghost predicate Complete(node: Node, v: View) {
    Evaluate(node, v).Ok? && Evaluate(node, v).value.state == Completed
  }

  ghost predicate ActiveInSequence(children: seq<Node>, v: View, i: nat) {
    && i < |children|
    && (forall j | 0 <= j < i :: Complete(children[j], v))
    && (forall j | i < j < |children| :: !HasProgress(children[j], v))
  }

  ghost predicate ActiveInParallel(children: seq<Node>, v: View, i: nat) {
    && i < |children|
    && (forall j | 0 <= j < |children| && j != i :: Benign(children[j], v))
  }

  /** `c` is a child of `p` that the planner is looking at. */
  ghost predicate Active(p: Node, v: View, c: Node) {
    match p
    case Sequence(_, children) => exists i: nat :: ActiveInSequence(children, v, i) && children[i] == c
    case ParallelAll(_, children) => exists i: nat :: ActiveInParallel(children, v, i) && children[i] == c
    case Branch(id, _, t, f) =>
      id in v.branches && c == (if v.branches[id] then t else f)
      && !HasProgress(if v.branches[id] then f else t, v)
    case _ => false
  }

  ghost predicate Includes(f: Frontier, g: Frontier) {
    && (forall id | id in g.operations :: id in f.operations)
    && (forall id | id in g.decisions :: id in f.decisions)
    && (forall id | id in g.waits :: id in f.waits)
  }

  /** What an active child offers, its parent offers. */
  lemma OffersUp(p: Node, v: View, c: Node)
    requires Active(p, v, c) && Benign(c, v) && !Complete(c, v)
    ensures Benign(p, v) && !Complete(p, v)
    ensures Includes(Evaluate(p, v).value, Evaluate(c, v).value)
  {
    match p
    case Sequence(_, children) =>
      var i: nat :| ActiveInSequence(children, v, i) && children[i] == c;
      SequenceOffers(children, v, i);
    case ParallelAll(_, children) =>
      var i: nat :| ActiveInParallel(children, v, i) && children[i] == c;
      ParallelOffers(children, v, i);
    case Branch(_, _, _, _) =>
  }

  lemma ParallelOffers(children: seq<Node>, v: View, i: nat)
    requires ActiveInParallel(children, v, i) && Benign(children[i], v) && !Complete(children[i], v)
    ensures EvaluateEach(children, v).Ok?
    ensures var f := Joined(EvaluateEach(children, v).value);
      && f.state != Blocked && f.state != State.Failed && f.state != Completed
      && Includes(f, Evaluate(children[i], v).value)
  {
    EachEvaluates(children, v);
    var fs := EvaluateEach(children, v).value;
    assert fs[i] == Evaluate(children[i], v).value;
    MergedIncludes(fs, i);
    NoneStops(children, v, fs);
    assert fs[i] in fs;
  }

  lemma NoneStops(children: seq<Node>, v: View, fs: seq<Frontier>)
    requires |fs| == |children| && forall j | 0 <= j < |fs| :: Benign(children[j], v) && fs[j] == Evaluate(children[j], v).value
    ensures !AnyIn(fs, Blocked) && !AnyIn(fs, State.Failed)
  {
  }

  lemma {:induction false} SequenceOffers(children: seq<Node>, v: View, i: nat)
    requires ActiveInSequence(children, v, i) && Benign(children[i], v) && !Complete(children[i], v)
    ensures EvaluateSequence(children, v) == Evaluate(children[i], v)
    decreases children
  {
    if i > 0 {
      assert Complete(children[0], v);
      SequenceOffers(children[1..], v, i - 1);
    }
  }

  lemma {:induction false} EachEvaluates(children: seq<Node>, v: View)
    requires forall j | 0 <= j < |children| :: Evaluate(children[j], v).Ok?
    ensures EvaluateEach(children, v).Ok?
    ensures forall j | 0 <= j < |children| ::
              EvaluateEach(children, v).value[j] == Evaluate(children[j], v).value
    decreases children
  {
    if children != [] {
      assert Evaluate(children[0], v).Ok?;
      forall j | 0 <= j < |children[1..]|
        ensures Evaluate(children[1..][j], v).Ok?
      {
        assert children[1..][j] == children[j + 1];
      }
      EachEvaluates(children[1..], v);
      assert forall j | 1 <= j < |children| :: children[1..][j - 1] == children[j];
    }
  }

  lemma {:induction false} MergedIncludes(fs: seq<Frontier>, i: nat)
    requires i < |fs|
    ensures Includes(Merged(fs), fs[i])
    decreases |fs|
  {
    if i > 0 { MergedIncludes(fs[1..], i - 1); }
  }

  /** A child that has not moved is neither blocked nor failed. */
  lemma {:induction false} UnmovedIsBenign(node: Node, v: View)
    requires !HasProgress(node, v) && NoInterventions(node)
    ensures Benign(node, v)
    ensures DoneInIsEmpty(node, v)
    decreases node, 1
  {
    match node
    case Sequence(_, children) =>
      UnmovedEach(children, v);
      if children != [] && !Complete(children[0], v) {
        assert forall c | c in children[1..] :: c in children;
        assert EvaluateSequence(children, v) == Evaluate(children[0], v);
      }
    case ParallelAll(_, children) =>
      UnmovedEach(children, v);
      EachEvaluates(children, v);
      NoneStops(children, v, EvaluateEach(children, v).value);
    case Branch(_, _, t, f) =>
      UnmovedIsBenign(t, v);
      UnmovedIsBenign(f, v);
    case _ =>
  }

  lemma {:induction false} UnmovedEach(children: seq<Node>, v: View)
    requires forall c | c in children :: !HasProgress(c, v) && NoInterventions(c)
    ensures forall j | 0 <= j < |children| :: Benign(children[j], v)
    ensures EvaluateSequence(children, v).Ok?
    ensures Evaluate(Sequence("", children), v).value.state != Blocked
    ensures Evaluate(Sequence("", children), v).value.state != State.Failed
    ensures forall plan :: DoneInEach(children, plan, v) == {}
    decreases children, 0
  {
    if children != [] {
      assert children[0] in children;
      assert forall c | c in children[1..] :: c in children;
      UnmovedIsBenign(children[0], v);
      UnmovedEach(children[1..], v);
      assert Evaluate(Sequence("", children[1..]), v) == EvaluateSequence(children[1..], v);
      assert forall plan :: DoneIn(children[0], plan, v) == {};
    }
  }

  ghost predicate DoneInIsEmpty(node: Node, v: View) {
    forall plan :: DoneIn(node, plan, v) == {}
  }

  // ---------------------------------------------------------------- building runs: what stays unaffected

  lemma {:induction false} DoneInFrame(node: Node, plan: Plan, v: View, w: View)
    requires Agree(v, w, Ids(node))
    ensures DoneIn(node, plan, v) == DoneIn(node, plan, w)
    decreases node, 1
  {
    match node
    case Operation(id, _) => assert id in Ids(node);
    case Sequence(_, children) => DoneInFrameEach(children, plan, v, w);
    case ParallelAll(_, children) => DoneInFrameEach(children, plan, v, w);
    case Branch(_, _, t, f) =>
      DoneInFrame(t, plan, v, w);
      DoneInFrame(f, plan, v, w);
    case _ =>
  }

  lemma {:induction false} DoneInFrameEach(nodes: seq<Node>, plan: Plan, v: View, w: View)
    requires Agree(v, w, IdsOf(nodes))
    ensures DoneInEach(nodes, plan, v) == DoneInEach(nodes, plan, w)
    decreases nodes, 0
  {
    if nodes != [] {
      DoneInFrame(nodes[0], plan, v, w);
      DoneInFrameEach(nodes[1..], plan, v, w);
    }
  }

  /** Moving one child changes what its siblings have done in no way. */
  lemma {:induction false} DoneInOneChild(nodes: seq<Node>, plan: Plan, v: View, w: View, i: nat, x: Name)
    requires i < |nodes| && UniqueEach(nodes) && AgreeOutside(v, w, Ids(nodes[i]))
    requires x !in DoneInEach(nodes, plan, v) && x !in DoneIn(nodes[i], plan, w)
    ensures x !in DoneInEach(nodes, plan, w)
    decreases nodes
  {
    if i == 0 {
      DoneInFrameEach(nodes[1..], plan, v, w);
    } else {
      UniqueMembers(nodes, 0, i);
      DoneInFrame(nodes[0], plan, v, w);
      DoneInOneChild(nodes[1..], plan, v, w, i - 1, x);
    }
  }

  /** An active child stays active, and `x` stays undone, when only the child moves. */
  lemma ActiveFrame(p: Node, plan: Plan, v: View, w: View, c: Node, x: Name)
    requires Unique(p) && Active(p, v, c) && AgreeOutside(v, w, Ids(c))
    requires x !in DoneIn(p, plan, v) && x !in DoneIn(c, plan, w)
    ensures Unique(c) && Ids(c) <= Ids(p)
    ensures Active(p, w, c) && x !in DoneIn(p, plan, w)
  {
    match p
    case Sequence(_, children) =>
      var i: nat :| ActiveInSequence(children, v, i) && children[i] == c;
      SiblingsKeep(children, v, w, i);
      DoneInOneChild(children, plan, v, w, i, x);
      assert ActiveInSequence(children, w, i);
    case ParallelAll(_, children) =>
      var i: nat :| ActiveInParallel(children, v, i) && children[i] == c;
      SiblingsKeep(children, v, w, i);
      DoneInOneChild(children, plan, v, w, i, x);
      assert ActiveInParallel(children, w, i);
    case Branch(id, _, t, f) =>
      var other := if v.branches[id] then f else t;
      assert Same(v, w, id);
      EvaluateFrame(other, v, w);
      DoneInFrame(other, plan, v, w);
  }

  lemma SiblingsKeep(children: seq<Node>, v: View, w: View, i: nat)
    requires i < |children| && UniqueEach(children) && AgreeOutside(v, w, Ids(children[i]))
    ensures Unique(children[i]) && Ids(children[i]) <= IdsOf(children)
    ensures forall j | 0 <= j < |children| && j != i ::
      && Evaluate(children[j], v) == Evaluate(children[j], w)
      && HasProgress(children[j], v) == HasProgress(children[j], w)
  {
    UniqueMember(children, i);
    IdsOfMember(children, i);
    forall j | 0 <= j < |children| && j != i
      ensures Evaluate(children[j], v) == Evaluate(children[j], w)
      ensures HasProgress(children[j], v) == HasProgress(children[j], w)
    {
      if j < i { UniqueMembers(children, j, i); } else { UniqueMembers(children, i, j); }
      EvaluateFrame(children[j], v, w);
    }
  }

  // ---------------------------------------------------------------- building runs: a focused node

  /** A path from the root to a node, each step to a child the planner is looking at, in a state that
      has not finished step `x`. */
  ghost predicate At(path: seq<Node>, plan: Plan, v: View, x: Name) {
    && path != []
    && Unique(path[0])
    && (forall k | 0 <= k < |path| - 1 :: Active(path[k], v, path[k + 1]))
    && x !in DoneIn(path[0], plan, v)
  }

  function Last(path: seq<Node>): Node
    requires path != []
  {
    path[|path| - 1]
  }

  lemma {:induction false} PathOffers(path: seq<Node>, v: View)
    requires path != [] && (forall k | 0 <= k < |path| - 1 :: Active(path[k], v, path[k + 1]))
    requires Benign(Last(path), v) && !Complete(Last(path), v)
    ensures Benign(path[0], v) && !Complete(path[0], v)
    ensures Includes(Evaluate(path[0], v).value, Evaluate(Last(path), v).value)
    decreases |path|
  {
    if |path| > 1 {
      PathOffers(path[1..], v);
      assert Active(path[0], v, path[1]);
      OffersUp(path[0], v, path[1]);
    }
  }

  lemma {:induction false} PathFrame(path: seq<Node>, plan: Plan, v: View, w: View, x: Name)
    requires At(path, plan, v, x)
    requires AgreeOutside(v, w, Ids(Last(path))) && x !in DoneIn(Last(path), plan, w)
    ensures At(path, plan, w, x)
    ensures Unique(Last(path)) && Ids(Last(path)) <= Ids(path[0])
    decreases |path|
  {
    if |path| > 1 {
      assert Active(path[0], v, path[1]);
      ChildHasLess(path[0], plan, v, path[1], x);
      PathFrame(path[1..], plan, v, w, x);
      assert AgreeOutside(v, w, Ids(path[1]));
      ActiveFrame(path[0], plan, v, w, path[1], x);
      forall k | 0 <= k < |path| - 1
        ensures Active(path[k], w, path[k + 1])
      {
        if k > 0 { assert Active(path[1..][k - 1], w, path[1..][k]); }
      }
    }
  }

  lemma ChildHasLess(p: Node, plan: Plan, v: View, c: Node, x: Name)
    requires Unique(p) && Active(p, v, c) && x !in DoneIn(p, plan, v)
    ensures Unique(c) && x !in DoneIn(c, plan, v) && Actions(c) <= Actions(p)
  {
    match p
    case Sequence(_, children) =>
      var i: nat :| ActiveInSequence(children, v, i) && children[i] == c;
      MemberHasLess(children, plan, v, i, x);
    case ParallelAll(_, children) =>
      var i: nat :| ActiveInParallel(children, v, i) && children[i] == c;
      MemberHasLess(children, plan, v, i, x);
    case Branch(_, _, _, _) =>
  }

  lemma {:induction false} MemberHasLess(nodes: seq<Node>, plan: Plan, v: View, i: nat, x: Name)
    requires i < |nodes| && UniqueEach(nodes) && x !in DoneInEach(nodes, plan, v)
    ensures Unique(nodes[i]) && x !in DoneIn(nodes[i], plan, v) && Actions(nodes[i]) <= ActionsOf(nodes)
    decreases nodes
  {
    if i > 0 { MemberHasLess(nodes[1..], plan, v, i - 1, x); }
  }

  lemma {:induction false} PathHasLess(path: seq<Node>, plan: Plan, v: View, x: Name)
    requires At(path, plan, v, x)
    ensures Unique(Last(path)) && x !in DoneIn(Last(path), plan, v) && Actions(Last(path)) <= Actions(path[0])
    decreases |path|
  {
    if |path| > 1 {
      assert Active(path[0], v, path[1]);
      ChildHasLess(path[0], plan, v, path[1], x);
      PathHasLess(path[1..], plan, v, x);
    }
  }

  lemma Descend(path: seq<Node>, plan: Plan, v: View, x: Name, c: Node)
    requires At(path, plan, v, x) && Active(Last(path), v, c)
    ensures At(path + [c], plan, v, x) && Last(path + [c]) == c
  {
    forall k | 0 <= k < |path + [c]| - 1
      ensures Active((path + [c])[k], v, (path + [c])[k + 1])
    {
    }
  }

  lemma Ascend(path: seq<Node>, plan: Plan, v: View, x: Name, c: Node)
    requires At(path + [c], plan, v, x) && path != []
    ensures At(path, plan, v, x) && Active(Last(path), v, c)
  {
    var long := path + [c];
    assert Active(long[|path| - 1], v, long[|path|]);
    forall k | 0 <= k < |path| - 1
      ensures Active(path[k], v, path[k + 1])
    {
      assert Active(long[k], v, long[k + 1]);
    }
  }

  /** An event that the focused node offers, and that touches only it, is a run of the whole process. */
  lemma FocusedEvent(path: seq<Node>, plan: Plan, v: View, x: Name, e: Event)
    requires At(path, plan, v, x)
    requires e.Advance? ==> e.node in v.operations
    requires !e.Advance? ==> Benign(Last(path), v) && !Complete(Last(path), v) && Enabled(Last(path), v, e)
    requires e.node in Ids(Last(path)) && x !in DoneIn(Last(path), plan, Apply(v, e))
    ensures Runs(path[0], v, [e]) && Play(v, [e]) == Apply(v, e)
    ensures At(path, plan, Apply(v, e), x) && AgreeOutside(v, Apply(v, e), Ids(Last(path)))
  {
    hide Must, DoneIn, Complete, Unique;
    if !e.Advance? { PathOffers(path, v); }
    assert AgreeOutside(v, Apply(v, e), Ids(Last(path)));
    PathFrame(path, plan, v, Apply(v, e), x);
    assert [e][1..] == [];
    assert Play(Apply(v, e), []) == Apply(v, e);
  }

  ghost predicate Drives(path: seq<Node>, plan: Plan, v: View, x: Name, events: seq<Event>, w: View)
    requires path != []
  {
    && Runs(path[0], v, events) && Play(v, events) == w
    && AgreeOutside(v, w, Ids(Last(path)))
    && At(path, plan, w, x)
  }

  lemma DrivesThen(path: seq<Node>, plan: Plan, u: View, v: View, w: View, x: Name, a: seq<Event>, b: seq<Event>)
    requires path != [] && Drives(path, plan, u, x, a, v) && Drives(path, plan, v, x, b, w)
    ensures Drives(path, plan, u, x, a + b, w)
  {
    RunsConcat(path[0], u, a, b);
    forall id | id !in Ids(Last(path))
      ensures Same(u, w, id)
    {
      assert Same(u, v, id) && Same(v, w, id);
    }
  }

  lemma DrivesUp(path: seq<Node>, plan: Plan, v: View, x: Name, events: seq<Event>, w: View, c: Node)
    requires path != [] && Drives(path + [c], plan, v, x, events, w) && Ids(c) <= Ids(Last(path))
    ensures Drives(path, plan, v, x, events, w) && Active(Last(path), w, c)
  {
    Ascend(path, plan, w, x, c);
    assert Last(path + [c]) == c;
  }

  lemma {:induction false} Above(s: set<nat>) returns (n: nat)
    ensures forall m | m in s :: m < n
  {
    if s == {} {
      n := 0;
    } else {
      var x :| x in s;
      var below := Above(s - {x});
      n := if below <= x then x + 1 else below;
      assert forall m | m in s :: m == x || m in s - {x};
    }
  }

  /** From any state that looks at a node which has not moved, there is a run that completes the node
      without finishing step `x`, provided `x` is not among the steps the node must complete. */
  lemma {:induction false} Drive(path: seq<Node>, plan: Plan, v: View, x: Name)
    returns (events: seq<Event>, w: View)
    requires At(path, plan, v, x) && !HasProgress(Last(path), v) && NoInterventions(Last(path))
    requires x !in Must(Last(path), plan)
    ensures Drives(path, plan, v, x, events, w) && Complete(Last(path), w)
    decreases Last(path), 1, 0
  {
    hide Drives, Runs, Play, AgreeOutside;
    var node := Last(path);
    PathHasLess(path, plan, v, x);
    match node
    case Operation(_, _) =>
      events, w := DriveOperation(path, plan, v, x);
    case Sequence(_, children) =>
      events, w := DriveInOrder(path, plan, v, x, 0);
      AllComplete(children, w);
    case ParallelAll(_, children) =>
      UnmovedIsBenignEach(children, v);
      events, w := DriveTogether(path, plan, v, x, 0);
      EachEvaluates(children, w);
    case Branch(_, _, _, _) =>
      events, w := DriveBranch(path, plan, v, x);
    case Wait(_, _) =>
      events, w := DriveWait(path, plan, v, x);
  }

  lemma DriveBranch(path: seq<Node>, plan: Plan, v: View, x: Name)
    returns (events: seq<Event>, w: View)
    requires At(path, plan, v, x) && !HasProgress(Last(path), v) && NoInterventions(Last(path))
    requires Last(path).Branch? && x !in Must(Last(path), plan)
    ensures Drives(path, plan, v, x, events, w) && Complete(Last(path), w)
    decreases Last(path), 0, 0
  {
    var Branch(id, _, t, f) := Last(path);
    var chosen := x !in Must(t, plan);
    var child := if chosen then t else f;
    var v1 := TakeBranch(path, plan, v, x, chosen);
    var more, v2 := Drive(path + [child], plan, v1, x);
    DrivesUp(path, plan, v1, x, more, v2, child);
    DrivesThen(path, plan, v, v1, v2, x, [Choose(id, chosen)], more);
    events, w := [Choose(id, chosen)] + more, v2;
  }

  lemma DriveWait(path: seq<Node>, plan: Plan, v: View, x: Name)
    returns (events: seq<Event>, w: View)
    requires At(path, plan, v, x) && !HasProgress(Last(path), v) && Last(path).Wait?
    ensures Drives(path, plan, v, x, events, w) && Complete(Last(path), w)
  {
    var e := EndWait(Last(path).id, true);
    FocusedEvent(path, plan, v, x, e);
    events, w := [e], Apply(v, e);
  }

  /** Choosing a side of a branch that has not moved puts that side in focus. */
  lemma TakeBranch(path: seq<Node>, plan: Plan, v: View, x: Name, chosen: bool) returns (w: View)
    requires At(path, plan, v, x) && Last(path).Branch?
    requires !HasProgress(Last(path), v) && NoInterventions(Last(path))
    ensures Drives(path, plan, v, x, [Choose(Last(path).id, chosen)], w)
    ensures var c := if chosen then Last(path).whenTrue else Last(path).whenFalse;
      && At(path + [c], plan, w, x) && Last(path + [c]) == c && Ids(c) <= Ids(Last(path))
      && !HasProgress(c, w) && NoInterventions(c)
  {
    var node := Last(path);
    var e := Choose(node.id, chosen);
    PathHasLess(path, plan, v, x);
    UnmovedIsBenign(node, v);
    UnmovedFrame(node, v, e);
    FocusedEvent(path, plan, v, x, e);
    w := Apply(v, e);
    Descend(path, plan, w, x, if chosen then node.whenTrue else node.whenFalse);
  }

  lemma DriveOperation(path: seq<Node>, plan: Plan, v: View, x: Name)
    returns (events: seq<Event>, w: View)
    requires At(path, plan, v, x) && !HasProgress(Last(path), v) && Last(path).Operation?
    requires x !in Must(Last(path), plan)
    ensures Drives(path, plan, v, x, events, w) && Complete(Last(path), w)
  {
    var id := Last(path).id;
    var operation := FreshOperation(v);
    var start := Start(id, operation, 0);
    FocusedEvent(path, plan, v, x, start);
    var v1 := Apply(v, start);
    var advance := Advance(id, Op.CleanLife(0));
    FinishOperation(path, plan, v1, x, operation, advance);
    w := Apply(v1, advance);
    events := [start] + [advance];
    DrivesThen(path, plan, v, v1, w, x, [start], [advance]);
  }

  lemma FinishOperation(path: seq<Node>, plan: Plan, v: View, x: Name, operation: Id, advance: Event)
    requires At(path, plan, v, x) && Last(path).Operation? && x !in Must(Last(path), plan)
    requires Last(path).id in v.operations && v.operations[Last(path).id] == Op.Admit(operation, 0)
    requires advance == Advance(Last(path).id, Op.CleanLife(0))
    ensures Drives(path, plan, v, x, [advance], Apply(v, advance)) && Complete(Last(path), Apply(v, advance))
  {
    Op.CleanLifeReleases(operation, 0, 0);
    FocusedEvent(path, plan, v, x, advance);
  }

  /** An operation identity that no recorded operation uses. */
  lemma FreshOperation(v: View) returns (id: Id)
    ensures forall n | n in v.operations :: v.operations[n].id != id
  {
    var used := set n | n in v.operations :: v.operations[n].id;
    id := Above(used);
    forall n | n in v.operations
      ensures v.operations[n].id != id
    {
      assert v.operations[n].id in used;
    }
  }

  /** Choosing a branch moves neither of its sides. */
  lemma UnmovedFrame(node: Node, v: View, e: Event)
    requires node.Branch? && Unique(node) && !HasProgress(node, v) && e.Choose? && e.node == node.id
    requires NoInterventions(node)
    ensures !HasProgress(node.whenTrue, Apply(v, e)) && !HasProgress(node.whenFalse, Apply(v, e))
    ensures forall plan :: DoneIn(node, plan, Apply(v, e)) == {}
  {
    EvaluateFrame(node.whenTrue, v, Apply(v, e));
    EvaluateFrame(node.whenFalse, v, Apply(v, e));
    UnmovedIsBenign(node.whenTrue, Apply(v, e));
    UnmovedIsBenign(node.whenFalse, Apply(v, e));
  }

  lemma {:induction false} AllComplete(children: seq<Node>, v: View)
    requires forall j | 0 <= j < |children| :: Complete(children[j], v)
    ensures EvaluateSequence(children, v) == Ok(Idle(Completed))
    decreases children
  {
    if children != [] {
      assert Complete(children[0], v);
      assert forall j | 0 <= j < |children[1..]| :: children[1..][j] == children[j + 1];
      AllComplete(children[1..], v);
    }
  }

  lemma UnmovedIsBenignEach(children: seq<Node>, v: View)
    requires forall c | c in children :: !HasProgress(c, v) && NoInterventions(c)
    ensures forall j | 0 <= j < |children| :: Benign(children[j], v)
  {
    UnmovedEach(children, v);
  }

  lemma {:induction false} MustMember(nodes: seq<Node>, plan: Plan, i: nat)
    requires i < |nodes|
    ensures Must(nodes[i], plan) <= MustEach(nodes, plan)
    decreases nodes
  {
    if i > 0 { MustMember(nodes[1..], plan, i - 1); }
  }

  /** One child of a group, driven to completion while its siblings stay as they are. */
  lemma DriveChild(path: seq<Node>, plan: Plan, v: View, x: Name, children: seq<Node>, i: nat)
    returns (events: seq<Event>, w: View)
    requires At(path, plan, v, x) && i < |children|
    requires Last(path) == Sequence(Last(path).id, children) || Last(path) == ParallelAll(Last(path).id, children)
    requires Active(Last(path), v, children[i])
    requires !HasProgress(children[i], v) && NoInterventions(children[i]) && x !in Must(children[i], plan)
    ensures Drives(path, plan, v, x, events, w) && Complete(children[i], w)
    ensures forall j | 0 <= j < |children| && j != i ::
      && Evaluate(children[j], v) == Evaluate(children[j], w)
      && HasProgress(children[j], v) == HasProgress(children[j], w)
    decreases Last(path), 0, 0
  {
    PathHasLess(path, plan, v, x);
    Descend(path, plan, v, x, children[i]);
    assert children[i] in children;
    events, w := Drive(path + [children[i]], plan, v, x);
    SiblingsKeep(children, v, w, i);
    DrivesUp(path, plan, v, x, events, w, children[i]);
  }

  lemma {:induction false} DriveInOrder(path: seq<Node>, plan: Plan, v: View, x: Name, i: nat)
    returns (events: seq<Event>, w: View)
    requires At(path, plan, v, x) && Last(path).Sequence? && i <= |Last(path).children|
    requires NoInterventions(Last(path)) && x !in Must(Last(path), plan)
    requires forall j | 0 <= j < i :: Complete(Last(path).children[j], v)
    requires forall j | i <= j < |Last(path).children| :: !HasProgress(Last(path).children[j], v)
    ensures Drives(path, plan, v, x, events, w)
    ensures forall j | 0 <= j < |Last(path).children| :: Complete(Last(path).children[j], w)
    decreases Last(path), 0, |Last(path).children| - i + 1
  {
    var children := Last(path).children;
    if i == |children| {
      events, w := [], v;
    } else {
      MustMember(children, plan, i);
      assert ActiveInSequence(children, v, i);
      assert children[i] in children;
      var a, v1 := DriveChild(path, plan, v, x, children, i);
      var b, v2 := DriveInOrder(path, plan, v1, x, i + 1);
      DrivesThen(path, plan, v, v1, v2, x, a, b);
      events, w := a + b, v2;
    }
  }

  lemma {:induction false} DriveTogether(path: seq<Node>, plan: Plan, v: View, x: Name, i: nat)
    returns (events: seq<Event>, w: View)
    requires At(path, plan, v, x) && Last(path).ParallelAll? && i <= |Last(path).children|
    requires NoInterventions(Last(path)) && x !in Must(Last(path), plan)
    requires forall j | 0 <= j < i :: Complete(Last(path).children[j], v)
    requires forall j | i <= j < |Last(path).children| ::
               !HasProgress(Last(path).children[j], v) && Benign(Last(path).children[j], v)
    ensures Drives(path, plan, v, x, events, w)
    ensures forall j | 0 <= j < |Last(path).children| :: Complete(Last(path).children[j], w)
    decreases Last(path), 0, |Last(path).children| - i + 1
  {
    var children := Last(path).children;
    if i == |children| {
      events, w := [], v;
    } else {
      MustMember(children, plan, i);
      assert ActiveInParallel(children, v, i) by {
        assert forall j | 0 <= j < i :: Complete(children[j], v) ==> Benign(children[j], v);
      }
      assert children[i] in children;
      var a, v1 := DriveChild(path, plan, v, x, children, i);
      var b, v2 := DriveTogether(path, plan, v1, x, i + 1);
      DrivesThen(path, plan, v, v1, v2, x, a, b);
      events, w := a + b, v2;
    }
  }

  // ---------------------------------------------------------------- a refusal is never a false alarm

  /** The first missing predecessor the checker meets in a tree it refuses for order. */
  ghost function Culprit(node: Node, plan: Plan, done: set<Name>): Name
    requires Check(node, plan, done) == Err(PredecessorOrder)
    decreases node
  {
    match node
    case Operation(_, binding) =>
      var p :| p in Find(plan, binding).value.predecessors && p !in done; p
    case Sequence(_, children) => CulpritInOrder(children, plan, done)
    case ParallelAll(_, children) => CulpritJoined(children, plan, done, done)
    case Branch(_, _, t, f) =>
      if Check(t, plan, done).Err? then Culprit(t, plan, done) else Culprit(f, plan, done)
  }

  ghost function CulpritInOrder(nodes: seq<Node>, plan: Plan, done: set<Name>): Name
    requires CheckInOrder(nodes, plan, done) == Err(PredecessorOrder)
    decreases nodes
  {
    var first := Check(nodes[0], plan, done);
    if first.Err? then Culprit(nodes[0], plan, done) else CulpritInOrder(nodes[1..], plan, first.value)
  }

  ghost function CulpritJoined(nodes: seq<Node>, plan: Plan, done: set<Name>, joined: set<Name>): Name
    requires CheckJoined(nodes, plan, done, joined) == Err(PredecessorOrder)
    decreases nodes
  {
    var first := Check(nodes[0], plan, done);
    if first.Err? then Culprit(nodes[0], plan, done)
    else CulpritJoined(nodes[1..], plan, done, joined + first.value)
  }

  lemma {:induction false} CulpritIsNew(node: Node, plan: Plan, done: set<Name>)
    requires Check(node, plan, done) == Err(PredecessorOrder)
    ensures Culprit(node, plan, done) !in done
    decreases node, 1
  {
    match node
    case Operation(_, _) =>
    case Sequence(_, children) => CulpritInOrderIsNew(children, plan, done);
    case ParallelAll(_, children) => CulpritJoinedIsNew(children, plan, done, done);
    case Branch(_, _, t, f) =>
      if Check(t, plan, done).Err? { CulpritIsNew(t, plan, done); } else { CulpritIsNew(f, plan, done); }
  }

  lemma {:induction false} CulpritInOrderIsNew(nodes: seq<Node>, plan: Plan, done: set<Name>)
    requires CheckInOrder(nodes, plan, done) == Err(PredecessorOrder)
    ensures CulpritInOrder(nodes, plan, done) !in done
    decreases nodes, 0
  {
    if Check(nodes[0], plan, done).Err? {
      CulpritIsNew(nodes[0], plan, done);
    } else {
      CheckReturnsMust(nodes[0], plan, done);
      CulpritInOrderIsNew(nodes[1..], plan, Check(nodes[0], plan, done).value);
    }
  }

  lemma {:induction false} CulpritJoinedIsNew(nodes: seq<Node>, plan: Plan, done: set<Name>, joined: set<Name>)
    requires CheckJoined(nodes, plan, done, joined) == Err(PredecessorOrder)
    ensures CulpritJoined(nodes, plan, done, joined) !in done
    decreases nodes, 0
  {
    if Check(nodes[0], plan, done).Err? {
      CulpritIsNew(nodes[0], plan, done);
    } else {
      CulpritJoinedIsNew(nodes[1..], plan, done, joined + Check(nodes[0], plan, done).value);
    }
  }

  /** The planner offers an operation whose step still waits for `x`. */
  ghost predicate OffersEarly(root: Node, plan: Plan, w: View, x: Name, op: Node) {
    && op in Actions(root) && op.Operation?
    && Evaluate(root, w).Ok? && op.id in Evaluate(root, w).value.operations
    && Find(plan, op.binding).Ok? && x in Find(plan, op.binding).value.predecessors
    && x !in DoneIn(root, plan, w)
  }

  /** From any state that looks at a refused node, some run reaches a state that offers too early. */
  lemma {:induction false} ReachEarly(path: seq<Node>, plan: Plan, v: View, done: set<Name>, x: Name)
    returns (events: seq<Event>, w: View, op: Node)
    requires At(path, plan, v, x) && !HasProgress(Last(path), v) && NoInterventions(Last(path))
    requires Check(Last(path), plan, done) == Err(PredecessorOrder) && x == Culprit(Last(path), plan, done)
    ensures Runs(path[0], v, events) && Play(v, events) == w
    ensures OffersEarly(path[0], plan, w, x, op)
    decreases Last(path), 1, 0
  {
    var node := Last(path);
    PathHasLess(path, plan, v, x);
    match node
    case Operation(_, _) =>
      PathOffers(path, v);
      events, w, op := [], v, node;
    case Sequence(_, children) =>
      events, w, op := ReachEarlyInOrder(path, plan, v, done, x, 0);
    case ParallelAll(_, children) =>
      UnmovedIsBenignEach(children, v);
      events, w, op := ReachEarlyTogether(path, plan, v, done, done, x, 0);
    case Branch(id, _, t, f) =>
      var chosen := Check(t, plan, done).Err?;
      var child := if chosen then t else f;
      var v1 := TakeBranch(path, plan, v, x, chosen);
      var more;
      more, w, op := ReachEarly(path + [child], plan, v1, done, x);
      RunsConcat(path[0], v, [Choose(id, chosen)], more);
      events := [Choose(id, chosen)] + more;
  }

  lemma {:induction false} ReachEarlyInOrder(path: seq<Node>, plan: Plan, v: View, done: set<Name>, x: Name, i: nat)
    returns (events: seq<Event>, w: View, op: Node)
    requires At(path, plan, v, x) && Last(path).Sequence? && i <= |Last(path).children|
    requires NoInterventions(Last(path))
    requires forall j | 0 <= j < i :: Complete(Last(path).children[j], v)
    requires forall j | i <= j < |Last(path).children| :: !HasProgress(Last(path).children[j], v)
    requires var rest := Last(path).children[i..];
      && CheckInOrder(rest, plan, done) == Err(PredecessorOrder)
      && x == CulpritInOrder(rest, plan, done)
    ensures Runs(path[0], v, events) && Play(v, events) == w
    ensures OffersEarly(path[0], plan, w, x, op)
    decreases Last(path), 0, |Last(path).children| - i
  {
    var children := Last(path).children;
    var rest := children[i..];
    assert i < |children| && rest[0] == children[i] && rest[1..] == children[i + 1..];
    assert children[i] in children;
    assert ActiveInSequence(children, v, i);
    var first := Check(children[i], plan, done);
    if first.Err? {
      Descend(path, plan, v, x, children[i]);
      events, w, op := ReachEarly(path + [children[i]], plan, v, done, x);
    } else {
      CheckReturnsMust(children[i], plan, done);
      CulpritInOrderIsNew(rest[1..], plan, first.value);
      var a, v1 := DriveChild(path, plan, v, x, children, i);
      var b;
      b, w, op := ReachEarlyInOrder(path, plan, v1, first.value, x, i + 1);
      RunsConcat(path[0], v, a, b);
      events := a + b;
    }
  }

  lemma {:induction false} ReachEarlyTogether(
      path: seq<Node>, plan: Plan, v: View, done: set<Name>, joined: set<Name>, x: Name, i: nat)
    returns (events: seq<Event>, w: View, op: Node)
    requires At(path, plan, v, x) && Last(path).ParallelAll? && i <= |Last(path).children|
    requires NoInterventions(Last(path))
    requires forall j | 0 <= j < |Last(path).children| ::
               !HasProgress(Last(path).children[j], v) && Benign(Last(path).children[j], v)
    requires var rest := Last(path).children[i..];
      && CheckJoined(rest, plan, done, joined) == Err(PredecessorOrder)
      && x == CulpritJoined(rest, plan, done, joined)
    ensures Runs(path[0], v, events) && Play(v, events) == w
    ensures OffersEarly(path[0], plan, w, x, op)
    decreases Last(path), 0, |Last(path).children| - i
  {
    var children := Last(path).children;
    var rest := children[i..];
    assert i < |children| && rest[0] == children[i] && rest[1..] == children[i + 1..];
    assert children[i] in children;
    var first := Check(children[i], plan, done);
    if first.Err? {
      assert ActiveInParallel(children, v, i);
      Descend(path, plan, v, x, children[i]);
      events, w, op := ReachEarly(path + [children[i]], plan, v, done, x);
    } else {
      events, w, op := ReachEarlyTogether(path, plan, v, done, joined + first.value, x, i + 1);
    }
  }

  // ---------------------------------------------------------------- the analysis is exact

  lemma {:induction false} NothingHasMoved(node: Node)
    ensures !HasProgress(node, NO_PROGRESS)
    decreases node
  {
    match node
    case Sequence(_, children) => forall c | c in children ensures !HasProgress(c, NO_PROGRESS) { NothingHasMoved(c); }
    case ParallelAll(_, children) => forall c | c in children ensures !HasProgress(c, NO_PROGRESS) { NothingHasMoved(c); }
    case Branch(_, _, t, f) => NothingHasMoved(t); NothingHasMoved(f);
    case _ =>
  }

  ghost predicate Resolvable(root: Node, plan: Plan) {
    forall op | op in Actions(root) :: op.Operation? && Find(plan, op.binding).Ok?
  }

  lemma {:induction false} ResolvableRefusal(node: Node, plan: Plan, done: set<Name>)
    requires Resolvable(node, plan)
    ensures Check(node, plan, done).Err? ==> Check(node, plan, done).error == PredecessorOrder
    decreases node, 1
  {
    match node
    case Operation(_, _) => assert node in Actions(node);
    case Sequence(_, children) => ResolvableRefusals(children, plan, done, done);
    case ParallelAll(_, children) => ResolvableRefusals(children, plan, done, done);
    case Branch(_, _, t, f) =>
      ResolvableRefusal(t, plan, done);
      ResolvableRefusal(f, plan, done);
    case _ =>
  }

  lemma {:induction false} ResolvableRefusals(nodes: seq<Node>, plan: Plan, done: set<Name>, joined: set<Name>)
    requires forall op | op in ActionsOf(nodes) :: op.Operation? && Find(plan, op.binding).Ok?
    ensures var r := CheckInOrder(nodes, plan, done); r.Err? ==> r.error == PredecessorOrder
    ensures var r := CheckJoined(nodes, plan, done, joined); r.Err? ==> r.error == PredecessorOrder
    decreases nodes, 0
  {
    if nodes != [] {
      ResolvableRefusal(nodes[0], plan, done);
      var first := Check(nodes[0], plan, done);
      if first.Ok? {
        ResolvableRefusals(nodes[1..], plan, done, joined + first.value);
        ResolvableRefusals(nodes[1..], plan, first.value, first.value);
      }
    }
  }

  /** A run that starts an operation before one of its step's predecessors has finished. */
  ghost predicate StartsEarly(root: Node, plan: Plan, events: seq<Event>, i: nat, op: Node) {
    && Runs(root, NO_PROGRESS, events) && i < |events| && events[i].Start?
    && op in Actions(root) && op.Operation? && op.id == events[i].node
    && !GateOpen(plan, op.binding, DoneIn(root, plan, Play(NO_PROGRESS, events[..i])))
  }

  /** A tree is accepted exactly when no run at all starts an operation too early. */
  lemma AcceptedExactlyWhenNoRunIsEarly(root: Node, plan: Plan)
    requires Unique(root) && NoInterventions(root) && Resolvable(root, plan)
    ensures Check(root, plan, {}).Ok? <==> !exists events, i: nat, op :: StartsEarly(root, plan, events, i, op)
  {
    if Check(root, plan, {}).Ok? {
      forall events, i: nat, op
        ensures !StartsEarly(root, plan, events, i, op)
      {
        if StartsEarly(root, plan, events, i, op) {
          AcceptedRunsStartInOrder(root, plan, events, i, op);
        }
      }
    } else {
      ResolvableRefusal(root, plan, {});
      NothingHasMoved(root);
      UnmovedIsBenign(root, NO_PROGRESS);
      var events, w, op := ReachEarly([root], plan, NO_PROGRESS, {}, Culprit(root, plan, {}));
      StartNow(root, plan, events, w, op, Culprit(root, plan, {}));
    }
  }

  lemma StartNow(root: Node, plan: Plan, events: seq<Event>, w: View, op: Node, x: Name)
    requires Runs(root, NO_PROGRESS, events) && Play(NO_PROGRESS, events) == w
    requires OffersEarly(root, plan, w, x, op)
    ensures exists more, i: nat :: StartsEarly(root, plan, more, i, op)
  {
    var operation := FreshOperation(w);
    var e := Start(op.id, operation, 0);
    assert Enabled(root, w, e);
    assert [e][1..] == [];
    assert Runs(root, w, [e]);
    RunsConcat(root, NO_PROGRESS, events, [e]);
    assert (events + [e])[..|events|] == events;
    assert StartsEarly(root, plan, events + [e], |events|, op);
  }

  /** The returned set is exactly what every completed run has finished. */
  lemma ReturnedSetIsTheIntersection(root: Node, plan: Plan, x: Name)
    requires Unique(root) && NoInterventions(root) && Check(root, plan, {}).Ok?
    ensures x in Check(root, plan, {}).value <==>
            forall events | CompletedRun(root, events) :: x in DoneIn(root, plan, Play(NO_PROGRESS, events))
  {
    CheckReturnsMust(root, plan, {});
    if x in Check(root, plan, {}).value {
      forall events | CompletedRun(root, events)
        ensures x in DoneIn(root, plan, Play(NO_PROGRESS, events))
      {
        CompletedRunsFinishTheSet(root, plan, events);
      }
    } else {
      NothingHasMoved(root);
      UnmovedIsBenign(root, NO_PROGRESS);
      var events, w := Drive([root], plan, NO_PROGRESS, x);
      assert CompletedRun(root, events);
    }
  }
}
