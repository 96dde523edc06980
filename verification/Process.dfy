/** Compiled process trees and the planner that drives them
    (crates/rx-process-contract/src/model.rs, crates/rx-process-contract/src/frontier.rs). */
module Process {
  import opened Base
  import Op = Operations

  datatype Node =
    | Operation(id: Name, binding: Name)
    | Sequence(id: Name, children: seq<Node>)
    | ParallelAll(id: Name, children: seq<Node>)
    | Branch(id: Name, condition: Name, whenTrue: Node, whenFalse: Node)
    | Wait(id: Name, condition: Name)
    | Intervention(id: Name)

  /** The committed progress of one visit of a process. */
  datatype View = View(
    operations: map<Name, Op.Snapshot>,
    branches: map<Name, bool>,
    waits: map<Name, bool>,   // true: satisfied, false: timed out
    cleared: set<Name>)

  const NO_PROGRESS := View(map[], map[], map[], {})

  datatype State = Ready | Running | Blocked | Failed | Completed

  datatype Frontier = Frontier(
    state: State, operations: seq<Name>, decisions: seq<Name>, waits: seq<Name>,
    handovers: seq<Name>, interventions: seq<Name>, pending: seq<Id>)

  datatype Contradiction = CrossesSequence | UnselectedBranch | UncommittedChoice

  function Idle(state: State): Frontier {
    Frontier(state, [], [], [], [], [], [])
  }

  /** One operation node against its recorded operation, if any. */
  function EvaluateOperation(id: Name, view: View): Frontier {
    if id !in view.operations then Idle(Ready).(operations := [id]) else
    var op := view.operations[id];
    if op.integrity == Op.Disputed || op.outcome == Op.Unresolved || op.knowledge == Op.Unknown
    then Idle(Blocked).(pending := [op.id])
    else match op.outcome
      case Succeeded =>
        if op.disposition == Op.Released then Idle(Completed) else Idle(Running).(handovers := [id])
      case Failed => Idle(State.Failed)
      case Canceled => Idle(State.Failed)
      case NotExecuted => Idle(State.Failed)
      case _ => Idle(Running).(pending := [op.id])
  }

  function Evaluate(node: Node, view: View): Result<Frontier, Contradiction>
    decreases node
  {
    match node
    case Operation(id, _) => Ok(EvaluateOperation(id, view))
    case Sequence(_, children) => EvaluateSequence(children, view)
    case ParallelAll(_, children) =>
      var results := EvaluateEach(children, view);
      if results.Err? then Err(results.error) else Ok(Joined(results.value))
    case Branch(id, _, t, f) =>
      if id in view.branches then
        if HasProgress(if view.branches[id] then f else t, view) then Err(UnselectedBranch)
        else if view.branches[id] then Evaluate(t, view) else Evaluate(f, view)
      else if HasProgress(t, view) || HasProgress(f, view) then Err(UncommittedChoice)
      else Ok(Idle(Running).(decisions := [id]))
    case Wait(id, _) =>
      if id in view.waits then Ok(Idle(if view.waits[id] then Completed else State.Failed))
      else Ok(Idle(Running).(waits := [id]))
    case Intervention(id) =>
      if id in view.cleared then Ok(Idle(Completed)) else Ok(Idle(Blocked).(interventions := [id]))
  }

  /** The first child that is not complete speaks for the sequence; nothing after it may have moved. */
  function EvaluateSequence(children: seq<Node>, view: View): Result<Frontier, Contradiction>
    decreases children
  {
    if children == [] then Ok(Idle(Completed)) else
    var first := Evaluate(children[0], view);
    if first.Ok? && first.value.state == Completed then EvaluateSequence(children[1..], view)
    else if first.Ok? && exists c | c in children[1..] :: HasProgress(c, view) then Err(CrossesSequence)
    else first
  }

  function EvaluateEach(children: seq<Node>, view: View): (r: Result<seq<Frontier>, Contradiction>)
    ensures r.Ok? ==> |r.value| == |children|
    decreases children
  {
    if children == [] then Ok([]) else
    var first := Evaluate(children[0], view);
    if first.Err? then Err(first.error) else
    var rest := EvaluateEach(children[1..], view);
    if rest.Err? then Err(rest.error) else Ok([first.value] + rest.value)
  }

  function Merged(results: seq<Frontier>): Frontier {
    if results == [] then Idle(Running) else
    var a, b := results[0], Merged(results[1..]);
    Frontier(Running, a.operations + b.operations, a.decisions + b.decisions, a.waits + b.waits,
             a.handovers + b.handovers, a.interventions + b.interventions, a.pending + b.pending)
  }

  predicate AnyIn(results: seq<Frontier>, state: State) {
    exists r | r in results :: r.state == state
  }

  function Joined(results: seq<Frontier>): Frontier {
    var all := Merged(results);
    var blocked, failed := AnyIn(results, Blocked), AnyIn(results, State.Failed);
    var state :=
      if blocked || (failed && all.pending != []) then Blocked
      else if failed then State.Failed
      else if forall r | r in results :: r.state == Completed then Completed
      else if all.operations != [] then Ready
      else Running;
    var all := all.(state := state);
    if blocked || failed then all.(operations := [], decisions := [], waits := []) else all
  }

  predicate HasProgress(node: Node, view: View)
    decreases node
  {
    || node.id in view.operations || node.id in view.branches
    || node.id in view.waits || node.id in view.cleared
    || match node
       case Sequence(_, children) => exists c | c in children :: HasProgress(c, view)
       case ParallelAll(_, children) => exists c | c in children :: HasProgress(c, view)
       case Branch(_, _, t, f) => HasProgress(t, view) || HasProgress(f, view)
       case _ => false
  }

  /** The identities used in a tree. */
  function Ids(node: Node): set<Name>
    decreases node
  {
    match node
    case Sequence(id, children) => {id} + IdsOf(children)
    case ParallelAll(id, children) => {id} + IdsOf(children)
    case Branch(id, _, t, f) => {id} + Ids(t) + Ids(f)
    case _ => {node.id}
  }

  function IdsOf(nodes: seq<Node>): set<Name>
    decreases nodes
  {
    if nodes == [] then {} else Ids(nodes[0]) + IdsOf(nodes[1..])
  }

  /** No identity occurs twice, as the compiled-process validator demands. */
  predicate Unique(node: Node)
    decreases node
  {
    match node
    case Sequence(id, children) => id !in IdsOf(children) && UniqueEach(children)
    case ParallelAll(id, children) => id !in IdsOf(children) && UniqueEach(children)
    case Branch(id, _, t, f) => id !in Ids(t) + Ids(f) && Ids(t) !! Ids(f) && Unique(t) && Unique(f)
    case _ => true
  }

  predicate UniqueEach(nodes: seq<Node>)
    decreases nodes
  {
    nodes != [] ==> Unique(nodes[0]) && Ids(nodes[0]) !! IdsOf(nodes[1..]) && UniqueEach(nodes[1..])
  }

  /** Process review refuses a tree that contains an intervention before it checks predecessors. */
  predicate NoInterventions(node: Node)
    decreases node
  {
    match node
    case Sequence(_, children) => forall c | c in children :: NoInterventions(c)
    case ParallelAll(_, children) => forall c | c in children :: NoInterventions(c)
    case Branch(_, _, t, f) => NoInterventions(t) && NoInterventions(f)
    case Intervention(_) => false
    case _ => true
  }

  /** The operation nodes of a tree. */
  function Actions(node: Node): set<Node>
    decreases node
  {
    match node
    case Operation(_, _) => {node}
    case Sequence(_, children) => ActionsOf(children)
    case ParallelAll(_, children) => ActionsOf(children)
    case Branch(_, _, t, f) => Actions(t) + Actions(f)
    case _ => {}
  }

  function ActionsOf(nodes: seq<Node>): set<Node>
    decreases nodes
  {
    if nodes == [] then {} else Actions(nodes[0]) + ActionsOf(nodes[1..])
  }

  /** The operation behind a node succeeded undisputed and has been handed over. */
  predicate Finished(view: View, id: Name) {
    id in view.operations && EvaluateOperation(id, view).state == Completed
  }

  /** Two views that record the same about one identity. */
  ghost predicate Same(v: View, w: View, id: Name) {
    && (id in v.operations <==> id in w.operations)
    && (id in v.operations ==> v.operations[id] == w.operations[id])
    && (id in v.branches <==> id in w.branches)
    && (id in v.branches ==> v.branches[id] == w.branches[id])
    && (id in v.waits <==> id in w.waits)
    && (id in v.waits ==> v.waits[id] == w.waits[id])
    && (id in v.cleared <==> id in w.cleared)
  }

  ghost predicate Agree(v: View, w: View, ids: set<Name>) {
    forall id | id in ids :: Same(v, w, id)
  }

  ghost predicate AgreeOutside(v: View, w: View, ids: set<Name>) {
    forall id | id !in ids :: Same(v, w, id)
  }

  lemma {:induction false} IdsOfMember(nodes: seq<Node>, i: nat)
    requires i < |nodes|
    ensures Ids(nodes[i]) <= IdsOf(nodes)
  {
    if i > 0 { IdsOfMember(nodes[1..], i - 1); }
  }

  lemma {:induction false} UniqueMembers(nodes: seq<Node>, i: nat, j: nat)
    requires UniqueEach(nodes) && i < j < |nodes|
    ensures Unique(nodes[i]) && Unique(nodes[j]) && Ids(nodes[i]) !! Ids(nodes[j])
  {
    if i > 0 {
      UniqueMembers(nodes[1..], i - 1, j - 1);
    } else {
      IdsOfMember(nodes[1..], j - 1);
      UniqueMember(nodes, j);
    }
  }

  lemma {:induction false} UniqueMember(nodes: seq<Node>, i: nat)
    requires UniqueEach(nodes) && i < |nodes|
    ensures Unique(nodes[i])
  {
    if i > 0 { UniqueMember(nodes[1..], i - 1); }
  }

  /** The planner reads only the identities of the tree it is given. */
  lemma {:induction false} EvaluateFrame(node: Node, v: View, w: View)
    requires Agree(v, w, Ids(node))
    ensures Evaluate(node, v) == Evaluate(node, w)
    ensures HasProgress(node, v) == HasProgress(node, w)
    decreases node, 1
  {
    match node
    case Operation(id, _) => assert id in Ids(node);
    case Sequence(id, children) => EvaluateFrameEach(children, v, w); assert id in Ids(node);
    case ParallelAll(id, children) => EvaluateFrameEach(children, v, w); assert id in Ids(node);
    case Branch(id, _, t, f) =>
      assert id in Ids(node);
      EvaluateFrame(t, v, w);
      EvaluateFrame(f, v, w);
    case Wait(id, _) => assert id in Ids(node);
    case Intervention(id) => assert id in Ids(node);
  }

  lemma {:induction false} EvaluateFrameEach(nodes: seq<Node>, v: View, w: View)
    requires Agree(v, w, IdsOf(nodes))
    ensures EvaluateSequence(nodes, v) == EvaluateSequence(nodes, w)
    ensures EvaluateEach(nodes, v) == EvaluateEach(nodes, w)
    ensures forall c | c in nodes :: HasProgress(c, v) == HasProgress(c, w)
    decreases nodes, 0
  {
    if nodes != [] {
      EvaluateFrame(nodes[0], v, w);
      EvaluateFrameEach(nodes[1..], v, w);
      assert forall c | c in nodes :: c == nodes[0] || c in nodes[1..];
    }
  }
}
