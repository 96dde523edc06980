/** What the planner's answer means (crates/rx-process-contract/src/frontier.rs): which nodes a process stands at,
    and what is said about each of them, read off the recorded progress. */
module Planner {
  import opened Base
  import opened Process
  import opened ProcessRuns
  import Op = Operations

  // ---------------------------------------------------------------- what a recorded operation calls for

  predicate NeedsReconciling(s: Op.Snapshot) {
    s.integrity == Op.Disputed || s.outcome == Op.Unresolved || s.knowledge == Op.Unknown
  }

  predicate EndedBadly(s: Op.Snapshot) {
    !NeedsReconciling(s) && (s.outcome == Op.Failed || s.outcome == Op.Canceled || s.outcome == Op.NotExecuted)
  }

  predicate DueForHandover(s: Op.Snapshot) {
    !NeedsReconciling(s) && s.outcome == Op.Succeeded && s.disposition != Op.Released
  }

  predicate HandedOver(s: Op.Snapshot) {
    !NeedsReconciling(s) && s.outcome == Op.Succeeded && s.disposition == Op.Released
  }

  predicate Outstanding(s: Op.Snapshot) {
    NeedsReconciling(s) || s.outcome == Op.NoOutcome
  }

  // ---------------------------------------------------------------- where a process stands

  predicate Done(node: Node, v: View)
    decreases node
  {
    match node
    case Operation(id, _) => id in v.operations && HandedOver(v.operations[id])
    case Wait(id, _) => id in v.waits && v.waits[id]
    case Intervention(id) => id in v.cleared
    case Branch(id, _, t, f) => id in v.branches && if v.branches[id] then Done(t, v) else Done(f, v)
    case Sequence(_, children) => forall c | c in children :: Done(c, v)
    case ParallelAll(_, children) => forall c | c in children :: Done(c, v)
  }

  /** The nodes the process stands at, in the order of the tree: those not done that nothing unfinished precedes. */
  function Front(node: Node, v: View): seq<Node>
    decreases node, 1
  {
    match node
    case Sequence(_, children) => FirstFront(children, v)
    case ParallelAll(_, children) => EveryFront(children, v)
    case Branch(id, _, t, f) => if id !in v.branches then [node] else if v.branches[id] then Front(t, v) else Front(f, v)
    case _ => if Done(node, v) then [] else [node]
  }

  function FirstFront(nodes: seq<Node>, v: View): seq<Node>
    decreases nodes, 0
  {
    if nodes == [] then [] else if Done(nodes[0], v) then FirstFront(nodes[1..], v) else Front(nodes[0], v)
  }

  function EveryFront(nodes: seq<Node>, v: View): seq<Node>
    decreases nodes, 0
  {
    if nodes == [] then [] else Front(nodes[0], v) + EveryFront(nodes[1..], v)
  }

  /** Somebody has to settle this first: an operation to reconcile, or an intervention. */
  predicate Stops(n: Node, v: View) {
    n.Intervention? || (n.Operation? && n.id in v.operations && NeedsReconciling(v.operations[n.id]))
  }

  /** This has gone wrong for good: an operation that ended badly, or a wait that timed out. */
  predicate Fails(n: Node, v: View) {
    || (n.Operation? && n.id in v.operations && EndedBadly(v.operations[n.id]))
    || (n.Wait? && n.id in v.waits && !v.waits[n.id])
  }

  predicate IsPending(n: Node, v: View) {
    n.Operation? && n.id in v.operations && Outstanding(v.operations[n.id])
  }

  predicate IsDue(n: Node, v: View) {
    n.Operation? && n.id in v.operations && DueForHandover(v.operations[n.id])
  }

  /** Nothing is recorded for this node yet. */
  predicate IsNew(n: Node, v: View) {
    match n
    case Operation(id, _) => id !in v.operations
    case Wait(id, _) => id !in v.waits
    case Branch(id, _, _, _) => id !in v.branches
    case _ => false
  }

  predicate AnyStops(nodes: seq<Node>, v: View) { exists n | n in nodes :: Stops(n, v) }
  predicate AnyFails(nodes: seq<Node>, v: View) { exists n | n in nodes :: Fails(n, v) }
  predicate AnyPending(nodes: seq<Node>, v: View) { exists n | n in nodes :: IsPending(n, v) }
  predicate InTrouble(nodes: seq<Node>, v: View) { AnyStops(nodes, v) || AnyFails(nodes, v) }

  /** The new nodes that may begin: a parallel node lets nothing begin while one of the nodes it stands at, however
      deep, stops it or has failed. */
  function Open(node: Node, v: View): seq<Node>
    decreases node, 1
  {
    match node
    case Sequence(_, children) => FirstOpen(children, v)
    case ParallelAll(_, children) => if InTrouble(Front(node, v), v) then [] else EveryOpen(children, v)
    case Branch(id, _, t, f) => if id !in v.branches then [node] else if v.branches[id] then Open(t, v) else Open(f, v)
    case _ => if IsNew(node, v) then [node] else []
  }

  function FirstOpen(nodes: seq<Node>, v: View): seq<Node>
    decreases nodes, 0
  {
    if nodes == [] then [] else if Done(nodes[0], v) then FirstOpen(nodes[1..], v) else Open(nodes[0], v)
  }

  function EveryOpen(nodes: seq<Node>, v: View): seq<Node>
    decreases nodes, 0
  {
    if nodes == [] then [] else Open(nodes[0], v) + EveryOpen(nodes[1..], v)
  }

  // ---------------------------------------------------------------- the parts of an answer

  datatype Part = Starts | Decisions | Waits | Interventions | Handovers

  predicate Belongs(n: Node, part: Part, v: View) {
    match part
    case Starts => n.Operation?
    case Decisions => n.Branch?
    case Waits => n.Wait?
    case Interventions => n.Intervention?
    case Handovers => IsDue(n, v)
  }

  /** The names of those nodes that belong to a part of the answer. */
  function Named(nodes: seq<Node>, part: Part, v: View): seq<Name> {
    if nodes == [] then [] else (if Belongs(nodes[0], part, v) then [nodes[0].id] else []) + Named(nodes[1..], part, v)
  }

  function Pending(nodes: seq<Node>, v: View): seq<Id> {
    if nodes == [] then [] else
    (if IsPending(nodes[0], v) then [v.operations[nodes[0].id].id] else []) + Pending(nodes[1..], v)
  }

  lemma {:induction false} NamedAppend(a: seq<Node>, b: seq<Node>, v: View)
    ensures forall part :: Named(a + b, part, v) == Named(a, part, v) + Named(b, part, v)
  {
    hide Belongs;
    if a == [] {
      assert a + b == b;
    } else {
      assert (a + b)[1..] == a[1..] + b;
      NamedAppend(a[1..], b, v);
    }
  }

  lemma {:induction false} PendingAppend(a: seq<Node>, b: seq<Node>, v: View)
    ensures Pending(a + b, v) == Pending(a, v) + Pending(b, v)
  {
    hide IsPending;
    if a == [] {
      assert a + b == b;
    } else {
      assert (a + b)[1..] == a[1..] + b;
      PendingAppend(a[1..], b, v);
    }
  }

  lemma {:induction false} PendingOnes(nodes: seq<Node>, v: View)
    ensures Pending(nodes, v) != [] <==> AnyPending(nodes, v)
  {
    if nodes != [] {
      PendingOnes(nodes[1..], v);
      assert forall n :: n in nodes <==> n == nodes[0] || n in nodes[1..];
    }
  }

  lemma Splits(a: seq<Node>, b: seq<Node>, v: View)
    ensures AnyStops(a + b, v) <==> AnyStops(a, v) || AnyStops(b, v)
    ensures AnyFails(a + b, v) <==> AnyFails(a, v) || AnyFails(b, v)
    ensures AnyPending(a + b, v) <==> AnyPending(a, v) || AnyPending(b, v)
  {
    hide Stops, Fails, IsPending;
    assert forall n :: n in a + b <==> n in a || n in b;
  }

  /** The state, from the nodes the process stands at. */
  ghost predicate StateIs(state: State, done: bool, front: seq<Node>, open: seq<Node>, v: View) {
    && (state == Completed <==> done)
    && (state == Blocked <==> AnyStops(front, v) || (AnyFails(front, v) && AnyPending(front, v)))
    && (state == State.Failed <==> AnyFails(front, v) && !AnyStops(front, v) && !AnyPending(front, v))
    && (state == Ready <==> !InTrouble(front, v) && Named(open, Starts, v) != [])
  }

  /** The lists, in the order of the tree. */
  ghost predicate Lists(f: Frontier, front: seq<Node>, open: seq<Node>, v: View) {
    && f.operations == Named(open, Starts, v) && f.decisions == Named(open, Decisions, v)
    && f.waits == Named(open, Waits, v) && f.interventions == Named(front, Interventions, v)
    && f.handovers == Named(front, Handovers, v) && f.pending == Pending(front, v)
  }

  ghost predicate Says(f: Frontier, done: bool, front: seq<Node>, open: seq<Node>, v: View) {
    StateIs(f.state, done, front, open, v) && Lists(f, front, open, v)
  }

  ghost predicate Answers(f: Frontier, node: Node, v: View) {
    Says(f, Done(node, v), Front(node, v), Open(node, v), v)
  }

  ghost predicate AnswersEach(fs: seq<Frontier>, nodes: seq<Node>, v: View) {
    |fs| == |nodes| && forall i | 0 <= i < |nodes| :: Answers(fs[i], nodes[i], v)
  }

  predicate AllDone(nodes: seq<Node>, v: View) {
    forall c | c in nodes :: Done(c, v)
  }

  // ---------------------------------------------------------------- the planner gives that answer

  /** Every answer of the planner says exactly where the process stands, what may begin there and what is awaited. */
  lemma {:induction false} EvaluateAnswers(node: Node, v: View)
    requires Evaluate(node, v).Ok?
    ensures Answers(Evaluate(node, v).value, node, v)
    decreases node, 1
  {
    hide Says;
    match node
    case Sequence(_, children) =>
      SequenceAnswers(children, v);
      assert Done(node, v) <==> AllDone(children, v);
    case ParallelAll(_, children) =>
      EachAnswers(children, v);
      JoinedAnswers(EvaluateEach(children, v).value, node, v);
    case Branch(id, _, t, f) =>
      if id in v.branches { EvaluateAnswers(if v.branches[id] then t else f, v); } else { LeafAnswers(node, v); }
    case _ => LeafAnswers(node, v);
  }

  lemma LeafAnswers(node: Node, v: View)
    requires node.Operation? || node.Wait? || node.Intervention? || (node.Branch? && node.id !in v.branches)
    requires Evaluate(node, v).Ok?
    ensures Answers(Evaluate(node, v).value, node, v)
  {
    hide Named, Pending, AnyStops, AnyFails, AnyPending;
    Alone(node, v);
    Nobody(v);
    if node.Operation? && node.id in v.operations { RecordedOnce(v.operations[node.id]); }
  }

  lemma RecordedOnce(s: Op.Snapshot)
    ensures NeedsReconciling(s) ==> !EndedBadly(s) && !DueForHandover(s) && !HandedOver(s) && Outstanding(s)
    ensures EndedBadly(s) ==> !DueForHandover(s) && !HandedOver(s) && !Outstanding(s)
    ensures DueForHandover(s) ==> !HandedOver(s) && !Outstanding(s)
    ensures HandedOver(s) ==> !Outstanding(s)
  {
  }

  lemma Alone(node: Node, v: View)
    ensures AnyStops([node], v) <==> Stops(node, v)
    ensures AnyFails([node], v) <==> Fails(node, v)
    ensures AnyPending([node], v) <==> IsPending(node, v)
    ensures forall part :: Named([node], part, v) == if Belongs(node, part, v) then [node.id] else []
    ensures Pending([node], v) == if IsPending(node, v) then [v.operations[node.id].id] else []
  {
    hide Stops, Fails, Belongs;
    assert node in [node] && [node][1..] == [];
  }

  lemma Nobody(v: View)
    ensures !AnyStops([], v) && !AnyFails([], v) && !AnyPending([], v) && Pending([], v) == []
    ensures forall part :: Named([], part, v) == []
  {
  }

  lemma {:induction false} SequenceAnswers(nodes: seq<Node>, v: View)
    requires EvaluateSequence(nodes, v).Ok?
    ensures Says(EvaluateSequence(nodes, v).value, AllDone(nodes, v), FirstFront(nodes, v), FirstOpen(nodes, v), v)
    decreases nodes, 0
  {
    hide Named, Pending;
    if nodes == [] {
      Nobody(v);
    } else {
      EvaluateAnswers(nodes[0], v);
      assert forall c :: c in nodes <==> c == nodes[0] || c in nodes[1..];
      if Done(nodes[0], v) { SequenceAnswers(nodes[1..], v); }
    }
  }

  lemma {:induction false} EachAnswers(nodes: seq<Node>, v: View)
    requires EvaluateEach(nodes, v).Ok?
    ensures AnswersEach(EvaluateEach(nodes, v).value, nodes, v)
    decreases nodes, 0
  {
    hide Answers;
    if nodes != [] {
      EvaluateAnswers(nodes[0], v);
      EachAnswers(nodes[1..], v);
    }
  }

  lemma ListsAppend(f: Frontier, g: Frontier, front: seq<Node>, front': seq<Node>, open: seq<Node>, open': seq<Node>, v: View)
    requires Lists(f, front, open, v) && Lists(g, front', open', v)
    ensures var h := Frontier(Running, f.operations + g.operations, f.decisions + g.decisions, f.waits + g.waits,
                              f.handovers + g.handovers, f.interventions + g.interventions, f.pending + g.pending);
      Lists(h, front + front', open + open', v)
  {
    NamedAppend(open, open', v);
    NamedAppend(front, front', v);
    PendingAppend(front, front', v);
  }

  lemma {:induction false} MergedLists(fs: seq<Frontier>, nodes: seq<Node>, v: View)
    requires AnswersEach(fs, nodes, v)
    ensures Lists(Merged(fs), EveryFront(nodes, v), EveryOpen(nodes, v), v)
    decreases nodes
  {
    hide StateIs;
    if nodes != [] {
      assert Answers(fs[0], nodes[0], v);
      MergedLists(fs[1..], nodes[1..], v);
      ListsAppend(fs[0], Merged(fs[1..]), Front(nodes[0], v), EveryFront(nodes[1..], v), Open(nodes[0], v), EveryOpen(nodes[1..], v), v);
    }
  }

  /** The states of the children, from the nodes that all of them stand at. */
  lemma {:induction false} StatesOfEach(fs: seq<Frontier>, nodes: seq<Node>, v: View)
    requires AnswersEach(fs, nodes, v)
    ensures var front := EveryFront(nodes, v);
      && (AnyStops(front, v) ==> AnyIn(fs, Blocked))
      && (AnyIn(fs, Blocked) ==> AnyStops(front, v) || (AnyFails(front, v) && AnyPending(front, v)))
      && (AnyIn(fs, State.Failed) ==> AnyFails(front, v))
      && (AnyFails(front, v) ==> AnyIn(fs, Blocked) || AnyIn(fs, State.Failed))
    ensures (forall f | f in fs :: f.state == Completed) <==> AllDone(nodes, v)
    decreases nodes
  {
    hide Lists, AnyStops, AnyFails, AnyPending, Done, Front, Open;
    if nodes == [] {
      Nobody(v);
    } else {
      assert Answers(fs[0], nodes[0], v);
      StatesOfEach(fs[1..], nodes[1..], v);
      Splits(Front(nodes[0], v), EveryFront(nodes[1..], v), v);
      assert forall f :: f in fs <==> f == fs[0] || f in fs[1..];
      assert forall c :: c in nodes <==> c == nodes[0] || c in nodes[1..];
      assert forall state :: AnyIn(fs, state) <==> fs[0].state == state || AnyIn(fs[1..], state);
    }
  }

  lemma JoinedAnswers(fs: seq<Frontier>, node: Node, v: View)
    requires node.ParallelAll? && AnswersEach(fs, node.children, v)
    ensures Answers(Joined(fs), node, v)
  {
    hide AnyStops, AnyFails, AnyPending, AnswersEach, Merged, Named, Pending;
    var nodes := node.children;
    MergedLists(fs, nodes, v);
    StatesOfEach(fs, nodes, v);
    PendingOnes(EveryFront(nodes, v), v);
    assert Done(node, v) <==> AllDone(nodes, v);
    if Done(node, v) { DoneStandsNowhere(node, v); }
    Nobody(v);
  }

  /** A process that is done stands nowhere, and nothing may begin. */
  lemma {:induction false} DoneStandsNowhere(node: Node, v: View)
    requires Done(node, v)
    ensures Front(node, v) == [] && Open(node, v) == []
    decreases node, 1
  {
    match node
    case Sequence(_, children) => AllDoneStandNowhere(children, v);
    case ParallelAll(_, children) => AllDoneStandNowhere(children, v);
    case Branch(id, _, t, f) => DoneStandsNowhere(if v.branches[id] then t else f, v);
    case _ =>
  }

  lemma {:induction false} AllDoneStandNowhere(nodes: seq<Node>, v: View)
    requires AllDone(nodes, v)
    ensures FirstFront(nodes, v) == [] && FirstOpen(nodes, v) == [] && EveryFront(nodes, v) == [] && EveryOpen(nodes, v) == []
    decreases nodes, 0
  {
    if nodes != [] {
      DoneStandsNowhere(nodes[0], v);
      AllDoneStandNowhere(nodes[1..], v);
    }
  }

  /** While a parallel node stands at a node that stops it or has failed, the planner offers nothing inside it: no
      operation, no decision and no wait. It is blocked, or it has failed and nothing is outstanding. */
  lemma TroubleHoldsBack(node: Node, v: View, n: Node)
    requires node.ParallelAll? && Evaluate(node, v).Ok? && n in Front(node, v) && (Stops(n, v) || Fails(n, v))
    ensures var f := Evaluate(node, v).value;
      && f.operations == [] && f.decisions == [] && f.waits == []
      && (f.state == Blocked || (f.state == State.Failed && f.pending == []))
  {
    EvaluateAnswers(node, v);
    PendingOnes(Front(node, v), v);
    Nobody(v);
  }

  /** And otherwise it offers everything it stands at that is new. */
  lemma {:induction false} EverythingNewIsOpen(node: Node, v: View)
    requires !InTrouble(Front(node, v), v)
    ensures forall n :: n in Open(node, v) <==> n in Front(node, v) && IsNew(n, v)
    decreases node, 1
  {
    match node
    case Sequence(_, children) => EveryNewIsOpen(children, v);
    case ParallelAll(_, children) => EveryNewIsOpen(children, v);
    case Branch(id, _, t, f) => if id in v.branches { EverythingNewIsOpen(if v.branches[id] then t else f, v); }
    case _ =>
  }

  lemma {:induction false} EveryNewIsOpen(nodes: seq<Node>, v: View)
    ensures !InTrouble(FirstFront(nodes, v), v) ==>
      forall n :: n in FirstOpen(nodes, v) <==> n in FirstFront(nodes, v) && IsNew(n, v)
    ensures !InTrouble(EveryFront(nodes, v), v) ==>
      forall n :: n in EveryOpen(nodes, v) <==> n in EveryFront(nodes, v) && IsNew(n, v)
    decreases nodes, 0
  {
    hide IsNew, AnyStops, AnyFails;
    if nodes != [] {
      Splits(Front(nodes[0], v), EveryFront(nodes[1..], v), v);
      if !InTrouble(Front(nodes[0], v), v) { EverythingNewIsOpen(nodes[0], v); }
      EveryNewIsOpen(nodes[1..], v);
    }
  }

  /** A part of the tree has moved when something is recorded under a name of it. */
  lemma {:induction false} ProgressIsARecord(node: Node, v: View)
    ensures HasProgress(node, v) <==>
      exists n | n in Ids(node) :: n in v.operations || n in v.branches || n in v.waits || n in v.cleared
    decreases node, 1
  {
    assert node.id in Ids(node);
    match node
    case Sequence(_, children) => SomeProgress(children, v);
    case ParallelAll(_, children) => SomeProgress(children, v);
    case Branch(_, _, t, f) => ProgressIsARecord(t, v); ProgressIsARecord(f, v);
    case _ => assert Ids(node) == {node.id};
  }

  lemma {:induction false} SomeProgress(nodes: seq<Node>, v: View)
    ensures (exists c | c in nodes :: HasProgress(c, v)) <==>
      exists n | n in IdsOf(nodes) :: n in v.operations || n in v.branches || n in v.waits || n in v.cleared
    decreases nodes, 0
  {
    if nodes != [] {
      ProgressIsARecord(nodes[0], v);
      SomeProgress(nodes[1..], v);
      assert forall c :: c in nodes <==> c == nodes[0] || c in nodes[1..];
    }
  }

  // ---------------------------------------------------------------- when there is no answer

  /** The planner comes to `p`: all that precedes it is done, and it lies on the chosen branch. */
  ghost predicate Reached(p: Node, node: Node, v: View)
    decreases node
  {
    || p == node
    || match node
       case Sequence(_, children) => exists i :: 0 <= i < |children| && AllDone(children[..i], v) && Reached(p, children[i], v)
       case ParallelAll(_, children) => exists c | c in children :: Reached(p, c, v)
       case Branch(id, _, t, f) => id in v.branches && if v.branches[id] then Reached(p, t, v) else Reached(p, f, v)
       case _ => false
  }

  /** What is recorded under `p` contradicts itself: progress behind an unfinished part of a sequence, on the branch
      that was not chosen, or on a branch before the choice. */
  ghost predicate Contradicts(p: Node, v: View) {
    match p
    case Sequence(_, children) =>
      exists i, j :: 0 <= i < j < |children| && AllDone(children[..i], v) && !Done(children[i], v) && HasProgress(children[j], v)
    case Branch(id, _, t, f) =>
      if id in v.branches then HasProgress(if v.branches[id] then f else t, v) else HasProgress(t, v) || HasProgress(f, v)
    case _ => false
  }

  /** The planner comes to a contradiction. */
  ghost predicate Refused(node: Node, v: View) {
    exists p :: Reached(p, node, v) && Contradicts(p, v)
  }

  /** On any progress whatsoever, the planner has no answer exactly when it comes to a contradiction. */
  lemma {:induction false} RefusesContradictions(node: Node, v: View)
    ensures Evaluate(node, v).Err? <==> Refused(node, v)
    decreases node, 1
  {
    match node
    case Sequence(_, children) => SequenceRefused(children, v); ListIsNode(node, v); assert Refused(node, v) <==> ListRefused(children, v);
    case ParallelAll(_, children) => EachContradicts(children, v); assert !Contradicts(node, v);
    case Branch(id, _, t, f) =>
      assert Reached(node, node, v);
      if id in v.branches { RefusesContradictions(if v.branches[id] then t else f, v); }
    case _ => assert !Contradicts(node, v);
  }

  ghost predicate ComesTo(nodes: seq<Node>, v: View, i: nat) {
    i < |nodes| && AllDone(nodes[..i], v) && Refused(nodes[i], v)
  }

  ghost predicate Crosses(nodes: seq<Node>, v: View, i: nat, j: nat) {
    i < j < |nodes| && AllDone(nodes[..i], v) && !Done(nodes[i], v) && HasProgress(nodes[j], v)
  }

  ghost predicate ListRefused(nodes: seq<Node>, v: View) {
    (exists i: nat :: ComesTo(nodes, v, i)) || (exists i: nat, j: nat :: Crosses(nodes, v, i, j))
  }

  lemma ShiftDone(nodes: seq<Node>, v: View, i: nat)
    requires 0 < i <= |nodes|
    ensures AllDone(nodes[..i], v) <==> Done(nodes[0], v) && AllDone(nodes[1..][..i - 1], v)
  {
    assert nodes[..i] == [nodes[0]] + nodes[1..][..i - 1];
    assert forall c :: c in nodes[..i] <==> c == nodes[0] || c in nodes[1..][..i - 1];
  }

  lemma ListUnfolds(nodes: seq<Node>, v: View)
    requires nodes != []
    ensures ListRefused(nodes, v) <==>
      Refused(nodes[0], v) || if Done(nodes[0], v) then ListRefused(nodes[1..], v) else exists c | c in nodes[1..] :: HasProgress(c, v)
  {
    hide Refused, Done, HasProgress;
    var rest := nodes[1..];
    assert ComesTo(nodes, v, 0) <==> Refused(nodes[0], v);
    forall i: nat
      ensures ComesTo(nodes, v, i + 1) <==> Done(nodes[0], v) && ComesTo(rest, v, i)
    {
      if i + 1 < |nodes| { ShiftDone(nodes, v, i + 1); }
    }
    forall i: nat, j: nat
      ensures Crosses(nodes, v, i + 1, j + 1) <==> Done(nodes[0], v) && Crosses(rest, v, i, j)
    {
      if i + 1 < |nodes| { ShiftDone(nodes, v, i + 1); }
    }
    forall j: nat
      ensures Crosses(nodes, v, 0, j + 1) <==> !Done(nodes[0], v) && j < |rest| && HasProgress(rest[j], v)
    {
    }
    if ListRefused(nodes, v) {
      if i: nat :| ComesTo(nodes, v, i) && i > 0 {
        assert ComesTo(rest, v, i - 1);
      }
      if i: nat, j: nat :| Crosses(nodes, v, i, j) {
        if i > 0 { assert Crosses(rest, v, i - 1, j - 1); } else { assert Crosses(nodes, v, 0, j - 1 + 1); assert rest[j - 1] in rest; }
      }
    }
    if Done(nodes[0], v) && ListRefused(rest, v) {
      if i: nat :| ComesTo(rest, v, i) { assert ComesTo(nodes, v, i + 1); }
      if i: nat, j: nat :| Crosses(rest, v, i, j) { assert Crosses(nodes, v, i + 1, j + 1); }
    }
    if !Done(nodes[0], v) && exists c | c in rest :: HasProgress(c, v) {
      var j: nat :| j < |rest| && HasProgress(rest[j], v);
      assert Crosses(nodes, v, 0, j + 1);
    }
  }

  lemma {:induction false} SequenceRefused(nodes: seq<Node>, v: View)
    ensures EvaluateSequence(nodes, v).Err? <==> ListRefused(nodes, v)
    decreases nodes, 0
  {
    if nodes != [] {
      RefusesContradictions(nodes[0], v);
      if Evaluate(nodes[0], v).Ok? { EvaluateAnswers(nodes[0], v); }
      if Done(nodes[0], v) { SequenceRefused(nodes[1..], v); }
      ListUnfolds(nodes, v);
    }
  }

  lemma CrossingIsContradiction(node: Node, v: View)
    requires node.Sequence?
    ensures Contradicts(node, v) <==> exists i: nat, j: nat :: Crosses(node.children, v, i, j)
  {
    hide Done, HasProgress;
    var nodes := node.children;
    if Contradicts(node, v) {
      var i, j :| 0 <= i < j < |nodes| && AllDone(nodes[..i], v) && !Done(nodes[i], v) && HasProgress(nodes[j], v);
      assert Crosses(nodes, v, i, j);
    }
    if i: nat, j: nat :| Crosses(nodes, v, i, j) {
      assert AllDone(nodes[..i], v) && !Done(nodes[i], v) && HasProgress(nodes[j], v);
    }
  }

  lemma ListIsNode(node: Node, v: View)
    requires node.Sequence?
    ensures ListRefused(node.children, v) <==> Refused(node, v)
  {
    hide Done, HasProgress, Contradicts;
    var nodes := node.children;
    CrossingIsContradiction(node, v);
    if i: nat :| ComesTo(nodes, v, i) {
      var p :| Reached(p, nodes[i], v) && Contradicts(p, v);
      assert Reached(p, node, v);
    }
    if Contradicts(node, v) { assert Reached(node, node, v); }
    if p :| p != node && Reached(p, node, v) && Contradicts(p, v) {
      var i :| 0 <= i < |nodes| && AllDone(nodes[..i], v) && Reached(p, nodes[i], v);
      assert ComesTo(nodes, v, i);
    }
  }

  lemma {:induction false} EachContradicts(nodes: seq<Node>, v: View)
    ensures EvaluateEach(nodes, v).Err? <==> exists c | c in nodes :: Refused(c, v)
    decreases nodes, 0
  {
    hide Refused;
    if nodes != [] {
      RefusesContradictions(nodes[0], v);
      EachContradicts(nodes[1..], v);
      assert forall c :: c in nodes <==> c == nodes[0] || c in nodes[1..];
    }
  }

  // ---------------------------------------------------------------- nothing begins beside trouble, in any run

  /** `p` is a part of the tree. */
  ghost predicate Inside(p: Node, node: Node)
    decreases node
  {
    || p == node
    || match node
       case Sequence(_, children) => exists c | c in children :: Inside(p, c)
       case ParallelAll(_, children) => exists c | c in children :: Inside(p, c)
       case Branch(_, _, t, f) => Inside(p, t) || Inside(p, f)
       case _ => false
  }

  lemma {:induction false} InsideIds(p: Node, node: Node)
    requires Inside(p, node)
    ensures Ids(p) <= Ids(node)
    decreases node
  {
    if p != node {
      match node
      case Sequence(_, children) => var i :| 0 <= i < |children| && Inside(p, children[i]); InsideIds(p, children[i]); IdsOfMember(children, i);
      case ParallelAll(_, children) => var i :| 0 <= i < |children| && Inside(p, children[i]); InsideIds(p, children[i]); IdsOfMember(children, i);
      case Branch(_, _, t, f) => if Inside(p, t) { InsideIds(p, t); } else { InsideIds(p, f); }
    }
  }

  lemma {:induction false} OpenHasIds(node: Node, v: View, leaf: Node)
    requires leaf in Open(node, v)
    ensures leaf.id in Ids(node)
    decreases node, 1
  {
    match node
    case Sequence(_, children) => var i := FirstOpenFrom(children, v, leaf); OpenHasIds(children[i], v, leaf); IdsOfMember(children, i);
    case ParallelAll(_, children) => var i := EveryOpenFrom(children, v, leaf); OpenHasIds(children[i], v, leaf); IdsOfMember(children, i);
    case Branch(id, _, t, f) => if id in v.branches { OpenHasIds(if v.branches[id] then t else f, v, leaf); }
    case _ =>
  }

  lemma {:induction false} FirstOpenFrom(nodes: seq<Node>, v: View, leaf: Node) returns (i: nat)
    requires leaf in FirstOpen(nodes, v)
    ensures i < |nodes| && leaf in Open(nodes[i], v)
    decreases |nodes|
  {
    if Done(nodes[0], v) { i := FirstOpenFrom(nodes[1..], v, leaf); i := i + 1; } else { i := 0; }
  }

  lemma {:induction false} EveryOpenFrom(nodes: seq<Node>, v: View, leaf: Node) returns (i: nat)
    requires leaf in EveryOpen(nodes, v)
    ensures i < |nodes| && leaf in Open(nodes[i], v)
    decreases |nodes|
  {
    if leaf in Open(nodes[0], v) { i := 0; } else { i := EveryOpenFrom(nodes[1..], v, leaf); i := i + 1; }
  }

  /** What may begin in the tree may begin in each part of it that holds the name. */
  lemma {:induction false} OpenInside(node: Node, v: View, p: Node, leaf: Node)
    requires Unique(node) && Inside(p, node) && leaf in Open(node, v) && leaf.id in Ids(p)
    ensures leaf in Open(p, v)
    decreases node, 1
  {
    if p != node {
      match node
      case Sequence(_, children) =>
        var i := FirstOpenFrom(children, v, leaf);
        OpenInChild(children, v, p, leaf, i);
      case ParallelAll(_, children) =>
        var i := EveryOpenFrom(children, v, leaf);
        OpenInChild(children, v, p, leaf, i);
      case Branch(id, _, t, f) =>
        if Inside(p, t) { InsideIds(p, t); } else { InsideIds(p, f); }
        var child := if id in v.branches && v.branches[id] then t else f;
        OpenHasIds(child, v, leaf);
        OpenInside(child, v, p, leaf);
    }
  }

  lemma {:induction false} OpenInChild(nodes: seq<Node>, v: View, p: Node, leaf: Node, i: nat)
    requires UniqueEach(nodes) && i < |nodes| && leaf in Open(nodes[i], v) && leaf.id in Ids(p)
    requires exists c | c in nodes :: Inside(p, c)
    ensures leaf in Open(p, v)
    decreases nodes, 0
  {
    var j :| 0 <= j < |nodes| && Inside(p, nodes[j]);
    InsideIds(p, nodes[j]);
    OpenHasIds(nodes[i], v, leaf);
    if i < j { UniqueMembers(nodes, i, j); } else if j < i { UniqueMembers(nodes, j, i); }
    assert i == j;
    UniqueMember(nodes, i);
    OpenInside(nodes[i], v, p, leaf);
  }

  lemma {:induction false} NamedOne(nodes: seq<Node>, part: Part, v: View, name: Name) returns (n: Node)
    requires name in Named(nodes, part, v)
    ensures n in nodes && n.id == name && Belongs(n, part, v)
    decreases |nodes|
  {
    if Belongs(nodes[0], part, v) && nodes[0].id == name { n := nodes[0]; } else { n := NamedOne(nodes[1..], part, v, name); }
  }

  /** In every run of the process, from any progress: when an operation starts, a branch is chosen or a wait ends, none
      of the parallel nodes around it stands at an operation to reconcile, an intervention, an operation that ended
      badly or a wait that timed out. */
  lemma NothingBeginsBesideTrouble(root: Node, v: View, events: seq<Event>, i: nat, p: Node)
    requires Unique(root) && Runs(root, v, events) && i < |events| && !events[i].Advance?
    requires Inside(p, root) && p.ParallelAll? && events[i].node in Ids(p)
    ensures var now := Play(v, events[..i]);
      forall n | n in Front(p, now) :: !Stops(n, now) && !Fails(n, now)
  {
    hide Evaluate, Front, Open, Named, Stops, Fails, Inside, Unique;
    RunsPrefix(root, v, events, i);
    var now, e := Play(v, events[..i]), events[i];
    EvaluateAnswers(root, now);
    var part := match e case Start(_, _, _) => Starts case Choose(_, _) => Decisions case _ => Waits;
    var leaf := NamedOne(Open(root, now), part, now, e.node);
    OpenInside(root, now, p, leaf);
    OpenIsClear(p, now);
  }

  lemma OpenIsClear(p: Node, v: View)
    requires p.ParallelAll? && Open(p, v) != []
    ensures forall n | n in Front(p, v) :: !Stops(n, v) && !Fails(n, v)
  {
    hide Stops, Fails;
  }
}
