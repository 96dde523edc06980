/** When the planner still has an answer (crates/rx-process-contract/src/frontier.rs). A run can take an operation
    back from finished, by a quarantine, a dispute or a different conclusion; the planner then may refuse the
    whole process. */
module FrontierRuns {
  import opened Base
  import opened Process
  import opened ProcessRuns
  import Op = Operations

  // ---------------------------------------------------------------- progress that has not gone past an operation

  lemma {:induction false} UnmovedEvaluates(node: Node, v: View)
    requires !HasProgress(node, v)
    ensures Evaluate(node, v).Ok?
    decreases node, 1
  {
    match node
    case Sequence(_, children) => UnmovedListsEvaluate(children, v);
    case ParallelAll(_, children) => UnmovedListsEvaluate(children, v);
    case _ =>
  }

  lemma {:induction false} UnmovedListsEvaluate(nodes: seq<Node>, v: View)
    requires !Moved(nodes, v)
    ensures EvaluateSequence(nodes, v).Ok? && EvaluateEach(nodes, v).Ok?
    decreases nodes, 0
  {
    if nodes != [] {
      assert nodes[0] in nodes && forall c | c in nodes[1..] :: c in nodes;
      UnmovedEvaluates(nodes[0], v);
      UnmovedListsEvaluate(nodes[1..], v);
    }
  }

  predicate Moved(nodes: seq<Node>, v: View) {
    exists c | c in nodes :: HasProgress(c, v)
  }

  lemma MovedSplits(nodes: seq<Node>, v: View)
    requires nodes != []
    ensures Moved(nodes, v) <==> HasProgress(nodes[0], v) || Moved(nodes[1..], v)
  {
    assert forall c :: c in nodes <==> c == nodes[0] || c in nodes[1..];
  }

  /** Identity `m` has not moved, and everything in front of it in every sequence is complete. */
  ghost predicate Reaches(node: Node, v: View, m: Name)
    decreases node, 1
  {
    match node
    case Operation(id, _) => id == m && m !in v.operations
    case Wait(id, _) => id == m && m !in v.waits
    case Intervention(_) => false
    case Branch(id, _, t, f) => if id in v.branches then Reaches(if v.branches[id] then t else f, v, m) else id == m
    case Sequence(_, children) => ReachesInOrder(children, v, m)
    case ParallelAll(_, children) => ReachesAny(children, v, m)
  }

  ghost predicate ReachesInOrder(nodes: seq<Node>, v: View, m: Name)
    decreases nodes, 0
  {
    nodes != [] && if Complete(nodes[0], v) then ReachesInOrder(nodes[1..], v, m) else Reaches(nodes[0], v, m)
  }

  ghost predicate ReachesAny(nodes: seq<Node>, v: View, m: Name)
    decreases nodes, 0
  {
    nodes != [] && (Reaches(nodes[0], v, m) || ReachesAny(nodes[1..], v, m))
  }

  lemma {:induction false} ReachedIsInside(node: Node, v: View, m: Name)
    requires Reaches(node, v, m)
    ensures m in Ids(node)
    decreases node, 1
  {
    match node
    case Sequence(_, children) => ReachedIsInList(children, v, m);
    case ParallelAll(_, children) => ReachedIsInList(children, v, m);
    case Branch(id, _, t, f) => if id in v.branches { ReachedIsInside(if v.branches[id] then t else f, v, m); }
    case _ =>
  }

  lemma {:induction false} ReachedIsInList(nodes: seq<Node>, v: View, m: Name)
    requires ReachesInOrder(nodes, v, m) || ReachesAny(nodes, v, m)
    ensures m in IdsOf(nodes)
    decreases nodes, 0
  {
    if Reaches(nodes[0], v, m) {
      ReachedIsInside(nodes[0], v, m);
    } else {
      ReachedIsInList(nodes[1..], v, m);
    }
  }

  /** A parallel group is complete exactly when all of it is. */
  ghost predicate AllCompleteIn(nodes: seq<Node>, v: View) {
    forall c | c in nodes :: Complete(c, v)
  }

  lemma {:induction false} EachCompletes(nodes: seq<Node>, v: View)
    requires EvaluateEach(nodes, v).Ok?
    ensures AllCompleteIn(nodes, v) <==> forall r | r in EvaluateEach(nodes, v).value :: r.state == Completed
    ensures forall c | c in nodes :: Evaluate(c, v).Ok?
    decreases nodes
  {
    if nodes != [] {
      EachCompletes(nodes[1..], v);
      var fs, rest := EvaluateEach(nodes, v).value, EvaluateEach(nodes[1..], v).value;
      assert fs == [fs[0]] + rest && fs[0] == Evaluate(nodes[0], v).value;
      assert forall r :: r in fs <==> r == fs[0] || r in rest;
      assert forall c :: c in nodes <==> c == nodes[0] || c in nodes[1..];
      assert AllCompleteIn(nodes, v) <==> Complete(nodes[0], v) && AllCompleteIn(nodes[1..], v);
    }
  }

  lemma ParallelCompletes(id: Name, nodes: seq<Node>, v: View)
    requires EvaluateEach(nodes, v).Ok?
    ensures Complete(ParallelAll(id, nodes), v) <==> AllCompleteIn(nodes, v)
  {
    EachCompletes(nodes, v);
  }

  ghost predicate CompleteInOrder(nodes: seq<Node>, v: View) {
    EvaluateSequence(nodes, v).Ok? && EvaluateSequence(nodes, v).value.state == Completed
  }

  lemma {:induction false} ReachedIsOpen(node: Node, v: View, m: Name)
    requires Reaches(node, v, m) && Evaluate(node, v).Ok?
    ensures !Complete(node, v)
    decreases node, 1
  {
    match node
    case Sequence(_, children) => ReachedInOrderIsOpen(children, v, m);
    case ParallelAll(id, children) =>
      ParallelCompletes(id, children, v);
      ReachedAnyIsOpen(children, v, m);
    case Branch(id, _, t, f) => if id in v.branches { ReachedIsOpen(if v.branches[id] then t else f, v, m); }
    case _ =>
  }

  lemma {:induction false} ReachedInOrderIsOpen(nodes: seq<Node>, v: View, m: Name)
    requires ReachesInOrder(nodes, v, m) && EvaluateSequence(nodes, v).Ok?
    ensures !CompleteInOrder(nodes, v)
    decreases nodes, 0
  {
    if Complete(nodes[0], v) { ReachedInOrderIsOpen(nodes[1..], v, m); }
  }

  lemma {:induction false} ReachedAnyIsOpen(nodes: seq<Node>, v: View, m: Name)
    requires ReachesAny(nodes, v, m) && EvaluateEach(nodes, v).Ok?
    ensures !AllCompleteIn(nodes, v)
    decreases nodes, 0
  {
    assert nodes[0] in nodes && forall c | c in nodes[1..] :: c in nodes;
    if Reaches(nodes[0], v, m) {
      ReachedIsOpen(nodes[0], v, m);
    } else {
      ReachedAnyIsOpen(nodes[1..], v, m);
    }
  }

  ghost predicate Offers(f: Frontier, m: Name) {
    m in f.operations || m in f.decisions || m in f.waits
  }

  /** The planner offers only what is reached. */
  lemma {:induction false} OfferedIsReached(node: Node, v: View, m: Name)
    requires Evaluate(node, v).Ok? && Offers(Evaluate(node, v).value, m)
    ensures Reaches(node, v, m)
    decreases node, 1
  {
    match node
    case Sequence(_, children) => OfferedInOrder(children, v, m);
    case ParallelAll(_, children) => OfferedByAny(children, v, m);
    case Branch(id, _, t, f) => if id in v.branches { OfferedIsReached(if v.branches[id] then t else f, v, m); }
    case _ =>
  }

  lemma {:induction false} OfferedInOrder(nodes: seq<Node>, v: View, m: Name)
    requires EvaluateSequence(nodes, v).Ok? && Offers(EvaluateSequence(nodes, v).value, m)
    ensures ReachesInOrder(nodes, v, m)
    decreases nodes, 0
  {
    if Complete(nodes[0], v) {
      OfferedInOrder(nodes[1..], v, m);
    } else {
      OfferedIsReached(nodes[0], v, m);
    }
  }

  lemma {:induction false} OfferedByAny(nodes: seq<Node>, v: View, m: Name)
    requires EvaluateEach(nodes, v).Ok? && Offers(Merged(EvaluateEach(nodes, v).value), m)
    ensures ReachesAny(nodes, v, m)
    decreases nodes, 0
  {
    if nodes != [] {
      var fs := EvaluateEach(nodes, v).value;
      assert fs[1..] == EvaluateEach(nodes[1..], v).value;
      if Offers(fs[0], m) {
        OfferedIsReached(nodes[0], v, m);
      } else {
        OfferedByAny(nodes[1..], v, m);
      }
    }
  }

  // ---------------------------------------------------------------- a step where the planner looks

  lemma ElsewhereAgrees(v: View, w: View, m: Name, ids: set<Name>)
    requires AgreeOutside(v, w, {m}) && m !in ids
    ensures Agree(v, w, ids)
  {
  }

  /** Whatever becomes of a reached identity, the planner still has an answer. */
  lemma {:induction false} PlacedProgressEvaluates(node: Node, v: View, w: View, m: Name)
    requires Unique(node) && AgreeOutside(v, w, {m}) && Reaches(node, v, m) && Evaluate(node, v).Ok?
    ensures Evaluate(node, w).Ok?
    decreases node, 1
  {
    hide AgreeOutside;
    match node
    case Sequence(_, children) => PlacedInOrder(children, v, w, m);
    case ParallelAll(_, children) => PlacedInAny(children, v, w, m);
    case Branch(id, _, t, f) => PlacedInBranch(node, v, w, m);
    case _ =>
  }

  lemma {:induction false} PlacedInBranch(node: Node, v: View, w: View, m: Name)
    requires node.Branch? && Unique(node) && AgreeOutside(v, w, {m}) && Reaches(node, v, m) && Evaluate(node, v).Ok?
    ensures Evaluate(node, w).Ok?
    decreases node, 0
  {
    var id, t, f := node.id, node.whenTrue, node.whenFalse;
    if id in v.branches {
      var chosen, other := if v.branches[id] then t else f, if v.branches[id] then f else t;
      ReachedIsInside(chosen, v, m);
      assert id != m && m !in Ids(other);
      assert Same(v, w, id);
      ElsewhereAgrees(v, w, m, Ids(other));
      EvaluateFrame(other, v, w);
      PlacedProgressEvaluates(chosen, v, w, m);
    } else {
      ElsewhereAgrees(v, w, m, Ids(t));
      ElsewhereAgrees(v, w, m, Ids(f));
      EvaluateFrame(t, v, w);
      EvaluateFrame(f, v, w);
      UnmovedEvaluates(t, w);
      UnmovedEvaluates(f, w);
    }
  }

  lemma {:induction false} PlacedInOrder(nodes: seq<Node>, v: View, w: View, m: Name)
    requires UniqueEach(nodes) && AgreeOutside(v, w, {m}) && ReachesInOrder(nodes, v, m) && EvaluateSequence(nodes, v).Ok?
    ensures EvaluateSequence(nodes, w).Ok?
    decreases nodes, 0
  {
    hide AgreeOutside;
    var first, rest := nodes[0], nodes[1..];
    if Complete(first, v) {
      ReachedIsInList(rest, v, m);
      ElsewhereAgrees(v, w, m, Ids(first));
      EvaluateFrame(first, v, w);
      PlacedInOrder(rest, v, w, m);
    } else {
      ReachedIsInside(first, v, m);
      ElsewhereAgrees(v, w, m, IdsOf(rest));
      EvaluateFrameEach(rest, v, w);
      PlacedProgressEvaluates(first, v, w, m);
      UnmovedListsEvaluate(rest, w);
    }
  }

  lemma {:induction false} PlacedInAny(nodes: seq<Node>, v: View, w: View, m: Name)
    requires UniqueEach(nodes) && AgreeOutside(v, w, {m}) && ReachesAny(nodes, v, m) && EvaluateEach(nodes, v).Ok?
    ensures EvaluateEach(nodes, w).Ok?
    decreases nodes, 0
  {
    hide AgreeOutside;
    var first, rest := nodes[0], nodes[1..];
    if Reaches(first, v, m) {
      ReachedIsInside(first, v, m);
      ElsewhereAgrees(v, w, m, IdsOf(rest));
      EvaluateFrameEach(rest, v, w);
      PlacedProgressEvaluates(first, v, w, m);
    } else {
      ReachedIsInList(rest, v, m);
      ElsewhereAgrees(v, w, m, Ids(first));
      EvaluateFrame(first, v, w);
      PlacedInAny(rest, v, w, m);
    }
  }

  // ---------------------------------------------------------------- the same progress, with every operation finished

  const DONE: Op.Snapshot :=
    Op.Snapshot(0, 1, 0, Op.Settled, Op.Ended, Op.Succeeded, Op.Valid, Op.Released, [0])

  function Ideal(v: View): View {
    v.(operations := map n | n in v.operations :: DONE)
  }

  /** Progress is where it was, whatever the operations have come to. */
  ghost predicate SamePlaces(v: View, w: View) {
    v.operations.Keys == w.operations.Keys && v.branches == w.branches && v.waits == w.waits && v.cleared == w.cleared
  }

  lemma {:induction false} PlacesDecideProgress(node: Node, v: View, w: View)
    requires SamePlaces(v, w)
    ensures HasProgress(node, v) == HasProgress(node, w)
    decreases node
  {
    match node
    case Sequence(_, children) => forall c | c in children ensures HasProgress(c, v) == HasProgress(c, w) { PlacesDecideProgress(c, v, w); }
    case ParallelAll(_, children) => forall c | c in children ensures HasProgress(c, v) == HasProgress(c, w) { PlacesDecideProgress(c, v, w); }
    case Branch(_, _, t, f) => PlacesDecideProgress(t, v, w); PlacesDecideProgress(f, v, w);
    case _ =>
  }

  lemma PlacesDecideMoved(nodes: seq<Node>, v: View, w: View)
    requires SamePlaces(v, w)
    ensures Moved(nodes, v) == Moved(nodes, w)
  {
    forall c | c in nodes
      ensures HasProgress(c, v) == HasProgress(c, w)
    {
      PlacesDecideProgress(c, v, w);
    }
  }

  /** The operations of a tree. */
  function Ops(node: Node): set<Name>
    decreases node
  {
    match node
    case Operation(id, _) => {id}
    case Sequence(_, children) => OpsOf(children)
    case ParallelAll(_, children) => OpsOf(children)
    case Branch(_, _, t, f) => Ops(t) + Ops(f)
    case _ => {}
  }

  function OpsOf(nodes: seq<Node>): set<Name>
    decreases nodes
  {
    if nodes == [] then {} else Ops(nodes[0]) + OpsOf(nodes[1..])
  }

  lemma {:induction false} StartedIsProgress(node: Node, v: View, n: Name)
    requires n in Ops(node) && n in v.operations
    ensures HasProgress(node, v)
    decreases node, 1
  {
    match node
    case Sequence(_, children) => StartedIsMoved(children, v, n);
    case ParallelAll(_, children) => StartedIsMoved(children, v, n);
    case Branch(_, _, t, f) => StartedIsProgress(if n in Ops(t) then t else f, v, n);
    case _ =>
  }

  lemma {:induction false} StartedIsMoved(nodes: seq<Node>, v: View, n: Name)
    requires n in OpsOf(nodes) && n in v.operations
    ensures Moved(nodes, v)
    decreases nodes, 0
  {
    MovedSplits(nodes, v);
    if n in Ops(nodes[0]) { StartedIsProgress(nodes[0], v, n); } else { StartedIsMoved(nodes[1..], v, n); }
  }

  /** The operation was started and is not, or no longer, finished. */
  ghost predicate Late(v: View, n: Name) {
    n in v.operations && !Finished(v, n)
  }

  ghost predicate SomeLate(ids: set<Name>, v: View) {
    exists n :: n in ids && Late(v, n)
  }

  /** A tree is complete exactly when it would be with its operations finished, and none of them is late. */
  lemma {:induction false} CompleteUnlessLate(node: Node, v: View)
    requires Evaluate(node, Ideal(v)).Ok?
    ensures Complete(node, v) <==> Complete(node, Ideal(v)) && !SomeLate(Ops(node), v)
    decreases node, 1
  {
    match node
    case Operation(id, _) =>
      assert id in Ops(node);
      assert Late(v, id) ==> SomeLate(Ops(node), v);
    case Sequence(_, children) => CompleteInOrderUnlessLate(children, v);
    case ParallelAll(_, children) => ParallelUnlessLate(node, v);
    case Branch(_, _, _, _) => BranchUnlessLate(node, v);
    case _ =>
  }

  lemma {:induction false} BranchUnlessLate(node: Node, v: View)
    requires node.Branch? && Evaluate(node, Ideal(v)).Ok?
    ensures Complete(node, v) <==> Complete(node, Ideal(v)) && !SomeLate(Ops(node), v)
    decreases node, 0
  {
    var t, f := node.whenTrue, node.whenFalse;
    PlacesDecideProgress(t, v, Ideal(v));
    PlacesDecideProgress(f, v, Ideal(v));
    if node.id in v.branches {
      var chosen, other := if v.branches[node.id] then t else f, if v.branches[node.id] then f else t;
      CompleteUnlessLate(chosen, v);
      OnlyOneSideIsLate(chosen, other, v);
    }
  }

  lemma OnlyOneSideIsLate(chosen: Node, other: Node, v: View)
    requires !HasProgress(other, v)
    ensures SomeLate(Ops(chosen) + Ops(other), v) <==> SomeLate(Ops(chosen), v)
    ensures SomeLate(Ops(other) + Ops(chosen), v) <==> SomeLate(Ops(chosen), v)
  {
    forall n | n in Ops(other)
      ensures n !in v.operations
    {
      if n in v.operations { StartedIsProgress(other, v, n); }
    }
  }

  lemma SomeLateSplits(nodes: seq<Node>, v: View)
    requires nodes != []
    ensures SomeLate(OpsOf(nodes), v) <==> SomeLate(Ops(nodes[0]), v) || SomeLate(OpsOf(nodes[1..]), v)
  {
  }

  lemma {:induction false} CompleteInOrderUnlessLate(nodes: seq<Node>, v: View)
    requires EvaluateSequence(nodes, Ideal(v)).Ok?
    ensures CompleteInOrder(nodes, v) <==> CompleteInOrder(nodes, Ideal(v)) && !SomeLate(OpsOf(nodes), v)
    decreases nodes, 0
  {
    hide SomeLate, HasProgress;
    if nodes == [] {
      NoneLate(v);
    } else {
      CompleteUnlessLate(nodes[0], v);
      SomeLateSplits(nodes, v);
      if Complete(nodes[0], Ideal(v)) { CompleteInOrderUnlessLate(nodes[1..], v); }
    }
  }

  lemma NoneLate(v: View)
    ensures !SomeLate({}, v)
  {
  }

  lemma {:induction false} ParallelUnlessLate(node: Node, v: View)
    requires node.ParallelAll? && Evaluate(node, Ideal(v)).Ok?
    ensures Complete(node, v) <==> Complete(node, Ideal(v)) && !SomeLate(Ops(node), v)
    decreases node, 0
  {
    ParallelCompletes(node.id, node.children, Ideal(v));
    AllCompleteUnlessLate(node.children, v);
    if EvaluateEach(node.children, v).Ok? {
      ParallelCompletes(node.id, node.children, v);
    } else if AllCompleteIn(node.children, v) {
      forall j | 0 <= j < |node.children|
        ensures Evaluate(node.children[j], v).Ok?
      {
        assert node.children[j] in node.children && Complete(node.children[j], v);
      }
      EachEvaluates(node.children, v);
    }
  }

  lemma {:induction false} AllCompleteUnlessLate(nodes: seq<Node>, v: View)
    requires EvaluateEach(nodes, Ideal(v)).Ok?
    ensures AllCompleteIn(nodes, v) <==> AllCompleteIn(nodes, Ideal(v)) && !SomeLate(OpsOf(nodes), v)
    decreases nodes, 0
  {
    hide SomeLate, Complete;
    if nodes == [] {
      NoneLate(v);
    } else {
      CompleteUnlessLate(nodes[0], v);
      SomeLateSplits(nodes, v);
      AllCompleteUnlessLate(nodes[1..], v);
      assert forall c :: c in nodes <==> c == nodes[0] || c in nodes[1..];
    }
  }

  // ---------------------------------------------------------------- when the planner refuses

  /** Something after operation `n`, in a sequence around it, has moved. */
  predicate Overtaken(node: Node, v: View, n: Name)
    decreases node, 1
  {
    match node
    case Sequence(_, children) => OvertakenInOrder(children, v, n)
    case ParallelAll(_, children) => OvertakenInAny(children, v, n)
    case Branch(_, _, t, f) => Overtaken(t, v, n) || Overtaken(f, v, n)
    case _ => false
  }

  predicate OvertakenInOrder(nodes: seq<Node>, v: View, n: Name)
    decreases nodes, 0
  {
    nodes != [] && ((n in Ops(nodes[0]) && Moved(nodes[1..], v)) || Overtaken(nodes[0], v, n) || OvertakenInOrder(nodes[1..], v, n))
  }

  predicate OvertakenInAny(nodes: seq<Node>, v: View, n: Name)
    decreases nodes, 0
  {
    nodes != [] && (Overtaken(nodes[0], v, n) || OvertakenInAny(nodes[1..], v, n))
  }

  lemma {:induction false} OvertakenIsInside(node: Node, v: View, n: Name)
    requires Overtaken(node, v, n)
    ensures n in Ops(node)
    decreases node, 1
  {
    match node
    case Sequence(_, children) => OvertakenIsListed(children, v, n);
    case ParallelAll(_, children) => OvertakenIsListed(children, v, n);
    case Branch(_, _, t, f) => OvertakenIsInside(if Overtaken(t, v, n) then t else f, v, n);
  }

  lemma {:induction false} OvertakenIsListed(nodes: seq<Node>, v: View, n: Name)
    requires OvertakenInOrder(nodes, v, n) || OvertakenInAny(nodes, v, n)
    ensures n in OpsOf(nodes)
    decreases nodes, 0
  {
    if Overtaken(nodes[0], v, n) {
      OvertakenIsInside(nodes[0], v, n);
    } else if n !in Ops(nodes[0]) {
      OvertakenIsListed(nodes[1..], v, n);
    }
  }

  /** The one cause for which the planner refuses: a late operation that was overtaken. */
  ghost predicate Stuck(node: Node, v: View) {
    exists n :: Late(v, n) && Overtaken(node, v, n)
  }

  ghost predicate StuckInOrder(nodes: seq<Node>, v: View) {
    exists n :: Late(v, n) && OvertakenInOrder(nodes, v, n)
  }

  ghost predicate StuckInAny(nodes: seq<Node>, v: View) {
    exists n :: Late(v, n) && OvertakenInAny(nodes, v, n)
  }

  /** What holds of a refusal. */
  ghost predicate Explains<T>(r: Result<T, Contradiction>, stuck: bool) {
    (r.Err? <==> stuck) && (r.Err? ==> r.error == CrossesSequence)
  }

  lemma {:induction false} RefusesExactlyWhenStuck(node: Node, v: View)
    requires Evaluate(node, Ideal(v)).Ok?
    ensures Explains(Evaluate(node, v), Stuck(node, v))
    decreases node, 1
  {
    match node
    case Sequence(_, children) =>
      SequenceRefuses(children, v);
      assert Stuck(node, v) <==> StuckInOrder(children, v);
    case ParallelAll(_, children) =>
      EachRefuses(children, v);
      assert Stuck(node, v) <==> StuckInAny(children, v);
    case Branch(_, _, _, _) => BranchRefuses(node, v);
    case _ =>
  }

  lemma {:induction false} BranchRefuses(node: Node, v: View)
    requires node.Branch? && Evaluate(node, Ideal(v)).Ok?
    ensures Explains(Evaluate(node, v), Stuck(node, v))
    decreases node, 0
  {
    var t, f := node.whenTrue, node.whenFalse;
    PlacesDecideProgress(t, v, Ideal(v));
    PlacesDecideProgress(f, v, Ideal(v));
    if node.id in v.branches {
      var chosen, other := if v.branches[node.id] then t else f, if v.branches[node.id] then f else t;
      RefusesExactlyWhenStuck(chosen, v);
      UnmovedIsNotStuck(other, v);
      assert Stuck(node, v) <==> Stuck(chosen, v) || Stuck(other, v);
    } else {
      UnmovedIsNotStuck(t, v);
      UnmovedIsNotStuck(f, v);
    }
  }

  lemma UnmovedIsNotStuck(node: Node, v: View)
    requires !HasProgress(node, v)
    ensures !Stuck(node, v)
  {
    forall n | Late(v, n)
      ensures !Overtaken(node, v, n)
    {
      if Overtaken(node, v, n) {
        OvertakenIsInside(node, v, n);
        StartedIsProgress(node, v, n);
      }
    }
  }

  lemma UnmovedListIsNotStuck(nodes: seq<Node>, v: View)
    requires !Moved(nodes, v)
    ensures !StuckInOrder(nodes, v)
  {
    forall n | Late(v, n)
      ensures !OvertakenInOrder(nodes, v, n)
    {
      if OvertakenInOrder(nodes, v, n) {
        OvertakenIsListed(nodes, v, n);
        StartedIsMoved(nodes, v, n);
      }
    }
  }

  lemma StuckSplits(nodes: seq<Node>, v: View)
    requires nodes != []
    ensures StuckInOrder(nodes, v) <==>
      (SomeLate(Ops(nodes[0]), v) && Moved(nodes[1..], v)) || Stuck(nodes[0], v) || StuckInOrder(nodes[1..], v)
    ensures StuckInAny(nodes, v) <==> Stuck(nodes[0], v) || StuckInAny(nodes[1..], v)
  {
    hide Overtaken, Ops, Late, Moved;
    assert forall n :: OvertakenInOrder(nodes, v, n) <==>
      (n in Ops(nodes[0]) && Moved(nodes[1..], v)) || Overtaken(nodes[0], v, n) || OvertakenInOrder(nodes[1..], v, n);
    assert forall n :: OvertakenInAny(nodes, v, n) <==> Overtaken(nodes[0], v, n) || OvertakenInAny(nodes[1..], v, n);
  }

  lemma OnTimeIsNotStuck(node: Node, v: View)
    requires !SomeLate(Ops(node), v)
    ensures !Stuck(node, v)
  {
    forall n | Late(v, n)
      ensures !Overtaken(node, v, n)
    {
      if Overtaken(node, v, n) { OvertakenIsInside(node, v, n); }
    }
  }

  lemma {:induction false} SequenceRefuses(nodes: seq<Node>, v: View)
    requires EvaluateSequence(nodes, Ideal(v)).Ok?
    ensures Explains(EvaluateSequence(nodes, v), StuckInOrder(nodes, v))
    decreases nodes, 0
  {
    hide Stuck, StuckInOrder, SomeLate, HasProgress, Ops;
    if nodes == [] {
      NothingStuck(v);
    } else {
      var first, rest := nodes[0], nodes[1..];
      RefusesExactlyWhenStuck(first, v);
      CompleteUnlessLate(first, v);
      StuckSplits(nodes, v);
      PlacesDecideMoved(rest, v, Ideal(v));
      if !Moved(rest, v) { UnmovedListIsNotStuck(rest, v); }
      if Complete(first, Ideal(v)) {
        SequenceRefuses(rest, v);
        if !SomeLate(Ops(first), v) { OnTimeIsNotStuck(first, v); }
      }
    }
  }

  lemma NothingStuck(v: View)
    ensures !StuckInOrder([], v) && !StuckInAny([], v)
  {
  }

  lemma {:induction false} EachRefuses(nodes: seq<Node>, v: View)
    requires EvaluateEach(nodes, Ideal(v)).Ok?
    ensures Explains(EvaluateEach(nodes, v), StuckInAny(nodes, v))
    decreases nodes, 0
  {
    hide Stuck, StuckInAny;
    if nodes == [] {
      NothingStuck(v);
    } else {
      RefusesExactlyWhenStuck(nodes[0], v);
      EachRefuses(nodes[1..], v);
      StuckSplits(nodes, v);
    }
  }

  // ---------------------------------------------------------------- runs

  /** The identity at which an event makes progress; an advance makes none. */
  function PlaceOf(e: Event): Name {
    match e
    case Start(n, _, _) => n
    case Advance(n, _) => n
    case Choose(n, _) => n
    case EndWait(n, _) => n
  }

  lemma {:induction false} IdealReaches(node: Node, v: View, m: Name)
    requires Reaches(node, v, m) && Evaluate(node, Ideal(v)).Ok?
    ensures Reaches(node, Ideal(v), m)
    decreases node, 1
  {
    match node
    case Sequence(_, children) => IdealReachesInOrder(children, v, m);
    case ParallelAll(_, children) => IdealReachesAny(children, v, m);
    case Branch(id, _, t, f) => if id in v.branches { IdealReaches(if v.branches[id] then t else f, v, m); }
    case _ =>
  }

  lemma {:induction false} IdealReachesInOrder(nodes: seq<Node>, v: View, m: Name)
    requires ReachesInOrder(nodes, v, m) && EvaluateSequence(nodes, Ideal(v)).Ok?
    ensures ReachesInOrder(nodes, Ideal(v), m)
    decreases nodes, 0
  {
    CompleteUnlessLate(nodes[0], v);
    if Complete(nodes[0], v) {
      IdealReachesInOrder(nodes[1..], v, m);
    } else {
      IdealReaches(nodes[0], v, m);
      ReachedIsOpen(nodes[0], Ideal(v), m);
    }
  }

  lemma {:induction false} IdealReachesAny(nodes: seq<Node>, v: View, m: Name)
    requires ReachesAny(nodes, v, m) && EvaluateEach(nodes, Ideal(v)).Ok?
    ensures ReachesAny(nodes, Ideal(v), m)
    decreases nodes, 0
  {
    if Reaches(nodes[0], v, m) {
      IdealReaches(nodes[0], v, m);
    } else {
      IdealReachesAny(nodes[1..], v, m);
    }
  }

  lemma EventReaches(root: Node, v: View, e: Event)
    requires Enabled(root, v, e) && !e.Advance?
    ensures Evaluate(root, v).Ok? && Reaches(root, v, PlaceOf(e))
  {
    OfferedIsReached(root, v, PlaceOf(e));
  }

  lemma EventStaysInPlace(v: View, e: Event)
    ensures AgreeOutside(v, Apply(v, e), {PlaceOf(e)})
    ensures AgreeOutside(Ideal(v), Ideal(Apply(v, e)), {PlaceOf(e)})
    ensures e.Advance? ==> Ideal(Apply(v, e)) == Ideal(v) && SamePlaces(v, Apply(v, e))
  {
    hide Op.After;
  }

  lemma {:induction false} IdealKept(root: Node, v: View, events: seq<Event>)
    requires Unique(root) && Evaluate(root, Ideal(v)).Ok? && Runs(root, v, events)
    ensures Evaluate(root, Ideal(Play(v, events))).Ok?
    decreases |events|
  {
    hide Enabled, Apply, Ideal, AgreeOutside;
    if events != [] {
      IdealStep(root, v, events[0]);
      IdealKept(root, Apply(v, events[0]), events[1..]);
    }
  }

  lemma IdealStep(root: Node, v: View, e: Event)
    requires Unique(root) && Evaluate(root, Ideal(v)).Ok? && Enabled(root, v, e)
    ensures Evaluate(root, Ideal(Apply(v, e))).Ok?
  {
    hide Enabled, Apply, Ideal, AgreeOutside;
    EventStaysInPlace(v, e);
    if !e.Advance? {
      EventReaches(root, v, e);
      IdealReaches(root, v, PlaceOf(e));
      PlacedProgressEvaluates(root, Ideal(v), Ideal(Apply(v, e)), PlaceOf(e));
    }
  }

  lemma NothingEvaluates(root: Node)
    ensures Evaluate(root, NO_PROGRESS).Ok? && Evaluate(root, Ideal(NO_PROGRESS)).Ok?
  {
    NothingHasMoved(root);
    UnmovedEvaluates(root, NO_PROGRESS);
    assert Ideal(NO_PROGRESS) == NO_PROGRESS;
  }

  /** After every run whatsoever, the planner refuses if and only if some operation is late and was overtaken by
      a later part of a sequence. It never reports progress on an unselected or undecided branch. */
  lemma FrontierAfterEveryRun(root: Node, events: seq<Event>)
    requires Unique(root) && Runs(root, NO_PROGRESS, events)
    ensures var v := Play(NO_PROGRESS, events);
      && (Evaluate(root, v).Err? <==> exists n :: Late(v, n) && Overtaken(root, v, n))
      && (Evaluate(root, v).Err? ==> Evaluate(root, v).error == CrossesSequence)
  {
    NothingEvaluates(root);
    IdealKept(root, NO_PROGRESS, events);
    RefusesExactlyWhenStuck(root, Play(NO_PROGRESS, events));
  }

  /** The event takes a finished operation back. */
  predicate Unfinishes(v: View, e: Event) {
    e.Advance? && Finished(v, e.node) && !Finished(Apply(v, e), e.node)
  }

  /** No event of the series takes a finished operation back. */
  predicate Steady(v: View, events: seq<Event>)
    decreases |events|
  {
    events != [] ==> !Unfinishes(v, events[0]) && Steady(Apply(v, events[0]), events[1..])
  }

  lemma {:induction false} PlacesDecideOvertaken(node: Node, v: View, w: View, n: Name)
    requires SamePlaces(v, w)
    ensures Overtaken(node, v, n) == Overtaken(node, w, n)
    decreases node, 1
  {
    hide SamePlaces;
    match node
    case Sequence(_, children) => PlacesDecideListed(children, v, w, n);
    case ParallelAll(_, children) => PlacesDecideListed(children, v, w, n);
    case Branch(_, _, t, f) => PlacesDecideOvertaken(t, v, w, n); PlacesDecideOvertaken(f, v, w, n);
    case _ =>
  }

  lemma {:induction false} PlacesDecideListed(nodes: seq<Node>, v: View, w: View, n: Name)
    requires SamePlaces(v, w)
    ensures OvertakenInOrder(nodes, v, n) == OvertakenInOrder(nodes, w, n)
    ensures OvertakenInAny(nodes, v, n) == OvertakenInAny(nodes, w, n)
    decreases nodes, 0
  {
    hide SamePlaces, Moved;
    if nodes != [] {
      PlacesDecideOvertaken(nodes[0], v, w, n);
      PlacesDecideMoved(nodes[1..], v, w);
      PlacesDecideListed(nodes[1..], v, w, n);
    }
  }

  lemma {:induction false} SteadyKept(root: Node, v: View, events: seq<Event>)
    requires Unique(root) && Evaluate(root, v).Ok? && Evaluate(root, Ideal(v)).Ok?
    requires Runs(root, v, events) && Steady(v, events)
    ensures Evaluate(root, Play(v, events)).Ok?
    decreases |events|
  {
    hide Enabled, Apply, Ideal, Unfinishes;
    if events != [] {
      IdealStep(root, v, events[0]);
      SteadyStep(root, v, events[0]);
      SteadyKept(root, Apply(v, events[0]), events[1..]);
    }
  }

  lemma SteadyStep(root: Node, v: View, e: Event)
    requires Unique(root) && Evaluate(root, v).Ok? && Evaluate(root, Ideal(v)).Ok? && Enabled(root, v, e)
    requires !Unfinishes(v, e)
    ensures Evaluate(root, Apply(v, e)).Ok?
  {
    hide Enabled, Ideal, AgreeOutside, Evaluate, Overtaken;
    EventStaysInPlace(v, e);
    var w := Apply(v, e);
    if e.Advance? {
      RefusesExactlyWhenStuck(root, v);
      RefusesExactlyWhenStuck(root, w);
      forall n | Late(w, n)
        ensures !Overtaken(root, w, n)
      {
        PlacesDecideOvertaken(root, v, w, n);
        assert Late(v, n);
      }
    } else {
      EventReaches(root, v, e);
      PlacedProgressEvaluates(root, v, w, PlaceOf(e));
    }
  }

  /** As long as no finished operation is taken back, the planner has an answer. */
  lemma SteadyRunsKeepAFrontier(root: Node, events: seq<Event>)
    requires Unique(root) && Runs(root, NO_PROGRESS, events) && Steady(NO_PROGRESS, events)
    ensures Evaluate(root, Play(NO_PROGRESS, events)).Ok?
  {
    NothingEvaluates(root);
    SteadyKept(root, NO_PROGRESS, events);
  }

  /** The step that takes operation `n` back leaves the planner without an answer exactly when a later part of a
      sequence around `n` has moved. */
  lemma TakingBackRefusesExactlyWhenOvertaken(root: Node, events: seq<Event>, n: Name, calls: seq<Op.Call>)
    requires Unique(root) && Runs(root, NO_PROGRESS, events)
    requires var v := Play(NO_PROGRESS, events); Evaluate(root, v).Ok? && Unfinishes(v, Advance(n, calls))
    ensures var v := Play(NO_PROGRESS, events);
      Evaluate(root, Apply(v, Advance(n, calls))).Err? <==> Overtaken(root, v, n)
  {
    hide Ideal, Evaluate, Overtaken;
    var v := Play(NO_PROGRESS, events);
    var e := Advance(n, calls);
    var w := Apply(v, e);
    EventStaysInPlace(v, e);
    NothingEvaluates(root);
    IdealKept(root, NO_PROGRESS, events);
    RefusesExactlyWhenStuck(root, v);
    RefusesExactlyWhenStuck(root, w);
    forall k
      ensures Late(w, k) && Overtaken(root, w, k) <==> k == n && Overtaken(root, v, n)
    {
      PlacesDecideOvertaken(root, v, w, k);
      if k != n { assert Late(w, k) <==> Late(v, k); }
      assert !(Late(v, k) && Overtaken(root, v, k));
    }
    assert Late(w, n);
    PlacesDecideOvertaken(root, v, w, n);
    assert Late(w, n) && Overtaken(root, w, n) <==> Overtaken(root, v, n);
  }

  /** The calls that take a finished operation back: a quarantine, a dispute, and any other conclusion. */
  lemma CallsThatTakeBack(v: View, n: Name, call: Op.Call)
    requires Finished(v, n) && Op.Decodes(v.operations[n]) && v.operations[n].revision < MAX_U64
    ensures Unfinishes(v, Advance(n, [call])) <==>
      || call.Quarantine? || call.Dispute?
      || (call.Conclude? && call.outcome != Op.NoOutcome && call.outcome != Op.Succeeded && call.conclusive != [])
  {
    var s := v.operations[n];
    assert Op.After(s, [call]) == if Op.Next(s, call).Ok? then Op.Next(s, call).value else s by {
      assert [call][..0] == [];
    }
  }

  /** A whole run that ends without an answer: the first of two operations is disputed after the second began. */
  function LateDispute(a: Name, b: Name): seq<Event> {
    [Start(a, 0, 0), Advance(a, Op.CleanLife(0)), Start(b, 1, 0), Advance(a, [Op.Dispute])]
  }

  lemma LateDisputeRun(s: Name, a: Name, b: Name)
    requires a != b && s != a && s != b
    ensures var root := Sequence(s, [Operation(a, a), Operation(b, b)]);
      && Unique(root) && Runs(root, NO_PROGRESS, LateDispute(a, b))
      && Evaluate(root, Play(NO_PROGRESS, LateDispute(a, b))) == Err(CrossesSequence)
  {
    hide Evaluate, Enabled;
    var root := Sequence(s, [Operation(a, a), Operation(b, b)]);
    var events := LateDispute(a, b);
    var v1 := Apply(NO_PROGRESS, events[0]);
    var v2 := Apply(v1, events[1]);
    var v3 := Apply(v2, events[2]);
    FirstStarts(s, a, b);
    FirstFinishes(a, b);
    SecondStarts(s, a, b, v2);
    FirstIsDisputed(s, a, b, v3);
    assert events[1..] == [events[1], events[2], events[3]] && events[1..][1..] == [events[2], events[3]];
    assert events[1..][1..][1..] == [events[3]] && [events[3]][1..] == [];
    assert Enabled(root, v1, events[1]) && Enabled(root, v3, events[3]) by { AdvanceIsEnabled(root, v1, a); AdvanceIsEnabled(root, v3, a); }
    assert Runs(root, v3, [events[3]]) && Play(v3, [events[3]]) == Apply(v3, events[3]);
    assert Runs(root, v2, events[1..][1..]) && Play(v2, events[1..][1..]) == Apply(v3, events[3]);
    assert Runs(root, v1, events[1..]) && Play(v1, events[1..]) == Apply(v3, events[3]);
  }

  lemma AdvanceIsEnabled(root: Node, v: View, n: Name)
    ensures n in v.operations ==> forall calls :: Enabled(root, v, Advance(n, calls))
  {
  }

  lemma TwoAreUnique(s: Name, a: Name, b: Name)
    requires a != b && s != a && s != b
    ensures Unique(Sequence(s, [Operation(a, a), Operation(b, b)]))
  {
    var both, last := [Operation(a, a), Operation(b, b)], [Operation(b, b)];
    assert both[1..] == last && last[1..] == [];
    assert IdsOf(last) == {b};
    assert IdsOf(both) == Ids(both[0]) + IdsOf(both[1..]) == {a, b};
    assert UniqueEach(last[1..]);
    assert UniqueEach(last) && Ids(both[0]) !! IdsOf(both[1..]);
    assert UniqueEach(both);
  }

  lemma TwoInOrder(s: Name, a: Name, b: Name, v: View)
    ensures Evaluate(Sequence(s, [Operation(a, a), Operation(b, b)]), v) ==
      if EvaluateOperation(a, v).state == Completed then EvaluateSequence([Operation(b, b)], v)
      else if HasProgress(Operation(b, b), v) then Err(CrossesSequence) else Ok(EvaluateOperation(a, v))
    ensures EvaluateOperation(b, v).state != Completed ==> EvaluateSequence([Operation(b, b)], v) == Ok(EvaluateOperation(b, v))
  {
    var first, second := Operation(a, a), Operation(b, b);
    var both, last := [first, second], [second];
    assert both[1..] == last && last[1..] == [];
    assert Evaluate(Sequence(s, both), v) == EvaluateSequence(both, v);
    assert Evaluate(first, v) == Ok(EvaluateOperation(a, v)) && Evaluate(second, v) == Ok(EvaluateOperation(b, v));
    assert both[0] == first && second in last;
    assert Moved(last, v) <==> HasProgress(second, v);
    assert !Moved([], v);
    MovedSplits(last, v);
  }

  lemma FirstStarts(s: Name, a: Name, b: Name)
    requires a != b && s != a && s != b
    ensures var root := Sequence(s, [Operation(a, a), Operation(b, b)]);
      Unique(root) && Enabled(root, NO_PROGRESS, Start(a, 0, 0))
  {
    TwoAreUnique(s, a, b);
    TwoInOrder(s, a, b, NO_PROGRESS);
  }

  lemma FirstFinishes(a: Name, b: Name)
    requires a != b
    ensures var v1 := Apply(NO_PROGRESS, Start(a, 0, 0));
      var v2 := Apply(v1, Advance(a, Op.CleanLife(0)));
      && a in v1.operations && v2.operations.Keys == {a} && Finished(v2, a) && v2.operations[a].id == 0
      && v2.operations[a].revision < 10 && v2.branches == map[] && v2.waits == map[] && v2.cleared == {}
  {
    Op.CleanLifeReleases(0, 0, 0);
    CleanLifeIsShort();
  }

  lemma CleanLifeIsShort()
    ensures Op.After(Op.Admit(0, 0), Op.CleanLife(0)).revision < 10
  {
    var s, calls := Op.Admit(0, 0), Op.CleanLife(0);
    assert calls[..3] == calls && calls[..3][..2] == calls[..2] && calls[..2][..1] == calls[..1] && calls[..1][..0] == [];
    RevisionStep(s, calls[..1]);
    RevisionStep(s, calls[..2]);
    RevisionStep(s, calls[..3]);
  }

  lemma RevisionStep(s: Op.Snapshot, calls: seq<Op.Call>)
    requires calls != []
    ensures Op.After(s, calls).revision <= Op.After(s, calls[..|calls| - 1]).revision + 1
  {
  }

  lemma SecondStarts(s: Name, a: Name, b: Name, v: View)
    requires a != b && Finished(v, a) && v.operations.Keys == {a} && v.operations[a].id == 0
    ensures Enabled(Sequence(s, [Operation(a, a), Operation(b, b)]), v, Start(b, 1, 0))
  {
    TwoInOrder(s, a, b, v);
  }

  lemma FirstIsDisputed(s: Name, a: Name, b: Name, v: View)
    requires a != b && Finished(v, a) && b in v.operations && v.operations[a].revision < 10
    ensures Evaluate(Sequence(s, [Operation(a, a), Operation(b, b)]), Apply(v, Advance(a, [Op.Dispute]))) == Err(CrossesSequence)
  {
    var done := v.operations[a];
    assert Op.After(done, [Op.Dispute]) == Op.Next(done, Op.Dispute).value by { assert [Op.Dispute][..0] == []; }
    TwoInOrder(s, a, b, Apply(v, Advance(a, [Op.Dispute])));
  }
}
