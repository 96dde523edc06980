/** The static must-complete analysis of process review
    (crates/rx-application/src/process_review.rs, `check_predecessors`). */
module Predecessors {
  import opened Base
  import opened Process

  /** A cell step and the steps that must have finished before it. */
  datatype Step = Step(id: Name, predecessors: seq<Name>)

  /** The cell's steps and the step selected for each binding. */
  datatype Plan = Plan(steps: seq<Step>, selections: map<Name, Name>)

  datatype Refusal = SelectionMissing | StepMissing | PredecessorOrder

  type Checked = Result<set<Name>, Refusal>

  function FindStep(steps: seq<Step>, id: Name): Option<Step> {
    if steps == [] then None
    else if steps[0].id == id then Some(steps[0])
    else FindStep(steps[1..], id)
  }

  function Find(plan: Plan, binding: Name): Result<Step, Refusal> {
    if binding !in plan.selections then Err(SelectionMissing) else
    match FindStep(plan.steps, plan.selections[binding])
    case None => Err(StepMissing)
    case Some(step) => Ok(step)
  }

  /** The step a binding stands for; `done` records the selected name. */
  function Selected(plan: Plan, binding: Name): set<Name> {
    if binding in plan.selections then {plan.selections[binding]} else {}
  }

  function Check(node: Node, plan: Plan, done: set<Name>): Checked
    decreases node
  {
    match node
    case Operation(_, binding) =>
      var step := Find(plan, binding);
      if step.Err? then Err(step.error)
      else if exists p | p in step.value.predecessors :: p !in done then Err(PredecessorOrder)
      else Ok(done + Selected(plan, binding))
    case Sequence(_, children) => CheckInOrder(children, plan, done)
    case ParallelAll(_, children) => CheckJoined(children, plan, done, done)
    case Branch(_, _, t, f) =>
      var yes := Check(t, plan, done);
      if yes.Err? then yes else
      var no := Check(f, plan, done);
      if no.Err? then no else Ok(yes.value * no.value)
    case _ => Ok(done)
  }

  function CheckInOrder(children: seq<Node>, plan: Plan, done: set<Name>): Checked
    decreases children
  {
    if children == [] then Ok(done) else
    var first := Check(children[0], plan, done);
    if first.Err? then first else CheckInOrder(children[1..], plan, first.value)
  }

  function CheckJoined(children: seq<Node>, plan: Plan, done: set<Name>, joined: set<Name>): Checked
    decreases children
  {
    if children == [] then Ok(joined) else
    var first := Check(children[0], plan, done);
    if first.Err? then first else CheckJoined(children[1..], plan, done, joined + first.value)
  }

  /** The checker as it is written: local sets grown in loops. */
  method CheckPredecessors(node: Node, plan: Plan, before: set<Name>) returns (r: Checked)
    ensures r == Check(node, plan, before)
    decreases node
  {
    var done := before;
    match node
    case Operation(_, binding) =>
      if binding !in plan.selections { return Err(SelectionMissing); }
      var selected := plan.selections[binding];
      var step := FindStep(plan.steps, selected);
      if step.None? { return Err(StepMissing); }
      if !(forall p | p in step.value.predecessors :: p in done) { return Err(PredecessorOrder); }
      done := done + {selected};
      return Ok(done);
    case Sequence(_, children) =>
      for i := 0 to |children|
        invariant CheckInOrder(children[i..], plan, done) == Check(node, plan, before)
      {
        assert children[i..][1..] == children[i + 1..];
        var next := CheckPredecessors(children[i], plan, done);
        if next.Err? { return next; }
        done := next.value;
      }
      return Ok(done);
    case ParallelAll(_, children) =>
      var joined := done;
      for i := 0 to |children|
        invariant CheckJoined(children[i..], plan, done, joined) == Check(node, plan, before)
      {
        assert children[i..][1..] == children[i + 1..];
        var next := CheckPredecessors(children[i], plan, done);
        if next.Err? { return next; }
        joined := joined + next.value;
      }
      return Ok(joined);
    case Branch(_, _, t, f) =>
      var yes := CheckPredecessors(t, plan, done);
      if yes.Err? { return yes; }
      var no := CheckPredecessors(f, plan, done);
      if no.Err? { return no; }
      return Ok(yes.value * no.value);
    case _ =>
      return Ok(done);
  }

  /** The steps that every completed run of a tree has finished, whatever its branches chose. */
  function Must(node: Node, plan: Plan): set<Name>
    decreases node
  {
    match node
    case Operation(_, binding) => Selected(plan, binding)
    case Sequence(_, children) => MustEach(children, plan)
    case ParallelAll(_, children) => MustEach(children, plan)
    case Branch(_, _, t, f) => Must(t, plan) * Must(f, plan)
    case _ => {}
  }

  function MustEach(nodes: seq<Node>, plan: Plan): set<Name>
    decreases nodes
  {
    if nodes == [] then {} else Must(nodes[0], plan) + MustEach(nodes[1..], plan)
  }

  /** The returned set is what was done before plus what the tree must complete. */
  lemma {:induction false} CheckReturnsMust(node: Node, plan: Plan, done: set<Name>)
    ensures Check(node, plan, done).Ok? ==> Check(node, plan, done).value == done + Must(node, plan)
    decreases node, 1
  {
    match node
    case Sequence(_, children) => ListsReturnMust(children, plan, done, done);
    case ParallelAll(_, children) => ListsReturnMust(children, plan, done, done);
    case Branch(_, _, t, f) =>
      CheckReturnsMust(t, plan, done);
      CheckReturnsMust(f, plan, done);
    case _ =>
  }

  lemma {:induction false} ListsReturnMust(nodes: seq<Node>, plan: Plan, done: set<Name>, joined: set<Name>)
    requires done <= joined
    ensures var r := CheckInOrder(nodes, plan, done); r.Ok? ==> r.value == done + MustEach(nodes, plan)
    ensures var r := CheckJoined(nodes, plan, done, joined); r.Ok? ==> r.value == joined + MustEach(nodes, plan)
    decreases nodes, 0
  {
    if nodes != [] {
      CheckReturnsMust(nodes[0], plan, done);
      var first := Check(nodes[0], plan, done);
      if first.Ok? {
        ListsReturnMust(nodes[1..], plan, done, joined + first.value);
        ListsReturnMust(nodes[1..], plan, first.value, first.value);
      }
    }
  }

  /** More finished steps never turn an accepted tree into a refused one. */
  lemma {:induction false} CheckMonotone(node: Node, plan: Plan, done: set<Name>, more: set<Name>)
    requires done <= more && Check(node, plan, done).Ok?
    ensures Check(node, plan, more).Ok?
    ensures Check(node, plan, done).value <= Check(node, plan, more).value
    decreases node, 1
  {
    match node
    case Sequence(_, children) => InOrderMonotone(children, plan, done, more);
    case ParallelAll(_, children) => JoinedMonotone(children, plan, done, more, done, more);
    case Branch(_, _, t, f) =>
      CheckMonotone(t, plan, done, more);
      CheckMonotone(f, plan, done, more);
    case _ =>
  }

  lemma {:induction false} InOrderMonotone(nodes: seq<Node>, plan: Plan, done: set<Name>, more: set<Name>)
    requires done <= more && CheckInOrder(nodes, plan, done).Ok?
    ensures CheckInOrder(nodes, plan, more).Ok?
    ensures CheckInOrder(nodes, plan, done).value <= CheckInOrder(nodes, plan, more).value
    decreases nodes, 0
  {
    if nodes != [] {
      CheckMonotone(nodes[0], plan, done, more);
      InOrderMonotone(nodes[1..], plan, Check(nodes[0], plan, done).value, Check(nodes[0], plan, more).value);
    }
  }

  lemma {:induction false} JoinedMonotone(
      nodes: seq<Node>, plan: Plan, done: set<Name>, more: set<Name>, joined: set<Name>, wider: set<Name>)
    requires done <= more && joined <= wider && CheckJoined(nodes, plan, done, joined).Ok?
    ensures CheckJoined(nodes, plan, more, wider).Ok?
    ensures CheckJoined(nodes, plan, done, joined).value <= CheckJoined(nodes, plan, more, wider).value
    decreases nodes, 0
  {
    if nodes != [] {
      CheckMonotone(nodes[0], plan, done, more);
      var a, b := Check(nodes[0], plan, done).value, Check(nodes[0], plan, more).value;
      JoinedMonotone(nodes[1..], plan, done, more, joined + a, wider + b);
    }
  }

  /** The steps a view has finished within a tree. */
  function DoneIn(node: Node, plan: Plan, view: View): set<Name>
    decreases node
  {
    match node
    case Operation(id, binding) => if Finished(view, id) then Selected(plan, binding) else {}
    case Sequence(_, children) => DoneInEach(children, plan, view)
    case ParallelAll(_, children) => DoneInEach(children, plan, view)
    case Branch(_, _, t, f) => DoneIn(t, plan, view) + DoneIn(f, plan, view)
    case _ => {}
  }

  function DoneInEach(nodes: seq<Node>, plan: Plan, view: View): set<Name>
    decreases nodes
  {
    if nodes == [] then {} else DoneIn(nodes[0], plan, view) + DoneInEach(nodes[1..], plan, view)
  }

  /** The engine's own gate at dispatch: every predecessor of the step has finished. */
  predicate GateOpen(plan: Plan, binding: Name, done: set<Name>) {
    var step := Find(plan, binding);
    step.Ok? && forall p | p in step.value.predecessors :: p in done
  }

  /** Some action of `nodes` carries this identity and its gate is open. */
  ghost predicate OpenAction(actions: set<Node>, plan: Plan, id: Name, done: set<Name>) {
    exists op | op in actions :: op.Operation? && op.id == id && GateOpen(plan, op.binding, done)
  }

  /** An accepted tree, in any state the planner accepts: whatever it offers may start, and once it is
      complete the set computed by the checker has really been finished. */
  lemma {:induction false} AcceptedTreeIsSafe(node: Node, plan: Plan, done: set<Name>, view: View)
    requires Check(node, plan, done).Ok? && Evaluate(node, view).Ok?
    ensures var f := Evaluate(node, view).value;
      && (f.state == Completed ==> Must(node, plan) <= DoneIn(node, plan, view))
      && (forall id | id in f.operations :: OpenAction(Actions(node), plan, id, done + DoneIn(node, plan, view)))
    decreases node, 1
  {
    var f := Evaluate(node, view).value;
    match node
    case Operation(id, binding) =>
      if id in f.operations { assert node in Actions(node); }
    case Sequence(_, children) =>
      SequenceIsSafe(children, plan, done, view);
    case ParallelAll(_, children) =>
      ParallelIsSafe(children, plan, done, done, view);
    case Branch(id, _, t, e) =>
      if id in view.branches {
        var chosen := if view.branches[id] then t else e;
        AcceptedTreeIsSafe(chosen, plan, done, view);
        forall op | op in f.operations
          ensures OpenAction(Actions(node), plan, op, done + DoneIn(node, plan, view))
        {
          Widen(Actions(chosen), Actions(node), plan, op,
                done + DoneIn(chosen, plan, view), done + DoneIn(node, plan, view));
        }
      }
    case _ =>
  }

  lemma Widen(few: set<Node>, many: set<Node>, plan: Plan, id: Name, done: set<Name>, more: set<Name>)
    requires OpenAction(few, plan, id, done) && few <= many && done <= more
    ensures OpenAction(many, plan, id, more)
  {
    var op :| op in few && op.Operation? && op.id == id && GateOpen(plan, op.binding, done);
    assert op in many && GateOpen(plan, op.binding, more);
  }

  lemma {:induction false} SequenceIsSafe(nodes: seq<Node>, plan: Plan, done: set<Name>, view: View)
    requires CheckInOrder(nodes, plan, done).Ok? && EvaluateSequence(nodes, view).Ok?
    ensures var f := EvaluateSequence(nodes, view).value;
      && (f.state == Completed ==> MustEach(nodes, plan) <= DoneInEach(nodes, plan, view))
      && (forall id | id in f.operations ::
            OpenAction(ActionsOf(nodes), plan, id, done + DoneInEach(nodes, plan, view)))
    decreases nodes, 0
  {
    if nodes != [] {
      var first, rest := nodes[0], nodes[1..];
      var f := EvaluateSequence(nodes, view).value;
      AcceptedTreeIsSafe(first, plan, done, view);
      CheckReturnsMust(first, plan, done);
      var so := done + DoneIn(first, plan, view);
      var all := done + DoneInEach(nodes, plan, view);
      if Evaluate(first, view).value.state == Completed {
        var next := Check(first, plan, done).value;
        InOrderMonotone(rest, plan, next, so);
        SequenceIsSafe(rest, plan, so, view);
        forall id | id in f.operations
          ensures OpenAction(ActionsOf(nodes), plan, id, all)
        {
          Widen(ActionsOf(rest), ActionsOf(nodes), plan, id, so + DoneInEach(rest, plan, view), all);
        }
      } else {
        forall id | id in f.operations
          ensures OpenAction(ActionsOf(nodes), plan, id, all)
        {
          Widen(Actions(first), ActionsOf(nodes), plan, id, so, all);
        }
      }
    }
  }

  lemma {:induction false} ParallelIsSafe(nodes: seq<Node>, plan: Plan, done: set<Name>, joined: set<Name>, view: View)
    requires CheckJoined(nodes, plan, done, joined).Ok? && EvaluateEach(nodes, view).Ok?
    ensures var fs := EvaluateEach(nodes, view).value;
      && ((forall r | r in fs :: r.state == Completed) ==> MustEach(nodes, plan) <= DoneInEach(nodes, plan, view))
      && (forall id | id in Merged(fs).operations ::
            OpenAction(ActionsOf(nodes), plan, id, done + DoneInEach(nodes, plan, view)))
    decreases nodes, 0
  {
    if nodes != [] {
      var first, rest := nodes[0], nodes[1..];
      var fs := EvaluateEach(nodes, view).value;
      AcceptedTreeIsSafe(first, plan, done, view);
      ParallelIsSafe(rest, plan, done, joined + Check(first, plan, done).value, view);
      assert fs == [Evaluate(first, view).value] + EvaluateEach(rest, view).value;
      assert fs[1..] == EvaluateEach(rest, view).value;
      var all := done + DoneInEach(nodes, plan, view);
      forall id | id in Merged(fs).operations
        ensures OpenAction(ActionsOf(nodes), plan, id, all)
      {
        if id in fs[0].operations {
          Widen(Actions(first), ActionsOf(nodes), plan, id, done + DoneIn(first, plan, view), all);
        } else {
          Widen(ActionsOf(rest), ActionsOf(nodes), plan, id, done + DoneInEach(rest, plan, view), all);
        }
      }
    }
  }
}
