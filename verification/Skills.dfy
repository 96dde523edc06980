/** Local simulation skills: the stored values and the facts every reachable store satisfies
    (crates/rx-application/src/software_skill.rs). Runs have no parent process here. */
module Skills {
  import opened Base
  import Op = Operations

  datatype ValueKind = StringKind | IntegerKind | FloatKind | BooleanKind | ObjectKind | ArrayKind | NullKind

  /** A JSON value: its kind, the kinds of its fields, its canonical size and an identity. */
  datatype Value = Value(kind: ValueKind, fields: map<string, ValueKind>, size: nat, content: nat)

  datatype Package = Package(
    name: string, version: string, environment: string, inputs: map<string, string>,
    outputs: map<string, string>, timeoutMs: nat, code: string)

  /** The canonical digest of a package. */
  datatype PackageDigest = PackageDigest(of: Package)

  datatype Skill = Skill(digest: PackageDigest, package: Package)

  datatype Start = Start(requestId: Id, skill: string, version: string, input: Value)

  datatype Run = Run(
    request: Start, packageDigest: PackageDigest, operation: Op.Snapshot, submitted: nat,
    started: Option<nat>, finished: Option<nat>, worker: Option<Id>,
    output: Option<Value>, error: Option<string>, duration: Option<nat>)

  datatype Finish = Finish(
    run: Id, worker: Id, outcome: string, output: Option<Value>, error: Option<string>, duration: nat)

  datatype Row = Row(revision: nat, run: Run)

  datatype Moment = ADMITTED | EXECUTION_ENTERED | SERVER_CONTINUITY_LOST | RESULT_RECORDED | WORKER_CONTINUITY_LOST

  /** The audit log: evidence under its own fresh identity, and the stages of runs. */
  datatype Event =
    | ResultEvidence(id: Id, result: Finish)
    | LossEvidence(id: Id, run: Id, moment: Moment)
    | Transition(run: Id, moment: Moment, operation: Op.Snapshot)

  datatype Fault = Invalid | Integrity | KeyConflict | RevisionConflict

  /** The tables of one installation; `foreign` counts rows of other services, and `nextId` is the next
      identity a fresh UUID stands for. */
  datatype Tables = Tables(
    installed: bool, foreign: nat, skills: map<(string, string), Skill>, runs: map<Id, Row>,
    results: map<Id, Finish>, events: seq<Event>, nextId: Id)

  const LIMIT: nat := 1000
  const MAX_SKILLS: nat := 128

  // ---------------------------------------------------------------- names, versions and shapes

  predicate Lower(c: char) { 'a' <= c <= 'z' }
  predicate Digit(c: char) { '0' <= c <= '9' }

  predicate Symbol(s: string) {
    0 < |s| <= 48 && forall c | c in s :: Lower(c) || Digit(c) || c == '_' || c == '-'
  }

  function Split(s: string): seq<string> {
    if s == "" then [""] else
    var rest := Split(s[1..]);
    if s[0] == '.' then [""] + rest
    else if rest == [] then [[s[0]]] else [[s[0]] + rest[0]] + rest[1..]
  }

  predicate Version(s: string) {
    && |s| <= 32 && |Split(s)| == 3
    && forall p | p in Split(s) :: p != "" && forall c | c in p :: Digit(c)
  }

  predicate Fits(kind: string, v: ValueKind) {
    match kind
    case "string" => v == StringKind
    case "integer" => v == IntegerKind
    case "number" => v == IntegerKind || v == FloatKind
    case "boolean" => v == BooleanKind
    case "object" => v == ObjectKind
    case "array" => v == ArrayKind
    case _ => false
  }

  predicate Shape(spec: map<string, string>, v: Value) {
    && v.kind == ObjectKind && |v.fields| == |spec|
    && (forall f | f in spec :: f in v.fields && Fits(spec[f], v.fields[f]))
    && v.size <= 65_536
  }

  predicate SchemaOk(spec: map<string, string>) {
    && |spec| <= 32
    && forall f | f in spec :: Symbol(f) && spec[f] in ["string", "integer", "number", "boolean", "object", "array"]
  }

  predicate PackageOk(p: Package) {
    && Symbol(p.name) && Version(p.version) && p.environment == "LOCAL_SIM"
    && 100 <= p.timeoutMs <= 60_000 && p.code != "" && ByteLength(p.code) <= 262_144
    && SchemaOk(p.inputs) && SchemaOk(p.outputs)
  }

  // ---------------------------------------------------------------- what is true of every reachable store

  predicate InFlight(r: Run) {
    r.started.Some? && r.operation.phase != Op.Settled
  }

  predicate Queued(r: Run) { r.started.None? }

  function Sent(operation: Op.Snapshot): Op.Snapshot {
    operation.(phase := Op.Active, knowledge := Op.MayHaveExecuted, revision := 2)
  }

  /** A run is queued, in flight or settled, and its row has been saved once for each stage. */
  ghost predicate Staged(id: Id, row: Row) {
    var r := row.run;
    && r.request.requestId == id && r.operation.id == id && Op.Decodes(r.operation)
    && (Queued(r) ==>
          row.revision == 1 && r.worker.None? && r.operation == Op.Admit(id, r.operation.intent))
    && (InFlight(r) ==>
          row.revision == 2 && r.worker.Some? && r.operation == Sent(Op.Admit(id, r.operation.intent)))
    && (!Queued(r) && !InFlight(r) ==>
          row.revision == 3 && r.worker.Some? && r.operation.phase == Op.Settled && r.operation.integrity == Op.Valid)
  }

  function OutcomeNamed(name: string): Option<Op.Outcome> {
    match name
    case "SUCCEEDED" => Some(Op.Succeeded)
    case "FAILED" => Some(Op.Failed)
    case "UNKNOWN" => Some(Op.Unresolved)
    case _ => None
  }

  /** The run is settled with exactly this result. */
  ghost predicate SettledBy(r: Run, f: Finish) {
    && !Queued(r) && r.operation.phase == Op.Settled && OutcomeNamed(f.outcome) == Some(r.operation.outcome)
    && r.worker == Some(f.worker) && r.output == f.output && r.error == f.error && r.duration == Some(f.duration)
  }

  /** How often each run has entered execution, according to the log. */
  function Starts(events: seq<Event>): multiset<Id>
    decreases |events|
  {
    if events == [] then multiset{} else
    var last := events[|events| - 1];
    Starts(events[..|events| - 1])
      + if last.Transition? && last.moment == EXECUTION_ENTERED then multiset{last.run} else multiset{}
  }

  lemma StartsAppend(events: seq<Event>, e: Event)
    ensures Starts(events + [e]) ==
      Starts(events) + if e.Transition? && e.moment == EXECUTION_ENTERED then multiset{e.run} else multiset{}
  {
    assert (events + [e])[..|events|] == events;
  }

  ghost predicate RunsStaged(t: Tables) {
    forall id | id in t.runs :: Staged(id, t.runs[id])
  }

  /** At most one execution at a time. */
  ghost predicate OneInFlight(t: Tables) {
    forall a, b | a in t.runs && b in t.runs && InFlight(t.runs[a].run) && InFlight(t.runs[b].run) :: a == b
  }

  /** Every run was admitted against a skill that is still there, with the digest of its package. */
  ghost predicate SkillsPresent(t: Tables) {
    && (forall id | id in t.runs :: SkillOf(t, t.runs[id].run))
    && (forall k | k in t.skills :: t.skills[k].digest == PackageDigest(t.skills[k].package))
  }

  /** A receipt means the run settled with exactly that result. */
  ghost predicate ReceiptsTrue(t: Tables) {
    forall id | id in t.results :: id in t.runs && t.results[id].run == id && SettledBy(t.runs[id].run, t.results[id])
  }

  /** The log shows one start for each run that is past the queue, and none for the others. */
  ghost predicate StartsLogged(t: Tables) {
    forall id :: Starts(t.events)[id] == if id in t.runs && !Queued(t.runs[id].run) then 1 else 0
  }

  /** Everything that holds of the tables at every moment between two calls. */
  ghost predicate Consistent(t: Tables) {
    RunsStaged(t) && OneInFlight(t) && SkillsPresent(t) && ReceiptsTrue(t) && StartsLogged(t)
  }

  predicate SkillOf(t: Tables, r: Run) {
    var k := (r.request.skill, r.request.version);
    Symbol(k.0) && Version(k.1) && k in t.skills && t.skills[k].digest == r.packageDigest
  }

  /** What no call ever takes back. */
  ghost predicate Later(s: Tables, t: Tables) {
    && (forall k | k in s.skills :: k in t.skills && t.skills[k] == s.skills[k])
    && (forall id | id in s.results :: id in t.results && t.results[id] == s.results[id])
    && (forall id | id in s.runs :: id in t.runs && Progresses(s.runs[id].run, t.runs[id].run))
    && (forall id | id in s.runs && !Queued(s.runs[id].run) && !InFlight(s.runs[id].run) :: t.runs[id] == s.runs[id])
    && s.events <= t.events
  }

  ghost predicate Progresses(r: Run, q: Run) {
    && q.request == r.request && q.packageDigest == r.packageDigest && q.submitted == r.submitted
    && (!Queued(r) ==> !Queued(q) && q.started == r.started && q.worker == r.worker)
  }

  /** No run is ever started twice, and nothing executes without having been started. */
  lemma StartedAtMostOnce(t: Tables, id: Id)
    requires Consistent(t)
    ensures Starts(t.events)[id] <= 1
    ensures id in t.runs && InFlight(t.runs[id].run) ==> Starts(t.events)[id] == 1
  {
  }

  /** The same runs and receipts, the same starts in the log, and no skill lost. */
  ghost predicate SameHistory(t: Tables, u: Tables) {
    && u.runs == t.runs && u.results == t.results && Starts(u.events) == Starts(t.events)
    && (forall k | k in t.skills :: k in u.skills && u.skills[k] == t.skills[k])
    && (forall k | k in u.skills :: u.skills[k].digest == PackageDigest(u.skills[k].package))
  }

  lemma SameHistoryKeeps(t: Tables, u: Tables)
    requires Consistent(t) && SameHistory(t, u)
    ensures Consistent(u)
  {
    hide Staged, InFlight, Queued, SettledBy, SkillsPresent, Starts;
    SkillsStay(t, u);
  }

  lemma SkillsStay(t: Tables, u: Tables)
    requires SkillsPresent(t) && SameHistory(t, u)
    ensures SkillsPresent(u)
  {
    hide Symbol, Version, Starts;
    forall i | i in u.runs
      ensures SkillOf(u, u.runs[i].run)
    {
      assert SkillOf(t, t.runs[i].run);
    }
  }

  lemma DigestsHold(t: Tables)
    requires Consistent(t)
    ensures forall k | k in t.skills :: t.skills[k].digest == PackageDigest(t.skills[k].package)
  {
    hide RunsStaged, OneInFlight, ReceiptsTrue, StartsLogged, SkillOf;
  }

  lemma LaterTransitive(a: Tables, b: Tables, c: Tables)
    requires Later(a, b) && Later(b, c)
    ensures Later(a, c)
  {
  }

  // ---------------------------------------------------------------- one run, saved at its next stage

  /** The run has moved to `r` at its next revision, and the log says so. */
  function Saved(t: Tables, r: Run, moment: Moment): Tables {
    var id := r.request.requestId;
    var revision := if id in t.runs then t.runs[id].revision + 1 else 1;
    t.(runs := t.runs[id := Row(revision, r)], events := t.events + [Transition(id, moment, r.operation)])
  }

  function Begun(r: Run, worker: Id, now: nat): Run {
    r.(operation := Sent(r.operation), worker := Some(worker), started := Some(now))
  }

  ghost predicate Settles(r: Run, q: Run) {
    && InFlight(r) && q.request == r.request && q.packageDigest == r.packageDigest && q.submitted == r.submitted
    && q.started == r.started && q.worker == r.worker
    && q.operation.id == r.operation.id && Op.Decodes(q.operation)
    && q.operation.phase == Op.Settled && q.operation.integrity == Op.Valid
  }

  /** Evidence is logged under a fresh identity; no run changes. */
  function Logged(t: Tables, e: Event): Tables {
    t.(events := t.events + [e], nextId := t.nextId + 1)
  }

  lemma EvidenceKeeps(t: Tables, e: Event)
    requires Consistent(t) && !e.Transition?
    ensures Consistent(Logged(t, e)) && Later(t, Logged(t, e))
  {
    hide Consistent, Later;
    StartsAppend(t.events, e);
    DigestsHold(t);
    SameHistoryKeeps(t, Logged(t, e));
    EvidenceLater(t, e);
  }

  lemma EvidenceLater(t: Tables, e: Event)
    ensures Later(t, Logged(t, e))
  {
  }

  /** Saving a run keeps the log of starts true when exactly the step that starts it is logged as one. */
  lemma SavedStarts(t: Tables, r: Run, moment: Moment)
    requires StartsLogged(t)
    requires var id := r.request.requestId;
      var before := id in t.runs && !Queued(t.runs[id].run);
      if moment == EXECUTION_ENTERED then !before && !Queued(r) else before <==> !Queued(r)
    ensures StartsLogged(Saved(t, r, moment))
  {
    StartsAppend(t.events, Transition(r.request.requestId, moment, r.operation));
  }

  lemma SavedSkills(t: Tables, r: Run, moment: Moment)
    requires SkillsPresent(t) && SkillOf(t, r)
    ensures SkillsPresent(Saved(t, r, moment))
  {
    var u := Saved(t, r, moment);
    forall id | id in u.runs
      ensures SkillOf(u, u.runs[id].run)
    {
      if id != r.request.requestId { assert SkillOf(t, t.runs[id].run); }
    }
  }

  lemma SavedReceipts(t: Tables, r: Run, moment: Moment)
    requires ReceiptsTrue(t) && (r.request.requestId in t.results ==> r.request.requestId in t.runs && r == t.runs[r.request.requestId].run)
    ensures ReceiptsTrue(Saved(t, r, moment))
  {
  }

  lemma SavedLater(t: Tables, r: Run, moment: Moment)
    requires var id := r.request.requestId;
      id in t.runs ==> Progresses(t.runs[id].run, r) && (Queued(t.runs[id].run) || InFlight(t.runs[id].run))
    ensures Later(t, Saved(t, r, moment))
  {
  }

  /** Admitting a new run. */
  lemma AdmitKeeps(t: Tables, r: Run)
    requires Consistent(t) && r.request.requestId !in t.runs && SkillOf(t, r)
    requires Queued(r) && r.worker.None? && r.operation == Op.Admit(r.request.requestId, r.operation.intent)
    ensures Consistent(Saved(t, r, ADMITTED)) && Later(t, Saved(t, r, ADMITTED))
  {
    hide StartsLogged, SkillsPresent, SkillOf, Later, ReceiptsTrue, Symbol, Version;
    Receiptless(t, r.request.requestId);
    assert SkillOf(t, r) && SkillsPresent(t);
    SavedSkills(t, r, ADMITTED);
    SavedReceipts(t, r, ADMITTED);
    SavedLater(t, r, ADMITTED);
    SavedStarts(t, r, ADMITTED);
  }

  lemma Receiptless(t: Tables, id: Id)
    requires Consistent(t) && (id in t.runs ==> Queued(t.runs[id].run) || InFlight(t.runs[id].run))
    ensures id !in t.results
  {
  }

  /** Starting a queued run while nothing is in flight. */
  lemma BeginKeeps(t: Tables, id: Id, worker: Id, now: nat)
    requires Consistent(t) && id in t.runs && Queued(t.runs[id].run)
    requires forall other | other in t.runs :: !InFlight(t.runs[other].run)
    ensures var u := Saved(t, Begun(t.runs[id].run, worker, now), EXECUTION_ENTERED);
      Consistent(u) && Later(t, u)
  {
    hide StartsLogged, SkillsPresent, SkillOf, Later, ReceiptsTrue;
    var r := Begun(t.runs[id].run, worker, now);
    assert Staged(id, t.runs[id]);
    Receiptless(t, id);
    SkillStays(t, id, r);
    SavedSkills(t, r, EXECUTION_ENTERED);
    SavedReceipts(t, r, EXECUTION_ENTERED);
    SavedLater(t, r, EXECUTION_ENTERED);
    SavedStarts(t, r, EXECUTION_ENTERED);
  }

  lemma SkillStays(t: Tables, id: Id, r: Run)
    requires SkillsPresent(t) && id in t.runs
    requires r.request == t.runs[id].run.request && r.packageDigest == t.runs[id].run.packageDigest
    ensures SkillOf(t, r)
  {
    assert SkillOf(t, t.runs[id].run);
  }

  /** Settling the run that is in flight. */
  lemma SettleKeeps(t: Tables, q: Run, moment: Moment)
    requires Consistent(t) && q.request.requestId in t.runs && Settles(t.runs[q.request.requestId].run, q)
    requires moment != EXECUTION_ENTERED
    ensures Consistent(Saved(t, q, moment)) && Later(t, Saved(t, q, moment))
  {
    hide StartsLogged, SkillsPresent, SkillOf, Later, ReceiptsTrue;
    var id := q.request.requestId;
    assert Staged(id, t.runs[id]);
    Receiptless(t, id);
    SkillStays(t, id, q);
    SavedSkills(t, q, moment);
    SavedReceipts(t, q, moment);
    SavedLater(t, q, moment);
    SavedStarts(t, q, moment);
  }
}
