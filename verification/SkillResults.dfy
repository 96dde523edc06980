/** What the runs of the skill engine carry: inputs and outputs of the declared form, and an error exactly when
    something went wrong (crates/rx-application/src/software_skill.rs, `shape`, `finish`). */
module SkillResults {
  import opened Base
  import opened Skills
  import opened SkillSteps
  import opened SkillHistory
  import Op = Operations

  predicate OfKind(kind: string, v: ValueKind) {
    || (kind == "string" && v == StringKind)
    || (kind == "integer" && v == IntegerKind)
    || (kind == "number" && (v == IntegerKind || v == FloatKind))
    || (kind == "boolean" && v == BooleanKind)
    || (kind == "object" && v == ObjectKind)
    || (kind == "array" && v == ArrayKind)
  }

  /** An object of at most 64 KiB with exactly the declared fields, each of its declared kind. */
  ghost predicate Declared(spec: map<string, string>, v: Value) {
    && v.kind == ObjectKind && v.fields.Keys == spec.Keys && v.size <= 65_536
    && forall f | f in spec :: OfKind(spec[f], v.fields[f])
  }

  lemma ShapeIsDeclared(spec: map<string, string>, v: Value)
    ensures Shape(spec, v) <==> Declared(spec, v)
  {
    hide OfKind, Fits;
    forall kind, w
      ensures Fits(kind, w) <==> OfKind(kind, w)
    {
      KindsAgree(kind, w);
    }
    assert |spec| == |spec.Keys| && |v.fields| == |v.fields.Keys|;
    if spec.Keys <= v.fields.Keys && |v.fields| == |spec| { SameNames(spec.Keys, v.fields.Keys); }
    if Shape(spec, v) { assert spec.Keys <= v.fields.Keys; }
  }

  lemma KindsAgree(kind: string, v: ValueKind)
    ensures Fits(kind, v) <==> OfKind(kind, v)
  {
  }

  lemma SameNames(a: set<string>, b: set<string>)
    requires a <= b && |a| == |b|
    ensures a == b
  {
    var rest := b - a;
    assert b == a + rest && |b| == |a| + |rest|;
  }

  /** A success has an output of the form its skill declares and no error, every other end has a non-empty error and no
      output, and a run that has not ended has neither. */
  ghost predicate Told(package: Package, r: Run) {
    && Declared(package.inputs, r.request.input)
    && if r.operation.phase != Op.Settled then r.output == None && r.error == None
       else if r.operation.outcome == Op.Succeeded
       then r.output.Some? && Declared(package.outputs, r.output.value) && r.error == None
       else r.output == None && r.error.Some? && r.error.value != ""
  }

  ghost predicate ToldIn(t: Tables, r: Run) {
    var k := (r.request.skill, r.request.version);
    k in t.skills && Told(t.skills[k].package, r)
  }

  ghost predicate AllTold(t: Tables) {
    forall id | id in t.runs :: ToldIn(t, t.runs[id].run)
  }

  /** What the engine asks of a result, in the terms of the skill that the run was admitted for. */
  ghost predicate Acceptable(package: Package, f: Finish) {
    && (f.outcome == "SUCCEEDED" || f.outcome == "FAILED" || f.outcome == "UNKNOWN")
    && f.duration <= 86_400_000 && (f.error.Some? ==> ByteLength(f.error.value) <= 4096)
    && (f.outcome == "SUCCEEDED" ==> f.output.Some? && Declared(package.outputs, f.output.value) && f.error == None)
    && (f.outcome != "SUCCEEDED" ==> f.output == None && f.error.Some? && f.error.value != "")
  }

  lemma FitsIsAcceptable(package: Package, f: Finish)
    ensures ResultFits(package, f) <==> Acceptable(package, f)
  {
    hide Declared, Shape;
    if f.output.Some? { ShapeIsDeclared(package.outputs, f.output.value); }
  }

  /** The first result that the owner of a run in flight reports is recorded exactly when it is acceptable for the run's
      skill; the run then ends with the reported outcome, output and error. */
  lemma FirstResultIsRecordedWhenAcceptable(
      s: Tables, f: Finish, now: nat, reply: Reply, t: Tables, intent: (Start, PackageDigest) -> nat)
    requires Consistent(s) && Stepped(s, Report(f, now), reply, t, intent)
    requires f.run in s.runs && InFlight(s.runs[f.run].run) && s.runs[f.run].run.worker == Some(f.worker)
    ensures var request := s.runs[f.run].run.request;
      && (request.skill, request.version) in s.skills
      && (reply.Recorded? <==> Acceptable(s.skills[(request.skill, request.version)].package, f))
    ensures reply.Refused? ==> t == s
    ensures reply.Recorded? ==> f.run in t.runs && reply.recorded == t.runs[f.run].run && reply.recorded.operation.phase == Op.Settled
    ensures reply.Recorded? ==>
      && reply.recorded.output == f.output && reply.recorded.error == f.error
      && (f.outcome == "SUCCEEDED" ==> reply.recorded.operation.outcome == Op.Succeeded)
      && (f.outcome == "FAILED" ==> reply.recorded.operation.outcome == Op.Failed)
      && (f.outcome == "UNKNOWN" ==> reply.recorded.operation.outcome == Op.Unresolved)
  {
    hide Consistent, ResultFits, Acceptable, Symbol, Version, Recording;
    RunHasSkill(s, f.run);
    Receiptless(s, f.run);
    FlightIsStaged(s, f.run);
    if OutcomeNamed(f.outcome).Some? { RecordedRuns(s, f, now); }
    var request := s.runs[f.run].run.request;
    FitsIsAcceptable(s.skills[(request.skill, request.version)].package, f);
    AcceptableIsNamed(s.skills[(request.skill, request.version)].package, f);
  }

  /** The owner's first result is recorded exactly when it is acceptable. */
  ghost predicate FirstResultDecided(s: Tables, f: Finish, reply: Reply) {
    f.run in s.runs && InFlight(s.runs[f.run].run) && s.runs[f.run].run.worker == Some(f.worker) ==>
      var k := (s.runs[f.run].run.request.skill, s.runs[f.run].run.request.version);
      k in s.skills && (reply.Recorded? <==> Acceptable(s.skills[k].package, f))
  }

  lemma FirstResultIsDecided(s: Tables, f: Finish, now: nat, reply: Reply, t: Tables, intent: (Start, PackageDigest) -> nat)
    requires Consistent(s) && Stepped(s, Report(f, now), reply, t, intent)
    ensures FirstResultDecided(s, f, reply)
  {
    hide Consistent, Stepped, Acceptable, InFlight;
    if f.run in s.runs && InFlight(s.runs[f.run].run) && s.runs[f.run].run.worker == Some(f.worker) {
      FirstResultIsRecordedWhenAcceptable(s, f, now, reply, t, intent);
    }
  }

  lemma AcceptableIsNamed(package: Package, f: Finish)
    ensures Acceptable(package, f) ==> OutcomeNamed(f.outcome).Some?
  {
    hide Declared;
  }

  lemma RunHasSkill(t: Tables, id: Id)
    requires Consistent(t) && id in t.runs
    ensures SkillOf(t, t.runs[id].run)
  {
    hide RunsStaged, OneInFlight, ReceiptsTrue, StartsLogged, SkillOf;
  }

  // ---------------------------------------------------------------- every reachable store

  /** In every state of every history, each run carries an input of the form its skill declares, and what it should
      carry of output and error. */
  lemma {:induction false} EveryRunIsTold(
      states: seq<Tables>, exchanges: seq<Exchange>, intent: (Start, PackageDigest) -> nat, i: nat)
    requires History(states, exchanges, intent) && i < |states|
    ensures AllTold(states[i])
    decreases i
  {
    hide Consistent, Stepped, ToldIn;
    if i > 0 {
      EveryRunIsTold(states, exchanges, intent, i - 1);
      HistoryKeeps(states, exchanges, intent, i - 1, i);
      StepTold(states[i - 1], exchanges[i - 1].call, exchanges[i - 1].reply, states[i], intent);
    }
  }

  lemma StepTold(s: Tables, call: Call, reply: Reply, t: Tables, intent: (Start, PackageDigest) -> nat)
    requires Consistent(s) && AllTold(s) && Stepped(s, call, reply, t, intent)
    ensures AllTold(t)
  {
    hide Consistent, AllTold, PackageOk, Shape, ResultFits, Admissible, Earliest, GivesUp, InFlight, Recording, Told;
    match call
    case Open(now) =>
      if s.installed || Pristine(s) {
        SameRunsTold(s, s.(installed := true));
        InstallKeeps(s);
        GivingUpTold(s.(installed := true), Executing(s), SERVER_CONTINUITY_LOST, now, t);
      }
    case Register(p) => if t != s { SameRunsTold(s, t); }
    case Submit(start, now) => if t != s { AdmittedTold(s, start, now, reply, t, intent); }
    case Claim(worker, now) =>
      if reply.Claimed? { ClaimedTold(s, worker, now, reply, t); }
    case Report(f, now) => if t != s { RecordingTold(s, f, now, reply, t); }
    case Abandon(worker, now) =>
      OwnedRunsExecute(s, worker);
      GivingUpTold(s, OwnedBy(s, worker), WORKER_CONTINUITY_LOST, now, t);
  }

  lemma SameRunsTold(s: Tables, t: Tables)
    requires AllTold(s) && t.runs == s.runs
    requires forall k | k in s.skills :: k in t.skills && t.skills[k] == s.skills[k]
    ensures AllTold(t)
  {
    hide Told;
    forall id | id in t.runs
      ensures ToldIn(t, t.runs[id].run)
    {
      assert ToldIn(s, s.runs[id].run);
    }
  }

  lemma OneMoreTold(s: Tables, t: Tables, id: Id)
    requires AllTold(s) && t.skills == s.skills && id in t.runs && t.runs == s.runs[id := t.runs[id]]
    requires ToldIn(s, t.runs[id].run)
    ensures AllTold(t)
  {
    hide Told;
    forall other | other in t.runs
      ensures ToldIn(t, t.runs[other].run)
    {
      if other != id { assert ToldIn(s, s.runs[other].run); }
    }
  }

  lemma AdmittedTold(s: Tables, start: Start, now: nat, reply: Reply, t: Tables, intent: (Start, PackageDigest) -> nat)
    requires AllTold(s) && Submits(s, start, now, reply, t, intent) && t != s
    ensures AllTold(t)
  {
    hide AllTold, Shape, Symbol, Version, Declared;
    ShapeIsDeclared(s.skills[(start.skill, start.version)].package.inputs, start.input);
    OneMoreTold(s, t, start.requestId);
  }

  lemma ClaimedTold(s: Tables, worker: Id, now: nat, reply: Reply, t: Tables)
    requires Consistent(s) && AllTold(s) && Claims(s, worker, now, reply, t) && reply.Claimed?
    ensures AllTold(t)
  {
    hide AllTold, Consistent, Declared;
    var id := reply.claimed.request.requestId;
    EarliestIsQueued(s, id);
    QueuedIsUnsettled(s, id);
    RunTold(s, id);
    OneMoreTold(s, t, id);
  }

  lemma QueuedIsUnsettled(t: Tables, id: Id)
    requires Consistent(t) && id in t.runs && Queued(t.runs[id].run)
    ensures t.runs[id].run.operation.phase != Op.Settled && t.runs[id].run.request.requestId == id
  {
    hide OneInFlight, SkillsPresent, ReceiptsTrue, StartsLogged;
    assert Staged(id, t.runs[id]);
  }

  lemma RunTold(t: Tables, id: Id)
    requires AllTold(t) && id in t.runs
    ensures ToldIn(t, t.runs[id].run)
  {
    hide ToldIn;
  }

  lemma GivingUpTold(s: Tables, lost: set<Id>, moment: Moment, now: nat, t: Tables)
    requires Consistent(s) && AllTold(s) && lost <= Executing(s) && GivesUp(s, lost, moment, now, t)
    ensures AllTold(t)
  {
    hide AllTold, Consistent, Losing;
    if lost != {} {
      var id :| id in lost;
      LosingTold(s, id, moment, now);
    }
  }

  lemma LosingTold(s: Tables, id: Id, moment: Moment, now: nat)
    requires Consistent(s) && AllTold(s) && id in s.runs && InFlight(s.runs[id].run)
    ensures AllTold(Losing(s, id, moment, now))
  {
    hide AllTold, Consistent, Declared, Losing;
    FlightIsStaged(s, id);
    RunTold(s, id);
    LosingRuns(s, id, moment, now);
    AbandonedTold(s, s.runs[id].run, s.nextId, moment, now);
    OneMoreTold(s, Losing(s, id, moment, now), id);
  }

  lemma AbandonedTold(s: Tables, r: Run, evidence: Id, moment: Moment, now: nat)
    requires ToldIn(s, r) && r.operation.phase != Op.Settled
    ensures ToldIn(s, Abandoned(r, evidence, moment, now))
  {
    hide Declared;
  }

  lemma LosingRuns(s: Tables, id: Id, moment: Moment, now: nat)
    requires id in s.runs && s.runs[id].run.request.requestId == id
    ensures var t := Losing(s, id, moment, now);
      && t.skills == s.skills && id in t.runs && t.runs == s.runs[id := t.runs[id]]
      && t.runs[id].run == Abandoned(s.runs[id].run, s.nextId, moment, now)
  {
  }

  lemma RecordingTold(s: Tables, f: Finish, now: nat, reply: Reply, t: Tables)
    requires Consistent(s) && AllTold(s) && Reports(s, f, now, reply, t) && t != s
    ensures AllTold(t)
  {
    hide AllTold, Consistent, Declared, ResultFits, Saved;
    FlightIsStaged(s, f.run);
    RunTold(s, f.run);
    var package := s.skills[(s.runs[f.run].run.request.skill, s.runs[f.run].run.request.version)].package;
    FitsIsAcceptable(package, f);
    RecordedRuns(s, f, now);
    OneMoreTold(s, t, f.run);
  }

  lemma RecordedRuns(s: Tables, f: Finish, now: nat)
    requires f.run in s.runs && s.runs[f.run].run.request.requestId == f.run && OutcomeNamed(f.outcome).Some?
    ensures var t := Recording(s, f, now);
      && t.skills == s.skills && f.run in t.runs && t.runs == s.runs[f.run := t.runs[f.run]]
      && t.runs[f.run].run == Concluded(s.runs[f.run].run, f, OutcomeNamed(f.outcome).value, s.nextId, now)
  {
    hide Concluded;
    assert Concluded(s.runs[f.run].run, f, OutcomeNamed(f.outcome).value, s.nextId, now).request.requestId == f.run by {
      ConcludedRequest(s.runs[f.run].run, f, OutcomeNamed(f.outcome).value, s.nextId, now);
    }
  }

  lemma ConcludedRequest(r: Run, f: Finish, outcome: Op.Outcome, evidence: Id, now: nat)
    ensures Concluded(r, f, outcome, evidence, now).request == r.request
  {
  }

  // ---------------------------------------------------------------- the skills themselves

  ghost predicate IsNumber(s: string) {
    s != "" && forall c | c in s :: '0' <= c <= '9'
  }

  /** Three numbers with dots between them. */
  ghost predicate IsVersion(s: string) {
    |s| <= 32 && exists a, b, c :: s == a + "." + b + "." + c && IsNumber(a) && IsNumber(b) && IsNumber(c)
  }

  ghost predicate IsSymbol(s: string) {
    1 <= |s| <= 48 && forall c | c in s :: 'a' <= c <= 'z' || '0' <= c <= '9' || c == '_' || c == '-'
  }

  ghost predicate IsSchema(spec: map<string, string>) {
    |spec| <= 32 && forall f | f in spec :: IsSymbol(f) && exists v :: OfKind(spec[f], v)
  }

  /** A package that the engine takes. */
  ghost predicate IsPackage(p: Package) {
    && IsSymbol(p.name) && IsVersion(p.version) && p.environment == "LOCAL_SIM" && 100 <= p.timeoutMs <= 60_000
    && p.code != "" && ByteLength(p.code) <= 262_144 && IsSchema(p.inputs) && IsSchema(p.outputs)
  }

  lemma {:induction false} NumbersHaveOnePart(s: string)
    requires forall c | c in s :: c != '.'
    ensures Split(s) == [s]
  {
    if s != "" {
      assert s[0] in s && forall c | c in s[1..] :: c in s;
      NumbersHaveOnePart(s[1..]);
      assert s == [s[0]] + s[1..];
    }
  }

  lemma {:induction false} SplitAtDot(a: string, b: string)
    requires forall c | c in a :: c != '.'
    ensures Split(a + "." + b) == [a] + Split(b)
    decreases |a|
  {
    var s := a + "." + b;
    if a == "" {
      assert s[1..] == b;
    } else {
      assert s[1..] == a[1..] + "." + b && s[0] == a[0];
      assert a[0] in a && forall c | c in a[1..] :: c in a;
      SplitAtDot(a[1..], b);
      assert a == [a[0]] + a[1..];
    }
  }

  function Joined(parts: seq<string>): string {
    if parts == [] then "" else if |parts| == 1 then parts[0] else parts[0] + "." + Joined(parts[1..])
  }

  lemma {:induction false} SplitJoins(s: string)
    ensures Split(s) != [] && Joined(Split(s)) == s
  {
    if s != "" {
      SplitJoins(s[1..]);
      var rest := Split(s[1..]);
      assert s == [s[0]] + s[1..];
      if s[0] == '.' {
        assert ([""] + rest)[1..] == rest;
      } else {
        var parts := [[s[0]] + rest[0]] + rest[1..];
        assert parts[1..] == rest[1..];
        if |rest| > 1 { assert Joined(parts) == ([s[0]] + rest[0]) + "." + Joined(rest[1..]); }
      }
    }
  }

  lemma VersionsAreThreeNumbers(s: string)
    ensures Version(s) <==> IsVersion(s)
  {
    hide Split, Joined;
    SplitJoins(s);
    if Version(s) {
      var p := Split(s);
      assert p[0] in p && p[1] in p && p[2] in p;
      JoinedThree(p);
      assert s == p[0] + "." + p[1] + "." + p[2];
      assert IsNumber(p[0]) && IsNumber(p[1]) && IsNumber(p[2]);
    }
    if IsVersion(s) {
      var a, b, c :| s == a + "." + b + "." + c && IsNumber(a) && IsNumber(b) && IsNumber(c);
      assert s == a + "." + (b + "." + c);
      SplitAtDot(a, b + "." + c);
      SplitAtDot(b, c);
      NumbersHaveOnePart(c);
      assert Split(s) == [a, b, c];
    }
  }

  lemma JoinedThree(p: seq<string>)
    requires |p| == 3
    ensures Joined(p) == p[0] + "." + p[1] + "." + p[2]
  {
    assert p[1..][1..] == [p[2]] && p[1..][0] == p[1];
    assert Joined(p[1..]) == p[1] + "." + p[2];
    assert p[0] + "." + (p[1] + "." + p[2]) == p[0] + "." + p[1] + "." + p[2];
  }

  lemma SchemasAreDeclared(spec: map<string, string>)
    ensures SchemaOk(spec) <==> IsSchema(spec)
  {
    hide OfKind;
    forall f | f in spec
      ensures spec[f] in ["string", "integer", "number", "boolean", "object", "array"] <==> exists v :: OfKind(spec[f], v)
    {
      KindIsOneOfSix(spec[f]);
    }
  }

  lemma KindIsOneOfSix(kind: string)
    ensures kind in ["string", "integer", "number", "boolean", "object", "array"] <==> exists v :: OfKind(kind, v)
  {
    assert OfKind("string", StringKind) && OfKind("integer", IntegerKind) && OfKind("number", IntegerKind);
    assert OfKind("boolean", BooleanKind) && OfKind("object", ObjectKind) && OfKind("array", ArrayKind);
  }

  lemma PackagesAreTaken(p: Package)
    ensures PackageOk(p) <==> IsPackage(p)
  {
    hide Version, IsVersion, SchemaOk, IsSchema;
    VersionsAreThreeNumbers(p.version);
    SchemasAreDeclared(p.inputs);
    SchemasAreDeclared(p.outputs);
  }

  /** A package that is new in its name and version is registered exactly when it is well-formed and there is room. */
  lemma NewPackageIsTakenWhenFit(s: Tables, p: Package, reply: Reply, t: Tables)
    requires Registers(s, p, reply, t) && (p.name, p.version) !in s.skills
    ensures reply.Registered? <==> IsPackage(p) && |s.skills| < 128
    ensures reply.Registered? ==> (p.name, p.version) in t.skills && t.skills[(p.name, p.version)].package == p
  {
    hide PackageOk, IsPackage;
    PackagesAreTaken(p);
  }

  /** Every skill of every reachable store is a well-formed package under its own name and version. */
  lemma {:induction false} EverySkillIsAPackage(
      states: seq<Tables>, exchanges: seq<Exchange>, intent: (Start, PackageDigest) -> nat, i: nat)
    requires History(states, exchanges, intent) && i < |states|
    ensures forall k | k in states[i].skills ::
      k == (states[i].skills[k].package.name, states[i].skills[k].package.version) && IsPackage(states[i].skills[k].package)
    decreases i
  {
    hide Stepped, IsPackage;
    if i > 0 {
      EverySkillIsAPackage(states, exchanges, intent, i - 1);
      SkillsGrowByPackages(states[i - 1], exchanges[i - 1].call, exchanges[i - 1].reply, states[i], intent);
    }
  }

  lemma SkillsGrowByPackages(s: Tables, call: Call, reply: Reply, t: Tables, intent: (Start, PackageDigest) -> nat)
    requires Stepped(s, call, reply, t, intent)
    ensures forall k | k in t.skills && (k !in s.skills || t.skills[k] != s.skills[k]) ::
      k == (t.skills[k].package.name, t.skills[k].package.version) && IsPackage(t.skills[k].package)
  {
    hide PackageOk, IsPackage, Shape, ResultFits, Admissible, Earliest, InFlight, Losing;
    match call
    case Register(p) => PackagesAreTaken(p);
    case Open(now) => if Executing(s) != {} { LostKeepsSkills(s.(installed := true), now, SERVER_CONTINUITY_LOST); }
    case Abandon(_, now) => LostKeepsSkills(s, now, WORKER_CONTINUITY_LOST);
    case _ =>
  }

  lemma LostKeepsSkills(s: Tables, now: nat, moment: Moment)
    ensures forall id | id in s.runs :: Losing(s, id, moment, now).skills == s.skills
  {
  }

  /** A request under a new identity is admitted exactly when its skill is registered, its input is of the declared form and
      there is room; the run then waits for its turn. */
  lemma NewRequestIsAdmittedWhenFit(
      s: Tables, start: Start, now: nat, reply: Reply, t: Tables, intent: (Start, PackageDigest) -> nat)
    requires Submits(s, start, now, reply, t, intent) && start.requestId !in s.runs
    ensures reply.Submitted? <==>
      && IsSymbol(start.skill) && IsVersion(start.version) && (start.skill, start.version) in s.skills
      && Declared(s.skills[(start.skill, start.version)].package.inputs, start.input) && |s.runs| < 1000
    ensures reply.Submitted? ==>
      && start.requestId in t.runs && t.runs[start.requestId] == Row(1, reply.submitted)
      && reply.submitted.request == start && reply.submitted.submitted == now
      && reply.submitted.started == None && reply.submitted.worker == None && reply.submitted.operation.phase == Op.Admitted
    ensures !reply.Submitted? ==> t == s
  {
    hide Version, IsVersion, Declared, Shape;
    VersionsAreThreeNumbers(start.version);
    if (start.skill, start.version) in s.skills {
      ShapeIsDeclared(s.skills[(start.skill, start.version)].package.inputs, start.input);
    }
  }
}
