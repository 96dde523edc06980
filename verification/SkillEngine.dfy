/** The skill engine: one transaction per call over the installation's tables. A call works on a copy and
    stores it only when it succeeds (crates/rx-application/src/software_skill.rs). */
module SkillEngine {
  import opened Base
  import opened Skills
  import opened SkillSteps
  import opened SkillHistory
  import opened SkillResults
  import Op = Operations

  lemma LossOutcome(id: Id, intent: nat, e: Id)
    ensures var o := Sent(Op.Admit(id, intent));
      var lost := Op.Next(o, Op.LoseContinuity);
      && lost.Ok?
      && Op.Next(lost.value, Op.Conclude(Op.Unresolved, [e])) ==
           Ok(o.(revision := 4, phase := Op.Settled, knowledge := Op.Unknown, outcome := Op.Unresolved,
                 disposition := Op.Quarantined, evidence := [e]))
  {
    OneEntry(e);
  }

  lemma ResultOutcome(id: Id, intent: nat, outcome: Op.Outcome, e: Id)
    requires outcome != Op.NoOutcome
    ensures var o := Sent(Op.Admit(id, intent));
      Op.Next(o, Op.Conclude(outcome, [e])) ==
        Ok(o.(revision := 3, phase := Op.Settled, knowledge := Op.FinalKnowledge(outcome), outcome := outcome,
              disposition := if outcome == Op.Unresolved then Op.Quarantined else Op.Held, evidence := [e]))
  {
    OneEntry(e);
  }

  lemma OneEntry(e: Id)
    ensures Op.AddAll([], [e]) == [e]
  {
    assert Sort([]) == [];
    assert Sort([e]) == InsertSorted(Sort([e][..0]), e);
    assert [] + [e] == [e];
    assert Op.AddAll([e], [e][1..]) == [e];
  }

  /** The run rows in key order. */
  method ScanRuns(t: Tables) returns (ids: seq<Id>)
    ensures Ascending(ids) && Distinct(ids)
    ensures forall id :: id in ids <==> id in t.runs
  {
    var found: seq<Id> := [];
    var left := t.runs.Keys;
    while left != {}
      invariant left <= t.runs.Keys && Distinct(found)
      invariant forall id :: id in found <==> id in t.runs && id !in left
      decreases left
    {
      var id :| id in left;
      left := left - {id};
      found := found + [id];
    }
    ids := Sort(found);
    SortSpec(found);
    Op.SortKeepsDistinct(found);
    assert forall id :: id in ids <==> id in multiset(ids);
    assert forall id :: id in found <==> id in multiset(found);
  }

  /** Write a run against the revision it was read at, and log its stage. */
  method SaveRun(t: Tables, run: Run, expected: Option<nat>, moment: Moment) returns (r: Result<Tables, Fault>)
    ensures var id := run.request.requestId;
      r == if expected == (if id in t.runs then Some(t.runs[id].revision) else None)
           then Ok(Saved(t, run, moment)) else Err(RevisionConflict)
  {
    var id := run.request.requestId;
    var current := if id in t.runs then Some(t.runs[id].revision) else None;
    if current != expected { return Err(RevisionConflict); }
    var revision := if expected.None? then 1 else expected.value + 1;
    var u := t.(runs := t.runs[id := Row(revision, run)]);
    u := u.(events := u.events + [Transition(id, moment, run.operation)]);
    r := Ok(u);
  }

  /** Settle an interrupted run as unresolved, on new evidence of the loss. */
  method GiveUp(t: Tables, row: Row, moment: Moment, now: nat) returns (r: Result<Tables, Fault>)
    requires var id := row.run.request.requestId;
      id in t.runs && t.runs[id] == row && Staged(id, row) && InFlight(row.run)
    ensures r == Ok(Losing(t, row.run.request.requestId, moment, now))
  {
    var run := row.run;
    LossOutcome(run.operation.id, run.operation.intent, t.nextId);
    var operation := new Op.Operation.Decode(run.operation);
    var lost := operation.LoseContinuity();
    if lost.Err? { return Err(Invalid); }
    run := run.(error := Some(Reason(moment)), finished := Some(now));
    var evidence := t.nextId;
    var u := Logged(t, LossEvidence(evidence, run.request.requestId, moment));
    var concluded := operation.Conclude(Op.Unresolved, [evidence]);
    if concluded.Err? { return Err(Invalid); }
    run := run.(operation := operation.Stored());
    r := SaveRun(u, run, Some(row.revision), moment);
  }

  /** The members of `doomed` among the first `n` scanned runs. */
  ghost function Met(doomed: set<Id>, ids: seq<Id>, n: nat): (met: set<Id>)
    requires n <= |ids|
    ensures met <= doomed
  {
    set id | id in doomed && id in ids[..n]
  }

  /** Only one run can be lost at a time: when the scan meets it, nothing was given up before. */
  lemma MeetsTheOne(t: Tables, doomed: set<Id>, ids: seq<Id>, n: nat)
    requires Consistent(t) && doomed <= Executing(t) && Distinct(ids) && n < |ids| && ids[n] in doomed
    ensures Met(doomed, ids, n) == {} && Met(doomed, ids, n + 1) == {ids[n]}
    ensures var id := ids[n];
      id in t.runs && InFlight(t.runs[id].run) && Staged(id, t.runs[id]) && t.runs[id].run.request.requestId == id
  {
    hide StartsLogged, ReceiptsTrue, SkillsPresent, Staged;
    assert ids[..n + 1] == ids[..n] + [ids[n]];
    assert Staged(ids[n], t.runs[ids[n]]);
    StagedNames(ids[n], t.runs[ids[n]]);
    assert forall id | id in doomed :: id == ids[n];
  }

  lemma StagedNames(id: Id, row: Row)
    requires Staged(id, row)
    ensures row.run.request.requestId == id
  {
  }

  lemma MeetsAnother(doomed: set<Id>, ids: seq<Id>, n: nat)
    requires n < |ids| && ids[n] !in doomed
    ensures Met(doomed, ids, n + 1) == Met(doomed, ids, n)
  {
    assert ids[..n + 1] == ids[..n] + [ids[n]];
  }

  lemma MeetsAll(doomed: set<Id>, ids: seq<Id>)
    requires forall id | id in doomed :: id in ids
    ensures Met(doomed, ids, |ids|) == doomed && Met(doomed, ids, 0) == {}
  {
    assert ids[..|ids|] == ids;
  }

  class Engine {
    var tables: Tables
    /** The canonical digest of a request and the package it is for. */
    const intent: (Start, PackageDigest) -> nat

    constructor (tables: Tables, intent: (Start, PackageDigest) -> nat)
      ensures this.tables == tables && this.intent == intent
    {
      this.tables, this.intent := tables, intent;
    }

    /** Take the installation over after a start or restart of the server. */
    method Open(now: nat) returns (reply: Reply)
      requires Consistent(tables)
      modifies this`tables
      ensures Stepped(old(tables), Call.Open(now), reply, tables, intent)
      ensures Consistent(tables) && Later(old(tables), tables)
    {
      hide Consistent, Later, Losing, InFlight, GivesUp, Met, Staged;
      ghost var before := tables;
      var pristine := Pristine(tables);
      var t := tables;
      if !t.installed {
        if !pristine {
          StepKeeps(before, Call.Open(now), Refused(Invalid), tables, intent);
          return Refused(Invalid);
        }
        t := t.(installed := true);
      }
      InstallKeeps(before);
      assert t == before.(installed := true);
      var scanned := t;
      var ids := ScanRuns(t);
      ghost var doomed := Executing(before);
      NothingGivenUp(scanned, SERVER_CONTINUITY_LOST, now);
      MeetsAll(doomed, ids);
      for n := 0 to |ids|
        invariant GivesUp(scanned, Met(doomed, ids, n), SERVER_CONTINUITY_LOST, now, t)
      {
        var row := scanned.runs[ids[n]];
        assert ids[n] in doomed <==> InFlight(row.run);
        if InFlight(row.run) {
          MeetsTheOne(scanned, doomed, ids, n);
          BeforeTheOne(scanned, SERVER_CONTINUITY_LOST, now, t, Met(doomed, ids, n));
          var saved := GiveUp(t, row, SERVER_CONTINUITY_LOST, now);
          t := saved.value;
          TheOne(scanned, ids[n], SERVER_CONTINUITY_LOST, now);
        } else {
          MeetsAnother(doomed, ids, n);
        }
      }
      tables := t;
      reply := Opened;
      StepKeeps(before, Call.Open(now), reply, tables, intent);
    }

    method Register(package: Package) returns (reply: Reply)
      requires Consistent(tables)
      modifies this`tables
      ensures Stepped(old(tables), Call.Register(package), reply, tables, intent)
      ensures Consistent(tables) && Later(old(tables), tables)
    {
      hide Consistent, Later, Symbol, Version;
      ghost var before := tables;
      reply := RegisterIn(package);
      StepKeeps(before, Call.Register(package), reply, tables, intent);
    }

    method RegisterIn(package: Package) returns (reply: Reply)
      requires Consistent(tables)
      modifies this`tables
      ensures Registers(old(tables), package, reply, tables)
    {
      hide Symbol, Version, RunsStaged, OneInFlight, ReceiptsTrue, StartsLogged, SkillOf;
      if !Symbol(package.name) || !Version(package.version) { return Refused(Invalid); }
      if package.environment != "LOCAL_SIM" || !(100 <= package.timeoutMs <= 60_000)
         || package.code == "" || ByteLength(package.code) > 262_144 {
        return Refused(Invalid);
      }
      if !SchemaOk(package.inputs) || !SchemaOk(package.outputs) { return Refused(Invalid); }
      var skill := Skill(PackageDigest(package), package);
      var key := (package.name, package.version);
      if key in tables.skills {
        var prior := tables.skills[key];
        if prior.digest != skill.digest { return Refused(KeyConflict); }
        return Registered(prior);
      }
      if |tables.skills| >= MAX_SKILLS { return Refused(Invalid); }
      tables := tables.(skills := tables.skills[key := skill]);
      reply := Registered(skill);
    }

    /** Queue a request; repeating it returns the run it already has. */
    method Submit(start: Start, now: nat) returns (reply: Reply)
      requires Consistent(tables)
      modifies this`tables
      ensures Stepped(old(tables), Call.Submit(start, now), reply, tables, intent)
      ensures Consistent(tables) && Later(old(tables), tables)
    {
      hide Consistent, Later, Symbol, Version, Shape;
      ghost var before := tables;
      if start.requestId in tables.runs {
        var prior := tables.runs[start.requestId].run;
        reply := if prior.request != start then Refused(KeyConflict) else Submitted(prior);
      } else if !Symbol(start.skill) || !Version(start.version) {
        reply := Refused(Invalid);
      } else if (start.skill, start.version) !in tables.skills {
        reply := Refused(Invalid);
      } else {
        var skill := tables.skills[(start.skill, start.version)];
        if !Shape(skill.package.inputs, start.input) {
          reply := Refused(Invalid);
        } else if |tables.runs| >= LIMIT {
          reply := Refused(Invalid);
        } else {
          var operation := new Op.Operation.Admitted(start.requestId, intent(start, skill.digest));
          var run := Run(start, skill.digest, operation.Stored(), now, None, None, None, None, None, None);
          var saved := SaveRun(tables, run, None, ADMITTED);
          tables := saved.value;
          reply := Submitted(run);
        }
      }
      StepKeeps(before, Call.Submit(start, now), reply, tables, intent);
    }

    /** Hand the run that was submitted first to a worker, if nothing is executing. */
    method Claim(worker: Id, now: nat) returns (reply: Reply)
      requires Consistent(tables)
      modifies this`tables
      ensures Stepped(old(tables), Call.Claim(worker, now), reply, tables, intent)
      ensures Consistent(tables) && Later(old(tables), tables)
    {
      hide Consistent, Later, Claims;
      ghost var before := tables;
      reply := ClaimIn(worker, now);
      StepKeeps(before, Call.Claim(worker, now), reply, tables, intent);
    }

    method ClaimIn(worker: Id, now: nat) returns (reply: Reply)
      requires Consistent(tables)
      modifies this`tables
      ensures Claims(old(tables), worker, now, reply, tables)
    {
      hide Consistent, InFlight, Ascending, Earliest;
      var ids := ScanRuns(tables);
      var queued: seq<Id> := [];
      NothingAscends();
      for n := 0 to |ids|
        invariant tables == old(tables)
        invariant forall m | 0 <= m < n :: !InFlight(tables.runs[ids[m]].run)
        invariant forall id :: id in queued <==> id in ids[..n] && Queued(tables.runs[id].run)
        invariant Ascending(queued)
      {
        assert ids[..n + 1] == ids[..n] + [ids[n]];
        var run := tables.runs[ids[n]].run;
        if InFlight(run) {
          assert ids[n] in Executing(tables);
          return Idle;
        }
        if Queued(run) {
          StaysAscending(ids, n, queued);
          queued := queued + [ids[n]];
        }
      }
      assert ids[..|ids|] == ids;
      if queued == [] {
        return Idle;
      }
      assert Executing(tables) == {};
      var id := FirstSubmitted(tables, queued);
      reply := HandOut(id, worker, now);
    }

    /** Hand the run whose turn it is to the worker. */
    method HandOut(id: Id, worker: Id, now: nat) returns (reply: Reply)
      requires Consistent(tables) && Earliest(tables, id) && Executing(tables) == {}
      modifies this`tables
      ensures Claims(old(tables), worker, now, reply, tables)
    {
      hide Consistent, Symbol, Version, Staged, InFlight, Earliest, Executing;
      EarliestIsQueued(tables, id);
      ClaimNeverFails(tables, id);
      var row := tables.runs[id];
      var run := row.run;
      if !Symbol(run.request.skill) || !Version(run.request.version) { return Refused(Invalid); }
      var key := (run.request.skill, run.request.version);
      if key !in tables.skills { return Refused(Invalid); }
      var skill := tables.skills[key];
      if skill.digest != run.packageDigest { return Refused(Integrity); }
      var operation := new Op.Operation.Decode(run.operation);
      var sent := operation.Sent();
      if sent.Err? { return Refused(Invalid); }
      run := run.(operation := operation.Stored(), worker := Some(worker), started := Some(now));
      var saved := SaveRun(tables, run, Some(row.revision), EXECUTION_ENTERED);
      tables := saved.value;
      reply := Claimed(run, skill);
    }

    /** Record a worker's result, once. */
    method Finish(finish: Skills.Finish, now: nat) returns (reply: Reply)
      requires Consistent(tables)
      modifies this`tables
      ensures Stepped(old(tables), Call.Report(finish, now), reply, tables, intent)
      ensures Consistent(tables) && Later(old(tables), tables)
      ensures FirstResultDecided(old(tables), finish, reply)
    {
      hide Consistent, Later, Reports, FirstResultDecided;
      ghost var before := tables;
      reply := FinishIn(finish, now);
      StepKeeps(before, Call.Report(finish, now), reply, tables, intent);
      FirstResultIsDecided(before, finish, now, reply, tables, intent);
    }

    method FinishIn(finish: Skills.Finish, now: nat) returns (reply: Reply)
      requires Consistent(tables)
      modifies this`tables
      ensures Reports(old(tables), finish, now, reply, tables)
    {
      hide Consistent, Symbol, Version, Shape;
      if finish.run !in tables.runs { return Refused(Invalid); }
      var row := tables.runs[finish.run];
      var run := row.run;
      if run.worker != Some(finish.worker) { return Refused(Invalid); }
      if finish.run in tables.results {
        if tables.results[finish.run] != finish { return Refused(KeyConflict); }
        return Recorded(run);
      }
      if run.operation.phase == Op.Settled { return Refused(Invalid); }
      var named := OutcomeNamed(finish.outcome);
      if named.None? { return Refused(Invalid); }
      var outcome := named.value;
      if (finish.error.Some? && ByteLength(finish.error.value) > 4096) || finish.duration > 86_400_000 {
        return Refused(Invalid);
      }
      RunsHaveSkills(tables, finish.run);
      if outcome == Op.Succeeded {
        var key := (run.request.skill, run.request.version);
        if key !in tables.skills { return Refused(Invalid); }
        if finish.output.None? || !Shape(tables.skills[key].package.outputs, finish.output.value) {
          return Refused(Invalid);
        }
        if finish.error.Some? { return Refused(Invalid); }
      } else if finish.output.Some? || finish.error.None? || finish.error.value == "" {
        return Refused(Invalid);
      }
      var evidence := tables.nextId;
      var t := Logged(tables.(results := tables.results[finish.run := finish]), ResultEvidence(evidence, finish));
      OwnedIsSent(tables, finish);
      ResultOutcome(run.operation.id, run.operation.intent, outcome, evidence);
      var operation := new Op.Operation.Decode(run.operation);
      var concluded := operation.Conclude(outcome, [evidence]);
      if concluded.Err? { return Refused(Invalid); }
      run := run.(operation := operation.Stored(), output := finish.output, error := finish.error,
                  duration := Some(finish.duration), finished := Some(now));
      var saved := SaveRun(t, run, Some(row.revision), RESULT_RECORDED);
      tables := saved.value;
      reply := Recorded(run);
    }

    /** Give up whatever a vanished worker was executing. */
    method AbandonWorker(worker: Id, now: nat) returns (reply: Reply)
      requires Consistent(tables)
      modifies this`tables
      ensures Stepped(old(tables), Call.Abandon(worker, now), reply, tables, intent)
      ensures Consistent(tables) && Later(old(tables), tables)
    {
      hide Consistent, Later, Abandons;
      ghost var before := tables;
      reply := AbandonIn(worker, now);
      StepKeeps(before, Call.Abandon(worker, now), reply, tables, intent);
    }

    method AbandonIn(worker: Id, now: nat) returns (reply: Reply)
      requires Consistent(tables)
      modifies this`tables
      ensures Abandons(old(tables), worker, now, reply, tables)
    {
      hide Consistent, Losing, InFlight, GivesUp, Staged, Distinct, Ascending, Met, Executing;
      ghost var before := tables;
      var t := tables;
      var scanned := t;
      var count := 0;
      var ids := ScanRuns(t);
      ghost var doomed := OwnedBy(before, worker);
      OwnedRunsExecute(before, worker);
      NothingGivenUp(scanned, WORKER_CONTINUITY_LOST, now);
      MeetsAll(doomed, ids);
      for n := 0 to |ids|
        invariant count == |Met(doomed, ids, n)|
        invariant GivesUp(scanned, Met(doomed, ids, n), WORKER_CONTINUITY_LOST, now, t)
      {
        var row := scanned.runs[ids[n]];
        if row.run.worker == Some(worker) && row.run.operation.phase != Op.Settled {
          MeetsTheOne(scanned, doomed, ids, n);
          BeforeTheOne(scanned, WORKER_CONTINUITY_LOST, now, t, Met(doomed, ids, n));
          var saved := GiveUp(t, row, WORKER_CONTINUITY_LOST, now);
          t := saved.value;
          count := count + 1;
          TheOne(scanned, ids[n], WORKER_CONTINUITY_LOST, now);
        } else {
          MeetsAnother(doomed, ids, n);
        }
      }
      tables := t;
      reply := Dropped(count);
    }
  }

  lemma NothingAscends()
    ensures Ascending([])
  {
  }

  lemma StaysAscending(ids: seq<Id>, n: nat, queued: seq<Id>)
    requires Ascending(ids) && Ascending(queued) && n < |ids| && forall id | id in queued :: id in ids[..n]
    ensures Ascending(queued + [ids[n]])
  {
    var r := queued + [ids[n]];
    forall i, j | 0 <= i < j < |r|
      ensures r[i] <= r[j]
    {
      if j == |queued| { assert queued[i] in ids[..n]; }
    }
  }

  /** The entry that a stable sort by submission time puts first. */
  method FirstSubmitted(t: Tables, queued: seq<Id>) returns (first: Id)
    requires queued != [] && Ascending(queued)
    requires forall id :: id in queued <==> id in t.runs && Queued(t.runs[id].run)
    ensures Earliest(t, first)
  {
    first := queued[0];
    for n := 1 to |queued|
      invariant first in queued[..n]
      invariant forall id | id in queued[..n] :: Before(t, first, id)
    {
      assert queued[..n + 1] == queued[..n] + [queued[n]];
      if t.runs[queued[n]].run.submitted < t.runs[first].run.submitted { first := queued[n]; }
    }
    assert queued[..|queued|] == queued;
  }

  predicate Before(t: Tables, a: Id, b: Id)
    requires a in t.runs && b in t.runs
  {
    t.runs[a].run.submitted < t.runs[b].run.submitted || (t.runs[a].run.submitted == t.runs[b].run.submitted && a <= b)
  }

  /** Neither a missing skill nor a differing digest can stop a queued run. */
  lemma ClaimNeverFails(t: Tables, id: Id)
    requires Consistent(t) && id in t.runs && Queued(t.runs[id].run)
    ensures SkillOf(t, t.runs[id].run)
    ensures t.runs[id].run.request.requestId == id && t.runs[id].run.operation == Op.Admit(id, t.runs[id].run.operation.intent)
  {
    hide SkillOf, OneInFlight, ReceiptsTrue, StartsLogged;
    assert SkillOf(t, t.runs[id].run) && Staged(id, t.runs[id]);
  }

  lemma RunsHaveSkills(t: Tables, id: Id)
    requires Consistent(t) && id in t.runs
    ensures (t.runs[id].run.request.skill, t.runs[id].run.request.version) in t.skills
  {
    assert SkillOf(t, t.runs[id].run);
  }

  lemma OwnedIsSent(t: Tables, f: Finish)
    requires Consistent(t) && Owns(t, f) && t.runs[f.run].run.operation.phase != Op.Settled
    ensures var r := t.runs[f.run].run;
      r.request.requestId == f.run && r.operation == Sent(Op.Admit(f.run, r.operation.intent))
    ensures Op.Decodes(t.runs[f.run].run.operation)
  {
    hide SkillsPresent, OneInFlight, ReceiptsTrue, StartsLogged;
    assert Staged(f.run, t.runs[f.run]);
  }

  lemma NothingGivenUp(t: Tables, moment: Moment, now: nat)
    ensures GivesUp(t, {}, moment, now, t)
  {
  }

  lemma BeforeTheOne(s: Tables, moment: Moment, now: nat, t: Tables, lost: set<Id>)
    requires lost == {} && GivesUp(s, lost, moment, now, t)
    ensures t == s
  {
  }

  lemma TheOne(s: Tables, id: Id, moment: Moment, now: nat)
    requires id in s.runs
    ensures GivesUp(s, {id}, moment, now, Losing(s, id, moment, now))
  {
  }
}
