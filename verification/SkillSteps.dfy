/** What each call of the skill engine does to the stored tables, and what follows for every history of
    calls, including duplicated, late and restarted ones (crates/rx-application/src/software_skill.rs). */
module SkillSteps {
  import opened Base
  import opened Skills
  import Op = Operations

  datatype Call =
    | Open(openedAt: nat)
    | Register(package: Package)
    | Submit(start: Start, submittedAt: nat)
    | Claim(worker: Id, claimedAt: nat)
    | Report(finish: Finish, reportedAt: nat)
    | Abandon(gone: Id, abandonedAt: nat)

  datatype Reply =
    | Opened
    | Registered(skill: Skill)
    | Submitted(submitted: Run)
    | Idle
    | Claimed(claimed: Run, toRun: Skill)
    | Recorded(recorded: Run)
    | Dropped(count: nat)
    | Refused(fault: Fault)

  // ---------------------------------------------------------------- the step of each call

  predicate Pristine(t: Tables) {
    !t.installed && t.foreign == 0 && t.skills == map[] && t.runs == map[] && t.results == map[]
  }

  function Reason(moment: Moment): string {
    if moment == SERVER_CONTINUITY_LOST then "server restarted; execution outcome unknown; no automatic replay"
    else "worker ownership lost; no automatic replay"
  }

  /** A run whose execution was lost: unresolved and quarantined on new evidence. */
  function Abandoned(r: Run, evidence: Id, moment: Moment, now: nat): Run {
    r.(operation := r.operation.(
         revision := 4, phase := Op.Settled, knowledge := Op.Unknown, outcome := Op.Unresolved,
         disposition := Op.Quarantined, evidence := [evidence]),
       finished := Some(now), error := Some(Reason(moment)))
  }

  function Losing(t: Tables, id: Id, moment: Moment, now: nat): Tables
    requires id in t.runs
  {
    Saved(Logged(t, LossEvidence(t.nextId, id, moment)), Abandoned(t.runs[id].run, t.nextId, moment, now), moment)
  }

  /** The runs that `Open` gives up. */
  function Executing(t: Tables): set<Id> {
    set id | id in t.runs && InFlight(t.runs[id].run)
  }

  /** The runs that `Abandon` gives up. */
  function OwnedBy(t: Tables, worker: Id): set<Id> {
    set id | id in t.runs && t.runs[id].run.worker == Some(worker) && t.runs[id].run.operation.phase != Op.Settled
  }

  ghost predicate GivesUp(s: Tables, lost: set<Id>, moment: Moment, now: nat, t: Tables)
    requires forall id | id in lost :: id in s.runs
  {
    (lost == {} ==> t == s) && (forall id | id in lost :: t == Losing(s, id, moment, now))
  }

  function Admitted(start: Start, digest: PackageDigest, intent: nat, now: nat): Run {
    Run(start, digest, Op.Admit(start.requestId, intent), now, None, None, None, None, None, None)
  }

  /** A new request that is admitted: a registered skill, input of its shape, and room for one more run. */
  predicate Admissible(t: Tables, start: Start) {
    && Symbol(start.skill) && Version(start.version) && (start.skill, start.version) in t.skills
    && Shape(t.skills[(start.skill, start.version)].package.inputs, start.input)
    && |t.runs| < LIMIT
  }

  /** The queued run that was submitted first; the smaller identity first among equals. */
  ghost predicate Earliest(t: Tables, id: Id) {
    && id in t.runs && Queued(t.runs[id].run)
    && forall other | other in t.runs && Queued(t.runs[other].run) ::
         t.runs[id].run.submitted < t.runs[other].run.submitted
         || (t.runs[id].run.submitted == t.runs[other].run.submitted && id <= other)
  }

  predicate Owns(t: Tables, f: Finish) {
    f.run in t.runs && t.runs[f.run].run.worker == Some(f.worker)
  }

  /** A result within the limits: success carries an output of the declared shape, anything else an error. */
  predicate ResultFits(package: Package, f: Finish) {
    && OutcomeNamed(f.outcome).Some?
    && (f.error.Some? ==> ByteLength(f.error.value) <= 4096) && f.duration <= 86_400_000
    && if f.outcome == "SUCCEEDED" then f.output.Some? && Shape(package.outputs, f.output.value) && f.error.None?
       else f.output.None? && f.error.Some? && f.error.value != ""
  }

  function Concluded(r: Run, f: Finish, outcome: Op.Outcome, evidence: Id, now: nat): Run {
    r.(operation := r.operation.(
         revision := 3, phase := Op.Settled, knowledge := Op.FinalKnowledge(outcome), outcome := outcome,
         disposition := if outcome == Op.Unresolved then Op.Quarantined else Op.Held, evidence := [evidence]),
       output := f.output, error := f.error, duration := Some(f.duration), finished := Some(now))
  }

  function Recording(t: Tables, f: Finish, now: nat): Tables
    requires f.run in t.runs && OutcomeNamed(f.outcome).Some?
  {
    Saved(Logged(t.(results := t.results[f.run := f]), ResultEvidence(t.nextId, f)),
          Concluded(t.runs[f.run].run, f, OutcomeNamed(f.outcome).value, t.nextId, now), RESULT_RECORDED)
  }

  function Registering(t: Tables, p: Package): Tables {
    t.(skills := t.skills[(p.name, p.version) := Skill(PackageDigest(p), p)])
  }

  ghost predicate Opens(s: Tables, now: nat, reply: Reply, t: Tables) {
    if !s.installed && !Pristine(s) then reply == Refused(Invalid) && t == s
    else reply == Opened && GivesUp(s.(installed := true), Executing(s), SERVER_CONTINUITY_LOST, now, t)
  }

  ghost predicate Registers(s: Tables, p: Package, reply: Reply, t: Tables) {
    var k := (p.name, p.version);
    var skill := Skill(PackageDigest(p), p);
    if !PackageOk(p) then reply == Refused(Invalid) && t == s
    else if k in s.skills then t == s && reply == if s.skills[k] == skill then Registered(skill) else Refused(KeyConflict)
    else if |s.skills| >= MAX_SKILLS then reply == Refused(Invalid) && t == s
    else reply == Registered(skill) && t == Registering(s, p)
  }

  ghost predicate Submits(s: Tables, start: Start, now: nat, reply: Reply, t: Tables, intent: (Start, PackageDigest) -> nat) {
    if start.requestId in s.runs then
      var prior := s.runs[start.requestId].run;
      t == s && reply == if prior.request == start then Submitted(prior) else Refused(KeyConflict)
    else if !Admissible(s, start) then reply == Refused(Invalid) && t == s
    else
      var digest := s.skills[(start.skill, start.version)].digest;
      var r := Admitted(start, digest, intent(start, digest), now);
      reply == Submitted(r) && t == Saved(s, r, ADMITTED)
  }

  ghost predicate Claims(s: Tables, worker: Id, now: nat, reply: Reply, t: Tables) {
    match reply
    case Idle => t == s && (Executing(s) != {} || forall id | id in s.runs :: !Queued(s.runs[id].run))
    case Claimed(r, skill) =>
      var id := r.request.requestId;
      && Executing(s) == {} && Earliest(s, id) && r == Begun(s.runs[id].run, worker, now)
      && (r.request.skill, r.request.version) in s.skills && skill == s.skills[(r.request.skill, r.request.version)]
      && t == Saved(s, r, EXECUTION_ENTERED)
    case _ => false
  }

  ghost predicate Reports(s: Tables, f: Finish, now: nat, reply: Reply, t: Tables) {
    if !Owns(s, f) then reply == Refused(Invalid) && t == s
    else if f.run in s.results then
      t == s && reply == if s.results[f.run] == f then Recorded(s.runs[f.run].run) else Refused(KeyConflict)
    else if s.runs[f.run].run.operation.phase == Op.Settled || !FitsItsSkill(s, f) then reply == Refused(Invalid) && t == s
    else t == Recording(s, f, now) && reply == Recorded(t.runs[f.run].run)
  }

  predicate FitsItsSkill(t: Tables, f: Finish)
    requires f.run in t.runs
  {
    var request := t.runs[f.run].run.request;
    && (request.skill, request.version) in t.skills
    && ResultFits(t.skills[(request.skill, request.version)].package, f)
  }

  ghost predicate Abandons(s: Tables, worker: Id, now: nat, reply: Reply, t: Tables) {
    reply == Dropped(|OwnedBy(s, worker)|) && GivesUp(s, OwnedBy(s, worker), WORKER_CONTINUITY_LOST, now, t)
  }

  /** The call took the tables from `s` to `t` and returned `reply`. */
  ghost predicate Stepped(s: Tables, call: Call, reply: Reply, t: Tables, intent: (Start, PackageDigest) -> nat) {
    match call
    case Open(now) => Opens(s, now, reply, t)
    case Register(p) => Registers(s, p, reply, t)
    case Submit(start, now) => Submits(s, start, now, reply, t, intent)
    case Claim(worker, now) => Claims(s, worker, now, reply, t)
    case Report(f, now) => Reports(s, f, now, reply, t)
    case Abandon(worker, now) => Abandons(s, worker, now, reply, t)
  }

  // ---------------------------------------------------------------- one step

  lemma Unchanged(t: Tables)
    ensures Later(t, t)
  {
  }

  lemma LosingKeeps(t: Tables, id: Id, moment: Moment, now: nat)
    requires Consistent(t) && id in t.runs && InFlight(t.runs[id].run) && moment != EXECUTION_ENTERED
    ensures Consistent(Losing(t, id, moment, now)) && Later(t, Losing(t, id, moment, now))
    ensures Executing(Losing(t, id, moment, now)) == {}
  {
    hide Later, Consistent, InFlight, Settles, Abandoned;
    var e := LossEvidence(t.nextId, id, moment);
    EvidenceKeeps(t, e);
    var q := Abandoned(t.runs[id].run, t.nextId, moment, now);
    AbandonedSettles(t, id, t.nextId, moment, now);
    SettleKeeps(Logged(t, e), q, moment);
    LaterTransitive(t, Logged(t, e), Losing(t, id, moment, now));
    NothingExecutes(t, id, Losing(t, id, moment, now));
  }

  lemma AbandonedSettles(t: Tables, id: Id, evidence: Id, moment: Moment, now: nat)
    requires Consistent(t) && id in t.runs && InFlight(t.runs[id].run)
    ensures var q := Abandoned(t.runs[id].run, evidence, moment, now);
      q.request.requestId == id && Settles(t.runs[id].run, q) && !InFlight(q)
  {
    hide StartsLogged, ReceiptsTrue, SkillsPresent, OneInFlight, Op.Decodes;
    assert Staged(id, t.runs[id]);
    AbandonedDecodes(t.runs[id].run, evidence, moment, now);
  }

  lemma AbandonedDecodes(r: Run, evidence: Id, moment: Moment, now: nat)
    requires r.operation.integrity == Op.Valid
    ensures var q := Abandoned(r, evidence, moment, now).operation; Op.Decodes(q) && q.integrity == Op.Valid && q.id == r.operation.id
  {
  }

  /** Only one run was in flight. */
  lemma NothingExecutes(t: Tables, id: Id, u: Tables)
    requires Consistent(t) && id in t.runs && InFlight(t.runs[id].run)
    requires id in u.runs && !InFlight(u.runs[id].run) && u.runs == t.runs[id := u.runs[id]]
    ensures Executing(u) == {}
  {
    hide StartsLogged, ReceiptsTrue, SkillsPresent, RunsStaged, InFlight;
  }

  lemma OwnedRunsExecute(t: Tables, worker: Id)
    requires Consistent(t)
    ensures OwnedBy(t, worker) <= Executing(t)
  {
    hide StartsLogged, ReceiptsTrue, SkillsPresent;
    forall id | id in OwnedBy(t, worker)
      ensures id in Executing(t)
    {
      assert Staged(id, t.runs[id]);
    }
  }

  lemma ConcludedSettles(t: Tables, f: Finish, evidence: Id, now: nat)
    requires Consistent(t) && Owns(t, f) && InFlight(t.runs[f.run].run) && OutcomeNamed(f.outcome).Some?
    ensures var q := Concluded(t.runs[f.run].run, f, OutcomeNamed(f.outcome).value, evidence, now);
      q.request.requestId == f.run && Settles(t.runs[f.run].run, q) && SettledBy(q, f) && f.run !in t.results
  {
    hide StartsLogged, SkillsPresent;
    assert Staged(f.run, t.runs[f.run]);
    Receiptless(t, f.run);
  }

  lemma RecordingKeeps(t: Tables, f: Finish, now: nat)
    requires Consistent(t) && Owns(t, f) && InFlight(t.runs[f.run].run) && OutcomeNamed(f.outcome).Some?
    ensures Consistent(Recording(t, f, now)) && Later(t, Recording(t, f, now))
  {
    hide Later, Consistent, InFlight, SettledBy, Settles;
    var e := ResultEvidence(t.nextId, f);
    var q := Concluded(t.runs[f.run].run, f, OutcomeNamed(f.outcome).value, t.nextId, now);
    ConcludedSettles(t, f, t.nextId, now);
    EvidenceKeeps(t, e);
    SettleKeeps(Logged(t, e), q, RESULT_RECORDED);
    var u := Saved(Logged(t, e), q, RESULT_RECORDED);
    LaterTransitive(t, Logged(t, e), u);
    ReceiptKeeps(u, f);
    ReceiptLater(u, f);
    assert Recording(t, f, now) == u.(results := u.results[f.run := f]);
    LaterTransitive(t, u, Recording(t, f, now));
  }

  lemma ReceiptKeeps(u: Tables, f: Finish)
    requires Consistent(u) && f.run in u.runs && f.run !in u.results && SettledBy(u.runs[f.run].run, f)
    ensures Consistent(u.(results := u.results[f.run := f]))
  {
    hide Staged, InFlight, Queued, SettledBy, Symbol, Version;
    var v := u.(results := u.results[f.run := f]);
    forall i | i in v.runs
      ensures SkillOf(v, v.runs[i].run)
    {
      assert SkillOf(u, u.runs[i].run);
    }
  }

  lemma ReceiptLater(u: Tables, f: Finish)
    requires f.run !in u.results
    ensures Later(u, u.(results := u.results[f.run := f]))
  {
  }

  lemma GivesUpKeeps(s: Tables, lost: set<Id>, moment: Moment, now: nat, t: Tables)
    requires Consistent(s) && lost <= Executing(s) && GivesUp(s, lost, moment, now, t) && moment != EXECUTION_ENTERED
    ensures Consistent(t) && Later(s, t)
    ensures lost == Executing(s) ==> Executing(t) == {}
  {
    hide Consistent, Later;
    if lost == {} {
      Unchanged(s);
    } else {
      var id :| id in lost;
      LosingKeeps(s, id, moment, now);
    }
  }

  lemma InstallKeeps(t: Tables)
    requires Consistent(t)
    ensures Consistent(t.(installed := true)) && Later(t, t.(installed := true))
    ensures Executing(t.(installed := true)) == Executing(t)
  {
    hide Consistent;
    DigestsHold(t);
    SameHistoryKeeps(t, t.(installed := true));
  }

  lemma RegisterKeeps(t: Tables, p: Package)
    requires Consistent(t) && (p.name, p.version) !in t.skills
    ensures Consistent(Registering(t, p))
  {
    hide Consistent;
    DigestsHold(t);
    SameHistoryKeeps(t, Registering(t, p));
  }

  lemma RegisterLater(t: Tables, p: Package)
    requires (p.name, p.version) !in t.skills
    ensures Later(t, Registering(t, p))
  {
  }

  /** Every step of every call keeps the tables consistent and takes nothing back. */
  lemma StepKeeps(s: Tables, call: Call, reply: Reply, t: Tables, intent: (Start, PackageDigest) -> nat)
    requires Consistent(s) && Stepped(s, call, reply, t, intent)
    ensures Consistent(t) && Later(s, t)
  {
    hide Consistent, Later, GivesUp, PackageOk, Shape;
    Unchanged(s);
    match call
    case Open(now) =>
      InstallKeeps(s);
      if s.installed || Pristine(s) {
        GivesUpKeeps(s.(installed := true), Executing(s), SERVER_CONTINUITY_LOST, now, t);
        LaterTransitive(s, s.(installed := true), t);
      }
    case Register(p) =>
      if t != s {
        RegisterKeeps(s, p);
        RegisterLater(s, p);
      }
    case Submit(start, now) =>
      if t != s { AdmitKeeps(s, reply.submitted); }
    case Claim(worker, now) =>
      if reply.Claimed? {
        forall other | other in s.runs
          ensures !InFlight(s.runs[other].run)
        {
          assert other !in Executing(s);
        }
        BeginKeeps(s, reply.claimed.request.requestId, worker, now);
      }
    case Report(f, now) =>
      if t != s {
        OwnedRunsExecute(s, f.worker);
        assert f.run in OwnedBy(s, f.worker);
        RecordingKeeps(s, f, now);
      }
    case Abandon(worker, now) =>
      OwnedRunsExecute(s, worker);
      GivesUpKeeps(s, OwnedBy(s, worker), WORKER_CONTINUITY_LOST, now, t);
  }
}
