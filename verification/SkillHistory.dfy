/** Histories of the skill engine: any sequence of calls, in any order, with repeats and restarts
    (crates/rx-application/src/software_skill.rs). */
module SkillHistory {
  import opened Base
  import opened Skills
  import opened SkillSteps
  import Op = Operations

  datatype Exchange = Exchange(call: Call, reply: Reply)

  /** `states` are the tables before, between and after the exchanges; at first there is nothing. */
  ghost predicate History(states: seq<Tables>, exchanges: seq<Exchange>, intent: (Start, PackageDigest) -> nat) {
    && |states| == |exchanges| + 1
    && states[0].skills == map[] && states[0].runs == map[] && states[0].results == map[] && states[0].events == []
    && forall i | 0 <= i < |exchanges| :: Stepped(states[i], exchanges[i].call, exchanges[i].reply, states[i + 1], intent)
  }

  /** Every state of every history is consistent, and no state takes back what an earlier one held. */
  lemma {:induction false} HistoryKeeps(
      states: seq<Tables>, exchanges: seq<Exchange>, intent: (Start, PackageDigest) -> nat, i: nat, j: nat)
    requires History(states, exchanges, intent) && i <= j < |states|
    ensures Consistent(states[i]) && Consistent(states[j]) && Later(states[i], states[j])
    decreases j
  {
    hide Consistent, Later, Stepped;
    if j == 0 {
      NothingYet(states[0]);
    } else {
      HistoryKeeps(states, exchanges, intent, if i < j then i else j - 1, j - 1);
      StepKeeps(states[j - 1], exchanges[j - 1].call, exchanges[j - 1].reply, states[j], intent);
      if i < j {
        LaterTransitive(states[i], states[j - 1], states[j]);
      } else {
        Unchanged(states[j]);
      }
    }
  }

  lemma NothingYet(t: Tables)
    requires t.skills == map[] && t.runs == map[] && t.results == map[] && t.events == []
    ensures Consistent(t) && Later(t, t)
  {
  }

  // ---------------------------------------------------------------- at most once

  /** The runs handed to workers, with multiplicity. */
  function HandedOut(exchanges: seq<Exchange>): multiset<Id>
    decreases |exchanges|
  {
    if exchanges == [] then multiset{} else
    var last := exchanges[|exchanges| - 1].reply;
    HandedOut(exchanges[..|exchanges| - 1])
      + if last.Claimed? then multiset{last.claimed.request.requestId} else multiset{}
  }

  lemma {:induction false} LogShowsHandedOut(
      states: seq<Tables>, exchanges: seq<Exchange>, intent: (Start, PackageDigest) -> nat)
    requires History(states, exchanges, intent)
    ensures Starts(states[|exchanges|].events) == HandedOut(exchanges)
    decreases |exchanges|
  {
    hide Stepped;
    if exchanges != [] {
      var n := |exchanges| - 1;
      LogShowsHandedOut(states[..n + 1], exchanges[..n], intent);
      StepLogsStart(states[n], exchanges[n].call, exchanges[n].reply, states[n + 1], intent);
    }
  }

  lemma StepLogsStart(s: Tables, call: Call, reply: Reply, t: Tables, intent: (Start, PackageDigest) -> nat)
    requires Stepped(s, call, reply, t, intent)
    ensures Starts(t.events) == Starts(s.events) + if reply.Claimed? then multiset{reply.claimed.request.requestId} else multiset{}
  {
    hide PackageOk, Shape, Admissible, Earliest, Starts, GivesUp, InFlight, Recording;
    match call
    case Open(now) =>
      if s.installed || Pristine(s) {
        GivingUpStartsNothing(s.(installed := true), Executing(s), SERVER_CONTINUITY_LOST, now, t);
      }
    case Register(_) =>
    case Submit(_, _) =>
      if t != s { StartsAppend(s.events, Transition(reply.submitted.request.requestId, ADMITTED, reply.submitted.operation)); }
    case Claim(_, _) =>
      if reply.Claimed? {
        StartsAppend(s.events, Transition(reply.claimed.request.requestId, EXECUTION_ENTERED, reply.claimed.operation));
      }
    case Report(f, now) =>
      if t != s { RecordingStartsNothing(s, f, now); }
    case Abandon(worker, now) =>
      GivingUpStartsNothing(s, OwnedBy(s, worker), WORKER_CONTINUITY_LOST, now, t);
  }

  lemma RecordingStartsNothing(s: Tables, f: Finish, now: nat)
    requires f.run in s.runs && OutcomeNamed(f.outcome).Some?
    ensures Starts(Recording(s, f, now).events) == Starts(s.events)
  {
    var e := ResultEvidence(s.nextId, f);
    StartsAppend(s.events, e);
    var q := Concluded(s.runs[f.run].run, f, OutcomeNamed(f.outcome).value, s.nextId, now);
    StartsAppend(s.events + [e], Transition(q.request.requestId, RESULT_RECORDED, q.operation));
  }

  lemma GivingUpStartsNothing(s: Tables, lost: set<Id>, moment: Moment, now: nat, t: Tables)
    requires forall id | id in lost :: id in s.runs
    requires GivesUp(s, lost, moment, now, t) && moment != EXECUTION_ENTERED
    ensures Starts(t.events) == Starts(s.events)
  {
    if lost != {} {
      var id :| id in lost;
      var e := LossEvidence(s.nextId, id, moment);
      StartsAppend(s.events, e);
      var q := Abandoned(s.runs[id].run, s.nextId, moment, now);
      StartsAppend(s.events + [e], Transition(q.request.requestId, moment, q.operation));
    }
  }

  /** Over every history no run is handed to a worker twice, whatever is repeated, lost or restarted. */
  lemma NeverHandedOutTwice(
      states: seq<Tables>, exchanges: seq<Exchange>, intent: (Start, PackageDigest) -> nat, id: Id)
    requires History(states, exchanges, intent)
    ensures HandedOut(exchanges)[id] <= 1
  {
    LogShowsHandedOut(states, exchanges, intent);
    HistoryKeeps(states, exchanges, intent, 0, |exchanges|);
    StartedAtMostOnce(states[|exchanges|], id);
  }

  /** When a run is handed out, every run handed out before it has settled. */
  lemma OneAtATime(
      states: seq<Tables>, exchanges: seq<Exchange>, intent: (Start, PackageDigest) -> nat, i: nat, j: nat)
    requires History(states, exchanges, intent) && i < j < |exchanges|
    requires exchanges[i].reply.Claimed? && exchanges[j].reply.Claimed?
    ensures var first := exchanges[i].reply.claimed.request.requestId;
      && first in states[j].runs && states[j].runs[first].run.operation.phase == Op.Settled
      && first != exchanges[j].reply.claimed.request.requestId
  {
    hide Consistent, Earliest, Stepped;
    HistoryKeeps(states, exchanges, intent, i + 1, j);
    OnlyClaimHandsOut(states[i], exchanges[i].call, exchanges[i].reply, states[i + 1], intent);
    OnlyClaimHandsOut(states[j], exchanges[j].call, exchanges[j].reply, states[j + 1], intent);
    EarliestIsQueued(states[j], exchanges[j].reply.claimed.request.requestId);
    var first := exchanges[i].reply.claimed.request.requestId;
    assert first !in Executing(states[j]);
  }

  /** A run is handed out at its turn: it has not started, none that waits was submitted before it, and among those
      submitted at the same time it has the smallest identity. */
  lemma HandedOutInOrder(states: seq<Tables>, exchanges: seq<Exchange>, intent: (Start, PackageDigest) -> nat, j: nat, id: Id)
    requires History(states, exchanges, intent) && j < |exchanges| && exchanges[j].reply.Claimed?
    requires id in states[j].runs && states[j].runs[id].run.started.None?
    ensures var r, waiting := exchanges[j].reply.claimed, states[j].runs[id].run;
      && r.request.requestId in states[j].runs && states[j].runs[r.request.requestId].run.started.None?
      && (r.submitted < waiting.submitted || (r.submitted == waiting.submitted && r.request.requestId <= id))
  {
    OnlyClaimHandsOut(states[j], exchanges[j].call, exchanges[j].reply, states[j + 1], intent);
  }

  lemma OnlyClaimHandsOut(s: Tables, call: Call, reply: Reply, t: Tables, intent: (Start, PackageDigest) -> nat)
    requires Stepped(s, call, reply, t, intent) && reply.Claimed?
    ensures call.Claim? && Claims(s, call.worker, call.claimedAt, reply, t)
  {
  }

  lemma EarliestIsQueued(t: Tables, id: Id)
    requires Earliest(t, id)
    ensures id in t.runs && Queued(t.runs[id].run)
  {
  }

  // ---------------------------------------------------------------- restarts

  /** Opening leaves nothing in flight, and opening again changes nothing. */
  lemma OpenTwice(s: Tables, now: nat, t: Tables, again: nat, reply: Reply, u: Tables)
    requires Consistent(s) && Opens(s, now, Opened, t) && Opens(t, again, reply, u)
    ensures Executing(t) == {} && reply == Opened && u == t
  {
    hide Consistent, GivesUp;
    InstallKeeps(s);
    var lost := Executing(s);
    GivesUpKeeps(s.(installed := true), lost, SERVER_CONTINUITY_LOST, now, t);
    InstalledStays(s.(installed := true), lost, SERVER_CONTINUITY_LOST, now, t);
    InstalledStays(t, {}, SERVER_CONTINUITY_LOST, again, u);
  }

  lemma InstalledStays(s: Tables, lost: set<Id>, moment: Moment, now: nat, t: Tables)
    requires s.installed && (forall id | id in lost :: id in s.runs) && GivesUp(s, lost, moment, now, t)
    ensures t.installed && t == t.(installed := true)
    ensures lost == {} ==> t == s
  {
    if lost != {} { var id :| id in lost; }
  }

  // ---------------------------------------------------------------- settlement

  predicate SettledAt(t: Tables, id: Id) {
    id in t.runs && t.runs[id].run.operation.phase == Op.Settled && !Queued(t.runs[id].run)
  }

  lemma StepFinal(s: Tables, call: Call, reply: Reply, t: Tables, intent: (Start, PackageDigest) -> nat, id: Id)
    requires Stepped(s, call, reply, t, intent) && SettledAt(s, id)
    ensures id in t.results <==> id in s.results
  {
    hide PackageOk, Shape, ResultFits, FitsItsSkill, Admissible, Earliest;
    match call
    case Open(now) =>
      if s.installed || Pristine(s) {
        GivingUpRecordsNothing(s.(installed := true), Executing(s), SERVER_CONTINUITY_LOST, now, t);
      }
    case Abandon(worker, now) =>
      GivingUpRecordsNothing(s, OwnedBy(s, worker), WORKER_CONTINUITY_LOST, now, t);
    case _ =>
  }

  lemma GivingUpRecordsNothing(s: Tables, lost: set<Id>, moment: Moment, now: nat, t: Tables)
    requires forall id | id in lost :: id in s.runs
    requires GivesUp(s, lost, moment, now, t)
    ensures t.results == s.results
  {
    if lost != {} { var id :| id in lost; }
  }

  /** A settled run never changes again and never gains or loses a receipt. */
  lemma {:induction false} SettlementIsFinal(
      states: seq<Tables>, exchanges: seq<Exchange>, intent: (Start, PackageDigest) -> nat, i: nat, j: nat, id: Id)
    requires History(states, exchanges, intent) && i <= j < |states| && SettledAt(states[i], id)
    ensures id in states[j].runs && states[j].runs[id] == states[i].runs[id]
    ensures id in states[j].results <==> id in states[i].results
    ensures id in states[i].results ==> states[j].results[id] == states[i].results[id]
    decreases j
  {
    hide Consistent, Stepped;
    HistoryKeeps(states, exchanges, intent, i, j);
    if i < j {
      SettlementIsFinal(states, exchanges, intent, i, j - 1, id);
      StepFinal(states[j - 1], exchanges[j - 1].call, exchanges[j - 1].reply, states[j], intent, id);
    }
  }

  /** A receipt is there only for a run settled with that very result. */
  lemma ReceiptMeansSettled(
      states: seq<Tables>, exchanges: seq<Exchange>, intent: (Start, PackageDigest) -> nat, i: nat, id: Id)
    requires History(states, exchanges, intent) && i < |states| && id in states[i].results
    ensures SettledAt(states[i], id) && SettledBy(states[i].runs[id].run, states[i].results[id])
  {
    HistoryKeeps(states, exchanges, intent, i, i);
  }

  /** After a result was recorded, reporting it again returns the same run, any other report is refused,
      and neither changes anything. */
  lemma RepeatedReport(
      states: seq<Tables>, exchanges: seq<Exchange>, intent: (Start, PackageDigest) -> nat, i: nat, j: nat)
    requires History(states, exchanges, intent) && i < j < |exchanges|
    requires exchanges[i].call.Report? && exchanges[i].reply.Recorded?
    requires exchanges[j].call.Report? && exchanges[j].call.finish.run == exchanges[i].call.finish.run
    ensures states[j + 1] == states[j]
    ensures if exchanges[j].call.finish == exchanges[i].call.finish then exchanges[j].reply == exchanges[i].reply
            else exchanges[j].reply.Refused?
  {
    hide Consistent, Shape, ResultFits;
    var f := exchanges[i].call.finish;
    assert Stepped(states[i], exchanges[i].call, exchanges[i].reply, states[i + 1], intent);
    assert Stepped(states[j], exchanges[j].call, exchanges[j].reply, states[j + 1], intent);
    assert f.run in states[i + 1].results;
    ReceiptMeansSettled(states, exchanges, intent, i + 1, f.run);
    SettlementIsFinal(states, exchanges, intent, i + 1, j, f.run);
  }

  /** A run that is settled without a receipt is out of reach of every later report. */
  lemma UnreceiptedStaysClosed(
      states: seq<Tables>, exchanges: seq<Exchange>, intent: (Start, PackageDigest) -> nat, i: nat, j: nat)
    requires History(states, exchanges, intent) && i <= j < |exchanges|
    requires exchanges[j].call.Report? && SettledAt(states[i], exchanges[j].call.finish.run)
    requires exchanges[j].call.finish.run !in states[i].results
    ensures exchanges[j].reply == Refused(Invalid) && states[j + 1] == states[j]
  {
    SettlementIsFinal(states, exchanges, intent, i, j, exchanges[j].call.finish.run);
    assert Stepped(states[j], exchanges[j].call, exchanges[j].reply, states[j + 1], intent);
  }

  /** The call gives up the run: a server restart, or the loss of the worker that executes it. */
  predicate GivesUpRun(s: Tables, x: Exchange, id: Id) {
    && id in s.runs && InFlight(s.runs[id].run)
    && ((x.call.Open? && x.reply == Opened) || (x.call.Abandon? && s.runs[id].run.worker == Some(x.call.gone)))
  }

  lemma GivingUpSettles(s: Tables, x: Exchange, t: Tables, intent: (Start, PackageDigest) -> nat, id: Id)
    requires Consistent(s) && Stepped(s, x.call, x.reply, t, intent) && GivesUpRun(s, x, id)
    ensures SettledAt(t, id) && id !in t.results && t.runs[id].run.operation.outcome == Op.Unresolved
  {
    hide Consistent, Stepped, Losing, SettledAt, InFlight;
    Receiptless(s, id);
    FlightIsStaged(s, id);
    if x.call.Open? {
      OpensLoses(s, x, t, intent, id);
      LostIsSettled(s.(installed := true), id, SERVER_CONTINUITY_LOST, x.call.openedAt);
    } else {
      AbandonLoses(s, x, t, intent, id);
      LostIsSettled(s, id, WORKER_CONTINUITY_LOST, x.call.abandonedAt);
    }
  }

  lemma LostIsSettled(s: Tables, id: Id, moment: Moment, now: nat)
    requires id in s.runs && s.runs[id].run.request.requestId == id && InFlight(s.runs[id].run)
    ensures var t := Losing(s, id, moment, now);
      SettledAt(t, id) && t.results == s.results && t.runs[id].run.operation.outcome == Op.Unresolved
  {
  }

  lemma FlightIsStaged(s: Tables, id: Id)
    requires Consistent(s) && id in s.runs
    ensures s.runs[id].run.request.requestId == id
  {
    hide StartsLogged, SkillsPresent, ReceiptsTrue, OneInFlight;
    assert Staged(id, s.runs[id]);
  }

  lemma OpensLoses(s: Tables, x: Exchange, t: Tables, intent: (Start, PackageDigest) -> nat, id: Id)
    requires Stepped(s, x.call, x.reply, t, intent) && x.call.Open? && x.reply == Opened
    requires id in s.runs && InFlight(s.runs[id].run)
    ensures t == Losing(s.(installed := true), id, SERVER_CONTINUITY_LOST, x.call.openedAt)
  {
    hide Losing;
    assert id in Executing(s);
  }

  lemma AbandonLoses(s: Tables, x: Exchange, t: Tables, intent: (Start, PackageDigest) -> nat, id: Id)
    requires Stepped(s, x.call, x.reply, t, intent) && x.call.Abandon?
    requires id in s.runs && InFlight(s.runs[id].run) && s.runs[id].run.worker == Some(x.call.gone)
    ensures t == Losing(s, id, WORKER_CONTINUITY_LOST, x.call.abandonedAt)
  {
    hide Losing;
    assert id in OwnedBy(s, x.call.gone);
  }

  /** Once a restart or an abandonment has given a run up, every later report for it is refused. */
  lemma LateReportIsRefused(
      states: seq<Tables>, exchanges: seq<Exchange>, intent: (Start, PackageDigest) -> nat, i: nat, j: nat)
    requires History(states, exchanges, intent) && i < j < |exchanges|
    requires exchanges[j].call.Report? && GivesUpRun(states[i], exchanges[i], exchanges[j].call.finish.run)
    ensures exchanges[j].reply == Refused(Invalid) && states[j + 1] == states[j]
  {
    hide Consistent, Stepped, GivesUpRun, SettledAt;
    HistoryKeeps(states, exchanges, intent, i, i);
    GivingUpSettles(states[i], exchanges[i], states[i + 1], intent, exchanges[j].call.finish.run);
    UnreceiptedStaysClosed(states, exchanges, intent, i + 1, j);
  }

  /** A repeated submission changes nothing: the same request returns its own run, a different one conflicts. */
  lemma RepeatedSubmit(
      states: seq<Tables>, exchanges: seq<Exchange>, intent: (Start, PackageDigest) -> nat, i: nat, j: nat)
    requires History(states, exchanges, intent) && i < j < |exchanges|
    requires exchanges[i].call.Submit? && exchanges[i].reply.Submitted?
    requires exchanges[j].call.Submit? && exchanges[j].call.start.requestId == exchanges[i].call.start.requestId
    ensures states[j + 1] == states[j]
    ensures if exchanges[j].call.start == exchanges[i].call.start
      then exchanges[j].reply.Submitted? && exchanges[j].reply.submitted.operation.id == exchanges[i].call.start.requestId
           && Progresses(exchanges[i].reply.submitted, exchanges[j].reply.submitted)
      else exchanges[j].reply == Refused(KeyConflict)
  {
    hide Consistent, Later, Submits, Progresses;
    HistoryKeeps(states, exchanges, intent, i + 1, j);
    assert Stepped(states[i], exchanges[i].call, exchanges[i].reply, states[i + 1], intent);
    assert Stepped(states[j], exchanges[j].call, exchanges[j].reply, states[j + 1], intent);
    var first, again := exchanges[i].call, exchanges[j].call;
    HistoryKeeps(states, exchanges, intent, i, i + 1);
    SubmittedIsStored(states[i], first.start, first.submittedAt, exchanges[i].reply, states[i + 1], intent);
    StoredStays(states[i + 1], states[j], first.start.requestId);
    KnownSubmit(states[j], again.start, again.submittedAt, exchanges[j].reply, states[j + 1], intent);
  }

  lemma SubmittedIsStored(s: Tables, start: Start, now: nat, reply: Reply, t: Tables, intent: (Start, PackageDigest) -> nat)
    requires Submits(s, start, now, reply, t, intent) && reply.Submitted?
    ensures start.requestId in t.runs && t.runs[start.requestId].run == reply.submitted
    ensures reply.submitted.request == start
  {
  }

  lemma StoredStays(s: Tables, t: Tables, id: Id)
    requires Later(s, t) && Consistent(t) && id in s.runs
    ensures id in t.runs && Progresses(s.runs[id].run, t.runs[id].run)
    ensures t.runs[id].run.request == s.runs[id].run.request && t.runs[id].run.operation.id == id
  {
    hide OneInFlight, StartsLogged, ReceiptsTrue, SkillsPresent;
    assert Staged(id, t.runs[id]);
  }

  lemma KnownSubmit(s: Tables, start: Start, now: nat, reply: Reply, t: Tables, intent: (Start, PackageDigest) -> nat)
    requires Submits(s, start, now, reply, t, intent) && start.requestId in s.runs
    ensures t == s
    ensures reply == if s.runs[start.requestId].run.request == start then Submitted(s.runs[start.requestId].run) else Refused(KeyConflict)
  {
  }
}
