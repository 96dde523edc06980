/** The life of one native operation (crates/rx-domain/src/operation.rs). */
module Operations {
  import opened Base

  datatype Phase = Admitted | Active | Reconciling | Settled
  datatype Knowledge = NotSent | MayHaveExecuted | Accepted | Running | Ended | Unknown
  datatype Outcome = NoOutcome | Succeeded | Failed | Canceled | NotExecuted | Unresolved
  datatype Integrity = Valid | Disputed
  datatype Disposition = Held | Quarantined | Released

  /** The stored form of an operation. */
  datatype Snapshot = Snapshot(
    id: Id, revision: U64, intent: nat, phase: Phase, knowledge: Knowledge, outcome: Outcome,
    integrity: Integrity, disposition: Disposition, evidence: seq<Id>)

  datatype Fault =
    | InvalidTransition | InvalidInput | CounterOverflow

  datatype ReleaseConditions = ReleaseConditions(
    noResidualNative: bool, controlHandoverConfirmed: bool, supportHandoverConfirmed: bool)

  /** One call of the operation's public interface. */
  datatype Call =
    | Quarantine
    | Dispute
    | Sent
    | LoseContinuity
    | ObservedRunning(evidence: Id)
    | Conclude(outcome: Outcome, conclusive: seq<Id>)
    | Release(conditions: ReleaseConditions, handover: seq<Id>)

  function Admit(id: Id, intent: nat): Snapshot {
    Snapshot(id, 1, intent, Admitted, NotSent, NoOutcome, Valid, Held, [])
  }

  function FinalKnowledge(outcome: Outcome): Knowledge {
    match outcome
    case Unresolved => Unknown
    case NotExecuted => NotSent
    case _ => Ended
  }

  /** The check made when a stored operation is decoded. */
  predicate Decodes(s: Snapshot) {
    && s.revision != 0
    && (s.phase == Settled <==> s.outcome != NoOutcome)
    && (s.integrity == Disputed ==> s.disposition == Quarantined)
    && (s.disposition == Released ==> s.phase == Settled)
    && (s.phase == Settled ==> s.evidence != [] && s.knowledge == FinalKnowledge(s.outcome))
    && Distinct(s.evidence)
  }

  function AddEvidence(evidence: seq<Id>, id: Id): seq<Id> {
    if id in evidence then evidence else Sort(evidence + [id])
  }

  function AddAll(evidence: seq<Id>, more: seq<Id>): seq<Id>
    decreases |more|
  {
    if more == [] then evidence else AddAll(AddEvidence(evidence, more[0]), more[1..])
  }

  /** Adding evidence keeps what is there, adds exactly what is new and never repeats an entry. */
  lemma {:induction false} AddAllCollects(evidence: seq<Id>, more: seq<Id>)
    ensures forall e :: e in AddAll(evidence, more) <==> e in evidence || e in more
    ensures Distinct(evidence) ==> Distinct(AddAll(evidence, more))
    decreases |more|
  {
    if more != [] {
      AddEvidenceCollects(evidence, more[0]);
      AddAllCollects(AddEvidence(evidence, more[0]), more[1..]);
    }
  }

  lemma AddEvidenceCollects(evidence: seq<Id>, id: Id)
    ensures forall e :: e in AddEvidence(evidence, id) <==> e in evidence || e == id
    ensures Distinct(evidence) ==> Distinct(AddEvidence(evidence, id))
  {
    if id !in evidence {
      var r := Sort(evidence + [id]);
      SortSpec(evidence + [id]);
      assert forall e :: e in r <==> e in multiset(r);
      assert forall e :: e in evidence + [id] <==> e in multiset(evidence + [id]);
      if Distinct(evidence) { SortKeepsDistinct(evidence + [id]); }
    }
  }

  lemma DistinctCounts(s: seq<Id>)
    ensures Distinct(s) <==> forall e :: multiset(s)[e] <= 1
  {
    if s != [] {
      var front, last := s[..|s| - 1], s[|s| - 1];
      assert s == front + [last];
      DistinctCounts(front);
      assert multiset(s) == multiset(front) + multiset{last};
      if Distinct(s) {
        assert last !in front;
        assert multiset(front)[last] == 0;
      } else if forall e :: multiset(s)[e] <= 1 {
        assert forall e :: multiset(front)[e] <= multiset(s)[e];
        assert multiset(s)[last] == multiset(front)[last] + 1;
        assert last !in front;
      }
    }
  }

  lemma SortKeepsDistinct(s: seq<Id>)
    requires Distinct(s)
    ensures Distinct(Sort(s))
  {
    SortSpec(s);
    DistinctCounts(s);
    DistinctCounts(Sort(s));
  }

  /** What each call makes of the stored state. */
  function Next(s: Snapshot, call: Call): Result<Snapshot, Fault> {
    match call
    case Quarantine =>
      if s.disposition == Quarantined then Ok(s) else
      Bumped(s, s.(disposition := Quarantined))
    case Dispute =>
      var t := s.(disposition := Quarantined, integrity := Disputed);
      var t := if s.phase == Settled then t else t.(phase := Reconciling, knowledge := Unknown);
      if s.integrity == Disputed then Ok(t) else Bumped(s, t)
    case Sent =>
      if s.phase != Admitted || s.knowledge != NotSent then Err(InvalidTransition) else
      Bumped(s, s.(phase := Active, knowledge := MayHaveExecuted))
    case LoseContinuity =>
      if s.phase == Settled then Ok(s) else
      Bumped(s, s.(phase := Reconciling, knowledge := Unknown, disposition := Quarantined))
    case ObservedRunning(e) =>
      if s.phase == Settled then Err(InvalidTransition) else
      Bumped(s, s.(knowledge := Running, evidence := AddEvidence(s.evidence, e),
                   phase := if s.phase == Reconciling then Reconciling else Active))
    case Conclude(outcome, ids) =>
      if outcome == NoOutcome || ids == [] then Err(InvalidInput)
      else if s.outcome == outcome && Known(s.evidence, ids) then Ok(s)
      else Bumped(s, Concluded(s.(evidence := AddAll(s.evidence, ids)), outcome))
    case Release(c, ids) =>
      if s.phase != Settled || s.integrity == Disputed || !c.noResidualNative
         || !c.controlHandoverConfirmed || !c.supportHandoverConfirmed || ids == []
      then Err(InvalidTransition)
      else Bumped(s, s.(disposition := Released, evidence := AddAll(s.evidence, ids)))
  }

  predicate Known(evidence: seq<Id>, ids: seq<Id>) {
    forall e | e in ids :: e in evidence
  }

  /** A second, different conclusion disputes the first; it never replaces it. */
  function Concluded(s: Snapshot, outcome: Outcome): Snapshot {
    if s.phase == Settled && s.outcome != outcome
    then s.(integrity := Disputed, disposition := Quarantined)
    else s.(phase := Settled, outcome := outcome, knowledge := FinalKnowledge(outcome),
            disposition := if outcome == Unresolved then Quarantined else s.disposition)
  }

  /** `t` at the next revision after `s`, unless the counter is exhausted. */
  function Bumped(s: Snapshot, t: Snapshot): Result<Snapshot, Fault> {
    if s.revision == MAX_U64 then Err(CounterOverflow) else Ok(t.(revision := s.revision + 1))
  }

  /** The state after a series of calls; a refused call leaves the state as it was. */
  function After(s: Snapshot, calls: seq<Call>): Snapshot
    decreases |calls|
  {
    if calls == [] then s else
    var before := After(s, calls[..|calls| - 1]);
    var r := Next(before, calls[|calls| - 1]);
    if r.Ok? then r.value else before
  }

  function Rank(p: Phase): nat {
    match p case Admitted => 0 case Active => 1 case Reconciling => 2 case Settled => 3
  }

  /** Everything that never goes back during an operation's life. */
  ghost predicate Evolves(s: Snapshot, t: Snapshot) {
    && s.id == t.id && s.intent == t.intent
    && Rank(s.phase) <= Rank(t.phase)
    && (s.phase == Settled ==> t.outcome == s.outcome && t.knowledge == s.knowledge)
    && (forall e | e in s.evidence :: e in t.evidence)
    && (s.integrity == Disputed ==> t.integrity == Disputed && t.disposition == Quarantined)
    && s.revision <= t.revision
  }

  /** The call changes the operation without raising its revision. */
  predicate ChangesSilently(s: Snapshot, call: Call) {
    Next(s, call).Ok? && Next(s, call).value != s && Next(s, call).value.revision == s.revision
  }

  /** One call: the decode check survives, nothing goes back, and a change shows in the revision,
      except that repeating `Dispute` may move an unsettled operation back to Unknown silently. */
  lemma CallEvolves(s: Snapshot, call: Call)
    requires Decodes(s)
    ensures Next(s, call).Ok? ==>
      var t := Next(s, call).value;
      && Decodes(t) && Evolves(s, t)
      && (t != s <==> t.revision == s.revision + 1 || (call == Dispute && t.revision == s.revision && t != s))
      && (t != s && t.revision == s.revision ==>
            s.integrity == Disputed && s.phase != Settled
            && t == s.(phase := Reconciling, knowledge := Unknown))
    ensures Next(s, call).Ok? ==>
      (ChangesSilently(s, call) <==>
         call == Dispute && s.integrity == Disputed && s.phase != Settled && !(s.phase == Reconciling && s.knowledge == Unknown))
  {
    match call
    case ObservedRunning(e) => AddEvidenceCollects(s.evidence, e);
    case Conclude(_, ids) => AddAllCollects(s.evidence, ids);
    case Release(_, ids) => AddAllCollects(s.evidence, ids);
    case _ =>
  }

  /** Over every run of calls. */
  lemma {:induction false} LifeEvolves(s: Snapshot, calls: seq<Call>)
    requires Decodes(s)
    ensures Decodes(After(s, calls)) && Evolves(s, After(s, calls))
    decreases |calls|
  {
    if calls != [] {
      LifeEvolves(s, calls[..|calls| - 1]);
      CallEvolves(After(s, calls[..|calls| - 1]), calls[|calls| - 1]);
    }
  }

  ghost predicate SendsAt(s: Snapshot, calls: seq<Call>, i: nat)
    requires i < |calls|
  {
    calls[i] == Sent && Next(After(s, calls[..i]), Sent).Ok?
  }

  lemma {:induction false} AfterConcat(s: Snapshot, first: seq<Call>, second: seq<Call>)
    ensures After(s, first + second) == After(After(s, first), second)
    decreases |second|
  {
    if second == [] {
      assert first + second == first;
    } else {
      AfterConcat(s, first, second[..|second| - 1]);
      assert (first + second)[..|first + second| - 1] == first + second[..|second| - 1];
    }
  }

  /** Whatever calls an admitted operation receives, its stored form passes its own decode check at every
      moment, and nothing it held at one moment goes back by a later one. */
  lemma EveryLifeDecodes(id: Id, intent: nat, calls: seq<Call>, i: nat, j: nat)
    requires i <= j <= |calls|
    ensures Decodes(After(Admit(id, intent), calls[..i])) && Decodes(After(Admit(id, intent), calls[..j]))
    ensures Evolves(After(Admit(id, intent), calls[..i]), After(Admit(id, intent), calls[..j]))
  {
    LifeEvolves(Admit(id, intent), calls[..i]);
    LifeEvolves(After(Admit(id, intent), calls[..i]), calls[i..j]);
    AfterConcat(Admit(id, intent), calls[..i], calls[i..j]);
    assert calls[..i] + calls[i..j] == calls[..j];
  }

  /** Native dispatch is entered at most once in an operation's life. */
  lemma {:induction false} SentAtMostOnce(s: Snapshot, calls: seq<Call>, i: nat, j: nat)
    requires Decodes(s) && i < |calls| && j < |calls|
    requires SendsAt(s, calls, i) && SendsAt(s, calls, j)
    ensures i == j
  {
    if i < j {
      SentOnceOrdered(s, calls, i, j);
    } else if j < i {
      SentOnceOrdered(s, calls, j, i);
    }
  }

  lemma SentOnceOrdered(s: Snapshot, calls: seq<Call>, i: nat, j: nat)
    requires Decodes(s) && i < j < |calls|
    requires SendsAt(s, calls, i)
    ensures !SendsAt(s, calls, j)
  {
    assert calls[..i + 1][..i] == calls[..i];
    var sent := After(s, calls[..i + 1]);
    LifeEvolves(s, calls[..i + 1]);
    assert sent.phase == Active;
    assert calls[..j] == calls[..i + 1] + calls[i + 1..j];
    AfterConcat(s, calls[..i + 1], calls[i + 1..j]);
    LifeEvolves(sent, calls[i + 1..j]);
  }

  /** A release succeeds exactly for a settled, undisputed operation, under all three conditions and with evidence. */
  lemma ReleaseNeedsEverything(s: Snapshot, c: ReleaseConditions, handover: seq<Id>)
    ensures Next(s, Release(c, handover)).Ok? <==>
      && s.phase == Settled && s.integrity == Valid && handover != [] && s.revision < MAX_U64
      && c == ReleaseConditions(true, true, true)
  {
  }

  /** Call `i` of the life succeeds. */
  ghost predicate Succeeds(s: Snapshot, calls: seq<Call>, i: nat) {
    i < |calls| && Next(After(s, calls[..i]), calls[i]).Ok?
  }

  /** Call `i` is the first that concludes. */
  ghost predicate SettlesAt(s: Snapshot, calls: seq<Call>, i: nat) {
    && Succeeds(s, calls, i) && calls[i].Conclude?
    && forall j: nat | j < i :: !(Succeeds(s, calls, j) && calls[j].Conclude?)
  }

  /** Call `i` disputes the operation: by name, or by concluding something else than it was settled with. */
  ghost predicate DisputesAt(s: Snapshot, calls: seq<Call>, i: nat) {
    && Succeeds(s, calls, i)
    && (|| calls[i] == Dispute
        || (calls[i].Conclude? && exists j: nat | j < i :: SettlesAt(s, calls, j) && calls[j].outcome != calls[i].outcome))
  }

  /** Call `i` hands it over: settled and undisputed at that moment, under all three conditions, with evidence. */
  ghost predicate HandsOverAt(s: Snapshot, calls: seq<Call>, i: nat) {
    && Succeeds(s, calls, i) && calls[i].Release? && calls[i].handover != []
    && calls[i].conditions == ReleaseConditions(true, true, true)
    && (exists j: nat | j < i :: SettlesAt(s, calls, j))
    && forall j: nat | j < i :: !DisputesAt(s, calls, j)
  }

  /** What one call of a life can do to the outcome, the integrity and the disposition. */
  lemma OneCall(s: Snapshot, calls: seq<Call>)
    requires Decodes(s) && calls != []
    ensures var n := |calls| - 1;
      var before, t, call, ok := After(s, calls[..n]), After(s, calls), calls[n], Succeeds(s, calls, n);
      && Decodes(before) && Decodes(t)
      && (ok && call.Conclude? ==> t.phase == Settled && t.outcome == if before.phase == Settled then before.outcome else call.outcome)
      && (!(ok && call.Conclude?) ==> (t.phase == Settled <==> before.phase == Settled) && t.outcome == before.outcome)
      && (t.integrity == Disputed <==>
            before.integrity == Disputed
            || (ok && (call == Dispute || (call.Conclude? && before.phase == Settled && before.outcome != call.outcome))))
      && (t.disposition == Released ==> before.disposition == Released || (ok && call.Release?))
      && (ok && call.Release? ==> before.phase == Settled && before.integrity == Valid && call.handover != []
                                  && call.conditions == ReleaseConditions(true, true, true))
  {
    hide AddAll, AddEvidence, Distinct, Known;
    var n := |calls| - 1;
    LifeEvolves(s, calls[..n]);
    LifeEvolves(s, calls);
    if calls[n].Release? { ReleaseNeedsEverything(After(s, calls[..n]), calls[n].conditions, calls[n].handover); }
  }

  ghost predicate EverSettled(s: Snapshot, calls: seq<Call>) {
    exists i: nat :: SettlesAt(s, calls, i)
  }

  ghost predicate EverDisputed(s: Snapshot, calls: seq<Call>) {
    exists i: nat :: DisputesAt(s, calls, i)
  }

  /** The operation is settled exactly when a conclusion has succeeded, and with the outcome of the first. */
  lemma {:induction false} SettledAsFirstConcluded(id: Id, intent: nat, calls: seq<Call>)
    ensures var s, t := Admit(id, intent), After(Admit(id, intent), calls);
      && (t.phase == Settled <==> EverSettled(s, calls))
      && (forall i: nat | SettlesAt(s, calls, i) :: t.outcome == calls[i].outcome)
    decreases |calls|
  {
    hide Next, After, Decodes, SettlesAt, Succeeds;
    var s := Admit(id, intent);
    if calls == [] {
      NothingCalled(s);
    } else {
      var n := |calls| - 1;
      AdmittedDecodes(id, intent);
      SettledAsFirstConcluded(id, intent, calls[..n]);
      OneCall(s, calls);
      SettledSplits(s, calls);
    }
  }

  lemma NothingCalled(s: Snapshot)
    ensures After(s, []) == s && !EverSettled(s, []) && !EverDisputed(s, [])
    ensures forall i: nat :: !SettlesAt(s, [], i)
  {
  }

  lemma SettledSplits(s: Snapshot, calls: seq<Call>)
    requires calls != []
    ensures var n := |calls| - 1; var front := calls[..n];
      && (SettlesAt(s, calls, n) <==> Succeeds(s, calls, n) && calls[n].Conclude? && !EverSettled(s, front))
      && (EverSettled(s, calls) <==> EverSettled(s, front) || SettlesAt(s, calls, n))
      && (forall i: nat | SettlesAt(s, calls, i) :: i == n || (i < n && SettlesAt(s, front, i)))
  {
    hide Next, After, SettlesAt, Succeeds;
    var n := |calls| - 1;
    var front := calls[..n];
    SettlingIsACall(s, calls);
    SettlingIsACall(s, front);
    SameBefore(s, calls);
    FirstOrLater(s, calls);
    forall i: nat | SettlesAt(s, calls, i) && i != n
      ensures i < n && SettlesAt(s, front, i)
    {
      assert i < |front| && (SettlesAt(s, calls, i) <==> SettlesAt(s, front, i));
    }
    if i: nat :| SettlesAt(s, front, i) {
      assert SettlesAt(s, calls, i);
    }
  }

  lemma AdmittedDecodes(id: Id, intent: nat)
    ensures Decodes(Admit(id, intent))
  {
  }

  /** The last call is the first conclusion exactly when it concludes and none before it does. */
  lemma FirstOrLater(s: Snapshot, calls: seq<Call>)
    requires calls != []
    ensures var n := |calls| - 1;
      SettlesAt(s, calls, n) <==> Succeeds(s, calls, n) && calls[n].Conclude? && !exists i: nat | i < n :: SettlesAt(s, calls, i)
  {
    hide Next, After;
    var n := |calls| - 1;
    if i: nat :| i < n && Succeeds(s, calls, i) && calls[i].Conclude? {
      var j := FirstConclusion(s, calls, i);
      assert j < n && SettlesAt(s, calls, j);
    }
  }

  lemma {:induction false} FirstConclusion(s: Snapshot, calls: seq<Call>, i: nat) returns (j: nat)
    requires Succeeds(s, calls, i) && calls[i].Conclude?
    ensures j <= i && SettlesAt(s, calls, j)
  {
    hide Next, After;
    if k: nat :| k < i && Succeeds(s, calls, k) && calls[k].Conclude? {
      j := FirstConclusion(s, calls, k);
    } else {
      j := i;
    }
  }

  /** It is disputed exactly when a dispute, or a conclusion other than the first, has succeeded. */
  lemma {:induction false} DisputedAsCalled(id: Id, intent: nat, calls: seq<Call>)
    ensures After(Admit(id, intent), calls).integrity == Disputed <==> EverDisputed(Admit(id, intent), calls)
    decreases |calls|
  {
    hide Next, After, Decodes, SettlesAt, DisputesAt, EverSettled, EverDisputed, Succeeds;
    var s := Admit(id, intent);
    if calls == [] {
      NothingCalled(s);
    } else {
      var n := |calls| - 1;
      AdmittedDecodes(id, intent);
      DisputedAsCalled(id, intent, calls[..n]);
      OneCall(s, calls);
      DisputedSplits(s, calls);
      LastDisputes(id, intent, calls);
    }
  }

  lemma DisputedSplits(s: Snapshot, calls: seq<Call>)
    requires calls != []
    ensures var n := |calls| - 1;
      EverDisputed(s, calls) <==> EverDisputed(s, calls[..n]) || DisputesAt(s, calls, n)
  {
    hide Next, After, DisputesAt, Succeeds, SettlesAt, HandsOverAt;
    var n := |calls| - 1;
    var front := calls[..n];
    DisputingIsACall(s, calls);
    DisputingIsACall(s, front);
    SameBefore(s, calls);
    if i: nat :| DisputesAt(s, front, i) {
      assert DisputesAt(s, calls, i);
    }
    if i: nat :| DisputesAt(s, calls, i) && i != n {
      assert DisputesAt(s, front, i);
    }
  }

  /** The last call against what the operation is settled with. */
  lemma LastDisputes(id: Id, intent: nat, calls: seq<Call>)
    requires calls != []
    ensures var s, n := Admit(id, intent), |calls| - 1;
      var before := After(s, calls[..n]);
      DisputesAt(s, calls, n) <==>
        && Succeeds(s, calls, n)
        && (calls[n] == Dispute || (calls[n].Conclude? && before.phase == Settled && before.outcome != calls[n].outcome))
  {
    hide Next, After, SettlesAt, Succeeds, HandsOverAt;
    var s, n := Admit(id, intent), |calls| - 1;
    var front := calls[..n];
    SettledAsFirstConcluded(id, intent, front);
    SettlingIsACall(s, calls);
    SettlingIsACall(s, front);
    SameBefore(s, calls);
    if EverSettled(s, front) {
      var j: nat :| SettlesAt(s, front, j);
      assert SettlesAt(s, calls, j);
    }
    assert forall j: nat | j < n && SettlesAt(s, calls, j) :: SettlesAt(s, front, j);
  }

  lemma SettlingIsACall(s: Snapshot, calls: seq<Call>)
    ensures forall i: nat | SettlesAt(s, calls, i) :: i < |calls| && calls[i].Conclude?
  {
    hide Next, After;
  }

  lemma DisputingIsACall(s: Snapshot, calls: seq<Call>)
    ensures forall i: nat | DisputesAt(s, calls, i) :: i < |calls|
  {
    hide Next, After, SettlesAt;
  }

  /** It is released only if it was handed over. */
  lemma {:induction false} ReleasedWasHandedOver(id: Id, intent: nat, calls: seq<Call>)
    requires After(Admit(id, intent), calls).disposition == Released
    ensures exists i: nat :: HandsOverAt(Admit(id, intent), calls, i)
    decreases |calls|
  {
    hide Next, Decodes, SettlesAt, DisputesAt;
    var s, n := Admit(id, intent), |calls| - 1;
    var front := calls[..n];
    AdmittedDecodes(id, intent);
    SameBefore(s, calls);
    OneCall(s, calls);
    if Succeeds(s, calls, n) && calls[n].Release? {
      SettledAsFirstConcluded(id, intent, front);
      DisputedAsCalled(id, intent, front);
      var j: nat :| SettlesAt(s, front, j);
      SettlingIsACall(s, front);
      assert SettlesAt(s, calls, j);
      assert HandsOverAt(s, calls, n);
    } else {
      ReleasedWasHandedOver(id, intent, front);
      var i: nat :| HandsOverAt(s, front, i);
      assert HandsOverAt(s, calls, i);
    }
  }

  /** What is known once it is settled. */
  lemma SettledKnowledge(id: Id, intent: nat, calls: seq<Call>)
    requires After(Admit(id, intent), calls).phase == Settled
    ensures var t := After(Admit(id, intent), calls);
      && (t.outcome == Unresolved ==> t.knowledge == Unknown)
      && (t.outcome == NotExecuted ==> t.knowledge == NotSent)
      && (t.outcome in {Succeeded, Failed, Canceled} ==> t.knowledge == Ended)
      && t.evidence != []
  {
    hide Next, AddAll, AddEvidence, Distinct;
    LifeEvolves(Admit(id, intent), calls);
  }

  /** Call `i` is the last successful one that says what is known of an unsettled operation. */
  ghost predicate SaysLast(s: Snapshot, calls: seq<Call>, i: nat) {
    && Succeeds(s, calls, i) && Says(calls[i])
    && forall j: nat | i < j < |calls| && Succeeds(s, calls, j) :: !Says(calls[j])
  }

  predicate Says(call: Call) {
    call == Sent || call == LoseContinuity || call == Dispute || call.ObservedRunning?
  }

  /** While it is not settled, what is known is what was said last: sent, seen running, or lost track of. */
  lemma {:induction false} KnownAsSaidLast(id: Id, intent: nat, calls: seq<Call>)
    requires After(Admit(id, intent), calls).phase != Settled
    ensures var s, t := Admit(id, intent), After(Admit(id, intent), calls);
      && (t.knowledge == NotSent || t.knowledge == MayHaveExecuted || t.knowledge == Running || t.knowledge == Unknown)
      && (t.knowledge == NotSent <==> forall i: nat | Succeeds(s, calls, i) :: !Says(calls[i]))
      && (forall i: nat | SaysLast(s, calls, i) ::
            && (calls[i] == Sent ==> t.knowledge == MayHaveExecuted)
            && (calls[i].ObservedRunning? ==> t.knowledge == Running)
            && (calls[i] == LoseContinuity || calls[i] == Dispute ==> t.knowledge == Unknown))
    decreases |calls|
  {
    hide Next, After, Succeeds, Says;
    var s := Admit(id, intent);
    if calls == [] {
      NothingSaid(s);
    } else {
      var n := |calls| - 1;
      var front := calls[..n];
      AdmittedDecodes(id, intent);
      OneCall(s, calls);
      KnownAsSaidLast(id, intent, front);
      SaidBefore(s, calls);
      OneSaying(s, calls);
    }
  }

  lemma NothingSaid(s: Snapshot)
    ensures After(s, []) == s && forall i: nat :: !Succeeds(s, [], i)
  {
  }

  /** The last call of an unsettled life decides what is known if it says anything, and changes nothing of it otherwise. */
  lemma OneSaying(s: Snapshot, calls: seq<Call>)
    requires Decodes(s) && calls != [] && After(s, calls).phase != Settled
    ensures var n := |calls| - 1; var before, t := After(s, calls[..n]), After(s, calls);
      if Succeeds(s, calls, n) && Says(calls[n])
      then t.knowledge == match calls[n] case Sent => MayHaveExecuted case ObservedRunning(_) => Running case _ => Unknown
      else t.knowledge == before.knowledge
  {
    hide AddAll, AddEvidence, Distinct, Known;
    LifeEvolves(s, calls[..|calls| - 1]);
  }

  lemma SaidBefore(s: Snapshot, calls: seq<Call>)
    requires calls != []
    ensures var n := |calls| - 1; var front := calls[..n];
      && (forall i: nat | i < n :: Succeeds(s, calls, i) <==> Succeeds(s, front, i))
      && (forall i: nat | Succeeds(s, calls, i) :: i <= n) && (forall i: nat | Succeeds(s, front, i) :: i < n)
      && (if Succeeds(s, calls, n) && Says(calls[n]) then forall i: nat | SaysLast(s, calls, i) :: i == n
          else forall i: nat | SaysLast(s, calls, i) :: i < n && SaysLast(s, front, i))
  {
    hide Next, After, Says;
    var n := |calls| - 1;
    SameBefore(s, calls);
    forall i: nat | SaysLast(s, calls, i) && !(Succeeds(s, calls, n) && Says(calls[n]))
      ensures i < n && SaysLast(s, calls[..n], i)
    {
      assert forall j: nat | j < n :: Succeeds(s, calls, j) <==> Succeeds(s, calls[..n], j);
    }
  }

  /** What takes an operation out of use: a quarantine, a dispute, a loss of continuity before it is settled, and a
      conclusion that is unresolved at first or differs later. Apart from a release and new evidence that it is
      unresolved, nothing else changes how it is held. */
  lemma HeldUntilReleased(s: Snapshot, call: Call)
    requires Decodes(s) && Next(s, call).Ok?
    ensures var t := Next(s, call).value;
      var lost := call == LoseContinuity && s.phase != Settled;
      var unresolved := call.Conclude? && s.phase != Settled && call.outcome == Unresolved;
      var differs := call.Conclude? && s.phase == Settled && call.outcome != s.outcome;
      && (call == Quarantine || call == Dispute || lost || unresolved || differs ==> t.disposition == Quarantined)
      && (call.Release? ==> t.disposition == Released)
      && (t.disposition != s.disposition ==>
            call == Quarantine || call == Dispute || lost || unresolved || differs || call.Release?
            || (call.Conclude? && s.outcome == call.outcome == Unresolved && exists e :: e in call.conclusive && e !in s.evidence))
  {
    hide AddAll, AddEvidence, Distinct;
  }

  /** The calls before the last mean what they meant without it. */
  lemma SameBefore(s: Snapshot, calls: seq<Call>)
    requires calls != []
    ensures var front := calls[..|calls| - 1];
      forall i: nat | i < |front| ::
        && (Succeeds(s, calls, i) <==> Succeeds(s, front, i)) && (SettlesAt(s, calls, i) <==> SettlesAt(s, front, i))
        && (DisputesAt(s, calls, i) <==> DisputesAt(s, front, i)) && (HandsOverAt(s, calls, i) <==> HandsOverAt(s, front, i))
  {
    hide Next, After;
    var front := calls[..|calls| - 1];
    forall i: nat | i < |front|
      ensures Succeeds(s, calls, i) <==> Succeeds(s, front, i)
    {
      assert calls[..i] == front[..i];
    }
    forall i: nat | i < |front|
      ensures SettlesAt(s, calls, i) <==> SettlesAt(s, front, i)
    {
      assert forall j: nat | j < i :: Succeeds(s, calls, j) <==> Succeeds(s, front, j);
    }
    forall i: nat | i < |front|
      ensures DisputesAt(s, calls, i) <==> DisputesAt(s, front, i)
    {
      assert forall j: nat | j < i :: SettlesAt(s, calls, j) <==> SettlesAt(s, front, j);
    }
    forall i: nat | i < |front|
      ensures HandsOverAt(s, calls, i) <==> HandsOverAt(s, front, i)
    {
      assert forall j: nat | j < i :: SettlesAt(s, calls, j) <==> SettlesAt(s, front, j);
      assert forall j: nat | j < i :: DisputesAt(s, calls, j) <==> DisputesAt(s, front, j);
    }
  }

  /** The one place where a change keeps its revision: a concrete operation seen running again after
      a dispute is sent back to Unknown by the next `Dispute`. */
  lemma RepeatedDisputeIsSilent(id: Id, intent: nat, e: Id)
    ensures var s := After(Admit(id, intent), [Dispute, ObservedRunning(e)]);
            Next(s, Dispute).Ok? && Next(s, Dispute).value != s
            && Next(s, Dispute).value.revision == s.revision
  {
    var s0 := Admit(id, intent);
    assert [Dispute, ObservedRunning(e)][..1] == [Dispute];
    assert [Dispute][..0] == [];
    assert After(s0, [Dispute]) == Next(s0, Dispute).value;
  }

  /** A life that ends well: sent, concluded and handed over. */
  function CleanLife(evidence: Id): seq<Call> {
    [Sent, Conclude(Succeeded, [evidence]), Release(ReleaseConditions(true, true, true), [evidence])]
  }

  lemma CleanLifeReleases(id: Id, intent: nat, evidence: Id)
    ensures var t := After(Admit(id, intent), CleanLife(evidence));
            t.id == id && t.outcome == Succeeded && t.disposition == Released
            && t.integrity == Valid && t.knowledge == Ended
  {
    var s := Admit(id, intent);
    var calls := CleanLife(evidence);
    assert calls[..2][..1] == calls[..1] && calls[..3] == calls;
    assert calls[..1][..0] == [];
    assert After(s, calls[..1]) == Next(s, Sent).value;
    assert After(s, calls[..2]) == Next(Next(s, Sent).value, calls[1]).value;
  }

  /** The mutable object the engines work on. */
  class Operation {
    var operationId: Id
    var revision: U64
    var intentDigest: nat
    var phase: Phase
    var knowledge: Knowledge
    var outcome: Outcome
    var integrity: Integrity
    var disposition: Disposition
    var evidenceIds: seq<Id>

    function Stored(): Snapshot
      reads this
    {
      Snapshot(operationId, revision, intentDigest, phase, knowledge, outcome, integrity, disposition, evidenceIds)
    }

    constructor Admitted(id: Id, intent: nat)
      ensures Stored() == Admit(id, intent)
      ensures Decodes(Stored())
    {
      operationId, revision, intentDigest := id, 1, intent;
      phase, knowledge, outcome := Phase.Admitted, NotSent, NoOutcome;
      integrity, disposition, evidenceIds := Valid, Held, [];
    }

    /** Rebuild from a stored snapshot that passed the decode check. */
    constructor Decode(s: Snapshot)
      requires Decodes(s)
      ensures Stored() == s
    {
      operationId, revision, intentDigest := s.id, s.revision, s.intent;
      phase, knowledge, outcome := s.phase, s.knowledge, s.outcome;
      integrity, disposition, evidenceIds := s.integrity, s.disposition, s.evidence;
    }

    ghost predicate Performed(before: Snapshot, call: Call, r: Result<(), Fault>)
      reads this
    {
      var spec := Next(before, call);
      && (r.Ok? <==> spec.Ok?)
      && Stored() == (if spec.Ok? then spec.value else before)
      && (spec.Err? ==> r == Err(spec.error))
    }

    method Increment() returns (r: Result<(), Fault>)
      modifies this`revision
      ensures r.Ok? <==> old(revision) < MAX_U64
      ensures revision == if r.Ok? then old(revision) + 1 else old(revision)
      ensures r.Err? ==> r.error == CounterOverflow
    {
      if revision == MAX_U64 {
        return Err(CounterOverflow);
      }
      revision := revision + 1;
      return Ok(());
    }

    method AddOne(evidence: Id)
      modifies this`evidenceIds
      ensures evidenceIds == AddEvidence(old(evidenceIds), evidence)
    {
      if evidence !in evidenceIds {
        evidenceIds := Sort(evidenceIds + [evidence]);
      }
    }

    method AddEach(evidence: seq<Id>)
      modifies this`evidenceIds
      ensures evidenceIds == AddAll(old(evidenceIds), evidence)
    {
      for i := 0 to |evidence|
        invariant AddAll(evidenceIds, evidence[i..]) == AddAll(old(evidenceIds), evidence)
      {
        assert evidence[i..][1..] == evidence[i + 1..];
        AddOne(evidence[i]);
      }
    }

    method Quarantine() returns (r: Result<(), Fault>)
      modifies this
      ensures Performed(old(Stored()), Call.Quarantine, r)
    {
      if disposition != Quarantined {
        r := Increment();
        if r.Err? { return; }
        disposition := Quarantined;
      }
      r := Ok(());
    }

    method Dispute() returns (r: Result<(), Fault>)
      modifies this
      ensures Performed(old(Stored()), Call.Dispute, r)
    {
      if integrity != Disputed {
        r := Increment();
        if r.Err? { return; }
        integrity := Disputed;
      }
      disposition := Quarantined;
      if phase != Settled {
        phase := Reconciling;
        knowledge := Unknown;
      }
      r := Ok(());
    }

    method Sent() returns (r: Result<(), Fault>)
      modifies this
      ensures Performed(old(Stored()), Call.Sent, r)
    {
      if phase != Phase.Admitted || knowledge != NotSent {
        return Err(InvalidTransition);
      }
      r := Increment();
      if r.Err? { return; }
      phase := Active;
      knowledge := MayHaveExecuted;
    }

    method LoseContinuity() returns (r: Result<(), Fault>)
      modifies this
      ensures Performed(old(Stored()), Call.LoseContinuity, r)
    {
      if phase == Settled {
        return Ok(());
      }
      r := Increment();
      if r.Err? { return; }
      phase := Reconciling;
      knowledge := Unknown;
      disposition := Quarantined;
    }

    method ObservedRunning(evidence: Id) returns (r: Result<(), Fault>)
      modifies this
      ensures Performed(old(Stored()), Call.ObservedRunning(evidence), r)
    {
      if phase == Settled {
        return Err(InvalidTransition);
      }
      ghost var before := Stored();
      r := Increment();
      if r.Err? { return; }
      knowledge := Running;
      if phase != Reconciling {
        phase := Active;
      }
      ghost var unproven := Stored();
      AddOne(evidence);
      assert Stored() == unproven.(evidence := AddEvidence(before.evidence, evidence));
    }

    method Conclude(result: Outcome, evidence: seq<Id>) returns (r: Result<(), Fault>)
      modifies this
      ensures Performed(old(Stored()), Call.Conclude(result, evidence), r)
    {
      if result == NoOutcome || evidence == [] {
        return Err(InvalidInput);
      }
      if outcome == result && Known(evidenceIds, evidence) {
        return Ok(());
      }
      ghost var before := Stored();
      r := Increment();
      if r.Err? { return; }
      ghost var bumped := Stored();
      AddEach(evidence);
      assert Stored() == bumped.(evidence := AddAll(before.evidence, evidence));
      SettleOrDispute(result);
    }

    method SettleOrDispute(result: Outcome)
      modifies this
      ensures Stored() == Concluded(old(Stored()), result)
    {
      if phase == Settled && outcome != result {
        integrity := Disputed;
        disposition := Quarantined;
        return;
      }
      phase := Settled;
      outcome := result;
      knowledge := FinalKnowledge(result);
      if result == Unresolved {
        disposition := Quarantined;
      }
    }

    method Release(conditions: ReleaseConditions, evidence: seq<Id>) returns (r: Result<(), Fault>)
      modifies this
      ensures Performed(old(Stored()), Call.Release(conditions, evidence), r)
    {
      if phase != Settled || integrity == Disputed || !conditions.noResidualNative
         || !conditions.controlHandoverConfirmed || !conditions.supportHandoverConfirmed || evidence == [] {
        return Err(InvalidTransition);
      }
      ghost var before := Stored();
      r := Increment();
      if r.Err? { return; }
      disposition := Released;
      ghost var unproven := Stored();
      AddEach(evidence);
      assert Stored() == unproven.(evidence := AddAll(before.evidence, evidence));
    }
  }
}
