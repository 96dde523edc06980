/** What each event of a committed unit of work says about how its entity changed, from the commands of the unit and
    the rows before and after it (crates/rx-application/src/control_journal.rs, `Tracking::finish`). */
module JournalChanges {
  import opened Base
  import opened Store
  import opened Checkpoints
  import opened Journal
  import opened UnitOfWork
  import opened JournaledStore
  import Op = Operations

  // ---------------------------------------------------------------- what the commands did

  /** A command writes a control entity at the key. */
  ghost predicate Wrote(commands: seq<Command>, k: Key) {
    exists c | c in commands :: c.Write? && c.key == k && EntityKindOf(SchemaOf(c.document)).Some?
  }

  /** A command writes this native evidence for the operation. */
  ghost predicate WroteEvidence(commands: seq<Command>, operation: Id, id: Id) {
    exists c | c in commands :: c.Write? && c.key.family == EvidenceFamily && c.document == EvidenceDoc(id, operation)
  }

  /** A command appends a host receipt for the operation. */
  ghost predicate AppendedReceipt(commands: seq<Command>, operation: Id) {
    Append(HostReceiptDoc(operation)) in commands
  }

  /** The event says how the entity at its key came to be what it is: a disputed or restored integrity goes first, then
      native evidence, then a host receipt; otherwise a seed tells what no command wrote, and all else was there before
      or was not. */
  ghost predicate ChangeTold(rows: Rows, later: Rows, commands: seq<Command>, e: ControlEvent) {
    var k := e.entity.key;
    && k in later
    && var plain := if INITIALIZED !in rows && !Wrote(commands, k) then SnapshotSeed else if k in rows then Changed else Created;
    if e.kind != Work then e.change == plain && e.evidence == {} else
    && later[k].document.WorkDoc?
    && var operation := later[k].document.work.operation;
    && var evidenced := exists id :: WroteEvidence(commands, operation.id, id);
    && (e.change == IntegrityDisputed <==>
          k in rows && rows[k].document.WorkDoc? && rows[k].document.work.operation.integrity != operation.integrity)
    && (e.change != IntegrityDisputed ==>
          && (e.change == EvidenceRecorded <==> evidenced)
          && (e.change == ReceiptRecorded <==> !evidenced && AppendedReceipt(commands, operation.id))
          && (!evidenced && !AppendedReceipt(commands, operation.id) ==> e.change == plain))
    && forall id :: id in e.evidence <==> WroteEvidence(commands, operation.id, id)
  }

  // ---------------------------------------------------------------- the bookkeeping says the same

  lemma {:induction false} TouchedIsWritten(commands: seq<Command>, k: Key)
    ensures k in Touched(commands) <==> Wrote(commands, k)
    decreases |commands|
  {
    if commands != [] {
      var front, last := commands[..|commands| - 1], commands[|commands| - 1];
      TouchedIsWritten(front, k);
      assert forall c :: c in commands <==> c in front || c == last;
    }
  }

  lemma {:induction false} ReceiptedIsAppended(commands: seq<Command>, operation: Id)
    ensures operation in Receipted(commands) <==> AppendedReceipt(commands, operation)
    decreases |commands|
  {
    if commands != [] {
      var front, last := commands[..|commands| - 1], commands[|commands| - 1];
      ReceiptedIsAppended(front, operation);
      assert forall c :: c in commands <==> c in front || c == last;
    }
  }

  lemma {:induction false} EvidenceIsWritten(commands: seq<Command>, operation: Id)
    ensures var noted := EvidenceIn(commands);
      && (forall id :: operation in noted && id in noted[operation] <==> WroteEvidence(commands, operation, id))
      && (operation in noted <==> exists id :: WroteEvidence(commands, operation, id))
    decreases |commands|
  {
    if commands != [] {
      var front, last := commands[..|commands| - 1], commands[|commands| - 1];
      EvidenceIsWritten(front, operation);
      forall id
        ensures WroteEvidence(commands, operation, id) <==> WroteEvidence(front, operation, id) || WroteEvidence([last], operation, id)
      {
        assert forall c :: c in commands <==> c in front || c in [last];
      }
      LastEvidence(last, operation);
    }
  }

  lemma LastEvidence(c: Command, operation: Id)
    ensures forall id :: WroteEvidence([c], operation, id) <==>
      c.Write? && c.key.family == EvidenceFamily && c.document == EvidenceDoc(id, operation)
  {
    forall id
      ensures WroteEvidence([c], operation, id) <==>
        c.Write? && c.key.family == EvidenceFamily && c.document == EvidenceDoc(id, operation)
    {
      assert c in [c];
    }
  }

  /** A control entity that no command writes stays as it was. */
  lemma {:induction false} UnwrittenStays(rows: Rows, commands: seq<Command>, k: Key)
    requires Plainly(rows, commands).Ok? && (forall c | c in commands :: CommandFits(c))
    requires KeyKind(k.family).Some? && !Wrote(commands, k)
    ensures Find(Plainly(rows, commands).value, k) == Find(rows, k)
    decreases |commands|
  {
    hide KeyKind, EntityKindOf, SchemaOf, PutRow;
    if commands != [] {
      var front, last := commands[..|commands| - 1], commands[|commands| - 1];
      assert last in commands && forall c | c in front :: c in commands;
      UnwrittenStays(rows, front, k);
    }
  }

  // ---------------------------------------------------------------- the law

  lemma EventIsClassified(rows: Rows, log: seq<ControlEvent>, later: Rows, more: seq<ControlEvent>, commands: seq<Command>, i: nat)
    requires Done(rows, log, later, more, commands) && Healthy(later, more) && |log| <= i < |more|
    ensures var e := more[i]; var k := e.entity.key;
      && k in later && later[k].key == k && KeyKind(k.family).Some? && k in Due(rows, commands)
      && EventOf(e, later[k], Originals(rows, commands), INITIALIZED !in rows, Receipted(commands), EvidenceIn(commands))
  {
    hide Consistent, AllFiled, ReceiptsStay, ArtifactsKept, SamePlain, Applies, IndexRight, Due, Originals, Receipted, EvidenceIn,
      JournalKept, ReceiptsKept, ArtifactsSound, EventOf, KindAt, KeyKind, Projects;
    var news := more[|log|..];
    var e := news[i - |log|];
    assert e == more[i];
    assert HasEvent(news, e.entity.key);
    assert ControlAt(later, e.entity.key);
    ControlKinds(later, e.entity.key);
  }

  lemma UnwrittenIsSame(rows: Rows, log: seq<ControlEvent>, later: Rows, more: seq<ControlEvent>, commands: seq<Command>, k: Key)
    requires Done(rows, log, later, more, commands) && KeyKind(k.family).Some? && !Wrote(commands, k)
    ensures Find(later, k) == Find(rows, k)
  {
    hide Consistent, AllFiled, ReceiptsStay, ArtifactsKept, OneEventEach, Classified, IndexRight, Wrote, CommandFits, Plainly;
    UnwrittenStays(rows, commands, k);
    assert !Internal(k.family);
  }

  lemma DueWorkDecodes(rows: Rows, log: seq<ControlEvent>, later: Rows, more: seq<ControlEvent>, commands: seq<Command>, k: Key)
    requires Done(rows, log, later, more, commands) && Commits(rows, commands) && KeyKind(k.family).Some?
    requires k in later && k in Due(rows, commands) && KindAt(later[k]) == Some(Work)
    ensures later[k].document.WorkDoc?
  {
    hide Consistent, AllFiled, ReceiptsStay, ArtifactsKept, OneEventEach, Classified, IndexRight, Applies, Plainly, Due, Originals,
      Receipted, EvidenceIn, KindAt, AllJournalable, Commits;
    CommitsApply(rows, commands);
    CommitsBy(rows, commands);
    var plain := Plainly(rows, commands).value;
    assert !Internal(k.family);
    assert Find(plain, k) == Find(later, k);
    JournalableWorkDecodes(plain, Final(plain, Due(rows, commands)), Originals(rows, commands), INITIALIZED !in rows,
                           Receipted(commands), EvidenceIn(commands), k);
  }

  lemma JournalableWorkDecodes(rows: Rows, changed: map<Key, Record>, original: map<Key, Option<Record>>, seed: bool,
                               receipts: set<Id>, evidence: map<Id, set<Id>>, k: Key)
    requires AllJournalable(rows, changed, original, seed, receipts, evidence) && k in changed && KindAt(changed[k]) == Some(Work)
    ensures changed[k].document.WorkDoc?
  {
    hide KindAt, Capturable, Admits, SameAdmission;
    assert Journalable(rows, changed[k], original, seed, receipts, evidence);
  }

  /** What the classification comes to, for a work and for anything else. */
  lemma WorkChange(rows: Rows, r: Record, commands: seq<Command>)
    requires r.document.WorkDoc?
    ensures var operation := r.document.work.operation;
      var change := ChangeOf(Work, r, Originals(rows, commands), INITIALIZED !in rows, Receipted(commands), EvidenceIn(commands));
      && (change == IntegrityDisputed <==>
            r.key in Touched(commands) && r.key in rows && rows[r.key].document.WorkDoc?
            && rows[r.key].document.work.operation.integrity != operation.integrity)
      && (change == IntegrityDisputed || change == (
            if operation.id in EvidenceIn(commands) then EvidenceRecorded
            else if operation.id in Receipted(commands) then ReceiptRecorded
            else if INITIALIZED !in rows && r.key !in Touched(commands) then SnapshotSeed
            else if r.key in Touched(commands) && r.key !in rows then Created
            else Changed))
  {
    hide Touched, Receipted, EvidenceIn;
  }

  lemma OtherChange(rows: Rows, kind: EntityKind, r: Record, commands: seq<Command>)
    requires kind != Work
    ensures ChangeOf(kind, r, Originals(rows, commands), INITIALIZED !in rows, Receipted(commands), EvidenceIn(commands)) ==
      if INITIALIZED !in rows && r.key !in Touched(commands) then SnapshotSeed
      else if r.key in Touched(commands) && r.key !in rows then Created
      else Changed
  {
    hide Touched, Receipted, EvidenceIn;
  }

  /** Every new event of every committed unit of work tells its change. */
  lemma ChangesAreTold(rows: Rows, log: seq<ControlEvent>, later: Rows, more: seq<ControlEvent>, commands: seq<Command>, i: nat)
    requires Done(rows, log, later, more, commands) && Commits(rows, commands) && Healthy(later, more)
    requires |log| <= i < |more|
    ensures ChangeTold(rows, later, commands, more[i])
  {
    hide Done, Commits, Healthy, Wrote, WroteEvidence, AppendedReceipt, ChangeOf, Touched, Receipted, EvidenceIn, Plainly, KindAt;
    var e := more[i];
    var k := e.entity.key;
    EventIsClassified(rows, log, later, more, commands, i);
    TouchedIsWritten(commands, k);
    if !Wrote(commands, k) { UnwrittenIsSame(rows, log, later, more, commands, k); }
    if e.kind == Work {
      DueWorkDecodes(rows, log, later, more, commands, k);
      var operation := later[k].document.work.operation.id;
      ReceiptedIsAppended(commands, operation);
      EvidenceIsWritten(commands, operation);
      WorkChange(rows, later[k], commands);
    } else {
      OtherChange(rows, e.kind, later[k], commands);
    }
  }
}
