/** The control journal: a unit of work that logs every control entity it changes
    (crates/rx-application/src/control_journal.rs). */
module Journal {
  import opened Base
  import opened Store
  import opened RunIndex
  import opened Checkpoints
  import Op = Operations

  function EntityKindOf(schema: Schema): Option<EntityKind> {
    match schema
    case ClearanceSchema => Some(Clearance)
    case CellSchema => Some(Cell)
    case WorkSchema => Some(Work)
    case RunSchema => Some(EntityKind.Run)
    case StartAttemptSchema => Some(StartAttempt)
    case MandateSchema => Some(Mandate)
    case PartAttemptSchema => Some(PartAttempt)
    case PermitSchema => Some(Permit)
    case ResourceSchema => Some(Resource)
    case InterventionCaseSchema => Some(InterventionCase)
    case CaseAcknowledgmentSchema => Some(ProcedureRecord)
    case ProcedureRecordSchema => Some(ProcedureRecord)
    case ProcessCheckpointSchema => Some(Checkpoint)
    case _ => None
  }

  function KeyKind(family: Family): Option<EntityKind> {
    match family
    case CaseFamily => Some(InterventionCase)
    case CaseAckFamily => Some(ProcedureRecord)
    case ProcedureRecordFamily => Some(ProcedureRecord)
    case ClearanceFamily => Some(Clearance)
    case CellFamily => Some(Cell)
    case WorkFamily => Some(Work)
    case RunFamily => Some(EntityKind.Run)
    case AttemptFamily => Some(StartAttempt)
    case MandateFamily => Some(Mandate)
    case PartFamily => Some(PartAttempt)
    case PermitFamily => Some(Permit)
    case ResourceFamily => Some(Resource)
    case CheckpointFamily => Some(Checkpoint)
    case _ => None
  }

  /** The families of each kind of control entity, and its schemas. */
  lemma FamiliesOfKinds(kind: EntityKind, family: Family)
    ensures KeyKind(family) == Some(kind) <==> family in FamiliesOf(kind)
  {
  }

  lemma SchemasOfKinds(kind: EntityKind, schema: Schema)
    ensures EntityKindOf(schema) == Some(kind) <==> schema in SchemasOf(kind)
  {
  }

  function FamiliesOf(kind: EntityKind): set<Family> {
    match kind
    case Checkpoint => {CheckpointFamily}
    case Cell => {CellFamily}
    case Work => {WorkFamily}
    case Run => {RunFamily}
    case StartAttempt => {AttemptFamily}
    case Mandate => {MandateFamily}
    case PartAttempt => {PartFamily}
    case Permit => {PermitFamily}
    case Resource => {ResourceFamily}
    case InterventionCase => {CaseFamily}
    case ProcedureRecord => {CaseAckFamily, ProcedureRecordFamily}
    case Clearance => {ClearanceFamily}
  }

  function SchemasOf(kind: EntityKind): set<Schema> {
    match kind
    case Checkpoint => {ProcessCheckpointSchema}
    case Cell => {CellSchema}
    case Work => {WorkSchema}
    case Run => {RunSchema}
    case StartAttempt => {StartAttemptSchema}
    case Mandate => {MandateSchema}
    case PartAttempt => {PartAttemptSchema}
    case Permit => {PermitSchema}
    case Resource => {ResourceSchema}
    case InterventionCase => {InterventionCaseSchema}
    case ProcedureRecord => {CaseAcknowledgmentSchema, ProcedureRecordSchema}
    case Clearance => {ClearanceSchema}
  }

  /** The key families read when the journal is first set up. */
  const SEEDED: seq<Family> := [
    CellFamily, WorkFamily, RunFamily, AttemptFamily, MandateFamily, PartFamily, PermitFamily,
    ResourceFamily, CheckpointFamily, CaseFamily, CaseAckFamily, ProcedureRecordFamily, ClearanceFamily]

  /** Seeding reads exactly the families that can hold control entities. */
  lemma SeededFamiliesAreTheControlFamilies(family: Family)
    ensures family in SEEDED <==> KeyKind(family).Some?
  {
    match family
    case CellFamily => assert SEEDED[0] == family;
    case WorkFamily => assert SEEDED[1] == family;
    case RunFamily => assert SEEDED[2] == family;
    case AttemptFamily => assert SEEDED[3] == family;
    case MandateFamily => assert SEEDED[4] == family;
    case PartFamily => assert SEEDED[5] == family;
    case PermitFamily => assert SEEDED[6] == family;
    case ResourceFamily => assert SEEDED[7] == family;
    case CheckpointFamily => assert SEEDED[8] == family;
    case CaseFamily => assert SEEDED[9] == family;
    case CaseAckFamily => assert SEEDED[10] == family;
    case ProcedureRecordFamily => assert SEEDED[11] == family;
    case ClearanceFamily => assert SEEDED[12] == family;
    case _ =>
  }

  const INITIALIZED: Key := Key(ControlJournalFamily, Raw("initialized"))
  const CHECKPOINTS_INITIALIZED: Key := Key(CheckpointArtifactsFamily, Raw("initialized"))
  const INSTALLATION: Key := Key(InstallationFamily, Raw("current"))

  function ReceiptKey(operation: Id): Key { Key(AdmissionReceiptFamily, IdOf(operation)) }

  function KindAt(r: Record): Option<EntityKind> { EntityKindOf(SchemaOf(r.document)) }

  predicate IsControl(r: Record) { KindAt(r).Some? }

  /** Control schemas appear only under their own key family. */
  ghost predicate OwnFamilies(rows: Rows) {
    forall k | k in rows && IsControl(rows[k]) :: KeyKind(k.family) == KindAt(rows[k])
  }

  // ---------------------------------------------------------------- what the journal promises

  /** `entity` is the journalled form of `record`: the record itself, or for a run its snapshot. */
  ghost predicate Projects(record: Record, entity: Record) {
    if KindAt(record) == Some(EntityKind.Run)
    then record.document.RunDoc? && Captures(record, entity)
    else entity == record
  }

  ghost predicate ControlAt(rows: Rows, k: Key) {
    k in rows && IsControl(rows[k])
  }

  /** The log is about exactly the control entities. */
  ghost predicate Covers(rows: Rows, log: seq<ControlEvent>) {
    forall k :: ControlAt(rows, k) <==> k in Replay(log)
  }

  /** If there is a control entity at `k`, replaying the log shows it. */
  ghost predicate ShownAt(rows: Rows, log: seq<ControlEvent>, k: Key) {
    ControlAt(rows, k) ==> k in Replay(log) && Projects(rows[k], Replay(log)[k])
  }

  /** Replaying the log gives exactly the current control entities. */
  ghost predicate Agrees(rows: Rows, log: seq<ControlEvent>) {
    Covers(rows, log) && forall k :: ShownAt(rows, log, k)
  }

  /** The current snapshot of each run is the one in its last event. */
  ghost predicate CurrentAgrees(rows: Rows, log: seq<ControlEvent>) {
    forall id :: RunKey(id) in Replay(log) ==> IsCurrent(rows, id, Replay(log)[RunKey(id)])
  }

  ghost predicate IsCurrent(rows: Rows, id: Id, entity: Record) {
    CurrentKey(id) in rows && rows[CurrentKey(id)].document == entity.document
  }

  /** Before the journal exists there is no log. A log from before there were snapshots may show runs in any form;
      from then on the log agrees with the rows, and so do the current snapshots. */
  ghost predicate JournalKept(rows: Rows, log: seq<ControlEvent>) {
    if INITIALIZED !in rows then log == []
    else if CHECKPOINTS_INITIALIZED !in rows then Covers(rows, log) && forall k: Key | k.family != RunFamily :: ShownAt(rows, log, k)
    else Agrees(rows, log) && CurrentAgrees(rows, log)
  }

  /** The creation of a work, journalled. */
  ghost predicate IsAdmission(e: ControlEvent) {
    e.kind == Work && e.change == Created
  }

  /** The receipt of the admission logged as number `sequence`. */
  ghost predicate HasReceipt(rows: Rows, e: ControlEvent, sequence: nat) {
    && e.entity.document.WorkDoc?
    && var work := e.entity.document.work;
       var k := ReceiptKey(work.operation.id);
    && work.operation.phase == Op.Admitted && work.operation.revision == 1
    && k in rows && rows[k].document.ReceiptDoc?
    && var receipt := rows[k].document.receipt;
       receipt.operation == work.operation.id && receipt.intent == work.intent
       && receipt.operationRevision == 1 && receipt.sequence == sequence
  }

  /** Receipts and admissions in the log correspond one to one. */
  ghost predicate ReceiptsKept(rows: Rows, log: seq<ControlEvent>) {
    && (forall i | 0 <= i < |log| && IsAdmission(log[i]) :: HasReceipt(rows, log[i], i + 1))
    && (forall k | k in rows && k.family == AdmissionReceiptFamily :: NamesAdmission(rows[k], log))
  }

  ghost predicate NamesAdmission(r: Record, log: seq<ControlEvent>) {
    && r.document.ReceiptDoc?
    && var receipt := r.document.receipt;
    && r.key == ReceiptKey(receipt.operation)
    && 1 <= receipt.sequence <= |log| && IsAdmission(log[receipt.sequence - 1])
    && log[receipt.sequence - 1].entity.document.WorkDoc?
    && log[receipt.sequence - 1].entity.document.work.operation.id == receipt.operation
  }

  /** Receipts are one to one: no two admissions name the same operation. */
  lemma AdmissionsAreDistinct(rows: Rows, log: seq<ControlEvent>, i: nat, j: nat)
    requires ReceiptsKept(rows, log) && i < |log| && j < |log| && IsAdmission(log[i]) && IsAdmission(log[j])
    ensures log[i].entity.document.WorkDoc? && log[j].entity.document.WorkDoc?
    ensures log[i].entity.document.work.operation.id == log[j].entity.document.work.operation.id ==> i == j
  {
    assert HasReceipt(rows, log[i], i + 1) && HasReceipt(rows, log[j], j + 1);
  }

  // ---------------------------------------------------------------- the effect of one unit of work

  /** How an entity's record came to be in the unit of work. */
  function ChangeOf(kind: EntityKind, r: Record, original: map<Key, Option<Record>>, seed: bool,
                    receipts: set<Id>, evidence: map<Id, set<Id>>): ChangeKind
  {
    var change :=
      if seed && r.key !in original then SnapshotSeed
      else if r.key in original && original[r.key].None? then Created
      else Changed;
    if kind != Work || !r.document.WorkDoc? then change else
    var work := r.document.work;
    var change :=
      if work.operation.id in evidence then EvidenceRecorded
      else if work.operation.id in receipts then ReceiptRecorded
      else change;
    if r.key in original && original[r.key].Some? && original[r.key].value.document.WorkDoc?
       && original[r.key].value.document.work.operation.integrity != work.operation.integrity
    then IntegrityDisputed else change
  }

  /** Works first seen in a seed, or created together with evidence or a host receipt, are not admissions;
      every other new work is. */
  lemma WhatCountsAsAdmission(
      r: Record, original: map<Key, Option<Record>>, seed: bool, receipts: set<Id>, evidence: map<Id, set<Id>>)
    requires r.document.WorkDoc?
    ensures ChangeOf(Work, r, original, seed, receipts, evidence) == Created <==>
      && r.key in original && original[r.key].None?
      && r.document.work.operation.id !in evidence && r.document.work.operation.id !in receipts
  {
  }

  /** `e` is the event of the changed record `r`. */
  ghost predicate EventOf(e: ControlEvent, r: Record, original: map<Key, Option<Record>>, seed: bool,
                          receipts: set<Id>, evidence: map<Id, set<Id>>)
  {
    && KindAt(r) == Some(e.kind) && Projects(r, e.entity) && e.entity.key == r.key
    && e.change == ChangeOf(e.kind, r, original, seed, receipts, evidence)
    && e.evidence == (if e.kind == Work && r.document.WorkDoc? && r.document.work.operation.id in evidence
                      then evidence[r.document.work.operation.id] else {})
  }

  /** `news` holds one event for each changed control entity in `keys`, with its final record. */
  ghost predicate Journals(news: seq<ControlEvent>, changed: map<Key, Record>, keys: set<Key>,
                           original: map<Key, Option<Record>>, seed: bool, receipts: set<Id>, evidence: map<Id, set<Id>>)
  {
    && (forall i | 0 <= i < |news| ::
          news[i].entity.key in keys && news[i].entity.key in changed
          && EventOf(news[i], changed[news[i].entity.key], original, seed, receipts, evidence))
    && (forall i, j | 0 <= i < j < |news| :: news[i].entity.key != news[j].entity.key)
    && (forall k | k in keys && k in changed && IsControl(changed[k]) :: HasEvent(news, k))
  }

  ghost predicate HasEvent(news: seq<ControlEvent>, k: Key) {
    exists i :: 0 <= i < |news| && news[i].entity.key == k
  }

  /** The bookkeeping of a unit of work that began with the rows `start`. */
  ghost predicate Follows(start: Rows, rows: Rows, changed: map<Key, Record>, original: map<Key, Option<Record>>) {
    && (forall k | k in changed :: k in rows && rows[k] == changed[k] && KeyKind(k.family).Some? && changed[k].key == k)
    && (forall k: Key | KeyKind(k.family).Some? && k !in changed :: Find(rows, k) == Find(start, k))
    && (forall k | ControlAt(start, k) :: ControlAt(rows, k))
    && (forall k | k in original :: original[k] == Find(start, k))
    && (forall k | k in changed :: k in original || Find(start, k) == Some(changed[k]))
  }

  /** Rows of the same control entities. */
  ghost predicate SameControl(rows: Rows, later: Rows) {
    forall k: Key | KeyKind(k.family).Some? :: Find(later, k) == Find(rows, k)
  }

  /** Journalling the changed entities brings replay up to date. */
  lemma CommitAgrees(start: Rows, rows: Rows, later: Rows, log: seq<ControlEvent>, news: seq<ControlEvent>,
                     changed: map<Key, Record>, original: map<Key, Option<Record>>, seed: bool,
                     receipts: set<Id>, evidence: map<Id, set<Id>>)
    requires Follows(start, rows, changed, original) && Journals(news, changed, changed.Keys, original, seed, receipts, evidence)
    requires SameControl(rows, later) && OwnFamilies(rows) && OwnFamilies(later)
    requires !seed ==> Covers(start, log) && forall k | k !in changed :: ShownAt(start, log, k)
    requires seed ==> log == [] && forall k | ControlAt(start, k) :: k in changed
    ensures Agrees(later, log + news)
  {
    hide Journals, Follows, Projects, IsControl, OwnFamilies;
    forall k
      ensures ControlAt(later, k) <==> k in Replay(log + news)
      ensures ShownAt(later, log + news, k)
    {
      ControlStays(rows, later, k);
      if HasEvent(news, k) {
        EventShows(start, rows, log, news, changed, original, seed, receipts, evidence, k);
      } else {
        ReplayUntouched(log, news, k);
        OtherShows(start, rows, news, changed, original, seed, receipts, evidence, k);
        assert !seed && k !in changed ==> ShownAt(start, log, k);
      }
    }
  }

  lemma ControlStays(rows: Rows, later: Rows, k: Key)
    requires SameControl(rows, later) && OwnFamilies(rows) && OwnFamilies(later)
    ensures ControlAt(later, k) <==> ControlAt(rows, k)
    ensures ControlAt(rows, k) ==> later[k] == rows[k]
  {
    hide IsControl, KindAt, KeyKind;
    if ControlAt(rows, k) || ControlAt(later, k) {
      ControlFamily(rows, k);
      ControlFamily(later, k);
      assert Find(later, k) == Find(rows, k);
    }
  }

  lemma ControlFamily(rows: Rows, k: Key)
    requires OwnFamilies(rows)
    ensures ControlAt(rows, k) ==> KeyKind(k.family).Some?
  {
  }

  /** The event of a unit for a key is the last in the log. */
  lemma NewsAreLast(log: seq<ControlEvent>, news: seq<ControlEvent>, i: nat)
    requires i < |news| && forall a, b | 0 <= a < b < |news| :: news[a].entity.key != news[b].entity.key
    ensures var k := news[i].entity.key; k in Replay(log + news) && Replay(log + news)[k] == news[i].entity
  {
    forall j | |log| + i < j < |log + news|
      ensures (log + news)[j].entity.key != news[i].entity.key
    {
      assert (log + news)[j] == news[j - |log|];
    }
    assert (log + news)[|log| + i] == news[i];
    ReplayLast(log + news, news[i].entity.key, |log| + i);
  }

  lemma EventShows(start: Rows, rows: Rows, log: seq<ControlEvent>, news: seq<ControlEvent>,
                   changed: map<Key, Record>, original: map<Key, Option<Record>>, seed: bool,
                   receipts: set<Id>, evidence: map<Id, set<Id>>, k: Key)
    requires Follows(start, rows, changed, original) && Journals(news, changed, changed.Keys, original, seed, receipts, evidence)
    requires HasEvent(news, k)
    ensures k in Replay(log + news) && ControlAt(rows, k) && Projects(rows[k], Replay(log + news)[k])
  {
    hide Projects, KindAt, ChangeOf;
    var i :| 0 <= i < |news| && news[i].entity.key == k;
    NewsAreLast(log, news, i);
    assert EventOf(news[i], changed[k], original, seed, receipts, evidence);
  }

  /** What has no event is what it was. */
  lemma OtherShows(start: Rows, rows: Rows, news: seq<ControlEvent>,
                   changed: map<Key, Record>, original: map<Key, Option<Record>>, seed: bool,
                   receipts: set<Id>, evidence: map<Id, set<Id>>, k: Key)
    requires Follows(start, rows, changed, original) && Journals(news, changed, changed.Keys, original, seed, receipts, evidence)
    requires OwnFamilies(rows) && !HasEvent(news, k)
    ensures ControlAt(rows, k) <==> ControlAt(start, k)
    ensures ControlAt(rows, k) ==> k !in changed && rows[k] == start[k]
  {
    hide Projects, KindAt, EventOf, KeyKind, IsControl;
    ControlFamily(rows, k);
    if ControlAt(rows, k) {
      assert k !in changed;
      assert Find(rows, k) == Find(start, k);
    }
  }
}
