/** The transactional store behind the control journal: revision-checked rows, key-ordered scans and a
    control log (crates/rx-ports/src/lib.rs, crates/rx-storage/src/lib.rs). Content hashes are free
    constructors, so they are injective; documents are kept decoded. */
module Store {
  import opened Base
  import Op = Operations

  datatype Family =
    | CellFamily | WorkFamily | RunFamily | AttemptFamily | MandateFamily | PartFamily | PermitFamily
    | ResourceFamily | CheckpointFamily | CaseFamily | CaseAckFamily | ProcedureRecordFamily | ClearanceFamily
    | RunLiveFamily | RunCheckpointFamily | ArtifactFamily | CheckpointArtifactFamily
    | AdmissionReceiptFamily | ActivationFamily | EvidenceFamily | InstallationFamily
    | ControlJournalFamily | CheckpointArtifactsFamily | OtherFamily(name: string)

  datatype Schema =
    | ClearanceSchema | CellSchema | WorkSchema | RunSchema | StartAttemptSchema | MandateSchema
    | PartAttemptSchema | PermitSchema | ResourceSchema | InterventionCaseSchema
    | CaseAcknowledgmentSchema | ProcedureRecordSchema | ProcessCheckpointSchema
    | LiveIndexSchema | RunSnapshotSchema | ExecutorStateSchema | ArtifactRefSchema | ReceiptSchema
    | ActivationSchema | EvidenceSchema | InstallationSchema | VersionSchema | HostReceiptSchema
    | OtherSchema(name: string)

  datatype EntityKind =
    | Checkpoint | Cell | Work | Run | StartAttempt | Mandate | PartAttempt | Permit | Resource
    | InterventionCase | ProcedureRecord | Clearance

  /** The identity a key is derived from. */
  datatype Ident =
    | IdOf(id: Id) | NameOf(name: Name) | Visit(run: Id, visit: nat) | ContentOf(digest: Digest)
    | OwnedBy(run: Id, digest: Digest) | Raw(text: string)

  datatype Key = Key(family: Family, ident: Ident)

  datatype RunState = Prepared | Executing | Paused | RecoveryRequired | Completed | Abandoned

  datatype RunValue = RunValue(id: Id, cell: Name, state: RunState, rest: nat)

  datatype WorkValue = WorkValue(
    operation: Op.Snapshot, intent: nat, cell: Name, run: Id, part: Option<Id>, activation: Id, slot: Name, rest: nat)

  datatype Slot = Slot(slot: Name, operation: Id)

  /** Nodes are named by their rank in name order. */
  datatype ActivationValue = ActivationValue(
    id: Id, run: Id, part: Option<Id>, node: nat, visit: nat, slots: seq<Slot>)

  datatype SlotSnapshot = SlotSnapshot(slot: Name, operation: Id, intentDigest: nat)
  datatype ActivationSnapshot = ActivationSnapshot(id: Id, node: nat, visit: nat, slots: seq<SlotSnapshot>)
  datatype CheckpointValue = CheckpointValue(run: Id, visit: nat, rest: nat)

  datatype ExecutorState = ExecutorState(
    run: RunValue, revision: nat, activations: seq<ActivationSnapshot>, checkpoints: seq<CheckpointValue>)

  /** Canonical bytes of a state, and their digest. */
  datatype CanonicalBytes = CanonicalBytes(content: ExecutorState)
  datatype Digest = Sha256(bytes: CanonicalBytes)

  datatype ArtifactRef = ArtifactRef(sha: Digest, schema: Schema, size: nat)
  datatype CheckpointView = CheckpointView(
    run: Id, revision: nat, schema: Schema, payload: ArtifactRef, activations: seq<ActivationSnapshot>)
  datatype RunSnapshot = RunSnapshot(revision: nat, run: RunValue, checkpoint: CheckpointView)

  datatype AdmissionReceipt = AdmissionReceipt(
    operation: Id, intent: nat, operationRevision: nat, journal: Id, sequence: nat)

  /** A stored document; `Plain` stands for a value its schema's decoder refuses or never reads. */
  datatype Document =
    | RunDoc(run: RunValue)
    | WorkDoc(work: WorkValue)
    | CheckpointDoc(checkpoint: CheckpointValue)
    | ActivationDoc(activation: ActivationValue)
    | LiveDoc(cell: Name, runs: set<Id>)
    | SnapshotDoc(snapshot: RunSnapshot)
    | StateDoc(state: ExecutorState)
    | OwnerDoc(reference: ArtifactRef)
    | ReceiptDoc(receipt: AdmissionReceipt)
    | EvidenceDoc(id: Id, operation: Id)
    | HostReceiptDoc(operation: Id)
    | InstallationDoc(journal: Id)
    | Plain(schema: Schema, payload: nat)

  function SchemaOf(d: Document): Schema {
    match d
    case RunDoc(_) => RunSchema
    case WorkDoc(_) => WorkSchema
    case CheckpointDoc(_) => ProcessCheckpointSchema
    case ActivationDoc(_) => ActivationSchema
    case LiveDoc(_, _) => LiveIndexSchema
    case SnapshotDoc(_) => RunSnapshotSchema
    case StateDoc(_) => ExecutorStateSchema
    case OwnerDoc(_) => ArtifactRefSchema
    case ReceiptDoc(_) => ReceiptSchema
    case EvidenceDoc(_, _) => EvidenceSchema
    case HostReceiptDoc(_) => HostReceiptSchema
    case InstallationDoc(_) => InstallationSchema
    case Plain(schema, _) => schema
  }

  datatype Record = Record(key: Key, revision: nat, document: Document)

  datatype ChangeKind =
    | Created | Changed | SnapshotSeed | EvidenceRecorded | ReceiptRecorded | IntegrityDisputed

  datatype ControlEvent = ControlEvent(kind: EntityKind, change: ChangeKind, entity: Record, evidence: set<Id>)

  datatype StoreError = NotFound | Integrity | RevisionConflict | Invalid | KeyConflict

  type Rows = map<Key, Record>

  function Find(rows: Rows, k: Key): Option<Record> {
    if k in rows then Some(rows[k]) else None
  }

  function RevisionOf(r: Option<Record>): Option<nat> {
    if r.Some? then Some(r.value.revision) else None
  }

  const MAX_REVISION: nat := 0x7FFF_FFFF_FFFF_FFFF

  /** A revision-checked write. */
  function PutRow(rows: Rows, k: Key, expected: Option<nat>, document: Document): Result<Record, StoreError> {
    if RevisionOf(Find(rows, k)) != expected then Err(RevisionConflict) else
    var next := (if expected.Some? then expected.value else 0) + 1;
    if next > MAX_REVISION then Err(Integrity) else Ok(Record(k, next, document))
  }

  /** A write needs the revision that is there, or none where there is no row, and gives the next one, starting at 1. */
  lemma WritesCountUp(rows: Rows, k: Key, expected: Option<nat>, document: Document)
    ensures var at := if k in rows then rows[k].revision else 0;
      && (PutRow(rows, k, expected, document).Ok? <==>
            (k in rows <==> expected.Some?) && (expected.Some? ==> expected.value == at) && at + 1 <= MAX_REVISION)
      && (PutRow(rows, k, expected, document).Ok? ==> PutRow(rows, k, expected, document).value == Record(k, at + 1, document))
  {
  }

  function RevisionAt(rows: Rows, k: Key): nat { if k in rows then rows[k].revision else 0 }

  /** The row can be written once more. */
  predicate HasRoom(rows: Rows, k: Key) { RevisionAt(rows, k) < MAX_REVISION }

  /** Every row sits under its own key. */
  predicate Keyed(rows: Rows) {
    forall k | k in rows :: rows[k].key == k
  }

  /** `recs` is the scan of a family: all its rows and nothing else, in key order. */
  ghost predicate IsScan(rows: Rows, order: Key -> nat, family: Family, recs: seq<Record>) {
    && (forall r | r in recs :: r.key.family == family && r.key in rows && rows[r.key] == r)
    && (forall k | k in rows && k.family == family :: rows[k] in recs)
    && AscendingBy(order, recs)
  }

  ghost predicate AscendingBy(order: Key -> nat, recs: seq<Record>) {
    forall i, j | 0 <= i < j < |recs| :: order(recs[i].key) < order(recs[j].key)
  }

  ghost predicate Injective(order: Key -> nat) {
    forall a, b :: order(a) == order(b) ==> a == b
  }

  /** The log folded by key: the last event of a key wins. */
  function Replay(log: seq<ControlEvent>): map<Key, Record>
    decreases |log|
  {
    if log == [] then map[] else
    var last := log[|log| - 1].entity;
    Replay(log[..|log| - 1])[last.key := last]
  }

  lemma {:induction false} ReplayLast(log: seq<ControlEvent>, k: Key, i: nat)
    requires i < |log| && log[i].entity.key == k
    requires forall j | i < j < |log| :: log[j].entity.key != k
    ensures k in Replay(log) && Replay(log)[k] == log[i].entity
    decreases |log|
  {
    if i < |log| - 1 {
      ReplayLast(log[..|log| - 1], k, i);
    }
  }

  lemma {:induction false} ReplayUntouched(log: seq<ControlEvent>, news: seq<ControlEvent>, k: Key)
    requires forall j | 0 <= j < |news| :: news[j].entity.key != k
    ensures k in Replay(log + news) <==> k in Replay(log)
    ensures k in Replay(log) ==> Replay(log + news)[k] == Replay(log)[k]
    decreases |news|
  {
    if news == [] {
      assert log + news == log;
    } else {
      var front := news[..|news| - 1];
      assert (log + news)[..|log + news| - 1] == log + front;
      ReplayUntouched(log, front, k);
    }
  }

  /** A unit of work on a private copy of the rows and the control log; committing publishes both. */
  class Transaction {
    var rows: Rows
    var log: seq<ControlEvent>
    const order: Key -> nat

    constructor (rows: Rows, log: seq<ControlEvent>, order: Key -> nat)
      ensures this.rows == rows && this.log == log && this.order == order
    {
      this.rows, this.log, this.order := rows, log, order;
    }

    function Get(k: Key): Option<Record>
      reads this
    {
      Find(rows, k)
    }

    method Put(k: Key, expected: Option<nat>, document: Document) returns (r: Result<Record, StoreError>)
      modifies this`rows
      ensures r == PutRow(old(rows), k, expected, document)
      ensures rows == if r.Ok? then old(rows)[k := r.value] else old(rows)
    {
      var current := Get(k);
      if RevisionOf(current) != expected {
        return Err(RevisionConflict);
      }
      var revision := (if expected.Some? then expected.value else 0) + 1;
      if revision > MAX_REVISION {
        return Err(Integrity);
      }
      var record := Record(k, revision, document);
      rows := rows[k := record];
      return Ok(record);
    }

    /** Appending a control event returns its sequence number, counted from one. */
    method AppendControl(event: ControlEvent) returns (sequence: nat)
      modifies this`log
      ensures log == old(log) + [event] && sequence == |log|
    {
      log := log + [event];
      sequence := |log|;
    }

    method Scan(family: Family) returns (recs: seq<Record>)
      requires Keyed(rows) && Injective(order)
      ensures IsScan(rows, order, family, recs)
    {
      recs := [];
      var left := set k | k in rows && k.family == family;
      while left != {}
        invariant forall k | k in left :: k in rows && k.family == family
        invariant forall r | r in recs ::
          r.key.family == family && r.key in rows && rows[r.key] == r && r.key !in left
        invariant forall k | k in rows && k.family == family :: k in left || rows[k] in recs
        invariant AscendingBy(order, recs)
        decreases left
      {
        var k :| k in left;
        left := left - {k};
        InKeyOrderAdds(recs, rows[k], order);
        InKeyOrderAscends(recs, rows[k], order);
        recs := InKeyOrder(recs, rows[k], order);
      }
    }
  }

  function InKeyOrder(recs: seq<Record>, r: Record, order: Key -> nat): seq<Record> {
    if recs == [] || order(r.key) < order(recs[0].key) then [r] + recs
    else [recs[0]] + InKeyOrder(recs[1..], r, order)
  }

  lemma {:induction false} InKeyOrderAdds(recs: seq<Record>, r: Record, order: Key -> nat)
    ensures forall x :: x in InKeyOrder(recs, r, order) <==> x in recs || x == r
    decreases |recs|
  {
    if recs != [] && order(r.key) >= order(recs[0].key) {
      InKeyOrderAdds(recs[1..], r, order);
      assert recs == [recs[0]] + recs[1..];
    }
  }

  lemma AscendingCons(order: Key -> nat, first: Record, rest: seq<Record>)
    requires AscendingBy(order, rest)
    requires forall x | x in rest :: order(first.key) < order(x.key)
    ensures AscendingBy(order, [first] + rest)
  {
    var all := [first] + rest;
    forall i, j | 0 <= i < j < |all|
      ensures order(all[i].key) < order(all[j].key)
    {
      assert all[j] == rest[j - 1] && rest[j - 1] in rest;
    }
  }

  lemma AscendingHead(order: Key -> nat, recs: seq<Record>)
    requires AscendingBy(order, recs) && recs != []
    ensures AscendingBy(order, recs[1..])
    ensures forall x | x in recs[1..] :: order(recs[0].key) < order(x.key)
  {
    forall x | x in recs[1..]
      ensures order(recs[0].key) < order(x.key)
    {
      var j :| 0 <= j < |recs| - 1 && recs[1..][j] == x;
      assert recs[j + 1] == x;
    }
  }

  lemma {:induction false} InKeyOrderAscends(recs: seq<Record>, r: Record, order: Key -> nat)
    requires AscendingBy(order, recs)
    requires forall x | x in recs :: order(x.key) != order(r.key)
    ensures AscendingBy(order, InKeyOrder(recs, r, order))
    decreases |recs|
  {
    if recs == [] {
    } else {
      var first, rest := recs[0], recs[1..];
      AscendingHead(order, recs);
      assert first in recs && forall x | x in rest :: x in recs;
      if order(r.key) < order(first.key) {
        assert forall x | x in recs :: x == first || x in rest;
        AscendingCons(order, r, recs);
      } else {
        InKeyOrderAscends(rest, r, order);
        InKeyOrderAdds(rest, r, order);
        AscendingCons(order, first, InKeyOrder(rest, r, order));
      }
    }
  }
}
