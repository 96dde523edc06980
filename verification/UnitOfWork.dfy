/** The unit of work itself: `Tracking` wraps a transaction, `Journaled` a repository
    (crates/rx-application/src/control_journal.rs). */
module UnitOfWork {
  import opened Base
  import opened Store
  import opened RunIndex
  import opened Checkpoints
  import opened Journal
  import Op = Operations

  /** What an application callback does to the store; reads need no record. Storing an executor state and
      rebuilding the run index are the two operations that write internal rows. */
  datatype Command =
    | Write(key: Key, expected: Option<nat>, document: Document)
    | Append(event: Document)
    | Preserve(state: ExecutorState)
    | Reindex

  /** Families that a callback does not write row by row. */
  predicate Internal(family: Family) {
    || family == RunLiveFamily || family == RunCheckpointFamily || family == ArtifactFamily
    || family == CheckpointArtifactFamily || family == AdmissionReceiptFamily
    || family == ControlJournalFamily || family == CheckpointArtifactsFamily
  }

  /** What callers keep to: control schemas under their own family, no internal rows, and a run under its own key. */
  ghost predicate Permitted(c: Command) {
    c.Write? ==>
      && !Internal(c.key.family)
      && (EntityKindOf(SchemaOf(c.document)).Some? ==> KeyKind(c.key.family) == EntityKindOf(SchemaOf(c.document)))
      && (c.document.RunDoc? ==> c.key == RunKey(c.document.run.id))
  }

  /** The rows between two commands of a unit of work. The run index need not be right. */
  ghost predicate Sound(rows: Rows) {
    Keyed(rows) && OwnFamilies(rows) && ArtifactsSound(rows) && RunsPlaced(rows)
  }

  /** Everything the unit of work keeps. */
  ghost predicate Healthy(rows: Rows, log: seq<ControlEvent>) {
    Sound(rows) && JournalKept(rows, log) && ReceiptsKept(rows, log)
  }

  /** Rows that the commands of a callback leave alone, and stored states, which they only add to. */
  ghost predicate InternalKept(rows: Rows, later: Rows) {
    && (forall k: Key | Internal(k.family) && !AddedTo(k.family) :: Find(later, k) == Find(rows, k))
    && ArtifactsKept(rows, later)
  }

  predicate AddedTo(family: Family) {
    family == RunLiveFamily || family == ArtifactFamily || family == CheckpointArtifactFamily
  }

  /** The document is of the kind its key is for, and decodes where the unit of work reads it. */
  predicate WriteFits(k: Key, document: Document) {
    && (KeyKind(k.family).Some? ==> EntityKindOf(SchemaOf(document)) == KeyKind(k.family))
    && (SchemaOf(document) == RunSchema ==> document.RunDoc?)
    && (SchemaOf(document) == EvidenceSchema && k.family == EvidenceFamily ==> document.EvidenceDoc?)
  }

  /** Control entities are untouched, and nothing that was changed beside them is one. */
  ghost predicate OnlyOtherRows(rows: Rows, later: Rows) {
    && SameControl(rows, later)
    && forall k | k in later && Find(later, k) != Find(rows, k) :: !IsControl(later[k])
  }

  /** Native evidence written in this unit of work, by operation. */
  function Noted(evidence: map<Id, set<Id>>, k: Key, document: Document): map<Id, set<Id>> {
    if document.EvidenceDoc? && k.family == EvidenceFamily
    then evidence[document.operation := (if document.operation in evidence then evidence[document.operation] else {}) + {document.id}]
    else evidence
  }

  /** Every run snapshot in the log validates against the stored artifacts. */
  ghost predicate SnapshotsValid(rows: Rows, log: seq<ControlEvent>) {
    forall i | 0 <= i < |log| :: SnapshotValid(rows, log[i])
  }

  ghost predicate SnapshotValid(rows: Rows, e: ControlEvent) {
    e.entity.document.SnapshotDoc? ==> ValidSnapshot(rows, e.entity.document.snapshot)
  }

  /** The rows that go with an event: the current snapshot of its run, the receipt of its admission under the
      identity of the installed journal. */
  ghost predicate Filed(rows: Rows, e: ControlEvent) {
    && (e.kind == EntityKind.Run ==>
          && e.entity.document.SnapshotDoc?
          && var id := e.entity.document.snapshot.run.id;
          e.entity.key == RunKey(id) && IsCurrent(rows, id, e.entity))
    && (IsAdmission(e) ==>
          && e.entity.document.WorkDoc?
          && var k := ReceiptKey(e.entity.document.work.operation.id);
          && INSTALLATION in rows && rows[INSTALLATION].document.InstallationDoc?
          && k in rows && rows[k].document.ReceiptDoc?
          && rows[k].document.receipt.journal == rows[INSTALLATION].document.journal)
  }

  ghost predicate AllFiled(rows: Rows, log: seq<ControlEvent>) {
    forall i | 0 <= i < |log| :: Filed(rows, log[i])
  }

  /** Receipts are never taken back or rewritten. */
  ghost predicate ReceiptsStay(rows: Rows, later: Rows) {
    forall k | k in rows && k.family == AdmissionReceiptFamily :: k in later && later[k] == rows[k]
  }

  lemma SnapshotsStay(rows: Rows, later: Rows, log: seq<ControlEvent>, more: seq<ControlEvent>)
    requires SnapshotsValid(rows, log) && SnapshotsValid(later, more) && ArtifactsKept(rows, later)
    ensures SnapshotsValid(later, log + more)
  {
    hide ValidSnapshot, ArtifactsKept;
    forall i | 0 <= i < |log + more|
      ensures SnapshotValid(later, (log + more)[i])
    {
      if i < |log| {
        assert SnapshotValid(rows, log[i]);
        if log[i].entity.document.SnapshotDoc? { ValidStaysValid(rows, later, log[i].entity.document.snapshot); }
      } else {
        assert SnapshotValid(later, more[i - |log|]);
      }
    }
  }

  lemma OneSnapshot(rows: Rows, e: ControlEvent)
    requires e.entity.document.SnapshotDoc? ==> ValidSnapshot(rows, e.entity.document.snapshot)
    ensures SnapshotsValid(rows, [e])
  {
  }

  class Tracking {
    const tx: Transaction
    var changed: map<Key, Record>
    var original: map<Key, Option<Record>>
    var receipts: set<Id>
    var evidence: map<Id, set<Id>>
    ghost const start: Rows

    constructor (tx: Transaction)
      ensures this.tx == tx && start == tx.rows
      ensures changed == map[] && original == map[] && receipts == {} && evidence == map[]
    {
      this.tx, this.start := tx, tx.rows;
      changed, original, receipts, evidence := map[], map[], {}, map[];
    }

    ghost predicate Valid()
      reads this, tx
    {
      Sound(tx.rows) && Follows(start, tx.rows, changed, original)
    }

    /** A tracked write: checked against its key family, journalled, and followed by the run index. It succeeds
        when the document fits, the revision is the expected one, and the index can follow. */
    method Put(k: Key, expected: Option<nat>, document: Document)
      returns (r: Result<Record, StoreError>)
      requires Valid() && Permitted(Write(k, expected, document))
      modifies this, tx`rows
      ensures r.Ok? ==> WriteFits(k, document) && PutRow(old(tx.rows), k, expected, document).Ok?
      ensures WriteFits(k, document) && PutRow(old(tx.rows), k, expected, document).Ok? && IndexHasRoom(old(tx.rows), document) ==> r.Ok?
      ensures r.Ok? ==> Valid() && PutRow(old(tx.rows), k, expected, document) == Ok(r.value)
      ensures r.Ok? ==> k in tx.rows && tx.rows[k] == r.value && r.value.document == document
      ensures r.Ok? ==> forall other | other != k && other.family != RunLiveFamily ::
        Find(tx.rows, other) == Find(old(tx.rows), other)
      ensures r.Ok? ==> WriteFollowed(old(tx.rows), k, document, tx.rows)
      ensures r.Ok? ==> changed == if IsControl(r.value) then old(changed)[k := r.value] else old(changed)
      ensures r.Ok? ==> original.Keys == old(original).Keys + if IsControl(r.value) then {k} else {}
      ensures r.Ok? ==> receipts == old(receipts) && evidence == Noted(old(evidence), k, document)
    {
      hide Sound, Follows, Recorded, KeyKind, EntityKindOf, SchemaOf, WriteFollowed, WriteFits, Permitted, IndexHasRoom, Noted,
        RowFits, IndexDecodes, RunsPlaced, PutRow;
      ghost var before, touched := tx.rows, original;
      var kind := KeyKind(k.family);
      FitsBy(k, document);
      if kind.Some? && EntityKindOf(SchemaOf(document)) != kind {
        return Err(Integrity);
      }
      var control := EntityKindOf(SchemaOf(document)).Some?;
      if control && k !in original {
        original := original[k := tx.Get(k)];
      }
      r := tx.Put(k, expected, document);
      if r.Err? { return; }
      PutRowHolds(before, k, expected, document);
      PermittedKinds(k, expected, document);
      WriteFollows(start, before, changed, touched, r.value);
      if control {
        changed := changed[k := r.value];
      }
      if SchemaOf(document) == RunSchema {
        if !document.RunDoc? { return Err(Integrity); }
        PermittedRowFits(k, expected, document, r.value);
        RoomForIndex(before, r.value);
        var indexed := RecordRun(tx, document.run);
        if indexed.Err? { return Err(indexed.error); }
        RunFollows(start, before, changed, original, r.value, tx.rows);
      } else {
        PermittedRowFits(k, expected, document, r.value);
        WriteSound(before, r.value);
        PlainWriteKeepsIndex(before, r.value);
      }
      NotedBy(evidence, k, document);
      if SchemaOf(document) == EvidenceSchema && k.family == EvidenceFamily {
        if !document.EvidenceDoc? { return Err(Integrity); }
        var known := if document.operation in evidence then evidence[document.operation] else {};
        evidence := evidence[document.operation := known + {document.id}];
      }
    }

    /** Store an executor state beside the unit's writes. */
    method Preserve(state: ExecutorState) returns (r: Result<CheckpointView, StoreError>)
      requires Valid()
      modifies tx`rows
      ensures r.Ok? && Valid() && ArtifactsKept(old(tx.rows), tx.rows)
      ensures Readable(tx.rows, state.run.id, Reference(state)) == Ok(state)
      ensures forall k: Key | k.family != ArtifactFamily && k.family != CheckpointArtifactFamily ::
        Find(tx.rows, k) == Find(old(tx.rows), k)
    {
      hide Follows, Readable, ArtifactsKept, ArtifactsSound, RunsPlaced, OwnFamilies, KeyKind;
      ghost var before := tx.rows;
      r := StoreState(tx, state);
      StoredRowsAreOthers(before, tx.rows);
      OtherRowsSound(before, tx.rows);
      OtherRowsFollow(start, before, tx.rows, changed, original);
    }

    /** Rebuild the run index beside the unit's writes. */
    method Reindex() returns (r: Result<(), StoreError>)
      requires Valid() && Injective(tx.order)
      modifies tx`rows
      ensures r.Ok? ==> Valid() && IndexAgrees(tx.rows) && RevisedOnce(old(tx.rows), tx.rows)
      ensures IndexDecodes(old(tx.rows)) && (forall k: Key | k.family == RunLiveFamily :: HasRoom(old(tx.rows), k)) ==> r.Ok?
      ensures forall k: Key | k.family != RunLiveFamily :: Find(tx.rows, k) == Find(old(tx.rows), k)
    {
      hide Follows, ArtifactsSound, OwnFamilies, IndexAgrees, RevisedOnce, KeyKind, IndexDecodes;
      ghost var before := tx.rows;
      PlacedRunsDecode(before);
      r := Rebuild(tx);
      if r.Err? { return; }
      AgreedRowsDecode(tx.rows);
      IndexRowsAreOthers(before, tx.rows);
      OtherRowsSound(before, tx.rows);
      OtherRowsFollow(start, before, tx.rows, changed, original);
    }

    method Append(event: Document) returns (r: Result<(), StoreError>)
      modifies this`receipts
      ensures r.Ok? ==> receipts == old(receipts) + if event.HostReceiptDoc? then {event.operation} else {}
      ensures r.Err? <==> SchemaOf(event) == HostReceiptSchema && !event.HostReceiptDoc?
    {
      if SchemaOf(event) == HostReceiptSchema {
        if !event.HostReceiptDoc? { return Err(Invalid); }
        receipts := receipts + {event.operation};
      }
      return Ok(());
    }

    /** The receipt of the admission that was just logged; it can be given exactly to an admissible work. */
    method RecordAdmission(work: WorkValue, ghost event: ControlEvent, sequence: nat, ghost log: seq<ControlEvent>)
      returns (r: Result<(), StoreError>)
      requires Keyed(tx.rows) && ReceiptsKept(tx.rows, log) && sequence == |log| + 1
      requires IsAdmission(event) && event.entity.document == WorkDoc(work)
      modifies tx`rows
      ensures r.Ok? <==> Admissible(old(tx.rows), work)
      ensures r.Ok? ==> ReceiptKey(work.operation.id) !in old(tx.rows)
      ensures r.Ok? ==> forall j: Key | j != ReceiptKey(work.operation.id) :: Find(tx.rows, j) == Find(old(tx.rows), j)
      ensures r.Ok? ==> var installation := Find(old(tx.rows), INSTALLATION);
        && installation.Some? && installation.value.document.InstallationDoc?
        && Find(tx.rows, ReceiptKey(work.operation.id)) == Some(Record(ReceiptKey(work.operation.id), 1, ReceiptDoc(
             AdmissionReceipt(work.operation.id, work.intent, 1, installation.value.document.journal, sequence))))
      ensures r.Ok? ==> Keyed(tx.rows) && ReceiptsKept(tx.rows, log + [event])
      ensures r.Ok? ==> OnlyProjections(old(tx.rows), tx.rows) && ArtifactsKept(old(tx.rows), tx.rows)
      ensures r.Ok? && ArtifactsSound(old(tx.rows)) ==> ArtifactsSound(tx.rows)
    {
      hide ArtifactsKept, ArtifactsSound, ReceiptsKept, OnlyProjections;
      ghost var before := tx.rows;
      if work.operation.phase != Op.Admitted || work.operation.revision != 1 { return Err(Integrity); }
      var installation := tx.Get(INSTALLATION);
      if installation.None? || !installation.value.document.InstallationDoc? { return Err(Integrity); }
      var receipt := AdmissionReceipt(work.operation.id, work.intent, work.operation.revision,
                                      installation.value.document.journal, sequence);
      var put := tx.Put(ReceiptKey(work.operation.id), None, ReceiptDoc(receipt));
      if put.Err? { return Err(put.error); }
      ReceiptKeeps(before, log, event, tx.rows, put.value);
      r := Ok(());
    }

    /** How the record came about, and the evidence that came with it. */
    method Classify(record: Record, kind: EntityKind, seed: bool) returns (r: Result<(ChangeKind, set<Id>), StoreError>)
      requires KindAt(record) == Some(kind)
      ensures r.Ok? <==> kind != Work || WorkDecodes(record, original)
      ensures r.Ok? ==> r.value.0 == ChangeOf(kind, record, original, seed, receipts, evidence)
      ensures r.Ok? ==> r.value.1 == EvidenceFor(kind, record, evidence)
    {
      hide KindAt;
      var ids: set<Id> := {};
      if kind == Work {
        if !record.document.WorkDoc? { return Err(Integrity); }
        var before := if record.key in original then original[record.key] else None;
        if before.Some? && !before.value.document.WorkDoc? { return Err(Integrity); }
        var operation := record.document.work.operation.id;
        if operation in evidence { ids := evidence[operation]; }
      }
      r := Ok((ChangeOf(kind, record, original, seed, receipts, evidence), ids));
    }

    /** Journal one changed record; a new work also gets its admission receipt. */
    method JournalOne(k: Key, seed: bool) returns (r: Result<(), StoreError>, ghost news: seq<ControlEvent>)
      requires k in changed && changed[k].key == k && Keyed(tx.rows) && Injective(tx.order)
      requires ReceiptsKept(tx.rows, tx.log) && RunsUnderTheirKeys(changed)
      modifies tx
      ensures r.Ok? ==> tx.log == old(tx.log) + news && OnlyProjections(old(tx.rows), tx.rows)
      ensures r.Ok? ==> Keyed(tx.rows) && ReceiptsKept(tx.rows, tx.log)
      ensures r.Ok? ==> ArtifactsKept(old(tx.rows), tx.rows) && AllFiled(tx.rows, news)
      ensures r.Ok? && ArtifactsSound(old(tx.rows)) ==> ArtifactsSound(tx.rows) && SnapshotsValid(tx.rows, news)
      ensures r.Ok? ==> if IsControl(changed[k])
        then |news| == 1 && EventOf(news[0], changed[k], original, seed, receipts, evidence)
        else news == []
      ensures r.Ok? ==> Derives(old(tx.rows), tx.rows, changed[k], original, seed, receipts, evidence)
      ensures ArtifactsSound(old(tx.rows)) ==>
        (r.Ok? <==> Journalable(old(tx.rows), changed[k], original, seed, receipts, evidence))
    {
      hide ArtifactsKept, ArtifactsSound, OnlyCheckpointRows, ReceiptsKept, OnlyProjections, SchemaOf, EntityKindOf,
        Projects, ValidSnapshot, SnapshotsValid, ListsActivations, ListsCheckpoints, Journalable, Derives, Capturable,
        HasRoom, Admissible, ChangeOf, Filed;
      news := [];
      var record := changed[k];
      var found := EntityKindOf(SchemaOf(record.document));
      ghost var rows, log := tx.rows, tx.log;
      Nothing(rows);
      JournalableBy(rows, record, original, seed, receipts, evidence);
      if found.None? {
        assert log + [] == log;
        NoSnapshots(rows);
        DerivesNothing(rows, record, original, seed, receipts, evidence);
        return Ok(()), [];
      }
      var kind := found.value;
      var classified := Classify(record, kind, seed);
      if classified.Err? { return Err(classified.error), []; }
      var (change, ids) := classified.value;
      var projection := record;
      if kind == EntityKind.Run {
        var captured := CaptureRun(tx, record);
        if captured.Err? { return Err(captured.error), []; }
        projection := captured.value;
        CaptureKeepsReceipts(rows, tx.rows, log);
      }
      ProjectsBy(record, projection, kind);
      var event := ControlEvent(kind, change, projection, ids);
      ghost var logged := tx.rows;
      assert ArtifactsSound(rows) ==> SnapshotsValid(logged, [event]) by {
        if ArtifactsSound(rows) { OneSnapshot(logged, event); }
      }
      var sequence := tx.AppendControl(event);
      news := [event];
      if kind == Work && change == Created {
        r := RecordAdmission(record.document.work, event, sequence, log);
        if r.Err? { return; }
        DerivesReceipt(rows, tx.rows, record, original, seed, receipts, evidence);
        NotASnapshot(tx.rows, event);
        ReceiptFiled(rows, tx.rows, event);
      } else {
        PlainEventKeeps(logged, log, event);
        DerivesSnapshot(rows, tx.rows, record, original, seed, receipts, evidence);
        SnapshotFiled(tx.rows, event, record);
      }
      r := Ok(());
    }

    /** Journal every changed record, in key order in the source and in any order here. */
    method Finish(seed: bool) returns (r: Result<(), StoreError>, ghost news: seq<ControlEvent>)
      requires (forall k | k in changed :: changed[k].key == k) && Keyed(tx.rows) && Injective(tx.order)
      requires RunsUnderTheirKeys(changed)
      requires ReceiptsKept(tx.rows, tx.log)
      modifies tx
      ensures ArtifactsSound(old(tx.rows)) ==>
        (r.Ok? <==> AllJournalable(old(tx.rows), changed, original, seed, receipts, evidence))
      ensures r.Ok? ==> tx.log == old(tx.log) + news && OnlyProjections(old(tx.rows), tx.rows)
      ensures r.Ok? ==> Keyed(tx.rows) && ReceiptsKept(tx.rows, tx.log)
      ensures r.Ok? ==> ArtifactsKept(old(tx.rows), tx.rows)
      ensures r.Ok? && ArtifactsSound(old(tx.rows)) ==> ArtifactsSound(tx.rows) && SnapshotsValid(tx.rows, news)
      ensures r.Ok? ==> Journals(news, changed, changed.Keys, original, seed, receipts, evidence)
      ensures r.Ok? ==> AllFiled(tx.rows, news) && ReceiptsStay(old(tx.rows), tx.rows)
      ensures r.Ok? ==> forall id | RunKey(id) !in changed :: Find(tx.rows, CurrentKey(id)) == Find(old(tx.rows), CurrentKey(id))
    {
      hide ArtifactsKept, ArtifactsSound, ReceiptsKept, OnlyProjections, Journals, EventOf, IsControl, SnapshotsValid, Filed,
        Journalable, Derives, Derived, Clears, AllJournalable, RunsUnderTheirKeys;
      news := [];
      ghost var rows, log := tx.rows, tx.log;
      Nothing(rows);
      NoNews(changed, original, seed, receipts, evidence);
      NoSnapshots(rows);
      NothingDerived(rows, changed, original, seed, receipts, evidence);
      var left := changed.Keys;
      ghost var done: set<Key> := {};
      while left != {}
        invariant left <= changed.Keys && done == changed.Keys - left
        invariant tx.log == log + news && OnlyProjections(rows, tx.rows) && Keyed(tx.rows)
        invariant ReceiptsKept(tx.rows, tx.log) && ArtifactsKept(rows, tx.rows)
        invariant ArtifactsSound(rows) ==> ArtifactsSound(tx.rows) && SnapshotsValid(tx.rows, news)
        invariant Journals(news, changed, done, original, seed, receipts, evidence)
        invariant Derived(rows, tx.rows, changed, done, original, seed, receipts, evidence) && AllFiled(tx.rows, news)
        invariant ArtifactsSound(rows) ==> Clears(rows, changed, done, original, seed, receipts, evidence)
        decreases left
      {
        var k :| k in left;
        left := left - {k};
        ghost var before, more := tx.rows, [];
        r, more := JournalOne(k, seed);
        JournalableStill(rows, before, changed, done, k, original, seed, receipts, evidence);
        if r.Err? { return; }
        DerivedMore(rows, before, tx.rows, changed, done, k, original, seed, receipts, evidence);
        FiledMore(before, tx.rows, news, more, changed, done, k, original, seed, receipts, evidence);
        if ArtifactsSound(rows) { SnapshotsStay(before, tx.rows, news, more); }
        ProjectionsChain(rows, before, tx.rows);
        MoreNews(news, more, changed, done, k, original, seed, receipts, evidence);
        assert (log + news) + more == log + (news + more);
        news := news + more;
        done := done + {k};
      }
      assert done == changed.Keys;
      AllCleared(rows, changed, original, seed, receipts, evidence);
      OthersStay(rows, tx.rows, changed, original, seed, receipts, evidence);
      r := Ok(());
    }
  }

  // ---------------------------------------------------------------- when a unit of work can be journalled

  /** A new work that may be admitted: untouched since its admission, in a set-up installation, for the first time. */
  predicate Admissible(rows: Rows, work: WorkValue) {
    && work.operation.phase == Op.Admitted && work.operation.revision == 1
    && INSTALLATION in rows && rows[INSTALLATION].document.InstallationDoc?
    && ReceiptKey(work.operation.id) !in rows
  }

  /** The evidence that belongs to a work in this unit. */
  function EvidenceFor(kind: EntityKind, r: Record, evidence: map<Id, set<Id>>): set<Id> {
    if kind == Work && r.document.WorkDoc? && r.document.work.operation.id in evidence
    then evidence[r.document.work.operation.id] else {}
  }

  /** The work decodes, and so does the one it replaces. */
  predicate WorkDecodes(r: Record, original: map<Key, Option<Record>>) {
    && r.document.WorkDoc?
    && (r.key in original && original[r.key].Some? ==> original[r.key].value.document.WorkDoc?)
  }

  /** The record is the creation of a work in this unit. */
  predicate Admits(r: Record, original: map<Key, Option<Record>>, seed: bool, receipts: set<Id>, evidence: map<Id, set<Id>>) {
    KindAt(r) == Some(Work) && r.document.WorkDoc? && ChangeOf(Work, r, original, seed, receipts, evidence) == Created
  }

  /** The changed record can be journalled on these rows. */
  ghost predicate Journalable(rows: Rows, r: Record, original: map<Key, Option<Record>>, seed: bool,
                              receipts: set<Id>, evidence: map<Id, set<Id>>)
  {
    && (KindAt(r) == Some(Work) ==> WorkDecodes(r, original))
    && (Admits(r, original, seed, receipts, evidence) ==> Admissible(rows, r.document.work))
    && (KindAt(r) == Some(EntityKind.Run) ==>
          r.document.RunDoc? && Capturable(rows, r.document.run) && HasRoom(rows, CurrentKey(r.document.run.id)))
  }

  /** Every changed record can be journalled, and no operation is admitted twice. */
  ghost predicate AllJournalable(rows: Rows, changed: map<Key, Record>, original: map<Key, Option<Record>>, seed: bool,
                                 receipts: set<Id>, evidence: map<Id, set<Id>>)
  {
    Clears(rows, changed, changed.Keys, original, seed, receipts, evidence)
  }

  ghost predicate Clears(rows: Rows, changed: map<Key, Record>, keys: set<Key>, original: map<Key, Option<Record>>,
                         seed: bool, receipts: set<Id>, evidence: map<Id, set<Id>>)
  {
    && (forall k | k in keys && k in changed :: Journalable(rows, changed[k], original, seed, receipts, evidence))
    && (forall k, l | k in keys && l in keys && k in changed && l in changed && k != l ::
          !SameAdmission(changed[k], changed[l], original, seed, receipts, evidence))
  }

  predicate SameAdmission(a: Record, b: Record, original: map<Key, Option<Record>>, seed: bool,
                          receipts: set<Id>, evidence: map<Id, set<Id>>)
  {
    && Admits(a, original, seed, receipts, evidence) && Admits(b, original, seed, receipts, evidence)
    && a.document.work.operation.id == b.document.work.operation.id
  }

  ghost predicate RunsUnderTheirKeys(changed: map<Key, Record>) {
    forall k | k in changed && changed[k].document.RunDoc? :: k == RunKey(changed[k].document.run.id)
  }

  /** What journalling one record derives: its run's current snapshot, or its work's receipt. */
  ghost predicate Derives(rows: Rows, later: Rows, r: Record, original: map<Key, Option<Record>>, seed: bool,
                          receipts: set<Id>, evidence: map<Id, set<Id>>)
  {
    && (forall j: Key | j.family == RunCheckpointFamily ::
          Find(later, j) == Find(rows, j) || (r.document.RunDoc? && j == CurrentKey(r.document.run.id)))
    && (forall j: Key | j.family == AdmissionReceiptFamily ::
          j in later <==> j in rows || (Admits(r, original, seed, receipts, evidence) && j == ReceiptKey(r.document.work.operation.id)))
    && ReceiptsStay(rows, later)
  }

  ghost predicate Derived(rows: Rows, later: Rows, changed: map<Key, Record>, done: set<Key>,
                          original: map<Key, Option<Record>>, seed: bool, receipts: set<Id>, evidence: map<Id, set<Id>>)
  {
    && OnlyProjections(rows, later) && ReceiptsStay(rows, later)
    && (forall j: Key | j.family == RunCheckpointFamily ::
          Find(later, j) == Find(rows, j) || (exists d :: d in done && TakesSnapshot(changed, d, j)))
    && (forall j: Key | j.family == AdmissionReceiptFamily ::
          j in later <==> j in rows || (exists d :: d in done && TakesReceipt(changed, d, j, original, seed, receipts, evidence)))
  }

  predicate TakesSnapshot(changed: map<Key, Record>, d: Key, j: Key) {
    d in changed && changed[d].document.RunDoc? && j == CurrentKey(changed[d].document.run.id)
  }

  predicate TakesReceipt(changed: map<Key, Record>, d: Key, j: Key, original: map<Key, Option<Record>>, seed: bool,
                         receipts: set<Id>, evidence: map<Id, set<Id>>)
  {
    d in changed && Admits(changed[d], original, seed, receipts, evidence) && j == ReceiptKey(changed[d].document.work.operation.id)
  }

  lemma JournalableBy(rows: Rows, r: Record, original: map<Key, Option<Record>>, seed: bool,
                      receipts: set<Id>, evidence: map<Id, set<Id>>)
    ensures KindAt(r).None? ==> Journalable(rows, r, original, seed, receipts, evidence)
    ensures KindAt(r) == Some(Work) ==>
      (Journalable(rows, r, original, seed, receipts, evidence) <==>
         && WorkDecodes(r, original)
         && (ChangeOf(Work, r, original, seed, receipts, evidence) == Created ==> Admissible(rows, r.document.work)))
    ensures KindAt(r) == Some(EntityKind.Run) ==>
      (Journalable(rows, r, original, seed, receipts, evidence) <==>
         r.document.RunDoc? && Capturable(rows, r.document.run) && HasRoom(rows, CurrentKey(r.document.run.id)))
    ensures KindAt(r).Some? && KindAt(r) != Some(Work) && KindAt(r) != Some(EntityKind.Run) ==>
      Journalable(rows, r, original, seed, receipts, evidence)
  {
  }

  lemma DerivesNothing(rows: Rows, r: Record, original: map<Key, Option<Record>>, seed: bool,
                       receipts: set<Id>, evidence: map<Id, set<Id>>)
    requires !Admits(r, original, seed, receipts, evidence)
    ensures Derives(rows, rows, r, original, seed, receipts, evidence)
  {
  }

  lemma DerivesReceipt(rows: Rows, later: Rows, r: Record, original: map<Key, Option<Record>>, seed: bool,
                       receipts: set<Id>, evidence: map<Id, set<Id>>)
    requires Admits(r, original, seed, receipts, evidence) && ReceiptKey(r.document.work.operation.id) in later
    requires ReceiptKey(r.document.work.operation.id) !in rows
    requires forall j: Key | j != ReceiptKey(r.document.work.operation.id) :: Find(later, j) == Find(rows, j)
    ensures Derives(rows, later, r, original, seed, receipts, evidence)
  {
    forall j: Key | j.family == AdmissionReceiptFamily
      ensures j in later <==> j in rows || j == ReceiptKey(r.document.work.operation.id)
    {
      if j != ReceiptKey(r.document.work.operation.id) { assert Find(later, j) == Find(rows, j); }
    }
    forall j | j in rows && j.family == AdmissionReceiptFamily
      ensures j in later && later[j] == rows[j]
    {
      assert Find(later, j) == Find(rows, j);
    }
  }

  lemma DerivesSnapshot(rows: Rows, later: Rows, r: Record, original: map<Key, Option<Record>>, seed: bool,
                        receipts: set<Id>, evidence: map<Id, set<Id>>)
    requires !Admits(r, original, seed, receipts, evidence)
    requires later == rows || (r.document.RunDoc? && OnlyCheckpointRows(rows, later)
               && forall j: Key | j.family == RunCheckpointFamily && j != CurrentKey(r.document.run.id) :: Find(later, j) == Find(rows, j))
    ensures Derives(rows, later, r, original, seed, receipts, evidence)
  {
    forall j: Key | j.family == AdmissionReceiptFamily
      ensures j in later <==> j in rows
      ensures j in rows ==> later[j] == rows[j]
    {
      assert Find(later, j) == Find(rows, j);
    }
  }

  lemma ReceiptFiled(rows: Rows, later: Rows, e: ControlEvent)
    requires IsAdmission(e) && e.entity.document.WorkDoc?
    requires var k := ReceiptKey(e.entity.document.work.operation.id);
      && INSTALLATION in later && later[INSTALLATION].document.InstallationDoc?
      && k in later && later[k].document.ReceiptDoc?
      && later[k].document.receipt.journal == later[INSTALLATION].document.journal
    ensures AllFiled(later, [e])
  {
  }

  lemma SnapshotFiled(rows: Rows, e: ControlEvent, record: Record)
    requires !IsAdmission(e)
    requires e.kind == EntityKind.Run ==>
      && record.document.RunDoc? && Captures(record, e.entity) && record.key == RunKey(record.document.run.id)
      && IsCurrent(rows, record.document.run.id, e.entity)
    ensures AllFiled(rows, [e])
  {
  }

  /** What goes with earlier events of the unit stays when one more record is journalled. */
  lemma FiledMore(before: Rows, later: Rows, news: seq<ControlEvent>, more: seq<ControlEvent>, changed: map<Key, Record>,
                  done: set<Key>, k: Key, original: map<Key, Option<Record>>, seed: bool,
                  receipts: set<Id>, evidence: map<Id, set<Id>>)
    requires k in changed && k !in done && RunsUnderTheirKeys(changed)
    requires Derives(before, later, changed[k], original, seed, receipts, evidence) && OnlyProjections(before, later)
    requires Journals(news, changed, done, original, seed, receipts, evidence)
    requires AllFiled(before, news) && AllFiled(later, more)
    ensures AllFiled(later, news + more)
  {
    hide Filed, Derives, OnlyProjections, Journals, RunsUnderTheirKeys;
    forall i | 0 <= i < |news + more|
      ensures Filed(later, (news + more)[i])
    {
      if i < |news| {
        NewsKey(news, changed, done, original, seed, receipts, evidence, i);
        FiledStays(before, later, news[i], changed, k, original, seed, receipts, evidence);
      } else {
        assert Filed(later, more[i - |news|]);
      }
    }
  }

  lemma NewsKey(news: seq<ControlEvent>, changed: map<Key, Record>, done: set<Key>, original: map<Key, Option<Record>>,
                seed: bool, receipts: set<Id>, evidence: map<Id, set<Id>>, i: nat)
    requires Journals(news, changed, done, original, seed, receipts, evidence) && i < |news|
    ensures news[i].entity.key in done
  {
  }

  lemma FiledStays(before: Rows, later: Rows, e: ControlEvent, changed: map<Key, Record>, k: Key,
                   original: map<Key, Option<Record>>, seed: bool, receipts: set<Id>, evidence: map<Id, set<Id>>)
    requires k in changed && Derives(before, later, changed[k], original, seed, receipts, evidence)
    requires OnlyProjections(before, later) && RunsUnderTheirKeys(changed)
    requires Filed(before, e) && e.entity.key != k
    ensures Filed(later, e)
  {
    hide Admits, OnlyProjections;
    SameInstallation(before, later);
    assert Find(later, INSTALLATION) == Find(before, INSTALLATION);
    if e.kind == EntityKind.Run {
      var j := CurrentKey(e.entity.document.snapshot.run.id);
      assert Find(later, j) == Find(before, j);
    }
  }

  /** Runs that are not in the unit keep their current snapshot. */
  lemma OthersStay(rows: Rows, later: Rows, changed: map<Key, Record>, original: map<Key, Option<Record>>, seed: bool,
                   receipts: set<Id>, evidence: map<Id, set<Id>>)
    requires Derived(rows, later, changed, changed.Keys, original, seed, receipts, evidence) && RunsUnderTheirKeys(changed)
    ensures ReceiptsStay(rows, later)
    ensures forall id | RunKey(id) !in changed :: Find(later, CurrentKey(id)) == Find(rows, CurrentKey(id))
  {
    hide OnlyProjections, TakesReceipt;
    forall id | RunKey(id) !in changed
      ensures Find(later, CurrentKey(id)) == Find(rows, CurrentKey(id))
    {
      assert forall d | d in changed.Keys && TakesSnapshot(changed, d, CurrentKey(id)) :: d == RunKey(id);
    }
  }

  lemma NothingDerived(rows: Rows, changed: map<Key, Record>, original: map<Key, Option<Record>>, seed: bool,
                       receipts: set<Id>, evidence: map<Id, set<Id>>)
    ensures Derived(rows, rows, changed, {}, original, seed, receipts, evidence)
    ensures Clears(rows, changed, {}, original, seed, receipts, evidence)
  {
  }

  lemma AllCleared(rows: Rows, changed: map<Key, Record>, original: map<Key, Option<Record>>, seed: bool,
                   receipts: set<Id>, evidence: map<Id, set<Id>>)
    ensures AllJournalable(rows, changed, original, seed, receipts, evidence) <==>
      Clears(rows, changed, changed.Keys, original, seed, receipts, evidence)
  {
  }

  lemma DerivedMore(rows: Rows, before: Rows, later: Rows, changed: map<Key, Record>, done: set<Key>, k: Key,
                    original: map<Key, Option<Record>>, seed: bool, receipts: set<Id>, evidence: map<Id, set<Id>>)
    requires Derived(rows, before, changed, done, original, seed, receipts, evidence) && k in changed
    requires Derives(before, later, changed[k], original, seed, receipts, evidence)
    requires OnlyProjections(before, later)
    ensures Derived(rows, later, changed, done + {k}, original, seed, receipts, evidence)
  {
    hide Admits, OnlyProjections;
    OnlyProjectionsChain(rows, before, later);
    forall j: Key | j.family == RunCheckpointFamily
      ensures Find(later, j) == Find(rows, j) || (exists d :: d in done + {k} && TakesSnapshot(changed, d, j))
    {
      if Find(later, j) != Find(before, j) {
        assert k in done + {k} && TakesSnapshot(changed, k, j);
      } else if d :| d in done && TakesSnapshot(changed, d, j) {
        assert d in done + {k};
      }
    }
    forall j: Key | j.family == AdmissionReceiptFamily
      ensures j in later <==> j in rows || (exists d :: d in done + {k} && TakesReceipt(changed, d, j, original, seed, receipts, evidence))
    {
      if d :| d in done && TakesReceipt(changed, d, j, original, seed, receipts, evidence) {
        assert d in done + {k};
      }
      if TakesReceipt(changed, k, j, original, seed, receipts, evidence) { assert k in done + {k}; }
    }
  }

  lemma OnlyProjectionsChain(a: Rows, b: Rows, c: Rows)
    requires OnlyProjections(a, b) && OnlyProjections(b, c)
    ensures OnlyProjections(a, c)
  {
    hide IsControl;
    forall k: Key | !CheckpointFamilyOf(k.family) && k.family != AdmissionReceiptFamily
      ensures Find(c, k) == Find(a, k)
    {
      assert Find(c, k) == Find(b, k);
    }
    forall k | k in c && Find(c, k) != Find(a, k)
      ensures !IsControl(c[k])
    {
      if Find(c, k) == Find(b, k) { assert k in b && Find(b, k) != Find(a, k); }
    }
  }

  /** One of the records in `keys` admits the operation that `r` admits. */
  ghost predicate AdmittedBefore(changed: map<Key, Record>, keys: set<Key>, r: Record, original: map<Key, Option<Record>>,
                                 seed: bool, receipts: set<Id>, evidence: map<Id, set<Id>>)
  {
    exists d :: d in keys && d in changed && SameAdmission(changed[d], r, original, seed, receipts, evidence)
  }

  /** What earlier records of the unit derived decides nothing about the next, but for a repeated admission. */
  lemma JournalableStill(rows: Rows, before: Rows, changed: map<Key, Record>, done: set<Key>, k: Key,
                         original: map<Key, Option<Record>>, seed: bool, receipts: set<Id>, evidence: map<Id, set<Id>>)
    requires Derived(rows, before, changed, done, original, seed, receipts, evidence)
    requires k in changed && k !in done && done <= changed.Keys && RunsUnderTheirKeys(changed)
    ensures Clears(rows, changed, done, original, seed, receipts, evidence) ==>
      (Journalable(before, changed[k], original, seed, receipts, evidence) <==>
         Clears(rows, changed, done + {k}, original, seed, receipts, evidence))
    ensures AllJournalable(rows, changed, original, seed, receipts, evidence) ==>
      Clears(rows, changed, done + {k}, original, seed, receipts, evidence)
  {
    hide Derived, Journalable, SameAdmission, RunsUnderTheirKeys;
    JournalableUnlessAdmitted(rows, before, changed, done, k, original, seed, receipts, evidence);
    ClearsMore(rows, changed, done, k, original, seed, receipts, evidence);
  }

  lemma ClearsMore(rows: Rows, changed: map<Key, Record>, done: set<Key>, k: Key,
                   original: map<Key, Option<Record>>, seed: bool, receipts: set<Id>, evidence: map<Id, set<Id>>)
    requires k in changed && k !in done
    ensures Clears(rows, changed, done + {k}, original, seed, receipts, evidence) <==>
      && Clears(rows, changed, done, original, seed, receipts, evidence)
      && Journalable(rows, changed[k], original, seed, receipts, evidence)
      && !AdmittedBefore(changed, done, changed[k], original, seed, receipts, evidence)
  {
    hide Journalable, Admits;
    var more := done + {k};
    assert forall x :: x in more <==> x in done || x == k;
    if Clears(rows, changed, more, original, seed, receipts, evidence) {
      assert k in more;
    }
  }

  lemma JournalableUnlessAdmitted(
      rows: Rows, before: Rows, changed: map<Key, Record>, done: set<Key>, k: Key,
      original: map<Key, Option<Record>>, seed: bool, receipts: set<Id>, evidence: map<Id, set<Id>>)
    requires Derived(rows, before, changed, done, original, seed, receipts, evidence)
    requires k in changed && k !in done && done <= changed.Keys && RunsUnderTheirKeys(changed)
    ensures Journalable(before, changed[k], original, seed, receipts, evidence) <==>
      && Journalable(rows, changed[k], original, seed, receipts, evidence)
      && !AdmittedBefore(changed, done, changed[k], original, seed, receipts, evidence)
  {
    hide Admits, Capturable, Admissible, Derived, RunsUnderTheirKeys, SameAdmission;
    var r := changed[k];
    if r.document.RunDoc? { SnapshotStill(rows, before, changed, done, k, original, seed, receipts, evidence); }
    if Admits(r, original, seed, receipts, evidence) {
      AdmitsWork(r, original, seed, receipts, evidence);
      AdmissibleStill(rows, before, changed, done, k, original, seed, receipts, evidence);
    } else {
      NotAdmittedBefore(changed, done, r, original, seed, receipts, evidence);
    }
  }

  lemma NotAdmittedBefore(changed: map<Key, Record>, keys: set<Key>, r: Record, original: map<Key, Option<Record>>,
                          seed: bool, receipts: set<Id>, evidence: map<Id, set<Id>>)
    requires !Admits(r, original, seed, receipts, evidence)
    ensures !AdmittedBefore(changed, keys, r, original, seed, receipts, evidence)
  {
    hide Admits;
  }

  lemma SnapshotStill(rows: Rows, before: Rows, changed: map<Key, Record>, done: set<Key>, k: Key,
                      original: map<Key, Option<Record>>, seed: bool, receipts: set<Id>, evidence: map<Id, set<Id>>)
    requires Derived(rows, before, changed, done, original, seed, receipts, evidence)
    requires k in changed && k !in done && RunsUnderTheirKeys(changed) && changed[k].document.RunDoc?
    ensures var run := changed[k].document.run;
      && (Capturable(before, run) <==> Capturable(rows, run))
      && (HasRoom(before, CurrentKey(run.id)) <==> HasRoom(rows, CurrentKey(run.id)))
  {
    hide Admits, Capturable, OnlyProjections;
    var run := changed[k].document.run;
    SameCapture(rows, before, run);
    var j := CurrentKey(run.id);
    if d :| d in done && TakesSnapshot(changed, d, j) {
      assert d == RunKey(changed[d].document.run.id) == k;
    }
    assert Find(before, j) == Find(rows, j);
  }

  lemma AdmissibleStill(rows: Rows, before: Rows, changed: map<Key, Record>, done: set<Key>, k: Key,
                        original: map<Key, Option<Record>>, seed: bool, receipts: set<Id>, evidence: map<Id, set<Id>>)
    requires Derived(rows, before, changed, done, original, seed, receipts, evidence) && done <= changed.Keys
    requires k in changed && changed[k].document.WorkDoc? && Admits(changed[k], original, seed, receipts, evidence)
    ensures Admissible(before, changed[k].document.work) <==>
      && Admissible(rows, changed[k].document.work)
      && !AdmittedBefore(changed, done, changed[k], original, seed, receipts, evidence)
  {
    hide Admits, OnlyProjections;
    var r := changed[k];
    var j := ReceiptKey(r.document.work.operation.id);
    assert Find(before, INSTALLATION) == Find(rows, INSTALLATION) by { SameInstallation(rows, before); }
    forall d | d in done && TakesReceipt(changed, d, j, original, seed, receipts, evidence)
      ensures SameAdmission(changed[d], r, original, seed, receipts, evidence)
    {
      AdmitsWork(changed[d], original, seed, receipts, evidence);
    }
    forall d | d in done && d in changed && SameAdmission(changed[d], r, original, seed, receipts, evidence)
      ensures TakesReceipt(changed, d, j, original, seed, receipts, evidence)
    {
    }
    assert j in before <==> j in rows || AdmittedBefore(changed, done, r, original, seed, receipts, evidence);
  }

  lemma AdmitsWork(r: Record, original: map<Key, Option<Record>>, seed: bool, receipts: set<Id>, evidence: map<Id, set<Id>>)
    requires Admits(r, original, seed, receipts, evidence)
    ensures r.document.WorkDoc? && KindAt(r) == Some(Work)
  {
  }

  lemma SameInstallation(rows: Rows, later: Rows)
    requires OnlyProjections(rows, later)
    ensures Find(later, INSTALLATION) == Find(rows, INSTALLATION)
  {
  }

  lemma SameCapture(rows: Rows, later: Rows, run: RunValue)
    requires OnlyProjections(rows, later)
    ensures Capturable(later, run) <==> Capturable(rows, run)
  {
    SameReadings(rows, later, run);
  }

  /** A capture reads activations, works and checkpoints. */
  lemma SameReadings(rows: Rows, later: Rows, run: RunValue)
    requires forall k: Key | k.family == ActivationFamily || k.family == WorkFamily || k.family == CheckpointFamily ::
      Find(later, k) == Find(rows, k)
    ensures Capturable(later, run) <==> Capturable(rows, run)
  {
    forall k: Key | k.family == ActivationFamily || k.family == WorkFamily || k.family == CheckpointFamily
      ensures k in later <==> k in rows
      ensures k in rows ==> later[k] == rows[k]
    {
      assert Find(later, k) == Find(rows, k);
    }
    forall k | k in rows && k.family == ActivationFamily
      ensures ActivationFits(later, run, k) <==> ActivationFits(rows, run, k)
    {
      if rows[k].document.ActivationDoc? {
        var a := rows[k].document.activation;
        forall s | s in a.slots
          ensures SlotMatches(later, a, run.cell, s) <==> SlotMatches(rows, a, run.cell, s)
        {
        }
      }
    }
  }

  /** Rows the journal derives: snapshots, artifacts and admission receipts, never control entities. */
  ghost predicate OnlyProjections(rows: Rows, later: Rows) {
    && (forall k: Key | !CheckpointFamilyOf(k.family) && k.family != AdmissionReceiptFamily :: Find(later, k) == Find(rows, k))
    && (forall k | k in later && Find(later, k) != Find(rows, k) :: !IsControl(later[k]))
  }

  lemma Nothing(rows: Rows)
    ensures OnlyProjections(rows, rows) && ArtifactsKept(rows, rows)
  {
  }

  lemma NoSnapshots(rows: Rows)
    ensures SnapshotsValid(rows, [])
  {
  }

  lemma NotASnapshot(rows: Rows, e: ControlEvent)
    requires !e.entity.document.SnapshotDoc?
    ensures SnapshotsValid(rows, [e])
  {
  }

  lemma ProjectsBy(record: Record, projection: Record, kind: EntityKind)
    requires KindAt(record) == Some(kind)
    requires if kind == EntityKind.Run then record.document.RunDoc? && Captures(record, projection) else projection == record
    ensures Projects(record, projection) && projection.key == record.key
    ensures kind == Work ==> !record.document.RunDoc?
    ensures kind != EntityKind.Run ==> !projection.document.SnapshotDoc?
  {
  }

  lemma CaptureKeepsReceipts(rows: Rows, later: Rows, log: seq<ControlEvent>)
    requires ReceiptsKept(rows, log) && OnlyCheckpointRows(rows, later)
    ensures ReceiptsKept(later, log) && OnlyProjections(rows, later)
  {
    hide NamesAdmission, IsControl;
    forall k: Key | k.family == AdmissionReceiptFamily
      ensures k in later <==> k in rows
      ensures k in rows ==> later[k] == rows[k]
    {
      assert Find(later, k) == Find(rows, k);
    }
    forall i | 0 <= i < |log| && IsAdmission(log[i])
      ensures HasReceipt(later, log[i], i + 1)
    {
      assert HasReceipt(rows, log[i], i + 1);
    }
    OthersAreNoControl(rows, later);
  }

  lemma OthersAreNoControl(rows: Rows, later: Rows)
    requires OnlyCheckpointRows(rows, later)
    ensures OnlyProjections(rows, later)
  {
  }

  /** Logging anything but an admission needs no receipt. */
  lemma PlainEventKeeps(rows: Rows, log: seq<ControlEvent>, event: ControlEvent)
    requires ReceiptsKept(rows, log) && !IsAdmission(event)
    ensures ReceiptsKept(rows, log + [event])
  {
    forall i | 0 <= i < |log + [event]| && IsAdmission((log + [event])[i])
      ensures HasReceipt(rows, (log + [event])[i], i + 1)
    {
      assert i < |log| && (log + [event])[i] == log[i];
    }
    forall k | k in rows && k.family == AdmissionReceiptFamily
      ensures NamesAdmission(rows[k], log + [event])
    {
      assert NamesAdmission(rows[k], log);
    }
  }

  /** Logging an admission together with a receipt that names it. */
  lemma ReceiptKeeps(rows: Rows, log: seq<ControlEvent>, event: ControlEvent, later: Rows, receipt: Record)
    requires ReceiptsKept(rows, log) && IsAdmission(event) && event.entity.document.WorkDoc?
    requires var work := event.entity.document.work;
      && work.operation.phase == Op.Admitted && work.operation.revision == 1
      && ReceiptKey(work.operation.id) !in rows
      && receipt.key == ReceiptKey(work.operation.id) && receipt.document.ReceiptDoc?
      && receipt.document.receipt.operation == work.operation.id && receipt.document.receipt.intent == work.intent
      && receipt.document.receipt.operationRevision == 1 && receipt.document.receipt.sequence == |log| + 1
      && later == rows[ReceiptKey(work.operation.id) := receipt]
    ensures ReceiptsKept(later, log + [event]) && OnlyProjections(rows, later)
    ensures ArtifactsKept(rows, later) && (ArtifactsSound(rows) ==> ArtifactsSound(later))
  {
    var all := log + [event];
    forall i | 0 <= i < |all| && IsAdmission(all[i])
      ensures HasReceipt(later, all[i], i + 1)
    {
      if i < |log| {
        assert all[i] == log[i] && HasReceipt(rows, log[i], i + 1);
      }
    }
    forall k | k in later && k.family == AdmissionReceiptFamily
      ensures NamesAdmission(later[k], all)
    {
      if k != receipt.key { assert NamesAdmission(rows[k], log); }
    }
  }

  lemma PutRowHolds(rows: Rows, k: Key, expected: Option<nat>, document: Document)
    ensures var row := PutRow(rows, k, expected, document);
      row.Ok? ==> row.value.key == k && row.value.document == document
  {
  }

  lemma PermittedKinds(k: Key, expected: Option<nat>, document: Document)
    requires Permitted(Write(k, expected, document))
    requires KeyKind(k.family).Some? ==> EntityKindOf(SchemaOf(document)) == KeyKind(k.family)
    ensures EntityKindOf(SchemaOf(document)) == KeyKind(k.family)
  {
  }

  lemma PermittedRowFits(k: Key, expected: Option<nat>, document: Document, row: Record)
    requires Permitted(Write(k, expected, document)) && row.key == k && row.document == document
    requires EntityKindOf(SchemaOf(document)) == KeyKind(k.family) && (SchemaOf(document) == RunSchema ==> document.RunDoc?)
    ensures RowFits(row) && k.family != RunLiveFamily
    ensures document.RunDoc? <==> k.family == RunFamily
    ensures SchemaOf(document) == RunSchema <==> k.family == RunFamily
  {
  }

  /** The index can follow the document. */
  ghost predicate IndexHasRoom(rows: Rows, document: Document) {
    document.RunDoc? ==> IndexDecodes(rows) && HasRoom(rows, LiveKey(document.run.cell))
  }

  lemma NotedBy(evidence: map<Id, set<Id>>, k: Key, document: Document)
    ensures document.EvidenceDoc? ==> SchemaOf(document) == EvidenceSchema
    ensures Noted(evidence, k, document) ==
      if document.EvidenceDoc? && k.family == EvidenceFamily
      then evidence[document.operation := (if document.operation in evidence then evidence[document.operation] else {}) + {document.id}]
      else evidence
  {
  }

  /** The bookkeeping follows a write whose schema fits its key family; the first time a key is touched,
      its row is still the one the unit of work began with. */
  lemma WriteFollows(start: Rows, rows: Rows, changed: map<Key, Record>, original: map<Key, Option<Record>>, row: Record)
    requires Sound(rows) && Follows(start, rows, changed, original)
    requires KindAt(row) == KeyKind(row.key.family)
    ensures var control := IsControl(row);
      var original' := if control && row.key !in original then original[row.key := Find(rows, row.key)] else original;
      var changed' := if control then changed[row.key := row] else changed;
      Follows(start, rows[row.key := row], changed', original')
  {
  }

  /** A row that fits its key family, and if it is a run sits under its own key. */
  ghost predicate RowFits(row: Record) {
    && KindAt(row) == KeyKind(row.key.family)
    && row.key.family != ArtifactFamily && row.key.family != CheckpointArtifactFamily
    && (row.key.family == RunFamily ==>
          && row.document.RunDoc? && row.key == RunKey(row.document.run.id))
  }

  lemma WriteSound(rows: Rows, row: Record)
    requires Sound(rows) && RowFits(row)
    ensures Sound(rows[row.key := row])
  {
    hide KindAt, KeyKind;
  }

  lemma FitsBy(k: Key, document: Document)
    ensures WriteFits(k, document) <==>
      && (KeyKind(k.family).Some? ==> EntityKindOf(SchemaOf(document)) == KeyKind(k.family))
      && (SchemaOf(document) == RunSchema ==> document.RunDoc?)
      && (SchemaOf(document) == EvidenceSchema && k.family == EvidenceFamily ==> document.EvidenceDoc?)
  {
  }

  /** What becomes of the index: agreement and decodability stay, and no row is written more than once. */
  ghost predicate IndexFollowed(rows: Rows, later: Rows) {
    && (IndexAgrees(rows) ==> IndexAgrees(later))
    && (IndexDecodes(rows) ==> IndexDecodes(later))
    && RevisedOnce(rows, later)
  }

  /** What a write does to it: the same, except that agreement is lost exactly when a live run leaves its cell. */
  ghost predicate WriteFollowed(rows: Rows, k: Key, document: Document, later: Rows) {
    && (IndexAgrees(rows) ==> (IndexAgrees(later) <==> !LeavesCell(rows, k, document)))
    && (IndexDecodes(rows) ==> IndexDecodes(later))
    && RevisedOnce(rows, later)
  }

  lemma PlainWriteKeepsIndex(rows: Rows, row: Record)
    requires row.key.family != RunFamily && row.key.family != RunLiveFamily
    ensures IndexFollowed(rows, rows[row.key := row])
    ensures !row.document.RunDoc? ==> WriteFollowed(rows, row.key, row.document, rows[row.key := row])
  {
    var later := rows[row.key := row];
    SameIndex(rows, later);
  }

  /** The index says the same about the same runs. */
  lemma SameIndex(rows: Rows, later: Rows)
    requires forall k: Key | k.family == RunFamily || k.family == RunLiveFamily :: k in later <==> k in rows
    requires forall k: Key | (k.family == RunFamily || k.family == RunLiveFamily) && k in rows :: later[k] == rows[k]
    ensures IndexFollowed(rows, later)
  {
    if IndexAgrees(rows) {
      forall cell
        ensures Indexed(later, cell) == LiveOf(later, cell)
      {
        SameRuns(rows, later, cell);
        assert Indexed(rows, cell) == LiveOf(rows, cell);
      }
    }
  }

  lemma SameIndexByFind(rows: Rows, later: Rows)
    requires forall k: Key | k.family == RunFamily || k.family == RunLiveFamily :: Find(later, k) == Find(rows, k)
    ensures IndexFollowed(rows, later)
  {
    forall k: Key | k.family == RunFamily || k.family == RunLiveFamily
      ensures k in later <==> k in rows
      ensures k in rows ==> later[k] == rows[k]
    {
      assert Find(later, k) == Find(rows, k);
    }
    SameIndex(rows, later);
  }

  lemma RoomForIndex(rows: Rows, row: Record)
    requires row.document.RunDoc? && row.key.family == RunFamily
    ensures IndexHasRoom(rows, row.document) ==> Recorded(rows[row.key := row], row.document.run).Ok?
  {
    hide Recorded;
    var written := rows[row.key := row];
    if IndexHasRoom(rows, row.document) {
      assert IndexDecodes(written);
      RecordedFits(written, row.document.run);
    }
  }

  /** A written run, followed by its index row. */
  lemma RunFollows(start: Rows, rows: Rows, changed: map<Key, Record>, original: map<Key, Option<Record>>,
                   row: Record, later: Rows)
    requires Sound(rows) && Follows(start, rows[row.key := row], changed, original)
    requires RowFits(row) && row.key.family == RunFamily && row.document.RunDoc?
    requires Recorded(rows[row.key := row], row.document.run) == Ok(later)
    ensures Sound(later) && Follows(start, later, changed, original)
    ensures WriteFollowed(rows, row.key, row.document, later)
    ensures row.key in later && later[row.key] == row
    ensures forall other | other != row.key && other.family != RunLiveFamily :: Find(later, other) == Find(rows, other)
  {
    hide RunsPlaced, Recorded, ArtifactsSound, OwnFamilies, Follows, IndexAgrees, RowFits,
      SameControl, IsControl;
    var written := rows[row.key := row];
    WriteSound(rows, row);
    SoundRows(written);
    RecordedElsewhere(written, row.document.run);
    IndexRowsAreOthers(written, later);
    OtherRowsSound(written, later);
    OtherRowsFollow(start, written, later, changed, original);
    RunWriteKeepsIndex(rows, row);
    assert Find(later, row.key) == Find(written, row.key);
    forall other | other != row.key && other.family != RunLiveFamily
      ensures Find(later, other) == Find(rows, other)
    {
      assert Find(later, other) == Find(written, other);
    }
  }

  lemma SoundRows(rows: Rows)
    requires Sound(rows)
    ensures Keyed(rows) && OwnFamilies(rows) && ArtifactsSound(rows)
  {
  }

  lemma RunWriteKeepsIndex(rows: Rows, row: Record)
    requires Sound(rows) && RowFits(row) && row.key.family == RunFamily
    requires Recorded(rows[row.key := row], row.document.run).Ok?
    ensures WriteFollowed(rows, row.key, row.document, Recorded(rows[row.key := row], row.document.run).value)
  {
    hide Recorded, ArtifactsSound, OwnFamilies, KindAt, KeyKind;
    var written := rows[row.key := row];
    RecordedRevisesOnce(written, row.document.run);
    if IndexAgrees(rows) {
      RecordKeepsAgreement(rows, row);
    }
    if IndexDecodes(rows) {
      assert IndexDecodes(written);
      RecordedFits(written, row.document.run);
    }
  }

  lemma RecordedElsewhere(rows: Rows, run: RunValue)
    requires Keyed(rows) && Recorded(rows, run).Ok?
    ensures var later := Recorded(rows, run).value;
      Keyed(later) && (forall k: Key | k.family != RunLiveFamily :: Find(later, k) == Find(rows, k))
    ensures var later := Recorded(rows, run).value;
      forall k | k in later && k.family == RunLiveFamily && Find(later, k) != Find(rows, k) :: later[k].document.LiveDoc?
  {
  }

  lemma AgreedRowsDecode(rows: Rows)
    requires IndexAgrees(rows)
    ensures forall k | k in rows && k.family == RunLiveFamily :: rows[k].document.LiveDoc?
  {
  }

  /** Index rows are not control entities. */
  lemma IndexRowsAreOthers(rows: Rows, later: Rows)
    requires forall k: Key | k.family != RunLiveFamily :: Find(later, k) == Find(rows, k)
    requires forall k | k in later && k.family == RunLiveFamily && Find(later, k) != Find(rows, k) :: later[k].document.LiveDoc?
    requires ArtifactsSound(rows)
    ensures OnlyOtherRows(rows, later) && ArtifactsSound(later)
  {
    forall k | k in later && (k.family == ArtifactFamily || k.family == CheckpointArtifactFamily)
      ensures k in rows && later[k] == rows[k]
    {
      assert Find(later, k) == Find(rows, k);
    }
  }

  /** Nor are stored states and their ownership. */
  lemma StoredRowsAreOthers(rows: Rows, later: Rows)
    requires OnlyCheckpointRows(rows, later)
    ensures OnlyOtherRows(rows, later)
  {
  }

  lemma PlacedRunsDecode(rows: Rows)
    requires RunsPlaced(rows)
    ensures RunsDecode(rows)
  {
  }

  /** Changes beside the control entities leave the rows sound. */
  lemma OtherRowsSound(rows: Rows, later: Rows)
    requires Sound(rows) && Keyed(later) && ArtifactsSound(later) && OnlyOtherRows(rows, later)
    ensures Sound(later)
  {
    hide IsControl, KindAt, ArtifactsSound;
    forall k | k in later && IsControl(later[k])
      ensures KeyKind(k.family) == KindAt(later[k])
    {
      assert Find(later, k) == Find(rows, k);
    }
    forall k | k in later && k.family == RunFamily
      ensures k in rows && later[k] == rows[k]
    {
      assert Find(later, k) == Find(rows, k);
    }
  }

  /** And the bookkeeping follows them. */
  lemma OtherRowsFollow(start: Rows, rows: Rows, later: Rows, changed: map<Key, Record>, original: map<Key, Option<Record>>)
    requires OwnFamilies(rows) && Follows(start, rows, changed, original) && OnlyOtherRows(rows, later)
    ensures Follows(start, later, changed, original)
  {
    hide KindAt, IsControl, KeyKind;
    forall k: Key | KeyKind(k.family).Some?
      ensures k in later <==> k in rows
      ensures k in later ==> later[k] == rows[k]
    {
      assert Find(later, k) == Find(rows, k);
    }
    forall k | ControlAt(start, k)
      ensures ControlAt(later, k)
    {
      assert ControlAt(rows, k);
      ControlKinds(rows, k);
    }
  }

  lemma ControlKinds(rows: Rows, k: Key)
    requires OwnFamilies(rows) && ControlAt(rows, k)
    ensures KeyKind(k.family).Some?
  {
  }

  lemma ProjectionsChain(a: Rows, b: Rows, c: Rows)
    requires OnlyProjections(a, b) && OnlyProjections(b, c) && ArtifactsKept(a, b) && ArtifactsKept(b, c)
    ensures OnlyProjections(a, c) && ArtifactsKept(a, c)
  {
    hide OnlyProjections;
    OnlyProjectionsChain(a, b, c);
  }

  lemma NoNews(changed: map<Key, Record>, original: map<Key, Option<Record>>, seed: bool,
               receipts: set<Id>, evidence: map<Id, set<Id>>)
    ensures Journals([], changed, {}, original, seed, receipts, evidence)
  {
  }

  lemma MoreNews(news: seq<ControlEvent>, more: seq<ControlEvent>, changed: map<Key, Record>, done: set<Key>, k: Key,
                 original: map<Key, Option<Record>>, seed: bool, receipts: set<Id>, evidence: map<Id, set<Id>>)
    requires Journals(news, changed, done, original, seed, receipts, evidence)
    requires k in changed && changed[k].key == k && k !in done
    requires if IsControl(changed[k]) then |more| == 1 && EventOf(more[0], changed[k], original, seed, receipts, evidence) else more == []
    ensures Journals(news + more, changed, done + {k}, original, seed, receipts, evidence)
  {
    hide EventOf, IsControl;
    var all := news + more;
    if IsControl(changed[k]) {
      EventKey(more[0], changed[k], original, seed, receipts, evidence);
      assert all[|news|] == more[0];
      assert HasEvent(all, k);
    }
    forall other | other in done && other in changed && IsControl(changed[other])
      ensures HasEvent(all, other)
    {
      assert HasEvent(news, other);
      var i :| 0 <= i < |news| && news[i].entity.key == other;
      assert all[i] == news[i];
    }
    assert forall i | 0 <= i < |news| :: all[i] == news[i];
  }

  lemma EventKey(e: ControlEvent, r: Record, original: map<Key, Option<Record>>, seed: bool,
                 receipts: set<Id>, evidence: map<Id, set<Id>>)
    requires EventOf(e, r, original, seed, receipts, evidence)
    ensures e.entity.key == r.key
  {
  }
}
