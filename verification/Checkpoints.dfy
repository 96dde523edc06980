/** Content-addressed snapshots of a run, captured inside the transaction that changes it
    (crates/rx-application/src/checkpoint_artifact.rs). */
module Checkpoints {
  import opened Base
  import opened Store

  function ArtifactKey(sha: Digest): Key { Key(ArtifactFamily, ContentOf(sha)) }
  function OwnerKey(run: Id, sha: Digest): Key { Key(CheckpointArtifactFamily, OwnedBy(run, sha)) }
  function CurrentKey(run: Id): Key { Key(RunCheckpointFamily, IdOf(run)) }
  function WorkKey(operation: Id): Key { Key(WorkFamily, IdOf(operation)) }

  /** `canonical::bytes` and its length; any function of the content would do for the length. */
  function Bytes(state: ExecutorState): CanonicalBytes { CanonicalBytes(state) }

  function Length(bytes: CanonicalBytes): nat {
    1 + |bytes.content.activations| + |bytes.content.checkpoints|
  }

  function Reference(state: ExecutorState): ArtifactRef {
    ArtifactRef(Sha256(Bytes(state)), ExecutorStateSchema, Length(Bytes(state)))
  }

  /** Artifact rows hold the content their key names, ownership rows the reference they stand for. */
  ghost predicate ArtifactsSound(rows: Rows) {
    && (forall k | k in rows && k.family == ArtifactFamily ::
          k.ident.ContentOf? && rows[k].document == StateDoc(k.ident.digest.bytes.content))
    && (forall k | k in rows && k.family == CheckpointArtifactFamily ::
          k.ident.OwnedBy? && rows[k].document == OwnerDoc(Reference(k.ident.digest.bytes.content)))
  }

  /** Everything stored for checkpoints in `rows` is still there, unchanged, in `later`. */
  ghost predicate ArtifactsKept(rows: Rows, later: Rows) {
    forall k | k in rows && (k.family == ArtifactFamily || k.family == CheckpointArtifactFamily) ::
      k in later && later[k] == rows[k]
  }

  predicate CheckpointFamilyOf(family: Family) {
    family == ArtifactFamily || family == CheckpointArtifactFamily || family == RunCheckpointFamily
  }

  /** Only checkpoint rows differ, and what is new among them is checkpoint content. */
  ghost predicate OnlyCheckpointRows(rows: Rows, later: Rows) {
    && (forall k: Key | !CheckpointFamilyOf(k.family) :: Find(later, k) == Find(rows, k))
    && (forall k | k in later && Find(later, k) != Find(rows, k) ::
          later[k].document.StateDoc? || later[k].document.OwnerDoc? || later[k].document.SnapshotDoc?)
  }

  // ---------------------------------------------------------------- reading back

  /** What a reader of `reference` on behalf of `run` finds. */
  function Readable(rows: Rows, run: Id, reference: ArtifactRef): Result<ExecutorState, StoreError> {
    var owner := Find(rows, OwnerKey(run, reference.sha));
    if owner.None? then Err(NotFound)
    else if !owner.value.document.OwnerDoc? then Err(Integrity)
    else if owner.value.document.reference != reference || reference.schema != ExecutorStateSchema then Err(Invalid)
    else
      var blob := Find(rows, ArtifactKey(reference.sha));
      if blob.None? || !blob.value.document.StateDoc? then Err(Integrity) else
      var state := blob.value.document.state;
      if state.run.id != run then Err(Integrity)
      else if reference.size != Length(Bytes(state)) || reference.sha != Sha256(Bytes(state)) then Err(Integrity)
      else Ok(state)
  }

  /** A reference is readable for a run exactly when that run owns it, it names a state that is stored, and the state is
      one of that run. */
  lemma ReadableExactly(rows: Rows, run: Id, reference: ArtifactRef, state: ExecutorState)
    ensures Readable(rows, run, reference) == Ok(state) <==>
      && reference == ArtifactRef(Sha256(CanonicalBytes(state)), ExecutorStateSchema, Length(CanonicalBytes(state)))
      && state.run.id == run
      && OwnerKey(run, reference.sha) in rows && rows[OwnerKey(run, reference.sha)].document == OwnerDoc(reference)
      && ArtifactKey(reference.sha) in rows && rows[ArtifactKey(reference.sha)].document == StateDoc(state)
  {
  }

  method ReadArtifact(tx: Transaction, run: Id, reference: ArtifactRef) returns (r: Result<CanonicalBytes, StoreError>)
    ensures r.Ok? <==> Readable(tx.rows, run, reference).Ok?
    ensures r.Ok? ==> r.value == Bytes(Readable(tx.rows, run, reference).value)
    ensures r.Ok? ==> Sha256(r.value) == reference.sha && Length(r.value) == reference.size
  {
    var owner := tx.Get(OwnerKey(run, reference.sha));
    if owner.None? { return Err(NotFound); }
    if !owner.value.document.OwnerDoc? { return Err(Integrity); }
    if owner.value.document.reference != reference || reference.schema != ExecutorStateSchema {
      return Err(Invalid);
    }
    var row := tx.Get(ArtifactKey(reference.sha));
    if row.None? { return Err(Integrity); }
    if !row.value.document.StateDoc? { return Err(Integrity); }
    var state := row.value.document.state;
    if state.run.id != run { return Err(Integrity); }
    var bytes := Bytes(state);
    if reference.size != Length(bytes) || reference.sha != Sha256(bytes) {
      return Err(Integrity);
    }
    return Ok(bytes);
  }

  /** The view, its run and its content belong to one cut. */
  ghost predicate ValidSnapshot(rows: Rows, s: RunSnapshot) {
    var c := s.checkpoint;
    && c.run == s.run.id && c.revision == s.revision && c.schema == ExecutorStateSchema
    && var content := Readable(rows, s.run.id, c.payload);
       content.Ok? && content.value.revision == s.revision && content.value.run == s.run
       && content.value.activations == c.activations
  }

  method ValidateSnapshot(tx: Transaction, s: RunSnapshot) returns (r: Result<(), StoreError>)
    ensures r.Ok? <==> ValidSnapshot(tx.rows, s)
  {
    var c := s.checkpoint;
    if c.run != s.run.id || c.revision != s.revision || c.schema != ExecutorStateSchema {
      return Err(Integrity);
    }
    var bytes := ReadArtifact(tx, s.run.id, c.payload);
    if bytes.Err? { return Err(bytes.error); }
    var state := bytes.value.content;
    if state.revision != s.revision || state.run != s.run || state.activations != c.activations {
      return Err(Integrity);
    }
    return Ok(());
  }

  /** A snapshot that is valid once stays valid for as long as artifacts are only ever added. */
  lemma ValidStaysValid(rows: Rows, later: Rows, s: RunSnapshot)
    requires ValidSnapshot(rows, s) && ArtifactsKept(rows, later)
    ensures ValidSnapshot(later, s)
    ensures Readable(later, s.run.id, s.checkpoint.payload) == Readable(rows, s.run.id, s.checkpoint.payload)
  {
    var sha := s.checkpoint.payload.sha;
    assert OwnerKey(s.run.id, sha) in rows && ArtifactKey(sha) in rows;
  }

  /** A view paired with content of another revision, run or activation list is never valid. */
  lemma SubstitutedContentIsRefused(rows: Rows, s: RunSnapshot, other: ExecutorState)
    requires other.revision != s.revision || other.run != s.run || other.activations != s.checkpoint.activations
    ensures !ValidSnapshot(rows, s.(checkpoint := s.checkpoint.(payload := Reference(other))))
  {
    var sha := Reference(other).sha;
    if ArtifactKey(sha) in rows && rows[ArtifactKey(sha)].document.StateDoc? {
      var state := rows[ArtifactKey(sha)].document.state;
      assert Sha256(Bytes(state)) == sha ==> state == other;
    }
  }

  /** Two valid snapshots of one payload agree on run, revision and activations: content names its view. */
  lemma PayloadNamesItsView(rows: Rows, a: RunSnapshot, b: RunSnapshot)
    requires ValidSnapshot(rows, a) && ValidSnapshot(rows, b) && a.checkpoint.payload == b.checkpoint.payload
    ensures a == b
  {
    var sha := a.checkpoint.payload.sha;
    var x := Readable(rows, a.run.id, a.checkpoint.payload).value;
    var y := Readable(rows, b.run.id, b.checkpoint.payload).value;
    assert x == y;
  }

  // ---------------------------------------------------------------- storing

  /** Store a state once under its digest, and note which run owns it. */
  method StoreState(tx: Transaction, state: ExecutorState) returns (r: Result<CheckpointView, StoreError>)
    requires Keyed(tx.rows)
    modifies tx`rows
    ensures Keyed(tx.rows) && OnlyCheckpointRows(old(tx.rows), tx.rows)
    ensures ArtifactsKept(old(tx.rows), tx.rows)
    ensures ArtifactsSound(old(tx.rows)) ==> r.Ok? && ArtifactsSound(tx.rows)
    ensures r.Ok? ==> r.value == CheckpointView(state.run.id, state.revision, ExecutorStateSchema, Reference(state), state.activations)
    ensures r.Ok? && ArtifactsSound(old(tx.rows)) ==> Readable(tx.rows, state.run.id, Reference(state)) == Ok(state)
    ensures forall k: Key | k.family == RunCheckpointFamily :: Find(tx.rows, k) == Find(old(tx.rows), k)
  {
    hide ArtifactsSound, Readable, ArtifactsKept, OnlyCheckpointRows;
    ghost var start := tx.rows;
    Untouched(start);
    var reference := Reference(state);
    var blobKey := ArtifactKey(reference.sha);
    var blob := StateDoc(state);
    var previous := tx.Get(blobKey);
    if previous.Some? {
      SoundBlob(start, state);
      if previous.value.document != blob {
        return Err(Integrity);
      }
    } else {
      var put := tx.Put(blobKey, None, blob);
    }
    var owner := OwnerKey(state.run.id, reference.sha);
    var owned := tx.Get(owner);
    if owned.None? {
      var put := tx.Put(owner, None, OwnerDoc(reference));
    }
    StoringIsSound(start, tx.rows, state);
    StoringKeeps(start, tx.rows, state);
    return Ok(CheckpointView(state.run.id, state.revision, ExecutorStateSchema, reference, state.activations));
  }

  /** Storing touches two rows and replaces neither. */
  lemma StoringKeeps(start: Rows, rows: Rows, state: ExecutorState)
    requires var a, o := ArtifactKey(Reference(state).sha), OwnerKey(state.run.id, Reference(state).sha);
      && (forall k | k != a && k != o :: Find(rows, k) == Find(start, k))
      && a in rows && rows[a].document == StateDoc(state) && (a in start ==> rows[a] == start[a])
      && o in rows && (if o in start then rows[o] == start[o] else rows[o].document == OwnerDoc(Reference(state)))
    ensures ArtifactsKept(start, rows) && OnlyCheckpointRows(start, rows)
    ensures forall k: Key | k.family == RunCheckpointFamily :: Find(rows, k) == Find(start, k)
  {
    forall k | k in start && (k.family == ArtifactFamily || k.family == CheckpointArtifactFamily)
      ensures k in rows && rows[k] == start[k]
    {
      if k != ArtifactKey(Reference(state).sha) && k != OwnerKey(state.run.id, Reference(state).sha) {
        assert Find(rows, k) == Find(start, k);
      }
    }
  }

  lemma SoundBlob(rows: Rows, state: ExecutorState)
    requires ArtifactKey(Reference(state).sha) in rows
    ensures ArtifactsSound(rows) ==> rows[ArtifactKey(Reference(state).sha)].document == StateDoc(state)
  {
  }

  /** Adding a state and its ownership, each unless it is already there. */
  lemma StoringIsSound(start: Rows, rows: Rows, state: ExecutorState)
    requires var a, o := ArtifactKey(Reference(state).sha), OwnerKey(state.run.id, Reference(state).sha);
      && (forall k | k != a && k != o :: Find(rows, k) == Find(start, k))
      && a in rows && rows[a].document == StateDoc(state)
      && o in rows && (Find(rows, o) == Find(start, o) || rows[o].document == OwnerDoc(Reference(state)))
    ensures ArtifactsSound(start) ==> ArtifactsSound(rows)
    ensures ArtifactsSound(start) ==> Readable(rows, state.run.id, Reference(state)) == Ok(state)
  {
    if ArtifactsSound(start) {
      forall k | k in rows && (k.family == ArtifactFamily || k.family == CheckpointArtifactFamily)
        ensures k.family == ArtifactFamily ==>
          k.ident.ContentOf? && rows[k].document == StateDoc(k.ident.digest.bytes.content)
        ensures k.family == CheckpointArtifactFamily ==>
          k.ident.OwnedBy? && rows[k].document == OwnerDoc(Reference(k.ident.digest.bytes.content))
      {
        assert Find(rows, k) == Find(start, k) || k == ArtifactKey(Reference(state).sha)
               || k == OwnerKey(state.run.id, Reference(state).sha);
      }
    }
  }

  /** `s` is the snapshot of activation `a`, every slot matched with its work. */
  ghost predicate Snapshots(rows: Rows, a: ActivationValue, cell: Name, s: ActivationSnapshot) {
    && s.id == a.id && s.node == a.node && s.visit == a.visit && |s.slots| == |a.slots|
    && forall i | 0 <= i < |a.slots| :: SlotSnapshots(rows, a, cell, a.slots[i], s.slots[i])
  }

  ghost predicate SlotSnapshots(rows: Rows, a: ActivationValue, cell: Name, s: Slot, out: SlotSnapshot) {
    && SlotMatches(rows, a, cell, s)
    && out == SlotSnapshot(s.slot, s.operation, rows[WorkKey(s.operation)].document.work.intent)
  }

  /** The slots of an activation, each checked against the work it names. */
  method SnapshotActivation(tx: Transaction, a: ActivationValue, cell: Name) returns (r: Result<ActivationSnapshot, StoreError>)
    ensures r.Ok? <==> forall s | s in a.slots :: SlotMatches(tx.rows, a, cell, s)
    ensures r.Ok? ==> Snapshots(tx.rows, a, cell, r.value)
  {
    var slots: seq<SlotSnapshot> := [];
    for i := 0 to |a.slots|
      invariant |slots| == i
      invariant forall j | 0 <= j < i :: SlotSnapshots(tx.rows, a, cell, a.slots[j], slots[j])
    {
      var s := a.slots[i];
      assert s in a.slots;
      var row := tx.Get(WorkKey(s.operation));
      if row.None? { return Err(NotFound); }
      if !row.value.document.WorkDoc? { return Err(Integrity); }
      var work := row.value.document.work;
      if work.run != a.run || work.activation != a.id || work.slot != s.slot
         || work.operation.id != s.operation || work.part != a.part || work.cell != cell {
        return Err(Integrity);
      }
      slots := slots + [SlotSnapshot(s.slot, s.operation, work.intent)];
    }
    return Ok(ActivationSnapshot(a.id, a.node, a.visit, slots));
  }

  predicate SlotMatches(rows: Rows, a: ActivationValue, cell: Name, s: Slot) {
    var k := WorkKey(s.operation);
    && k in rows && rows[k].document.WorkDoc?
    && var work := rows[k].document.work;
       work.run == a.run && work.activation == a.id && work.slot == s.slot
       && work.operation.id == s.operation && work.part == a.part && work.cell == cell
  }

  predicate Before(a: ActivationSnapshot, b: ActivationSnapshot) {
    a.node < b.node || (a.node == b.node && a.visit <= b.visit)
  }

  predicate InOrder(s: seq<ActivationSnapshot>) {
    forall i, j | 0 <= i < j < |s| :: Before(s[i], s[j])
  }

  /** Stable insertion: `sort_by` and `sort_by_key` keep equal entries in place. */
  function Insert<T>(s: seq<T>, at: nat, x: T): seq<T>
    requires at <= |s|
  {
    s[..at] + [x] + s[at..]
  }

  function ActivationPlace(sorted: seq<ActivationSnapshot>, a: ActivationSnapshot): (at: nat)
    ensures at <= |sorted|
    ensures at > 0 ==> Before(sorted[at - 1], a)
    ensures forall i | at <= i < |sorted| :: !Before(sorted[i], a)
  {
    if sorted == [] || Before(sorted[|sorted| - 1], a) then |sorted| else ActivationPlace(sorted[..|sorted| - 1], a)
  }

  function CheckpointPlace(sorted: seq<CheckpointValue>, c: CheckpointValue): (at: nat)
    ensures at <= |sorted|
    ensures at > 0 ==> sorted[at - 1].visit <= c.visit
    ensures forall i | at <= i < |sorted| :: c.visit < sorted[i].visit
  {
    if sorted == [] || sorted[|sorted| - 1].visit <= c.visit then |sorted| else CheckpointPlace(sorted[..|sorted| - 1], c)
  }

  lemma PlacedActivationsInOrder(sorted: seq<ActivationSnapshot>, a: ActivationSnapshot)
    requires InOrder(sorted)
    ensures InOrder(Insert(sorted, ActivationPlace(sorted, a), a))
  {
  }

  predicate ByVisit(list: seq<CheckpointValue>) {
    forall i, j | 0 <= i < j < |list| :: list[i].visit <= list[j].visit
  }

  lemma PlacedCheckpointsByVisit(sorted: seq<CheckpointValue>, c: CheckpointValue)
    requires ByVisit(sorted)
    ensures ByVisit(Insert(sorted, CheckpointPlace(sorted, c), c))
  {
  }

  /** A new key stays distinct wherever it is inserted. */
  lemma InsertDistinct(keys: seq<Key>, at: nat, k: Key)
    requires Distinct(keys) && at <= |keys| && k !in keys
    ensures Distinct(Insert(keys, at, k))
    ensures forall x :: x in Insert(keys, at, k) <==> x in keys || x == k
  {
    assert keys == keys[..at] + keys[at..];
  }

  // ---------------------------------------------------------------- what a run has

  predicate ActivationOf(rows: Rows, k: Key, run: Id) {
    k in rows && k.family == ActivationFamily && rows[k].document.ActivationDoc?
    && rows[k].document.activation.run == run
  }

  predicate CheckpointOf(rows: Rows, k: Key, run: Id) {
    k in rows && k.family == CheckpointFamily && rows[k].document.CheckpointDoc?
    && rows[k].document.checkpoint.run == run
  }

  ghost predicate ActivationAt(rows: Rows, run: RunValue, k: Key, s: ActivationSnapshot) {
    ActivationOf(rows, k, run.id) && Snapshots(rows, rows[k].document.activation, run.cell, s)
  }

  ghost predicate CheckpointAt(rows: Rows, run: Id, k: Key, c: CheckpointValue) {
    CheckpointOf(rows, k, run) && rows[k].document.checkpoint == c
  }

  ghost predicate ActivationsBy(rows: Rows, run: RunValue, keys: seq<Key>, list: seq<ActivationSnapshot>) {
    && |keys| == |list| && Distinct(keys)
    && forall i | 0 <= i < |keys| :: ActivationAt(rows, run, keys[i], list[i])
  }

  ghost predicate CheckpointsBy(rows: Rows, run: Id, keys: seq<Key>, list: seq<CheckpointValue>) {
    && |keys| == |list| && Distinct(keys)
    && forall i | 0 <= i < |keys| :: CheckpointAt(rows, run, keys[i], list[i])
  }

  ghost predicate AllActivations(rows: Rows, run: Id, keys: seq<Key>) {
    forall k | ActivationOf(rows, k, run) :: k in keys
  }

  ghost predicate AllCheckpoints(rows: Rows, run: Id, keys: seq<Key>) {
    forall k | CheckpointOf(rows, k, run) :: k in keys
  }

  /** The list is the run's, in order: its entries and the run's activation rows are one to one. */
  ghost predicate ListsActivations(rows: Rows, run: RunValue, list: seq<ActivationSnapshot>) {
    InOrder(list) && exists keys :: ActivationsBy(rows, run, keys, list) && AllActivations(rows, run.id, keys)
  }

  /** The list is the run's, by visit: its entries and the run's checkpoint rows are one to one. */
  ghost predicate ListsCheckpoints(rows: Rows, run: Id, list: seq<CheckpointValue>) {
    ByVisit(list) && exists keys :: CheckpointsBy(rows, run, keys, list) && AllCheckpoints(rows, run, keys)
  }

  /** Every activation row decodes, and the slots of this run's match the works they name. */
  ghost predicate ActivationsFit(rows: Rows, run: RunValue) {
    forall k | k in rows && k.family == ActivationFamily :: ActivationFits(rows, run, k)
  }

  predicate ActivationFits(rows: Rows, run: RunValue, k: Key)
    requires k in rows
  {
    && rows[k].document.ActivationDoc?
    && var a := rows[k].document.activation;
       a.run == run.id ==> forall s | s in a.slots :: SlotMatches(rows, a, run.cell, s)
  }

  ghost predicate CheckpointsDecode(rows: Rows) {
    forall k | k in rows && k.family == CheckpointFamily :: rows[k].document.CheckpointDoc?
  }

  lemma MoreActivations(rows: Rows, run: RunValue, keys: seq<Key>, list: seq<ActivationSnapshot>, at: nat, k: Key, s: ActivationSnapshot)
    requires ActivationsBy(rows, run, keys, list) && at <= |keys| && k !in keys && ActivationAt(rows, run, k, s)
    ensures ActivationsBy(rows, run, Insert(keys, at, k), Insert(list, at, s))
  {
    hide ActivationAt;
    InsertDistinct(keys, at, k);
  }

  lemma MoreCheckpoints(rows: Rows, run: Id, keys: seq<Key>, list: seq<CheckpointValue>, at: nat, k: Key, c: CheckpointValue)
    requires CheckpointsBy(rows, run, keys, list) && at <= |keys| && k !in keys && CheckpointAt(rows, run, k, c)
    ensures CheckpointsBy(rows, run, Insert(keys, at, k), Insert(list, at, c))
  {
    hide CheckpointAt;
    InsertDistinct(keys, at, k);
  }

  lemma ScanCovers(rows: Rows, order: Key -> nat, family: Family, recs: seq<Record>, k: Key)
    requires Keyed(rows) && IsScan(rows, order, family, recs) && k in rows && k.family == family
    ensures exists i :: 0 <= i < |recs| && recs[i].key == k && recs[i] == rows[k]
  {
    assert rows[k] in recs;
  }

  /** The keys among the first `n` scanned rows. */
  ghost predicate KeysAmong(keys: seq<Key>, recs: seq<Record>, n: nat)
    requires n <= |recs|
  {
    forall k | k in keys :: exists i :: 0 <= i < n && recs[i].key == k
  }

  lemma NewKey(keys: seq<Key>, recs: seq<Record>, n: nat, order: Key -> nat)
    requires n < |recs| && KeysAmong(keys, recs, n) && AscendingBy(order, recs)
    ensures recs[n].key !in keys
  {
  }

  /** The activations of a run, by node and visit; it succeeds exactly when they can be read. */
  method CollectActivations(tx: Transaction, run: RunValue) returns (r: Result<seq<ActivationSnapshot>, StoreError>)
    requires Keyed(tx.rows) && Injective(tx.order)
    ensures r.Ok? <==> ActivationsFit(tx.rows, run)
    ensures r.Ok? ==> ListsActivations(tx.rows, run, r.value)
  {
    hide Snapshots, InOrder, Distinct, Injective, SlotMatches, ActivationsBy, KeysAmong;
    var list: seq<ActivationSnapshot> := [];
    ghost var keys: seq<Key> := [];
    NoActivations(tx.rows, run);
    var entries := tx.Scan(ActivationFamily);
    NoneAmong(entries);
    for i := 0 to |entries|
      invariant InOrder(list) && ActivationsBy(tx.rows, run, keys, list) && KeysAmong(keys, entries, i)
      invariant forall j | 0 <= j < i :: ActivationFits(tx.rows, run, entries[j].key)
      invariant forall j | 0 <= j < i && ActivationOf(tx.rows, entries[j].key, run.id) :: entries[j].key in keys
    {
      assert entries[i] in entries;
      StillAmong(keys, entries, i);
      ghost var k := entries[i].key;
      if !entries[i].document.ActivationDoc? {
        assert !ActivationFits(tx.rows, run, k);
        return Err(Integrity);
      }
      var activation := entries[i].document.activation;
      if activation.run != run.id { continue; }
      var snapshot := SnapshotActivation(tx, activation, run.cell);
      if snapshot.Err? {
        assert !ActivationFits(tx.rows, run, k);
        return Err(snapshot.error);
      }
      var at := ActivationPlace(list, snapshot.value);
      NewKey(keys, entries, i, tx.order);
      PairedLengths(tx.rows, run, keys, list);
      MoreActivations(tx.rows, run, keys, list, at, k, snapshot.value);
      PlacedActivationsInOrder(list, snapshot.value);
      MoreAmong(keys, entries, i, at);
      list, keys := Insert(list, at, snapshot.value), Insert(keys, at, k);
    }
    forall k | k in tx.rows && k.family == ActivationFamily
      ensures ActivationFits(tx.rows, run, k) && (ActivationOf(tx.rows, k, run.id) ==> k in keys)
    {
      ScanCovers(tx.rows, tx.order, ActivationFamily, entries, k);
      var j :| 0 <= j < |entries| && entries[j].key == k && entries[j] == tx.rows[k];
      assert ActivationFits(tx.rows, run, entries[j].key);
    }
    assert AllActivations(tx.rows, run.id, keys);
    return Ok(list);
  }

  lemma NoActivations(rows: Rows, run: RunValue)
    ensures InOrder([]) && ActivationsBy(rows, run, [], [])
  {
  }

  lemma NoneAmong(recs: seq<Record>)
    ensures KeysAmong([], recs, 0)
  {
  }

  lemma StillAmong(keys: seq<Key>, recs: seq<Record>, n: nat)
    requires n < |recs| && KeysAmong(keys, recs, n)
    ensures KeysAmong(keys, recs, n + 1)
  {
  }

  lemma MoreAmong(keys: seq<Key>, recs: seq<Record>, n: nat, at: nat)
    requires n < |recs| && at <= |keys| && KeysAmong(keys, recs, n)
    ensures KeysAmong(Insert(keys, at, recs[n].key), recs, n + 1)
    ensures forall x :: x in Insert(keys, at, recs[n].key) <==> x in keys || x == recs[n].key
  {
    assert keys == keys[..at] + keys[at..];
    forall k | k in Insert(keys, at, recs[n].key)
      ensures exists i :: 0 <= i < n + 1 && recs[i].key == k
    {
      if k == recs[n].key {
        assert recs[n].key == k;
      } else {
        assert k in keys[..at] + keys[at..];
        var i :| 0 <= i < n && recs[i].key == k;
      }
    }
  }

  lemma PairedLengths(rows: Rows, run: RunValue, keys: seq<Key>, list: seq<ActivationSnapshot>)
    requires ActivationsBy(rows, run, keys, list)
    ensures |keys| == |list|
  {
  }

  /** The process checkpoints of a run, by visit; it succeeds exactly when every checkpoint row decodes. */
  method CollectCheckpoints(tx: Transaction, run: Id) returns (r: Result<seq<CheckpointValue>, StoreError>)
    requires Keyed(tx.rows) && Injective(tx.order)
    ensures r.Ok? <==> CheckpointsDecode(tx.rows)
    ensures r.Ok? ==> ListsCheckpoints(tx.rows, run, r.value)
  {
    hide ByVisit, Distinct, Injective, CheckpointsBy, KeysAmong;
    var list: seq<CheckpointValue> := [];
    ghost var keys: seq<Key> := [];
    NoCheckpoints(tx.rows, run);
    var entries := tx.Scan(CheckpointFamily);
    NoneAmong(entries);
    for i := 0 to |entries|
      invariant ByVisit(list) && |keys| == |list| && CheckpointsBy(tx.rows, run, keys, list) && KeysAmong(keys, entries, i)
      invariant forall j | 0 <= j < i :: entries[j].document.CheckpointDoc?
      invariant forall j | 0 <= j < i && CheckpointOf(tx.rows, entries[j].key, run) :: entries[j].key in keys
    {
      assert entries[i] in entries;
      StillAmong(keys, entries, i);
      if !entries[i].document.CheckpointDoc? { return Err(Integrity); }
      var checkpoint := entries[i].document.checkpoint;
      if checkpoint.run == run {
        ghost var k := entries[i].key;
        var at := CheckpointPlace(list, checkpoint);
        NewKey(keys, entries, i, tx.order);
        MoreCheckpoints(tx.rows, run, keys, list, at, k, checkpoint);
        PlacedCheckpointsByVisit(list, checkpoint);
        MoreAmong(keys, entries, i, at);
        list, keys := Insert(list, at, checkpoint), Insert(keys, at, k);
      }
    }
    forall k | k in tx.rows && k.family == CheckpointFamily
      ensures tx.rows[k].document.CheckpointDoc? && (CheckpointOf(tx.rows, k, run) ==> k in keys)
    {
      ScanCovers(tx.rows, tx.order, CheckpointFamily, entries, k);
    }
    assert AllCheckpoints(tx.rows, run, keys);
    return Ok(list);
  }

  lemma NoCheckpoints(rows: Rows, run: Id)
    ensures ByVisit([]) && CheckpointsBy(rows, run, [], [])
  {
  }

  /** Everything a capture of the run reads is in order. */
  ghost predicate Capturable(rows: Rows, run: RunValue) {
    ActivationsFit(rows, run) && CheckpointsDecode(rows)
  }

  /** Capture the state of the run in `record` and make it the run's current snapshot. */
  method CaptureRun(tx: Transaction, record: Record) returns (r: Result<Record, StoreError>)
    requires Keyed(tx.rows) && Injective(tx.order)
    modifies tx`rows
    ensures Keyed(tx.rows) && OnlyCheckpointRows(old(tx.rows), tx.rows)
    ensures ArtifactsKept(old(tx.rows), tx.rows)
    ensures ArtifactsSound(old(tx.rows)) ==> ArtifactsSound(tx.rows)
    ensures ArtifactsSound(old(tx.rows)) ==>
      (r.Ok? <==> record.document.RunDoc? && Capturable(old(tx.rows), record.document.run)
                  && HasRoom(old(tx.rows), CurrentKey(record.document.run.id)))
    ensures r.Ok? ==> record.document.RunDoc? && Captures(record, r.value)
    ensures r.Ok? ==> ListsActivations(old(tx.rows), record.document.run, r.value.document.snapshot.checkpoint.activations)
    ensures r.Ok? && ArtifactsSound(old(tx.rows)) ==> ValidSnapshot(tx.rows, r.value.document.snapshot)
    ensures r.Ok? ==> CurrentKey(record.document.run.id) in tx.rows
    ensures r.Ok? ==> tx.rows[CurrentKey(record.document.run.id)].document == r.value.document
    ensures r.Ok? ==> var content := r.value.document.snapshot.checkpoint.payload.sha.bytes.content;
      content.run == record.document.run && ListsCheckpoints(old(tx.rows), record.document.run.id, content.checkpoints)
    ensures r.Ok? ==> forall k: Key | k.family == RunCheckpointFamily && k != CurrentKey(record.document.run.id) ::
      Find(tx.rows, k) == Find(old(tx.rows), k)
  {
    hide ListsCheckpoints, ListsActivations, ActivationsFit, CheckpointsDecode, ArtifactsSound, ArtifactsKept,
      OnlyCheckpointRows, ValidSnapshot, HasRoom;
    if !record.document.RunDoc? {
      Untouched(tx.rows);
      return Err(Integrity);
    }
    var run := record.document.run;
    Untouched(tx.rows);
    var activations := CollectActivations(tx, run);
    if activations.Err? { return Err(activations.error); }
    var checkpoints := CollectCheckpoints(tx, run.id);
    if checkpoints.Err? { return Err(checkpoints.error); }
    var state := ExecutorState(run, record.revision, activations.value, checkpoints.value);
    var snapshot := Publish(tx, state);
    if snapshot.Err? { return Err(snapshot.error); }
    return Ok(Record(record.key, record.revision, SnapshotDoc(snapshot.value)));
  }

  lemma Untouched(rows: Rows)
    ensures ArtifactsKept(rows, rows) && OnlyCheckpointRows(rows, rows)
  {
  }

  /** The tail of a capture: store the state and point the run's current snapshot at it. */
  method Publish(tx: Transaction, state: ExecutorState) returns (r: Result<RunSnapshot, StoreError>)
    requires Keyed(tx.rows)
    modifies tx`rows
    ensures Keyed(tx.rows) && OnlyCheckpointRows(old(tx.rows), tx.rows)
    ensures ArtifactsKept(old(tx.rows), tx.rows)
    ensures ArtifactsSound(old(tx.rows)) ==> ArtifactsSound(tx.rows)
    ensures r.Ok? ==> r.value.run == state.run && r.value.revision == state.revision
                      && r.value.checkpoint.activations == state.activations
    ensures r.Ok? && ArtifactsSound(old(tx.rows)) ==> ValidSnapshot(tx.rows, r.value)
    ensures r.Ok? ==> CurrentKey(state.run.id) in tx.rows
    ensures r.Ok? ==> tx.rows[CurrentKey(state.run.id)].document == SnapshotDoc(r.value)
    ensures r.Ok? ==> r.value.checkpoint.payload == Reference(state)
    ensures ArtifactsSound(old(tx.rows)) ==> (r.Ok? <==> HasRoom(old(tx.rows), CurrentKey(state.run.id)))
    ensures forall k: Key | k.family == RunCheckpointFamily && k != CurrentKey(state.run.id) ::
      Find(tx.rows, k) == Find(old(tx.rows), k)
  {
    hide ArtifactsSound, ArtifactsKept, OnlyCheckpointRows, ValidSnapshot, Readable;
    ghost var start := tx.rows;
    var view := StoreState(tx, state);
    if view.Err? { return Err(view.error); }
    var snapshot := RunSnapshot(state.revision, state.run, view.value);
    var current := CurrentKey(state.run.id);
    ghost var stored := tx.rows;
    StoredIsValid(stored, state);
    var prior := tx.Get(current);
    var put := tx.Put(current, RevisionOf(prior), SnapshotDoc(snapshot));
    if put.Err? { return Err(put.error); }
    CurrentKeepsArtifacts(stored, current, put.value);
    Chain(start, stored, tx.rows, snapshot);
    return Ok(snapshot);
  }

  lemma StoredIsValid(rows: Rows, state: ExecutorState)
    ensures Readable(rows, state.run.id, Reference(state)) == Ok(state) ==>
      ValidSnapshot(rows, RunSnapshot(state.revision, state.run,
        CheckpointView(state.run.id, state.revision, ExecutorStateSchema, Reference(state), state.activations)))
  {
  }

  lemma CurrentKeepsArtifacts(stored: Rows, k: Key, row: Record)
    requires k.family == RunCheckpointFamily && row.document.SnapshotDoc?
    ensures ArtifactsSound(stored) ==> ArtifactsSound(stored[k := row])
    ensures ArtifactsKept(stored, stored[k := row]) && OnlyCheckpointRows(stored, stored[k := row])
  {
  }

  lemma Chain(a: Rows, b: Rows, c: Rows, s: RunSnapshot)
    requires ArtifactsKept(a, b) && ArtifactsKept(b, c) && OnlyCheckpointRows(a, b) && OnlyCheckpointRows(b, c)
    ensures ArtifactsKept(a, c) && OnlyCheckpointRows(a, c)
    ensures ValidSnapshot(b, s) ==> ValidSnapshot(c, s)
  {
    hide ValidSnapshot;
    forall k: Key | !CheckpointFamilyOf(k.family)
      ensures Find(c, k) == Find(a, k)
    {
      assert Find(c, k) == Find(b, k);
    }
    forall k | k in c && Find(c, k) != Find(a, k)
      ensures c[k].document.StateDoc? || c[k].document.OwnerDoc? || c[k].document.SnapshotDoc?
    {
      if Find(c, k) == Find(b, k) { assert k in b && Find(b, k) != Find(a, k); }
    }
    if ValidSnapshot(b, s) { ValidStaysValid(b, c, s); }
  }

  /** `projection` is the journalled form of a run record: the snapshot of that run and revision. */
  ghost predicate Captures(record: Record, projection: Record)
    requires record.document.RunDoc?
  {
    && projection.key == record.key && projection.revision == record.revision
    && projection.document.SnapshotDoc?
    && projection.document.snapshot.run == record.document.run
    && projection.document.snapshot.revision == record.revision
  }
}
