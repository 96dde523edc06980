/** One journalled unit of work, from its first command to what it commits
    (crates/rx-application/src/control_journal.rs, `Journaled::transact_finalized`). */
module JournaledStore {
  import opened Base
  import opened Store
  import opened RunIndex
  import opened Checkpoints
  import opened Journal
  import opened UnitOfWork
  import Op = Operations

  // ---------------------------------------------------------------- what some commands amount to

  /** The writes alone, one after the other, on a store without journal, index or checkpoints. */
  function Plainly(rows: Rows, commands: seq<Command>): Result<Rows, StoreError>
    decreases |commands|
  {
    if commands == [] then Ok(rows) else
    var before := Plainly(rows, commands[..|commands| - 1]);
    var last := commands[|commands| - 1];
    if before.Err? || !last.Write? then before else
    var row := PutRow(before.value, last.key, last.expected, last.document);
    if row.Err? then Err(row.error) else Ok(before.value[last.key := row.value])
  }

  /** The control key written, the operation with a host receipt, and the evidence noted by a command. */
  function KeysOf(c: Command): set<Key> {
    if c.Write? && EntityKindOf(SchemaOf(c.document)).Some? then {c.key} else {}
  }

  function ReceiptsOf(c: Command): set<Id> {
    if c.Append? && c.event.HostReceiptDoc? then {c.event.operation} else {}
  }

  function EvidenceWith(evidence: map<Id, set<Id>>, c: Command): map<Id, set<Id>> {
    if c.Write? then Noted(evidence, c.key, c.document) else evidence
  }

  function Touched(commands: seq<Command>): set<Key> {
    if commands == [] then {} else Touched(commands[..|commands| - 1]) + KeysOf(commands[|commands| - 1])
  }

  function Receipted(commands: seq<Command>): set<Id> {
    if commands == [] then {} else Receipted(commands[..|commands| - 1]) + ReceiptsOf(commands[|commands| - 1])
  }

  function EvidenceIn(commands: seq<Command>): map<Id, set<Id>> {
    if commands == [] then map[] else EvidenceWith(EvidenceIn(commands[..|commands| - 1]), commands[|commands| - 1])
  }

  lemma OneMore(commands: seq<Command>, c: Command)
    ensures Touched(commands + [c]) == Touched(commands) + KeysOf(c)
    ensures Receipted(commands + [c]) == Receipted(commands) + ReceiptsOf(c)
    ensures EvidenceIn(commands + [c]) == EvidenceWith(EvidenceIn(commands), c)
  {
    assert (commands + [c])[..|commands|] == commands;
  }

  /** The records that the touched keys had at the start. */
  function Originals(start: Rows, commands: seq<Command>): map<Key, Option<Record>> {
    map k | k in Touched(commands) :: Find(start, k)
  }

  /** The keys put into the bookkeeping before the first command. */
  function Seeds(rows: Rows): set<Key> {
    set k | k in rows && ((INITIALIZED !in rows && KeyKind(k.family).Some?) || (CHECKPOINTS_INITIALIZED !in rows && k.family == RunFamily))
  }

  /** The keys that are due for an event: those seeded, and those written. */
  function Due(rows: Rows, commands: seq<Command>): set<Key> {
    Seeds(rows) + Touched(commands)
  }

  /** The command is one that its kind of row or event allows. */
  predicate CommandFits(c: Command) {
    match c
    case Write(k, _, document) => WriteFits(k, document)
    case Append(event) => SchemaOf(event) == HostReceiptSchema ==> event.HostReceiptDoc?
    case _ => true
  }

  /** Every command fits, and the writes apply one after the other. */
  predicate Applies(rows: Rows, commands: seq<Command>) {
    (forall c | c in commands :: CommandFits(c)) && Plainly(rows, commands).Ok?
  }

  /** The commands apply and what they leave can be journalled: works and runs decode, every new work is untouched
      and admitted for the first time, and every run that is due can be captured. */
  ghost predicate Commits(rows: Rows, commands: seq<Command>) {
    && Applies(rows, commands)
    && AllJournalable(Plainly(rows, commands).value, Final(Plainly(rows, commands).value, Due(rows, commands)),
                      Originals(rows, commands), INITIALIZED !in rows, Receipted(commands), EvidenceIn(commands))
  }

  function Final(rows: Rows, keys: set<Key>): map<Key, Record> {
    map k | k in keys && k in rows :: rows[k]
  }

  /** The index decodes, and no row of it is within `n` writes of the last revision. */
  ghost predicate IndexReady(rows: Rows, n: nat) {
    && IndexDecodes(rows) && n + 1 < MAX_REVISION
    && forall k | k in rows && k.family == RunLiveFamily :: rows[k].revision + n < MAX_REVISION
  }

  /** One event for each control entity that is due, and no other; each carries its entity's final record, and
      whatever differs was due. */
  ghost predicate OneEventEach(due: set<Key>, before: Rows, after: Rows, news: seq<ControlEvent>) {
    && (forall i, j | 0 <= i < j < |news| :: news[i].entity.key != news[j].entity.key)
    && (forall i | 0 <= i < |news| ::
          ControlAt(after, news[i].entity.key) && Projects(after[news[i].entity.key], news[i].entity))
    && (forall k :: HasEvent(news, k) <==> k in due && ControlAt(after, k))
    && (forall k | ControlAt(after, k) && Find(before, k) != Find(after, k) :: k in due)
  }

  /** Each event tells how its entity's final record came about. */
  ghost predicate Classified(rows: Rows, news: seq<ControlEvent>, original: map<Key, Option<Record>>, seed: bool,
                             receipts: set<Id>, evidence: map<Id, set<Id>>)
  {
    forall i | 0 <= i < |news| ::
      && news[i].entity.key in rows
      && EventOf(news[i], rows[news[i].entity.key], original, seed, receipts, evidence)
  }

  /** The same rows, but for those that no command writes row by row. */
  ghost predicate SamePlain(a: Rows, b: Rows) {
    forall k: Key | !Internal(k.family) :: Find(a, k) == Find(b, k)
  }

  /** The same rows, but for the index and the stored states. */
  ghost predicate SameReadRows(a: Rows, b: Rows) {
    forall k: Key | !AddedTo(k.family) :: Find(a, k) == Find(b, k)
  }

  lemma PlainChain(a: Rows, b: Rows, c: Rows)
    requires SameReadRows(a, b) && SamePlain(b, c)
    ensures SamePlain(a, c)
  {
    forall k: Key | !Internal(k.family)
      ensures Find(a, k) == Find(c, k)
    {
      assert Find(b, k) == Find(c, k);
    }
  }

  lemma SamePlainChain(a: Rows, b: Rows, c: Rows)
    requires SamePlain(a, b) && SamePlain(b, c)
    ensures SamePlain(a, c)
  {
    forall k: Key | !Internal(k.family)
      ensures Find(a, k) == Find(c, k)
    {
      assert Find(b, k) == Find(c, k);
    }
  }

  lemma ProjectionsArePlain(rows: Rows, later: Rows)
    requires OnlyProjections(rows, later)
    ensures SamePlain(rows, later)
  {
  }

  // ---------------------------------------------------------------- seeding

  /** Put the present rows of a family into the bookkeeping. */
  method SeedFamily(tracking: Tracking, family: Family)
    requires tracking.Valid() && Injective(tracking.tx.order) && tracking.tx.rows == tracking.start
    requires tracking.original == map[] && KeyKind(family).Some?
    modifies tracking`changed
    ensures tracking.Valid()
    ensures forall k :: k in tracking.changed <==> k in old(tracking.changed) || (k in tracking.start && k.family == family)
  {
    hide Sound, Follows, KeyKind;
    SoundIsKeyed(tracking.tx.rows);
    var recs := tracking.tx.Scan(family);
    for j := 0 to |recs|
      invariant tracking.Valid()
      invariant forall k :: k in tracking.changed <==> k in old(tracking.changed) || exists l :: 0 <= l < j && recs[l].key == k
    {
      assert recs[j] in recs;
      SeedFollows(tracking.start, tracking.changed, recs[j]);
      tracking.changed := tracking.changed[recs[j].key := recs[j]];
    }
    forall k
      ensures (exists l :: 0 <= l < |recs| && recs[l].key == k) <==> k in tracking.start && k.family == family
    {
      if k in tracking.start && k.family == family {
        ScanCovers(tracking.start, tracking.tx.order, family, recs, k);
      }
      if l :| 0 <= l < |recs| && recs[l].key == k { assert recs[l] in recs; }
    }
  }

  method Seed(tracking: Tracking, families: seq<Family>)
    requires tracking.Valid() && Injective(tracking.tx.order) && tracking.tx.rows == tracking.start
    requires tracking.original == map[]
    requires forall f | f in families :: KeyKind(f).Some?
    modifies tracking`changed
    ensures tracking.Valid()
    ensures forall k :: k in tracking.changed <==> k in old(tracking.changed) || (k in tracking.start && k.family in families)
  {
    hide Sound, Follows, KeyKind;
    for i := 0 to |families|
      invariant tracking.Valid()
      invariant forall k :: k in tracking.changed <==> k in old(tracking.changed) || (k in tracking.start && k.family in families[..i])
    {
      assert families[..i + 1] == families[..i] + [families[i]];
      SeedFamily(tracking, families[i]);
    }
    assert families[..|families|] == families;
  }

  /** Seed the journal and the checkpoints of a repository that had none. */
  method Prepare(tracking: Tracking, seed: bool, checkpointSeed: bool)
    requires tracking.Valid() && Injective(tracking.tx.order) && tracking.tx.rows == tracking.start
    requires tracking.original == map[] && tracking.changed == map[]
    requires seed == (INITIALIZED !in tracking.start) && checkpointSeed == (CHECKPOINTS_INITIALIZED !in tracking.start)
    modifies tracking`changed
    ensures tracking.Valid() && tracking.changed.Keys == Seeds(tracking.start)
  {
    hide Sound, Follows, KeyKind;
    ControlFamiliesOnly();
    if seed { Seed(tracking, SEEDED); }
    if checkpointSeed { Seed(tracking, [RunFamily]); }
    forall k
      ensures k in tracking.changed <==> k in Seeds(tracking.start)
    {
      SeededFamiliesAreTheControlFamilies(k.family);
    }
  }

  lemma SoundIsKeyed(rows: Rows)
    requires Sound(rows)
    ensures Keyed(rows)
  {
  }

  lemma SeedFollows(rows: Rows, changed: map<Key, Record>, r: Record)
    requires Follows(rows, rows, changed, map[]) && r.key in rows && rows[r.key] == r && KeyKind(r.key.family).Some?
    ensures Follows(rows, rows, changed[r.key := r], map[])
  {
  }

  lemma ControlFamiliesOnly()
    ensures forall f | f in SEEDED :: KeyKind(f).Some?
    ensures KeyKind(RunFamily).Some?
  {
    forall f | f in SEEDED
      ensures KeyKind(f).Some?
    {
      SeededFamiliesAreTheControlFamilies(f);
    }
  }

  // ---------------------------------------------------------------- the callback

  lemma NothingYet(rows: Rows, log: seq<ControlEvent>)
    ensures Follows(rows, rows, map[], map[]) && InternalKept(rows, rows)
    ensures Healthy(rows, log) ==> Sound(rows) && JournalKept(rows, log) && ReceiptsKept(rows, log)
  {
  }

  /** A tracked write does to the rows what a plain write does. */
  lemma PlainWrite(plain: Rows, before: Rows, rows: Rows, k: Key, expected: Option<nat>, document: Document)
    requires SameReadRows(plain, before) && !Internal(k.family)
    requires PutRow(before, k, expected, document).Ok? && k in rows && rows[k] == PutRow(before, k, expected, document).value
    requires forall other | other != k && other.family != RunLiveFamily :: Find(rows, other) == Find(before, other)
    ensures PutRow(plain, k, expected, document).Ok?
    ensures SameReadRows(plain[k := PutRow(plain, k, expected, document).value], rows)
  {
    assert Find(plain, k) == Find(before, k);
  }

  lemma SamePut(plain: Rows, before: Rows, k: Key, expected: Option<nat>, document: Document)
    requires SameReadRows(plain, before) && !Internal(k.family)
    ensures PutRow(plain, k, expected, document) == PutRow(before, k, expected, document)
  {
    assert Find(plain, k) == Find(before, k);
  }

  lemma ReadRowsStay(plain: Rows, before: Rows, rows: Rows)
    requires SameReadRows(plain, before) && forall k: Key | !AddedTo(k.family) :: Find(rows, k) == Find(before, k)
    ensures SameReadRows(plain, rows)
  {
  }

  /** A write leaves every internal row but the index alone, and every other command too, but for what it adds. */
  lemma StillInternal(start: Rows, before: Rows, rows: Rows)
    requires InternalKept(start, before) && ArtifactsKept(before, rows)
    requires forall k: Key | Internal(k.family) && !AddedTo(k.family) :: Find(rows, k) == Find(before, k)
    ensures InternalKept(start, rows)
  {
    forall k: Key | Internal(k.family) && !AddedTo(k.family)
      ensures Find(rows, k) == Find(start, k)
    {
      assert Find(rows, k) == Find(before, k);
    }
  }

  lemma StatesStay(before: Rows, rows: Rows)
    requires forall k: Key | k.family == ArtifactFamily || k.family == CheckpointArtifactFamily :: Find(rows, k) == Find(before, k)
    ensures ArtifactsKept(before, rows)
  {
    forall k | k in before && (k.family == ArtifactFamily || k.family == CheckpointArtifactFamily)
      ensures k in rows && rows[k] == before[k]
    {
      assert Find(rows, k) == Find(before, k);
    }
  }

  lemma StillReady(rows: Rows, later: Rows, n: nat)
    requires IndexReady(rows, n + 1) && IndexDecodes(later) && RevisedOnce(rows, later)
    ensures IndexReady(later, n)
  {
  }

  lemma ReadyHasRoom(rows: Rows, n: nat, document: Document)
    requires IndexReady(rows, n)
    ensures IndexHasRoom(rows, document) && IndexDecodes(rows)
    ensures forall k: Key | k.family == RunLiveFamily :: HasRoom(rows, k)
  {
  }

  lemma PermittedIsPlain(c: Command)
    requires Permitted(c) && c.Write?
    ensures !Internal(c.key.family)
  {
  }

  lemma {:induction false} FaultStays(rows: Rows, commands: seq<Command>, i: nat)
    requires i <= |commands| && Plainly(rows, commands[..i]).Err?
    ensures Plainly(rows, commands).Err?
    decreases |commands|
  {
    if i < |commands| {
      assert commands[..|commands| - 1][..i] == commands[..i];
      FaultStays(rows, commands[..|commands| - 1], i);
    } else {
      assert commands[..i] == commands;
    }
  }

  /** The commands keep the index right, or rebuild it and from then on keep it right: none of them takes a live run
      out of its cell. */
  ghost predicate IndexRight(rows: Rows, commands: seq<Command>)
    decreases |commands|
  {
    if commands == [] then IndexAgrees(rows) else
    var before, last := commands[..|commands| - 1], commands[|commands| - 1];
    last.Reindex? || (IndexRight(rows, before) && !Moves(Plainly(rows, before), last))
  }

  predicate Moves(before: Result<Rows, StoreError>, c: Command) {
    before.Ok? && c.Write? && LeavesCell(before.value, c.key, c.document)
  }

  /** Before command `i`: what the commands so far have done to the store and to the bookkeeping. */
  ghost predicate Executed(start: Rows, rows: Rows, commands: seq<Command>) {
    && Plainly(start, commands).Ok? && SameReadRows(Plainly(start, commands).value, rows) && InternalKept(start, rows)
    && (forall c | c in commands :: CommandFits(c))
    && (IndexRight(start, commands) ==> IndexAgrees(rows))
  }

  lemma NothingExecuted(start: Rows)
    ensures Executed(start, start, [])
  {
  }

  lemma WriteExecuted(start: Rows, before: Rows, rows: Rows, commands: seq<Command>, c: Command)
    requires Executed(start, before, commands) && c.Write? && !Internal(c.key.family) && CommandFits(c)
    requires PutRow(before, c.key, c.expected, c.document).Ok? && c.key in rows
    requires rows[c.key] == PutRow(before, c.key, c.expected, c.document).value
    requires forall other | other != c.key && other.family != RunLiveFamily :: Find(rows, other) == Find(before, other)
    requires WriteFollowed(before, c.key, c.document, rows)
    ensures Executed(start, rows, commands + [c])
  {
    hide IndexAgrees, SameReadRows, InternalKept, PutRow, CommandFits, ArtifactsKept;
    assert (commands + [c])[..|commands|] == commands;
    PlainWrite(Plainly(start, commands).value, before, rows, c.key, c.expected, c.document);
    StatesStay(before, rows);
    StillInternal(start, before, rows);
    WriteKeepsIndex(Plainly(start, commands).value, before, rows, c);
  }

  lemma WriteKeepsIndex(plain: Rows, before: Rows, rows: Rows, c: Command)
    requires SameReadRows(plain, before) && c.Write? && !Internal(c.key.family)
    requires WriteFollowed(before, c.key, c.document, rows)
    ensures IndexAgrees(before) && !Moves(Ok(plain), c) ==> IndexAgrees(rows)
  {
    hide IndexAgrees;
    assert Find(plain, c.key) == Find(before, c.key);
  }

  lemma IndexKept(rows: Rows, later: Rows)
    requires IndexFollowed(rows, later)
    ensures IndexAgrees(rows) ==> IndexAgrees(later)
  {
  }

  lemma OtherExecuted(start: Rows, before: Rows, rows: Rows, commands: seq<Command>, c: Command)
    requires Executed(start, before, commands) && !c.Write? && CommandFits(c) && ArtifactsKept(before, rows)
    requires forall k: Key | !AddedTo(k.family) :: Find(rows, k) == Find(before, k)
    requires if c == Reindex then IndexAgrees(rows) else IndexAgrees(before) ==> IndexAgrees(rows)
    ensures Executed(start, rows, commands + [c])
  {
    hide IndexAgrees, SameReadRows, InternalKept, CommandFits, ArtifactsKept;
    assert (commands + [c])[..|commands|] == commands;
    ReadRowsStay(Plainly(start, commands).value, before, rows);
    StillInternal(start, before, rows);
  }

  lemma PreserveExecuted(start: Rows, before: Rows, rows: Rows, commands: seq<Command>, c: Command)
    requires Executed(start, before, commands) && c.Preserve? && ArtifactsKept(before, rows)
    requires forall k: Key | k.family != ArtifactFamily && k.family != CheckpointArtifactFamily :: Find(rows, k) == Find(before, k)
    ensures Executed(start, rows, commands + [c])
    ensures IndexFollowed(before, rows)
  {
    hide Executed, IndexFollowed, ArtifactsKept;
    SameIndexByFind(before, rows);
    IndexKept(before, rows);
    OtherExecuted(start, before, rows, commands, c);
  }

  lemma ReindexExecuted(start: Rows, before: Rows, rows: Rows, commands: seq<Command>)
    requires Executed(start, before, commands) && IndexAgrees(rows)
    requires forall k: Key | k.family != RunLiveFamily :: Find(rows, k) == Find(before, k)
    ensures Executed(start, rows, commands + [Reindex])
  {
    hide Executed, IndexAgrees;
    StatesStay(before, rows);
    OtherExecuted(start, before, rows, commands, Reindex);
  }

  /** Why a callback stopped at command `i`. */
  lemma Refused(start: Rows, before: Rows, commands: seq<Command>, i: nat)
    requires i < |commands| && Executed(start, before, commands[..i])
    requires !CommandFits(commands[i]) ||
      (commands[i].Write? && !Internal(commands[i].key.family)
       && PutRow(before, commands[i].key, commands[i].expected, commands[i].document).Err?)
    ensures !Applies(start, commands)
  {
    hide CommandFits, PutRow, SameReadRows;
    assert commands[i] in commands;
    if CommandFits(commands[i]) {
      var c := commands[i];
      assert commands[..i + 1][..i] == commands[..i];
      SamePut(Plainly(start, commands[..i]).value, before, c.key, c.expected, c.document);
      assert Plainly(start, commands[..i + 1]).Err?;
      FaultStays(start, commands, i + 1);
    }
  }

  /** The application's callback: any sequence of commands, up to its first error. With an index that decodes and
      has room, it succeeds exactly when every command fits and every write applies. */
  method Execute(tracking: Tracking, commands: seq<Command>) returns (r: Result<(), StoreError>)
    requires tracking.Valid() && forall c | c in commands :: Permitted(c)
    requires tracking.original == map[] && tracking.receipts == {} && tracking.evidence == map[]
    requires tracking.tx.rows == tracking.start && Injective(tracking.tx.order)
    modifies tracking, tracking.tx`rows
    ensures r.Ok? ==> Executed(tracking.start, tracking.tx.rows, commands)
    ensures IndexReady(tracking.start, |commands|) ==> (r.Ok? <==> Applies(tracking.start, commands))
    ensures r.Ok? ==> tracking.Valid()
    ensures r.Ok? ==> tracking.changed.Keys == old(tracking.changed).Keys + Touched(commands)
    ensures r.Ok? ==> tracking.original == Originals(tracking.start, commands)
    ensures r.Ok? ==> tracking.receipts == Receipted(commands) && tracking.evidence == EvidenceIn(commands)
  {
    hide Sound, Follows, Executed, Applies, PutRow, Permitted, IndexReady, CommandFits, Injective, DidOne, MayFail,
      Touched, Receipted, EvidenceIn, KeysOf, ReceiptsOf, EvidenceWith, Originals;
    ghost var start := tracking.start;
    NothingExecuted(start);
    NothingBooked(commands);
    for i := 0 to |commands|
      invariant tracking.Valid() && Executed(start, tracking.tx.rows, commands[..i])
      invariant IndexReady(start, |commands|) ==> IndexReady(tracking.tx.rows, |commands| - i)
      invariant tracking.changed.Keys == old(tracking.changed).Keys + Touched(commands[..i])
      invariant tracking.original.Keys == Touched(commands[..i])
      invariant tracking.receipts == Receipted(commands[..i]) && tracking.evidence == EvidenceIn(commands[..i])
    {
      assert commands[i] in commands;
      assert commands[..i + 1] == commands[..i] + [commands[i]];
      OneMore(commands[..i], commands[i]);
      ghost var before := tracking.tx.rows;
      var done := ExecuteOne(tracking, commands[i]);
      if done.Err? {
        if IndexReady(start, |commands|) {
          ReadyToExecute(before, |commands| - i, commands[i]);
          Refused(start, before, commands, i);
        }
        return done;
      }
      Stepped(start, before, tracking.tx.rows, commands[..i], commands[i]);
      if IndexReady(start, |commands|) {
        StepReady(before, tracking.tx.rows, |commands| - i - 1, commands[i]);
      }
    }
    assert commands[..|commands|] == commands;
    AppliesExecuted(start, tracking.tx.rows, commands);
    OriginalsKept(tracking.start, tracking.tx.rows, tracking.changed, tracking.original, commands);
    return Ok(());
  }

  lemma NothingBooked(commands: seq<Command>)
    ensures commands[..0] == [] && Touched([]) == {} && Receipted([]) == {} && EvidenceIn([]) == map[]
  {
  }

  /** What a single command does. */
  ghost predicate DidOne(before: Rows, rows: Rows, c: Command) {
    && CommandFits(c)
    && match c
       case Write(k, expected, document) =>
         && !Internal(k.family) && PutRow(before, k, expected, document).Ok?
         && k in rows && rows[k] == PutRow(before, k, expected, document).value
         && (forall other | other != k && other.family != RunLiveFamily :: Find(rows, other) == Find(before, other))
         && WriteFollowed(before, k, document, rows)
       case Append(_) => rows == before
       case Preserve(state) =>
         && ArtifactsKept(before, rows) && Readable(rows, state.run.id, Reference(state)) == Ok(state)
         && forall k: Key | k.family != ArtifactFamily && k.family != CheckpointArtifactFamily :: Find(rows, k) == Find(before, k)
       case Reindex =>
         && IndexAgrees(rows) && RevisedOnce(before, rows)
         && forall k: Key | k.family != RunLiveFamily :: Find(rows, k) == Find(before, k)
  }

  /** The reasons for which a single command fails. */
  ghost predicate MayFail(before: Rows, c: Command) {
    || !CommandFits(c)
    || (c.Write? && !Internal(c.key.family) && PutRow(before, c.key, c.expected, c.document).Err?)
    || (c.Write? && !IndexHasRoom(before, c.document))
    || (c.Reindex? && !(IndexDecodes(before) && forall k: Key | k.family == RunLiveFamily :: HasRoom(before, k)))
  }

  method ExecuteOne(tracking: Tracking, c: Command) returns (r: Result<(), StoreError>)
    requires tracking.Valid() && Permitted(c) && Injective(tracking.tx.order)
    modifies tracking, tracking.tx`rows
    ensures r.Ok? ==> tracking.Valid() && DidOne(old(tracking.tx.rows), tracking.tx.rows, c)
    ensures r.Err? ==> MayFail(old(tracking.tx.rows), c)
    ensures r.Ok? ==> tracking.changed.Keys == old(tracking.changed).Keys + KeysOf(c)
    ensures r.Ok? ==> tracking.original.Keys == old(tracking.original).Keys + KeysOf(c)
    ensures r.Ok? ==> tracking.receipts == old(tracking.receipts) + ReceiptsOf(c)
    ensures r.Ok? ==> tracking.evidence == EvidenceWith(old(tracking.evidence), c)
  {
    hide Sound, Follows, PutRow, Noted, Permitted, EntityKindOf, SchemaOf, KeyKind, IndexAgrees, WriteFollowed, RevisedOnce,
      ArtifactsKept, WriteFits, Injective, IndexHasRoom, Readable, IndexDecodes, HasRoom;
    match c
    case Write(k, expected, document) =>
      PermittedIsPlain(c);
      var put := tracking.Put(k, expected, document);
      r := if put.Err? then Err(put.error) else Ok(());
    case Append(event) =>
      r := tracking.Append(event);
    case Preserve(state) =>
      var view := tracking.Preserve(state);
      r := Ok(());
    case Reindex =>
      r := tracking.Reindex();
  }

  lemma Stepped(start: Rows, before: Rows, rows: Rows, commands: seq<Command>, c: Command)
    requires Executed(start, before, commands) && DidOne(before, rows, c)
    ensures Executed(start, rows, commands + [c])
  {
    hide Executed, IndexAgrees, WriteFollowed, RevisedOnce, ArtifactsKept, CommandFits, Readable, PutRow;
    match c
    case Write(_, _, _) => WriteExecuted(start, before, rows, commands, c);
    case Append(_) => NothingKept(before); OtherExecuted(start, before, rows, commands, c);
    case Preserve(_) => PreserveExecuted(start, before, rows, commands, c);
    case Reindex => ReindexExecuted(start, before, rows, commands);
  }

  lemma NothingKept(rows: Rows)
    ensures ArtifactsKept(rows, rows)
  {
  }

  lemma StepReady(before: Rows, rows: Rows, n: nat, c: Command)
    requires IndexReady(before, n + 1) && DidOne(before, rows, c)
    ensures IndexReady(rows, n)
  {
    hide CommandFits, PutRow, IndexAgrees, Readable, ArtifactsKept;
    match c
    case Append(_) =>
    case Preserve(_) => SameIndexByFind(before, rows); StillReady(before, rows, n);
    case Reindex => AgreedDecodes(rows); StillReady(before, rows, n);
    case Write(_, _, _) => StillReady(before, rows, n);
  }

  lemma AgreedDecodes(rows: Rows)
    requires IndexAgrees(rows)
    ensures IndexDecodes(rows)
  {
  }

  lemma ReadyToExecute(rows: Rows, n: nat, c: Command)
    requires IndexReady(rows, n) && MayFail(rows, c)
    ensures !CommandFits(c) || (c.Write? && !Internal(c.key.family) && PutRow(rows, c.key, c.expected, c.document).Err?)
  {
    hide CommandFits, PutRow;
    if c.Write? { ReadyHasRoom(rows, n, c.document); }
  }

  lemma AppliesExecuted(start: Rows, rows: Rows, commands: seq<Command>)
    requires Executed(start, rows, commands)
    ensures Applies(start, commands)
  {
    hide CommandFits;
  }

  lemma OriginalsKept(start: Rows, rows: Rows, changed: map<Key, Record>, original: map<Key, Option<Record>>, commands: seq<Command>)
    requires Follows(start, rows, changed, original) && original.Keys == Touched(commands)
    ensures original == Originals(start, commands)
  {
  }

  // ---------------------------------------------------------------- the end of a unit of work

  /** Receipts and markers read the same when internal rows are kept. */
  lemma InternalRows(start: Rows, rows: Rows, log: seq<ControlEvent>)
    requires InternalKept(start, rows)
    ensures ReceiptsKept(start, log) ==> ReceiptsKept(rows, log)
    ensures ArtifactsKept(start, rows)
    ensures Find(rows, INITIALIZED) == Find(start, INITIALIZED)
    ensures Find(rows, CHECKPOINTS_INITIALIZED) == Find(start, CHECKPOINTS_INITIALIZED)
    ensures ReceiptsStay(start, rows) && forall id :: Find(rows, CurrentKey(id)) == Find(start, CurrentKey(id))
  {
    forall k: Key | k.family == AdmissionReceiptFamily
      ensures k in rows <==> k in start
      ensures k in rows ==> rows[k] == start[k]
    {
      assert Find(rows, k) == Find(start, k);
    }
    if ReceiptsKept(start, log) {
      forall i | 0 <= i < |log| && IsAdmission(log[i])
        ensures HasReceipt(rows, log[i], i + 1)
      {
        assert HasReceipt(start, log[i], i + 1);
      }
    }
  }

  /** Derived rows leave everything sound, and the index as it was. */
  lemma ProjectionsKeepSound(rows: Rows, later: Rows)
    requires Sound(rows) && OnlyProjections(rows, later) && Keyed(later) && ArtifactsSound(later)
    ensures Sound(later) && SameControl(rows, later) && IndexFollowed(rows, later)
    ensures Find(later, INITIALIZED) == Find(rows, INITIALIZED)
    ensures Find(later, CHECKPOINTS_INITIALIZED) == Find(rows, CHECKPOINTS_INITIALIZED)
  {
    hide Sound, IndexFollowed;
    ProjectionsAreOthers(rows, later);
    OtherRowsSound(rows, later);
    SameIndexByFind(rows, later);
  }

  lemma ProjectionsAreOthers(rows: Rows, later: Rows)
    requires OnlyProjections(rows, later)
    ensures OnlyOtherRows(rows, later)
  {
  }

  /** Writing a version marker disturbs nothing. */
  lemma MarkerKeeps(rows: Rows, log: seq<ControlEvent>, row: Record)
    requires Sound(rows) && ReceiptsKept(rows, log)
    requires row.key == INITIALIZED || row.key == CHECKPOINTS_INITIALIZED
    requires row.document == Plain(VersionSchema, 0)
    ensures var later := rows[row.key := row];
      && Sound(later) && ReceiptsKept(later, log) && ArtifactsKept(rows, later) && SameControl(rows, later)
      && SamePlain(rows, later) && IndexFollowed(rows, later) && DerivedStay(rows, later)
  {
    hide Sound, ReceiptsKept, IndexFollowed, WriteFollowed;
    MarkerFits(row);
    WriteSound(rows, row);
    PlainWriteKeepsIndex(rows, row);
    MarkerKeepsReceipts(rows, log, row);
  }

  lemma MarkerFits(row: Record)
    requires row.key == INITIALIZED || row.key == CHECKPOINTS_INITIALIZED
    requires row.document == Plain(VersionSchema, 0)
    ensures RowFits(row)
  {
  }

  lemma MarkerKeepsReceipts(rows: Rows, log: seq<ControlEvent>, row: Record)
    requires ReceiptsKept(rows, log) && (row.key == INITIALIZED || row.key == CHECKPOINTS_INITIALIZED)
    ensures ReceiptsKept(rows[row.key := row], log)
  {
    forall i | 0 <= i < |log| && IsAdmission(log[i])
      ensures HasReceipt(rows[row.key := row], log[i], i + 1)
    {
      assert HasReceipt(rows, log[i], i + 1);
    }
  }

  /** Receipts, current snapshots and the installation are as they were. */
  ghost predicate DerivedStay(a: Rows, b: Rows) {
    && (forall k: Key | k.family == RunCheckpointFamily || k.family == AdmissionReceiptFamily :: Find(b, k) == Find(a, k))
    && Find(b, INSTALLATION) == Find(a, INSTALLATION)
  }

  lemma DerivedStayChain(a: Rows, b: Rows, c: Rows)
    requires DerivedStay(a, b) && DerivedStay(b, c)
    ensures DerivedStay(a, c)
  {
    forall k: Key | k.family == RunCheckpointFamily || k.family == AdmissionReceiptFamily
      ensures Find(c, k) == Find(a, k)
    {
      assert Find(c, k) == Find(b, k);
    }
  }

  /** Everything that the end of a unit keeps, from one state of the rows to a later one. */
  ghost predicate Carries(a: Rows, b: Rows) {
    ArtifactsKept(a, b) && SameControl(a, b) && SamePlain(a, b) && (IndexAgrees(a) ==> IndexAgrees(b))
  }

  lemma DerivedItself(a: Rows)
    ensures DerivedStay(a, a)
  {
  }

  lemma CarriesItself(a: Rows)
    ensures Carries(a, a)
  {
  }

  lemma CarriesOn(a: Rows, b: Rows, c: Rows)
    requires Carries(a, b) && Carries(b, c)
    ensures Carries(a, c)
  {
    hide IndexAgrees;
    SamePlainChain(a, b, c);
    SameControlChain(a, b, c);
    KeptChain(a, b, c);
  }

  lemma SameControlChain(a: Rows, b: Rows, c: Rows)
    requires SameControl(a, b) && SameControl(b, c)
    ensures SameControl(a, c)
  {
    forall k: Key | KeyKind(k.family).Some?
      ensures Find(c, k) == Find(a, k)
    {
      assert Find(c, k) == Find(b, k);
    }
  }

  lemma KeptChain(a: Rows, b: Rows, c: Rows)
    requires ArtifactsKept(a, b) && ArtifactsKept(b, c)
    ensures ArtifactsKept(a, c)
  {
  }

  /** Note, at the end of the first unit of work, that the journal and the checkpoints exist. */
  method Mark(tx: Transaction, checkpoints: bool, journal: bool) returns (r: Result<(), StoreError>)
    requires Sound(tx.rows) && ReceiptsKept(tx.rows, tx.log)
    modifies tx`rows
    ensures (checkpoints ==> CHECKPOINTS_INITIALIZED !in old(tx.rows)) && (journal ==> INITIALIZED !in old(tx.rows)) ==> r.Ok?
    ensures r.Ok? ==> Sound(tx.rows) && ReceiptsKept(tx.rows, tx.log) && Carries(old(tx.rows), tx.rows)
    ensures r.Ok? ==> (INITIALIZED in tx.rows <==> journal || INITIALIZED in old(tx.rows))
    ensures r.Ok? ==> (CHECKPOINTS_INITIALIZED in tx.rows <==> checkpoints || CHECKPOINTS_INITIALIZED in old(tx.rows))
    ensures r.Ok? ==> DerivedStay(old(tx.rows), tx.rows)
  {
    hide Sound, ReceiptsKept, ArtifactsKept, SameControl, SamePlain, IndexAgrees, Carries, DerivedStay;
    ghost var a := tx.rows;
    CarriesItself(a);
    DerivedItself(a);
    if checkpoints {
      var put := tx.Put(CHECKPOINTS_INITIALIZED, None, Plain(VersionSchema, 0));
      if put.Err? { return Err(put.error); }
      MarkerKeeps(a, tx.log, put.value);
      MarkerCarries(a, tx.rows);
    }
    ghost var b := tx.rows;
    CarriesItself(b);
    DerivedItself(b);
    if journal {
      var put := tx.Put(INITIALIZED, None, Plain(VersionSchema, 0));
      if put.Err? { return Err(put.error); }
      MarkerKeeps(b, tx.log, put.value);
      MarkerCarries(b, tx.rows);
    }
    CarriesOn(a, b, tx.rows);
    DerivedStayChain(a, b, tx.rows);
    return Ok(());
  }

  lemma MarkerCarries(a: Rows, b: Rows)
    requires ArtifactsKept(a, b) && SameControl(a, b) && SamePlain(a, b) && IndexFollowed(a, b)
    ensures Carries(a, b)
  {
    hide IndexAgrees;
  }

  /** What a committed unit of work means for the log. */
  lemma Committed(start: Rows, rows: Rows, later: Rows, log: seq<ControlEvent>, news: seq<ControlEvent>,
                  changed: map<Key, Record>, original: map<Key, Option<Record>>, seed: bool,
                  receipts: set<Id>, evidence: map<Id, set<Id>>)
    requires Sound(start) && Sound(rows) && Sound(later) && SameControl(rows, later)
    requires Follows(start, rows, changed, original) && Journals(news, changed, changed.Keys, original, seed, receipts, evidence)
    requires JournalKept(start, log) && (seed <==> INITIALIZED !in start)
    requires Seeds(start) <= changed.Keys
    ensures Agrees(later, log + news) && OneEventEach(changed.Keys, start, later, news)
    ensures Classified(later, news, original, seed, receipts, evidence)
  {
    hide ArtifactsSound, RunsPlaced, Journals, EventOf, Agrees, Projects, Follows, SameControl, JournalKept, Seeds;
    Unseeded(start, log, changed.Keys);
    CommitAgrees(start, rows, later, log, news, changed, original, seed, receipts, evidence);
    EventsOfChanges(start, rows, later, news, changed, original, seed, receipts, evidence);
  }

  /** What the first unit does not seed is shown by the log already. */
  lemma Unseeded(start: Rows, log: seq<ControlEvent>, due: set<Key>)
    requires Sound(start) && JournalKept(start, log) && Seeds(start) <= due
    ensures INITIALIZED !in start ==> log == [] && forall k | ControlAt(start, k) :: k in due
    ensures INITIALIZED in start ==> Covers(start, log) && forall k | k !in due :: ShownAt(start, log, k)
    ensures forall id | RunKey(id) in Replay(log) && RunKey(id) !in due :: IsCurrent(start, id, Replay(log)[RunKey(id)])
  {
    hide Projects, IsControl, KindAt, ArtifactsSound, RunsPlaced;
    forall k | ControlAt(start, k)
      ensures INITIALIZED !in start ==> k in due
      ensures CHECKPOINTS_INITIALIZED !in start && k.family == RunFamily ==> k in due
    {
      ControlKinds(start, k);
      assert INITIALIZED !in start ==> k in Seeds(start);
      assert CHECKPOINTS_INITIALIZED !in start && k.family == RunFamily ==> k in Seeds(start);
    }
    assert INITIALIZED !in start ==> Replay(log) == map[];
  }

  /** The current snapshots of a committed unit: those of its own runs, and those of all others as they were. */
  lemma CurrentFollows(start: Rows, rows: Rows, later: Rows, log: seq<ControlEvent>, news: seq<ControlEvent>,
                       changed: map<Key, Record>, original: map<Key, Option<Record>>, seed: bool,
                       receipts: set<Id>, evidence: map<Id, set<Id>>)
    requires Sound(start) && JournalKept(start, log) && Seeds(start) <= changed.Keys
    requires Follows(start, rows, changed, original) && RunsPlaced(rows)
    requires Journals(news, changed, changed.Keys, original, seed, receipts, evidence) && AllFiled(later, news)
    requires forall id | RunKey(id) !in changed :: Find(later, CurrentKey(id)) == Find(start, CurrentKey(id))
    ensures CurrentAgrees(later, log + news)
  {
    hide Sound, JournalKept, Seeds, Follows, RunsPlaced, Journals, Filed;
    Unseeded(start, log, changed.Keys);
    forall id | RunKey(id) in Replay(log + news)
      ensures IsCurrent(later, id, Replay(log + news)[RunKey(id)])
    {
      var k := RunKey(id);
      if k in changed {
        RunIsFiled(start, rows, later, log, news, changed, original, seed, receipts, evidence, id);
      } else {
        Unchanged(news, changed, original, seed, receipts, evidence, k);
        ReplayUntouched(log, news, k);
        assert Find(later, CurrentKey(id)) == Find(start, CurrentKey(id));
        assert IsCurrent(start, id, Replay(log)[k]);
      }
    }
  }

  lemma Unchanged(news: seq<ControlEvent>, changed: map<Key, Record>, original: map<Key, Option<Record>>, seed: bool,
                  receipts: set<Id>, evidence: map<Id, set<Id>>, k: Key)
    requires Journals(news, changed, changed.Keys, original, seed, receipts, evidence) && k !in changed
    ensures forall j | 0 <= j < |news| :: news[j].entity.key != k
  {
  }

  lemma RunIsFiled(start: Rows, rows: Rows, later: Rows, log: seq<ControlEvent>, news: seq<ControlEvent>,
                   changed: map<Key, Record>, original: map<Key, Option<Record>>, seed: bool,
                   receipts: set<Id>, evidence: map<Id, set<Id>>, id: Id)
    requires Follows(start, rows, changed, original) && RunsPlaced(rows) && RunKey(id) in changed
    requires Journals(news, changed, changed.Keys, original, seed, receipts, evidence) && AllFiled(later, news)
    ensures RunKey(id) in Replay(log + news) && IsCurrent(later, id, Replay(log + news)[RunKey(id)])
  {
    hide Projects, ChangeOf;
    var k := RunKey(id);
    assert rows[k] == changed[k] && IsControl(changed[k]);
    var i :| 0 <= i < |news| && news[i].entity.key == k;
    assert EventOf(news[i], changed[k], original, seed, receipts, evidence);
    assert Filed(later, news[i]);
    NewsAreLast(log, news, i);
  }

  lemma EventsOfChanges(start: Rows, rows: Rows, later: Rows, news: seq<ControlEvent>,
                        changed: map<Key, Record>, original: map<Key, Option<Record>>, seed: bool,
                        receipts: set<Id>, evidence: map<Id, set<Id>>)
    requires OwnFamilies(later) && SameControl(rows, later) && Follows(start, rows, changed, original)
    requires Journals(news, changed, changed.Keys, original, seed, receipts, evidence)
    ensures OneEventEach(changed.Keys, start, later, news)
    ensures Classified(later, news, original, seed, receipts, evidence)
  {
    hide IsControl, KindAt, Projects, ChangeOf;
    forall k | k in changed
      ensures k in later && later[k] == changed[k]
    {
      assert Find(later, k) == Find(rows, k);
    }
    forall i | 0 <= i < |news|
      ensures ControlAt(later, news[i].entity.key) && Projects(later[news[i].entity.key], news[i].entity)
      ensures EventOf(news[i], later[news[i].entity.key], original, seed, receipts, evidence)
    {
      var k := news[i].entity.key;
      assert EventOf(news[i], changed[k], original, seed, receipts, evidence);
      EventIsControl(news[i], changed[k], original, seed, receipts, evidence);
    }
    forall k
      ensures HasEvent(news, k) <==> k in changed.Keys && ControlAt(later, k)
    {
      if HasEvent(news, k) {
        var i :| 0 <= i < |news| && news[i].entity.key == k;
        assert ControlAt(later, news[i].entity.key);
      }
    }
    forall k | ControlAt(later, k) && Find(start, k) != Find(later, k)
      ensures k in changed
    {
      ControlKinds(later, k);
      assert Find(later, k) == Find(rows, k);
    }
  }

  lemma EventIsControl(e: ControlEvent, r: Record, original: map<Key, Option<Record>>, seed: bool,
                       receipts: set<Id>, evidence: map<Id, set<Id>>)
    requires EventOf(e, r, original, seed, receipts, evidence)
    ensures IsControl(r) && Projects(r, e.entity)
  {
  }

  lemma Bookkept(start: Rows, rows: Rows, changed: map<Key, Record>, original: map<Key, Option<Record>>)
    requires Sound(rows) && Follows(start, rows, changed, original)
    ensures Keyed(rows) && ArtifactsSound(rows) && (forall k | k in changed :: changed[k].key == k)
    ensures RunsUnderTheirKeys(changed)
  {
    forall k | k in changed && changed[k].document.RunDoc?
      ensures k == RunKey(changed[k].document.run.id)
    {
      assert rows[k] == changed[k] && IsControl(rows[k]);
      assert KeyKind(k.family) == KindAt(rows[k]);
    }
  }

  lemma Restored(rows: Rows, log: seq<ControlEvent>)
    requires Sound(rows) && ReceiptsKept(rows, log) && INITIALIZED in rows && CHECKPOINTS_INITIALIZED in rows
    requires Agrees(rows, log) && CurrentAgrees(rows, log)
    ensures Healthy(rows, log)
  {
  }

  lemma LoggedSnapshots(start: Rows, journalled: Rows, rows: Rows, log: seq<ControlEvent>, news: seq<ControlEvent>)
    requires SnapshotsValid(start, log) && SnapshotsValid(journalled, news)
    requires ArtifactsKept(start, rows) && ArtifactsKept(journalled, rows)
    ensures SnapshotsValid(rows, log + news)
  {
    hide SnapshotsValid, ArtifactsKept;
    NoSnapshots(rows);
    SnapshotsStay(journalled, rows, news, []);
    assert news + [] == news;
    SnapshotsStay(start, rows, log, news);
  }

  lemma ProjectionsCarry(a: Rows, b: Rows)
    requires OnlyProjections(a, b) && ArtifactsKept(a, b) && SameControl(a, b) && IndexFollowed(a, b)
    ensures Carries(a, b)
  {
    hide IndexAgrees, OnlyProjections, SameControl, ArtifactsKept;
    ProjectionsArePlain(a, b);
  }

  /** The end of a unit of work: journal what changed and set the markers. It succeeds exactly when every changed
      record can be journalled. */
  method Conclude(tracking: Tracking, seed: bool, checkpointSeed: bool)
    returns (r: Result<(), StoreError>, ghost news: seq<ControlEvent>)
    requires tracking.Valid() && Injective(tracking.tx.order)
    requires Begun(tracking.start, tracking.tx.rows, tracking.tx.log)
    requires (seed <==> INITIALIZED !in tracking.start) && (checkpointSeed <==> CHECKPOINTS_INITIALIZED !in tracking.start)
    requires Seeds(tracking.start) <= tracking.changed.Keys
    modifies tracking.tx
    ensures r.Ok? <==> AllJournalable(old(tracking.tx.rows), tracking.changed, tracking.original, seed, tracking.receipts, tracking.evidence)
    ensures r.Ok? ==> SnapshotsValid(tracking.tx.rows, tracking.tx.log)
    ensures r.Ok? ==> Healthy(tracking.tx.rows, tracking.tx.log)
    ensures r.Ok? ==> Consistent(tracking.tx.rows, tracking.tx.log)
    ensures r.Ok? ==> tracking.tx.log == old(tracking.tx.log) + news && AllFiled(tracking.tx.rows, news)
    ensures r.Ok? ==> ReceiptsStay(old(tracking.tx.rows), tracking.tx.rows)
    ensures r.Ok? ==> Carries(old(tracking.tx.rows), tracking.tx.rows)
    ensures r.Ok? ==> OneEventEach(tracking.changed.Keys, tracking.start, tracking.tx.rows, news)
    ensures r.Ok? ==> Classified(tracking.tx.rows, news, tracking.original, seed, tracking.receipts, tracking.evidence)
  {
    hide Classified, Sound, JournalKept, ReceiptsKept, Agrees, ArtifactsKept, Follows, Journals, OneEventEach, Carries,
      SameControl, OnlyProjections, Seeds, Healthy, PutRow, SamePlain, SnapshotsValid, AllJournalable, IndexFollowed,
      RunsUnderTheirKeys, CurrentAgrees, AllFiled, DerivedStay, RunsPlaced, ReceiptsStay, Begun;
    var tx := tracking.tx;
    ghost var worked, startLog := tx.rows, tx.log;
    BegunBy(tracking.start, worked, startLog);
    Bookkept(tracking.start, worked, tracking.changed, tracking.original);
    r, news := tracking.Finish(seed);
    if r.Err? { return; }
    ghost var journalled := tx.rows;
    ProjectionsKeepSound(worked, journalled);
    ProjectionsCarry(worked, journalled);
    var marked := Mark(tx, checkpointSeed, seed);
    if marked.Err? { return marked, news; }
    CarriesOn(worked, journalled, tx.rows);
    CarriedRows(journalled, tx.rows);
    CarriedRows(worked, tx.rows);
    KeptChain(tracking.start, worked, tx.rows);
    Committed(tracking.start, worked, tx.rows, startLog, news, tracking.changed, tracking.original, seed,
              tracking.receipts, tracking.evidence);
    FiledStill(worked, journalled, tx.rows, news, tracking.changed.Keys);
    PlacedRuns(worked);
    CurrentFollows(tracking.start, worked, tx.rows, startLog, news, tracking.changed, tracking.original, seed,
                   tracking.receipts, tracking.evidence);
    Restored(tx.rows, tx.log);
    LoggedSnapshots(tracking.start, journalled, tx.rows, startLog, news);
    r := Ok(());
  }

  /** Where a unit of work stands when its callback is done. */
  ghost predicate Begun(start: Rows, rows: Rows, log: seq<ControlEvent>) {
    && Sound(start) && JournalKept(start, log) && ReceiptsKept(rows, log) && SnapshotsValid(start, log)
    && ArtifactsKept(start, rows)
    && Find(rows, INITIALIZED) == Find(start, INITIALIZED)
    && Find(rows, CHECKPOINTS_INITIALIZED) == Find(start, CHECKPOINTS_INITIALIZED)
    && forall id :: Find(rows, CurrentKey(id)) == Find(start, CurrentKey(id))
  }

  lemma BegunBy(start: Rows, rows: Rows, log: seq<ControlEvent>)
    requires Begun(start, rows, log)
    ensures Sound(start) && JournalKept(start, log) && ReceiptsKept(rows, log) && SnapshotsValid(start, log)
    ensures ArtifactsKept(start, rows)
    ensures INITIALIZED in rows <==> INITIALIZED in start
    ensures CHECKPOINTS_INITIALIZED in rows <==> CHECKPOINTS_INITIALIZED in start
    ensures forall id :: Find(rows, CurrentKey(id)) == Find(start, CurrentKey(id))
  {
    hide Sound, JournalKept, ReceiptsKept, SnapshotsValid, ArtifactsKept;
  }

  lemma PlacedRuns(rows: Rows)
    requires Sound(rows)
    ensures RunsPlaced(rows)
  {
  }

  /** The markers leave what goes with the events alone. */
  lemma FiledStill(worked: Rows, journalled: Rows, rows: Rows, news: seq<ControlEvent>, due: set<Key>)
    requires AllFiled(journalled, news) && ReceiptsStay(worked, journalled) && DerivedStay(journalled, rows)
    requires forall id | RunKey(id) !in due :: Find(journalled, CurrentKey(id)) == Find(worked, CurrentKey(id))
    ensures AllFiled(rows, news) && ReceiptsStay(worked, rows)
    ensures forall id | RunKey(id) !in due :: Find(rows, CurrentKey(id)) == Find(worked, CurrentKey(id))
  {
    forall i | 0 <= i < |news|
      ensures Filed(rows, news[i])
    {
      assert Filed(journalled, news[i]);
      FiledOnSame(journalled, rows, news[i]);
    }
    forall k | k in worked && k.family == AdmissionReceiptFamily
      ensures k in rows && rows[k] == worked[k]
    {
      assert Find(rows, k) == Find(journalled, k);
    }
    forall id | RunKey(id) !in due
      ensures Find(rows, CurrentKey(id)) == Find(worked, CurrentKey(id))
    {
      assert Find(rows, CurrentKey(id)) == Find(journalled, CurrentKey(id));
    }
  }

  lemma FiledOnSame(a: Rows, b: Rows, e: ControlEvent)
    requires DerivedStay(a, b) && Filed(a, e)
    ensures Filed(b, e)
  {
    assert Find(b, INSTALLATION) == Find(a, INSTALLATION);
    if e.kind == EntityKind.Run {
      var k := CurrentKey(e.entity.document.snapshot.run.id);
      assert Find(b, k) == Find(a, k);
    }
    if IsAdmission(e) {
      var k := ReceiptKey(e.entity.document.work.operation.id);
      assert Find(b, k) == Find(a, k);
    }
  }

  /** Both the log and the current snapshots agree with the rows. */
  ghost predicate Consistent(rows: Rows, log: seq<ControlEvent>) {
    INITIALIZED in rows && CHECKPOINTS_INITIALIZED in rows && Agrees(rows, log) && CurrentAgrees(rows, log)
  }

  lemma CarriedRows(a: Rows, b: Rows)
    requires Carries(a, b)
    ensures ArtifactsKept(a, b) && SameControl(a, b) && SamePlain(a, b) && (IndexAgrees(a) ==> IndexAgrees(b))
  {
  }

  // ---------------------------------------------------------------- whole units of work

  /** The records that are due are those the plain writes leave. */
  lemma DueRecords(start: Rows, plain: Rows, rows: Rows, changed: map<Key, Record>, original: map<Key, Option<Record>>, due: set<Key>)
    requires Follows(start, rows, changed, original) && SameReadRows(plain, rows) && changed.Keys == due
    ensures changed == Final(plain, due)
  {
    forall k | k in due
      ensures k in plain && plain[k] == changed[k]
    {
      assert Find(plain, k) == Find(rows, k);
    }
  }

  /** Whether a unit can be journalled is read off the plain rows. */
  lemma JournalableOnPlainRows(plain: Rows, rows: Rows, changed: map<Key, Record>, original: map<Key, Option<Record>>,
                               seed: bool, receipts: set<Id>, evidence: map<Id, set<Id>>)
    requires SameReadRows(plain, rows)
    ensures AllJournalable(rows, changed, original, seed, receipts, evidence) <==>
      AllJournalable(plain, changed, original, seed, receipts, evidence)
  {
    hide SameReadRows, SameAdmission, Journalable;
    forall k | k in changed
      ensures Journalable(rows, changed[k], original, seed, receipts, evidence) <==>
        Journalable(plain, changed[k], original, seed, receipts, evidence)
    {
      OneOnPlainRows(plain, rows, changed[k], original, seed, receipts, evidence);
    }
  }

  lemma OneOnPlainRows(plain: Rows, rows: Rows, r: Record, original: map<Key, Option<Record>>,
                       seed: bool, receipts: set<Id>, evidence: map<Id, set<Id>>)
    requires SameReadRows(plain, rows)
    ensures Journalable(rows, r, original, seed, receipts, evidence) <==> Journalable(plain, r, original, seed, receipts, evidence)
  {
    hide Capturable, Admits;
    if r.document.RunDoc? {
      SameReadings(plain, rows, r.document.run);
      assert Find(plain, CurrentKey(r.document.run.id)) == Find(rows, CurrentKey(r.document.run.id));
    }
    if Admits(r, original, seed, receipts, evidence) {
      AdmitsWork(r, original, seed, receipts, evidence);
      assert Find(plain, INSTALLATION) == Find(rows, INSTALLATION);
      assert Find(plain, ReceiptKey(r.document.work.operation.id)) == Find(rows, ReceiptKey(r.document.work.operation.id));
    }
  }

  /** What a committed unit of work has done. */
  ghost predicate Done(rows: Rows, log: seq<ControlEvent>, later: Rows, more: seq<ControlEvent>, commands: seq<Command>) {
    && log <= more && Consistent(later, more) && AllFiled(later, more[|log|..]) && ReceiptsStay(rows, later)
    && Applies(rows, commands) && SamePlain(Plainly(rows, commands).value, later)
    && OneEventEach(Due(rows, commands), rows, later, more[|log|..])
    && Classified(later, more[|log|..], Originals(rows, commands), INITIALIZED !in rows, Receipted(commands), EvidenceIn(commands))
    && ArtifactsKept(rows, later)
    && (IndexRight(rows, commands) ==> IndexAgrees(later))
  }

  /** Everything between the beginning of a transaction and its commit. */
  method Perform(tx: Transaction, commands: seq<Command>) returns (r: Result<(), StoreError>)
    requires Healthy(tx.rows, tx.log) && SnapshotsValid(tx.rows, tx.log) && Injective(tx.order)
    requires forall c | c in commands :: Permitted(c)
    modifies tx
    ensures r.Ok? ==> Healthy(tx.rows, tx.log) && SnapshotsValid(tx.rows, tx.log)
    ensures r.Ok? ==> Done(old(tx.rows), old(tx.log), tx.rows, tx.log, commands) && Commits(old(tx.rows), commands)
    ensures IndexReady(old(tx.rows), |commands|) ==> (r.Ok? <==> Commits(old(tx.rows), commands))
  {
    hide Classified, Originals, Receipted, EvidenceIn, SamePlain, SameReadRows, Plainly, PutRow, SnapshotsValid, Injective,
      Sound, JournalKept, ReceiptsKept, Agrees, ArtifactsKept, Follows, OneEventEach, Executed, AllJournalable, Carries,
      InternalKept, Seeds, Touched, Permitted, Healthy, Applies, IndexReady, Final, Commits, Done, Due, IndexAgrees,
      AllFiled, ReceiptsStay, Consistent;
    ghost var start, startLog := tx.rows, tx.log;
    NothingYet(start, startLog);
    var seed := tx.Get(INITIALIZED).None?;
    var checkpointSeed := tx.Get(CHECKPOINTS_INITIALIZED).None?;
    var tracking := new Tracking(tx);
    Prepare(tracking, seed, checkpointSeed);
    r := Execute(tracking, commands);
    CommitsApply(start, commands);
    if r.Err? { return; }
    ghost var worked := tx.rows;
    ExecutedRows(start, worked, commands);
    InternalRows(start, worked, startLog);
    DueBy(start, commands);
    DueRecords(start, Plainly(start, commands).value, worked, tracking.changed, tracking.original, Due(start, commands));
    JournalableOnPlainRows(Plainly(start, commands).value, worked, tracking.changed, tracking.original, seed,
                           tracking.receipts, tracking.evidence);
    CommitsBy(start, commands);
    ghost var news;
    r, news := Conclude(tracking, seed, checkpointSeed);
    if r.Err? { return; }
    assert tx.log[|startLog|..] == news;
    CarriedRows(worked, tx.rows);
    DoneBy(start, startLog, worked, tx.rows, tx.log, commands);
  }

  lemma ReceiptsChain(a: Rows, b: Rows, c: Rows)
    requires ReceiptsStay(a, b) && ReceiptsStay(b, c)
    ensures ReceiptsStay(a, c)
  {
  }

  lemma DueBy(rows: Rows, commands: seq<Command>)
    ensures Due(rows, commands) == Seeds(rows) + Touched(commands)
  {
  }

  lemma CommitsApply(rows: Rows, commands: seq<Command>)
    ensures Commits(rows, commands) ==> Applies(rows, commands)
    ensures Applies(rows, commands) ==> Plainly(rows, commands).Ok?
  {
  }

  lemma CommitsBy(rows: Rows, commands: seq<Command>)
    requires Applies(rows, commands)
    ensures Commits(rows, commands) <==>
      AllJournalable(Plainly(rows, commands).value, Final(Plainly(rows, commands).value, Due(rows, commands)),
                     Originals(rows, commands), INITIALIZED !in rows, Receipted(commands), EvidenceIn(commands))
  {
  }

  lemma ExecutedRows(start: Rows, rows: Rows, commands: seq<Command>)
    requires Executed(start, rows, commands)
    ensures Applies(start, commands) && Plainly(start, commands).Ok?
    ensures SameReadRows(Plainly(start, commands).value, rows) && InternalKept(start, rows)
    ensures IndexRight(start, commands) ==> IndexAgrees(rows)
  {
    AppliesExecuted(start, rows, commands);
  }

  lemma DoneBy(start: Rows, log: seq<ControlEvent>, worked: Rows, later: Rows, more: seq<ControlEvent>, commands: seq<Command>)
    requires log <= more && Consistent(later, more) && AllFiled(later, more[|log|..])
    requires ReceiptsStay(start, worked) && ReceiptsStay(worked, later)
    requires Applies(start, commands) && SameReadRows(Plainly(start, commands).value, worked) && SamePlain(worked, later)
    requires OneEventEach(Due(start, commands), start, later, more[|log|..])
    requires Classified(later, more[|log|..], Originals(start, commands), INITIALIZED !in start, Receipted(commands), EvidenceIn(commands))
    requires ArtifactsKept(start, worked) && ArtifactsKept(worked, later)
    requires IndexRight(start, commands) ==> IndexAgrees(worked)
    requires IndexAgrees(worked) ==> IndexAgrees(later)
    ensures Done(start, log, later, more, commands)
  {
    hide IndexAgrees, SameReadRows, SamePlain, ArtifactsKept, Consistent, OneEventEach, Classified, Originals, Receipted,
      EvidenceIn, Plainly, AllFiled, ReceiptsStay;
    KeptChain(start, worked, later);
    ReceiptsChain(start, worked, later);
    CommitsApply(start, commands);
    PlainChain(Plainly(start, commands).value, worked, later);
  }

  /** In every repository that has been through a unit of work, the current snapshot of a run is of that very record
      of the run, and its stored state reads back as one of the same record. */
  lemma CurrentSnapshotIsOfTheRun(rows: Rows, log: seq<ControlEvent>, id: Id)
    requires Healthy(rows, log) && SnapshotsValid(rows, log) && Consistent(rows, log) && RunKey(id) in rows
    ensures var k := CurrentKey(id);
      && k in rows && rows[k].document.SnapshotDoc?
      && var s := rows[k].document.snapshot;
      && RunDoc(s.run) == rows[RunKey(id)].document && s.revision == rows[RunKey(id)].revision
      && ValidSnapshot(rows, s)
      && var state := Readable(rows, id, s.checkpoint.payload);
      && state.Ok? && state.value.run == s.run && state.value.revision == s.revision
  {
    hide ReceiptsKept, ArtifactsSound, OwnFamilies;
    var k := RunKey(id);
    assert IsControl(rows[k]) && ControlAt(rows, k);
    assert k in Replay(log) && ShownAt(rows, log, k);
    ReplayIsLogged(log, k);
    var i :| 0 <= i < |log| && log[i].entity == Replay(log)[k];
    assert SnapshotValid(rows, log[i]);
    assert IsCurrent(rows, id, Replay(log)[k]);
  }

  lemma {:induction false} ReplayIsLogged(log: seq<ControlEvent>, k: Key)
    requires k in Replay(log)
    ensures exists i :: 0 <= i < |log| && log[i].entity == Replay(log)[k]
    decreases |log|
  {
    var last := |log| - 1;
    if log[last].entity.key == k {
      assert log[last].entity == Replay(log)[k];
    } else {
      ReplayIsLogged(log[..last], k);
      var i :| 0 <= i < last && log[..last][i].entity == Replay(log[..last])[k];
      assert log[i].entity == Replay(log)[k];
    }
  }

  /** The admissions of a unit of work are exactly its new works that came without evidence and host receipt;
      a work that was there before, seeded or not, is none. */
  lemma AdmissionsOfAUnit(start: Rows, commands: seq<Command>, rows: Rows, news: seq<ControlEvent>, seed: bool, i: nat)
    requires Classified(rows, news, Originals(start, commands), seed, Receipted(commands), EvidenceIn(commands))
    requires i < |news| && news[i].kind == Work && rows[news[i].entity.key].document.WorkDoc?
    ensures var operation := rows[news[i].entity.key].document.work.operation.id;
      IsAdmission(news[i]) <==>
        && news[i].entity.key in Touched(commands) && news[i].entity.key !in start
        && operation !in EvidenceIn(commands) && operation !in Receipted(commands)
  {
    hide KindAt, Projects, Touched, Receipted, EvidenceIn;
    var r := rows[news[i].entity.key];
    assert EventOf(news[i], r, Originals(start, commands), seed, Receipted(commands), EvidenceIn(commands));
    WhatCountsAsAdmission(r, Originals(start, commands), seed, Receipted(commands), EvidenceIn(commands));
  }

  /** A new work that a unit leaves in any but its admitted first revision, or without an installation, or for an
      operation that already has its receipt, refuses the unit. */
  lemma UnfitAdmissionRefusesTheUnit(rows: Rows, commands: seq<Command>, k: Key)
    requires Applies(rows, commands) && k in Touched(commands) && k !in rows
    requires var plain := Plainly(rows, commands).value;
      && k in plain && plain[k].key == k && KindAt(plain[k]) == Some(Work) && plain[k].document.WorkDoc?
      && var work := plain[k].document.work;
      && work.operation.id !in EvidenceIn(commands) && work.operation.id !in Receipted(commands)
      && (work.operation.phase != Op.Admitted || work.operation.revision != 1
          || INSTALLATION !in plain || !plain[INSTALLATION].document.InstallationDoc?
          || ReceiptKey(work.operation.id) in plain)
    ensures !Commits(rows, commands)
  {
    hide KindAt, Touched, Receipted, EvidenceIn, Plainly, Capturable;
    var plain := Plainly(rows, commands).value;
    WhatCountsAsAdmission(plain[k], Originals(rows, commands), INITIALIZED !in rows, Receipted(commands), EvidenceIn(commands));
    assert k in Final(plain, Due(rows, commands));
    assert !Journalable(plain, plain[k], Originals(rows, commands), INITIALIZED !in rows, Receipted(commands), EvidenceIn(commands));
  }
}
