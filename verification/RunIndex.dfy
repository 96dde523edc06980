/** The per-cell set of live runs (crates/rx-application/src/run_index.rs). */
module RunIndex {
  import opened Base
  import opened Store

  function LiveKey(cell: Name): Key { Key(RunLiveFamily, NameOf(cell)) }

  function RunKey(id: Id): Key { Key(RunFamily, IdOf(id)) }

  predicate Live(run: RunValue) {
    run.state != Completed && run.state != Abandoned
  }

  predicate LiveRow(r: Record, cell: Name) {
    r.document.RunDoc? && r.document.run.cell == cell && Live(r.document.run)
  }

  /** The live runs of a cell, read from the runs themselves. */
  function LiveOf(rows: Rows, cell: Name): set<Id> {
    set k | k in rows && k.family == RunFamily && LiveRow(rows[k], cell) :: rows[k].document.run.id
  }

  /** The live runs of a cell according to the index. */
  function Indexed(rows: Rows, cell: Name): set<Id> {
    var k := LiveKey(cell);
    if k in rows && rows[k].document.LiveDoc? then rows[k].document.runs else {}
  }

  ghost predicate RunsDecode(rows: Rows) {
    forall k | k in rows && k.family == RunFamily :: rows[k].document.RunDoc?
  }

  /** Every run sits under the key made from its identity. */
  ghost predicate RunsPlaced(rows: Rows) {
    forall k | k in rows && k.family == RunFamily ::
      rows[k].document.RunDoc? && k == RunKey(rows[k].document.run.id)
  }

  /** Every index row decodes and sits under the key made from its cell. */
  ghost predicate IndexDecodes(rows: Rows) {
    forall k | k in rows && k.family == RunLiveFamily ::
      rows[k].document.LiveDoc? && k == LiveKey(rows[k].document.cell)
  }

  ghost predicate IndexAgrees(rows: Rows) {
    IndexDecodes(rows) && forall cell :: Indexed(rows, cell) == LiveOf(rows, cell)
  }

  /** An index that agrees lists exactly the runs of the cell that are neither completed nor abandoned. */
  lemma IndexListsUnfinishedRuns(rows: Rows, cell: Name, id: Id)
    requires IndexAgrees(rows) && RunsPlaced(rows)
    ensures id in Indexed(rows, cell) <==>
      && RunKey(id) in rows && rows[RunKey(id)].document.RunDoc?
      && var run := rows[RunKey(id)].document.run;
      run.id == id && run.cell == cell && run.state in {Prepared, Executing, Paused, RecoveryRequired}
  {
    hide Live;
    assert Indexed(rows, cell) == LiveOf(rows, cell);
    LiveByKey(rows, cell, id);
    if RunKey(id) in rows {
      LiveStates(rows[RunKey(id)].document.run);
    }
  }

  lemma LiveStates(run: RunValue)
    ensures Live(run) <==> run.state in {Prepared, Executing, Paused, RecoveryRequired}
  {
  }

  // ---------------------------------------------------------------- keeping the index in step

  /** The rows after the index has followed a write of `run`. */
  function Recorded(rows: Rows, run: RunValue): Result<Rows, StoreError> {
    var k := LiveKey(run.cell);
    var prior := Find(rows, k);
    if prior.Some? && !(prior.value.document.LiveDoc? && prior.value.document.cell == run.cell) then Err(Integrity) else
    var runs := if prior.Some? then prior.value.document.runs else {};
    var next := if Live(run) then runs + {run.id} else runs - {run.id};
    if next == runs then Ok(rows) else
    var row := PutRow(rows, k, RevisionOf(prior), LiveDoc(run.cell, next));
    if row.Err? then Err(row.error) else Ok(rows[k := row.value])
  }

  method RecordRun(tx: Transaction, run: RunValue) returns (r: Result<(), StoreError>)
    modifies tx`rows
    ensures var spec := Recorded(old(tx.rows), run);
      && (r.Ok? <==> spec.Ok?)
      && tx.rows == (if spec.Ok? then spec.value else old(tx.rows))
  {
    var k := LiveKey(run.cell);
    var prior := tx.Get(k);
    var runs: set<Id> := {};
    if prior.Some? {
      if !prior.value.document.LiveDoc? {
        return Err(Integrity);
      }
      if prior.value.document.cell != run.cell {
        return Err(Integrity);
      }
      runs := prior.value.document.runs;
    }
    var next;
    if Live(run) {
      next := runs + {run.id};
    } else {
      next := runs - {run.id};
    }
    if next != runs {
      var row := tx.Put(k, RevisionOf(prior), LiveDoc(run.cell, next));
      if row.Err? { return Err(row.error); }
    }
    r := Ok(());
  }

  /** The document takes a run that is live in another cell out of it: the index of that cell is not told. */
  predicate LeavesCell(before: Rows, k: Key, document: Document) {
    && document.RunDoc? && k in before && before[k].document.RunDoc?
    && Live(before[k].document.run) && before[k].document.run.cell != document.run.cell
  }

  /** Writing a run and recording it keeps the index equal to the runs exactly when it does not take a live run
      out of its cell; nothing but an exhausted revision can make the recording fail. */
  lemma RecordKeepsAgreement(before: Rows, row: Record)
    requires IndexAgrees(before) && RunsPlaced(before)
    requires row.document.RunDoc? && row.key == RunKey(row.document.run.id)
    ensures var after := Recorded(before[row.key := row], row.document.run);
      && (after.Err? ==> LiveKey(row.document.run.cell) in before
                         && before[LiveKey(row.document.run.cell)].revision >= MAX_REVISION)
      && (after.Ok? ==> RunsPlaced(after.value) && (IndexAgrees(after.value) <==> !LeavesCell(before, row.key, row.document)))
  {
    var after := Recorded(before[row.key := row], row.document.run);
    if after.Ok? {
      forall cell
        ensures Indexed(after.value, cell) == LiveOf(after.value, cell) <==>
          !(LeavesCell(before, row.key, row.document) && cell == before[row.key].document.run.cell)
      {
        RecordedInCell(before, row, cell);
      }
      if LeavesCell(before, row.key, row.document) {
        var left := before[row.key].document.run.cell;
        assert Indexed(after.value, left) != LiveOf(after.value, left);
      }
    }
  }

  lemma RecordedInCell(before: Rows, row: Record, cell: Name)
    requires IndexAgrees(before) && RunsPlaced(before)
    requires row.document.RunDoc? && row.key == RunKey(row.document.run.id)
    requires Recorded(before[row.key := row], row.document.run).Ok?
    ensures var after := Recorded(before[row.key := row], row.document.run).value;
      Indexed(after, cell) == LiveOf(after, cell) <==> !(LeavesCell(before, row.key, row.document) && cell == before[row.key].document.run.cell)
  {
    hide LiveOf;
    var run := row.document.run;
    var rows := before[row.key := row];
    var after := Recorded(rows, run).value;
    LiveOfAfterWrite(before, row, cell);
    SameRuns(rows, after, cell);
    assert Indexed(before, cell) == LiveOf(before, cell);
    LiveByKey(before, cell, run.id);
    if cell != run.cell {
      assert LiveKey(cell) != LiveKey(run.cell);
      if run.id in LiveOf(before, cell) { assert run.id in Indexed(after, cell); }
    }
  }

  /** A write of a run changes only whether that run is live in a cell. */
  lemma LiveOfAfterWrite(before: Rows, row: Record, cell: Name)
    requires RunsPlaced(before)
    requires row.document.RunDoc? && row.key == RunKey(row.document.run.id)
    ensures var run := row.document.run;
      LiveOf(before[row.key := row], cell) ==
        if cell == run.cell && Live(run) then LiveOf(before, cell) + {run.id} else LiveOf(before, cell) - {run.id}
  {
    var run := row.document.run;
    var rows := before[row.key := row];
    forall id
      ensures id in LiveOf(rows, cell) <==>
        if id == run.id then cell == run.cell && Live(run) else id in LiveOf(before, cell)
    {
      LiveByKey(rows, cell, id);
      LiveByKey(before, cell, id);
    }
  }

  lemma LiveByKey(rows: Rows, cell: Name, id: Id)
    requires RunsPlaced(rows)
    ensures id in LiveOf(rows, cell) <==> RunKey(id) in rows && LiveRow(rows[RunKey(id)], cell)
  {
  }

  lemma SameRuns(rows: Rows, after: Rows, cell: Name)
    requires forall k: Key | k.family == RunFamily :: k in rows <==> k in after
    requires forall k: Key | k.family == RunFamily && k in rows :: rows[k] == after[k]
    ensures LiveOf(rows, cell) == LiveOf(after, cell)
  {
  }

  /** Why a run's cell must stay fixed: moving a live run leaves it in the index of its old cell. */
  lemma MovingARunBreaksTheIndex(id: Id, from: Name, to: Name)
    requires from != to
    ensures exists before: Rows, row: Record ::
      && IndexAgrees(before) && RunsPlaced(before) && row.document.RunDoc? && row.key == RunKey(id)
      && RunKey(id) in before && before[RunKey(id)].document.run.cell != row.document.run.cell
      && Recorded(before[row.key := row], row.document.run).Ok?
      && !IndexAgrees(Recorded(before[row.key := row], row.document.run).value)
  {
    var here := Record(RunKey(id), 1, RunDoc(RunValue(id, from, Executing, 0)));
    var entry := Record(LiveKey(from), 1, LiveDoc(from, {id}));
    var before: Rows := map[RunKey(id) := here, LiveKey(from) := entry];
    var row := Record(RunKey(id), 2, RunDoc(RunValue(id, to, Executing, 0)));
    assert RunsPlaced(before);
    forall cell
      ensures Indexed(before, cell) == LiveOf(before, cell)
    {
      if cell == from {
        LiveByKey(before, from, id);
        assert forall other | other in LiveOf(before, from) :: other == id;
      } else {
        assert LiveKey(cell) !in before;
        assert LiveOf(before, cell) == {};
      }
    }
    assert IndexAgrees(before);
    assert LiveKey(to) !in before[row.key := row];
    RecordKeepsAgreement(before, row);
  }

  // ---------------------------------------------------------------- reading the live runs of a cell

  /** A scan of the runs, filtered to the live runs of one cell. */
  function LiveScan(recs: seq<Record>, cell: Name): seq<Record> {
    if recs == [] then []
    else if LiveRow(recs[0], cell) then [recs[0]] + LiveScan(recs[1..], cell)
    else LiveScan(recs[1..], cell)
  }

  lemma {:induction false} LiveScanSelects(recs: seq<Record>, cell: Name, order: Key -> nat)
    requires AscendingBy(order, recs)
    ensures AscendingBy(order, LiveScan(recs, cell))
    ensures forall x :: x in LiveScan(recs, cell) <==> x in recs && LiveRow(x, cell)
  {
    if recs != [] {
      AscendingHead(order, recs);
      LiveScanSelects(recs[1..], cell, order);
      assert recs == [recs[0]] + recs[1..];
      if LiveRow(recs[0], cell) { AscendingCons(order, recs[0], LiveScan(recs[1..], cell)); }
    }
  }

  /** Rows in strictly ascending key order are determined by which rows they are. */
  lemma {:induction false} AscendingUnique(order: Key -> nat, a: seq<Record>, b: seq<Record>)
    requires AscendingBy(order, a) && AscendingBy(order, b)
    requires forall x :: x in a <==> x in b
    ensures a == b
  {
    if a != [] || b != [] {
      assert a != [] && b != [] by {
        if a != [] { assert a[0] in b; }
        if b != [] { assert b[0] in a; }
      }
      AscendingHead(order, a);
      AscendingHead(order, b);
      assert a == [a[0]] + a[1..] && b == [b[0]] + b[1..];
      assert a[0] in b && b[0] in a;
      assert a[0] == b[0];
      forall x
        ensures x in a[1..] <==> x in b[1..]
      {
        assert x in a[1..] ==> x in b && x != b[0];
        assert x in b[1..] ==> x in a && x != a[0];
      }
      AscendingUnique(order, a[1..], b[1..]);
    }
  }

  /** `live_runs`: under an agreeing index no integrity error can occur, and the answer is what a
      key-ordered scan of the runs, filtered to the cell's live runs, would give. */
  method LiveRuns(tx: Transaction, cell: Name) returns (r: Result<seq<Record>, StoreError>)
    requires Keyed(tx.rows) && Injective(tx.order)
    ensures IndexAgrees(tx.rows) && RunsPlaced(tx.rows) ==>
      && r.Ok?
      && forall recs | IsScan(tx.rows, tx.order, RunFamily, recs) :: r.value == LiveScan(recs, cell)
    ensures r.Ok? ==> forall x | x in r.value ::
      x.key in tx.rows && x == tx.rows[x.key] && LiveRow(x, cell) && x.document.run.id in Indexed(tx.rows, cell)
  {
    ghost var good := IndexAgrees(tx.rows) && RunsPlaced(tx.rows);
    var row := tx.Get(LiveKey(cell));
    if row.None? {
      if good { CompleteAnswer(tx.rows, tx.order, cell, []); }
      return Ok([]);
    }
    if !row.value.document.LiveDoc? || row.value.document.cell != cell {
      return Err(Integrity);
    }
    var found: seq<Record> := [];
    var left := row.value.document.runs;
    // Ids are inserted by key, so what is read comes out in the order of the keys.
    while left != {}
      invariant left <= row.value.document.runs
      invariant forall x | x in found ::
        && x.key in tx.rows && x == tx.rows[x.key] && LiveRow(x, cell)
        && x.key == RunKey(x.document.run.id)
        && x.document.run.id in row.value.document.runs && x.document.run.id !in left
      invariant forall id | id in row.value.document.runs && id !in left :: RunKey(id) in tx.rows && tx.rows[RunKey(id)] in found
      invariant AscendingBy(tx.order, found)
      decreases left
    {
      var id :| id in left;
      if good { LiveByKey(tx.rows, cell, id); assert id in Indexed(tx.rows, cell); }
      var run := tx.Get(RunKey(id));
      if run.None? || !run.value.document.RunDoc? || run.value.document.run.id != id
         || run.value.document.run.cell != cell || !Live(run.value.document.run) {
        return Err(Integrity);
      }
      left := left - {id};
      InKeyOrderAdds(found, run.value, tx.order);
      InKeyOrderAscends(found, run.value, tx.order);
      found := InKeyOrder(found, run.value, tx.order);
    }
    if good { CompleteAnswer(tx.rows, tx.order, cell, found); }
    return Ok(found);
  }

  lemma CompleteAnswer(rows: Rows, order: Key -> nat, cell: Name, found: seq<Record>)
    requires Keyed(rows) && IndexAgrees(rows) && RunsPlaced(rows)
    requires AscendingBy(order, found)
    requires forall x | x in found :: x.key in rows && x == rows[x.key] && LiveRow(x, cell) && x.key == RunKey(x.document.run.id)
    requires forall id | id in Indexed(rows, cell) :: RunKey(id) in rows && rows[RunKey(id)] in found
    ensures forall recs | IsScan(rows, order, RunFamily, recs) :: found == LiveScan(recs, cell)
  {
    forall recs | IsScan(rows, order, RunFamily, recs)
      ensures found == LiveScan(recs, cell)
    {
      LiveScanSelects(recs, cell, order);
      forall x
        ensures x in found <==> x in LiveScan(recs, cell)
      {
        if x in LiveScan(recs, cell) {
          LiveByKey(rows, cell, x.document.run.id);
          assert x.document.run.id in Indexed(rows, cell);
        }
        if x in found {
          assert x.key.family == RunFamily && rows[x.key] in recs;
        }
      }
      AscendingUnique(order, found, LiveScan(recs, cell));
    }
  }

  // ---------------------------------------------------------------- recomputing the index

  /** Live runs per cell, for the cells that have one. */
  method Wanted(tx: Transaction) returns (r: Result<map<Name, set<Id>>, StoreError>)
    requires Keyed(tx.rows) && Injective(tx.order)
    ensures r.Ok? <==> RunsDecode(tx.rows)
    ensures r.Ok? ==> forall cell :: cell in r.value <==> LiveOf(tx.rows, cell) != {}
    ensures r.Ok? ==> forall cell | cell in r.value :: r.value[cell] == LiveOf(tx.rows, cell)
  {
    hide LiveOf, ScanLive, Collects;
    var recs := tx.Scan(RunFamily);
    var wanted: map<Name, set<Id>> := map[];
    CollectNothing();
    assert recs[..0] == [];
    for i := 0 to |recs|
      invariant forall j | 0 <= j < i :: recs[j].document.RunDoc?
      invariant Collects(wanted, recs[..i])
    {
      assert recs[i] in recs;
      if !recs[i].document.RunDoc? {
        return Err(Integrity);
      }
      ghost var before := wanted;
      var run := recs[i].document.run;
      if Live(run) {
        var entry := if run.cell in wanted then wanted[run.cell] else {};
        wanted := wanted[run.cell := entry + {run.id}];
      }
      CollectStep(before, recs, i, wanted);
    }
    assert recs[..|recs|] == recs;
    assert forall k | k in tx.rows && k.family == RunFamily :: tx.rows[k] in recs;
    CollectsAll(tx.rows, tx.order, recs, wanted);
    return Ok(wanted);
  }

  lemma CollectNothing()
    ensures Collects(map[], [])
  {
  }

  lemma CollectsAll(rows: Rows, order: Key -> nat, recs: seq<Record>, wanted: map<Name, set<Id>>)
    requires Keyed(rows) && IsScan(rows, order, RunFamily, recs) && Collects(wanted, recs)
    ensures forall cell :: cell in wanted <==> LiveOf(rows, cell) != {}
    ensures forall cell | cell in wanted :: wanted[cell] == LiveOf(rows, cell)
  {
    forall cell
      ensures ScanLive(recs, cell) == LiveOf(rows, cell)
    {
      ScanLiveIsLiveOf(rows, order, recs, cell);
    }
  }

  ghost predicate Collects(wanted: map<Name, set<Id>>, recs: seq<Record>) {
    forall cell ::
      && (cell in wanted <==> ScanLive(recs, cell) != {})
      && (cell in wanted ==> wanted[cell] == ScanLive(recs, cell))
  }

  lemma CollectStep(before: map<Name, set<Id>>, recs: seq<Record>, i: nat, after: map<Name, set<Id>>)
    requires i < |recs| && recs[i].document.RunDoc? && Collects(before, recs[..i])
    requires var run := recs[i].document.run;
      after == if !Live(run) then before
               else before[run.cell := (if run.cell in before then before[run.cell] else {}) + {run.id}]
    ensures Collects(after, recs[..i + 1])
  {
    ScanLiveStep(recs, i);
  }

  function ScanLive(recs: seq<Record>, cell: Name): set<Id> {
    set r | r in recs && LiveRow(r, cell) :: r.document.run.id
  }

  lemma ScanLiveStep(recs: seq<Record>, i: nat)
    requires i < |recs| && recs[i].document.RunDoc?
    ensures var run := recs[i].document.run; forall cell ::
      ScanLive(recs[..i + 1], cell) ==
        ScanLive(recs[..i], cell) + if cell == run.cell && Live(run) then {run.id} else {}
  {
    assert recs[..i + 1] == recs[..i] + [recs[i]];
    assert forall x :: x in recs[..i + 1] <==> x in recs[..i] || x == recs[i];
  }

  lemma ScanLiveIsLiveOf(rows: Rows, order: Key -> nat, recs: seq<Record>, cell: Name)
    requires Keyed(rows) && IsScan(rows, order, RunFamily, recs)
    ensures ScanLive(recs, cell) == LiveOf(rows, cell)
  {
  }

  /** The index rows by cell. */
  method Stored(tx: Transaction) returns (r: Result<map<Name, Record>, StoreError>)
    requires Keyed(tx.rows) && Injective(tx.order)
    ensures r.Ok? <==> IndexDecodes(tx.rows)
    ensures r.Ok? ==> forall cell :: cell in r.value <==> LiveKey(cell) in tx.rows
    ensures r.Ok? ==> forall cell | cell in r.value :: r.value[cell] == tx.rows[LiveKey(cell)]
  {
    var recs := tx.Scan(RunLiveFamily);
    var stored: map<Name, Record> := map[];
    for i := 0 to |recs|
      invariant forall j | 0 <= j < i :: recs[j].document.LiveDoc? && recs[j].key == LiveKey(recs[j].document.cell)
      invariant forall cell | cell in stored :: stored[cell] in recs && stored[cell].key == LiveKey(cell)
      invariant forall cell :: cell in stored <==> exists j :: 0 <= j < i && recs[j].document.cell == cell
    {
      assert recs[i] in recs;
      if !recs[i].document.LiveDoc? || recs[i].key != LiveKey(recs[i].document.cell) {
        return Err(Integrity);
      }
      stored := stored[recs[i].document.cell := recs[i]];
    }
    ScannedIndex(tx.rows, tx.order, recs);
    return Ok(stored);
  }

  /** When all scanned index rows decode, so does the index, and each of them is among the scanned. */
  lemma ScannedIndex(rows: Rows, order: Key -> nat, recs: seq<Record>)
    requires Keyed(rows) && IsScan(rows, order, RunLiveFamily, recs)
    requires forall j | 0 <= j < |recs| :: recs[j].document.LiveDoc? && recs[j].key == LiveKey(recs[j].document.cell)
    ensures IndexDecodes(rows)
    ensures forall cell :: LiveKey(cell) in rows <==> exists j :: 0 <= j < |recs| && recs[j].document.cell == cell
    ensures forall r | r in recs :: r.key in rows && rows[r.key] == r
  {
    forall k | k in rows && k.family == RunLiveFamily
      ensures rows[k].document.LiveDoc? && k == LiveKey(rows[k].document.cell)
      ensures exists j :: 0 <= j < |recs| && recs[j] == rows[k]
    {
      assert rows[k] in recs;
    }
  }

  /** `verify` decides agreement. */
  method Verify(tx: Transaction) returns (r: Result<(), StoreError>)
    requires Keyed(tx.rows) && Injective(tx.order)
    ensures r.Ok? <==> RunsDecode(tx.rows) && IndexAgrees(tx.rows)
  {
    var wanted := Wanted(tx);
    if wanted.Err? { return Err(wanted.error); }
    var stored := Stored(tx);
    if stored.Err? { return Err(stored.error); }
    var kept := map cell | cell in stored.value && Runs(stored.value[cell]) != {} :: Runs(stored.value[cell]);
    assert forall cell | cell in stored.value :: Runs(stored.value[cell]) == Indexed(tx.rows, cell);
    EqualMapsAgree(tx.rows, kept, wanted.value);
    if kept != wanted.value {
      return Err(Integrity);
    }
    return Ok(());
  }

  /** Comparing the non-empty index rows with the recomputed map is comparing cell by cell. */
  lemma EqualMapsAgree(rows: Rows, kept: map<Name, set<Id>>, wanted: map<Name, set<Id>>)
    requires forall cell :: cell in wanted <==> LiveOf(rows, cell) != {}
    requires forall cell | cell in wanted :: wanted[cell] == LiveOf(rows, cell)
    requires forall cell :: cell in kept <==> Indexed(rows, cell) != {}
    requires forall cell | cell in kept :: kept[cell] == Indexed(rows, cell)
    ensures kept == wanted <==> forall cell :: Indexed(rows, cell) == LiveOf(rows, cell)
  {
    hide Indexed, LiveOf;
    if forall cell :: Indexed(rows, cell) == LiveOf(rows, cell) {
      assert forall cell :: cell in kept <==> cell in wanted;
    }
    if kept == wanted {
      forall cell
        ensures Indexed(rows, cell) == LiveOf(rows, cell)
      {
        assert cell in kept <==> cell in wanted;
      }
    }
  }

  function Runs(r: Record): set<Id> {
    if r.document.LiveDoc? then r.document.runs else {}
  }

  /** `rebuild` establishes agreement from any index whose rows decode under their own keys, touching
      nothing but index rows. */
  method Rebuild(tx: Transaction) returns (r: Result<(), StoreError>)
    requires Keyed(tx.rows) && Injective(tx.order)
    modifies tx`rows
    ensures r.Ok? ==> IndexAgrees(tx.rows) && Keyed(tx.rows) && RevisedOnce(old(tx.rows), tx.rows)
    ensures r.Ok? ==> RunsDecode(old(tx.rows)) && IndexDecodes(old(tx.rows))
    ensures forall k: Key | k.family != RunLiveFamily :: Find(tx.rows, k) == Find(old(tx.rows), k)
    ensures r.Err? ==>
      || !RunsDecode(old(tx.rows)) || !IndexDecodes(old(tx.rows))
      || (exists k: Key | k in old(tx.rows) && k.family == RunLiveFamily :: old(tx.rows)[k].revision >= MAX_REVISION)
  {
    var wanted := Wanted(tx);
    if wanted.Err? { return Err(wanted.error); }
    var stored := Stored(tx);
    if stored.Err? { return Err(stored.error); }
    ghost var start := tx.rows;
    var cells := wanted.value.Keys + stored.value.Keys;
    StartRebuilding(start, cells);
    while cells != {}
      invariant cells <= wanted.value.Keys + stored.value.Keys
      invariant Rebuilding(start, tx.rows, cells)
      decreases cells
    {
      var cell :| cell in cells;
      var runs := if cell in wanted.value then wanted.value[cell] else {};
      var before := if cell in stored.value then Some(stored.value[cell]) else None;
      ghost var rows := tx.rows;
      CellToRebuild(start, rows, cells, cell);
      assert before == Find(start, LiveKey(cell));
      var done := RebuildCell(tx, cell, runs, before);
      if done.Err? {
        CellRebuilt(start, rows, cells, cell, tx.rows, None);
        return done;
      }
      CellRebuilt(start, rows, cells, cell, tx.rows, Some(runs));
      cells := cells - {cell};
    }
    FinishRebuilding(start, tx.rows);
    return Ok(());
  }

  /** No index row has been written more than once. */
  ghost predicate RevisedOnce(start: Rows, rows: Rows) {
    forall k | k in rows && k.family == RunLiveFamily :: rows[k].revision <= RevisionAt(start, k) + 1
  }

  /** Following a write keeps the index decodable, and needs no more than a decodable index with room. */
  lemma RecordedFits(rows: Rows, run: RunValue)
    requires IndexDecodes(rows)
    ensures HasRoom(rows, LiveKey(run.cell)) ==> Recorded(rows, run).Ok?
    ensures Recorded(rows, run).Ok? ==> IndexDecodes(Recorded(rows, run).value)
  {
  }

  lemma RecordedRevisesOnce(rows: Rows, run: RunValue)
    requires Recorded(rows, run).Ok?
    ensures RevisedOnce(rows, Recorded(rows, run).value)
  {
  }

  /** Every cell outside `cells` has its recomputed set; the cells inside are as they were. */
  ghost predicate Rebuilding(start: Rows, rows: Rows, cells: set<Name>) {
    && Keyed(rows) && IndexDecodes(rows)
    && (forall k: Key | k.family != RunLiveFamily :: Find(rows, k) == Find(start, k))
    && (forall cell | cell in cells :: Find(rows, LiveKey(cell)) == Find(start, LiveKey(cell)))
    && (forall cell | cell !in cells :: Indexed(rows, cell) == LiveOf(start, cell))
    && RevisedOnce(start, rows)
  }

  lemma StartRebuilding(start: Rows, cells: set<Name>)
    requires Keyed(start) && IndexDecodes(start)
    requires forall cell | cell !in cells :: LiveOf(start, cell) == {} && LiveKey(cell) !in start
    ensures Rebuilding(start, start, cells)
  {
  }

  lemma CellToRebuild(start: Rows, rows: Rows, cells: set<Name>, cell: Name)
    requires Rebuilding(start, rows, cells) && cell in cells
    ensures Keyed(rows) && Find(rows, LiveKey(cell)) == Find(start, LiveKey(cell))
    ensures LiveKey(cell) in rows ==> OwnLiveRow(rows, cell)
  {
  }

  lemma CellRebuilt(start: Rows, rows: Rows, cells: set<Name>, cell: Name, after: Rows, runs: Option<set<Id>>)
    requires Rebuilding(start, rows, cells) && cell in cells && Keyed(after)
    requires forall k | k != LiveKey(cell) :: Find(after, k) == Find(rows, k)
    requires runs.Some? ==> runs.value == LiveOf(start, cell) && Indexed(after, cell) == runs.value
    requires runs.Some? && LiveKey(cell) in after ==> OwnLiveRow(after, cell)
    requires RevisionAt(after, LiveKey(cell)) <= RevisionAt(start, LiveKey(cell)) + 1
    ensures forall k: Key | k.family != RunLiveFamily :: Find(after, k) == Find(start, k)
    ensures runs.Some? ==> Rebuilding(start, after, cells - {cell})
  {
    if runs.Some? {
      forall other | other !in cells - {cell}
        ensures Indexed(after, other) == LiveOf(start, other)
      {
        if other != cell { assert Find(after, LiveKey(other)) == Find(rows, LiveKey(other)); }
      }
      forall k | k in after && k.family == RunLiveFamily
        ensures after[k].document.LiveDoc? && k == LiveKey(after[k].document.cell)
      {
        if k != LiveKey(cell) { assert Find(after, k) == Find(rows, k); }
      }
      forall k | k in after && k.family == RunLiveFamily
        ensures after[k].revision <= RevisionAt(start, k) + 1
      {
        if k != LiveKey(cell) { assert Find(after, k) == Find(rows, k); }
      }
    }
  }

  ghost predicate OwnLiveRow(rows: Rows, cell: Name)
    requires LiveKey(cell) in rows
  {
    rows[LiveKey(cell)].document.LiveDoc? && rows[LiveKey(cell)].document.cell == cell
  }

  lemma FinishRebuilding(start: Rows, rows: Rows)
    requires Rebuilding(start, rows, {})
    ensures IndexAgrees(rows) && Keyed(rows) && RevisedOnce(start, rows)
  {
    forall cell
      ensures Indexed(rows, cell) == LiveOf(rows, cell)
    {
      RunsUntouched(start, rows, cell);
    }
  }

  method RebuildCell(tx: Transaction, cell: Name, runs: set<Id>, before: Option<Record>) returns (r: Result<(), StoreError>)
    requires before == Find(tx.rows, LiveKey(cell)) && (before.Some? ==> OwnLiveRow(tx.rows, cell))
    requires Keyed(tx.rows)
    modifies tx`rows
    ensures Keyed(tx.rows) && forall k | k != LiveKey(cell) :: Find(tx.rows, k) == Find(old(tx.rows), k)
    ensures r.Ok? ==> Indexed(tx.rows, cell) == runs
    ensures r.Ok? && LiveKey(cell) in tx.rows ==> OwnLiveRow(tx.rows, cell)
    ensures r.Err? ==> before.Some? && before.value.revision >= MAX_REVISION
    ensures RevisionAt(tx.rows, LiveKey(cell)) <= RevisionAt(old(tx.rows), LiveKey(cell)) + 1
  {
    if before.Some? && Runs(before.value) == runs {
      return Ok(());
    }
    if before.None? && runs == {} {
      return Ok(());
    }
    var row := tx.Put(LiveKey(cell), RevisionOf(before), LiveDoc(cell, runs));
    if row.Err? {
      return Err(row.error);
    }
    return Ok(());
  }

  lemma RunsUntouched(start: Rows, rows: Rows, cell: Name)
    requires forall k: Key | k.family != RunLiveFamily :: Find(rows, k) == Find(start, k)
    ensures LiveOf(start, cell) == LiveOf(rows, cell)
  {
    forall k: Key | k.family == RunFamily
      ensures k in start <==> k in rows
      ensures k in start ==> start[k] == rows[k]
    {
      assert Find(rows, k) == Find(start, k);
    }
    SameRuns(start, rows, cell);
  }
}
