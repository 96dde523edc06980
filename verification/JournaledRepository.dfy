/** A repository whose every unit of work is journalled, and the first unit after a start
    (crates/rx-application/src/control_journal.rs, crates/rx-application/src/engine/mod.rs). */
module JournaledRepository {
  import opened Base
  import opened Store
  import opened RunIndex
  import opened Checkpoints
  import opened Journal
  import opened UnitOfWork
  import opened JournaledStore
  import opened JournalChanges

  /** Every event of the unit tells how its entity changed. */
  ghost predicate AllTold(rows: Rows, later: Rows, commands: seq<Command>, news: seq<ControlEvent>) {
    forall i | 0 <= i < |news| :: ChangeTold(rows, later, commands, news[i])
  }

  lemma NewsAreTold(rows: Rows, log: seq<ControlEvent>, later: Rows, more: seq<ControlEvent>, commands: seq<Command>)
    requires Done(rows, log, later, more, commands) && Commits(rows, commands) && Healthy(later, more)
    ensures log <= more && AllTold(rows, later, commands, more[|log|..])
  {
    hide Commits, Healthy, ChangeTold, Consistent, AllFiled, ReceiptsStay, OneEventEach, Classified, SamePlain, Applies, IndexRight;
    forall i | 0 <= i < |more| - |log|
      ensures ChangeTold(rows, later, commands, more[|log|..][i])
    {
      ChangesAreTold(rows, log, later, more, commands, |log| + i);
    }
  }

  lemma WhatIsDone(rows: Rows, log: seq<ControlEvent>, later: Rows, more: seq<ControlEvent>, commands: seq<Command>)
    requires Done(rows, log, later, more, commands)
    ensures Consistent(later, more)
    ensures IndexRight(rows, commands) ==> IndexAgrees(later)
  {
    hide Agrees, IndexRight, IndexAgrees, OneEventEach, Classified, SamePlain, ArtifactsKept, Applies;
  }

  lemma RebuiltIsRight(rows: Rows, first: seq<Command>)
    ensures IndexRight(rows, first + [Reindex])
  {
  }

  lemma RebuildIsPermitted(first: seq<Command>, rest: seq<Command>)
    requires forall c | c in first + rest :: Permitted(c)
    ensures forall c | c in first + [Reindex] + rest :: Permitted(c)
  {
    hide Permitted;
    assert Permitted(Reindex) by { PermittedRebuild(); }
    forall c | c in first + [Reindex] + rest
      ensures Permitted(c)
    {
      assert c in first + rest || c == Reindex;
    }
  }

  lemma PermittedRebuild()
    ensures Permitted(Reindex)
  {
  }

  class Journaled {
    var rows: Rows
    var log: seq<ControlEvent>
    const order: Key -> nat

    ghost predicate Valid()
      reads this
    {
      Healthy(rows, log) && SnapshotsValid(rows, log) && Injective(order)
    }

    /** Open a repository, possibly one written before the journal existed, and with any run index. */
    constructor (rows: Rows, log: seq<ControlEvent>, order: Key -> nat)
      requires Healthy(rows, log) && SnapshotsValid(rows, log) && Injective(order)
      ensures Valid() && this.rows == rows && this.log == log && this.order == order
    {
      this.rows, this.log, this.order := rows, log, order;
    }

    /** One unit of work. It either leaves everything as it was, or commits rows that the log replays to;
        the log only grows, and what was stored for checkpoints stays. */
    method Transact(commands: seq<Command>) returns (r: Result<nat, StoreError>)
      requires Valid() && forall c | c in commands :: Permitted(c)
      modifies this
      ensures Valid()
      ensures r.Err? ==> rows == old(rows) && log == old(log)
      ensures r.Ok? ==> r.value == |log| && Done(old(rows), old(log), rows, log, commands)
      ensures r.Ok? ==> Commits(old(rows), commands)
      ensures r.Ok? ==> AllTold(old(rows), rows, commands, log[|old(log)|..])
      ensures IndexReady(old(rows), |commands|) ==> (r.Ok? <==> Commits(old(rows), commands))
    {
      hide Done, Commits, IndexReady, SnapshotsValid, Injective, Permitted, Healthy, AllTold;
      ghost var before, earlier := rows, log;
      var tx := new Transaction(rows, log, order);
      var performed := Perform(tx, commands);
      if performed.Err? { return Err(performed.error); }
      rows, log := tx.rows, tx.log;
      NewsAreTold(before, earlier, rows, log, commands);
      r := Ok(|log|);
    }

    /** The first unit of work after a start: whatever it writes, it rebuilds the run index on the way. On a store of
        any age, with any index that decodes, it leaves the log replaying to the rows and, unless a later command takes
        a live run out of its cell, the index right. */
    method Boot(first: seq<Command>, rest: seq<Command>) returns (r: Result<nat, StoreError>)
      requires Valid() && forall c | c in first + rest :: Permitted(c)
      modifies this
      ensures Valid()
      ensures r.Err? ==> rows == old(rows) && log == old(log)
      ensures r.Ok? && IndexRight(old(rows), first + [Reindex] + rest) ==> IndexAgrees(rows)
      ensures rest == [] ==> IndexRight(old(rows), first + [Reindex] + rest)
      ensures r.Ok? ==> Consistent(rows, log)
      ensures r.Ok? ==> Done(old(rows), old(log), rows, log, first + [Reindex] + rest)
      ensures IndexReady(old(rows), |first| + 1 + |rest|) ==> (r.Ok? <==> Commits(old(rows), first + [Reindex] + rest))
    {
      hide Done, Commits, IndexReady, SnapshotsValid, Injective, Healthy, IndexAgrees, Agrees, IndexRight, Permitted;
      var commands := first + [Reindex] + rest;
      RebuildIsPermitted(first, rest);
      RebuiltIsRight(rows, first);
      assert rest == [] ==> commands == first + [Reindex];
      ghost var before, earlier := rows, log;
      r := Transact(commands);
      if r.Ok? { WhatIsDone(before, earlier, rows, log, commands); }
    }
  }
}
