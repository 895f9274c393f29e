/** Every step keeps the table invariant, its own process invariant and the guarantee to the others. */
module ScheduleSteps {
  import opened Wrappers
  import opened ScheduleStore
  import opened ScheduleProtocol
  import opened ScheduleInvariant

  /******* The effects a step can have on the tables *******/

  /** Giving up locks at the end of a transaction adds nothing to what the transaction did. */
  lemma ThenRelease(p: ProcId, db: Db, mid: Db)
    requires DbInv(mid) && Guarantee(p, db, mid)
    ensures DbInv(ReleaseLocks(mid, p)) && Guarantee(p, db, ReleaseLocks(mid, p))
  {
    var db' := ReleaseLocks(mid, p);
    assert OwnersKept(db, db') && PairsGuarded(p, db, db') && RowsAppended(db, db') && TokensFresh(db, db');
  }

  lemma Releasing(p: ProcId, db: Db)
    requires DbInv(db)
    ensures DbInv(ReleaseLocks(db, p)) && Guarantee(p, db, ReleaseLocks(db, p))
  {
    ThenRelease(p, db, db);
  }

  lemma LocksOnly(p: ProcId, db: Db, db': Db)
    requires db' == db.(ownerLocks := db'.ownerLocks, targetLocks := db'.targetLocks)
    requires LocksRespected(p, db, db')
    ensures Guarantee(p, db, db')
  {
    assert OwnersKept(db, db') && PairsGuarded(p, db, db') && RowsAppended(db, db') && TokensFresh(db, db');
  }

  lemma Locking(p: ProcId, db: Db, o: OwnerId)
    requires DbInv(db) && o in db.owners && OwnerFree(db, o, p)
    ensures DbInv(LockOwner(db, o, p)) && Guarantee(p, db, LockOwner(db, o, p))
  {
    LocksOnly(p, db, LockOwner(db, o, p));
  }

  lemma LockingTarget(p: ProcId, db: Db, t: Target)
    requires DbInv(db) && TargetFree(db, t, p)
    ensures DbInv(LockTarget(db, t, p)) && Guarantee(p, db, LockTarget(db, t, p))
  {
    LocksOnly(p, db, LockTarget(db, t, p));
  }

  /** A write to one owner row that keeps its items' identity keeps the tables. */
  lemma RowWriteTables(db: Db, o: OwnerId, row: Owner)
    requires TablesInv(db.owners, db.entries, db.pubs, db.made) && o in db.owners && Frozen(db.owners[o], row)
    ensures TablesInv(db.owners[o := row], db.entries, db.pubs, db.made)
  {
    var owners := db.owners[o := row];
    assert forall o', i: nat :: HasItemIn(owners, o', i) ==>
      (HasItemIn(db.owners, o', i) && owners[o'].items[i].key == db.owners[o'].items[i].key);
    forall sid: nat | sid < |db.entries|
      ensures EntryInv(owners, db.made, sid, db.entries[sid])
    {
      assert EntryInv(db.owners, db.made, sid, db.entries[sid]);
    }
    forall pid: nat | pid < |db.pubs|
      ensures PublicationInv(owners, db.made, pid, db.pubs[pid])
    {
      assert PublicationInv(db.owners, db.made, pid, db.pubs[pid]);
    }
    forall o', i: nat | (o', i) in db.made
      ensures MadeInv(owners, db.entries, db.pubs, o', i, db.made[(o', i)])
    {
      assert MadeInv(db.owners, db.entries, db.pubs, o', i, db.made[(o', i)]);
    }
  }

  lemma RowWrite(p: ProcId, db: Db, o: OwnerId, row: Owner)
    requires DbInv(db) && o in db.owners && Frozen(db.owners[o], row) && RowInv(db.made, o, row)
    requires row.token == db.owners[o].token || row.token == None
    requires OwnerFree(db, o, p) || SameClaim(db.owners[o], row)
    ensures DbInv(WriteOwner(db, o, row)) && Guarantee(p, db, WriteOwner(db, o, row))
  {
    RowWriteTables(db, o, row);
    RowWriteGuarantee(p, db, o, row);
  }

  lemma RowWriteGuarantee(p: ProcId, db: Db, o: OwnerId, row: Owner)
    requires o in db.owners && Frozen(db.owners[o], row)
    requires row.token == db.owners[o].token || row.token == None
    requires OwnerFree(db, o, p) || SameClaim(db.owners[o], row)
    ensures Guarantee(p, db, WriteOwner(db, o, row))
  {
    var db' := WriteOwner(db, o, row);
    assert PairsGuarded(p, db, db') && RowsAppended(db, db');
    assert OwnersKept(db, db') && TokensFresh(db, db') && LocksRespected(p, db, db');
  }

  lemma ClaimGuarantee(p: ProcId, db: Db, o: OwnerId, token: Token, now: int)
    requires o in db.owners && OwnerFree(db, o, p) && token !in db.issued
    ensures Guarantee(p, db, GiveClaim(db, o, p, token, now))
  {
    var db' := GiveClaim(db, o, p, token, now);
    assert PairsGuarded(p, db, db') && RowsAppended(db, db');
    assert OwnersKept(db, db') && TokensFresh(db, db') && LocksRespected(p, db, db');
  }

  lemma Claiming(p: ProcId, db: Db, o: OwnerId, token: Token, now: int)
    requires DbInv(db) && o in db.owners && OwnerFree(db, o, p) && token !in db.issued
    requires db.owners[o].state == PendingReview || db.owners[o].state == Executing
    ensures DbInv(GiveClaim(db, o, p, token, now)) && Guarantee(p, db, GiveClaim(db, o, p, token, now))
  {
    hide TablesInv, Guarantee, OneLive;
    var row := db.owners[o].(state := Executing, token := Some(token), claimedAt := Some(now));
    assert RowInv(db.made, o, db.owners[o]);
    assert RowInv(db.made, o, row);
    RowWriteTables(db, o, row);
    ClaimGuarantee(p, db, o, token, now);
  }

  /******* Queueing a pair *******/

  lemma QueueTables(db: Db, o: OwnerId, i: nat)
    requires TablesInv(db.owners, db.entries, db.pubs, db.made) && HasItem(db, o, i) && (o, i) !in db.made
    ensures TablesInv(db.owners, Queue(db, o, i).entries, Queue(db, o, i).pubs, Queue(db, o, i).made)
  {
    var db' := Queue(db, o, i);
    forall sid: nat | sid < |db'.entries|
      ensures EntryInv(db.owners, db'.made, sid, db'.entries[sid])
    {
      if sid < |db.entries| {
        assert EntryInv(db.owners, db.made, sid, db.entries[sid]);
      }
    }
    forall pid: nat | pid < |db'.pubs|
      ensures PublicationInv(db.owners, db'.made, pid, db'.pubs[pid])
    {
      if pid < |db.pubs| {
        assert PublicationInv(db.owners, db.made, pid, db.pubs[pid]);
      }
    }
    forall o', j: nat | (o', j) in db'.made
      ensures MadeInv(db.owners, db'.entries, db'.pubs, o', j, db'.made[(o', j)])
    {
      if (o', j) in db.made {
        assert MadeInv(db.owners, db.entries, db.pubs, o', j, db.made[(o', j)]);
      }
    }
  }

  lemma QueueRows(db: Db, o: OwnerId, i: nat, o': OwnerId)
    requires RowsInv(db.owners, db.made) && HasItem(db, o, i) && (o, i) !in db.made && o' in db.owners
    requires forall j: nat :: j < i ==> (o, j) in db.made
    requires o.BatchId? ==> db.owners[o].items[i].state != ItemPending
    requires db.owners[o].state == Executing
    ensures RowInv(Queue(db, o, i).made, o', db.owners[o'])
  {
    var made := Queue(db, o, i).made;
    assert RowInv(db.made, o', db.owners[o']);
    assert forall j: nat :: (o', j) in made <==> (o', j) in db.made || (o', j) == (o, i);
    if o'.BatchId? {
      forall j: nat | j < |db.owners[o'].items|
        ensures ItemInv(made, o', j, db.owners[o'].items[j])
      {
        assert ItemInv(db.made, o', j, db.owners[o'].items[j]);
      }
    }
  }

  lemma QueueLive(db: Db, o: OwnerId, i: nat)
    requires OneLive(db.entries) && HasItem(db, o, i) && NoneLive(db, ItemOf(db, o, i).target)
    ensures OneLive(Queue(db, o, i).entries)
  {
  }

  lemma QueueGuarantee(p: ProcId, db: Db, x: Proc)
    requires PcInv(db, p, x) && x.pc.Cleared?
    requires TablesInv(db.owners, db.entries, db.pubs, db.made)
    ensures Guarantee(p, db, Queue(db, x.owner, x.i))
  {
    var db' := Queue(db, x.owner, x.i);
    assert (x.owner, x.i) !in db.made;
    assert RowsAppended(db, db') && PairsGuarded(p, db, db');
    assert OwnersKept(db, db') && TokensFresh(db, db') && LocksRespected(p, db, db');
  }

  /** The one step that creates a canonical pair. */
  lemma Queueing(p: ProcId, db: Db, x: Proc)
    requires DbInv(db) && ProcInv(db, p, x) && x.pc.Cleared?
    ensures DbInv(Queue(db, x.owner, x.i)) && Guarantee(p, db, Queue(db, x.owner, x.i))
  {
    var o, i := x.owner, x.i;
    QueueTables(db, o, i);
    QueueLive(db, o, i);
    forall o' | o' in db.owners
      ensures RowInv(Queue(db, o, i).made, o', db.owners[o'])
    {
      QueueRows(db, o, i, o');
    }
    QueueGuarantee(p, db, x);
  }

  /******* Rows that leave the claimed state *******/

  predicate Abandoned(state: OwnerState) {
    state == Stale || state == Failed || state == PartialFailed || state == Rejected
  }

  /** Closing a row without executing it, possibly turning items stale or failed, is always legal. */
  lemma ClosingRow(made: Made, o: OwnerId, row: Owner, row': Owner)
    requires RowInv(made, o, row) && Abandoned(row'.state) && |row'.items| == |row.items|
    requires forall i :: 0 <= i < |row.items| ==>
      row'.items[i] == row.items[i]
      || (row'.items[i] == row.items[i].(state := row'.items[i].state)
          && (row'.items[i].state.ItemStale? || row'.items[i].state.ItemFailed?))
    ensures RowInv(made, o, row')
    ensures row'.channel == row.channel ==> Frozen(row, row')
  {
    if o.BatchId? {
      forall i: nat | i < |row'.items|
        ensures ItemInv(made, o, i, row'.items[i])
      {
        assert ItemInv(made, o, i, row.items[i]);
      }
    }
  }

  lemma KnownRow(db: Db, o: OwnerId)
    requires DbInv(db) && o in db.owners
    ensures RowInv(db.made, o, db.owners[o])
  {
  }

  ghost predicate Good(p: ProcId, db: Db, r: Outcome) {
    && DbInv(r.db) && Guarantee(p, db, r.db)
    && (r.next.Some? ==> ProcInv(r.db, p, r.next.value))
  }

  lemma StopGood(p: ProcId, db: Db)
    requires DbInv(db)
    ensures Good(p, db, Stop(db, p))
  {
    Releasing(p, db);
  }

  lemma CloseGood(p: ProcId, db: Db, o: OwnerId, row: Owner)
    requires DbInv(db) && o in db.owners && OwnerFree(db, o, p)
    requires Frozen(db.owners[o], row) && RowInv(db.made, o, row) && row.token == None
    ensures Good(p, db, Stop(WriteOwner(db, o, row), p))
  {
    hide Guarantee;
    RowWrite(p, db, o, row);
    ThenRelease(p, db, WriteOwner(db, o, row));
  }

  lemma StayGood(p: ProcId, db: Db, x: Proc)
    requires DbInv(db) && ProcInv(db, p, x)
    ensures Good(p, db, Outcome(db, Some(x)))
  {
  }

  /******* Taking the claim *******/

  lemma BeginKeeps(p: ProcId, db: Db, x: Proc, token: Token)
    requires DbInv(db) && ProcInv(db, p, x) && x.pc.Begin? && Enabled(db, p, x)
    ensures Good(p, db, Advance(db, p, x, token))
  {
    if x.owner in db.owners {
      Locking(p, db, x.owner);
    } else {
      StopGood(p, db);
    }
  }

  lemma StaleRowGood(p: ProcId, db: Db, o: OwnerId, all: bool, one: Option<nat>)
    requires DbInv(db) && o in db.owners && OwnerFree(db, o, p)
    ensures Good(p, db, Stop(WriteOwner(db, o, StaleRow(db.owners[o], all, one)), p))
  {
    hide Guarantee, DbInv;
    var row := db.owners[o];
    KnownRow(db, o);
    ClosingRow(db.made, o, row, StaleRow(row, all, one));
    CloseGood(p, db, o, StaleRow(row, all, one));
  }

  lemma LoadedKeeps(p: ProcId, db: Db, x: Proc)
    requires DbInv(db) && ProcInv(db, p, x) && x.pc.Loaded?
    ensures Good(p, db, StepLoaded(db, p, x))
  {
    hide Guarantee, DbInv;
    var row := db.owners[x.owner];
    StopGood(p, db);
    Releasing(p, db);
    if row.state == PendingReview {
      if !PreflightFor(db, x.owner).Pass? {
        var (all, one) := StaleArgs(PreflightFor(db, x.owner));
        StaleRowGood(p, db, x.owner, all, one);
      }
    } else if row.state == Executing && x.owner.SingleId? {
      KnownRow(db, x.owner);
      LoadedSingleKeeps(p, db, x);
    }
  }

  lemma LoadedSingleKeeps(p: ProcId, db: Db, x: Proc)
    requires DbInv(db) && ProcInv(db, p, x) && x.pc.Loaded? && x.owner.SingleId?
    requires db.owners[x.owner].state == Executing && |db.owners[x.owner].items| == 1
    ensures Good(p, db, StepLoaded(db, p, x))
  {
    hide Guarantee, Recover, DbInv;
    var row := db.owners[x.owner];
    RecoverExact(db, x.owner, 0);
    match Recover(db, x.owner, 0)
    case Match(link) => Releasing(p, db);
    case Conflict =>
    case Nothing =>
      if ClaimIsFresh(row, x.now) {
        StopGood(p, db);
      } else {
        StayGood(p, db, x.(pc := Expired));
      }
  }

  lemma ClaimGood(p: ProcId, db: Db, x: Proc, token: Token, pc: Pc)
    requires DbInv(db) && x.owner in db.owners && OwnerFree(db, x.owner, p) && token !in db.issued
    requires db.owners[x.owner].state == PendingReview || db.owners[x.owner].state == Executing
    requires x.owner.SingleId? ==> x.i == 0 && (x.owner, 0) !in db.made
    requires (x.owner.SingleId? && pc == Fence) || pc == PostClaim || (x.owner.BatchId? && pc == Snapshot)
    ensures Good(p, db, Goto(GiveClaim(db, x.owner, p, token, x.now), x.(token := Some(token)), pc))
  {
    hide Guarantee, DbInv;
    Claiming(p, db, x.owner, token, x.now);
    KnownRow(db, x.owner);
  }

  lemma ExpiredKeeps(p: ProcId, db: Db, x: Proc, token: Token)
    requires DbInv(db) && ProcInv(db, p, x) && x.pc.Expired? && token !in db.issued
    ensures Good(p, db, StepExpired(db, p, x, token))
  {
    hide Guarantee, DbInv;
    if !HasItem(db, x.owner, 0) {
      StopGood(p, db);
    } else if ItemIsStale(db, x.owner, 0) {
      var row := db.owners[x.owner];
      KnownRow(db, x.owner);
      ClosingRow(db.made, x.owner, row, Unclaimed(row, Stale));
      CloseGood(p, db, x.owner, Unclaimed(row, Stale));
    } else {
      ClaimGood(p, db, x, token, Fence);
      var mid := GiveClaim(db, x.owner, p, token, x.now);
      ThenRelease(p, db, mid);
      var y := x.(token := Some(token), i := 0, pc := Fence);
      assert Working(mid, p, y);
      assert Working(ReleaseLocks(mid, p), p, y);
    }
  }

  lemma TakeOverKeeps(p: ProcId, db: Db, x: Proc, token: Token)
    requires DbInv(db) && ProcInv(db, p, x) && x.pc.TakeOver? && Enabled(db, p, x) && token !in db.issued
    ensures Good(p, db, StepTakeOver(db, p, x, token))
  {
    hide Guarantee;
    if db.owners[x.owner].state == Executing && db.owners[x.owner].token == x.pc.seen {
      ClaimGood(p, db, x, token, Snapshot);
    } else {
      StopGood(p, db);
    }
  }

  lemma PromoteKeeps(p: ProcId, db: Db, x: Proc, token: Token)
    requires DbInv(db) && ProcInv(db, p, x) && x.pc.Promote? && Enabled(db, p, x) && token !in db.issued
    ensures Good(p, db, StepPromote(db, p, x, token))
  {
    hide Guarantee, DbInv;
    if db.owners[x.owner].state == PendingReview {
      KnownRow(db, x.owner);
      ClaimGood(p, db, x.(i := 0), token, PostClaim);
    } else {
      StayGood(p, db, x.(pc := Begin));
    }
  }

  lemma PostClaimKeeps(p: ProcId, db: Db, x: Proc)
    requires DbInv(db) && ProcInv(db, p, x) && x.pc.PostClaim?
    ensures Good(p, db, StepPostClaim(db, p, x))
  {
    hide Guarantee;
    var r := PreflightFor(db, x.owner);
    if r.Pass? {
      if x.owner.SingleId? {
        assert RowInv(db.made, x.owner, db.owners[x.owner]);
      }
      StayGood(p, db, x.(pc := if x.owner.BatchId? then Snapshot else Fence));
    } else {
      var (all, one) := StaleArgs(r);
      StayGood(p, db, x.(pc := MarkStale(all, one)));
    }
  }

  /******* The series item loop *******/

  lemma SnapshotKeeps(p: ProcId, db: Db, x: Proc)
    requires DbInv(db) && ProcInv(db, p, x) && x.pc.Snapshot?
    ensures Good(p, db, StepSnapshot(db, p, x))
  {
    hide Guarantee, DbInv;
    var row := db.owners[x.owner];
    var view := States(row.items);
    KnownRow(db, x.owner);
    var y := x.(view := view, i := 0);
    forall j: nat | j < |view| && view[j] == ItemPending
      ensures Unmade(db, y, j)
    {
      assert ItemInv(db.made, x.owner, j, row.items[j]);
    }
    if x.owner in db.world.contractHolds {
      StayGood(p, db, y.(pc := Loop));
    } else {
      StayGood(p, db, y.(pc := Terminal(if CountExecuted(view) > 0 then PartialFailed else Stale, None)));
    }
  }

  lemma GiveUpGood(p: ProcId, db: Db, x: Proc, completed: nat, otherwise: OwnerState, failed: Option<(nat, ItemState)>)
    requires DbInv(db) && x.owner.BatchId? && x.owner in db.owners
    requires otherwise == Stale || otherwise == Failed
    requires failed.Some? ==> failed.value.1 == ItemStale || failed.value.1 == ItemFailed
    ensures Good(p, db, GiveUp(db, x, completed, otherwise, failed))
  {
    hide Guarantee;
    StayGood(p, db, x.(pc := Terminal(if completed > 0 then PartialFailed else otherwise, failed)));
  }

  lemma LoopKeeps(p: ProcId, db: Db, x: Proc)
    requires DbInv(db) && ProcInv(db, p, x) && x.pc.Loop?
    ensures Good(p, db, StepLoop(db, p, x))
  {
    hide Guarantee;
    if x.i >= |x.view| {
      StayGood(p, db, x.(pc := Close));
    } else if x.owner !in db.world.contractHolds {
      GiveUpGood(p, db, x, x.i, Stale, None);
    } else if OwnerFence(db, x.owner, x.token) {
      StayGood(p, db, x.(pc := Inspect));
    } else {
      StopGood(p, db);
    }
  }

  lemma InspectKeeps(p: ProcId, db: Db, x: Proc)
    requires DbInv(db) && ProcInv(db, p, x) && x.pc.Inspect?
    ensures Good(p, db, StepInspect(db, p, x))
  {
    hide Guarantee, Recover, DbInv;
    RecoverExact(db, x.owner, x.i);
    var found := Recover(db, x.owner, x.i);
    match x.view[x.i]
    case ItemExecuted =>
      if found.Match? {
        StayGood(p, db, x.(i := x.i + 1, pc := Loop));
      } else {
        GiveUpGood(p, db, x, x.i + 1, Failed, Some((x.i, ItemFailed)));
      }
    case ItemStale => GiveUpGood(p, db, x, x.i, Stale, Some((x.i, ItemStale)));
    case ItemFailed => GiveUpGood(p, db, x, x.i, Failed, Some((x.i, ItemFailed)));
    case ItemPending => StayGood(p, db, x.(pc := Vet));
    case ItemExecuting =>
      if found.Match? {
        StayGood(p, db, x.(pc := Finalize(found.link, false)));
      } else if found.Conflict? {
        GiveUpGood(p, db, x, x.i, Failed, Some((x.i, ItemFailed)));
      } else {
        StayGood(p, db, x.(pc := Vet));
      }
  }

  lemma VetKeeps(p: ProcId, db: Db, x: Proc)
    requires DbInv(db) && ProcInv(db, p, x) && x.pc.Vet?
    ensures Good(p, db, StepVet(db, p, x))
  {
    hide Guarantee, DbInv;
    if ItemIsStale(db, x.owner, x.i) {
      GiveUpGood(p, db, x, x.i, Stale, Some((x.i, ItemStale)));
    } else if x.view[x.i] == ItemPending {
      StayGood(p, db, x.(pc := MarkItem));
    } else {
      StayGood(p, db, x.(pc := Fence));
    }
  }

  /** The item states a batch row may take while it is not closed. */
  lemma ItemWriteRow(made: Made, o: OwnerId, row: Owner, i: nat, item: Item)
    requires RowInv(made, o, row) && o.BatchId? && i < |row.items| && row.state != PendingReview
    requires item.target == row.items[i].target && item.slot == row.items[i].slot && item.key == row.items[i].key
    requires item.state == ItemExecuting
             || (item.state == ItemExecuted && (o, i) in made && item.link == Some(made[(o, i)]))
    ensures RowInv(made, o, WriteItem(row, i, item)) && Frozen(row, WriteItem(row, i, item))
  {
    var row' := WriteItem(row, i, item);
    forall j: nat | j < |row'.items|
      ensures ItemInv(made, o, j, row'.items[j])
    {
      assert ItemInv(made, o, j, row.items[j]);
    }
  }

  lemma MarkItemKeeps(p: ProcId, db: Db, x: Proc)
    requires DbInv(db) && ProcInv(db, p, x) && x.pc.MarkItem?
    ensures Good(p, db, StepMarkItem(db, p, x))
  {
    hide Guarantee, DbInv;
    var row := db.owners[x.owner];
    var item := row.items[x.i].(state := ItemExecuting);
    KnownRow(db, x.owner);
    ItemWriteRow(db.made, x.owner, row, x.i, item);
    RowWrite(p, db, x.owner, WriteItem(row, x.i, item));
  }

  lemma RefreshKeeps(p: ProcId, db: Db, x: Proc)
    requires DbInv(db) && ProcInv(db, p, x) && x.pc.Refresh?
    ensures Good(p, db, StepRefresh(db, p, x))
  {
    hide Guarantee, DbInv;
    var y := x.(view := x.view[x.i := ItemOf(db, x.owner, x.i).state], pc := Fence);
    assert LoopInv(db, p, y);
    StayGood(p, db, y);
  }

  lemma AfterErrorKeeps(p: ProcId, db: Db, x: Proc)
    requires DbInv(db) && ProcInv(db, p, x) && x.pc.AfterError?
    ensures Good(p, db, StepAfterError(db, p, x))
  {
    hide Guarantee, Recover, DbInv;
    RecoverExact(db, x.owner, x.i);
    KnownRow(db, x.owner);
    match Recover(db, x.owner, x.i)
    case Match(link) =>
      var row := db.owners[x.owner];
      assert ItemInv(db.made, x.owner, x.i, row.items[x.i]);
      StayGood(p, db, x.(view := x.view[x.i := row.items[x.i].state], pc := Finalize(link, false)));
    case Conflict => GiveUpGood(p, db, x, x.i, Failed, Some((x.i, ItemFailed)));
    case Nothing => StopGood(p, db);
  }

  /******* Fence, recheck, queue *******/

  lemma FenceKeeps(p: ProcId, db: Db, x: Proc)
    requires DbInv(db) && ProcInv(db, p, x) && x.pc.Fence? && Enabled(db, p, x)
    ensures Good(p, db, StepFence(db, p, x))
  {
    hide Guarantee, DbInv;
    if OwnerFence(db, x.owner, x.token) {
      Locking(p, db, x.owner);
      assert Working(LockOwner(db, x.owner, p), p, x);
    } else {
      StopGood(p, db);
    }
  }

  lemma OwnerHeldKeeps(p: ProcId, db: Db, x: Proc)
    requires DbInv(db) && ProcInv(db, p, x) && x.pc.OwnerHeld? && Enabled(db, p, x)
    ensures Good(p, db, StepOwnerHeld(db, p, x))
  {
    hide Guarantee, DbInv;
    var target := ItemOf(db, x.owner, x.i).target;
    if target in db.revisions {
      LockingTarget(p, db, target);
      assert Working(LockTarget(db, target, p), p, x);
    } else {
      StopGood(p, db);
    }
  }

  lemma TerminalRowGood(p: ProcId, db: Db, o: OwnerId, state: OwnerState, failed: Option<(nat, ItemState)>)
    requires DbInv(db) && o in db.owners && OwnerFree(db, o, p) && Abandoned(state)
    requires failed.Some? ==> failed.value.1 == ItemStale || failed.value.1 == ItemFailed
    ensures Good(p, db, Stop(WriteOwner(db, o, TerminalRow(db.owners[o], state, failed)), p))
  {
    hide Guarantee, DbInv;
    var row := db.owners[o];
    KnownRow(db, o);
    ClosingRow(db.made, o, row, TerminalRow(row, state, failed));
    CloseGood(p, db, o, TerminalRow(row, state, failed));
  }

  lemma TargetHeldKeeps(p: ProcId, db: Db, x: Proc)
    requires DbInv(db) && ProcInv(db, p, x) && x.pc.TargetHeld?
    ensures Good(p, db, StepTargetHeld(db, p, x))
  {
    hide Guarantee, DbInv;
    var target := ItemOf(db, x.owner, x.i).target;
    if !Conflicting(db, target) {
      assert NoneLive(db, target);
      StayGood(p, db, x.(pc := Cleared));
    } else if x.owner.SingleId? {
      TerminalRowGood(p, db, x.owner, Stale, None);
    } else {
      TerminalRowGood(p, db, x.owner, if x.i > 0 then PartialFailed else Stale, Some((x.i, ItemStale)));
    }
  }

  lemma ClearedKeeps(p: ProcId, db: Db, x: Proc)
    requires DbInv(db) && ProcInv(db, p, x) && x.pc.Cleared?
    ensures Good(p, db, StepCleared(db, p, x))
  {
    hide Guarantee, DbInv;
    var mid := Queue(db, x.owner, x.i);
    Queueing(p, db, x);
    ThenRelease(p, db, mid);
    var link := Link(|db.entries|, |db.pubs|);
    assert Recording(ReleaseLocks(mid, p), p, x, link);
  }

  /******* Recording the outcome *******/

  lemma FinalizeFences(p: ProcId, db: Db, x: Proc)
    requires DbInv(db) && ProcInv(db, p, x) && x.pc.Finalize? && OwnerFree(db, x.owner, p)
    ensures Good(p, db, if OwnerFence(db, x.owner, x.token)
                        then Goto(LockOwner(db, x.owner, p), x, FinalHeld(x.pc.link, x.pc.guarded)) else Stop(db, p))
  {
    hide Guarantee, DbInv;
    if OwnerFence(db, x.owner, x.token) {
      Locking(p, db, x.owner);
      assert Recording(LockOwner(db, x.owner, p), p, x, x.pc.link);
    } else {
      StopGood(p, db);
    }
  }

  lemma FinalizeKeeps(p: ProcId, db: Db, x: Proc)
    requires DbInv(db) && ProcInv(db, p, x) && x.pc.Finalize? && Enabled(db, p, x)
    ensures Good(p, db, StepFinalize(db, p, x))
  {
    hide Guarantee, DbInv, Good;
    if x.owner.BatchId? && x.view[x.i] == ItemExecuted {
      StayGood(p, db, x.(i := x.i + 1, pc := Loop));
    } else if x.owner.BatchId? && x.view[x.i] != ItemExecuting {
      StopGood(p, db);
    } else {
      FinalizeFences(p, db, x);
    }
  }

  lemma FinalHeldSingle(p: ProcId, db: Db, x: Proc)
    requires DbInv(db) && ProcInv(db, p, x) && x.pc.FinalHeld? && x.owner.SingleId?
    ensures Good(p, db, StepFinalHeld(db, p, x))
  {
    hide Guarantee, DbInv;
    var row := db.owners[x.owner];
    KnownRow(db, x.owner);
    var row' := WriteItem(Unclaimed(row, Executed), x.i, row.items[x.i].(link := Some(x.pc.link)));
    CloseGood(p, db, x.owner, row');
  }

  lemma FinalHeldSeries(p: ProcId, db: Db, x: Proc)
    requires DbInv(db) && ProcInv(db, p, x) && x.pc.FinalHeld? && x.owner.BatchId?
    ensures Good(p, db, StepFinalHeld(db, p, x))
  {
    hide Guarantee, DbInv, RowInv, Frozen, LoopInv;
    var row := db.owners[x.owner];
    KnownRow(db, x.owner);
    var item := row.items[x.i].(link := Some(x.pc.link), state := ItemExecuted);
    ItemWriteRow(db.made, x.owner, row, x.i, item);
    RowWrite(p, db, x.owner, WriteItem(row, x.i, item));
    var mid := WriteOwner(db, x.owner, WriteItem(row, x.i, item));
    ThenRelease(p, db, mid);
    ExecutedView(p, db, x, item);
  }

  /** The loop goes on with the item executed, before and after the process has moved to the next one. */
  lemma ExecutedView(p: ProcId, db: Db, x: Proc, item: Item)
    requires LoopInv(db, p, x) && x.i < |x.view| && (x.owner, x.i) in db.made && HasItem(db, x.owner, x.i)
    requires item.state == ItemExecuted
    ensures var db' := ReleaseLocks(WriteOwner(db, x.owner, WriteItem(db.owners[x.owner], x.i, item)), p);
      var y := x.(view := x.view[x.i := ItemExecuted]);
      LoopInv(db', p, y.(pc := Recorded)) && LoopInv(db', p, y.(i := x.i + 1, pc := Loop))
  {
  }

  lemma RecordedKeeps(p: ProcId, db: Db, x: Proc)
    requires DbInv(db) && ProcInv(db, p, x) && x.pc.Recorded?
    ensures Good(p, db, StepRecorded(db, x))
  {
    hide Guarantee, DbInv;
    StayGood(p, db, x.(i := x.i + 1, pc := Loop));
  }

  lemma CloseKeeps(p: ProcId, db: Db, x: Proc)
    requires DbInv(db) && ProcInv(db, p, x) && x.pc.Close? && Enabled(db, p, x)
    ensures Good(p, db, StepClose(db, p, x))
  {
    hide Guarantee, DbInv;
    if OwnerFence(db, x.owner, x.token) {
      Locking(p, db, x.owner);
      assert LoopInv(LockOwner(db, x.owner, p), p, x);
    } else {
      StopGood(p, db);
    }
  }

  lemma CloseHeldKeeps(p: ProcId, db: Db, x: Proc)
    requires DbInv(db) && ProcInv(db, p, x) && x.pc.CloseHeld?
    ensures Good(p, db, StepCloseHeld(db, p, x))
  {
    hide Guarantee, DbInv;
    var row := db.owners[x.owner];
    KnownRow(db, x.owner);
    assert RowInv(db.made, x.owner, Unclaimed(row, Executed));
    CloseGood(p, db, x.owner, Unclaimed(row, Executed));
  }

  /******* All steps *******/

  lemma AdvanceClaiming(p: ProcId, db: Db, x: Proc, token: Token)
    requires DbInv(db) && ProcInv(db, p, x) && InClaiming(x.pc) && Enabled(db, p, x) && token !in db.issued
    ensures Good(p, db, Advance(db, p, x, token))
  {
    hide Good, DbInv;
    match x.pc
    case Begin => BeginKeeps(p, db, x, token);
    case Loaded => LoadedKeeps(p, db, x);
    case Expired => ExpiredKeeps(p, db, x, token);
    case TakeOver(_) => TakeOverKeeps(p, db, x, token);
    case Promote => PromoteKeeps(p, db, x, token);
    case PostClaim => PostClaimKeeps(p, db, x);
    case MarkStale(all, one) => StaleRowGood(p, db, x.owner, all, one);
    case Snapshot => SnapshotKeeps(p, db, x);
    case Terminal(state, failed) => TerminalRowGood(p, db, x.owner, state, failed);
  }

  lemma AdvanceLooping(p: ProcId, db: Db, x: Proc, token: Token)
    requires DbInv(db) && ProcInv(db, p, x) && InLoop(x.pc) && Enabled(db, p, x)
    ensures Good(p, db, Advance(db, p, x, token))
  {
    hide Good, DbInv;
    match x.pc
    case Loop => LoopKeeps(p, db, x);
    case Inspect => InspectKeeps(p, db, x);
    case Vet => VetKeeps(p, db, x);
    case MarkItem => MarkItemKeeps(p, db, x);
    case Refresh => RefreshKeeps(p, db, x);
    case AfterError => AfterErrorKeeps(p, db, x);
    case Recorded => RecordedKeeps(p, db, x);
    case Close => CloseKeeps(p, db, x);
    case CloseHeld => CloseHeldKeeps(p, db, x);
  }

  lemma AdvanceQueueing(p: ProcId, db: Db, x: Proc, token: Token)
    requires DbInv(db) && ProcInv(db, p, x) && !InClaiming(x.pc) && !InLoop(x.pc) && Enabled(db, p, x)
    ensures Good(p, db, Advance(db, p, x, token))
  {
    hide Good, DbInv;
    match x.pc
    case Fence => FenceKeeps(p, db, x);
    case OwnerHeld => OwnerHeldKeeps(p, db, x);
    case TargetHeld => TargetHeldKeeps(p, db, x);
    case Cleared => ClearedKeeps(p, db, x);
    case Finalize(_, _) => FinalizeKeeps(p, db, x);
    case FinalHeld(_, _) => if x.owner.SingleId? { FinalHeldSingle(p, db, x); } else { FinalHeldSeries(p, db, x); }
  }

  lemma AdvanceKeeps(p: ProcId, db: Db, x: Proc, token: Token)
    requires DbInv(db) && ProcInv(db, p, x) && Enabled(db, p, x) && token !in db.issued
    ensures Good(p, db, Advance(db, p, x, token))
  {
    hide Good, DbInv, Advance, ProcInv, Enabled;
    if InClaiming(x.pc) {
      AdvanceClaiming(p, db, x, token);
    } else if InLoop(x.pc) {
      AdvanceLooping(p, db, x, token);
    } else {
      AdvanceQueueing(p, db, x, token);
    }
  }
}
