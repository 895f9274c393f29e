/**
 The invariant of the approval executors, proved by rely-guarantee: `DbInv` speaks of the tables,
 `ProcInv` of one process, and `Guarantee` is what the steps of one process may do to the rest.
 A step keeps its own process invariant and gives the guarantee; the invariant of every other
 process is stable under the guarantee.
 */
module ScheduleInvariant {
  import opened Wrappers
  import opened ScheduleStore
  import opened ScheduleProtocol

  type Made = map<(OwnerId, nat), Link>

  /******* Tables *******/

  ghost predicate RowInv(made: Made, o: OwnerId, row: Owner) {
    && row.items != [] && (o.SingleId? ==> |row.items| == 1)
    && (forall i: nat :: (o, i) in made ==> i < |row.items|)
    && (forall i: nat, j: nat :: (o, j) in made && i < j ==> (o, i) in made)
    && (row.state == PendingReview ==> forall i: nat :: (o, i) !in made)
    && (row.state == Executed ==> forall i: nat :: i < |row.items| ==> (o, i) in made)
    && (o.SingleId? && row.state == Executed ==> row.items[0].link == Some(made[(o, 0)]))
    && (forall i, j :: 0 <= i < j < |row.items| ==> row.items[i].target.contentItem != row.items[j].target.contentItem)
    && (o.BatchId? ==> forall i: nat :: i < |row.items| ==> ItemInv(made, o, i, row.items[i]))
    && (o.BatchId? && row.state == PendingReview ==>
          forall i: nat :: i < |row.items| ==> row.items[i].state == ItemPending)
    && (o.BatchId? && (row.state == PendingReview || row.state == Executing) ==>
          forall i: nat :: i < |row.items| ==> !row.items[i].state.ItemStale? && !row.items[i].state.ItemFailed?)
  }

  ghost predicate ItemInv(made: Made, o: OwnerId, i: nat, item: Item) {
    && (item.state == ItemPending ==> (o, i) !in made)
    && (item.state == ItemExecuted ==> (o, i) in made && item.link == Some(made[(o, i)]))
  }

  type Owners = map<OwnerId, Owner>

  ghost predicate HasItemIn(owners: Owners, o: OwnerId, i: nat) {
    o in owners && i < |owners[o].items|
  }

  ghost predicate KeysUnique(owners: Owners) {
    forall o, i: nat, o', j: nat ::
      (HasItemIn(owners, o, i) && HasItemIn(owners, o', j) && o.SingleId? == o'.SingleId?
       && owners[o].items[i].key == owners[o'].items[j].key)
      ==> o == o' && i == j
  }

  /** A made schedule entry is the one recorded for its item, and carries that item's intent. */
  ghost predicate EntryInv(owners: Owners, made: Made, sid: nat, e: Entry) {
    e.maker.Made? ==>
      var o, i := e.maker.owner, e.maker.ordinal;
      && HasItemIn(owners, o, i) && (o, i) in made && made[(o, i)].schedule == sid
      && var item := owners[o].items[i];
         e == Entry(item.target, owners[o].channel, item.slot, e.cancelled, Made(o, i, item.key))
  }

  ghost predicate PublicationInv(owners: Owners, made: Made, pid: nat, e: Publication) {
    e.maker.Made? ==>
      var o, i := e.maker.owner, e.maker.ordinal;
      && HasItemIn(owners, o, i) && (o, i) in made && made[(o, i)].publication == pid
      && var item := owners[o].items[i];
         e == Publication(item.target, owners[o].channel, Some(made[(o, i)].schedule), Made(o, i, item.key))
  }

  ghost predicate MadeInv(owners: Owners, entries: seq<Entry>, pubs: seq<Publication>, o: OwnerId, i: nat, link: Link) {
    && HasItemIn(owners, o, i)
    && link.schedule < |entries| && link.publication < |pubs|
    && entries[link.schedule].maker == pubs[link.publication].maker == Made(o, i, owners[o].items[i].key)
  }

  ghost predicate TablesInv(owners: Owners, entries: seq<Entry>, pubs: seq<Publication>, made: Made) {
    && KeysUnique(owners)
    && (forall sid: nat :: sid < |entries| ==> EntryInv(owners, made, sid, entries[sid]))
    && (forall pid: nat :: pid < |pubs| ==> PublicationInv(owners, made, pid, pubs[pid]))
    && (forall o, i: nat :: (o, i) in made ==> MadeInv(owners, entries, pubs, o, i, made[(o, i)]))
  }

  ghost predicate RowsInv(owners: Owners, made: Made) {
    forall o :: o in owners ==> RowInv(made, o, owners[o])
  }

  /** No two entries of these executors are live on one target. */
  ghost predicate OneLive(entries: seq<Entry>) {
    forall s1: nat, s2: nat ::
      (s1 < s2 < |entries| && entries[s1].maker.Made? && entries[s2].maker.Made?
       && entries[s1].target == entries[s2].target)
      ==> entries[s1].cancelled || entries[s2].cancelled
  }

  ghost predicate TokensKnown(owners: Owners, issued: map<Token, ProcId>) {
    forall o :: o in owners && owners[o].token.Some? ==> owners[o].token.value in issued
  }

  ghost predicate DbInv(db: Db) {
    && RowsInv(db.owners, db.made)
    && TablesInv(db.owners, db.entries, db.pubs, db.made)
    && OneLive(db.entries)
    && TokensKnown(db.owners, db.issued)
    && db.ownerLocks.Keys <= db.owners.Keys
  }

  /******* Processes *******/

  ghost predicate Locked(db: Db, p: ProcId, o: OwnerId) {
    o in db.owners && o in db.ownerLocks && db.ownerLocks[o] == p
  }

  /** The process itself drew the token it holds. */
  ghost predicate Claimant(db: Db, p: ProcId, x: Proc) {
    && x.owner in db.owners && db.owners[x.owner].state != PendingReview
    && x.token.Some? && x.token.value in db.issued && db.issued[x.token.value] == p
  }

  /** While the process's token is on the row, item `i` has no pair. */
  ghost predicate Unmade(db: Db, x: Proc, i: nat) {
    x.owner in db.owners && x.token.Some? && db.owners[x.owner].token == x.token ==> (x.owner, i) !in db.made
  }

  ghost predicate LoopInv(db: Db, p: ProcId, x: Proc) {
    && x.owner.BatchId? && Claimant(db, p, x)
    && |x.view| == |db.owners[x.owner].items| && x.i <= |x.view|
    && (forall j: nat :: j < x.i ==> (x.owner, j) in db.made)
    && (forall j: nat :: x.i <= j < |x.view| && x.view[j] == ItemPending ==> Unmade(db, x, j))
    && (forall j: nat :: j < |x.view| && x.view[j] != ItemPending ==> db.owners[x.owner].items[j].state != ItemPending)
  }

  /** On its way to queue item `x.i`. */
  ghost predicate Working(db: Db, p: ProcId, x: Proc) {
    && HasItem(db, x.owner, x.i) && Claimant(db, p, x) && Unmade(db, x, x.i)
    && (x.owner.BatchId? ==> LoopInv(db, p, x) && x.i < |x.view| && x.view[x.i] != ItemPending)
  }

  ghost predicate Recording(db: Db, p: ProcId, x: Proc, link: Link) {
    && HasItem(db, x.owner, x.i) && (x.owner, x.i) in db.made && db.made[(x.owner, x.i)] == link
    && (x.owner.BatchId? ==> LoopInv(db, p, x) && x.i < |x.view| && x.view[x.i] != ItemPending)
  }

  ghost predicate Held(db: Db, p: ProcId, x: Proc) {
    Locked(db, p, x.owner) && OwnerFence(db, x.owner, x.token)
  }

  ghost predicate HoldsTarget(db: Db, p: ProcId, x: Proc)
    requires HasItem(db, x.owner, x.i)
  {
    var t := ItemOf(db, x.owner, x.i).target;
    t in db.targetLocks && db.targetLocks[t] == p
  }

  /** What the recheck established: every entry of these executors on the target is cancelled. */
  ghost predicate NoneLive(db: Db, t: Target) {
    forall sid: nat :: sid < |db.entries| && db.entries[sid].target == t && db.entries[sid].maker.Made?
      ==> db.entries[sid].cancelled
  }

  ghost predicate PcInv(db: Db, p: ProcId, x: Proc) {
    match x.pc
    case Begin => true
    case Loaded => Locked(db, p, x.owner)
    case Expired =>
      x.owner.SingleId? && Locked(db, p, x.owner) && db.owners[x.owner].state == Executing && (x.owner, 0) !in db.made
    case TakeOver(_) => x.owner.BatchId? && x.owner in db.owners
    case Promote => x.owner in db.owners
    case PostClaim => Claimant(db, p, x) && (x.owner.SingleId? ==> Unmade(db, x, 0))
    case MarkStale(_, _) => x.owner in db.owners
    case Snapshot => x.owner.BatchId? && Claimant(db, p, x)
    case Loop => LoopInv(db, p, x)
    case Inspect => LoopInv(db, p, x) && x.i < |x.view|
    case Vet => LoopInv(db, p, x) && x.i < |x.view| && Unmade(db, x, x.i)
    case MarkItem => LoopInv(db, p, x) && x.i < |x.view| && Unmade(db, x, x.i)
    case Refresh => LoopInv(db, p, x) && x.i < |x.view| && Unmade(db, x, x.i)
                    && db.owners[x.owner].items[x.i].state != ItemPending
    case Fence => Working(db, p, x)
    case OwnerHeld => Working(db, p, x) && Held(db, p, x)
    case TargetHeld => Working(db, p, x) && Held(db, p, x) && HoldsTarget(db, p, x)
    case Cleared => Working(db, p, x) && Held(db, p, x) && HoldsTarget(db, p, x)
                    && NoneLive(db, ItemOf(db, x.owner, x.i).target)
    case AfterError => LoopInv(db, p, x) && x.i < |x.view|
    case Finalize(link, _) => Recording(db, p, x, link)
    case FinalHeld(link, _) => Recording(db, p, x, link) && Held(db, p, x)
    case Recorded => LoopInv(db, p, x) && x.i < |x.view| && (x.owner, x.i) in db.made
    case Close => LoopInv(db, p, x) && x.i == |x.view|
    case CloseHeld => LoopInv(db, p, x) && x.i == |x.view| && Held(db, p, x)
    case Terminal(state, failed) =>
      && x.owner.BatchId? && x.owner in db.owners
      && (state == PartialFailed || state == Stale || state == Failed)
      && (failed.Some? ==> failed.value.1 == ItemStale || failed.value.1 == ItemFailed)
  }

  ghost predicate ProcInv(db: Db, p: ProcId, x: Proc) {
    (x.owner.SingleId? ==> x.i == 0) && PcInv(db, p, x)
  }

  ghost predicate Inv(s: System) {
    && DbInv(s.db)
    && s.procs.Keys <= s.started
    && forall p :: p in s.procs ==> ProcInv(s.db, p, s.procs[p])
  }

  /******* Guarantee *******/

  /** What never changes on an owner row; an owner or item that left pending never returns. */
  ghost predicate Frozen(row: Owner, row': Owner) {
    && (row.state != PendingReview ==> row'.state != PendingReview)
    && row'.channel == row.channel && |row'.items| == |row.items|
    && forall i :: 0 <= i < |row.items| ==>
         && row'.items[i].target == row.items[i].target && row'.items[i].slot == row.items[i].slot
         && row'.items[i].key == row.items[i].key
         && (row.items[i].state != ItemPending ==> row'.items[i].state != ItemPending)
  }

  ghost predicate SameClaim(row: Owner, row': Owner) {
    row'.state == row.state && row'.token == row.token && row'.claimedAt == row.claimedAt
  }

  ghost predicate OwnersKept(db: Db, db': Db) {
    forall o :: o in db.owners ==> o in db'.owners && Frozen(db.owners[o], db'.owners[o])
  }

  ghost predicate LocksRespected(p: ProcId, db: Db, db': Db) {
    && (forall o :: o in db.ownerLocks && o in db.owners && db.ownerLocks[o] != p ==>
          o in db'.ownerLocks && db'.ownerLocks[o] == db.ownerLocks[o]
          && o in db'.owners && SameClaim(db.owners[o], db'.owners[o]))
    && (forall t :: t in db.targetLocks && db.targetLocks[t] != p ==>
          t in db'.targetLocks && db'.targetLocks[t] == db.targetLocks[t])
  }

  /** A new pair appears only under both locks and the row's current token, all held by `p`. */
  ghost predicate PairsGuarded(p: ProcId, db: Db, db': Db) {
    && (forall o, i: nat :: (o, i) in db.made ==> (o, i) in db'.made && db'.made[(o, i)] == db.made[(o, i)])
    && (forall o, i: nat :: (o, i) in db'.made && (o, i) !in db.made ==>
          && HasItem(db, o, i) && OwnerFence(db, o, db.owners[o].token)
          && Locked(db, p, o)
          && db.owners[o].token.value in db.issued && db.issued[db.owners[o].token.value] == p
          && ItemOf(db, o, i).target in db.targetLocks && db.targetLocks[ItemOf(db, o, i).target] == p)
    && (forall o, i: nat :: (o, i) in db'.made && (o, i) !in db.made ==>
          db'.made[(o, i)].schedule >= |db.entries|)
  }

  ghost predicate RowsAppended(db: Db, db': Db) {
    && |db.entries| <= |db'.entries| && |db.pubs| <= |db'.pubs|
    && (forall sid :: 0 <= sid < |db.entries| ==>
          && db'.entries[sid] == db.entries[sid].(cancelled := db'.entries[sid].cancelled)
          && (db.entries[sid].cancelled ==> db'.entries[sid].cancelled))
    && (forall sid :: |db.entries| <= sid < |db'.entries| && db'.entries[sid].maker.Made? ==>
          var m := db'.entries[sid].maker; (m.owner, m.ordinal) !in db.made)
    && (forall pid :: 0 <= pid < |db.pubs| ==> db'.pubs[pid] == db.pubs[pid])
  }

  ghost predicate TokensFresh(db: Db, db': Db) {
    && (forall t :: t in db.issued ==> t in db'.issued && db'.issued[t] == db.issued[t])
    && (forall o :: o in db.owners && o in db'.owners && db'.owners[o].token != db.owners[o].token ==>
          db'.owners[o].token == None || db'.owners[o].token.value !in db.issued)
  }

  ghost predicate Guarantee(p: ProcId, db: Db, db': Db) {
    && OwnersKept(db, db') && LocksRespected(p, db, db') && PairsGuarded(p, db, db')
    && RowsAppended(db, db') && TokensFresh(db, db')
  }

  /******* What recovery sees *******/

  lemma RecoverExact(db: Db, o: OwnerId, i: nat)
    requires DbInv(db) && HasItem(db, o, i)
    ensures Recover(db, o, i).Nothing? <==> (o, i) !in db.made
    ensures Recover(db, o, i).Match? ==> (o, i) in db.made && Recover(db, o, i).link == db.made[(o, i)]
    ensures (o, i) in db.made ==>
      (Recover(db, o, i).Match? <==> o.SingleId? || !db.entries[db.made[(o, i)].schedule].cancelled)
  {
    var item := ItemOf(db, o, i);
    var schedules, publications := SchedulesWithKey(db, o, item), PublicationsWithKey(db, o, item);
    forall sid: nat | sid in schedules
      ensures (o, i) in db.made && sid == db.made[(o, i)].schedule
    {
      assert EntryInv(db.owners, db.made, sid, db.entries[sid]);
    }
    forall pid: nat | pid in publications
      ensures (o, i) in db.made && pid == db.made[(o, i)].publication
    {
      assert PublicationInv(db.owners, db.made, pid, db.pubs[pid]);
    }
    if (o, i) in db.made {
      var link := db.made[(o, i)];
      assert MadeInv(db.owners, db.entries, db.pubs, o, i, link);
      assert EntryInv(db.owners, db.made, link.schedule, db.entries[link.schedule]);
      assert PublicationInv(db.owners, db.made, link.publication, db.pubs[link.publication]);
      assert schedules == {link.schedule};
      assert publications == {link.publication};
    } else {
      assert schedules == {} && publications == {};
    }
  }

  /******* Stability *******/

  lemma UnmadeStable(db: Db, db': Db, p: ProcId, q: ProcId, x: Proc, j: nat)
    requires Guarantee(p, db, db') && p != q && Claimant(db, q, x) && Unmade(db, x, j)
    ensures Unmade(db', x, j) && Claimant(db', q, x)
  {
    assert Frozen(db.owners[x.owner], db'.owners[x.owner]);
  }

  lemma ExpiredStable(db: Db, db': Db, p: ProcId, q: ProcId, x: Proc)
    requires Guarantee(p, db, db') && p != q
    requires Locked(db, q, x.owner) && (x.owner, 0) !in db.made
    ensures (x.owner, 0) !in db'.made
  {
  }

  lemma LoopInvStable(db: Db, db': Db, p: ProcId, q: ProcId, x: Proc)
    requires Guarantee(p, db, db') && p != q && LoopInv(db, q, x)
    ensures LoopInv(db', q, x)
  {
    forall j: nat | x.i <= j < |x.view| && x.view[j] == ItemPending
      ensures Unmade(db', x, j)
    {
      UnmadeStable(db, db', p, q, x, j);
    }
  }

  lemma NewEntryUnderLock(db: Db, db': Db, p: ProcId, sid: nat)
    requires Guarantee(p, db, db') && TablesInv(db'.owners, db'.entries, db'.pubs, db'.made)
    requires |db.entries| <= sid < |db'.entries| && db'.entries[sid].maker.Made?
    ensures db'.entries[sid].target in db.targetLocks && db.targetLocks[db'.entries[sid].target] == p
  {
    var m := db'.entries[sid].maker;
    assert EntryInv(db'.owners, db'.made, sid, db'.entries[sid]);
    assert (m.owner, m.ordinal) in db'.made && (m.owner, m.ordinal) !in db.made;
    assert Frozen(db.owners[m.owner], db'.owners[m.owner]);
  }

  lemma NoneLiveStable(db: Db, db': Db, p: ProcId, q: ProcId, t: Target)
    requires Guarantee(p, db, db') && p != q && TablesInv(db'.owners, db'.entries, db'.pubs, db'.made)
    requires t in db.targetLocks && db.targetLocks[t] == q
    requires NoneLive(db, t)
    ensures NoneLive(db', t)
  {
    forall sid: nat | sid < |db'.entries| && db'.entries[sid].target == t && db'.entries[sid].maker.Made?
      ensures db'.entries[sid].cancelled
    {
      if |db.entries| <= sid {
        NewEntryUnderLock(db, db', p, sid);
      }
    }
  }

  lemma WorkingStable(db: Db, db': Db, p: ProcId, q: ProcId, x: Proc)
    requires Guarantee(p, db, db') && p != q && Working(db, q, x)
    ensures Working(db', q, x)
    ensures ItemOf(db', x.owner, x.i).target == ItemOf(db, x.owner, x.i).target
  {
    assert Frozen(db.owners[x.owner], db'.owners[x.owner]);
    UnmadeStable(db, db', p, q, x, x.i);
    if x.owner.BatchId? {
      LoopInvStable(db, db', p, q, x);
    }
  }

  lemma RecordingStable(db: Db, db': Db, p: ProcId, q: ProcId, x: Proc, link: Link)
    requires Guarantee(p, db, db') && p != q && Recording(db, q, x, link)
    ensures Recording(db', q, x, link)
  {
    assert Frozen(db.owners[x.owner], db'.owners[x.owner]);
    if x.owner.BatchId? {
      LoopInvStable(db, db', p, q, x);
    }
  }

  lemma HeldStable(db: Db, db': Db, p: ProcId, q: ProcId, x: Proc)
    requires Guarantee(p, db, db') && p != q
    ensures Locked(db, q, x.owner) ==> Locked(db', q, x.owner) && SameClaim(db.owners[x.owner], db'.owners[x.owner])
    ensures Held(db, q, x) ==> Held(db', q, x)
  {
  }

  predicate InClaiming(pc: Pc) {
    pc.Begin? || pc.Loaded? || pc.Expired? || pc.TakeOver? || pc.Promote? || pc.PostClaim? || pc.MarkStale?
    || pc.Snapshot? || pc.Terminal?
  }

  predicate InLoop(pc: Pc) {
    pc.Loop? || pc.Inspect? || pc.Vet? || pc.MarkItem? || pc.Refresh? || pc.AfterError? || pc.Close? || pc.CloseHeld?
    || pc.Recorded?
  }

  predicate InQueue(pc: Pc) {
    pc.Fence? || pc.OwnerHeld? || pc.TargetHeld? || pc.Cleared?
  }

  lemma ClaimingStable(db: Db, db': Db, p: ProcId, q: ProcId, x: Proc)
    requires Guarantee(p, db, db') && p != q && PcInv(db, q, x)
    requires InClaiming(x.pc)
    ensures PcInv(db', q, x)
  {
    HeldStable(db, db', p, q, x);
    if x.pc.Expired? {
      ExpiredStable(db, db', p, q, x);
    } else if x.pc.PostClaim? && x.owner.SingleId? {
      UnmadeStable(db, db', p, q, x, 0);
    }
  }

  lemma LoopingStable(db: Db, db': Db, p: ProcId, q: ProcId, x: Proc)
    requires Guarantee(p, db, db') && p != q && PcInv(db, q, x)
    requires InLoop(x.pc)
    ensures PcInv(db', q, x)
  {
    LoopInvStable(db, db', p, q, x);
    HeldStable(db, db', p, q, x);
    if x.pc.Vet? || x.pc.MarkItem? || x.pc.Refresh? {
      UnmadeStable(db, db', p, q, x, x.i);
    }
    assert Frozen(db.owners[x.owner], db'.owners[x.owner]);
  }

  lemma QueueingStable(db: Db, db': Db, p: ProcId, q: ProcId, x: Proc)
    requires Guarantee(p, db, db') && p != q && PcInv(db, q, x)
    requires TablesInv(db'.owners, db'.entries, db'.pubs, db'.made)
    requires InQueue(x.pc)
    ensures PcInv(db', q, x)
  {
    WorkingStable(db, db', p, q, x);
    HeldStable(db, db', p, q, x);
    if x.pc.Cleared? {
      NoneLiveStable(db, db', p, q, ItemOf(db, x.owner, x.i).target);
    }
  }

  lemma FinalizingStable(db: Db, db': Db, p: ProcId, q: ProcId, x: Proc)
    requires Guarantee(p, db, db') && p != q && PcInv(db, q, x)
    requires x.pc.Finalize? || x.pc.FinalHeld?
    ensures PcInv(db', q, x)
  {
    RecordingStable(db, db', p, q, x, x.pc.link);
    HeldStable(db, db', p, q, x);
  }

  /** The process invariant survives any step of any other process. */
  lemma ProcInvStable(db: Db, db': Db, p: ProcId, q: ProcId, x: Proc)
    requires Guarantee(p, db, db') && p != q && DbInv(db')
    requires ProcInv(db, q, x)
    ensures ProcInv(db', q, x)
  {
    if InClaiming(x.pc) {
      ClaimingStable(db, db', p, q, x);
    } else if InLoop(x.pc) {
      LoopingStable(db, db', p, q, x);
    } else if InQueue(x.pc) {
      QueueingStable(db, db', p, q, x);
    } else {
      FinalizingStable(db, db', p, q, x);
    }
  }
}
