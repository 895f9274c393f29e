/**
 `AdminAgentSeriesApprovalService.approve` run by one uncontended request: every other process has
 died or finished, so no lock is held and the tables change only by this request. The service's
 code is written out imperatively; a ghost trace shows that it is a run of the step protocol, and
 the contract of `Approve` says exactly when it ends executed and what it created.
 */
module SeriesRecovery {
  import opened Sets
  import opened Wrappers
  import opened ScheduleStore
  import opened ScheduleProtocol
  import opened ScheduleInvariant
  import opened ScheduleSteps
  import opened ScheduleSafety
  import opened SeriesCompletion

  datatype QueueResult = Queued(link: Link) | TargetStale | ClaimLost

  /** A single approval whose pair is recorded: executed, unclaimed, and naming the pair. */
  function SingleExecuted(db: Db, o: OwnerId, link: Link): Db
    requires HasItem(db, o, 0)
  {
    var row := db.owners[o];
    WriteOwner(db, o, WriteItem(Closed(row, Executed), 0, row.items[0].(link := Some(link))))
  }

  datatype SingleNext = Over(state: Option<OwnerState>) | PromoteRow | FinalizePair(link: Link) | Reclaim

  /** The decision of `approve` by state, recovery, lease and staleness. */
  ghost function NextFor(db: Db, o: OwnerId, now: int): SingleNext
    requires HasItem(db, o, 0)
  {
    var row := db.owners[o];
    if row.state == Executing then
      match Recover(db, o, 0)
      case Match(link) => FinalizePair(link)
      case Conflict => Over(Some(Failed))
      case Nothing => if InLease(row, now) then Over(None) else Reclaim
    else if row.state == PendingReview then if !Schedulable(db, o, 0) then Over(Some(Stale)) else PromoteRow
    else Over(None)
  }

  /** The approval is executed with one new pair. */
  ghost predicate NewPair(before: Db, after: Db, o: OwnerId)
    requires HasItem(before, o, 0)
  {
    && OnlyRowChanged(before, after, o) && SamePairs(Queue(before, o, 0), after)
    && after.owners[o] == SingleExecuted(Queue(before, o, 0), o, Link(|before.entries|, |before.pubs|)).owners[o]
  }

  /** The row left in a final state without its claim, or as it is. */
  function ClosedAs(db: Db, o: OwnerId, state: Option<OwnerState>): Db
    requires o in db.owners
  {
    if state.Some? then WriteOwner(db, o, Closed(db.owners[o], state.value)) else db
  }

  /** Exactly what one uncontended `approve` of a single approval does to the tables. */
  ghost predicate SingleOutcome(before: Db, after: Db, o: OwnerId, now: int) {
    if !HasItem(before, o, 0) then after == before
    else
      match NextFor(before, o, now)
      case Over(state) => after == ClosedAs(before, o, state)
      case PromoteRow => NewPair(before, after, o)
      case FinalizePair(link) =>
        after == if before.owners[o].token.Some? then SingleExecuted(before, o, link) else before
      case Reclaim =>
        if !Schedulable(before, o, 0) then after == WriteOwner(before, o, Closed(before.owners[o], Stale))
        else NewPair(before, after, o)
  }

  /** The row lock changes no answer. */
  lemma SameAnswers(before: Db, db: Db, o: OwnerId)
    requires HasItem(before, o, 0) && db == before.(ownerLocks := db.ownerLocks)
    ensures Recover(db, o, 0) == Recover(before, o, 0) && !Schedulable(db, o, 0) == !Schedulable(before, o, 0)
  {
    var item := ItemOf(before, o, 0);
    assert SchedulesWithKey(db, o, item) == SchedulesWithKey(before, o, item);
    assert PublicationsWithKey(db, o, item) == PublicationsWithKey(before, o, item);
    if |SchedulesWithKey(db, o, item)| == 1 && |PublicationsWithKey(db, o, item)| == 1 {
      forall link: Link |
        link.schedule in SchedulesWithKey(db, o, item) && link.publication in PublicationsWithKey(db, o, item)
        ensures PairMatches(db, o, 0, link) == PairMatches(before, o, 0, link)
      {
      }
      OneElement(SchedulesWithKey(db, o, item));
      OneElement(PublicationsWithKey(db, o, item));
    }
  }

  lemma ClaimedAnswers(before: Db, db: Db, o: OwnerId, p: ProcId, token: Token, now: int)
    requires HasItem(before, o, 0) && db == GiveClaim(before, o, p, token, now)
    ensures HasItem(db, o, 0) && !Schedulable(db, o, 0) == !Schedulable(before, o, 0)
    ensures db.owners[o].items == before.owners[o].items
  {
  }

  lemma SingleHasItem(db: Db, o: OwnerId)
    requires DbInv(db) && o in db.owners && o.SingleId?
    ensures HasItem(db, o, 0)
  {
  }

  /** A process that works on an item points at one of its owner's items. */
  lemma ItsItem(db: Db, p: ProcId, x: Proc)
    requires ProcInv(db, p, x)
    requires x.pc.Inspect? || x.pc.Vet? || x.pc.MarkItem? || x.pc.Refresh? || x.pc.Fence? || x.pc.Finalize?
    ensures AtItem(db, x) && (x.owner.SingleId? ==> x.i == 0)
    ensures x.pc.Inspect? || x.pc.Vet? ==> x.owner.BatchId?
  {
  }

  /** The steps that the fenced writes consist of. */
  lemma FencedSteps(db: Db, p: ProcId, x: Proc, token: Token)
    ensures x.pc.Fence? ==>
      Advance(db, p, x, token) == StepFence(db, p, x) && (Enabled(db, p, x) <==> OwnerFree(db, x.owner, p))
    ensures x.pc.OwnerHeld? ==> Advance(db, p, x, token) == StepOwnerHeld(db, p, x)
    ensures x.pc.OwnerHeld? && HasItem(db, x.owner, x.i) ==>
      (Enabled(db, p, x) <==> TargetFree(db, ItemOf(db, x.owner, x.i).target, p))
    ensures x.pc.TargetHeld? ==> Advance(db, p, x, token) == StepTargetHeld(db, p, x) && Enabled(db, p, x)
    ensures x.pc.Cleared? ==> Advance(db, p, x, token) == StepCleared(db, p, x) && Enabled(db, p, x)
    ensures x.pc.Finalize? ==>
      Advance(db, p, x, token) == StepFinalize(db, p, x) && (OwnerFree(db, x.owner, p) ==> Enabled(db, p, x))
    ensures x.pc.FinalHeld? ==> Advance(db, p, x, token) == StepFinalHeld(db, p, x) && Enabled(db, p, x)
    ensures x.pc.Recorded? ==> Advance(db, p, x, token) == StepRecorded(db, x) && Enabled(db, p, x)
    ensures x.pc.Close? ==>
      Advance(db, p, x, token) == StepClose(db, p, x) && (Enabled(db, p, x) <==> OwnerFree(db, x.owner, p))
    ensures x.pc.CloseHeld? ==> Advance(db, p, x, token) == StepCloseHeld(db, p, x) && Enabled(db, p, x)
    ensures x.pc.Loop? ==> Advance(db, p, x, token) == StepLoop(db, p, x) && Enabled(db, p, x)
  {
  }

  lemma NoOutcomeWithoutRow(db: Db, o: OwnerId, now: int)
    requires !HasItem(db, o, 0)
    ensures SingleOutcome(db, db, o, now)
  {
  }

  /** An executing approval of which nothing is found waits for 30 seconds after its claim, and no longer. */
  lemma WaitsOrActs(before: Db, after: Db, o: OwnerId, now: int)
    requires HasItem(before, o, 0) && SingleOutcome(before, after, o, now)
    requires before.owners[o].state == Executing
    ensures Recover(before, o, 0).Nothing? ==>
      var row := before.owners[o];
      && (row.token.Some? && row.claimedAt.Some? && now < row.claimedAt.value + 30_000_000 ==> after == before)
      && (row.token.None? || row.claimedAt.None? || row.claimedAt.value + 30_000_000 <= now ==>
            o in after.owners && after.owners[o].state != Executing)
  {
    hide Recover, Schedulable, SamePairs;
  }

  /******* What recovery looks for, in fields *******/

  /** Made for an owner of the same kind under this key. */
  predicate Tagged(maker: Maker, o: OwnerId, key: string) {
    match maker
    case Foreign => false
    case Made(owner, _, itsKey) => itsKey == key && (owner.BatchId? <==> o.BatchId?)
  }

  function EntriesOf(db: Db, o: OwnerId, i: nat): set<nat>
    requires HasItem(db, o, i)
  {
    set sid: nat | sid < |db.entries| && db.entries[sid].target == db.owners[o].items[i].target
                   && Tagged(db.entries[sid].maker, o, db.owners[o].items[i].key)
  }

  function PublicationsOf(db: Db, o: OwnerId, i: nat): set<nat>
    requires HasItem(db, o, i)
  {
    set pid: nat | pid < |db.pubs| && db.pubs[pid].target == db.owners[o].items[i].target
                   && Tagged(db.pubs[pid].maker, o, db.owners[o].items[i].key)
  }

  /**
   The pair is linked and scheduled for the item's channel and time on behalf of its owner; for a series
   item its time zone, its status and everything its makers say count too.
   */
  predicate Belongs(db: Db, o: OwnerId, i: nat, link: Link)
    requires HasItem(db, o, i)
  {
    && link.schedule < |db.entries| && link.publication < |db.pubs|
    && var item, entry, pub := db.owners[o].items[i], db.entries[link.schedule], db.pubs[link.publication];
       && pub.schedule == Some(link.schedule)
       && entry.channel == db.owners[o].channel && pub.channel == db.owners[o].channel
       && entry.slot.at == item.slot.at
       && entry.maker != Foreign && entry.maker.owner == o && pub.maker != Foreign && pub.maker.owner == o
       && match o
          case SingleId(_) => true
          case BatchId(_) =>
            && entry.slot == item.slot && !entry.cancelled
            && entry.maker == Made(o, i, item.key) && pub.maker == Made(o, i, item.key)
  }

  lemma RowsAgree(db: Db, o: OwnerId, i: nat)
    requires HasItem(db, o, i)
    ensures EntriesOf(db, o, i) == SchedulesWithKey(db, o, ItemOf(db, o, i))
    ensures PublicationsOf(db, o, i) == PublicationsWithKey(db, o, ItemOf(db, o, i))
    ensures forall link: Link ::
      link.schedule < |db.entries| && link.publication < |db.pubs| ==>
        (PairMatches(db, o, i, link) <==> Belongs(db, o, i, link))
  {
  }

  class ApprovalService {
    const me: ProcId
    const now: int
    var db: Db
    ghost var trace: seq<Outcome>

    /** The trace is a run of the protocol that has brought the tables to `db`. */
    ghost predicate Valid()
      reads this
    {
      && Solo(me, trace) && trace[|trace| - 1].db == db && DbInv(db)
      && (trace[|trace| - 1].next.Some? ==> ProcInv(db, me, trace[|trace| - 1].next.value))
    }

    ghost predicate At(x: Proc)
      reads this
    {
      Valid() && trace[|trace| - 1].next == Some(x)
    }

    /** The request is over. */
    ghost predicate Finished()
      reads this
    {
      Valid() && trace[|trace| - 1].next == None
    }

    constructor (db: Db, me: ProcId, now: int, o: OwnerId)
      requires DbInv(db)
      ensures this.db == db && this.me == me && this.now == now
      ensures At(Proc(o, now, None, Begin, 0, []))
      ensures trace == [Outcome(db, Some(Proc(o, now, None, Begin, 0, [])))]
    {
      this.db := db;
      this.me := me;
      this.now := now;
      trace := [Outcome(db, Some(Proc(o, now, None, Begin, 0, [])))];
    }

    /** The code has just done what the protocol step of `x` does. */
    ghost method Record(x: Proc, token: Token)
      requires Solo(me, trace) && trace[|trace| - 1].next == Some(x)
      requires DbInv(trace[|trace| - 1].db) && ProcInv(trace[|trace| - 1].db, me, x)
      requires Enabled(trace[|trace| - 1].db, me, x) && token !in trace[|trace| - 1].db.issued
      requires db == Advance(trace[|trace| - 1].db, me, x, token).db
      modifies this`trace
      ensures Valid() && trace == old(trace) + [Advance(old(trace)[|old(trace)| - 1].db, me, x, token)]
    {
      hide Advance, Enabled, DbInv, ProcInv;
      var last := trace[|trace| - 1];
      var next := Advance(last.db, me, x, token);
      AdvanceKeeps(me, last.db, x, token);
      assert Good(me, last.db, next);
      assert SoloStep(me, last, next);
      trace := trace + [next];
    }

    /** `_recover_existing`: collect the rows that carry the item's key, then compare. */
    method RecoverExisting(o: OwnerId, i: nat) returns (r: Recovery)
      requires HasItem(db, o, i)
      ensures r.Nothing? <==> EntriesOf(db, o, i) == {} && PublicationsOf(db, o, i) == {}
      ensures r.Match? <==>
        exists link: Link :: EntriesOf(db, o, i) == {link.schedule} && PublicationsOf(db, o, i) == {link.publication}
                             && Belongs(db, o, i, link)
      ensures r.Match? ==>
        EntriesOf(db, o, i) == {r.link.schedule} && PublicationsOf(db, o, i) == {r.link.publication}
      ensures r == Recover(db, o, i)
    {
      RowsAgree(db, o, i);
      var item := ItemOf(db, o, i);
      var schedules: seq<nat> := [];
      for sid := 0 to |db.entries|
        invariant forall s :: s in schedules <==> s in SchedulesWithKey(db, o, item) && s < sid
        invariant forall a :: 0 <= a < |schedules| ==> schedules[a] < sid
        invariant forall a, b :: 0 <= a < b < |schedules| ==> schedules[a] < schedules[b]
      {
        if db.entries[sid].target == item.target && Carries(db.entries[sid].maker, o, item.key) {
          schedules := schedules + [sid];
        }
      }
      var publications: seq<nat> := [];
      for pid := 0 to |db.pubs|
        invariant forall s :: s in publications <==> s in PublicationsWithKey(db, o, item) && s < pid
        invariant forall a :: 0 <= a < |publications| ==> publications[a] < pid
        invariant forall a, b :: 0 <= a < b < |publications| ==> publications[a] < publications[b]
      {
        if db.pubs[pid].target == item.target && Carries(db.pubs[pid].maker, o, item.key) {
          publications := publications + [pid];
        }
      }
      SizeOfList(schedules, SchedulesWithKey(db, o, item));
      SizeOfList(publications, PublicationsWithKey(db, o, item));
      if schedules == [] && publications == [] {
        return Nothing;
      }
      if |schedules| != 1 || |publications| != 1 {
        return Conflict;
      }
      var link := Link(schedules[0], publications[0]);
      assert SchedulesWithKey(db, o, item) == {link.schedule};
      assert PublicationsWithKey(db, o, item) == {link.publication};
      r := if PairMatches(db, o, i, link) then Match(link) else Conflict;
    }

    /******* Ending the request *******/

    /** `_terminal_failure`, reached with no transaction open. */
    method TerminalFailure(ghost x: Proc, o: OwnerId, state: OwnerState, failed: Option<(nat, ItemState)>)
      requires At(x) && x.pc == Terminal(state, failed) && x.owner == o && NoLocks(db)
      modifies this
      ensures Finished() && old(trace) <= trace && o in old(db).owners
      ensures db == WriteOwner(old(db), o, TerminalRow(old(db).owners[o], state, failed))
      ensures var row, after := old(db).owners[o], db.owners[o];
        && after == Owner(row.channel, state, None, None, after.items) && |after.items| == |row.items|
        && forall i :: 0 <= i < |row.items| ==>
             after.items[i] ==
             if failed.Some? && failed.value.0 == i then row.items[i].(state := failed.value.1) else row.items[i]
    {
      hide DbInv;
      ghost var token := FreshToken(db.issued);
      db := ReleaseLocks(WriteOwner(db, o, TerminalRow(db.owners[o], state, failed)), me);
      Record(x, token);
      NoLocksToRelease(WriteOwner(old(db), o, TerminalRow(old(db).owners[o], state, failed)), me);
    }

    /******* Queueing and finalising one item *******/

    /** `fence_execution_claim` with a target: the two guarded updates, both locks kept on success. */
    method FenceExecutionClaim(ghost x: Proc, o: OwnerId, i: nat, claim: Token) returns (ok: bool)
      requires At(x) && x.pc == Fence && x.owner == o && x.i == i && x.token == Some(claim)
      requires NoLocks(db)
      modifies this
      ensures Valid() && old(trace) <= trace && HasItem(old(db), o, i)
      ensures ok <==> ClaimStands(old(db), o, claim) && ItemOf(old(db), o, i).target in old(db).revisions
      ensures ok ==>
        && db == LockTarget(LockOwner(old(db), o, me), ItemOf(old(db), o, i).target, me)
        && At(x.(pc := TargetHeld))
      ensures !ok ==> db == old(db) && Finished()
    {
      hide DbInv, Solo, ProcInv, Recover, Advance, Enabled;
      ghost var token := FreshToken(db.issued);
      ItsItem(db, me, x);
      FencedSteps(db, me, x, token);
      if !OwnerFence(db, o, Some(claim)) {
        NoLocksToRelease(db, me);
        Record(x, token);
        return false;
      }
      db := LockOwner(db, o, me);
      Record(x, token);
      ghost var x1 := x.(pc := OwnerHeld);
      FencedSteps(db, me, x1, token);
      var target := ItemOf(db, o, i).target;
      if target !in db.revisions {
        db := ReleaseLocks(db, me);
        Record(x1, token);
        OwnLocksReleased(old(db), LockOwner(old(db), o, me), me);
        return false;
      }
      db := LockTarget(db, target, me);
      Record(x1, token);
      ok := true;
    }

    /** `_queue_item`: fence owner and target, recheck, queue and commit. */
    method QueueItem(ghost x: Proc, o: OwnerId, i: nat, claim: Token) returns (r: QueueResult)
      requires At(x) && x.pc == Fence && x.owner == o && x.i == i && x.token == Some(claim)
      requires NoLocks(db)
      modifies this
      ensures Valid() && old(trace) <= trace && HasItem(old(db), o, i)
      ensures r.ClaimLost? <==>
        !(ClaimStands(old(db), o, claim) && ItemOf(old(db), o, i).target in old(db).revisions)
      ensures !r.ClaimLost? ==>
        (r.Queued? <==>
           forall sid :: 0 <= sid < |old(db).entries| && old(db).entries[sid].target == ItemOf(old(db), o, i).target
             ==> old(db).entries[sid].cancelled)
      ensures r.Queued? ==>
        && r.link == Link(|old(db).entries|, |old(db).pubs|) && db == Queue(old(db), o, i)
        && At(x.(pc := Finalize(r.link, true)))
      ensures r.TargetStale? ==>
        && db == LockTarget(LockOwner(old(db), o, me), ItemOf(old(db), o, i).target, me)
        && At(x.(pc := TargetHeld)) && Conflicting(old(db), ItemOf(old(db), o, i).target)
      ensures r.ClaimLost? ==> db == old(db) && Finished()
    {
      hide DbInv, Solo, ProcInv;
      var fenced := FenceExecutionClaim(x, o, i, claim);
      if !fenced {
        return ClaimLost;
      }
      if Conflicting(db, ItemOf(db, o, i).target) {
        return TargetStale;
      }
      r := Queued(Link(|db.entries|, |db.pubs|));
      CommitPair(x.(pc := TargetHeld), old(db), o, i);
    }

    /** The insert and the commit that gives up both locks. */
    method CommitPair(ghost x: Proc, ghost before: Db, o: OwnerId, i: nat)
      requires At(x) && x.pc == TargetHeld && x.owner == o && x.i == i
      requires NoLocks(before) && HasItem(before, o, i) && !Conflicting(before, ItemOf(before, o, i).target)
      requires db == LockTarget(LockOwner(before, o, me), ItemOf(before, o, i).target, me)
      modifies this
      ensures old(trace) <= trace && db == Queue(before, o, i)
      ensures At(x.(pc := Finalize(Link(|before.entries|, |before.pubs|), true)))
    {
      hide DbInv, Solo, Recover, Advance, Enabled;
      ghost var token := FreshToken(db.issued);
      FencedSteps(db, me, x, token);
      Record(x, token);
      FencedSteps(db, me, x.(pc := Cleared), token);
      OwnLocksReleased(Queue(before, o, i), Queue(db, o, i), me);
      db := ReleaseLocks(Queue(db, o, i), me);
      Record(x.(pc := Cleared), token);
    }

    /** `_finalize_item`: fence the owner and record the pair on the item. */
    method FinalizeItem(ghost x: Proc, o: OwnerId, i: nat, claim: Token, link: Link) returns (ok: bool)
      requires At(x) && x.pc.Finalize? && x.pc.link == link
      requires x.owner == o && o.BatchId? && x.i == i && x.token == Some(claim)
      requires i < |x.view| && x.view[i] == ItemExecuting && NoLocks(db)
      modifies this
      ensures Valid() && old(trace) <= trace && HasItem(old(db), o, i)
      ensures ok <==> ClaimStands(old(db), o, claim)
      ensures ok ==>
        && At(x.(view := x.view[i := ItemExecuted], i := i + 1, pc := Loop))
        && db == WriteOwner(old(db), o, WriteItem(old(db).owners[o], i,
                              ItemOf(old(db), o, i).(link := Some(link), state := ItemExecuted)))
      ensures !ok ==> db == old(db) && Finished()
    {
      hide DbInv, Solo, ProcInv, Recover, Advance, Enabled;
      ghost var token := FreshToken(db.issued);
      ItsItem(db, me, x);
      FencedSteps(db, me, x, token);
      if !OwnerFence(db, o, Some(claim)) {
        NoLocksToRelease(db, me);
        Record(x, token);
        return false;
      }
      db := LockOwner(db, o, me);
      Record(x, token);
      FencedSteps(db, me, x.(pc := FinalHeld(link, x.pc.guarded)), token);
      var row := db.owners[o];
      var item := row.items[i].(link := Some(link), state := ItemExecuted);
      db := ReleaseLocks(WriteOwner(db, o, WriteItem(row, i, item)), me);
      Record(x.(pc := FinalHeld(link, x.pc.guarded)), token);
      if x.pc.guarded {
        FencedSteps(db, me, x.(view := x.view[i := ItemExecuted], pc := Recorded), token);
        Record(x.(view := x.view[i := ItemExecuted], pc := Recorded), token);
      }
      OwnLocksReleased(WriteOwner(old(db), o, WriteItem(row, i, item)),
                       WriteOwner(LockOwner(old(db), o, me), o, WriteItem(row, i, item)), me);
      ok := true;
    }

    /** The handler of `_CanonicalApprovalTargetStale`: the terminal failure is written under the fence. */
    method TargetStaleFailure(ghost x: Proc, o: OwnerId, i: nat)
      requires At(x) && x.pc == TargetHeld && x.owner == o && o.BatchId? && x.i == i
      requires HasItem(db, o, i) && Conflicting(db, ItemOf(db, o, i).target)
      modifies this
      ensures Finished() && old(trace) <= trace && SamePairs(old(db), db) && OnlyRowChanged(old(db), db, o)
      ensures db.owners == old(db).owners[o := TerminalRow(old(db).owners[o],
                            if i > 0 then PartialFailed else Stale, Some((i, ItemStale)))]
    {
      hide DbInv, Solo;
      ghost var token := FreshToken(db.issued);
      var row := TerminalRow(db.owners[o], if i > 0 then PartialFailed else Stale, Some((i, ItemStale)));
      db := ReleaseLocks(WriteOwner(db, o, row), me);
      Record(x, token);
    }

    /** The request ended without finishing the batch; no pair was created. */
    ghost predicate GaveUp(before: Db, o: OwnerId)
      reads this
    {
      && Finished() && SamePairs(before, db)
      && OnlyRowChanged(before, db, o)
      && (db.owners[o].state == Executed ==> before.owners[o].state == Executed)
    }

    /** Queue and finalise one item, with the exception handlers around them. */
    method QueueAndFinalize(ghost x: Proc, o: OwnerId, i: nat, claim: Token) returns (ok: bool)
      requires At(x) && x.pc == Fence && x.owner == o && o.BatchId? && x.i == i && x.token == Some(claim)
      requires i < |x.view| && x.view[i] == ItemExecuting && NoLocks(db)
      modifies this
      ensures Valid() && old(trace) <= trace && HasItem(old(db), o, i)
      ensures ok <==> OwnerFence(old(db), o, Some(claim)) && ItemOf(old(db), o, i).target in old(db).revisions
                      && !Conflicting(old(db), ItemOf(old(db), o, i).target)
      ensures ok ==>
        && At(x.(view := x.view[i := ItemExecuted], i := i + 1, pc := Loop))
        && db == WriteOwner(Queue(old(db), o, i), o, WriteItem(old(db).owners[o], i,
                   ItemOf(old(db), o, i).(link := Some(Link(|old(db).entries|, |old(db).pubs|)),
                                          state := ItemExecuted)))
      ensures !ok ==> GaveUp(old(db), o)
    {
      hide DbInv, Solo, ProcInv;
      var queued := QueueItem(x, o, i, claim);
      match queued
      case ClaimLost => ok := false;
      case TargetStale =>
        TargetStaleFailure(x.(pc := TargetHeld), o, i);
        ok := false;
      case Queued(link) =>
        ok := FinalizeItem(x.(pc := Finalize(link, true)), o, i, claim, link);
    }

    /** The decision on an item whose claim was still owned; `Err` carries how the batch fails. */
    method InspectItem(ghost x: Proc, o: OwnerId, i: nat, view: seq<ItemState>)
        returns (r: Result<Recovery, (OwnerState, ItemState)>)
      requires At(x) && x.pc == Inspect && x.owner == o && o.BatchId? && x.i == i && x.view == view && i < |view|
      modifies this
      ensures db == old(db) && old(trace) <= trace && HasItem(db, o, i)
      ensures r == Ok(Nothing) ==> At(x.(pc := Vet)) && (view[i] == ItemPending || Recover(db, o, i) == Nothing)
                                   && (view[i] == ItemPending || view[i] == ItemExecuting)
      ensures r.Ok? && r.value.Match? ==> r.value == Recover(db, o, i)
      ensures r.Ok? && r.value.Match? ==> view[i] == ItemExecuted || view[i] == ItemExecuting
      ensures r.Ok? && r.value.Match? && view[i] == ItemExecuted ==> At(x.(i := i + 1, pc := Loop))
      ensures r.Ok? && r.value.Match? && view[i] == ItemExecuting ==> At(x.(pc := Finalize(r.value.link, false)))
      ensures r != Ok(Conflict)
      ensures r.Err? ==> At(x.(pc := Terminal(r.error.0, Some((i, r.error.1))))) && Abandoned(r.error.0)
      ensures r.Err? ==> view[i] == ItemStale || view[i] == ItemFailed || Recover(db, o, i).Conflict?
                         || (view[i] == ItemExecuted && Recover(db, o, i).Nothing?)
      ensures r.Err? && (view[i] == ItemExecuted || view[i] == ItemExecuting) ==>
        r.error == (if i > 0 || view[i] == ItemExecuted then PartialFailed else Failed, ItemFailed)
    {
      hide DbInv, Solo, ProcInv, Recover;
      ghost var token := FreshToken(db.issued);
      ItsItem(db, me, x);
      var found := RecoverExisting(o, i);
      Record(x, token);
      match view[i]
      case ItemPending => r := Ok(Nothing);
      case ItemExecuted => r := if found.Match? then Ok(found) else Err((PartialFailed, ItemFailed));
      case ItemStale => r := Err((if i > 0 then PartialFailed else Stale, ItemStale));
      case ItemFailed => r := Err((if i > 0 then PartialFailed else Failed, ItemFailed));
      case ItemExecuting =>
        r := if found.Conflict? then Err((if i > 0 then PartialFailed else Failed, ItemFailed)) else Ok(found);
    }

    /** The stale check and, for a pending item, the write that marks it executing. */
    method VetItem(ghost x: Proc, o: OwnerId, i: nat, view: seq<ItemState>) returns (ok: bool)
      requires At(x) && x.pc == Vet && x.owner == o && o.BatchId? && x.i == i && x.view == view && i < |view|
      requires view[i] == ItemPending || view[i] == ItemExecuting
      requires NoLocks(db)
      modifies this
      ensures Valid() && old(trace) <= trace && HasItem(old(db), o, i) && HasItem(db, o, i)
      ensures ok <==> Schedulable(old(db), o, i)
      ensures ok ==> db == if view[i] == ItemPending
                           then WriteOwner(old(db), o, WriteItem(old(db).owners[o], i,
                                             ItemOf(old(db), o, i).(state := ItemExecuting)))
                           else old(db)
      ensures ok ==> At(x.(view := view[i := ItemExecuting], pc := Fence))
      ensures !ok ==> GaveUp(old(db), o)
      ensures !ok ==>
        db.owners[o] == TerminalRow(old(db).owners[o], if i > 0 then PartialFailed else Stale, Some((i, ItemStale)))
    {
      hide DbInv, Solo, ProcInv, Recover, TerminalRow;
      ghost var token := FreshToken(db.issued);
      ItsItem(db, me, x);
      if ItemIsStale(db, o, i) {
        Record(x, token);
        var state := if i > 0 then PartialFailed else Stale;
        TerminalFailure(x.(pc := Terminal(state, Some((i, ItemStale)))), o, state, Some((i, ItemStale)));
        return false;
      }
      Record(x, token);
      if view[i] == ItemPending {
        MarkExecuting(x.(pc := MarkItem), o, i, view);
      } else {
        assert view[i := ItemExecuting] == view;
      }
      ok := true;
    }

    method MarkExecuting(ghost x: Proc, o: OwnerId, i: nat, view: seq<ItemState>)
      requires At(x) && x.pc == MarkItem && x.owner == o && o.BatchId? && x.i == i && x.view == view && i < |view|
      modifies this
      ensures old(trace) <= trace && HasItem(old(db), o, i)
      ensures db ==
        WriteOwner(old(db), o, WriteItem(old(db).owners[o], i, ItemOf(old(db), o, i).(state := ItemExecuting)))
      ensures At(x.(view := view[i := ItemExecuting], pc := Fence))
    {
      hide DbInv, Solo, ProcInv, Recover;
      ghost var token := FreshToken(db.issued);
      ItsItem(db, me, x);
      var row := db.owners[o];
      db := WriteOwner(db, o, WriteItem(row, i, row.items[i].(state := ItemExecuting)));
      Record(x, token);
      Record(x.(pc := Refresh), token);
    }

    /** The body of the item loop. */
    method SettleItem(ghost x: Proc, o: OwnerId, i: nat, claim: Token, view: seq<ItemState>) returns (ok: bool)
      requires At(x) && x.pc == Inspect && x.owner == o && o.BatchId? && x.i == i && x.token == Some(claim)
      requires x.view == view && i < |view| && HasItem(db, o, i) && view[i] == ItemOf(db, o, i).state && NoLocks(db)
      modifies this
      ensures Valid() && old(trace) <= trace
      ensures ok ==> ItemCompletable(old(db), o, i) && db == ItemDone(old(db), o, i)
      ensures ok ==> At(x.(view := view[i := ItemExecuted], i := i + 1, pc := Loop))
      ensures (OwnerFence(old(db), o, Some(claim)) && view[i] != ItemStale && view[i] != ItemFailed
               && ItemCompletable(old(db), o, i))
              ==> ok
      ensures !ok ==> GaveUp(old(db), o)
      ensures !ok && OwnerFence(old(db), o, Some(claim)) && view[i] != ItemStale && view[i] != ItemFailed ==>
        (db.owners[o]
         == TerminalRow(old(db).owners[o], StopState(old(db), o, i), Some((i, StopItemState(old(db), o, i)))))
    {
      hide Recover, Solo, ProcInv, Conflicting, TerminalRow, StopState, StopItemState;
      PendingHasNothing(db, o, i);
      StopsAs(db, o, i);
      if view[i] == ItemExecuted {
        AlreadyDone(db, o, i);
        assert view[i := ItemExecuted] == view;
      }
      hide DbInv;
      var found := InspectItem(x, o, i, view);
      if found.Err? {
        TerminalFailure(x.(pc := Terminal(found.error.0, Some((i, found.error.1)))), o,
                        found.error.0, Some((i, found.error.1)));
        return false;
      }
      if found.value.Match? {
        if view[i] == ItemExecuted {
          return true;
        }
        assert view[i] == ItemExecuting;
        ok := FinalizeItem(x.(pc := Finalize(found.value.link, false)), o, i, claim, found.value.link);
      } else {
        ok := ScheduleItem(x.(pc := Vet), o, i, claim, view);
      }
    }

    /** Vet, mark, queue and finalise an item that has no pair yet. */
    method ScheduleItem(ghost x: Proc, o: OwnerId, i: nat, claim: Token, view: seq<ItemState>) returns (ok: bool)
      requires At(x) && x.pc == Vet && x.owner == o && o.BatchId? && x.i == i && x.token == Some(claim)
      requires x.view == view && i < |view| && (view[i] == ItemPending || view[i] == ItemExecuting)
      requires HasItem(db, o, i) && Recover(db, o, i).Nothing? && NoLocks(db)
      modifies this
      ensures Valid() && old(trace) <= trace
      ensures ok <==> Schedulable(old(db), o, i) && OwnerFence(old(db), o, Some(claim))
      ensures ok ==> db == ItemDone(old(db), o, i)
      ensures ok ==> At(x.(view := view[i := ItemExecuted], i := i + 1, pc := Loop))
      ensures !ok ==> GaveUp(old(db), o)
      ensures !Schedulable(old(db), o, i) ==>
        db.owners[o] == TerminalRow(old(db).owners[o], if i > 0 then PartialFailed else Stale, Some((i, ItemStale)))
    {
      hide DbInv, Recover, Solo, ProcInv;
      var vetted := VetItem(x, o, i, view);
      if !vetted {
        return false;
      }
      MarkedThenDone(old(db), db, o, i);
      ghost var marked := db;
      ok := QueueAndFinalize(x.(view := view[i := ItemExecuting], pc := Fence), o, i, claim);
      assert view[i := ItemExecuting][i := ItemExecuted] == view[i := ItemExecuted];
    }

    /******* The loop *******/

    /** Head of the loop: the source contract and `_claim_still_owned`. */
    method NextItem(ghost x: Proc, o: OwnerId, i: nat, claim: Token) returns (go: bool)
      requires At(x) && x.pc == Loop && x.owner == o && o.BatchId? && x.i == i && x.token == Some(claim)
      requires i < |x.view| && NoLocks(db)
      modifies this
      ensures Valid() && old(trace) <= trace
      ensures go <==> o in old(db).world.contractHolds && OwnerFence(old(db), o, Some(claim))
      ensures go ==> db == old(db) && At(x.(pc := Inspect))
      ensures !go ==> GaveUp(old(db), o)
    {
      hide DbInv, Solo;
      ghost var token := FreshToken(db.issued);
      assert o in db.owners;
      if o !in db.world.contractHolds {
        Record(x, token);
        var state := if i > 0 then PartialFailed else Stale;
        TerminalFailure(x.(pc := Terminal(state, None)), o, state, None);
        return false;
      }
      go := OwnerFence(db, o, Some(claim));
      NoLocksToRelease(db, me);
      Record(x, token);
    }

    /** After the last item: fence, then record the batch as executed. */
    method CloseBatch(ghost x: Proc, o: OwnerId, claim: Token) returns (ok: bool)
      requires At(x) && x.pc == Loop && x.owner == o && o.BatchId? && x.i == |x.view| && x.token == Some(claim)
      requires NoLocks(db)
      modifies this
      ensures Finished() && old(trace) <= trace
      ensures ok <==> OwnerFence(old(db), o, Some(claim))
      ensures ok ==> db == WriteOwner(old(db), o, Closed(old(db).owners[o], Executed))
      ensures !ok ==> db == old(db)
    {
      hide DbInv, Solo, ProcInv, Recover, Advance, Enabled;
      ghost var token := FreshToken(db.issued);
      FencedSteps(db, me, x, token);
      Record(x, token);
      FencedSteps(db, me, x.(pc := Close), token);
      NoLocksToRelease(db, me);
      if !OwnerFence(db, o, Some(claim)) {
        Record(x.(pc := Close), token);
        return false;
      }
      db := LockOwner(db, o, me);
      Record(x.(pc := Close), token);
      FencedSteps(db, me, x.(pc := CloseHeld), token);
      db := ReleaseLocks(WriteOwner(db, o, Unclaimed(db.owners[o], Executed)), me);
      Record(x.(pc := CloseHeld), token);
      var closed := Closed(old(db).owners[o], Executed);
      OwnLocksReleased(WriteOwner(old(db), o, closed), WriteOwner(LockOwner(old(db), o, me), o, closed), me);
      ok := true;
    }

    /** One pass of the loop, from its head to its head. */
    method PassItem(ghost x: Proc, o: OwnerId, i: nat, claim: Token, view: seq<ItemState>) returns (ok: bool)
      requires At(x) && x.pc == Loop && x.owner == o && o.BatchId? && x.i == i && x.token == Some(claim)
      requires x.view == view && i < |view| && HasItem(db, o, i) && view[i] == ItemOf(db, o, i).state && NoLocks(db)
      requires OwnerFence(db, o, Some(claim)) && o in db.world.contractHolds
      requires view[i] != ItemStale && view[i] != ItemFailed
      modifies this
      ensures Valid() && old(trace) <= trace
      ensures ok <==> ItemCompletable(old(db), o, i)
      ensures ok ==> db == ItemDone(old(db), o, i) && At(x.(view := view[i := ItemExecuted], i := i + 1))
      ensures !ok ==> GaveUp(old(db), o)
      ensures !ok ==>
        (db.owners[o]
         == TerminalRow(old(db).owners[o], StopState(old(db), o, i), Some((i, StopItemState(old(db), o, i)))))
    {
      hide DbInv, Solo, ProcInv, Recover, ItemDone, ItemCompletable, OwnerFence;
      ok := NextItem(x, o, i, claim);
      if ok {
        ok := SettleItem(x.(pc := Inspect), o, i, claim, view);
        assert x.(pc := Inspect).(view := view[i := ItemExecuted], i := i + 1, pc := Loop)
            == x.(view := view[i := ItemExecuted], i := i + 1);
      }
    }

    /** The same pass, seen from the tables `before` whose first `k` items are settled by now. */
    method PassOngoing(ghost before: Db, ghost x: Proc, o: OwnerId, k: nat, claim: Token, view: seq<ItemState>)
        returns (ok: bool)
      requires o in before.owners && k < |before.owners[o].items| && Ongoing(before, x, o, k, view)
      requires x.owner == o && o.BatchId? && x.pc == Loop && x.token == Some(claim)
      requires DbInv(before) && NoLocks(before) && OwnerFence(before, o, Some(claim)) && o in before.world.contractHolds
      modifies this
      ensures Valid() && old(trace) <= trace
      ensures ok ==> Ongoing(before, x, o, k + 1, view[k := ItemExecuted])
      ensures !ok ==> Stopped(before, o, k)
    {
      hide DbInv, Solo, ProcInv, Recover, ItemDone, ItemCompletable, Completed, Progress, SameIntents;
      PassFacts(before, o, k, claim);
      OpenRow(before, o);
      hide OwnerFence, StopState, StopItemState, StoppedRow, TerminalRow;
      ghost var here := x.(view := view, i := k);
      ok := PassItem(here, o, k, claim, view);
      if ok {
        assert here.(view := view[k := ItemExecuted], i := k + 1) == x.(view := view[k := ItemExecuted], i := k + 1);
      } else {
        StopHere(before, o, k, db.made, db.owners[o]);
      }
    }

    /** `_execute_claimed`: the items in ordinal order, then the batch. */
    method ExecuteClaimed(ghost x: Proc, o: OwnerId, claim: Token)
      requires At(x) && x.pc == Snapshot && x.owner == o && o.BatchId? && x.token == Some(claim) && NoLocks(db)
      requires OwnerFence(db, o, Some(claim))
      modifies this
      ensures Finished() && old(trace) <= trace && OnlyRowChanged(old(db), db, o)
      ensures db.owners[o].state == Executed <==> Completable(old(db), o)
      ensures SamePairs(Completed(old(db), o, Reachable(old(db), o)), db)
      ensures db.owners[o].state == Executed ==>
        Settled(db.made, o, Closed(old(db).owners[o], Executed), db.owners[o], |old(db).owners[o].items|)
      ensures !Completable(old(db), o) ==> UnfinishedRow(old(db), o, db.made, db.owners[o])
    {
      hide DbInv, Solo, ProcInv, Recover, ItemDone, ItemCompletable, Completed, Progress, Enabled;
      ghost var token := FreshToken(db.issued);
      var view := States(db.owners[o].items);
      if o !in db.world.contractHolds {
        RecordSnapshot(x, o, view, token);
        var state := if CountExecuted(view) > 0 then PartialFailed else Stale;
        CompletedNone(db, o);
        TerminalFailure(x.(view := view, i := 0, pc := Terminal(state, None)), o, state, None);
        BrokenByCount(old(db).owners[o], view, db.owners[o]);
        return;
      }
      RecordSnapshot(x, o, view, token);
      ExecuteItems(x.(view := view, i := 0, pc := Loop), o, claim, view);
    }

    ghost method RecordSnapshot(x: Proc, o: OwnerId, view: seq<ItemState>, token: Token)
      requires At(x) && x.pc == Snapshot && x.owner == o && o in db.owners && view == States(db.owners[o].items)
      requires token !in db.issued
      modifies this`trace
      ensures old(trace) <= trace
      ensures var broken := Terminal(if CountExecuted(view) > 0 then PartialFailed else Stale, None);
        At(x.(view := view, i := 0, pc := if o in db.world.contractHolds then Loop else broken))
    {
      hide DbInv, Solo;
      Record(x, token);
    }

    method ExecuteItems(ghost x: Proc, o: OwnerId, claim: Token, states: seq<ItemState>)
      requires At(x) && x.pc == Loop && x.i == 0 && x.owner == o && o.BatchId? && x.token == Some(claim) && NoLocks(db)
      requires OwnerFence(db, o, Some(claim)) && o in db.world.contractHolds
      requires x.view == states == States(db.owners[o].items)
      modifies this
      ensures Finished() && old(trace) <= trace && OnlyRowChanged(old(db), db, o)
      ensures db.owners[o].state == Executed <==> Completable(old(db), o)
      ensures SamePairs(Completed(old(db), o, Reachable(old(db), o)), db)
      ensures db.owners[o].state == Executed ==>
        Settled(db.made, o, Closed(old(db).owners[o], Executed), db.owners[o], |old(db).owners[o].items|)
      ensures !Completable(old(db), o) ==> UnfinishedRow(old(db), o, db.made, db.owners[o])
    {
      hide DbInv, Solo, ProcInv, Recover, ItemDone, ItemCompletable, Completed, Progress, Valid;
      hide StoppedRow, BrokenRow, UnfinishedRow, Settled;
      ghost var before := db;
      LoopStart(x, o, states);
      var n, view := |states|, states;
      var completedCount := 0;
      var ok := true;
      while ok && completedCount < n
        invariant completedCount <= n == |before.owners[o].items| && Valid() && old(trace) <= trace
        invariant ok ==> Ongoing(before, x, o, completedCount, view)
        invariant !ok ==> completedCount < n && Stopped(before, o, completedCount)
        decreases n - completedCount, ok
      {
        ok := PassOngoing(before, x, o, completedCount, claim, view);
        if ok {
          view := view[completedCount := ItemExecuted];
          completedCount := completedCount + 1;
        }
      }
      if ok {
        FinishItems(before, x, o, view, claim);
      } else {
        StoppedFacts(before, o, completedCount);
      }
    }

    lemma LoopStart(x: Proc, o: OwnerId, view: seq<ItemState>)
      requires At(x) && x.i == 0 && o in db.owners && x.view == view == States(db.owners[o].items)
      ensures Valid() && DbInv(db) && Ongoing(db, x, o, 0, view)
    {
      assert x.(view := view, i := 0) == x;
    }

    lemma StoppedFacts(before: Db, o: OwnerId, k: nat)
      requires o in before.owners && k <= |before.owners[o].items| && Stopped(before, o, k)
      requires o in before.world.contractHolds
      ensures Finished() && OnlyRowChanged(before, db, o) && db.owners[o].state != Executed
      ensures SamePairs(Completed(before, o, Reachable(before, o)), db) && !Completable(before, o)
      ensures UnfinishedRow(before, o, db.made, db.owners[o])
    {
      hide ItemCompletable, Completed, Valid, StoppedRow;
      ReachIs(before, o, k);
    }

    /** The first `k` items are settled and the process is at the head of the loop. */
    ghost predicate Ongoing(before: Db, x: Proc, o: OwnerId, k: nat, view: seq<ItemState>)
      requires o in before.owners && k <= |before.owners[o].items|
      reads this
    {
      && At(x.(view := view, i := k)) && db == Progress(before, o, k)
      && |view| == |before.owners[o].items|
      && (forall j: nat :: j < k ==> ItemCompletable(before, o, j) && DbInv(Progress(before, o, j)))
      && (forall j: nat :: k <= j < |view| ==> view[j] == before.owners[o].items[j].state)
    }

    /** Item `k` could not be completed, and the request ended there. */
    ghost predicate Stopped(before: Db, o: OwnerId, k: nat)
      requires o in before.owners && k <= |before.owners[o].items|
      reads this
    {
      && Finished() && SamePairs(Completed(before, o, k), db)
      && k < |before.owners[o].items| && !ItemCompletable(before, o, k)
      && (forall j: nat :: j < k ==> ItemCompletable(before, o, j))
      && OnlyRowChanged(before, db, o) && db.owners[o].state != Executed
      && StoppedRow(before, o, k, db.made, db.owners[o])
    }

    method FinishItems(ghost before: Db, ghost x: Proc, o: OwnerId, view: seq<ItemState>, claim: Token)
      requires o in before.owners && Ongoing(before, x, o, |before.owners[o].items|, view)
      requires x.owner == o && o.BatchId? && x.pc == Loop && x.token == Some(claim)
      requires DbInv(before) && NoLocks(before) && OwnerFence(before, o, Some(claim)) && o in before.world.contractHolds
      modifies this
      ensures Finished() && old(trace) <= trace && OnlyRowChanged(before, db, o)
      ensures db.owners[o].state == Executed && Completable(before, o)
      ensures SamePairs(Completed(before, o, Reachable(before, o)), db)
      ensures Settled(db.made, o, Closed(before.owners[o], Executed), db.owners[o], |before.owners[o].items|)
    {
      hide DbInv, Solo, ProcInv, Recover, ItemDone, ItemCompletable, Completed, Progress, Completable;
      hide OwnerFence, Settled;
      FinishFacts(before, o, claim);
      ghost var here := x.(view := view, i := |before.owners[o].items|);
      var closed := CloseBatch(here, o, claim);
    }

    /******* `approve` *******/

    /** Compare-and-set on the old token after the lease has expired. */
    method TakeOverClaim(ghost x: Proc, o: OwnerId, seen: Option<Token>, claim: Token) returns (won: bool)
      requires At(x) && x.pc == TakeOver(seen) && x.owner == o && x.now == now && NoLocks(db) && claim !in db.issued
      modifies this
      ensures Valid() && old(trace) <= trace && o in old(db).owners
      ensures won <==> old(db).owners[o].state == Executing && old(db).owners[o].token == seen
      ensures won ==> At(x.(token := Some(claim), pc := Snapshot)) && db == GiveClaim(old(db), o, me, claim, now)
      ensures won ==>
        db.owners[o] == old(db).owners[o].(state := Executing, token := Some(claim), claimedAt := Some(now))
      ensures !won ==> db == old(db) && Finished()
    {
      hide DbInv, Solo;
      NoLocksToRelease(db, me);
      won := db.owners[o].state == Executing && db.owners[o].token == seen;
      if won {
        db := GiveClaim(db, o, me, claim, now);
      }
      Record(x, claim);
    }

    /** Compare-and-set from pending_review to executing. */
    method PromotePending(ghost x: Proc, o: OwnerId, claim: Token) returns (won: bool)
      requires At(x) && x.pc == Promote && x.owner == o && x.now == now && x.i == 0
      requires NoLocks(db) && claim !in db.issued
      modifies this
      ensures Valid() && old(trace) <= trace && o in old(db).owners
      ensures won <==> old(db).owners[o].state == PendingReview
      ensures won ==> At(x.(token := Some(claim), pc := PostClaim)) && db == GiveClaim(old(db), o, me, claim, now)
      ensures won ==>
        db.owners[o] == old(db).owners[o].(state := Executing, token := Some(claim), claimedAt := Some(now))
      ensures !won ==> db == old(db) && At(x.(pc := Begin))
    {
      hide DbInv, Solo;
      won := db.owners[o].state == PendingReview;
      if won {
        db := GiveClaim(db, o, me, claim, now);
      }
      Record(x, claim);
    }

    /** The second preflight, after the claim commit, and the execution it admits. */
    method RevalidateAndExecute(ghost x: Proc, o: OwnerId, claim: Token)
      requires At(x) && x.pc == PostClaim && x.owner == o && o.BatchId? && x.token == Some(claim) && NoLocks(db)
      requires OwnerFence(db, o, Some(claim))
      modifies this
      ensures Finished() && old(trace) <= trace && OnlyRowChanged(old(db), db, o)
      ensures PreflightFor(old(db), o).Pass? ==>
        && (db.owners[o].state == Executed <==> Completable(old(db), o))
        && SamePairs(Completed(old(db), o, Reachable(old(db), o)), db)
        && (db.owners[o].state == Executed ==>
              Settled(db.made, o, Closed(old(db).owners[o], Executed), db.owners[o], |old(db).owners[o].items|))
      ensures !PreflightFor(old(db), o).Pass? ==> SamePairs(old(db), db) && db.owners[o].state == Stale
    {
      hide DbInv, Solo, FullPreflight, Completable, Completed, Settled, Enabled;
      var preflight := PreflightFor(db, o);
      RecordPreflight(x, o);
      if preflight.Pass? {
        ExecuteClaimed(x.(pc := Snapshot), o, claim);
      } else {
        var (all, one) := StaleArgs(preflight);
        MarkBatchStale(x.(pc := MarkStale(all, one)), o, all, one);
      }
    }

    ghost method RecordPreflight(x: Proc, o: OwnerId)
      requires At(x) && x.pc == PostClaim && x.owner == o && o.BatchId?
      modifies this`trace
      ensures old(trace) <= trace && o in db.owners
      ensures var r := PreflightFor(db, o);
        At(x.(pc := if r.Pass? then Snapshot else MarkStale(StaleArgs(r).0, StaleArgs(r).1)))
    {
      hide DbInv, Solo, FullPreflight;
      var token := FreshToken(db.issued);
      Record(x, token);
    }

    /** `_mark_stale` after the claim. */
    method MarkBatchStale(ghost x: Proc, o: OwnerId, all: bool, one: Option<nat>)
      requires At(x) && x.pc == MarkStale(all, one) && x.owner == o && NoLocks(db)
      modifies this
      ensures Finished() && old(trace) <= trace && o in old(db).owners
      ensures db == WriteOwner(old(db), o, StaleRow(old(db).owners[o], all, one))
    {
      hide DbInv, Solo;
      ghost var token := FreshToken(db.issued);
      var row := StaleRow(db.owners[o], all, one);
      db := ReleaseLocks(WriteOwner(db, o, row), me);
      NoLocksToRelease(WriteOwner(old(db), o, row), me);
      Record(x, token);
    }

    /** `SELECT ... FOR UPDATE` and the decision by state; the lock is given up in every branch here. */
    method LoadBatch(ghost x: Proc, o: OwnerId) returns (next: Option<OwnerState>)
      requires At(x) && x.pc == Begin && x.owner == o && o.BatchId? && x.now == now && NoLocks(db)
      modifies this
      ensures Valid() && old(trace) <= trace
      ensures next.Some? <==> Actionable(old(db), o, now) && (old(db).owners[o].state == PendingReview ==>
                                                                PreflightFor(old(db), o).Pass?)
      ensures next.Some? ==> db == old(db) && next.value == db.owners[o].state
      ensures next.Some? ==>
        At(x.(pc := if next.value == Executing then TakeOver(db.owners[o].token) else Promote))
      ensures next.None? ==> Finished()
      ensures !Actionable(old(db), o, now) ==> db == old(db)
      ensures Actionable(old(db), o, now) && next.None? ==>
        && SamePairs(old(db), db) && OnlyRowChanged(old(db), db, o)
        && !Completable(old(db), o) && RefusedRow(old(db), o, db.owners[o])
    {
      hide DbInv, Solo, FullPreflight;
      ghost var token := FreshToken(db.issued);
      NoLocksToRelease(db, me);
      if o !in db.owners {
        Record(x, token);
        return None;
      }
      db := LockOwner(db, o, me);
      Record(x, token);
      OwnLocksReleased(old(db), db, me);
      next := DecideLoaded(x.(pc := Loaded), old(db), o);
    }

    method DecideLoaded(ghost x: Proc, ghost before: Db, o: OwnerId) returns (next: Option<OwnerState>)
      requires At(x) && x.pc == Loaded && x.owner == o && o.BatchId? && x.now == now
      requires NoLocks(before) && o in before.owners && db == LockOwner(before, o, me) && ReleaseLocks(db, me) == before
      requires DbInv(before)
      modifies this
      ensures Valid() && old(trace) <= trace
      ensures next.Some? <==> Actionable(before, o, now) && (before.owners[o].state == PendingReview ==>
                                                               PreflightFor(before, o).Pass?)
      ensures next.Some? ==> db == before && next.value == db.owners[o].state
      ensures next.Some? ==>
        At(x.(pc := if next.value == Executing then TakeOver(db.owners[o].token) else Promote))
      ensures next.None? ==> Finished()
      ensures !Actionable(before, o, now) ==> db == before
      ensures Actionable(before, o, now) && next.None? ==>
        && SamePairs(before, db) && OnlyRowChanged(before, db, o)
        && !Completable(before, o) && RefusedRow(before, o, db.owners[o])
    {
      hide DbInv, Solo, FullPreflight;
      ghost var token := FreshToken(db.issued);
      PreflightReads(before, db, o, 0);
      var row := db.owners[o];
      if row.state == PendingReview && !PreflightFor(db, o).Pass? {
        RefusedByPreflight(before, o);
        var (all, one) := StaleArgs(PreflightFor(db, o));
        db := ReleaseLocks(WriteOwner(db, o, StaleRow(row, all, one)), me);
        Record(x, token);
        return None;
      }
      db := ReleaseLocks(db, me);
      Record(x, token);
      next := if row.state == PendingReview || (row.state == Executing && !ClaimIsFresh(row, now)) then Some(row.state)
              else None;
    }

    /** `approve` for one batch by one uncontended request. */
    method Approve(ghost x: Proc, o: OwnerId, claim: Token)
      requires x == Proc(o, now, None, Begin, 0, []) && At(x) && o.BatchId? && NoLocks(db) && claim !in db.issued
      modifies this
      ensures Finished() && old(trace) <= trace
      ensures !Actionable(old(db), o, now) ==> db == old(db)
      ensures Actionable(old(db), o, now) ==>
        && OnlyRowChanged(old(db), db, o)
        && (db.owners[o].state == Executed <==> Completable(old(db), o))
      ensures Actionable(old(db), o, now) && db.owners[o].state == Executed ==>
        && SamePairs(Completed(old(db), o, |old(db).owners[o].items|), db)
        && ItemsSettled(db.made, o, old(db).owners[o], db.owners[o])
      ensures Actionable(old(db), o, now) && old(db).owners[o].state == Executing ==>
        SamePairs(Completed(old(db), o, Reachable(old(db), o)), db)
      ensures Actionable(old(db), o, now)
              && old(db).owners[o].state == PendingReview && db.owners[o].state != Executed ==>
        SamePairs(old(db), db) && !Completable(old(db), o) && RefusedRow(old(db), o, db.owners[o])
      ensures Actionable(old(db), o, now) && old(db).owners[o].state == Executing && !Completable(old(db), o) ==>
        UnfinishedRow(old(db), o, db.made, db.owners[o])
      ensures o in old(db).owners && old(db).owners[o].state == Executing ==>
        var row := old(db).owners[o];
        && (row.token.Some? && row.claimedAt.Some? && now < row.claimedAt.value + 30_000_000 ==> db == old(db))
        && (row.token.None? || row.claimedAt.None? || row.claimedAt.value + 30_000_000 <= now ==>
              db.owners[o].state != Executing)
    {
      hide DbInv, Solo, Completed, Completable, FullPreflight, Enabled, PreflightFor, ItemsSettled, Reachable;
      hide UnfinishedRow;
      ghost var before := db;
      var state := LoadBatch(x, o);
      if state == None {
        if Actionable(before, o, now) {
          PendingCompletable(before, o);
        }
      } else if state.value == Executing {
        ApproveExecuting(x.(pc := TakeOver(db.owners[o].token)), o, claim);
        if !Completable(before, o) {
          UnfinishedEnds(before, o, db.made, db.owners[o]);
        }
      } else {
        PendingCompletable(before, o);
        ApprovePending(x.(pc := Promote), o, claim);
      }
    }

    method ApproveExecuting(ghost x: Proc, o: OwnerId, claim: Token)
      requires x.owner == o && o.BatchId? && x.now == now && o in db.owners && x.pc == TakeOver(db.owners[o].token)
      requires At(x) && NoLocks(db) && claim !in db.issued && db.owners[o].state == Executing
      modifies this
      ensures Finished() && old(trace) <= trace
      ensures OnlyRowChanged(old(db), db, o)
      ensures db.owners[o].state == Executed <==> Completable(old(db), o)
      ensures SamePairs(Completed(old(db), o, Reachable(old(db), o)), db)
      ensures db.owners[o].state == Executed ==> ItemsSettled(db.made, o, old(db).owners[o], db.owners[o])
      ensures !Completable(old(db), o) ==> UnfinishedRow(old(db), o, db.made, db.owners[o])
    {
      hide DbInv, Solo, Completed, Completable, Settled, Enabled, ItemsSettled, Reachable, UnfinishedRow;
      ghost var before := db;
      var won := TakeOverClaim(x, o, db.owners[o].token, claim);
      assert won;
      ghost var claimed := db;
      ClaimKeepsSpec(before, claimed, o, me, claim, now);
      ExecuteClaimed(x.(token := Some(claim), pc := Snapshot), o, claim);
      SettledFromClaim(before, claimed, db, o);
      if !Completable(before, o) {
        ClaimKeepsUnfinished(before, claimed, o, me, claim, now, db.made, db.owners[o]);
      }
    }

    method ApprovePending(ghost x: Proc, o: OwnerId, claim: Token)
      requires x.owner == o && o.BatchId? && x.now == now && x.i == 0 && x.pc == Promote && o in db.owners
      requires At(x) && NoLocks(db) && claim !in db.issued && db.owners[o].state == PendingReview
      requires PreflightFor(db, o).Pass?
      modifies this
      ensures Finished() && old(trace) <= trace
      ensures OnlyRowChanged(old(db), db, o)
      ensures db.owners[o].state == Executed <==> Completable(old(db), o)
      ensures SamePairs(Completed(old(db), o, Reachable(old(db), o)), db)
      ensures db.owners[o].state == Executed ==> ItemsSettled(db.made, o, old(db).owners[o], db.owners[o])
    {
      hide DbInv, Solo, Completed, Completable, Settled, Enabled, ItemsSettled, Reachable, PreflightFor;
      ghost var before := db;
      var won := PromotePending(x, o, claim);
      assert won;
      ghost var claimed := db;
      ClaimKeepsSpec(before, claimed, o, me, claim, now);
      RevalidateAndExecute(x.(token := Some(claim), pc := PostClaim), o, claim);
      SettledFromClaim(before, claimed, db, o);
    }

    /******* Single approvals *******/

    /** `_finalize_executed`: fence the owner, then record the pair and the executed state. */
    method FinalizeExecuted(ghost x: Proc, o: OwnerId, claim: Option<Token>, link: Link) returns (ok: bool)
      requires At(x) && x.pc.Finalize? && x.pc.link == link
      requires x.owner == o && o.SingleId? && x.token == claim && NoLocks(db)
      modifies this
      ensures Finished() && old(trace) <= trace && HasItem(old(db), o, 0)
      ensures ok <==> claim.Some? && ClaimStands(old(db), o, claim.value)
      ensures db == if ok then SingleExecuted(old(db), o, link) else old(db)
    {
      hide DbInv, Solo, ProcInv, Recover, Advance, Enabled;
      ghost var token := FreshToken(db.issued);
      ItsItem(db, me, x);
      FencedSteps(db, me, x, token);
      if !OwnerFence(db, o, claim) {
        NoLocksToRelease(db, me);
        Record(x, token);
        return false;
      }
      db := LockOwner(db, o, me);
      Record(x, token);
      FencedSteps(db, me, x.(pc := FinalHeld(link, x.pc.guarded)), token);
      ghost var done := SingleExecuted(old(db), o, link);
      var row := db.owners[o];
      var item := row.items[0].(link := Some(link));
      db := ReleaseLocks(WriteOwner(db, o, WriteItem(Unclaimed(row, Executed), 0, item)), me);
      Record(x.(pc := FinalHeld(link, x.pc.guarded)), token);
      OwnLocksReleased(done, WriteOwner(LockOwner(old(db), o, me), o, done.owners[o]), me);
      ok := true;
    }

    /** `_mark_stale` under the fence, when the recheck finds another schedule. */
    method MarkSingleStale(ghost x: Proc, ghost before: Db, o: OwnerId)
      requires At(x) && x.pc == TargetHeld && x.owner == o && o.SingleId? && x.i == 0
      requires NoLocks(before) && HasItem(before, o, 0) && Conflicting(before, ItemOf(before, o, 0).target)
      requires db == LockTarget(LockOwner(before, o, me), ItemOf(before, o, 0).target, me)
      modifies this
      ensures Finished() && old(trace) <= trace
      ensures db == WriteOwner(before, o, Closed(before.owners[o], Stale))
    {
      hide DbInv, Solo;
      ghost var token := FreshToken(db.issued);
      var row := Unclaimed(db.owners[o], Stale);
      OwnLocksReleased(WriteOwner(before, o, row), WriteOwner(db, o, row), me);
      db := ReleaseLocks(WriteOwner(db, o, row), me);
      Record(x, token);
    }

    /** `_execute_claimed` of a single approval. */
    method ExecuteClaimedSingle(ghost x: Proc, o: OwnerId, claim: Token)
      requires At(x) && x.pc == Fence && x.owner == o && o.SingleId? && x.i == 0 && x.token == Some(claim)
      requires NoLocks(db)
      requires OwnerFence(db, o, Some(claim))
      modifies this
      ensures Finished() && old(trace) <= trace && HasItem(old(db), o, 0)
      ensures Schedulable(old(db), o, 0) ==>
        db == SingleExecuted(Queue(old(db), o, 0), o, Link(|old(db).entries|, |old(db).pubs|))
      ensures var target := ItemOf(old(db), o, 0).target;
        db == if target !in old(db).revisions then old(db)
              else if Conflicting(old(db), target) then WriteOwner(old(db), o, Closed(old(db).owners[o], Stale))
              else SingleExecuted(Queue(old(db), o, 0), o, Link(|old(db).entries|, |old(db).pubs|))
    {
      hide DbInv, Solo, ProcInv;
      var queued := QueueItem(x, o, 0, claim);
      match queued
      case ClaimLost =>
      case TargetStale => MarkSingleStale(x.(pc := TargetHeld), old(db), o);
      case Queued(link) =>
        var ok := FinalizeExecuted(x.(pc := Finalize(link, true)), o, Some(claim), link);
    }

    /** The claim write under the row lock once the lease of a crashed attempt is over. */
    method ReclaimSingle(ghost x: Proc, ghost before: Db, o: OwnerId, claim: Token) returns (ok: bool)
      requires At(x) && x.pc == Expired && x.owner == o && o.SingleId? && x.i == 0 && x.now == now
      requires claim !in db.issued
      requires NoLocks(before) && HasItem(before, o, 0) && db == LockOwner(before, o, me)
      modifies this
      ensures Valid() && old(trace) <= trace
      ensures ok == Schedulable(before, o, 0)
      ensures ok ==> At(x.(token := Some(claim), pc := Fence)) && db == GiveClaim(before, o, me, claim, now)
      ensures ok ==>
        db.owners[o] == before.owners[o].(state := Executing, token := Some(claim), claimedAt := Some(now))
      ensures !ok ==> Finished() && db == WriteOwner(before, o, Closed(before.owners[o], Stale))
    {
      hide DbInv, Solo;
      ok := !ItemIsStale(db, o, 0);
      if ok {
        OwnLocksReleased(GiveClaim(before, o, me, claim, now), GiveClaim(db, o, me, claim, now), me);
        db := ReleaseLocks(GiveClaim(db, o, me, claim, now), me);
      } else {
        var row := Unclaimed(db.owners[o], Stale);
        OwnLocksReleased(WriteOwner(before, o, row), WriteOwner(db, o, row), me);
        db := ReleaseLocks(WriteOwner(db, o, row), me);
      }
      Record(x, claim);
    }

    /** What `approve` does with the locked row. */
    method DecideSingle(ghost x: Proc, ghost before: Db, o: OwnerId) returns (next: SingleNext)
      requires At(x) && x.pc == Loaded && x.owner == o && o.SingleId? && x.i == 0 && x.now == now
      requires NoLocks(before) && HasItem(before, o, 0) && db == LockOwner(before, o, me)
      modifies this
      ensures Valid() && old(trace) <= trace
      ensures next == NextFor(before, o, now)
      ensures next.Reclaim? ==> db == LockOwner(before, o, me) && At(x.(pc := Expired))
      ensures next.FinalizePair? ==>
        db == before && At(x.(token := before.owners[o].token, pc := Finalize(next.link, false)))
      ensures next.PromoteRow? ==> db == before && At(x.(pc := Promote))
      ensures next.Over? ==> Finished() && db == ClosedAs(before, o, next.state)
    {
      hide DbInv, Solo, Recover;
      ghost var token := FreshToken(db.issued);
      SameAnswers(before, db, o);
      OwnLocksReleased(before, db, me);
      var row := db.owners[o];
      next := Over(None);
      if row.state == Executing {
        var found := RecoverExisting(o, 0);
        match found
        case Match(link) => next := FinalizePair(link);
        case Conflict => next := Over(Some(Failed));
        case Nothing => next := if ClaimIsFresh(row, now) then Over(None) else Reclaim;
      } else if row.state == PendingReview {
        next := if ItemIsStale(db, o, 0) then Over(Some(Stale)) else PromoteRow;
      }
      if next.Reclaim? {
        Record(x, token);
        return;
      }
      if next.Over? && next.state.Some? {
        var closed := Unclaimed(row, next.state.value);
        OwnLocksReleased(WriteOwner(before, o, closed), WriteOwner(db, o, closed), me);
        db := ReleaseLocks(WriteOwner(db, o, closed), me);
      } else {
        db := ReleaseLocks(db, me);
      }
      Record(x, token);
    }

    /** The compare-and-set from pending_review, the second check, and the execution. */
    method PromoteSingle(ghost x: Proc, o: OwnerId, claim: Token)
      requires At(x) && x.pc == Promote && x.owner == o && o.SingleId? && x.i == 0 && x.now == now
      requires HasItem(db, o, 0) && NoLocks(db) && claim !in db.issued
      requires db.owners[o].state == PendingReview && Schedulable(db, o, 0)
      modifies this
      ensures Finished() && old(trace) <= trace && NewPair(old(db), db, o)
    {
      hide DbInv, Solo, ProcInv;
      ghost var before := db;
      var won := PromotePending(x, o, claim);
      assert won;
      ghost var token := FreshToken(db.issued);
      Record(x.(token := Some(claim), pc := PostClaim), token);
      ExecuteClaimedSingle(x.(token := Some(claim), pc := Fence), o, claim);
    }

    /** `approve` for one single approval by one uncontended request. */
    method ApproveSingle(ghost x: Proc, o: OwnerId, claim: Token)
      requires x == Proc(o, now, None, Begin, 0, []) && At(x) && o.SingleId? && NoLocks(db) && claim !in db.issued
      modifies this
      ensures Finished() && old(trace) <= trace && SingleOutcome(old(db), db, o, now)
      ensures HasItem(old(db), o, 0) && old(db).owners[o].state == Executing && Recover(old(db), o, 0).Nothing? ==>
        var row := old(db).owners[o];
        && (row.token.Some? && row.claimedAt.Some? && now < row.claimedAt.value + 30_000_000 ==> db == old(db))
        && (row.token.None? || row.claimedAt.None? || row.claimedAt.value + 30_000_000 <= now ==>
              o in db.owners && db.owners[o].state != Executing)
    {
      hide DbInv, Solo, ProcInv, SingleOutcome, Enabled, Advance, Recover;
      ghost var before := db;
      if o !in db.owners {
        NoSuchSingle(x, o);
        NoOutcomeWithoutRow(db, o, now);
        return;
      }
      LockSingle(x, o);
      FollowDecision(x.(pc := Loaded), before, o, claim);
      if before.owners[o].state == Executing {
        WaitsOrActs(before, db, o, now);
      }
    }

    /** The rest of `approve`, under the row lock. */
    method FollowDecision(ghost x: Proc, ghost before: Db, o: OwnerId, claim: Token)
      requires At(x) && x.pc == Loaded && x.owner == o && o.SingleId? && x.i == 0 && x.now == now
      requires NoLocks(before) && HasItem(before, o, 0) && db == LockOwner(before, o, me) && claim !in before.issued
      modifies this
      ensures Finished() && old(trace) <= trace && SingleOutcome(before, db, o, now)
    {
      hide DbInv, Solo, ProcInv, Recover, ItemIsStale, Schedulable, NewPair, Enabled, Advance, InLease;
      var next := DecideSingle(x, before, o);
      match next
      case Over(_) =>
      case PromoteRow => PromoteSingle(x.(pc := Promote), o, claim);
      case FinalizePair(link) =>
        ghost var y := x.(token := db.owners[o].token, pc := Finalize(link, false));
        var ok := FinalizeExecuted(y, o, db.owners[o].token, link);
      case Reclaim =>
        RetrySingle(x.(pc := Expired), before, o, claim);
    }

    /** A new attempt after the lease of the crashed one. */
    method RetrySingle(ghost x: Proc, ghost before: Db, o: OwnerId, claim: Token)
      requires At(x) && x.pc == Expired && x.owner == o && o.SingleId? && x.i == 0 && x.now == now
      requires claim !in db.issued
      requires NoLocks(before) && HasItem(before, o, 0) && db == LockOwner(before, o, me)
      modifies this
      ensures Finished() && old(trace) <= trace
      ensures if !Schedulable(before, o, 0) then db == WriteOwner(before, o, Closed(before.owners[o], Stale))
              else NewPair(before, db, o)
    {
      hide DbInv, Solo, ProcInv, Schedulable;
      var ok := ReclaimSingle(x, before, o, claim);
      if ok {
        ClaimedAnswers(before, db, o, me, claim, now);
        ExecuteClaimedSingle(x.(token := Some(claim), pc := Fence), o, claim);
      }
    }

    method NoSuchSingle(ghost x: Proc, o: OwnerId)
      requires At(x) && x.pc == Begin && x.owner == o && NoLocks(db) && o !in db.owners
      modifies this
      ensures Finished() && old(trace) <= trace && db == old(db)
    {
      hide DbInv, Solo;
      ghost var token := FreshToken(db.issued);
      NoLocksToRelease(db, me);
      Record(x, token);
    }

    /** `SELECT ... FOR UPDATE`. */
    method LockSingle(ghost x: Proc, o: OwnerId)
      requires At(x) && x.pc == Begin && x.owner == o && o.SingleId? && NoLocks(db) && o in db.owners
      modifies this
      ensures old(trace) <= trace && db == LockOwner(old(db), o, me) && At(x.(pc := Loaded)) && HasItem(old(db), o, 0)
    {
      hide Solo;
      ghost var token := FreshToken(db.issued);
      assert HasItem(db, o, 0) by { SingleHasItem(db, o); }
      db := LockOwner(db, o, me);
      Record(x, token);
    }
  }

  datatype Rejection = NotFound | Row(state: OwnerState) | StateConflict

  /**
   `reject` of either kind, under the row lock. Only a row that nobody has claimed can be rejected, so
   a rejected request never has a pair; the write is the protocol's own `Reject`.
   */
  method RejectRequest(ghost s: System, db: Db, o: OwnerId) returns (after: Db, r: Rejection)
    requires Inv(s) && s.db == db && o !in db.ownerLocks
    ensures o in db.owners && db.owners[o].state == PendingReview ==>
      && r == Row(Rejected) && after == WriteOwner(db, o, Closed(db.owners[o], Rejected))
      && Next(s, Reject(o), s.(db := after)) && forall i: nat :: (o, i) !in after.made
    ensures !(o in db.owners && db.owners[o].state == PendingReview) ==> after == db
    ensures r.NotFound? <==> o !in db.owners
    ensures r.StateConflict? <==>
      && o in db.owners
      && db.owners[o].state in {Executing, Executed, PartialFailed} + (if o.BatchId? then {Stale, Failed} else {})
  {
    hide DbInv;
    after := db;
    if o !in db.owners {
      return after, NotFound;
    }
    var state := db.owners[o].state;
    if state == Rejected || (o.SingleId? && (state == Stale || state == Failed)) {
      return after, Row(state);
    }
    if state != PendingReview {
      return after, StateConflict;
    }
    after := WriteOwner(db, o, Unclaimed(db.owners[o], Rejected));
    PendingHasNoPair(db, o);
    return after, Row(Rejected);
  }

  lemma PendingHasNoPair(db: Db, o: OwnerId)
    requires DbInv(db) && o in db.owners && db.owners[o].state == PendingReview
    ensures forall i: nat :: (o, i) !in db.made
  {
    KnownRow(db, o);
  }

  /**
   Crash recovery. `states` is any run of the system that left the tables in `db` with every lock
   given up; the batch is executing and its lease is over. One more `approve` request continues the
   run; it ends with the batch executed exactly when the batch is completable, and in any case has
   created the missing pairs up to the first item that cannot be completed, and nothing else.
   */
  method RecoverAfterCrash(
      ghost states: seq<System>, ghost actions: seq<Action>, db: Db, p: ProcId, now: int, o: OwnerId, claim: Token)
      returns (after: Db, ghost states': seq<System>, ghost actions': seq<Action>)
    requires IsRun(states, actions) && states[|actions|].db == db && p !in states[|actions|].started
    requires NoLocks(db) && claim !in db.issued
    requires o.BatchId? && o in db.owners && db.owners[o].state == Executing
    requires var row := db.owners[o];
      row.token.None? || row.claimedAt.None? || row.claimedAt.value + 30_000_000 <= now
    ensures IsRun(states', actions') && states <= states' && actions <= actions' && states'[|actions'|].db == after
    ensures OnlyRowChanged(db, after, o)
    ensures after.owners[o].state == Executed <==> Completable(db, o)
    ensures SamePairs(Completed(db, o, Reachable(db, o)), after)
    ensures after.owners[o].state == Executed ==> ItemsSettled(after.made, o, db.owners[o], after.owners[o])
    ensures !Completable(db, o) ==> UnfinishedRow(db, o, after.made, after.owners[o])
  {
    hide Inv, Completed, Completable, Reachable, ItemsSettled, UnfinishedRow, Advance, Enabled, Initial;
    RunInv(states, actions, |actions|);
    assert DbInv(db) && states[|actions|].procs.Keys <= states[|actions|].started by { InvParts(states[|actions|]); }
    hide DbInv;
    ghost var s := states[|actions|];
    ghost var x := Proc(o, now, None, Begin, 0, []);
    ghost var started := s.(procs := s.procs[p := x], started := s.started + {p});
    assert Next(s, Start(p, o, now), started);
    assert IsRun(states + [started], actions + [Start(p, o, now)]);
    var service := new ApprovalService(db, p, now, o);
    service.Approve(x, o, claim);
    after := service.db;
    states', actions' := SoloExtendsRun(states + [started], actions + [Start(p, o, now)], p, service.trace);
  }

  /** The attempt left its intact pair behind a claim, or nothing that stands in the way of a new one. */
  ghost predicate SingleCompletable(db: Db, o: OwnerId)
    requires HasItem(db, o, 0)
  {
    match Recover(db, o, 0)
    case Match(_) => db.owners[o].token.Some?
    case Nothing => Schedulable(db, o, 0)
    case Conflict => false
  }

  lemma SingleExecutedIff(before: Db, after: Db, o: OwnerId, now: int)
    requires HasItem(before, o, 0) && before.owners[o].state == Executing && !InLease(before.owners[o], now)
    requires SingleOutcome(before, after, o, now)
    ensures o in after.owners && (after.owners[o].state == Executed <==> SingleCompletable(before, o))
    ensures |after.entries| ==
      |before.entries| + (if Recover(before, o, 0).Nothing? && Schedulable(before, o, 0) then 1 else 0)
  {
    hide Recover, Schedulable, SamePairs;
    SamePairsSizes(Queue(before, o, 0), after);
  }

  lemma SamePairsSizes(db: Db, r: Db)
    ensures SamePairs(db, r) ==> |r.entries| == |db.entries|
  {
  }

  /**
   Crash recovery of a single approval: one more `approve` after the lease continues the run, ends
   executed exactly when the approval is completable, creates a schedule entry only if none was
   created before, and an executed approval then has exactly one linked pair.
   */
  method RecoverSingleAfterCrash(
      ghost states: seq<System>, ghost actions: seq<Action>, db: Db, p: ProcId, now: int, o: OwnerId, claim: Token)
      returns (after: Db, ghost states': seq<System>, ghost actions': seq<Action>)
    requires IsRun(states, actions) && states[|actions|].db == db && p !in states[|actions|].started
    requires NoLocks(db) && claim !in db.issued
    requires o.SingleId? && HasItem(db, o, 0) && db.owners[o].state == Executing
    requires var row := db.owners[o];
      row.token.None? || row.claimedAt.None? || row.claimedAt.value + 30_000_000 <= now
    ensures IsRun(states', actions') && states <= states' && actions <= actions' && states'[|actions'|].db == after
    ensures HasItem(after, o, 0) && (after.owners[o].state == Executed <==> SingleCompletable(db, o))
    ensures |after.entries| == |db.entries| + (if Recover(db, o, 0).Nothing? && Schedulable(db, o, 0) then 1 else 0)
    ensures after.owners[o].state == Executed ==> HasOnePair(after, o, 0)
  {
    hide Inv, Advance, Enabled, Initial, SingleOutcome, SingleCompletable, Schedulable, Recover;
    RunInv(states, actions, |actions|);
    assert DbInv(db) && states[|actions|].procs.Keys <= states[|actions|].started by { InvParts(states[|actions|]); }
    hide DbInv;
    ghost var s := states[|actions|];
    ghost var x := Proc(o, now, None, Begin, 0, []);
    ghost var started := s.(procs := s.procs[p := x], started := s.started + {p});
    assert Next(s, Start(p, o, now), started);
    assert IsRun(states + [started], actions + [Start(p, o, now)]);
    var service := new ApprovalService(db, p, now, o);
    service.ApproveSingle(x, o, claim);
    after := service.db;
    states', actions' := SoloExtendsRun(states + [started], actions + [Start(p, o, now)], p, service.trace);
    SingleExecutedIff(db, after, o, now);
    RunInv(states', actions', |actions'|);
    assert DbInv(after) by { InvParts(states'[|actions'|]); }
    SingleHasItem(after, o);
    if after.owners[o].state == Executed {
      ExecutedMeansOnePairEach(states', actions', |actions'|, o, 0);
    }
  }

  lemma InvParts(s: System)
    requires Inv(s)
    ensures DbInv(s.db) && s.procs.Keys <= s.started
  {
  }
}
