/**
 The code lets an executed approval be overwritten as stale: the process that won the claim is slow
 between its claim commit and its second check, another one takes over after the lease and executes,
 and the second check then finds the pair just made in its way.
 */
module ExecutedRace {
  import opened ExecutedOwners
  import opened ScheduleProtocol
  import opened ScheduleStore
  import opened Wrappers

  /******* Extending a run *******/

  lemma StartReachable(s: System)
    requires Initial(s)
    ensures Reachable(s)
  {
    var none: seq<Action> := [];
    assert IsRun([s], none);
    assert [s][|none|] == s;
  }

  lemma Extend(s: System, a: Action, s': System)
    requires Reachable(s) && Next(s, a, s')
    ensures Reachable(s')
  {
    hide Next, Initial;
    var states, actions :| IsRun(states, actions) && states[|actions|] == s;
    var more, next := states + [s'], actions + [a];
    assert more[0] == states[0];
    assert IsRun(more, next);
    assert more[|next|] == s';
  }

  /******* The run *******/

  const APPROVAL: OwnerId := SingleId(0)
  const TARGET: Target := Target(0, 0)
  const ITEM: Item := Item(TARGET, Slot(0, "UTC"), "k", ItemPending, None)
  const ROW: Owner := Owner(0, PendingReview, None, None, [ITEM])
  const EMPTY: Db := Db(map[], [], [], {TARGET}, map[], map[], map[], map[], World({}, {(APPROVAL, 0)}))
  const CREATED: Db := WriteOwner(EMPTY, APPROVAL, ROW)
  const CLAIMED: Db := GiveClaim(CREATED, APPROVAL, 0, 0, 0)
  const TAKEN: Db := GiveClaim(CLAIMED, APPROVAL, 1, 1, LEASE)
  const QUEUED: Db := Queue(TAKEN, APPROVAL, 0)

  const DONE: Db :=
    WriteOwner(QUEUED, APPROVAL,
               WriteItem(Unclaimed(QUEUED.owners[APPROVAL], Executed), 0, ITEM.(link := Some(Link(0, 0)))))

  /** The first process, and the second one. */
  function First(token: Option<Token>, pc: Pc): Proc {
    Proc(APPROVAL, 0, token, pc, 0, [])
  }

  function Second(token: Option<Token>, pc: Pc): Proc {
    Proc(APPROVAL, LEASE, token, pc, 0, [])
  }

  function Held(db: Db, p: ProcId): Db {
    LockOwner(db, APPROVAL, p)
  }

  /** Both row locks. */
  function BothHeld(db: Db, p: ProcId): Db {
    LockTarget(Held(db, p), TARGET, p)
  }

  function OnlyFirst(db: Db, x: Proc): System {
    System(db, map[0 := x], {0})
  }

  /** The first process waits before its second check while the other one is at y. */
  function Both(db: Db, y: Proc): System {
    System(db, map[0 := First(Some(0), PostClaim), 1 := y], {0, 1})
  }

  /** The second process is done, the first goes on. */
  function Waiting(db: Db, pc: Pc): System {
    System(db, map[0 := First(Some(0), pc)], {0, 1})
  }

  lemma FirstSteps(db: Db, x: Proc, db': Db, y: Proc)
    requires Reachable(OnlyFirst(db, x)) && 0 !in db.issued && Enabled(db, 0, x)
    requires Advance(db, 0, x, 0) == Outcome(db', Some(y))
    ensures Reachable(OnlyFirst(db', y))
  {
    hide Reachable, Advance, Enabled;
    assert OnlyFirst(db, x).procs[0 := y] == OnlyFirst(db', y).procs;
    Extend(OnlyFirst(db, x), Move(0, 0), OnlyFirst(db', y));
  }

  lemma SecondSteps(db: Db, x: Proc, token: Token, db': Db, y: Proc)
    requires Reachable(Both(db, x)) && token !in db.issued && Enabled(db, 1, x)
    requires Advance(db, 1, x, token) == Outcome(db', Some(y))
    ensures Reachable(Both(db', y))
  {
    hide Reachable, Advance, Enabled;
    assert Both(db, x).procs[1 := y] == Both(db', y).procs;
    Extend(Both(db, x), Move(1, token), Both(db', y));
  }

  lemma Unlocked(db: Db, p: ProcId)
    requires db.ownerLocks == map[] && db.targetLocks == map[]
    ensures ReleaseLocks(db, p) == db && ReleaseLocks(Held(db, p), p) == db && ReleaseLocks(BothHeld(db, p), p) == db
  {
  }

  lemma FirstClaims()
    ensures Reachable(OnlyFirst(CLAIMED, First(Some(0), PostClaim)))
  {
    hide Reachable;
    var s := System(EMPTY, map[], {});
    StartReachable(s);
    var created := s.(db := CREATED);
    Extend(s, Create(APPROVAL, ROW), created);
    var begun := OnlyFirst(CREATED, First(None, Begin));
    assert created.procs[0 := First(None, Begin)] == begun.procs;
    Extend(created, Start(0, APPROVAL, 0), begun);
    FirstSteps(CREATED, First(None, Begin), Held(CREATED, 0), First(None, Loaded));
    Unlocked(CREATED, 0);
    FirstSteps(Held(CREATED, 0), First(None, Loaded), CREATED, First(None, Promote));
    FirstSteps(CREATED, First(None, Promote), CLAIMED, First(Some(0), PostClaim));
  }

  /** After the lease. */
  lemma SecondTakesOver()
    ensures Reachable(Both(TAKEN, Second(Some(1), Fence)))
  {
    hide Reachable;
    FirstClaims();
    var waits := OnlyFirst(CLAIMED, First(Some(0), PostClaim));
    assert waits.procs[1 := Second(None, Begin)] == Both(CLAIMED, Second(None, Begin)).procs;
    Extend(waits, Start(1, APPROVAL, LEASE), Both(CLAIMED, Second(None, Begin)));
    SecondSteps(CLAIMED, Second(None, Begin), 1, Held(CLAIMED, 1), Second(None, Loaded));
    assert Recover(Held(CLAIMED, 1), APPROVAL, 0).Nothing?;
    SecondSteps(Held(CLAIMED, 1), Second(None, Loaded), 1, Held(CLAIMED, 1), Second(None, Expired));
    Unlocked(TAKEN, 1);
    SecondSteps(Held(CLAIMED, 1), Second(None, Expired), 1, TAKEN, Second(Some(1), Fence));
  }

  lemma SecondQueues()
    ensures Reachable(Both(QUEUED, Second(Some(1), Finalize(Link(0, 0), true))))
  {
    hide Reachable;
    SecondTakesOver();
    SecondSteps(TAKEN, Second(Some(1), Fence), 2, Held(TAKEN, 1), Second(Some(1), OwnerHeld));
    SecondSteps(Held(TAKEN, 1), Second(Some(1), OwnerHeld), 2, BothHeld(TAKEN, 1), Second(Some(1), TargetHeld));
    SecondSteps(BothHeld(TAKEN, 1), Second(Some(1), TargetHeld), 2, BothHeld(TAKEN, 1), Second(Some(1), Cleared));
    Unlocked(QUEUED, 1);
    SecondSteps(BothHeld(TAKEN, 1), Second(Some(1), Cleared), 2,
                QUEUED, Second(Some(1), Finalize(Link(0, 0), true)));
  }

  lemma SecondRecords()
    ensures Reachable(Both(Held(QUEUED, 1), Second(Some(1), FinalHeld(Link(0, 0), true))))
  {
    hide Reachable;
    SecondQueues();
    SecondSteps(QUEUED, Second(Some(1), Finalize(Link(0, 0), true)), 2,
                Held(QUEUED, 1), Second(Some(1), FinalHeld(Link(0, 0), true)));
  }

  lemma SecondExecutes()
    ensures Reachable(Waiting(DONE, PostClaim))
  {
    hide Reachable;
    SecondRecords();
    var held := Both(Held(QUEUED, 1), Second(Some(1), FinalHeld(Link(0, 0), true)));
    Unlocked(DONE, 1);
    assert held.procs - {1} == Waiting(DONE, PostClaim).procs;
    assert Advance(held.db, 1, held.procs[1], 2) == Outcome(DONE, None);
    Extend(held, Move(1, 2), Waiting(DONE, PostClaim));
  }

  /** An executed approval with a live pair, which two steps of process p turn into a stale one. */
  ghost predicate Overwrites(s: System, s1: System, s2: System, p: ProcId, o: OwnerId) {
    && IsExecuted(s, o) && o in s2.db.owners && s2.db.owners[o].state == Stale
    && (o, 0) in s2.db.made && s2.db.made[(o, 0)].schedule < |s2.db.entries|
    && !s2.db.entries[s2.db.made[(o, 0)].schedule].cancelled
    && Next(s, Move(p, 2), s1) && Next(s1, Move(p, 2), s2)
  }

  /** From a reachable state; the scheduled pair stays, and the approval says that it is stale. */
  lemma ExecutedCanGoStale()
    ensures exists s, s1, s2, p, o :: Reachable(s) && Overwrites(s, s1, s2, p, o)
  {
    hide Reachable;
    SecondExecutes();
    var s := Waiting(DONE, PostClaim);
    assert DONE.entries[0].target == TARGET;
    assert PreflightFor(DONE, APPROVAL) == OneStale(0, false);
    var s1 := Waiting(DONE, MarkStale(false, None));
    assert Advance(s.db, 0, s.procs[0], 2) == Outcome(DONE, Some(s1.procs[0]));
    Unlocked(DONE, 0);
    var stale := WriteOwner(DONE, APPROVAL, Unclaimed(DONE.owners[APPROVAL], Stale));
    Unlocked(stale, 0);
    var s2 := System(stale, map[], {0, 1});
    assert s1.procs - {0} == s2.procs;
    assert Overwrites(s, s1, s2, 0, APPROVAL);
  }
}
