/**
 When an executed approval or batch stays executed. `_terminal_failure` and `_mark_stale` are written
 without the token fence, so a process that is still on its way to one of them can overwrite
 `executed`; the theorem says exactly which processes those are.
 */
module ExecutedOwners {
  import opened ScheduleInvariant
  import opened ScheduleProtocol
  import opened ScheduleSafety
  import opened ScheduleSteps
  import opened ScheduleStore
  import opened SeriesCompletion
  import opened Wrappers

  ghost predicate Reachable(s: System) {
    exists states, actions :: IsRun(states, actions) && states[|actions|] == s
  }

  /** Actions that go on from a state. */
  ghost predicate Continues(s: System, states: seq<System>, actions: seq<Action>) {
    && |states| == |actions| + 1 && states[0] == s
    && forall k :: 0 <= k < |actions| ==> Next(states[k], actions[k], states[k + 1])
  }

  predicate IsExecuted(s: System, o: OwnerId) {
    o in s.db.owners && s.db.owners[o].state == Executed
  }

  /** Along every further sequence of actions. */
  ghost predicate StaysExecuted(s: System, o: OwnerId) {
    forall states, actions, k: nat :: Continues(s, states, actions) && k < |states| ==> IsExecuted(states[k], o)
  }

  /**
   An unfenced write, or a point from which one can still be reached: the second check after the claim,
   the series loop before its last item is passed, the `try` around an item up to the refresh after its
   commit, and the recovery of an item after an error.
   */
  predicate CanOverwrite(x: Proc) {
    match x.pc
    case PostClaim | MarkStale(_, _) | Snapshot | Inspect | Vet | MarkItem | Refresh => true
    case AfterError | Recorded | Terminal(_, _) => true
    case Loop => x.i < |x.view|
    case Fence => x.owner.BatchId?
    case Finalize(_, guarded) => x.owner.BatchId? && (guarded || ContinuesAfter(x))
    case _ => false
  }

  /** The item is already finalised and another one follows, so the loop goes on. */
  predicate ContinuesAfter(x: Proc) {
    x.i + 1 < |x.view| && x.view[x.i] == ItemExecuted
  }

  predicate Threatens(s: System, p: ProcId, o: OwnerId) {
    p in s.procs && s.procs[p].owner == o && CanOverwrite(s.procs[p])
  }

  ghost predicate Unthreatened(s: System, o: OwnerId) {
    forall p :: p in s.procs ==> !Threatens(s, p, o)
  }

  /**
   The `try` around an item is entered at the commit before the fence and left for the next item; the
   pair that a recovery found is recorded outside of it.
   */
  lemma TryHasOneEntry(db: Db, p: ProcId, x: Proc, token: Token)
    requires Advance(db, p, x, token).next.Some? && x.owner.BatchId?
    ensures var y := Advance(db, p, x, token).next.value;
      && (CanRaise(y) && !CanRaise(x) ==> y.pc.Fence?)
      && (CanRaise(x) && !CanRaise(y) ==> y.pc.Loop?)
  {
    hide Recover, FullPreflight, PreflightFor, ItemIsStale, ClaimIsFresh, StaleRow, TerminalRow, CountExecuted;
    hide Conflicting, OwnerFence, WriteItem, Unclaimed, Queue, ReleaseLocks;
  }

  /******* Locks are held by running processes *******/

  ghost predicate LocksAlive(s: System) {
    forall o :: o in s.db.ownerLocks ==> s.db.ownerLocks[o] in s.procs
  }

  /** A step takes no owner lock but its own process's, and a process that ends leaves none. */
  ghost predicate LocksOf(p: ProcId, db: Db, r: Outcome) {
    forall o :: o in r.db.ownerLocks ==>
      (o in db.ownerLocks && r.db.ownerLocks[o] == db.ownerLocks[o] && (r.next.None? ==> r.db.ownerLocks[o] != p))
      || (r.next.Some? && r.db.ownerLocks[o] == p)
  }

  lemma LoadedLocks(p: ProcId, db: Db, x: Proc)
    ensures LocksOf(p, db, StepLoaded(db, p, x))
  {
    hide Recover, FullPreflight, PreflightFor, ClaimIsFresh, StaleRow;
  }

  lemma ClaimingLocks(p: ProcId, db: Db, x: Proc, token: Token)
    requires InClaiming(x.pc)
    ensures LocksOf(p, db, Advance(db, p, x, token))
  {
    hide StepLoaded, PreflightFor, ItemIsStale, StaleRow, TerminalRow, CountExecuted;
    LoadedLocks(p, db, x);
  }

  lemma LoopingLocks(p: ProcId, db: Db, x: Proc, token: Token)
    requires InLoop(x.pc)
    ensures LocksOf(p, db, Advance(db, p, x, token))
  {
    hide Recover, ItemIsStale, OwnerFence, CountExecuted;
  }

  lemma QueueingLocks(p: ProcId, db: Db, x: Proc, token: Token)
    requires InQueue(x.pc)
    ensures LocksOf(p, db, Advance(db, p, x, token))
  {
    hide Conflicting, OwnerFence, TerminalRow;
  }

  lemma RecordingLocks(p: ProcId, db: Db, x: Proc, token: Token)
    requires x.pc.Finalize? || x.pc.FinalHeld?
    ensures LocksOf(p, db, Advance(db, p, x, token))
  {
    hide OwnerFence, WriteItem, Unclaimed;
  }

  lemma AdvanceLocks(p: ProcId, db: Db, x: Proc, token: Token)
    ensures LocksOf(p, db, Advance(db, p, x, token))
  {
    hide Advance, LocksOf;
    if InClaiming(x.pc) {
      ClaimingLocks(p, db, x, token);
    } else if InLoop(x.pc) {
      LoopingLocks(p, db, x, token);
    } else if InQueue(x.pc) {
      QueueingLocks(p, db, x, token);
    } else {
      RecordingLocks(p, db, x, token);
    }
  }

  lemma NextLocks(s: System, a: Action, s': System)
    requires LocksAlive(s) && Next(s, a, s')
    ensures LocksAlive(s')
  {
    hide Advance, Enabled, CanCreate;
    if a.Move? {
      AdvanceLocks(a.p, s.db, s.procs[a.p], a.token);
    }
  }

  lemma {:induction false} RunLocks(states: seq<System>, actions: seq<Action>, k: nat)
    requires IsRun(states, actions) && k < |states|
    ensures LocksAlive(states[k])
  {
    hide Next;
    if k > 0 {
      RunLocks(states, actions, k - 1);
      NextLocks(states[k - 1], actions[k - 1], states[k]);
    }
  }

  /******* Nothing threatens: nothing comes to threaten *******/

  /** A step writes no owner row but its own, and works on for the same owner. */
  ghost predicate OnlyOwn(db: Db, x: Proc, r: Outcome) {
    && (forall o :: o in db.owners && o != x.owner ==> o in r.db.owners && r.db.owners[o] == db.owners[o])
    && (r.next.Some? ==> r.next.value.owner == x.owner)
  }

  lemma ReleaseKeepsOwners()
    ensures forall db, p :: ReleaseLocks(db, p).owners == db.owners
  {
  }

  lemma LoadedOwn(p: ProcId, db: Db, x: Proc)
    ensures OnlyOwn(db, x, StepLoaded(db, p, x))
  {
    hide Recover, FullPreflight, PreflightFor, ClaimIsFresh, StaleRow, ReleaseLocks;
    ReleaseKeepsOwners();
  }

  lemma ClaimingOwn(p: ProcId, db: Db, x: Proc, token: Token)
    requires InClaiming(x.pc)
    ensures OnlyOwn(db, x, Advance(db, p, x, token))
  {
    hide StepLoaded, PreflightFor, ItemIsStale, StaleRow, TerminalRow, CountExecuted, ReleaseLocks;
    ReleaseKeepsOwners();
    LoadedOwn(p, db, x);
  }

  lemma LoopingOwn(p: ProcId, db: Db, x: Proc, token: Token)
    requires InLoop(x.pc)
    ensures OnlyOwn(db, x, Advance(db, p, x, token))
  {
    hide Recover, ItemIsStale, OwnerFence, CountExecuted;
  }

  lemma QueueingOwn(p: ProcId, db: Db, x: Proc, token: Token)
    requires !InClaiming(x.pc) && !InLoop(x.pc)
    ensures OnlyOwn(db, x, Advance(db, p, x, token))
  {
    hide Conflicting, OwnerFence, TerminalRow, ReleaseLocks;
    ReleaseKeepsOwners();
  }

  lemma AdvanceOwn(p: ProcId, db: Db, x: Proc, token: Token)
    ensures OnlyOwn(db, x, Advance(db, p, x, token))
  {
    hide Advance, OnlyOwn;
    if InClaiming(x.pc) {
      ClaimingOwn(p, db, x, token);
    } else if InLoop(x.pc) {
      LoopingOwn(p, db, x, token);
    } else {
      QueueingOwn(p, db, x, token);
    }
  }

  /** A process for an executed owner that cannot overwrite it does not do so, and does not come to. */
  ghost predicate StaysHarmless(x: Proc, r: Outcome) {
    && x.owner in r.db.owners && r.db.owners[x.owner].state == Executed
    && (r.next.Some? ==> !CanOverwrite(r.next.value))
  }

  lemma HarmlessClaiming(p: ProcId, db: Db, x: Proc, token: Token)
    requires ProcInv(db, p, x) && x.owner in db.owners && db.owners[x.owner].state == Executed
    requires !CanOverwrite(x) && InClaiming(x.pc)
    ensures StaysHarmless(x, Advance(db, p, x, token))
  {
    hide Recover, FullPreflight, PreflightFor, ItemIsStale, ClaimIsFresh, StaleRow, TerminalRow;
  }

  lemma HarmlessLooping(p: ProcId, db: Db, x: Proc, token: Token)
    requires ProcInv(db, p, x) && x.owner in db.owners && db.owners[x.owner].state == Executed
    requires !CanOverwrite(x) && InLoop(x.pc)
    ensures StaysHarmless(x, Advance(db, p, x, token))
  {
    hide Recover, ItemIsStale, CountExecuted, LoopInv;
  }

  lemma HarmlessQueueing(p: ProcId, db: Db, x: Proc, token: Token)
    requires ProcInv(db, p, x) && x.owner in db.owners && db.owners[x.owner].state == Executed
    requires !CanOverwrite(x) && !InClaiming(x.pc) && !InLoop(x.pc)
    ensures StaysHarmless(x, Advance(db, p, x, token))
  {
    hide Conflicting, TerminalRow, LoopInv, Claimant;
  }

  lemma HarmlessMove(p: ProcId, db: Db, x: Proc, token: Token)
    requires ProcInv(db, p, x) && x.owner in db.owners && db.owners[x.owner].state == Executed && !CanOverwrite(x)
    ensures StaysHarmless(x, Advance(db, p, x, token))
  {
    hide Advance, StaysHarmless, ProcInv, CanOverwrite;
    if InClaiming(x.pc) {
      HarmlessClaiming(p, db, x, token);
    } else if InLoop(x.pc) {
      HarmlessLooping(p, db, x, token);
    } else {
      HarmlessQueueing(p, db, x, token);
    }
  }

  /** At the other points of the `try` the process holds its claim, so the owner is not executed. */
  lemma NoOtherRaise(db: Db, p: ProcId, x: Proc)
    requires ProcInv(db, p, x) && x.owner in db.owners && db.owners[x.owner].state == Executed && CanRaise(x)
    ensures CanOverwrite(x)
  {
    hide LoopInv, Claimant;
  }

  lemma StepKeepsExecuted(s: System, a: Action, s': System, o: OwnerId)
    requires Inv(s) && Next(s, a, s') && IsExecuted(s, o) && Unthreatened(s, o)
    ensures IsExecuted(s', o) && Unthreatened(s', o)
  {
    hide Inv, Advance, Enabled, CanOverwrite;
    if a.Move? || a.Raise? {
      var x := s.procs[a.p];
      ItsProc(s, a.p);
      assert !Threatens(s, a.p, o);
      if a.Move? {
        AdvanceOwn(a.p, s.db, x, a.token);
        if x.owner == o {
          HarmlessMove(a.p, s.db, x, a.token);
        }
      } else if x.owner == o {
        NoOtherRaise(s.db, a.p, x);
      }
    }
    StartIsHarmless();
    forall p | p in s'.procs
      ensures !Threatens(s', p, o)
    {
      if p in s.procs {
        assert !Threatens(s, p, o);
      }
    }
  }

  lemma StartIsHarmless()
    ensures forall x: Proc :: x.pc == Begin ==> !CanOverwrite(x)
  {
  }

  lemma ItsProc(s: System, p: ProcId)
    requires Inv(s) && p in s.procs
    ensures DbInv(s.db) && ProcInv(s.db, p, s.procs[p])
  {
  }

  lemma {:induction false} UnthreatenedForever(s: System, o: OwnerId, states: seq<System>, actions: seq<Action>, k: nat)
    requires Inv(s) && IsExecuted(s, o) && Unthreatened(s, o) && Continues(s, states, actions) && k < |states|
    ensures Inv(states[k]) && IsExecuted(states[k], o) && Unthreatened(states[k], o)
  {
    hide Inv, Next, IsExecuted, Unthreatened;
    if k > 0 {
      UnthreatenedForever(s, o, states, actions, k - 1);
      StepKeepsExecuted(states[k - 1], actions[k - 1], states[k], o);
      NextKeeps(states[k - 1], actions[k - 1], states[k]);
    }
  }

  /******* Something threatens: the owner can be overwritten *******/

  ghost predicate CanBeOverwritten(s: System, o: OwnerId) {
    exists states, actions :: Continues(s, states, actions) && states != [] && !IsExecuted(states[|states| - 1], o)
  }

  lemma LastStep(s: System, a: Action, s': System, o: OwnerId)
    requires Next(s, a, s') && !IsExecuted(s', o)
    ensures CanBeOverwritten(s, o)
  {
    hide Next;
    assert Continues(s, [s, s'], [a]);
    assert [s, s'][|[s, s']| - 1] == s';
  }

  lemma StepBefore(s: System, a: Action, s': System, o: OwnerId)
    requires Next(s, a, s') && CanBeOverwritten(s', o)
    ensures CanBeOverwritten(s, o)
  {
    hide Next, IsExecuted;
    var states, actions :| Continues(s', states, actions) && states != [] && !IsExecuted(states[|states| - 1], o);
    assert Continues(s, [s] + states, [a] + actions);
    assert ([s] + states)[|[s] + states| - 1] == states[|states| - 1];
  }

  /** Process p works for the executed owner o, in a state that keeps the invariants. */
  ghost predicate At(s: System, p: ProcId, o: OwnerId) {
    Inv(s) && LocksAlive(s) && IsExecuted(s, o) && p in s.procs && s.procs[p].owner == o
  }

  /** Its next step leads to another state of the same kind. */
  lemma MoveOn(s: System, p: ProcId, o: OwnerId, token: Token, db: Db, y: Proc) returns (s': System)
    requires At(s, p, o) && Enabled(s.db, p, s.procs[p]) && token !in s.db.issued && y.owner == o
    requires Advance(s.db, p, s.procs[p], token) == Outcome(db, Some(y))
    requires o in db.owners && db.owners[o].state == Executed
    ensures Next(s, Move(p, token), s') && At(s', p, o) && s'.procs[p] == y && s'.db == db
  {
    hide Inv, Advance, Enabled;
    s' := s.(db := db, procs := s.procs[p := y]);
    assert Next(s, Move(p, token), s');
    NextKeeps(s, Move(p, token), s');
    NextLocks(s, Move(p, token), s');
  }

  /** Everything the checks ask about goes away. */
  lemma DriftAway(s: System, p: ProcId, o: OwnerId) returns (s': System)
    requires At(s, p, o)
    ensures s' == s.(db := s.db.(world := World({}, {})))
    ensures Next(s, Drift(World({}, {}), s.db.revisions), s') && At(s', p, o)
  {
    hide Inv;
    s' := s.(db := s.db.(world := World({}, {})));
    NextKeeps(s, Drift(World({}, {}), s.db.revisions), s');
    NextLocks(s, Drift(World({}, {}), s.db.revisions), s');
  }

  /** The unfenced write itself, once nobody else holds the row lock. */
  lemma WriteNow(s: System, p: ProcId, o: OwnerId)
    requires At(s, p, o) && (s.procs[p].pc.Terminal? || s.procs[p].pc.MarkStale?) && OwnerFree(s.db, o, p)
    ensures CanBeOverwritten(s, o)
  {
    hide Inv, DbInv, CanBeOverwritten;
    var x := s.procs[p];
    ItsProc(s, p);
    var token := FreshToken(s.db.issued);
    var r := Advance(s.db, p, x, token);
    assert r.next.None? && o in r.db.owners && r.db.owners[o].state != Executed;
    var s' := s.(db := r.db, procs := s.procs - {p});
    assert Next(s, Move(p, token), s');
    LastStep(s, Move(p, token), s', o);
  }

  /** A process that holds the row lock may die first. */
  lemma WriteThreat(s: System, p: ProcId, o: OwnerId)
    requires At(s, p, o) && (s.procs[p].pc.Terminal? || s.procs[p].pc.MarkStale?)
    ensures CanBeOverwritten(s, o)
  {
    hide Inv, CanBeOverwritten;
    if OwnerFree(s.db, o, p) {
      WriteNow(s, p, o);
    } else {
      var q := s.db.ownerLocks[o];
      var s' := s.(db := ReleaseLocks(s.db, q), procs := s.procs - {q});
      assert Next(s, Crash(q), s');
      NextKeeps(s, Crash(q), s');
      NextLocks(s, Crash(q), s');
      WriteNow(s', p, o);
      StepBefore(s, Crash(q), s', o);
    }
  }

  /** Points from which a failed check leads straight to an unfenced write. */
  lemma CheckThreat(s: System, p: ProcId, o: OwnerId)
    requires At(s, p, o)
    requires s.procs[p].pc.PostClaim? || s.procs[p].pc.Snapshot? || s.procs[p].pc.Vet?
             || (s.procs[p].pc.Loop? && s.procs[p].i < |s.procs[p].view|)
    ensures CanBeOverwritten(s, o)
  {
    hide Inv, DbInv, CanBeOverwritten, Advance, CountExecuted;
    var s1 := DriftAway(s, p, o);
    var x := s1.procs[p];
    ItsProc(s1, p);
    var token := FreshToken(s1.db.issued);
    var y := FailedCheck(s1.db, p, x, token);
    var s2 := MoveOn(s1, p, o, token, s1.db, y);
    WriteThreat(s2, p, o);
    StepBefore(s1, Move(p, token), s2, o);
    StepBefore(s, Drift(World({}, {}), s.db.revisions), s1, o);
  }

  lemma FailedCheck(db: Db, p: ProcId, x: Proc, token: Token) returns (y: Proc)
    requires DbInv(db) && ProcInv(db, p, x) && db.world == World({}, {})
    requires x.pc.PostClaim? || x.pc.Snapshot? || x.pc.Vet? || (x.pc.Loop? && x.i < |x.view|)
    ensures Advance(db, p, x, token) == Outcome(db, Some(y)) && Enabled(db, p, x)
    ensures y.owner == x.owner && (y.pc.Terminal? || y.pc.MarkStale?)
  {
    hide CountExecuted, TablesInv, OneLive, TokensKnown, Conflicting;
    KnownRow(db, x.owner);
    var r := Advance(db, p, x, token);
    y := r.next.value;
  }

  /** Someone cancels the schedule entry of the item the process points at. */
  lemma CancelItem(s: System, p: ProcId, o: OwnerId) returns (sid: nat, s': System)
    requires At(s, p, o) && o.BatchId? && HasItem(s.db, o, s.procs[p].i)
    ensures Next(s, Cancel(sid), s') && At(s', p, o) && s'.procs == s.procs
    ensures HasItem(s'.db, o, s.procs[p].i) && Recover(s'.db, o, s.procs[p].i).Conflict?
  {
    hide Inv, DbInv, Recover;
    var i := s.procs[p].i;
    ItsProc(s, p);
    KnownRow(s.db, o);
    MadeMeansOnePair(s.db, o, i);
    sid := s.db.made[(o, i)].schedule;
    s' := s.(db := s.db.(entries := s.db.entries[sid := s.db.entries[sid].(cancelled := true)]));
    NextKeeps(s, Cancel(sid), s');
    NextLocks(s, Cancel(sid), s');
    ItsProc(s', p);
    RecoverExact(s'.db, o, i);
  }

  /** Points at which the series looks for the pair of its item. */
  lemma RecoveryThreat(s: System, p: ProcId, o: OwnerId)
    requires At(s, p, o) && (s.procs[p].pc.Inspect? || s.procs[p].pc.AfterError?)
    ensures CanBeOverwritten(s, o)
  {
    hide Inv, DbInv, CanBeOverwritten, Advance, Recover;
    ItsProc(s, p);
    LoopFacts(s.db, p, s.procs[p]);
    var sid, s1 := CancelItem(s, p, o);
    var x := s1.procs[p];
    ItsProc(s1, p);
    var token := FreshToken(s1.db.issued);
    var y := FailedRecovery(s1.db, p, x, token);
    var s2 := MoveOn(s1, p, o, token, s1.db, y);
    if y.pc.Vet? {
      CheckThreat(s2, p, o);
    } else {
      WriteThreat(s2, p, o);
    }
    StepBefore(s1, Move(p, token), s2, o);
    StepBefore(s, Cancel(sid), s1, o);
  }

  lemma LoopFacts(db: Db, p: ProcId, x: Proc)
    requires ProcInv(db, p, x) && (x.pc.Inspect? || x.pc.AfterError?)
    ensures x.owner.BatchId? && HasItem(db, x.owner, x.i) && AtItem(db, x)
  {
  }

  lemma FailedRecovery(db: Db, p: ProcId, x: Proc, token: Token) returns (y: Proc)
    requires ProcInv(db, p, x) && (x.pc.Inspect? || x.pc.AfterError?)
    requires HasItem(db, x.owner, x.i) && Recover(db, x.owner, x.i).Conflict?
    ensures Advance(db, p, x, token) == Outcome(db, Some(y)) && Enabled(db, p, x)
    ensures y.owner == x.owner && (y.pc.Terminal? || y.pc.Vet?)
  {
    hide Recover, CountExecuted;
    LoopFacts(db, p, x);
    var r := Advance(db, p, x, token);
    y := r.next.value;
  }

  /** An exception inside the `try` starts the recovery of the item. */
  lemma RaiseThreat(s: System, p: ProcId, o: OwnerId)
    requires At(s, p, o) && CanRaise(s.procs[p])
    ensures CanBeOverwritten(s, o)
  {
    hide Inv, CanBeOverwritten, CanRaise;
    var s' := s.(db := ReleaseLocks(s.db, p), procs := s.procs[p := s.procs[p].(pc := AfterError)]);
    assert Next(s, Raise(p), s');
    NextKeeps(s, Raise(p), s');
    NextLocks(s, Raise(p), s');
    RecoveryThreat(s', p, o);
    StepBefore(s, Raise(p), s', o);
  }

  /** The item is marked without a look at the claim, and the `try` entered. */
  lemma MarkThreat(s: System, p: ProcId, o: OwnerId)
    requires At(s, p, o) && (s.procs[p].pc.MarkItem? || s.procs[p].pc.Refresh?)
    ensures CanBeOverwritten(s, o)
    decreases s.procs[p].pc.MarkItem?
  {
    hide Inv, DbInv, CanBeOverwritten, Advance;
    var x := s.procs[p];
    ItsProc(s, p);
    var token := FreshToken(s.db.issued);
    var db, y := TowardsTry(s.db, p, x, token);
    var s' := MoveOn(s, p, o, token, db, y);
    if x.pc.MarkItem? {
      MarkThreat(s', p, o);
    } else {
      RaiseThreat(s', p, o);
    }
    StepBefore(s, Move(p, token), s', o);
  }

  lemma TowardsTry(db: Db, p: ProcId, x: Proc, token: Token) returns (db': Db, y: Proc)
    requires ProcInv(db, p, x) && (x.pc.MarkItem? || x.pc.Refresh?)
    ensures Advance(db, p, x, token) == Outcome(db', Some(y)) && Enabled(db, p, x)
    ensures x.owner in db.owners && x.owner in db'.owners
    ensures db'.owners[x.owner].state == db.owners[x.owner].state
    ensures y.owner == x.owner && y.pc == (if x.pc.MarkItem? then Refresh else Fence)
    ensures x.owner.BatchId?
  {
    var r := Advance(db, p, x, token);
    db', y := r.db, r.next.value;
  }

  /** Nothing is left to record, and the loop goes on to the next item. */
  lemma GoOnThreat(s: System, p: ProcId, o: OwnerId)
    requires At(s, p, o) && o.BatchId? && s.procs[p].pc.Finalize? && ContinuesAfter(s.procs[p])
    ensures CanBeOverwritten(s, o)
  {
    hide Inv, DbInv, CanBeOverwritten, Advance;
    var x := s.procs[p];
    ItsProc(s, p);
    var token := FreshToken(s.db.issued);
    var y := x.(i := x.i + 1, pc := Loop);
    NothingToRecord(s.db, p, x, token);
    var s' := MoveOn(s, p, o, token, s.db, y);
    CheckThreat(s', p, o);
    StepBefore(s, Move(p, token), s', o);
  }

  lemma NothingToRecord(db: Db, p: ProcId, x: Proc, token: Token)
    requires ProcInv(db, p, x) && x.owner.BatchId? && x.pc.Finalize? && ContinuesAfter(x)
    ensures Advance(db, p, x, token) == Outcome(db, Some(x.(i := x.i + 1, pc := Loop))) && Enabled(db, p, x)
  {
  }

  lemma ThreatIsReal(s: System, p: ProcId, o: OwnerId)
    requires p in s.procs && At(s, p, o) && CanOverwrite(s.procs[p])
    ensures CanBeOverwritten(s, o)
  {
    hide At, CanBeOverwritten;
    var x := s.procs[p];
    ItsOwner(s, p, o);
    if x.pc.Terminal? || x.pc.MarkStale? {
      WriteThreat(s, p, o);
    } else if x.pc.Inspect? || x.pc.AfterError? {
      RecoveryThreat(s, p, o);
    } else if x.pc.MarkItem? || x.pc.Refresh? {
      MarkThreat(s, p, o);
    } else if CanRaise(x) {
      RaiseThreat(s, p, o);
    } else if x.pc.Finalize? {
      GoOnThreat(s, p, o);
    } else {
      CheckThreat(s, p, o);
    }
  }

  lemma ItsOwner(s: System, p: ProcId, o: OwnerId)
    requires At(s, p, o)
    ensures s.procs[p].owner == o && (s.procs[p].pc.Recorded? ==> o.BatchId?)
  {
    ItsProc(s, p);
  }

  /******* Main result *******/

  /**
   From a reachable state, an executed owner stays executed along every further sequence of actions if
   and only if no process of that owner is at an unfenced write or can still reach one.
   */
  lemma ExecutedForeverIff(s: System, o: OwnerId)
    requires Reachable(s) && IsExecuted(s, o)
    ensures StaysExecuted(s, o) <==> Unthreatened(s, o)
  {
    hide Inv, Next, Initial, Continues, CanOverwrite;
    var states, actions :| IsRun(states, actions) && states[|actions|] == s;
    RunInv(states, actions, |actions|);
    RunLocks(states, actions, |actions|);
    if Unthreatened(s, o) {
      forall more, next, k: nat | Continues(s, more, next) && k < |more|
        ensures IsExecuted(more[k], o)
      {
        UnthreatenedForever(s, o, more, next, k);
      }
    } else {
      var p :| p in s.procs && Threatens(s, p, o);
      assert At(s, p, o);
      ThreatIsReal(s, p, o);
      var more, next :| Continues(s, more, next) && more != [] && !IsExecuted(more[|more| - 1], o);
    }
  }
}
