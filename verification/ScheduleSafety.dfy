/**
 What holds in every reachable state, over every interleaving of approvals, takeovers, exceptions,
 crashes and foreign writes: at most one live entry for a target, prefixes, exactly one linked pair
 for every item of an executed owner, and fencing of superseded executors.
 */
module ScheduleSafety {
  import opened Wrappers
  import opened ScheduleStore
  import opened ScheduleProtocol
  import opened ScheduleInvariant
  import opened ScheduleSteps

  /******* The invariant holds in every state of every run *******/

  /** Steps taken by other code: no new pair, and nothing the processes rely on changes. */
  ghost predicate Outside(a: Action) {
    a.Reject? || a.Create? || a.ForeignSchedule? || a.ForeignPublication? || a.Cancel? || a.Drift?
  }

  lemma MadeHasItem(db: Db, o: OwnerId, i: nat)
    requires DbInv(db) && (o, i) in db.made
    ensures HasItem(db, o, i)
  {
    assert MadeInv(db.owners, db.entries, db.pubs, o, i, db.made[(o, i)]);
  }

  lemma CreateKeeps(db: Db, o: OwnerId, row: Owner)
    requires DbInv(db) && CanCreate(db, o, row)
    ensures DbInv(WriteOwner(db, o, row))
  {
    forall i: nat
      ensures (o, i) !in db.made
    {
      if (o, i) in db.made {
        MadeHasItem(db, o, i);
      }
    }
    assert RowInv(db.made, o, row);
    CreateTables(db, o, row);
  }

  lemma CreateTables(db: Db, o: OwnerId, row: Owner)
    requires DbInv(db) && CanCreate(db, o, row)
    ensures TablesInv(db.owners[o := row], db.entries, db.pubs, db.made)
  {
    var owners := db.owners[o := row];
    assert KeysUnique(owners) by {
      assert forall o', i: nat :: o' != o && HasItemIn(owners, o', i) ==> HasItem(db, o', i);
      assert forall o', i: nat :: o' != o && HasItemIn(owners, o', i) ==> ItemOf(db, o', i) == owners[o'].items[i];
    }
    forall sid: nat | sid < |db.entries|
      ensures EntryInv(owners, db.made, sid, db.entries[sid])
    {
      assert EntryInv(db.owners, db.made, sid, db.entries[sid]);
    }
    forall pid: nat | pid < |db.pubs|
      ensures PublicationInv(owners, db.made, pid, db.pubs[pid])
    {
      assert PublicationInv(db.owners, db.made, pid, db.pubs[pid]);
    }
    forall o', i: nat | (o', i) in db.made
      ensures MadeInv(owners, db.entries, db.pubs, o', i, db.made[(o', i)])
    {
      assert MadeInv(db.owners, db.entries, db.pubs, o', i, db.made[(o', i)]);
    }
  }

  lemma RejectKeeps(p: ProcId, db: Db, o: OwnerId)
    requires DbInv(db) && o in db.owners && o !in db.ownerLocks && db.owners[o].state == PendingReview
    ensures var db' := WriteOwner(db, o, Unclaimed(db.owners[o], Rejected)); DbInv(db') && Guarantee(p, db, db')
  {
    hide Guarantee, DbInv;
    KnownRow(db, o);
    var row := db.owners[o];
    ClosingRow(db.made, o, row, Unclaimed(row, Rejected));
    RowWrite(p, db, o, Unclaimed(row, Rejected));
  }

  /** Appending foreign rows and cancelling entries keeps the tables. */
  lemma EntriesKeep(db: Db, db': Db)
    requires DbInv(db) && db' == db.(entries := db'.entries, pubs := db'.pubs)
    requires RowsAppended(db, db')
    requires forall sid :: |db.entries| <= sid < |db'.entries| ==> db'.entries[sid].maker == Foreign
    requires forall pid :: |db.pubs| <= pid < |db'.pubs| ==> db'.pubs[pid].maker == Foreign
    ensures DbInv(db')
  {
    forall sid: nat | sid < |db'.entries|
      ensures EntryInv(db'.owners, db'.made, sid, db'.entries[sid])
    {
      if sid < |db.entries| {
        assert EntryInv(db.owners, db.made, sid, db.entries[sid]);
      }
    }
    forall pid: nat | pid < |db'.pubs|
      ensures PublicationInv(db'.owners, db'.made, pid, db'.pubs[pid])
    {
      if pid < |db.pubs| {
        assert PublicationInv(db.owners, db.made, pid, db.pubs[pid]);
      }
    }
    forall o, i: nat | (o, i) in db'.made
      ensures MadeInv(db'.owners, db'.entries, db'.pubs, o, i, db'.made[(o, i)])
    {
      assert MadeInv(db.owners, db.entries, db.pubs, o, i, db.made[(o, i)]);
    }
  }

  lemma SameRowsGuarantee(p: ProcId, db: Db, db': Db)
    requires db' == db.(entries := db'.entries, pubs := db'.pubs, world := db'.world, revisions := db'.revisions)
    requires RowsAppended(db, db')
    ensures Guarantee(p, db, db')
  {
    assert OwnersKept(db, db') && LocksRespected(p, db, db') && TokensFresh(db, db') && PairsGuarded(p, db, db');
  }

  lemma CreateGuarantee(p: ProcId, db: Db, o: OwnerId, row: Owner)
    requires o !in db.owners && db.ownerLocks.Keys <= db.owners.Keys
    ensures Guarantee(p, db, WriteOwner(db, o, row))
  {
    var db' := WriteOwner(db, o, row);
    assert PairsGuarded(p, db, db') && RowsAppended(db, db');
    assert OwnersKept(db, db') && LocksRespected(p, db, db') && TokensFresh(db, db');
  }

  lemma OutsideGuarantee(p: ProcId, s: System, a: Action, s': System)
    requires Inv(s) && Next(s, a, s') && Outside(a)
    ensures DbInv(s'.db) && Guarantee(p, s.db, s'.db)
  {
    if a.Reject? {
      RejectKeeps(p, s.db, a.owner);
    } else if a.Create? {
      CreateKeeps(s.db, a.owner, a.row);
      CreateGuarantee(p, s.db, a.owner, a.row);
    } else {
      hide Guarantee, ProcInv;
      EntriesKeep(s.db, s.db.(entries := s'.db.entries, pubs := s'.db.pubs));
      SameRowsGuarantee(p, s.db, s'.db);
    }
  }

  lemma RaiseKeeps(p: ProcId, db: Db, x: Proc)
    requires DbInv(db) && ProcInv(db, p, x) && CanRaise(x)
    ensures ProcInv(ReleaseLocks(db, p), p, x.(pc := AfterError))
  {
    assert LoopInv(db, p, x);
    assert LoopInv(ReleaseLocks(db, p), p, x.(pc := AfterError));
  }

  /** The other processes of a step by `p` keep their invariant. */
  lemma OthersKeep(p: ProcId, s: System, db': Db)
    requires Inv(s) && Guarantee(p, s.db, db') && DbInv(db')
    ensures forall q :: q in s.procs && q != p ==> ProcInv(db', q, s.procs[q])
  {
    hide Guarantee, ProcInv;
    forall q | q in s.procs && q != p
      ensures ProcInv(db', q, s.procs[q])
    {
      ProcInvStable(s.db, db', p, q, s.procs[q]);
    }
  }

  lemma OutsideKeeps(s: System, a: Action, s': System)
    requires Inv(s) && Next(s, a, s') && Outside(a)
    ensures Inv(s')
  {
    hide Guarantee, ProcInv, DbInv, Next;
    OutsideGuarantee(0, s, a, s');
    assert s'.procs == s.procs && s'.started == s.started by { OutsideLeavesProcesses(s, a, s'); }
    forall q | q in s'.procs
      ensures ProcInv(s'.db, q, s'.procs[q])
    {
      OutsideGuarantee(q + 1, s, a, s');
      ProcInvStable(s.db, s'.db, q + 1, q, s.procs[q]);
    }
  }

  lemma OutsideLeavesProcesses(s: System, a: Action, s': System)
    requires Next(s, a, s') && Outside(a)
    ensures s'.procs == s.procs && s'.started == s.started
  {
  }

  lemma ProcessKeeps(s: System, a: Action, s': System)
    requires Inv(s) && Next(s, a, s') && !Outside(a)
    ensures Inv(s') && Guarantee(a.p, s.db, s'.db)
  {
    hide Guarantee, ProcInv, DbInv;
    match a
    case Start(p, o, now) =>
      Releasing(p, s.db);
      StartKeeps(s, p, o, now);
    case Move(p, token) =>
      AdvanceKeeps(p, s.db, s.procs[p], token);
      OthersKeep(p, s, s'.db);
    case Raise(p) =>
      Releasing(p, s.db);
      OthersKeep(p, s, s'.db);
      RaiseKeeps(p, s.db, s.procs[p]);
    case Crash(p) =>
      Releasing(p, s.db);
      OthersKeep(p, s, s'.db);
  }

  lemma StartKeeps(s: System, p: ProcId, o: OwnerId, now: int)
    requires DbInv(s.db)
    ensures Guarantee(p, s.db, s.db) && ProcInv(s.db, p, Proc(o, now, None, Begin, 0, []))
  {
  }

  lemma NextKeeps(s: System, a: Action, s': System)
    requires Inv(s) && Next(s, a, s')
    ensures Inv(s')
  {
    hide Inv, Next;
    if Outside(a) {
      OutsideKeeps(s, a, s');
    } else {
      ProcessKeeps(s, a, s');
    }
  }

  lemma InitialInv(s: System)
    requires Initial(s)
    ensures Inv(s)
  {
  }

  lemma {:induction false} RunInv(states: seq<System>, actions: seq<Action>, k: nat)
    requires IsRun(states, actions) && k < |states|
    ensures Inv(states[k])
  {
    hide Inv, Next;
    if k == 0 {
      InitialInv(states[0]);
    } else {
      RunInv(states, actions, k - 1);
      NextKeeps(states[k - 1], actions[k - 1], states[k]);
    }
  }

  /******* Main results about pairs *******/

  /** At most one entry of the executors, single or series, is live on any (item, revision). */
  lemma AtMostOneLiveEntry(states: seq<System>, actions: seq<Action>, k: nat, s1: nat, s2: nat)
    requires IsRun(states, actions) && k < |states|
    requires s1 < s2 < |states[k].db.entries|
    requires states[k].db.entries[s1].maker.Made? && states[k].db.entries[s2].maker.Made?
    requires states[k].db.entries[s1].target == states[k].db.entries[s2].target
    ensures states[k].db.entries[s1].cancelled || states[k].db.entries[s2].cancelled
  {
    RunInv(states, actions, k);
  }

  /** The item has exactly one schedule entry and one publication under its key, linked to each other. */
  ghost predicate ExactlyOnePair(db: Db, o: OwnerId, i: nat, link: Link)
    requires HasItem(db, o, i)
  {
    && SchedulesWithKey(db, o, ItemOf(db, o, i)) == {link.schedule}
    && PublicationsWithKey(db, o, ItemOf(db, o, i)) == {link.publication}
    && link.schedule < |db.entries| && link.publication < |db.pubs|
    && db.pubs[link.publication].schedule == Some(link.schedule)
    && db.entries[link.schedule].slot == ItemOf(db, o, i).slot
    && db.entries[link.schedule].channel == db.pubs[link.publication].channel == db.owners[o].channel
  }

  lemma MadeMeansOnePair(db: Db, o: OwnerId, i: nat)
    requires DbInv(db) && (o, i) in db.made
    ensures HasItem(db, o, i) && ExactlyOnePair(db, o, i, db.made[(o, i)])
  {
    var link := db.made[(o, i)];
    assert MadeInv(db.owners, db.entries, db.pubs, o, i, link);
    assert EntryInv(db.owners, db.made, link.schedule, db.entries[link.schedule]);
    assert PublicationInv(db.owners, db.made, link.publication, db.pubs[link.publication]);
    var item := ItemOf(db, o, i);
    forall sid: nat | sid in SchedulesWithKey(db, o, item)
      ensures sid == link.schedule
    {
      assert EntryInv(db.owners, db.made, sid, db.entries[sid]);
    }
    forall pid: nat | pid in PublicationsWithKey(db, o, item)
      ensures pid == link.publication
    {
      assert PublicationInv(db.owners, db.made, pid, db.pubs[pid]);
    }
    assert SchedulesWithKey(db, o, item) == {link.schedule};
    assert PublicationsWithKey(db, o, item) == {link.publication};
  }

  ghost predicate HasOnePair(db: Db, o: OwnerId, i: nat)
    requires HasItem(db, o, i)
  {
    exists link :: ExactlyOnePair(db, o, i, link)
  }

  ghost predicate HasNoPair(db: Db, o: OwnerId, i: nat)
    requires HasItem(db, o, i)
  {
    SchedulesWithKey(db, o, ItemOf(db, o, i)) == {} && PublicationsWithKey(db, o, ItemOf(db, o, i)) == {}
  }

  lemma PairIffMade(db: Db, o: OwnerId, i: nat)
    requires DbInv(db) && HasItem(db, o, i)
    ensures if (o, i) in db.made then HasOnePair(db, o, i) else HasNoPair(db, o, i) && !HasOnePair(db, o, i)
  {
    RecoverExact(db, o, i);
    if (o, i) in db.made {
      MadeMeansOnePair(db, o, i);
    } else {
      assert HasNoPair(db, o, i);
      forall link
        ensures !ExactlyOnePair(db, o, i, link)
      {
        assert link.schedule in {link.schedule};
      }
    }
  }

  /** Every item has exactly one pair or none, and the ordinals that have one are a prefix. */
  lemma PairsFormPrefix(states: seq<System>, actions: seq<Action>, k: nat, o: OwnerId, i: nat, j: nat)
    requires IsRun(states, actions) && k < |states| && HasItem(states[k].db, o, j) && i <= j
    ensures HasOnePair(states[k].db, o, j) || HasNoPair(states[k].db, o, j)
    ensures HasOnePair(states[k].db, o, j) ==> HasOnePair(states[k].db, o, i)
  {
    RunInv(states, actions, k);
    var db := states[k].db;
    KnownRow(db, o);
    PairIffMade(db, o, i);
    PairIffMade(db, o, j);
  }

  /** An executed owner has exactly one linked pair for every item; what the rows store names it. */
  lemma ExecutedMeansOnePairEach(states: seq<System>, actions: seq<Action>, k: nat, o: OwnerId, i: nat)
    requires IsRun(states, actions) && k < |states|
    requires HasItem(states[k].db, o, i) && states[k].db.owners[o].state == Executed
    ensures HasOnePair(states[k].db, o, i)
    ensures o.SingleId? || ItemOf(states[k].db, o, i).state == ItemExecuted ==>
      ItemOf(states[k].db, o, i).link.Some? && ExactlyOnePair(states[k].db, o, i, ItemOf(states[k].db, o, i).link.value)
  {
    RunInv(states, actions, k);
    var db := states[k].db;
    KnownRow(db, o);
    MadeMeansOnePair(db, o, i);
    if o.BatchId? {
      assert ItemInv(db.made, o, i, db.owners[o].items[i]);
    }
  }

  /******* Fencing *******/

  /** The token was drawn once and is no longer the owner's current token. */
  ghost predicate Superseded(db: Db, o: OwnerId, token: Token) {
    o in db.owners && token in db.issued && db.owners[o].token != Some(token)
  }

  ghost predicate ActsWith(s: System, a: Action, o: OwnerId, token: Token) {
    a.Move? && a.p in s.procs && s.procs[a.p].owner == o && s.procs[a.p].token == Some(token)
  }

  /** Nothing is scheduled, no item is finalised and no owner becomes executed. */
  ghost predicate NoOutcome(db: Db, db': Db) {
    && db'.entries == db.entries && db'.pubs == db.pubs
    && forall o :: o in db.owners ==>
         && o in db'.owners && |db'.owners[o].items| == |db.owners[o].items|
         && (db'.owners[o].state == Executed ==> db.owners[o].state == Executed)
         && forall i :: 0 <= i < |db.owners[o].items| ==>
              && db'.owners[o].items[i].link == db.owners[o].items[i].link
              && (db'.owners[o].items[i].state == ItemExecuted ==> db.owners[o].items[i].state == ItemExecuted)
  }

  lemma LoopHasNoOutcome(p: ProcId, db: Db, x: Proc, token: Token)
    requires PcInv(db, p, x) && InLoop(x.pc) && !OwnerFence(db, x.owner, x.token)
    ensures NoOutcome(db, Advance(db, p, x, token).db)
  {
    hide Recover, NoOutcome, LoopInv, ItemIsStale, CountExecuted, Unclaimed;
    var db' := Advance(db, p, x, token).db;
    if x.pc.MarkItem? && AtItem(db, x) {
      WriteHasNoOutcomeOpen(db, db', x.owner, x.i);
    } else {
      SameRowsNoOutcome(db, db');
    }
  }

  lemma WriteHasNoOutcomeOpen(db: Db, db': Db, o: OwnerId, i: nat)
    requires HasItem(db, o, i)
    requires db' == WriteOwner(db, o, WriteItem(db.owners[o], i, db.owners[o].items[i].(state := ItemExecuting)))
    ensures NoOutcome(db, db')
  {
  }

  /** The row is not executed and none of its items has become so. */
  ghost predicate Harmless(row: Owner, row': Owner) {
    && row'.state != Executed && |row'.items| == |row.items|
    && forall i :: 0 <= i < |row.items| ==>
         && row'.items[i].link == row.items[i].link
         && (row'.items[i].state == ItemExecuted ==> row.items[i].state == ItemExecuted)
  }

  lemma ClosingIsHarmless(row: Owner, state: OwnerState, all: bool, one: Option<nat>)
    ensures state != Executed ==> Harmless(row, Unclaimed(row, state))
    ensures Harmless(row, StaleRow(row, all, one))
  {
  }

  lemma WriteHasNoOutcome(db: Db, db': Db, o: OwnerId, row: Owner)
    requires o in db.owners && db'.owners == db.owners[o := row] && db'.entries == db.entries && db'.pubs == db.pubs
    requires Harmless(db.owners[o], row)
    ensures NoOutcome(db, db')
  {
  }

  lemma LoadedHasNoOutcome(p: ProcId, db: Db, x: Proc)
    ensures NoOutcome(db, StepLoaded(db, p, x).db)
  {
    hide NoOutcome, Recover, PreflightFor, StaleRow, Unclaimed, ClaimIsFresh, Harmless;
    assert NoOutcome(db, db) && NoOutcome(db, ReleaseLocks(db, p)) by { SameHasNoOutcome(db, p); }
    var db' := StepLoaded(db, p, x).db;
    if db'.owners != db.owners {
      var row, preflight := db.owners[x.owner], PreflightFor(db, x.owner);
      var (all, one) := if preflight.Pass? then (false, None) else StaleArgs(preflight);
      ClosingIsHarmless(row, Failed, all, one);
      WriteHasNoOutcome(db, db', x.owner, db'.owners[x.owner]);
    }
  }

  lemma SameHasNoOutcome(db: Db, p: ProcId)
    ensures NoOutcome(db, db) && NoOutcome(db, ReleaseLocks(db, p))
  {
  }

  lemma ClosingHasNoOutcome(p: ProcId, db: Db, x: Proc)
    requires PcInv(db, p, x) && (x.pc.MarkStale? || x.pc.Terminal?)
    ensures NoOutcome(db, Advance(db, p, x, 0).db)
  {
    hide NoOutcome, StaleRow;
    var db' := Advance(db, p, x, 0).db;
    if x.pc.MarkStale? {
      ClosingIsHarmless(db.owners[x.owner], Stale, x.pc.all, x.pc.one);
    }
    WriteHasNoOutcome(db, db', x.owner, db'.owners[x.owner]);
  }

  lemma TakingHasNoOutcome(p: ProcId, db: Db, x: Proc, token: Token)
    requires PcInv(db, p, x) && (x.pc.Expired? || x.pc.TakeOver? || x.pc.Promote?)
    ensures NoOutcome(db, Advance(db, p, x, token).db)
  {
    hide NoOutcome;
    SameHasNoOutcome(db, p);
    var db' := Advance(db, p, x, token).db;
    if db'.owners != db.owners {
      WriteHasNoOutcome(db, db', x.owner, db'.owners[x.owner]);
    } else {
      SameRowsNoOutcome(db, db');
    }
  }

  lemma ReadingHasNoOutcome(p: ProcId, db: Db, x: Proc, token: Token)
    requires PcInv(db, p, x) && (x.pc.Begin? || x.pc.PostClaim? || x.pc.Snapshot?)
    ensures NoOutcome(db, Advance(db, p, x, token).db)
  {
    hide NoOutcome, FullPreflight, CountExecuted;
    SameRowsNoOutcome(db, Advance(db, p, x, token).db);
  }

  lemma ClaimingHasNoOutcome(p: ProcId, db: Db, x: Proc, token: Token)
    requires PcInv(db, p, x) && InClaiming(x.pc)
    ensures NoOutcome(db, Advance(db, p, x, token).db)
  {
    hide NoOutcome, PcInv;
    if x.pc.Loaded? {
      LoadedHasNoOutcome(p, db, x);
    } else if x.pc.MarkStale? || x.pc.Terminal? {
      ClosingHasNoOutcome(p, db, x);
    } else if x.pc.Expired? || x.pc.TakeOver? || x.pc.Promote? {
      TakingHasNoOutcome(p, db, x, token);
    } else {
      ReadingHasNoOutcome(p, db, x, token);
    }
  }

  lemma SameRowsNoOutcome(db: Db, db': Db)
    requires db'.owners == db.owners && db'.entries == db.entries && db'.pubs == db.pubs
    ensures NoOutcome(db, db')
  {
  }

  lemma QueueHasNoOutcome(p: ProcId, db: Db, x: Proc, token: Token)
    requires PcInv(db, p, x) && !InClaiming(x.pc) && !InLoop(x.pc) && !OwnerFence(db, x.owner, x.token)
    ensures NoOutcome(db, Advance(db, p, x, token).db)
  {
    hide Working, Recording;
  }

  /** Without the owner's current token no step has an outcome. */
  lemma UnfencedHasNoOutcome(p: ProcId, db: Db, x: Proc, token: Token)
    requires ProcInv(db, p, x) && !OwnerFence(db, x.owner, x.token)
    ensures NoOutcome(db, Advance(db, p, x, token).db)
  {
    hide Advance, PcInv, NoOutcome;
    if InLoop(x.pc) {
      LoopHasNoOutcome(p, db, x, token);
    } else if InClaiming(x.pc) {
      ClaimingHasNoOutcome(p, db, x, token);
    } else {
      QueueHasNoOutcome(p, db, x, token);
    }
  }

  lemma SupersededStays(s: System, a: Action, s': System, o: OwnerId, token: Token)
    requires Inv(s) && Next(s, a, s') && Superseded(s.db, o, token)
    ensures Superseded(s'.db, o, token)
  {
    hide Next, Inv;
    if Outside(a) {
      OutsideGuarantee(0, s, a, s');
    } else {
      ProcessKeeps(s, a, s');
    }
  }

  /**
   Once another token is on the row, the old token never returns, and no later step of a process
   that holds the old token creates a pair, finalises an item or records executed.
   */
  lemma {:induction false} SupersededExecutorIsFenced(
      states: seq<System>, actions: seq<Action>, k: nat, m: nat, o: OwnerId, token: Token)
    requires IsRun(states, actions) && k <= m < |states| && Superseded(states[k].db, o, token)
    ensures Superseded(states[m].db, o, token)
    ensures m < |actions| && ActsWith(states[m], actions[m], o, token) ==> NoOutcome(states[m].db, states[m + 1].db)
    decreases m - k
  {
    hide Inv, Advance;
    RunInv(states, actions, m);
    if k < m {
      SupersededExecutorIsFenced(states, actions, k, m - 1, o, token);
      RunInv(states, actions, m - 1);
      SupersededStays(states[m - 1], actions[m - 1], states[m], o, token);
    }
    if m < |actions| && ActsWith(states[m], actions[m], o, token) {
      MoveOfSuperseded(states[m], actions[m], states[m + 1]);
    }
  }

  lemma MoveOfSuperseded(s: System, a: Action, s': System)
    requires Inv(s) && Next(s, a, s') && a.Move? && a.p in s.procs
    requires !OwnerFence(s.db, s.procs[a.p].owner, s.procs[a.p].token)
    ensures NoOutcome(s.db, s'.db)
  {
    UnfencedHasNoOutcome(a.p, s.db, s.procs[a.p], a.token);
  }
}
