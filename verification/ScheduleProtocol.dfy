/**
 One `approve` request of either executor as a process that advances in steps between commits.
 Whatever one transaction does after taking a row lock is still split into separate steps (fence
 the owner, fence the target, recheck, queue and commit), so other processes run in between and a
 crash can fall between any two.
 */
module ScheduleProtocol {
  import opened Wrappers
  import opened ScheduleStore

  datatype Pc =
    | Begin                                       // SELECT ... FOR UPDATE on the owner row
    | Loaded                                      // owner row locked, decide by its state
    | Expired                                     // single: lease over, nothing recovered, row locked
    | TakeOver(seen: Option<Token>)               // series: compare-and-set on the old token
    | Promote                                     // compare-and-set pending_review -> executing
    | PostClaim                                   // revalidate after the claim commit, no lock
    | MarkStale(all: bool, one: Option<nat>)      // unfenced `_mark_stale`
    | Snapshot                                    // series: load the items once
    | Loop                                        // series: head of the item loop
    | Inspect                                     // series: claim was still owned, look at the item
    | Vet                                         // series: `_item_stale_reason`
    | MarkItem                                    // series: unfenced write pending -> executing
    | Refresh                                     // series: reload the item after that commit
    | Fence                                       // guarded owner UPDATE
    | OwnerHeld                                   // guarded target UPDATE
    | TargetHeld                                  // recheck for a conflicting schedule
    | Cleared                                     // queue the pair and commit
    | AfterError                                  // series: rolled back after an exception
    | Finalize(link: Link, guarded: bool)         // fence before recording the pair; guarded: inside the `try`
    | FinalHeld(link: Link, guarded: bool)        // record the pair and commit
    | Recorded                                    // series: the item is committed, its refresh is inside the `try`
    | Close                                       // series: fence before the batch state
    | CloseHeld                                   // series: record executed and commit
    | Terminal(state: OwnerState, failed: Option<(nat, ItemState)>) // unfenced `_terminal_failure`

  /** `i` is the item the process works on; `view` holds the item states its session has loaded. */
  datatype Proc = Proc(owner: OwnerId, now: int, token: Option<Token>, pc: Pc, i: nat, view: seq<ItemState>)

  datatype Outcome = Outcome(db: Db, next: Option<Proc>)

  function Goto(db: Db, x: Proc, pc: Pc): Outcome {
    Outcome(db, Some(x.(pc := pc)))
  }

  function Stop(db: Db, p: ProcId): Outcome {
    Outcome(ReleaseLocks(db, p), None)
  }

  /** `_terminal_failure`: partial when some item was already completed. */
  function GiveUp(db: Db, x: Proc, completed: nat, otherwise: OwnerState, failed: Option<(nat, ItemState)>): Outcome {
    Goto(db, x, Terminal(if completed > 0 then PartialFailed else otherwise, failed))
  }

  function States(items: seq<Item>): (r: seq<ItemState>)
    ensures |r| == |items|
    ensures forall i :: 0 <= i < |items| ==> r[i] == items[i].state
  {
    seq(|items|, i requires 0 <= i < |items| => items[i].state)
  }

  function CountExecuted(view: seq<ItemState>): nat {
    if view == [] then 0 else (if view[0] == ItemExecuted then 1 else 0) + CountExecuted(view[1..])
  }

  /** Does the process currently point at one of its owner's items, and has it loaded them all? */
  predicate AtItem(db: Db, x: Proc) {
    HasItem(db, x.owner, x.i) && (x.owner.BatchId? ==> x.i < |x.view|)
  }

  /******* Preflight *******/

  datatype Preflight = Pass | AllStale | OneStale(at: nat, mark: bool)

  /** `_full_preflight`, in order: source contract, then each item from `i` on. */
  function FullPreflight(db: Db, o: OwnerId, i: nat): Preflight
    requires o in db.owners && i <= |db.owners[o].items|
    decreases |db.owners[o].items| - i
  {
    var items := db.owners[o].items;
    if i == 0 && o !in db.world.contractHolds then AllStale
    else if i == |items| then Pass
    else if items[i].state != ItemPending then OneStale(i, items[i].state == ItemExecuting)
    else if ItemIsStale(db, o, i) then OneStale(i, true)
    else FullPreflight(db, o, i + 1)
  }

  function PreflightFor(db: Db, o: OwnerId): Preflight
    requires o in db.owners
  {
    if o.BatchId? then FullPreflight(db, o, 0)
    else if HasItem(db, o, 0) && ItemIsStale(db, o, 0) then OneStale(0, false)
    else Pass
  }

  /** `_mark_stale` of either kind: `all` marks every pending item, `one` a single item. */
  function StaleRow(row: Owner, all: bool, one: Option<nat>): Owner {
    var closed := Unclaimed(row, Stale);
    if all then closed.(items := StaleItems(row.items))
    else if one.Some? && one.value < |row.items|
      then WriteItem(closed, one.value, row.items[one.value].(state := ItemStale))
    else closed
  }

  function StaleArgs(r: Preflight): (bool, Option<nat>)
    requires !r.Pass?
  {
    if r.AllStale? then (true, None) else (false, if r.mark then Some(r.at) else None)
  }

  /******* Steps: taking the claim *******/

  ghost function StepLoaded(db: Db, p: ProcId, x: Proc): Outcome {
    if x.owner !in db.owners then Stop(db, p) else
    var row := db.owners[x.owner];
    match row.state
    case Executing =>
      if x.owner.BatchId? then
        if ClaimIsFresh(row, x.now) then Stop(db, p)
        else Goto(ReleaseLocks(db, p), x, TakeOver(row.token))
      else if |row.items| == 0 then Stop(db, p)
      else (
        match Recover(db, x.owner, 0)
        case Match(link) => Goto(ReleaseLocks(db, p), x.(token := row.token), Finalize(link, false))
        case Conflict => Stop(WriteOwner(db, x.owner, Unclaimed(row, Failed)), p)
        case Nothing => if ClaimIsFresh(row, x.now) then Stop(db, p) else Goto(db, x, Expired))
    case PendingReview =>
      var preflight := PreflightFor(db, x.owner);
      if preflight.Pass? then Goto(ReleaseLocks(db, p), x, Promote)
      else
        var (all, one) := StaleArgs(preflight);
        Stop(WriteOwner(db, x.owner, StaleRow(row, all, one)), p)
    case _ => Stop(db, p)
  }

  function StepExpired(db: Db, p: ProcId, x: Proc, token: Token): Outcome {
    if !HasItem(db, x.owner, 0) then Stop(db, p)
    else if ItemIsStale(db, x.owner, 0) then
      Stop(WriteOwner(db, x.owner, Unclaimed(db.owners[x.owner], Stale)), p)
    else
      Goto(ReleaseLocks(GiveClaim(db, x.owner, p, token, x.now), p), x.(token := Some(token), i := 0), Fence)
  }

  function StepTakeOver(db: Db, p: ProcId, x: Proc, token: Token): Outcome
    requires x.pc.TakeOver?
  {
    if x.owner in db.owners && db.owners[x.owner].state == Executing && db.owners[x.owner].token == x.pc.seen
    then Goto(GiveClaim(db, x.owner, p, token, x.now), x.(token := Some(token)), Snapshot)
    else Stop(db, p)
  }

  function StepPromote(db: Db, p: ProcId, x: Proc, token: Token): Outcome {
    if x.owner in db.owners && db.owners[x.owner].state == PendingReview
    then Goto(GiveClaim(db, x.owner, p, token, x.now), x.(token := Some(token), i := 0), PostClaim)
    else Goto(db, x, Begin)
  }

  function StepPostClaim(db: Db, p: ProcId, x: Proc): Outcome {
    if x.owner !in db.owners then Stop(db, p)
    else
      var preflight := PreflightFor(db, x.owner);
      if preflight.Pass? then Goto(db, x, if x.owner.BatchId? then Snapshot else Fence)
      else
        var (all, one) := StaleArgs(preflight);
        Goto(db, x, MarkStale(all, one))
  }

  function StepMarkStale(db: Db, p: ProcId, x: Proc): Outcome
    requires x.pc.MarkStale?
  {
    if x.owner !in db.owners then Stop(db, p)
    else Stop(WriteOwner(db, x.owner, StaleRow(db.owners[x.owner], x.pc.all, x.pc.one)), p)
  }

  /******* Steps: the series item loop *******/

  function StepSnapshot(db: Db, p: ProcId, x: Proc): Outcome {
    if x.owner !in db.owners then Stop(db, p)
    else
      var view := States(db.owners[x.owner].items);
      if x.owner in db.world.contractHolds then Goto(db, x.(view := view, i := 0), Loop)
      else GiveUp(db, x.(view := view, i := 0), CountExecuted(view), Stale, None)
  }

  function StepLoop(db: Db, p: ProcId, x: Proc): Outcome {
    if x.i >= |x.view| then Goto(db, x, Close)
    else if x.owner !in db.world.contractHolds then GiveUp(db, x, x.i, Stale, None)
    else if OwnerFence(db, x.owner, x.token) then Goto(db, x, Inspect)
    else Stop(db, p)
  }

  ghost function StepInspect(db: Db, p: ProcId, x: Proc): Outcome {
    if !AtItem(db, x) || x.owner.SingleId? then Stop(db, p) else
    match x.view[x.i]
    case ItemExecuted =>
      if Recover(db, x.owner, x.i).Match? then Goto(db, x.(i := x.i + 1), Loop)
      else GiveUp(db, x, x.i + 1, Failed, Some((x.i, ItemFailed)))
    case ItemStale => GiveUp(db, x, x.i, Stale, Some((x.i, ItemStale)))
    case ItemFailed => GiveUp(db, x, x.i, Failed, Some((x.i, ItemFailed)))
    case ItemPending => Goto(db, x, Vet)
    case ItemExecuting => (
      match Recover(db, x.owner, x.i)
      case Match(link) => Goto(db, x, Finalize(link, false))
      case Conflict => GiveUp(db, x, x.i, Failed, Some((x.i, ItemFailed)))
      case Nothing => Goto(db, x, Vet))
  }

  function StepVet(db: Db, p: ProcId, x: Proc): Outcome {
    if !AtItem(db, x) || x.owner.SingleId? then Stop(db, p)
    else if ItemIsStale(db, x.owner, x.i) then GiveUp(db, x, x.i, Stale, Some((x.i, ItemStale)))
    else Goto(db, x, if x.view[x.i] == ItemPending then MarkItem else Fence)
  }

  function StepMarkItem(db: Db, p: ProcId, x: Proc): Outcome {
    if !AtItem(db, x) then Stop(db, p)
    else
      var row := db.owners[x.owner];
      var marked := WriteItem(row, x.i, row.items[x.i].(state := ItemExecuting));
      Goto(WriteOwner(db, x.owner, marked), x, Refresh)
  }

  function StepRefresh(db: Db, p: ProcId, x: Proc): Outcome {
    if !AtItem(db, x) || x.owner.SingleId? then Stop(db, p)
    else Goto(db, x.(view := x.view[x.i := ItemOf(db, x.owner, x.i).state]), Fence)
  }

  ghost function StepAfterError(db: Db, p: ProcId, x: Proc): Outcome {
    if !AtItem(db, x) || x.owner.SingleId? then Stop(db, p)
    else
      match Recover(db, x.owner, x.i)
      case Match(link) =>
        Goto(db, x.(view := x.view[x.i := ItemOf(db, x.owner, x.i).state]), Finalize(link, false))
      case Conflict => GiveUp(db, x, x.i, Failed, Some((x.i, ItemFailed)))
      case Nothing => Stop(db, p)
  }

  /******* Steps: `fence_execution_claim`, recheck and queue *******/

  function StepFence(db: Db, p: ProcId, x: Proc): Outcome {
    if AtItem(db, x) && OwnerFence(db, x.owner, x.token) then Goto(LockOwner(db, x.owner, p), x, OwnerHeld)
    else Stop(db, p)
  }

  function StepOwnerHeld(db: Db, p: ProcId, x: Proc): Outcome {
    if AtItem(db, x) && ItemOf(db, x.owner, x.i).target in db.revisions
    then Goto(LockTarget(db, ItemOf(db, x.owner, x.i).target, p), x, TargetHeld)
    else Stop(db, p)
  }

  function StepTargetHeld(db: Db, p: ProcId, x: Proc): Outcome {
    if !AtItem(db, x) then Stop(db, p)
    else if !Conflicting(db, ItemOf(db, x.owner, x.i).target) then Goto(db, x, Cleared)
    else
      var row := db.owners[x.owner];
      Stop(WriteOwner(db, x.owner, if x.owner.SingleId? then Unclaimed(row, Stale)
                                   else TerminalRow(row, if x.i > 0 then PartialFailed else Stale,
                                                    Some((x.i, ItemStale)))), p)
  }

  function StepCleared(db: Db, p: ProcId, x: Proc): Outcome {
    if !AtItem(db, x) then Stop(db, p)
    else Goto(ReleaseLocks(Queue(db, x.owner, x.i), p), x, Finalize(Link(|db.entries|, |db.pubs|), true))
  }

  /******* Steps: recording the outcome *******/

  function StepFinalize(db: Db, p: ProcId, x: Proc): Outcome
    requires x.pc.Finalize?
  {
    if !AtItem(db, x) then Stop(db, p)
    else if x.owner.BatchId? && x.view[x.i] == ItemExecuted then Goto(db, x.(i := x.i + 1), Loop)
    else if x.owner.BatchId? && x.view[x.i] != ItemExecuting then Stop(db, p)
    else if OwnerFence(db, x.owner, x.token) then Goto(LockOwner(db, x.owner, p), x, FinalHeld(x.pc.link, x.pc.guarded))
    else Stop(db, p)
  }

  function StepFinalHeld(db: Db, p: ProcId, x: Proc): Outcome
    requires x.pc.FinalHeld?
  {
    if !AtItem(db, x) then Stop(db, p)
    else
      var row := db.owners[x.owner];
      var item := row.items[x.i].(link := Some(x.pc.link));
      if x.owner.SingleId? then
        Stop(WriteOwner(db, x.owner, WriteItem(Unclaimed(row, Executed), x.i, item)), p)
      else
        var y := x.(view := x.view[x.i := ItemExecuted]);
        Goto(ReleaseLocks(WriteOwner(db, x.owner, WriteItem(row, x.i, item.(state := ItemExecuted))), p),
             if x.pc.guarded then y else y.(i := x.i + 1), if x.pc.guarded then Recorded else Loop)
  }

  function StepRecorded(db: Db, x: Proc): Outcome {
    Goto(db, x.(i := x.i + 1), Loop)
  }

  function StepClose(db: Db, p: ProcId, x: Proc): Outcome {
    if OwnerFence(db, x.owner, x.token) then Goto(LockOwner(db, x.owner, p), x, CloseHeld)
    else Stop(db, p)
  }

  function StepCloseHeld(db: Db, p: ProcId, x: Proc): Outcome {
    if x.owner !in db.owners then Stop(db, p)
    else Stop(WriteOwner(db, x.owner, Unclaimed(db.owners[x.owner], Executed)), p)
  }

  function TerminalRow(row: Owner, state: OwnerState, failed: Option<(nat, ItemState)>): (closed: Owner)
    ensures closed.state == state && |closed.items| == |row.items|
  {
    var closed := Unclaimed(row, state);
    if failed.Some? && failed.value.0 < |row.items|
    then WriteItem(closed, failed.value.0, row.items[failed.value.0].(state := failed.value.1))
    else closed
  }

  function StepTerminal(db: Db, p: ProcId, x: Proc): Outcome
    requires x.pc.Terminal?
  {
    if x.owner !in db.owners then Stop(db, p)
    else Stop(WriteOwner(db, x.owner, TerminalRow(db.owners[x.owner], x.pc.state, x.pc.failed)), p)
  }

  /******* One step of one process *******/

  /** A step that writes or locks the owner row waits for the row lock; so does the target fence. */
  predicate Enabled(db: Db, p: ProcId, x: Proc) {
    match x.pc
    case Begin | TakeOver(_) | Promote | MarkStale(_, _) | Fence | Close | Terminal(_, _) => OwnerFree(db, x.owner, p)
    case Finalize(_, _) =>
      (x.owner.SingleId? || (AtItem(db, x) && x.view[x.i] == ItemExecuting)) ==> OwnerFree(db, x.owner, p)
    case OwnerHeld => HasItem(db, x.owner, x.i) ==> TargetFree(db, ItemOf(db, x.owner, x.i).target, p)
    case _ => true
  }

  ghost function Advance(db: Db, p: ProcId, x: Proc, token: Token): Outcome {
    match x.pc
    case Begin => if x.owner in db.owners then Goto(LockOwner(db, x.owner, p), x, Loaded) else Stop(db, p)
    case Loaded => StepLoaded(db, p, x)
    case Expired => StepExpired(db, p, x, token)
    case TakeOver(_) => StepTakeOver(db, p, x, token)
    case Promote => StepPromote(db, p, x, token)
    case PostClaim => StepPostClaim(db, p, x)
    case MarkStale(_, _) => StepMarkStale(db, p, x)
    case Snapshot => StepSnapshot(db, p, x)
    case Loop => StepLoop(db, p, x)
    case Inspect => StepInspect(db, p, x)
    case Vet => StepVet(db, p, x)
    case MarkItem => StepMarkItem(db, p, x)
    case Refresh => StepRefresh(db, p, x)
    case Fence => StepFence(db, p, x)
    case OwnerHeld => StepOwnerHeld(db, p, x)
    case TargetHeld => StepTargetHeld(db, p, x)
    case Cleared => StepCleared(db, p, x)
    case AfterError => StepAfterError(db, p, x)
    case Finalize(_, _) => StepFinalize(db, p, x)
    case FinalHeld(_, _) => StepFinalHeld(db, p, x)
    case Recorded => StepRecorded(db, x)
    case Close => StepClose(db, p, x)
    case CloseHeld => StepCloseHeld(db, p, x)
    case Terminal(_, _) => StepTerminal(db, p, x)
  }

  /******* The whole system *******/

  datatype System = System(db: Db, procs: map<ProcId, Proc>, started: set<ProcId>)

  datatype Action =
    | Start(p: ProcId, owner: OwnerId, now: int)   // a new `approve` request
    | Move(p: ProcId, token: Token)                // one step of a running request
    | Raise(p: ProcId)                             // series: an exception that the `try` around an item catches
    | Crash(p: ProcId)                             // the process dies, or any other exception ends the request
    | Reject(owner: OwnerId)
    | Create(owner: OwnerId, row: Owner)           // insert a new approval or batch
    | ForeignSchedule(entry: Entry)                // any other code schedules something
    | ForeignPublication(publication: Publication)
    | Cancel(sid: nat)                             // any code cancels an entry
    | Drift(world: World, revisions: set<Target>)  // edits, time zone changes, passing of time

  /**
   Inside the `try` around `_queue_item` and `_finalize_item` of a series: from the commit before the
   fence to the refresh after the item's commit. The handler of a single approval writes no state, so
   an exception there is a `Crash`.
   */
  predicate CanRaise(x: Proc) {
    && x.owner.BatchId?
    && match x.pc
       case Fence | OwnerHeld | TargetHeld | Cleared | Recorded => true
       case Finalize(_, guarded) => guarded
       case FinalHeld(_, guarded) => guarded
       case _ => false
  }

  /** The insert guards: unique execution keys, one row for each content item of a batch. */
  ghost predicate CanCreate(db: Db, o: OwnerId, row: Owner) {
    && o !in db.owners
    && row.state == PendingReview && row.token == None && row.claimedAt == None
    && row.items != [] && (o.SingleId? ==> |row.items| == 1)
    && (forall i :: 0 <= i < |row.items| ==> row.items[i].state == ItemPending && row.items[i].link == None)
    && (forall i, j :: 0 <= i < j < |row.items| ==>
          row.items[i].key != row.items[j].key
          && row.items[i].target.contentItem != row.items[j].target.contentItem)
    && (forall o', i, j :: HasItem(db, o', j) && 0 <= i < |row.items| && o'.SingleId? == o.SingleId? ==>
          row.items[i].key != ItemOf(db, o', j).key)
  }

  ghost predicate Next(s: System, a: Action, s': System) {
    match a
    case Start(p, o, now) =>
      p !in s.started
      && s' == System(s.db, s.procs[p := Proc(o, now, None, Begin, 0, [])], s.started + {p})
    case Move(p, token) =>
      && p in s.procs && token !in s.db.issued && Enabled(s.db, p, s.procs[p])
      && var r := Advance(s.db, p, s.procs[p], token);
         s' == s.(db := r.db, procs := if r.next.Some? then s.procs[p := r.next.value] else s.procs - {p})
    case Raise(p) =>
      && p in s.procs && CanRaise(s.procs[p])
      && s' == s.(db := ReleaseLocks(s.db, p), procs := s.procs[p := s.procs[p].(pc := AfterError)])
    case Crash(p) => p in s.procs && s' == s.(db := ReleaseLocks(s.db, p), procs := s.procs - {p})
    case Reject(o) =>
      && o in s.db.owners && o !in s.db.ownerLocks && s.db.owners[o].state == PendingReview
      && s' == s.(db := WriteOwner(s.db, o, Unclaimed(s.db.owners[o], Rejected)))
    case Create(o, row) => CanCreate(s.db, o, row) && s' == s.(db := WriteOwner(s.db, o, row))
    case ForeignSchedule(entry) =>
      entry.maker == Foreign && s' == s.(db := s.db.(entries := s.db.entries + [entry]))
    case ForeignPublication(publication) =>
      publication.maker == Foreign && s' == s.(db := s.db.(pubs := s.db.pubs + [publication]))
    case Cancel(sid) =>
      && sid < |s.db.entries|
      && s' == s.(db := s.db.(entries := s.db.entries[sid := s.db.entries[sid].(cancelled := true)]))
    case Drift(world, revisions) => s' == s.(db := s.db.(world := world, revisions := revisions))
  }

  ghost predicate Initial(s: System) {
    && s.db.owners == map[] && s.db.entries == [] && s.db.pubs == []
    && s.db.ownerLocks == map[] && s.db.targetLocks == map[] && s.db.issued == map[] && s.db.made == map[]
    && s.procs == map[] && s.started == {}
  }

  /** A run: `states[k + 1]` follows from `states[k]` by `actions[k]`. */
  ghost predicate IsRun(states: seq<System>, actions: seq<Action>) {
    && |states| == |actions| + 1
    && Initial(states[0])
    && forall k :: 0 <= k < |actions| ==> Next(states[k], actions[k], states[k + 1])
  }
}
