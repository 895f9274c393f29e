/**
 The durable rows that the approval executors share: approval owners (single approvals and
 series batches), canonical schedule entries and publications, row locks and claim tokens.

 A single approval is an owner with one item whose item state is never used; a series batch is
 an owner with one item for each ordinal (item `i` has ordinal `i + 1`).
 */
module ScheduleStore {
  import opened Wrappers

  type Token = nat
  type ProcId = nat

  /** Microseconds: `_EXECUTION_CLAIM_SECONDS`. */
  const LEASE: int := 30_000_000

  datatype OwnerId = SingleId(single: nat) | BatchId(batch: nat)
  datatype Target = Target(contentItem: nat, revision: nat)
  datatype Slot = Slot(at: int, timezone: string)
  datatype Link = Link(schedule: nat, publication: nat)

  datatype ItemState = ItemPending | ItemExecuting | ItemExecuted | ItemStale | ItemFailed
  datatype Item = Item(target: Target, slot: Slot, key: string, state: ItemState, link: Option<Link>)

  datatype OwnerState = PendingReview | Executing | Executed | Rejected | Stale | PartialFailed | Failed
  datatype Owner = Owner(
    channel: nat,
    state: OwnerState,
    token: Option<Token>,
    claimedAt: Option<int>,
    items: seq<Item>)

  /** What the metadata of a schedule entry or publication says about who made it. */
  datatype Maker = Foreign | Made(owner: OwnerId, ordinal: nat, key: string)

  datatype Entry = Entry(target: Target, channel: nat, slot: Slot, cancelled: bool, maker: Maker)
  datatype Publication = Publication(target: Target, channel: nat, schedule: Option<nat>, maker: Maker)

  /** The answers of the checks on source run, artifacts, drafts, documents, time zone and clock. */
  datatype World = World(contractHolds: set<OwnerId>, eligible: set<(OwnerId, nat)>)

  /**
   `entries` and `pubs` are indexed by row id. `issued` and `made` are history: who drew each
   claim token, and which pair was created for each item.
   */
  datatype Db = Db(
    owners: map<OwnerId, Owner>,
    entries: seq<Entry>,
    pubs: seq<Publication>,
    revisions: set<Target>,
    ownerLocks: map<OwnerId, ProcId>,
    targetLocks: map<Target, ProcId>,
    issued: map<Token, ProcId>,
    made: map<(OwnerId, nat), Link>,
    world: World)

  predicate HasItem(db: Db, o: OwnerId, i: nat) {
    o in db.owners && i < |db.owners[o].items|
  }

  function ItemOf(db: Db, o: OwnerId, i: nat): Item
    requires HasItem(db, o, i)
  {
    db.owners[o].items[i]
  }

  /******* Queries *******/

  /** `_conflicting_schedule_exists`: any entry on the target that is not cancelled. */
  predicate Conflicting(db: Db, target: Target) {
    exists sid :: 0 <= sid < |db.entries| && db.entries[sid].target == target && !db.entries[sid].cancelled
  }

  /** The two executors write the key under different metadata names, so neither sees the other's rows. */
  predicate Carries(maker: Maker, o: OwnerId, key: string) {
    maker.Made? && maker.owner.SingleId? == o.SingleId? && maker.key == key
  }

  function SchedulesWithKey(db: Db, o: OwnerId, item: Item): set<nat> {
    set sid: nat | sid < |db.entries| && db.entries[sid].target == item.target
                   && Carries(db.entries[sid].maker, o, item.key)
  }

  function PublicationsWithKey(db: Db, o: OwnerId, item: Item): set<nat> {
    set pid: nat | pid < |db.pubs| && db.pubs[pid].target == item.target
                   && Carries(db.pubs[pid].maker, o, item.key)
  }

  /**
   The field comparison of `_recover_existing`. The single form compares neither time zone nor
   status; the series form does both and compares all metadata, here the whole maker.
   */
  predicate PairMatches(db: Db, o: OwnerId, i: nat, link: Link)
    requires HasItem(db, o, i) && link.schedule < |db.entries| && link.publication < |db.pubs|
  {
    var item := ItemOf(db, o, i);
    var entry, pub := db.entries[link.schedule], db.pubs[link.publication];
    && pub.schedule == Some(link.schedule)
    && entry.channel == pub.channel == db.owners[o].channel
    && entry.slot.at == item.slot.at
    && entry.maker.Made? && entry.maker.owner == o
    && pub.maker.Made? && pub.maker.owner == o
    && (o.BatchId? ==>
          && entry.slot.timezone == item.slot.timezone
          && !entry.cancelled
          && entry.maker == pub.maker == Made(o, i, item.key))
  }

  datatype Recovery = Nothing | Conflict | Match(link: Link)

  ghost function Recover(db: Db, o: OwnerId, i: nat): Recovery
    requires HasItem(db, o, i)
  {
    var schedules := SchedulesWithKey(db, o, ItemOf(db, o, i));
    var publications := PublicationsWithKey(db, o, ItemOf(db, o, i));
    if schedules == {} && publications == {} then Nothing
    else if |schedules| != 1 || |publications| != 1 then Conflict
    else
      var sid: nat :| sid in schedules;
      var pid: nat :| pid in publications;
      if PairMatches(db, o, i, Link(sid, pid)) then Match(Link(sid, pid)) else Conflict
  }

  /** `_stale_reason` and `_item_stale_reason`: is there any reason not to schedule item `i`? */
  predicate ItemIsStale(db: Db, o: OwnerId, i: nat)
    requires HasItem(db, o, i)
  {
    var target := ItemOf(db, o, i).target;
    (o, i) !in db.world.eligible || target !in db.revisions || Conflicting(db, target)
  }

  predicate ClaimIsFresh(row: Owner, now: int) {
    row.claimedAt.Some? && now - row.claimedAt.value < LEASE && row.token.Some?
  }

  /******* The guarded and unguarded writes *******/

  /** The guard of the owner UPDATE in `fence_execution_claim`. */
  predicate OwnerFence(db: Db, o: OwnerId, token: Option<Token>) {
    o in db.owners && db.owners[o].state == Executing && token.Some? && db.owners[o].token == token
  }

  predicate OwnerFree(db: Db, o: OwnerId, p: ProcId) {
    o in db.ownerLocks ==> db.ownerLocks[o] == p
  }

  predicate TargetFree(db: Db, target: Target, p: ProcId) {
    target in db.targetLocks ==> db.targetLocks[target] == p
  }

  function LockOwner(db: Db, o: OwnerId, p: ProcId): Db {
    db.(ownerLocks := db.ownerLocks[o := p])
  }

  function LockTarget(db: Db, target: Target, p: ProcId): Db {
    db.(targetLocks := db.targetLocks[target := p])
  }

  /** Commit, rollback and crash all give up every row lock of the transaction. */
  function ReleaseLocks(db: Db, p: ProcId): Db {
    db.(ownerLocks := map o | o in db.ownerLocks && db.ownerLocks[o] != p :: db.ownerLocks[o],
        targetLocks := map t | t in db.targetLocks && db.targetLocks[t] != p :: db.targetLocks[t])
  }

  function WriteOwner(db: Db, o: OwnerId, row: Owner): Db {
    db.(owners := db.owners[o := row])
  }

  function WriteItem(row: Owner, i: nat, item: Item): Owner
    requires i < |row.items|
  {
    row.(items := row.items[i := item])
  }

  /** Leave the claimed state: every such write also clears the claim columns. */
  function Unclaimed(row: Owner, state: OwnerState): Owner {
    row.(state := state, token := None, claimedAt := None)
  }

  /** Put a fresh token drawn by `p` on the row. */
  function GiveClaim(db: Db, o: OwnerId, p: ProcId, token: Token, now: int): Db
    requires o in db.owners
  {
    WriteOwner(db, o, db.owners[o].(state := Executing, token := Some(token), claimedAt := Some(now)))
      .(issued := db.issued[token := p])
  }

  /** `LegacyPublicationBridge.queue` as its callers state it: insert one linked pair and commit. */
  function Queue(db: Db, o: OwnerId, i: nat): Db
    requires HasItem(db, o, i)
  {
    var item := ItemOf(db, o, i);
    var maker := Made(o, i, item.key);
    var sid, pid := |db.entries|, |db.pubs|;
    db.(entries := db.entries + [Entry(item.target, db.owners[o].channel, item.slot, false, maker)],
        pubs := db.pubs + [Publication(item.target, db.owners[o].channel, Some(sid), maker)],
        made := db.made[(o, i) := Link(sid, pid)])
  }

  /** The batch item writes of `_mark_stale`: pending items become stale. */
  function StaleItems(items: seq<Item>): (r: seq<Item>)
    ensures |r| == |items|
    ensures forall i :: 0 <= i < |items| ==>
      r[i] == if items[i].state == ItemPending then items[i].(state := ItemStale) else items[i]
  {
    seq(|items|, i requires 0 <= i < |items| =>
      if items[i].state == ItemPending then items[i].(state := ItemStale) else items[i])
  }
}
