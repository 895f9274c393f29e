/**
 What an uncontended `approve` of a series batch is to achieve: which batches can be completed, and
 the tables that completing the missing items gives. Solo runs of one process are runs of the
 protocol in which no other process moves.
 */
module SeriesCompletion {
  import opened Wrappers
  import opened ScheduleStore
  import opened ScheduleProtocol
  import opened ScheduleInvariant
  import opened ScheduleSteps
  import opened ScheduleSafety

  /******* Specification *******/

  /** The checks of the outside world hold, the revision exists, and every schedule entry on it is cancelled. */
  ghost predicate Schedulable(db: Db, o: OwnerId, i: nat)
    requires HasItem(db, o, i)
  {
    var target := db.owners[o].items[i].target;
    && (o, i) in db.world.eligible && target in db.revisions
    && forall sid :: 0 <= sid < |db.entries| && db.entries[sid].target == target ==> db.entries[sid].cancelled
  }

  lemma SchedulableIs(db: Db, o: OwnerId, i: nat)
    requires HasItem(db, o, i)
    ensures Schedulable(db, o, i) <==> !ItemIsStale(db, o, i)
    ensures Schedulable(db, o, i) ==>
      ItemOf(db, o, i).target in db.revisions && !Conflicting(db, ItemOf(db, o, i).target)
  {
  }

  /** The process that drew the token still owns the claim. */
  predicate ClaimStands(db: Db, o: OwnerId, claim: Token) {
    o in db.owners && db.owners[o].state == Executing && db.owners[o].token == Some(claim)
  }

  /** The row with another state and without its claim. */
  function Closed(row: Owner, state: OwnerState): Owner {
    Owner(row.channel, state, None, None, row.items)
  }

  /** Every item either has its pair, still intact, or can be scheduled now. */
  ghost predicate ItemCompletable(db: Db, o: OwnerId, i: nat)
    requires HasItem(db, o, i)
  {
    match Recover(db, o, i)
    case Match(_) => true
    case Nothing => Schedulable(db, o, i)
    case Conflict => false
  }

  ghost predicate Completable(db: Db, o: OwnerId)
    requires o in db.owners
  {
    && o in db.world.contractHolds
    && forall i: nat :: i < |db.owners[o].items| ==> ItemCompletable(db, o, i)
  }

  /** The first item from `i` on that cannot be completed, or the number of items. */
  ghost function Reach(db: Db, o: OwnerId, i: nat): (r: nat)
    requires o in db.owners && i <= |db.owners[o].items|
    ensures i <= r <= |db.owners[o].items|
    ensures forall j: nat :: i <= j < r ==> ItemCompletable(db, o, j)
    ensures r < |db.owners[o].items| ==> !ItemCompletable(db, o, r)
    decreases |db.owners[o].items| - i
  {
    if i < |db.owners[o].items| && ItemCompletable(db, o, i) then Reach(db, o, i + 1) else i
  }

  /******* Where an execution stops *******/

  /** Some item was completed before: an earlier one, or the item itself, whose pair is spoiled now. */
  ghost predicate AfterSuccess(db: Db, o: OwnerId, k: nat)
    requires HasItem(db, o, k)
  {
    k > 0 || ItemOf(db, o, k).state == ItemExecuted
  }

  ghost function StopState(db: Db, o: OwnerId, k: nat): OwnerState
    requires HasItem(db, o, k)
  {
    if AfterSuccess(db, o, k) then PartialFailed else if Recover(db, o, k).Conflict? then Failed else Stale
  }

  ghost function StopItemState(db: Db, o: OwnerId, k: nat): ItemState
    requires HasItem(db, o, k)
  {
    if Recover(db, o, k).Conflict? then ItemFailed else ItemStale
  }

  /** A spoiled pair, and a reason not to schedule an item that has none. */
  lemma StopsAs(db: Db, o: OwnerId, k: nat)
    requires HasItem(db, o, k)
    ensures Recover(db, o, k).Conflict? ==>
      && StopItemState(db, o, k) == ItemFailed
      && StopState(db, o, k) == if k > 0 || ItemOf(db, o, k).state == ItemExecuted then PartialFailed else Failed
    ensures Recover(db, o, k).Nothing? && ItemOf(db, o, k).state != ItemExecuted ==>
      StopItemState(db, o, k) == ItemStale && StopState(db, o, k) == if k > 0 then PartialFailed else Stale
  {
    hide Recover;
  }

  /** The row of a batch whose execution has stopped at item `k`, by ordinal. */
  ghost predicate StoppedRow(db: Db, o: OwnerId, k: nat, made: Made, after: Owner)
    requires HasItem(db, o, k)
  {
    var spoiled := Recover(db, o, k).Conflict?;
    && (after.state == PartialFailed <==> AfterSuccess(db, o, k))
    && (after.state == Failed <==> !AfterSuccess(db, o, k) && spoiled)
    && (after.state == Stale <==> !AfterSuccess(db, o, k) && !spoiled)
    && after.token == None && after.claimedAt == None && after.channel == db.owners[o].channel
    && |after.items| == |db.owners[o].items|
    && forall i: nat :: i < |after.items| ==>
         var item := db.owners[o].items[i];
         if i < k then (o, i) in made && after.items[i] == item.(state := ItemExecuted, link := Some(made[(o, i)]))
         else if i == k then after.items[i] == item.(state := if spoiled then ItemFailed else ItemStale)
         else after.items[i] == item
  }

  /** The row of a batch whose source contract is broken: no item is touched. */
  ghost predicate BrokenRow(before: Owner, after: Owner) {
    && after == before.(state := after.state, token := None, claimedAt := None)
    && (after.state == PartialFailed <==> exists i :: 0 <= i < |before.items| && before.items[i].state == ItemExecuted)
    && (after.state == Stale <==> forall i :: 0 <= i < |before.items| ==> before.items[i].state != ItemExecuted)
  }

  /** The row of an executing batch that could not be completed. */
  ghost predicate UnfinishedRow(db: Db, o: OwnerId, made: Made, after: Owner)
    requires o in db.owners && !Completable(db, o)
  {
    if o in db.world.contractHolds then StoppedRow(db, o, Reachable(db, o), made, after)
    else BrokenRow(db.owners[o], after)
  }

  /** The row of a pending batch that failed its preflight: all items are stale, or the first bad one. */
  ghost predicate RefusedRow(db: Db, o: OwnerId, after: Owner)
    requires o in db.owners && !Completable(db, o)
  {
    && after.state == Stale && after.token == None && after.claimedAt == None && after.channel == db.owners[o].channel
    && |after.items| == |db.owners[o].items|
    && forall i: nat :: i < |after.items| ==>
         var item := db.owners[o].items[i];
         after.items[i] ==
         if o !in db.world.contractHolds || i == Reachable(db, o) then item.(state := ItemStale) else item
  }

  /** How many items an uncontended execution completes. */
  ghost function Reachable(db: Db, o: OwnerId): (r: nat)
    requires o in db.owners
    ensures r <= |db.owners[o].items|
    ensures Completable(db, o) ==> r == |db.owners[o].items|
    ensures o in db.world.contractHolds && r == |db.owners[o].items| ==> Completable(db, o)
  {
    if o in db.world.contractHolds then Reach(db, o, 0) else 0
  }

  /** The tables after the missing pairs of items `0 .. k` have been created, in ordinal order. */
  ghost function Completed(db: Db, o: OwnerId, k: nat): (r: Db)
    requires o in db.owners && k <= |db.owners[o].items|
    ensures r.owners == db.owners
  {
    if k == 0 then db
    else
      var before := Completed(db, o, k - 1);
      if Recover(db, o, k - 1).Nothing? then Queue(before, o, k - 1) else before
  }

  lemma {:induction false} CompletedMade(db: Db, o: OwnerId, k: nat)
    requires DbInv(db) && o in db.owners && k <= |db.owners[o].items|
    ensures forall o', i: nat :: (o', i) in Completed(db, o, k).made <==> (o', i) in db.made || (o' == o && i < k)
    ensures forall o', i: nat :: (o', i) in db.made ==> Completed(db, o, k).made[(o', i)] == db.made[(o', i)]
  {
    hide Recover, DbInv;
    if k > 0 {
      CompletedMade(db, o, k - 1);
      RecoverExact(db, o, k - 1);
    }
  }

  lemma {:induction false} CompletedRows(db: Db, o: OwnerId, k: nat)
    requires o in db.owners && k <= |db.owners[o].items|
    ensures var r := Completed(db, o, k);
      && r == db.(entries := r.entries, pubs := r.pubs, made := r.made)
      && |db.entries| <= |r.entries| && |db.pubs| <= |r.pubs|
      && (forall sid :: 0 <= sid < |db.entries| ==> r.entries[sid] == db.entries[sid])
      && (forall pid :: 0 <= pid < |db.pubs| ==> r.pubs[pid] == db.pubs[pid])
  {
    hide Recover;
    if k > 0 {
      CompletedRows(db, o, k - 1);
    }
  }

  lemma {:induction false} CompletedTargets(db: Db, o: OwnerId, k: nat, sid: nat) returns (i: nat)
    requires o in db.owners && k <= |db.owners[o].items| && |db.entries| <= sid < |Completed(db, o, k).entries|
    ensures i < k && Completed(db, o, k).entries[sid].target == db.owners[o].items[i].target
  {
    hide Recover;
    if sid < |Completed(db, o, k - 1).entries| {
      i := CompletedTargets(db, o, k - 1, sid);
    } else {
      i := k - 1;
    }
  }

  lemma RecoverKept(db: Db, r: Db, o: OwnerId, j: nat)
    requires DbInv(db) && DbInv(r) && HasItem(db, o, j) && HasItem(r, o, j)
    requires (o, j) in r.made <==> (o, j) in db.made
    requires (o, j) in db.made ==> r.made[(o, j)] == db.made[(o, j)]
    requires forall sid :: 0 <= sid < |db.entries| ==> sid < |r.entries| && r.entries[sid] == db.entries[sid]
    ensures Recover(r, o, j) == Recover(db, o, j)
  {
    RecoverExact(db, o, j);
    RecoverExact(r, o, j);
    hide Recover;
    if (o, j) in db.made {
      MadeHasItem(db, o, j);
      assert MadeInv(db.owners, db.entries, db.pubs, o, j, db.made[(o, j)]);
    }
  }

  /** Item `i` settled: its pair exists, created now if it was missing, and the row records it. */
  ghost function ItemDone(db: Db, o: OwnerId, i: nat): Db
    requires HasItem(db, o, i)
  {
    var found := Recover(db, o, i);
    var link := if found.Match? then found.link else Link(|db.entries|, |db.pubs|);
    var queued := if found.Match? then db else Queue(db, o, i);
    WriteOwner(queued, o, WriteItem(db.owners[o], i, ItemOf(db, o, i).(state := ItemExecuted, link := Some(link))))
  }

  ghost function Progress(db: Db, o: OwnerId, k: nat): (r: Db)
    requires o in db.owners && k <= |db.owners[o].items|
    ensures o in r.owners && |r.owners[o].items| == |db.owners[o].items|
  {
    if k == 0 then db else ItemDone(Progress(db, o, k - 1), o, k - 1)
  }

  /** The rows of two table states describe the same intents and the same pairs. */
  ghost predicate SameIntents(db: Db, r: Db, o: OwnerId) {
    && o in db.owners && o in r.owners && r.owners[o].channel == db.owners[o].channel
    && |r.owners[o].items| == |db.owners[o].items|
    && (forall i :: 0 <= i < |db.owners[o].items| ==>
          && r.owners[o].items[i].target == db.owners[o].items[i].target
          && r.owners[o].items[i].slot == db.owners[o].items[i].slot
          && r.owners[o].items[i].key == db.owners[o].items[i].key)
    && r.world == db.world && r.revisions == db.revisions
  }

  ghost predicate SamePairs(db: Db, r: Db) {
    r.entries == db.entries && r.pubs == db.pubs && r.made == db.made
  }

  /** The first `k` items are settled in the row as recorded in `made`, the others untouched. */
  ghost predicate Settled(made: Made, o: OwnerId, before: Owner, after: Owner, k: nat) {
    && |after.items| == |before.items|
    && after == before.(items := after.items)
    && forall i: nat :: i < |before.items| ==>
         if i < k then
           (o, i) in made && after.items[i] == before.items[i].(state := ItemExecuted, link := Some(made[(o, i)]))
         else after.items[i] == before.items[i]
  }

  lemma ItemDoneEffect(db: Db, o: OwnerId, i: nat)
    requires DbInv(db) && HasItem(db, o, i) && !Recover(db, o, i).Conflict?
    ensures var r := ItemDone(db, o, i);
      && SamePairs(if Recover(db, o, i).Nothing? then Queue(db, o, i) else db, r)
      && r == db.(owners := r.owners, entries := r.entries, pubs := r.pubs, made := r.made)
      && (o, i) in r.made
      && (forall j: nat :: (o, j) in db.made ==> (o, j) in r.made && r.made[(o, j)] == db.made[(o, j)])
      && r.owners == db.owners[o := WriteItem(db.owners[o], i,
                                    ItemOf(db, o, i).(state := ItemExecuted, link := Some(r.made[(o, i)])))]
  {
    RecoverExact(db, o, i);
    hide Recover, DbInv;
  }

  /** What the settled rows look like, item by item. */
  ghost predicate ProgressShape(db: Db, o: OwnerId, k: nat, r: Db)
    requires o in db.owners
  {
    && r == db.(owners := r.owners, entries := r.entries, pubs := r.pubs, made := r.made)
    && o in r.owners && |r.owners[o].items| == |db.owners[o].items|
    && r.owners == db.owners[o := r.owners[o]] && Settled(r.made, o, db.owners[o], r.owners[o], k)
  }

  lemma ShapeKeepsIntents(db: Db, o: OwnerId, k: nat, r: Db)
    requires o in db.owners && ProgressShape(db, o, k, r)
    ensures SameIntents(db, r, o)
  {
  }

  lemma {:induction false} ProgressIsCompleted(db: Db, o: OwnerId, k: nat)
    requires o in db.owners && k <= |db.owners[o].items|
    requires DbInv(db) && forall j: nat :: j < k ==> DbInv(Progress(db, o, j))
    requires forall j: nat :: j < k ==> ItemCompletable(db, o, j)
    ensures SamePairs(Completed(db, o, k), Progress(db, o, k))
    ensures ProgressShape(db, o, k, Progress(db, o, k)) && SameIntents(db, Progress(db, o, k), o)
    ensures k < |db.owners[o].items| && DbInv(Progress(db, o, k)) ==>
      ItemCompletable(Progress(db, o, k), o, k) == ItemCompletable(db, o, k)
  {
    hide Recover, DbInv, ItemDone;
    if k > 0 {
      ProgressIsCompleted(db, o, k - 1);
      var r := Progress(db, o, k - 1);
      CompletedMade(db, o, k - 1);
      RecoverKeptLater(db, r, o, k - 1, k - 1);
      ItemDoneEffect(r, o, k - 1);
      ItemDoneShape(db, o, k - 1, r, Progress(db, o, k));
    }
    ShapeKeepsIntents(db, o, k, Progress(db, o, k));
    if k < |db.owners[o].items| && DbInv(Progress(db, o, k)) {
      CompletableLater(db, Progress(db, o, k), o, k);
    }
  }

  lemma ItemDoneShape(db: Db, o: OwnerId, i: nat, r: Db, r': Db)
    requires HasItem(db, o, i) && ProgressShape(db, o, i, r)
    requires r' == r.(owners := r'.owners, entries := r'.entries, pubs := r'.pubs, made := r'.made)
    requires (o, i) in r'.made
    requires forall j: nat :: (o, j) in r.made ==> (o, j) in r'.made && r'.made[(o, j)] == r.made[(o, j)]
    requires r'.owners == r.owners[o := WriteItem(r.owners[o], i,
                                    ItemOf(r, o, i).(state := ItemExecuted, link := Some(r'.made[(o, i)])))]
    ensures ProgressShape(db, o, i + 1, r')
  {
  }

  lemma RecoverKeptLater(db: Db, r: Db, o: OwnerId, k: nat, j: nat)
    requires DbInv(db) && DbInv(r) && o in db.owners && k <= j < |db.owners[o].items|
    requires SameIntents(db, r, o) && SamePairs(Completed(db, o, k), r)
    ensures Recover(r, o, j) == Recover(db, o, j)
  {
    hide Recover, DbInv;
    CompletedMade(db, o, k);
    CompletedRows(db, o, k);
    RecoverKept(db, r, o, j);
  }

  /** Settling earlier items changes nothing about whether item `k` is completable. */
  lemma CompletableLater(db: Db, r: Db, o: OwnerId, k: nat)
    requires DbInv(db) && DbInv(r) && o in db.owners && k < |db.owners[o].items|
    requires SameIntents(db, r, o) && SamePairs(Completed(db, o, k), r)
    ensures ItemCompletable(r, o, k) == ItemCompletable(db, o, k)
  {
    hide Recover;
    RecoverKeptLater(db, r, o, k, k);
    CompletedRows(db, o, k);
    KnownRow(db, o);
    hide DbInv;
    var t := ItemOf(db, o, k).target;
    forall sid | 0 <= sid < |r.entries| && r.entries[sid].target == t
      ensures sid < |db.entries| && r.entries[sid] == db.entries[sid]
    {
      if |db.entries| <= sid {
        var i := CompletedTargets(db, o, k, sid);
      }
    }
    assert forall sid :: 0 <= sid < |db.entries| ==> r.entries[sid] == db.entries[sid];
  }

  lemma {:induction false} CompletedSame(db: Db, r: Db, o: OwnerId, k: nat)
    requires DbInv(db) && DbInv(r) && SameIntents(db, r, o) && SamePairs(db, r) && k <= |db.owners[o].items|
    ensures SamePairs(Completed(db, o, k), Completed(r, o, k))
  {
    hide Recover, DbInv;
    if k > 0 {
      CompletedSame(db, r, o, k - 1);
      RecoverKept(db, r, o, k - 1);
    }
  }

  lemma CompletableSame(db: Db, r: Db, o: OwnerId)
    requires DbInv(db) && DbInv(r) && SameIntents(db, r, o) && SamePairs(db, r)
    ensures Completable(db, o) == Completable(r, o)
  {
    hide Recover, DbInv;
    forall i: nat | i < |db.owners[o].items|
      ensures ItemCompletable(db, o, i) == ItemCompletable(r, o, i)
    {
      RecoverKept(db, r, o, i);
    }
  }

  /******* Solo runs of one process *******/

  ghost predicate SoloStep(p: ProcId, a: Outcome, b: Outcome) {
    && a.next.Some? && Enabled(a.db, p, a.next.value)
    && exists token :: token !in a.db.issued && b == Advance(a.db, p, a.next.value, token)
  }

  ghost predicate Solo(p: ProcId, trace: seq<Outcome>) {
    && trace != []
    && forall k :: 0 <= k < |trace| - 1 ==> SoloStep(p, trace[k], trace[k + 1])
  }

  /** A solo run, appended to any run whose last state starts it, is a run of the whole system. */
  lemma {:induction false} SoloExtendsRun(states: seq<System>, actions: seq<Action>, p: ProcId, trace: seq<Outcome>)
      returns (states': seq<System>, actions': seq<Action>)
    requires IsRun(states, actions) && Solo(p, trace)
    requires states[|actions|].db == trace[0].db && trace[0].next.Some?
    requires p in states[|actions|].procs && states[|actions|].procs[p] == trace[0].next.value
    ensures IsRun(states', actions') && states <= states' && actions <= actions'
    ensures states'[|actions'|].db == trace[|trace| - 1].db
    ensures forall q :: q != p ==> (q in states'[|actions'|].procs <==> q in states[|actions|].procs)
    decreases |trace|
  {
    hide Advance, Enabled, Initial;
    if |trace| == 1 {
      states', actions' := states, actions;
    } else {
      var s, a, b := states[|actions|], trace[0], trace[1];
      assert SoloStep(p, a, b);
      var token :| token !in a.db.issued && b == Advance(a.db, p, a.next.value, token);
      var s' := s.(db := b.db, procs := if b.next.Some? then s.procs[p := b.next.value] else s.procs - {p});
      assert Next(s, Move(p, token), s');
      var more, moves := states + [s'], actions + [Move(p, token)];
      assert IsRun(more, moves);
      if |trace| == 2 {
        states', actions' := more, moves;
      } else {
        assert SoloStep(p, trace[1], trace[2]);
        assert Solo(p, trace[1..]) by {
          forall k | 0 <= k < |trace[1..]| - 1
            ensures SoloStep(p, trace[1..][k], trace[1..][k + 1])
          {
            assert SoloStep(p, trace[k + 1], trace[k + 2]);
          }
        }
        states', actions' := SoloExtendsRun(more, moves, p, trace[1..]);
      }
    }
  }

  lemma FreshToken(issued: map<Token, ProcId>) returns (token: Token)
    ensures token !in issued
  {
    token := FreshAbove(issued.Keys);
  }

  lemma FreshAbove(used: set<Token>) returns (token: Token)
    ensures forall t :: t in used ==> t < token
  {
    if used == {} {
      token := 0;
    } else {
      var t :| t in used;
      var above := FreshAbove(used - {t});
      assert used == (used - {t}) + {t};
      token := if above <= t then t + 1 else above;
    }
  }

  /** Somebody drew a token for the row less than 30 seconds ago. */
  predicate InLease(row: Owner, now: int) {
    row.token.Some? && row.claimedAt.Some? && now < row.claimedAt.value + 30_000_000
  }

  /** The request has something to do: a pending batch, or an executing one whose lease is over. */
  predicate Actionable(db: Db, o: OwnerId, now: int) {
    o in db.owners
    && (db.owners[o].state == PendingReview || (db.owners[o].state == Executing && !InLease(db.owners[o], now)))
  }

  /** Every item of the row is executed and names its recorded pair; its intent is unchanged. */
  ghost predicate ItemsSettled(made: Made, o: OwnerId, before: Owner, after: Owner) {
    && |after.items| == |before.items| && after.channel == before.channel
    && after.token == None && after.claimedAt == None
    && forall i: nat :: i < |before.items| ==>
         (o, i) in made && after.items[i] == before.items[i].(state := ItemExecuted, link := Some(made[(o, i)]))
  }

  lemma SettledFromClaim(before: Db, claimed: Db, after: Db, o: OwnerId)
    requires o in before.owners && o in claimed.owners && o in after.owners
    requires claimed.owners[o].items == before.owners[o].items
    requires claimed.owners[o].channel == before.owners[o].channel
    ensures Settled(after.made, o, Closed(claimed.owners[o], Executed), after.owners[o], |claimed.owners[o].items|)
      ==> ItemsSettled(after.made, o, before.owners[o], after.owners[o])
  {
  }

  /** The preflight reads only items, entries and the outside world. */
  lemma {:induction false} PreflightReads(db: Db, r: Db, o: OwnerId, i: nat)
    requires o in db.owners && o in r.owners && r.owners[o].items == db.owners[o].items && i <= |db.owners[o].items|
    requires r.entries == db.entries && r.revisions == db.revisions && r.world == db.world
    ensures FullPreflight(r, o, i) == FullPreflight(db, o, i)
    ensures i == 0 && o.BatchId? ==> PreflightFor(r, o) == PreflightFor(db, o)
    decreases |db.owners[o].items| - i
  {
    if i < |db.owners[o].items| {
      PreflightReads(db, r, o, i + 1);
    }
  }

  lemma {:induction false} PreflightIsCompletable(db: Db, o: OwnerId, i: nat)
    requires DbInv(db) && o in db.owners && o.BatchId? && i <= |db.owners[o].items|
    requires forall j: nat :: j < |db.owners[o].items| ==> db.owners[o].items[j].state == ItemPending
    ensures FullPreflight(db, o, i).Pass? <==>
      && (i == 0 ==> o in db.world.contractHolds)
      && forall j: nat :: i <= j < |db.owners[o].items| ==> ItemCompletable(db, o, j)
    decreases |db.owners[o].items| - i
  {
    if i < |db.owners[o].items| {
      PendingHasNothing(db, o, i);
      hide Recover, DbInv;
      PreflightIsCompletable(db, o, i + 1);
      SchedulableIs(db, o, i);
      assert ItemCompletable(db, o, i) <==> !ItemIsStale(db, o, i);
    }
  }

  /** For a pending batch the preflight passes exactly when the batch is completable. */
  lemma PendingCompletable(db: Db, o: OwnerId)
    requires DbInv(db) && o in db.owners && o.BatchId?
    ensures db.owners[o].state == PendingReview ==> (PreflightFor(db, o).Pass? <==> Completable(db, o))
  {
    if db.owners[o].state == PendingReview {
      KnownRow(db, o);
      hide ItemCompletable, DbInv;
      PreflightIsCompletable(db, o, 0);
    }
  }

  /** Claiming the batch changes neither what is completable nor what completing it creates. */
  lemma ClaimKeepsIntents(db: Db, claimed: Db, o: OwnerId, p: ProcId, token: Token, now: int)
    requires o in db.owners && claimed == GiveClaim(db, o, p, token, now)
    ensures SameIntents(db, claimed, o) && o in claimed.owners && claimed.owners[o].items == db.owners[o].items
    ensures claimed.world == db.world && claimed.revisions == db.revisions && SamePairs(db, claimed)
  {
  }

  lemma ClaimKeepsSpec(db: Db, claimed: Db, o: OwnerId, p: ProcId, token: Token, now: int)
    requires DbInv(db) && DbInv(claimed) && o in db.owners && claimed == GiveClaim(db, o, p, token, now)
    ensures Completable(claimed, o) == Completable(db, o)
    ensures SamePairs(Completed(db, o, Reachable(db, o)), Completed(claimed, o, Reachable(db, o)))
    ensures Reachable(claimed, o) == Reachable(db, o)
    ensures PreflightFor(claimed, o) == PreflightFor(db, o)
    ensures claimed.owners[o].items == db.owners[o].items
  {
    hide DbInv, Completed, Completable, ItemCompletable, FullPreflight, Recover, Reach, SamePairs, SameIntents;
    ClaimKeepsIntents(db, claimed, o, p, token, now);
    CompletableSame(db, claimed, o);
    CompletedSame(db, claimed, o, Reachable(db, o));
    ReachSame(db, claimed, o, 0);
    PreflightReads(db, claimed, o, 0);
  }

  lemma {:induction false} ReachSame(db: Db, r: Db, o: OwnerId, i: nat)
    requires DbInv(db) && DbInv(r) && SameIntents(db, r, o) && SamePairs(db, r) && i <= |db.owners[o].items|
    ensures Reach(r, o, i) == Reach(db, o, i)
    decreases |db.owners[o].items| - i
  {
    hide Recover, DbInv;
    if i < |db.owners[o].items| {
      RecoverKept(db, r, o, i);
      ReachSame(db, r, o, i + 1);
    }
  }

  lemma FinishFacts(before: Db, o: OwnerId, claim: Token)
    requires o in before.owners && DbInv(before) && NoLocks(before) && OwnerFence(before, o, Some(claim))
    requires o in before.world.contractHolds
    requires forall j: nat :: j < |before.owners[o].items| ==>
      ItemCompletable(before, o, j) && DbInv(Progress(before, o, j))
    ensures Completable(before, o) && Reachable(before, o) == |before.owners[o].items|
    ensures var r := Progress(before, o, |before.owners[o].items|);
      && NoLocks(r) && OwnerFence(r, o, Some(claim)) && OnlyRowChanged(before, r, o)
      && SamePairs(Completed(before, o, |before.owners[o].items|), r)
      && Settled(r.made, o, Closed(before.owners[o], Executed), Closed(r.owners[o], Executed),
                 |before.owners[o].items|)
  {
    hide DbInv, Recover, ItemDone, ItemCompletable, Completed, Progress, Completable;
    ReachIs(before, o, |before.owners[o].items|);
    ProgressIsCompleted(before, o, |before.owners[o].items|);
  }

  lemma PassFacts(before: Db, o: OwnerId, k: nat, claim: Token)
    requires o in before.owners && k < |before.owners[o].items|
    requires DbInv(before) && NoLocks(before) && OwnerFence(before, o, Some(claim)) && DbInv(Progress(before, o, k))
    requires forall j: nat :: j < k ==> ItemCompletable(before, o, j) && DbInv(Progress(before, o, j))
    ensures var r := Progress(before, o, k);
      && NoLocks(r) && OwnerFence(r, o, Some(claim)) && HasItem(r, o, k)
      && ItemOf(r, o, k).state == before.owners[o].items[k].state
      && (o in r.world.contractHolds <==> o in before.world.contractHolds)
      && ItemCompletable(r, o, k) == ItemCompletable(before, o, k)
      && Progress(before, o, k + 1) == ItemDone(r, o, k)
      && OnlyRowChanged(before, r, o) && SamePairs(Completed(before, o, k), r)
      && r.owners[o].state != Executed
  {
    hide ItemDone, Completed, Recover, DbInv, ItemCompletable;
    ProgressIsCompleted(before, o, k);
  }

  /** What the failing item leaves on the settled row is the stopped row of the tables at the start. */
  lemma StopHere(before: Db, o: OwnerId, k: nat, made: Made, after: Owner)
    requires o in before.owners && o.BatchId? && k < |before.owners[o].items|
    requires DbInv(before) && DbInv(Progress(before, o, k))
    requires forall j: nat :: j < k ==> ItemCompletable(before, o, j) && DbInv(Progress(before, o, j))
    requires var r := Progress(before, o, k);
      && HasItem(r, o, k) && made == r.made
      && after == TerminalRow(r.owners[o], StopState(r, o, k), Some((k, StopItemState(r, o, k))))
    ensures StoppedRow(before, o, k, made, after)
  {
    hide ItemDone, Completed, Recover, DbInv, ItemCompletable, Progress;
    ProgressIsCompleted(before, o, k);
    RecoverKeptLater(before, Progress(before, o, k), o, k, k);
  }

  lemma {:induction false} ExecutedCounted(view: seq<ItemState>)
    ensures CountExecuted(view) > 0 <==> exists i :: 0 <= i < |view| && view[i] == ItemExecuted
  {
    if view != [] {
      ExecutedCounted(view[1..]);
      if i :| 0 <= i < |view| && view[i] == ItemExecuted {
        assert i > 0 ==> view[1..][i - 1] == ItemExecuted;
      }
      if i :| 0 <= i < |view[1..]| && view[1..][i] == ItemExecuted {
        assert view[i + 1] == ItemExecuted;
      }
    }
  }

  lemma BrokenByCount(row: Owner, view: seq<ItemState>, after: Owner)
    requires view == States(row.items)
    requires after == TerminalRow(row, if CountExecuted(view) > 0 then PartialFailed else Stale, None)
    ensures BrokenRow(row, after)
  {
    ExecutedCounted(view);
    if i :| 0 <= i < |view| && view[i] == ItemExecuted {
      assert row.items[i].state == ItemExecuted;
    }
    if i :| 0 <= i < |row.items| && row.items[i].state == ItemExecuted {
      assert view[i] == ItemExecuted;
    }
  }

  /** The claim changes nothing about where the execution stops. */
  lemma ClaimKeepsUnfinished(
    db: Db, claimed: Db, o: OwnerId, p: ProcId, token: Token, now: int, made: Made, after: Owner)
    requires DbInv(db) && DbInv(claimed) && o in db.owners && claimed == GiveClaim(db, o, p, token, now)
    requires o in claimed.owners && !Completable(claimed, o) && UnfinishedRow(claimed, o, made, after)
    requires Reachable(claimed, o) == Reachable(db, o) && !Completable(db, o)
    requires db.owners[o].state == Executing
    ensures UnfinishedRow(db, o, made, after)
  {
    hide DbInv, Recover, Completable, Reachable;
    ClaimKeepsIntents(db, claimed, o, p, token, now);
    var k := Reachable(db, o);
    if o in db.world.contractHolds {
      RecoverKept(db, claimed, o, k);
    }
  }

  lemma UnfinishedEnds(db: Db, o: OwnerId, made: Made, after: Owner)
    requires o in db.owners && !Completable(db, o) && UnfinishedRow(db, o, made, after)
    ensures Abandoned(after.state)
  {
    hide Recover, Completable;
    var items := db.owners[o].items;
    if i :| 0 <= i < |items| && items[i].state == ItemExecuted {
      assert o !in db.world.contractHolds ==> after.state == PartialFailed;
    }
  }

  /** A pending batch fails its preflight at its contract or at its first item that cannot be completed. */
  lemma {:induction false} PreflightStops(db: Db, o: OwnerId, i: nat)
    requires DbInv(db) && o in db.owners && o.BatchId? && i <= |db.owners[o].items|
    requires forall j: nat :: j < |db.owners[o].items| ==> db.owners[o].items[j].state == ItemPending
    requires i == 0 ==> o in db.world.contractHolds
    ensures FullPreflight(db, o, i) ==
      if Reach(db, o, i) == |db.owners[o].items| then Pass else OneStale(Reach(db, o, i), true)
    decreases |db.owners[o].items| - i
  {
    if i < |db.owners[o].items| {
      PendingHasNothing(db, o, i);
      hide Recover, DbInv;
      PreflightStops(db, o, i + 1);
      SchedulableIs(db, o, i);
      assert ItemCompletable(db, o, i) <==> !ItemIsStale(db, o, i);
    }
  }

  lemma RefusedByPreflight(db: Db, o: OwnerId)
    requires DbInv(db) && o in db.owners && o.BatchId? && db.owners[o].state == PendingReview
    requires !PreflightFor(db, o).Pass?
    ensures !Completable(db, o)
    ensures var (all, one) := StaleArgs(PreflightFor(db, o));
      RefusedRow(db, o, StaleRow(db.owners[o], all, one))
  {
    PendingCompletable(db, o);
    KnownRow(db, o);
    hide DbInv, Completable, ItemCompletable;
    if o in db.world.contractHolds {
      PreflightStops(db, o, 0);
    }
  }

  lemma ReachIs(db: Db, o: OwnerId, k: nat)
    requires o in db.owners && k <= |db.owners[o].items| && o in db.world.contractHolds
    requires forall j: nat :: j < k ==> ItemCompletable(db, o, j)
    requires k == |db.owners[o].items| || !ItemCompletable(db, o, k)
    ensures Reachable(db, o) == k
    ensures Completable(db, o) <==> k == |db.owners[o].items|
  {
    hide ItemCompletable;
  }

  /** The request touched no owner row but its own, and nothing outside the tables. */
  ghost predicate OnlyRowChanged(before: Db, after: Db, o: OwnerId) {
    && o in before.owners && o in after.owners && after.owners == before.owners[o := after.owners[o]]
    && after.world == before.world && after.revisions == before.revisions
  }

  lemma OpenRow(db: Db, o: OwnerId)
    requires DbInv(db) && o in db.owners && o.BatchId? && db.owners[o].state == Executing
    ensures forall i: nat :: i < |db.owners[o].items| ==>
      db.owners[o].items[i].state != ItemStale && db.owners[o].items[i].state != ItemFailed
  {
    KnownRow(db, o);
  }

  lemma CompletedNone(db: Db, o: OwnerId)
    requires o in db.owners && o !in db.world.contractHolds
    ensures Completed(db, o, Reachable(db, o)) == db
  {
  }

  lemma AlreadyDone(db: Db, o: OwnerId, i: nat)
    requires DbInv(db) && o.BatchId? && HasItem(db, o, i) && ItemOf(db, o, i).state == ItemExecuted
    ensures (o, i) in db.made
    ensures Recover(db, o, i).Match? ==> ItemDone(db, o, i) == db
  {
    RecoverExact(db, o, i);
    KnownRow(db, o);
    assert ItemInv(db.made, o, i, db.owners[o].items[i]);
    hide Recover, DbInv;
    if Recover(db, o, i).Match? {
      var row := db.owners[o];
      var item := row.items[i].(state := ItemExecuted, link := Some(Recover(db, o, i).link));
      assert row.items[i := item] == row.items;
      assert db.owners[o := row] == db.owners;
    }
  }

  lemma PendingHasNothing(db: Db, o: OwnerId, i: nat)
    requires DbInv(db) && o.BatchId? && HasItem(db, o, i)
    ensures ItemOf(db, o, i).state == ItemPending ==> Recover(db, o, i).Nothing?
    ensures ItemOf(db, o, i).state == ItemExecuted ==> !Recover(db, o, i).Nothing?
  {
    RecoverExact(db, o, i);
    KnownRow(db, o);
    assert ItemInv(db.made, o, i, db.owners[o].items[i]);
  }

  lemma MarkedThenDone(db: Db, marked: Db, o: OwnerId, i: nat)
    requires HasItem(db, o, i) && Recover(db, o, i).Nothing?
    requires marked == db
             || marked == WriteOwner(db, o, WriteItem(db.owners[o], i, ItemOf(db, o, i).(state := ItemExecuting)))
    ensures HasItem(marked, o, i) && ItemOf(marked, o, i).target == ItemOf(db, o, i).target
    ensures WriteOwner(Queue(marked, o, i), o, WriteItem(marked.owners[o], i,
              ItemOf(marked, o, i).(link := Some(Link(|marked.entries|, |marked.pubs|)), state := ItemExecuted)))
            == ItemDone(db, o, i)
  {
    hide Recover;
    var final := ItemOf(db, o, i).(link := Some(Link(|db.entries|, |db.pubs|)), state := ItemExecuted);
    assert marked.owners[o].items[i := final] == db.owners[o].items[i := final];
    assert marked.owners[o := WriteItem(db.owners[o], i, final)] == db.owners[o := WriteItem(db.owners[o], i, final)];
  }

  ghost predicate NoLocks(db: Db) {
    db.ownerLocks == map[] && db.targetLocks == map[]
  }

  lemma NoLocksToRelease(db: Db, p: ProcId)
    requires NoLocks(db)
    ensures ReleaseLocks(db, p) == db
  {
    assert ReleaseLocks(db, p).ownerLocks == map[] && ReleaseLocks(db, p).targetLocks == map[];
  }

  lemma OwnLocksReleased(db: Db, held: Db, p: ProcId)
    requires NoLocks(db) && held.ownerLocks.Values <= {p} && held.targetLocks.Values <= {p}
    requires held == db.(ownerLocks := held.ownerLocks, targetLocks := held.targetLocks)
    ensures ReleaseLocks(held, p) == db
  {
    assert forall o :: o in held.ownerLocks ==> held.ownerLocks[o] in held.ownerLocks.Values;
    assert forall t :: t in held.targetLocks ==> held.targetLocks[t] in held.targetLocks.Values;
    assert ReleaseLocks(held, p).ownerLocks == map[] && ReleaseLocks(held, p).targetLocks == map[];
  }

  lemma SizeOfList(list: seq<nat>, all: set<nat>)
    requires forall s :: s in list <==> s in all
    requires forall a, b :: 0 <= a < b < |list| ==> list[a] < list[b]
    ensures |all| == |list|
  {
    if list == [] {
      assert all == {};
    } else {
      var last := list[|list| - 1];
      assert forall s :: s in list <==> s in list[..|list| - 1] || s == last;
      SizeOfList(list[..|list| - 1], all - {last});
      assert all == (all - {last}) + {last};
    }
  }

  /******* What completing creates *******/

  /** The items among the first `k` that have no pair. */
  ghost function Missing(db: Db, o: OwnerId, k: nat): nat
    requires o in db.owners && k <= |db.owners[o].items|
  {
    if k == 0 then 0 else Missing(db, o, k - 1) + (if HasNoPair(db, o, k - 1) then 1 else 0)
  }

  /**
   Completing the first `k` items appends one entry and one publication for each of them that had no
   pair and none for the others, keeps every existing row, and gives each of them exactly one pair.
   */
  lemma {:induction false} CompletionCreatesMissingPairs(db: Db, o: OwnerId, k: nat)
    requires DbInv(db) && o in db.owners && k <= |db.owners[o].items|
    ensures var r := Completed(db, o, k);
      && |r.entries| == |db.entries| + Missing(db, o, k) && |r.pubs| == |db.pubs| + Missing(db, o, k)
      && db.entries <= r.entries && db.pubs <= r.pubs
    ensures DbInv(Completed(db, o, k)) ==> forall i: nat :: i < k ==> HasOnePair(Completed(db, o, k), o, i)
  {
    hide Recover, DbInv;
    if k > 0 {
      CompletionCreatesMissingPairs(db, o, k - 1);
      RecoverExact(db, o, k - 1);
      PairIffMade(db, o, k - 1);
      NothingMeansNoPair(db, o, k - 1);
    }
    if DbInv(Completed(db, o, k)) {
      CompletedMade(db, o, k);
      forall i: nat | i < k
        ensures HasOnePair(Completed(db, o, k), o, i)
      {
        PairIffMade(Completed(db, o, k), o, i);
      }
    }
  }

  lemma NothingMeansNoPair(db: Db, o: OwnerId, i: nat)
    requires HasItem(db, o, i)
    ensures Recover(db, o, i).Nothing? <==> HasNoPair(db, o, i)
  {
  }
}
