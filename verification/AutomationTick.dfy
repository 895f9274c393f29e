/** The services that drive automations, one call at a time: `set_enabled` and the tick loop. */
module AutomationTick {
  import opened Wrappers
  import opened Numbers
  import opened Sets
  import opened Cadence
  import opened Automations

  /**
   What the world answers while occurrences are processed: why a definition is refused, for which
   automations the runner raises, and for which of those the run row was written before.
   */
  datatype World = World(blockers: map<Id, Reason>, crashes: set<Id>, recorded: set<Id>)

  /******* What is expected, in minutes and fields *******/

  /** Enabled, its time has come, and nobody claimed it in the last two minutes. */
  predicate Waiting(row: Row, tick: int) {
    row.enabled && row.nextRunAt <= tick && (row.claim.Some? ==> row.claimedAt + 2 * MINUTES <= tick)
  }

  const MINUTES: int := 60_000_000

  function DueRows(rows: map<Id, Row>, tick: int): set<Id> {
    set x | x in rows && Waiting(rows[x], tick)
  }

  /** The tick's choice: the due row with the least next run, then the least id. */
  predicate First(rows: map<Id, Row>, tick: int, id: Id) {
    && id in DueRows(rows, tick)
    && forall x :: x in DueRows(rows, tick) ==>
         rows[id].nextRunAt < rows[x].nextRunAt || (rows[id].nextRunAt == rows[x].nextRunAt && id <= x)
  }

  /** An occurrence more than fifteen minutes ago is skipped. */
  predicate TooLate(row: Row, tick: int) {
    tick > row.nextRunAt + 15 * MINUTES
  }

  /** The row a claimed occurrence leaves behind when its processing comes to an end. */
  function AfterProcessing(row: Row, tick: int, world: World, id: Id): Row {
    if TooLate(row, tick) then
      row.(lastScheduledFor := Some(row.nextRunAt), nextRunAt := NextOccurrence(row.cadence, tick),
           outcome := Some(MisfireSkipped), claim := None)
    else if id in world.blockers then
      row.(enabled := false, reason := Some(world.blockers[id]), outcome := Some(SafetyDisabled), claim := None)
    else
      row.(lastScheduledFor := Some(row.nextRunAt), nextRunAt := NextOccurrence(row.cadence, row.nextRunAt),
           outcome := Some(RunRecorded), claim := None)
  }

  /** The runner is called: the occurrence is fresh, allowed, and has no run yet. */
  predicate Asks(row: Row, tick: int, world: World, id: Id, runs: set<(Id, int)>) {
    !TooLate(row, tick) && id !in world.blockers && (id, row.nextRunAt) !in runs
  }

  /** A called runner that raises leaves the row to its claim; otherwise the row is finished. */
  predicate Finishes(row: Row, tick: int, world: World, id: Id, runs: set<(Id, int)>) {
    Asks(row, tick, world, id, runs) ==> id !in world.crashes
  }

  /** The runner is called and its run row is written, by a success or before a crash. */
  predicate Records(row: Row, tick: int, world: World, id: Id, runs: set<(Id, int)>) {
    Asks(row, tick, world, id, runs) && (id !in world.crashes || id in world.recorded)
  }

  /** What one tick does to a row that was due: it is claimed, and then finished unless the runner raises. */
  ghost predicate Handled(row: Row, row': Row, tick: int, world: World, id: Id, runs: set<(Id, int)>) {
    exists token :: var claimed := row.(claim := Some(token), claimedAt := tick);
      row' == if Finishes(row, tick, world, id, runs) then AfterProcessing(claimed, tick, world, id) else claimed
  }

  /******* The choice *******/

  predicate Before(rows: map<Id, Row>, a: Id, b: Id)
    requires a in rows && b in rows
  {
    rows[a].nextRunAt < rows[b].nextRunAt || (rows[a].nextRunAt == rows[b].nextRunAt && a <= b)
  }

  lemma FirstExists(rows: map<Id, Row>, among: set<Id>) returns (id: Id)
    requires among <= rows.Keys && among != {}
    ensures id in among && forall x :: x in among ==> Before(rows, id, x)
    decreases among
  {
    id :| id in among;
    var rest := among - {id};
    assert forall x :: x in among ==> x == id || x in rest;
    if rest != {} {
      var other := FirstExists(rows, rest);
      if !Before(rows, id, other) {
        id := other;
      }
    }
  }

  /** A handled row is not due any more in the same tick. */
  lemma HandledIsNotDue(row: Row, row': Row, tick: int, world: World, id: Id, runs: set<(Id, int)>)
    requires Valid(row.cadence) && IsOccurrence(row.cadence, row.nextRunAt)
    requires Handled(row, row', tick, world, id, runs)
    ensures !Waiting(row', tick)
  {
    hide IsOccurrence, NextOccurrence;
    NextIsLeast(row.cadence, tick, 0);
    NextAfterOccurrence(row.cadence, row.nextRunAt);
  }

  /** A tick never moves a schedule back. */
  lemma HandledMovesForward(id: Id, row: Row, row': Row, runs: set<(Id, int)>, tick: int, world: World)
    requires RowInv(id, row, runs, tick) && row.nextRunAt <= tick && Handled(row, row', tick, world, id, runs)
    ensures Forward(row, row')
  {
    hide IsOccurrence, NextOccurrence;
    NextIsLeast(row.cadence, tick, 0);
    NextIsLeast(row.cadence, row.nextRunAt, 0);
  }

  lemma OutcomeOk(id: Id, row: Row, runs: set<(Id, int)>, tick: int, world: World)
    requires RowInv(id, row, runs, tick) && row.nextRunAt <= tick
    ensures TooLate(row, tick) || id in world.blockers || (id, row.nextRunAt) in runs ==>
              RowInv(id, AfterProcessing(row, tick, world, id), runs, tick)
  {
    hide IsOccurrence, NextOccurrence;
    if TooLate(row, tick) {
      AdvancedOk(id, row, runs, tick, tick, MisfireSkipped);
    } else if id !in world.blockers && (id, row.nextRunAt) in runs {
      AdvancedOk(id, row, runs, tick, row.nextRunAt, RunRecorded);
    }
  }

  /** The occurrences that ask the runner, among those of the automations in `ids`, each once. */
  ghost predicate AskedOnce(
    asked: seq<(Id, int)>, ids: set<Id>, rows: map<Id, Row>, tick: int, world: World, runs: set<(Id, int)>)
    requires ids <= rows.Keys
  {
    && (forall i :: 0 <= i < |asked| ==> asked[i].0 in ids && asked[i].1 == rows[asked[i].0].nextRunAt)
    && (forall id :: id in ids ==> (Asks(rows[id], tick, world, id, runs) <==> (id, rows[id].nextRunAt) in asked))
    && (forall i, j :: 0 <= i < j < |asked| ==> asked[i] != asked[j])
  }

  /** The occurrences of the automations in `ids` that get their run row. */
  function Recorded(
    ids: set<Id>, rows: map<Id, Row>, tick: int, world: World, runs: set<(Id, int)>): set<(Id, int)>
    requires ids <= rows.Keys
  {
    set id | id in ids && Records(rows[id], tick, world, id, runs) :: (id, rows[id].nextRunAt)
  }

  /** The first `k` due rows in the tick's order. */
  ghost predicate Foremost(ids: set<Id>, k: nat, rows: map<Id, Row>, tick: int) {
    && ids <= DueRows(rows, tick) && |ids| == k
    && forall id, x :: id in ids && x in DueRows(rows, tick) && x !in ids ==> Before(rows, id, x)
  }

  /** `max(1, min(max_occurrences, MAX_OCCURRENCES_PER_TICK))`. */
  function TickLimit(maxOccurrences: int): (limit: nat)
    ensures 1 <= limit <= 5 && (1 <= maxOccurrences <= 5 ==> limit == maxOccurrences)
  {
    Clamp(maxOccurrences, 1, MAX_OCCURRENCES_PER_TICK)
  }

  class AutomationService {
    var rows: map<Id, Row>
    /** Occurrences that have a run row. */
    var runs: set<(Id, int)>
    var nextToken: Token

    /** What every reachable state of the protocol guarantees. */
    ghost predicate Valid(now: int)
      reads this
    {
      forall id :: id in rows ==> RowInv(id, rows[id], runs, now)
    }

    constructor ()
      ensures rows == map[] && runs == {}
    {
      rows, runs, nextToken := map[], {}, 0;
    }

    method SetEnabled(id: Id, value: bool, blocker: Option<Reason>, now: int) returns (ok: bool)
      requires Valid(now)
      modifies this`rows
      ensures Valid(now)
      ensures ok == (id in old(rows) && (!value || blocker.None?))
      ensures id !in old(rows) ==> rows == old(rows)
      ensures id in old(rows) ==>
        id in rows && rows == old(rows)[id := rows[id]] && Forward(old(rows)[id], rows[id])
      ensures id in old(rows) && !value ==>
        && rows[id] == old(rows)[id].(enabled := false, reason := Some(ManualPause), claim := None)
        && forall tick :: !Waiting(rows[id], tick)
      ensures id in old(rows) && value && blocker.Some? ==>
        && rows[id]
           == old(rows)[id].(enabled := false, reason := blocker, outcome := Some(SafetyDisabled), claim := None)
        && forall tick :: !Waiting(rows[id], tick)
      ensures ok && value && old(rows)[id].enabled && old(rows)[id].reason.None? ==> rows == old(rows)
      ensures ok && value && !(old(rows)[id].enabled && old(rows)[id].reason.None?) ==>
        && rows[id] == old(rows)[id].(enabled := true, reason := None, claim := None, nextRunAt := rows[id].nextRunAt)
        && IsOccurrence(rows[id].cadence, rows[id].nextRunAt) && rows[id].nextRunAt > now
        && forall t :: IsOccurrence(rows[id].cadence, t) && t > now ==> rows[id].nextRunAt <= t
    {
      hide NextOccurrence, IsOccurrence;
      if id !in rows {
        return false;
      }
      var row := rows[id];
      assert RowInv(id, row, runs, now);
      ReenabledOk(id, row, runs, now);
      NextIsLeast(row.cadence, now, 0);
      forall t
        ensures IsOccurrence(row.cadence, t) && t > now ==> NextOccurrence(row.cadence, now) <= t
      {
        NextIsLeast(row.cadence, now, t);
      }
      if !value {
        row := Paused(row);
        ok := true;
      } else if blocker.Some? {
        row := Blocked(row, blocker.value);
        ok := false;
      } else {
        row := Reenabled(row, now);
        ok := true;
      }
      rows := rows[id := row];
    }

    /** Claims the first due occurrence, if there is one. */
    method ClaimOne(tick: int) returns (claimed: Option<(Id, Token)>)
      modifies this`rows, this`nextToken
      ensures claimed.None? ==> rows == old(rows) && nextToken == old(nextToken)
      ensures claimed.None? <==> DueRows(old(rows), tick) == {}
      ensures claimed.Some? ==>
        && First(old(rows), tick, claimed.value.0) && claimed.value.1 == old(nextToken)
        && rows == old(rows)[claimed.value.0 :=
                               old(rows)[claimed.value.0].(claim := Some(old(nextToken)), claimedAt := tick)]
        && nextToken == old(nextToken) + 1
    {
      var due := set x | x in rows && Due(rows[x], tick);
      assert due == DueRows(rows, tick);
      if due == {} {
        return None;
      }
      ghost var witnessId := FirstExists(rows, due);
      assert First(rows, tick, witnessId);
      var id :| id in due && First(rows, tick, id);
      claimed := Some((id, nextToken));
      rows := rows[id := Claimed(rows[id], nextToken, tick)];
      nextToken := nextToken + 1;
    }

    /** `_process_claim`; `asked` says that the runner was called. */
    method ProcessClaim(id: Id, token: Token, tick: int, world: World) returns (asked: bool)
      requires Valid(tick) && (id in rows && rows[id].claim == Some(token) ==> rows[id].nextRunAt <= tick)
      modifies this`rows, this`runs
      ensures Valid(tick)
      ensures !(id in old(rows) && old(rows)[id].enabled && old(rows)[id].claim == Some(token)) ==>
        !asked && rows == old(rows) && runs == old(runs)
      ensures id in old(rows) && old(rows)[id].enabled && old(rows)[id].claim == Some(token) ==>
        var row := old(rows)[id];
        && asked == Asks(row, tick, world, id, old(runs))
        && rows == (if Finishes(row, tick, world, id, old(runs))
                    then old(rows)[id := AfterProcessing(row, tick, world, id)] else old(rows))
        && runs == old(runs) + (if Records(row, tick, world, id, old(runs)) then {(id, row.nextRunAt)} else {})
    {
      hide IsOccurrence, NextOccurrence, RowInv;
      asked := false;
      if id !in rows || !rows[id].enabled || rows[id].claim != Some(token) {
        return;
      }
      var row := rows[id];
      var scheduledFor := row.nextRunAt;
      if Misfired(scheduledFor, tick) {
        OutcomeOk(id, row, runs, tick, world);
        rows := rows[id := Advanced(row, scheduledFor, tick, MisfireSkipped)];
      } else if id in world.blockers {
        OutcomeOk(id, row, runs, tick, world);
        rows := rows[id := Blocked(row, world.blockers[id])];
      } else {
        asked := (id, scheduledFor) !in runs;
        if asked && (id !in world.crashes || id in world.recorded) {
          MoreRuns(rows, runs, tick, runs + {(id, scheduledFor)});
          runs := runs + {(id, scheduledFor)};
        }
        if !(asked && id in world.crashes) {
          OutcomeOk(id, row, runs, tick, world);
          rows := rows[id := Advanced(row, scheduledFor, scheduledFor, RunRecorded)];
        }
      }
    }

    /**
     One heartbeat: claims and processes due occurrences until none is left or the limit is reached.
     `handled` are the foremost due rows, as many as the limit or all; each of them is handled once and
     the others are left alone. The runner is called once for each of their occurrences that asks it.
     */
    method Tick(tick: int, world: World, maxOccurrences: int)
        returns (processed: nat, asked: seq<(Id, int)>, ghost handled: set<Id>)
      requires Valid(tick)
      modifies this`rows, this`runs, this`nextToken
      ensures Valid(tick) && rows.Keys == old(rows).Keys
      ensures var due := |DueRows(old(rows), tick)|;
        var limit := if maxOccurrences < 1 then 1 else if maxOccurrences > 5 then 5 else maxOccurrences;
        processed == if limit < due then limit else due
      ensures DueRows(rows, tick) == DueRows(old(rows), tick) - handled
      ensures Foremost(handled, processed, old(rows), tick)
      ensures forall id :: id in old(rows) ==>
        if id in handled then Handled(old(rows)[id], rows[id], tick, world, id, old(runs))
        else rows[id] == old(rows)[id]
      ensures handled <= old(rows).Keys && AskedOnce(asked, handled, old(rows), tick, world, old(runs))
      ensures runs == old(runs) + Recorded(handled, old(rows), tick, world, old(runs))
    {
      hide SoFar, DueRows, Valid, Foremost, AskedOnce, Recorded, Handled, TickLimit;
      var limit := TickLimit(maxOccurrences);
      LimitIs(maxOccurrences);
      processed, asked, handled := 0, [], {};
      ghost var before, had := rows, runs;
      AtStart(tick, world);
      while processed < limit
        invariant processed <= limit && SoFar(before, had, tick, world, handled, processed, asked)
        decreases limit - processed
      {
        var some, id, more := Step(tick, world, asked, before, had, handled, processed);
        if !some {
          break;
        }
        handled, processed, asked := handled + {id}, processed + 1, more;
      }
      Finished(before, had, tick, world, handled, processed, asked, limit);
    }

    /** `handled` are the `k` foremost due rows of `before`, and nothing else has happened in this tick. */
    ghost predicate SoFar(before: map<Id, Row>, had: set<(Id, int)>, tick: int, world: World, handled: set<Id>, k: nat,
                          asked: seq<(Id, int)>)
      reads this
    {
      && Valid(tick) && rows.Keys == before.Keys && handled <= before.Keys && Foremost(handled, k, before, tick)
      && (forall x :: x in before && x !in handled ==> rows[x] == before[x])
      && (forall x :: x in handled ==> !Waiting(rows[x], tick) && Handled(before[x], rows[x], tick, world, x, had))
      && AskedOnce(asked, handled, before, tick, world, had)
      && runs == had + Recorded(handled, before, tick, world, had)
      && DueRows(rows, tick) == DueRows(before, tick) - handled
    }

    lemma AtStart(tick: int, world: World)
      requires Valid(tick)
      ensures SoFar(rows, runs, tick, world, {}, 0, [])
    {
      NoneYet(rows, tick, world, runs);
    }

    lemma Finished(before: map<Id, Row>, had: set<(Id, int)>, tick: int, world: World, handled: set<Id>, k: nat,
                   asked: seq<(Id, int)>, limit: nat)
      requires SoFar(before, had, tick, world, handled, k, asked) && k <= limit
      requires k < limit ==> DueRows(rows, tick) == {}
      ensures Valid(tick) && rows.Keys == before.Keys && handled <= before.Keys && Foremost(handled, k, before, tick)
      ensures forall x :: x in before ==>
        if x in handled then Handled(before[x], rows[x], tick, world, x, had) else rows[x] == before[x]
      ensures AskedOnce(asked, handled, before, tick, world, had)
      ensures runs == had + Recorded(handled, before, tick, world, had)
      ensures DueRows(rows, tick) == DueRows(before, tick) - handled
      ensures var due := |DueRows(before, tick)|; k == if limit < due then limit else due
    {
      hide Valid, Foremost, AskedOnce, Recorded, Handled, Waiting;
      AllOrLimit(handled, k, limit, before, rows, tick);
    }

    /** The loop body: one claimed occurrence more. */
    method Step(tick: int, world: World, asked: seq<(Id, int)>, ghost before: map<Id, Row>, ghost had: set<(Id, int)>,
                ghost handled: set<Id>, ghost k: nat)
        returns (some: bool, id: Id, more: seq<(Id, int)>)
      requires SoFar(before, had, tick, world, handled, k, asked)
      modifies this`rows, this`runs, this`nextToken
      ensures some <==> DueRows(old(rows), tick) != {}
      ensures !some ==> rows == old(rows) && SoFar(before, had, tick, world, handled, k, asked)
      ensures some ==> SoFar(before, had, tick, world, handled + {id}, k + 1, more)
    {
      hide RowInv, Foremost, AskedOnce, Recorded, Records, Asks, Waiting, Handled, Before;
      var at, called;
      some, id, at, called := ClaimAndProcess(tick, world, before, had, handled);
      more := if called then asked + [(id, at)] else asked;
      if some {
        ForemostMore(handled, k, before, tick, id);
        AskedMore(asked, handled, before, tick, world, had, id);
        RecordedMore(handled, before, tick, world, had, id);
        DueLess(handled, before, tick, id, rows);
      }
    }

    /** `before` and `had` are the rows and runs at the start of the tick. */
    method ClaimAndProcess(
      tick: int, world: World, ghost before: map<Id, Row>, ghost had: set<(Id, int)>, ghost handled: set<Id>)
      returns (some: bool, id: Id, at: int, called: bool)
      requires Valid(tick) && rows.Keys == before.Keys && handled <= before.Keys
      requires forall x :: x in before && x !in handled ==> rows[x] == before[x]
      requires forall x :: x in handled ==> !Waiting(rows[x], tick)
      requires runs == had + Recorded(handled, before, tick, world, had)
      modifies this`rows, this`runs, this`nextToken
      ensures Valid(tick)
      ensures some <==> DueRows(old(rows), tick) != {}
      ensures !some ==> rows == old(rows) && runs == old(runs)
      ensures some ==>
        && id in DueRows(old(rows), tick) && id !in handled && rows.Keys == before.Keys
        && (forall x :: x in DueRows(old(rows), tick) ==> Before(before, id, x))
        && (forall x :: x in old(rows) && x != id ==> rows[x] == old(rows)[x])
        && Handled(before[id], rows[id], tick, world, id, had) && !Waiting(rows[id], tick)
        && called == Asks(before[id], tick, world, id, had) && at == before[id].nextRunAt
        && runs == old(runs) + (if Records(before[id], tick, world, id, had) then {(id, before[id].nextRunAt)} else {})
    {
      hide IsOccurrence, NextOccurrence, RowInv, AfterProcessing;
      some, id, at, called := false, 0, 0, false;
      var claimed := ClaimOne(tick);
      if claimed.None? {
        return;
      }
      some, id := true, claimed.value.0;
      at := rows[id].nextRunAt;
      ghost var was := old(rows)[id];
      assert RowInv(id, was, runs, tick);
      ClaimOk(id, was, runs, tick, claimed.value.1);
      OtherRuns(id, was.nextRunAt, handled, before, tick, world, had);
      called := ProcessClaim(id, claimed.value.1, tick, world);
      assert Handled(was, rows[id], tick, world, id, had) by {
        var row := was.(claim := Some(claimed.value.1), claimedAt := tick);
        assert rows[id] == if Finishes(was, tick, world, id, had) then AfterProcessing(row, tick, world, id) else row;
      }
      InvParts(id, was, old(runs), tick);
      HandledIsNotDue(was, rows[id], tick, world, id, had);
    }
  }

  lemma LimitIs(maxOccurrences: int)
    ensures TickLimit(maxOccurrences)
         == if maxOccurrences < 1 then 1 else if maxOccurrences > 5 then 5 else maxOccurrences
  {
  }

  lemma NoneYet(rows: map<Id, Row>, tick: int, world: World, runs: set<(Id, int)>)
    ensures AskedOnce([], {}, rows, tick, world, runs) && Foremost({}, 0, rows, tick)
    ensures Recorded({}, rows, tick, world, runs) == {}
  {
  }

  /** Runs recorded for other automations in the same tick do not answer for this one. */
  lemma OtherRuns(id: Id, at: int, ids: set<Id>, rows: map<Id, Row>, tick: int, world: World, runs: set<(Id, int)>)
    requires ids <= rows.Keys && id !in ids
    ensures (id, at) in runs + Recorded(ids, rows, tick, world, runs) <==> (id, at) in runs
  {
  }

  lemma ForemostMore(handled: set<Id>, k: nat, rows: map<Id, Row>, tick: int, id: Id)
    requires Foremost(handled, k, rows, tick) && id in DueRows(rows, tick) - handled
    requires forall x :: x in DueRows(rows, tick) - handled ==> Before(rows, id, x)
    ensures Foremost(handled + {id}, k + 1, rows, tick)
  {
    hide Before, Waiting;
  }

  lemma AskedMore(asked: seq<(Id, int)>, handled: set<Id>, rows: map<Id, Row>, tick: int, world: World,
                  runs: set<(Id, int)>, id: Id)
    requires handled <= rows.Keys && id !in handled && id in rows
    requires AskedOnce(asked, handled, rows, tick, world, runs)
    ensures AskedOnce(if Asks(rows[id], tick, world, id, runs) then asked + [(id, rows[id].nextRunAt)] else asked,
                      handled + {id}, rows, tick, world, runs)
  {
    hide Asks;
    var next := (id, rows[id].nextRunAt);
    assert next !in asked;
    assert forall x :: x in handled ==> ((x, rows[x].nextRunAt) in asked <==> (x, rows[x].nextRunAt) in asked + [next]);
  }

  lemma RecordedMore(handled: set<Id>, rows: map<Id, Row>, tick: int, world: World, runs: set<(Id, int)>, id: Id)
    requires handled <= rows.Keys && id in rows
    ensures Recorded(handled + {id}, rows, tick, world, runs)
         == Recorded(handled, rows, tick, world, runs)
            + (if Records(rows[id], tick, world, id, runs) then {(id, rows[id].nextRunAt)} else {})
  {
    hide Records;
  }

  lemma DueLess(handled: set<Id>, rows: map<Id, Row>, tick: int, id: Id, after: map<Id, Row>)
    requires id in rows && after.Keys == rows.Keys
    requires forall x :: x in rows && x !in handled && x != id ==> after[x] == rows[x]
    requires forall x :: x in handled + {id} && x in rows ==> !Waiting(after[x], tick)
    ensures DueRows(after, tick) == DueRows(rows, tick) - (handled + {id})
  {
    hide Waiting;
  }

  lemma AllOrLimit(handled: set<Id>, k: nat, limit: nat, before: map<Id, Row>, after: map<Id, Row>, tick: int)
    requires Foremost(handled, k, before, tick) && k <= limit
    requires DueRows(after, tick) == DueRows(before, tick) - handled
    requires k < limit ==> DueRows(after, tick) == {}
    ensures var due := |DueRows(before, tick)|; k == if limit < due then limit else due
  {
    hide Waiting;
    SubsetSize(handled, DueRows(before, tick));
    if k < limit {
      assert handled == DueRows(before, tick);
    }
  }

  lemma MoreRuns(rows: map<Id, Row>, runs: set<(Id, int)>, now: int, more: set<(Id, int)>)
    requires forall id :: id in rows ==> RowInv(id, rows[id], runs, now)
    requires runs <= more
    ensures forall id :: id in rows ==> RowInv(id, rows[id], more, now)
  {
    hide RowInv;
    forall id | id in rows
      ensures RowInv(id, rows[id], more, now)
    {
      LaterOk(id, rows[id], runs, now, now, more);
    }
  }

  lemma ClaimOk(id: Id, row: Row, runs: set<(Id, int)>, now: int, token: Token)
    requires RowInv(id, row, runs, now)
    ensures RowInv(id, Claimed(row, token, now), runs, now)
  {
  }

  lemma InvParts(id: Id, row: Row, runs: set<(Id, int)>, now: int)
    requires RowInv(id, row, runs, now)
    ensures Valid(row.cadence) && IsOccurrence(row.cadence, row.nextRunAt)
  {
  }
}
