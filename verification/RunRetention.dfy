/**
 The retention service: it scans a bounded number of inactive candidates in id order and deletes the
 old terminal runs of each that are neither current nor among the newest ones it keeps.
 */
module RunRetention {
  import opened Wrappers
  import opened Numbers
  import opened CandidateRuns
  import opened Sets

  datatype Row = Row(id: CandidateId, candidate: Candidate)

  /** `WHERE status != 'new' ORDER BY id LIMIT limit` on rows stored in id order. */
  function Selected(rows: seq<Row>, limit: nat): seq<Row> {
    if rows == [] || limit == 0 then []
    else if rows[0].candidate.active then Selected(rows[1..], limit)
    else [rows[0]] + Selected(rows[1..], limit - 1)
  }

  ghost predicate InIdOrder(rows: seq<Row>) {
    forall i, j :: 0 <= i < j < |rows| ==> rows[i].id < rows[j].id
  }

  /** All inactive rows, in the order of the table. */
  function Inactive(rows: seq<Row>): (r: seq<Row>)
    ensures forall row :: row in r <==> row in rows && !row.candidate.active
  {
    if rows == [] then []
    else if rows[0].candidate.active then Inactive(rows[1..])
    else [rows[0]] + Inactive(rows[1..])
  }

  lemma {:induction false} InactiveInOrder(rows: seq<Row>)
    requires InIdOrder(rows)
    ensures InIdOrder(Inactive(rows))
  {
    if rows != [] {
      InactiveInOrder(rows[1..]);
      forall row | row in rows[1..]
        ensures rows[0].id < row.id
      {
        var i :| 0 <= i < |rows[1..]| && rows[1..][i] == row;
        assert rows[i + 1] == row;
      }
    }
  }

  /** The scan takes the inactive rows in id order: all of them, or the first ones up to the limit. */
  lemma {:induction false} SelectedIsTheScan(rows: seq<Row>, limit: nat)
    requires InIdOrder(rows)
    ensures Selected(rows, limit) == Inactive(rows)[..if limit < |Inactive(rows)| then limit else |Inactive(rows)|]
    ensures InIdOrder(Selected(rows, limit))
  {
    InactiveInOrder(rows);
    SelectedIsPrefix(rows, limit);
  }

  lemma {:induction false} SelectedIsPrefix(rows: seq<Row>, limit: nat)
    ensures Selected(rows, limit) == Inactive(rows)[..if limit < |Inactive(rows)| then limit else |Inactive(rows)|]
  {
    if rows != [] && limit > 0 {
      SelectedIsPrefix(rows[1..], if rows[0].candidate.active then limit else limit - 1);
    }
  }

  /******* The newest rows of a population *******/

  lemma NewerIsTotal(runs: Runs, a: RunId, b: RunId)
    requires a in runs && b in runs && a != b
    ensures Newer(runs, a, b) != Newer(runs, b, a)
  {
  }

  /** The element no other element of a nonempty set is newer than. */
  lemma NewestOf(runs: Runs, among: set<RunId>) returns (top: RunId)
    requires among <= runs.Keys && among != {}
    ensures top in among && forall r :: r in among && r != top ==> Newer(runs, top, r)
    decreases among
  {
    top :| top in among;
    var rest := among - {top};
    assert forall r :: r in among && r != top ==> r in rest;
    if rest != {} {
      var other := NewestOf(runs, rest);
      NewerIsTotal(runs, other, top);
      var first := top;
      if Newer(runs, other, top) {
        top := other;
      }
      forall r | r in among && r != top
        ensures Newer(runs, top, r)
      {
        assert r in rest || r == first;
      }
    }
  }

  /**
   `ORDER BY created_at DESC, id DESC LIMIT keep`: as many rows as the limit allows, each newer than
   every row left out.
   */
  lemma {:induction false} NewestIsTheFirstRows(runs: Runs, among: set<RunId>, keep: nat)
    requires among <= runs.Keys
    ensures Newest(runs, among, keep) <= among
    ensures |Newest(runs, among, keep)| == if keep < |among| then keep else |among|
    ensures forall a, b :: a in Newest(runs, among, keep) && b in among && b !in Newest(runs, among, keep) ==>
      Newer(runs, a, b)
  {
    if keep == 0 {
      assert Newest(runs, among, 0) == {};
    } else {
      NewestIsTheFirstRows(runs, among, keep - 1);
      var before := Newest(runs, among, keep - 1);
      var rest := among - before;
      if rest == {} {
        assert forall a :: a in among ==> a in before || a in rest;
        assert before == among;
        forall a | a in among
          ensures a in Newest(runs, among, keep)
        {
          assert a in before;
        }
      } else {
        var top := NewestOf(runs, rest);
        NextNewest(runs, among, keep, top);
      }
    }
  }

  /** Raising the limit by one adds the newest row that was left out. */
  lemma NextNewest(runs: Runs, among: set<RunId>, keep: nat, top: RunId)
    requires among <= runs.Keys && keep >= 1
    requires var before := Newest(runs, among, keep - 1);
      && top in among - before && (forall r :: r in among - before && r != top ==> Newer(runs, top, r))
      && |before| == (if keep - 1 < |among| then keep - 1 else |among|)
      && (forall a, b :: a in before && b in among && b !in before ==> Newer(runs, a, b))
    ensures Newest(runs, among, keep) == Newest(runs, among, keep - 1) + {top}
    ensures |Newest(runs, among, keep)| == keep <= |among|
  {
    var before := Newest(runs, among, keep - 1);
    assert before <= among && top in among && top !in before;
    StrictSubsetSize(before, among, top);
    forall a
      ensures a in NewerThan(runs, among, top) <==> a in before
    {
      if a in among && a !in before && a != top {
        assert a in among - before;
        assert Newer(runs, top, a);
      }
    }
    assert NewerThan(runs, among, top) == before;
    forall r | r in among && r !in before && r != top
      ensures r !in Newest(runs, among, keep)
    {
      assert before + {top} <= NewerThan(runs, among, r);
      SubsetSize(before + {top}, NewerThan(runs, among, r));
    }
  }

  /******* The deletion as a whole *******/

  /** The run belongs to a scanned candidate and its deletion call drops it. */
  ghost predicate Expendable(runs: Runs, rows: seq<Row>, cutoff: int, keep: nat, r: RunId)
    requires r in runs
  {
    exists i :: 0 <= i < |rows| && Drops(runs, rows[i], cutoff, keep, r)
  }

  predicate Drops(runs: Runs, row: Row, cutoff: int, keep: nat, r: RunId)
    requires r in runs
  {
    r in Doomed(runs, row.id, runs[r].kind, Pointer(row.candidate, runs[r].kind), cutoff, keep)
  }

  ghost function Gone(runs: Runs, rows: seq<Row>, cutoff: int, keep: nat): set<RunId> {
    set r | r in runs && Expendable(runs, rows, cutoff, keep, r)
  }

  ghost function OfKind(runs: Runs, among: set<RunId>, kind: Kind): set<RunId> {
    set r | r in among && r in runs && runs[r].kind == kind
  }

  /** Deleting runs of other candidates or of the other kind does not change what a call deletes. */
  lemma DoomedIsLocal(
    runs: Runs, gone: set<RunId>, c: CandidateId, kind: Kind, current: Option<RunId>, cutoff: int, keep: nat)
    requires forall r :: r in gone && r in runs ==> runs[r].candidate != c || runs[r].kind != kind
    ensures Doomed(Without(runs, gone), c, kind, current, cutoff, keep) == Doomed(runs, c, kind, current, cutoff, keep)
  {
    var rest := Without(runs, gone);
    var aged := OldRuns(runs, c, kind, cutoff);
    assert OldRuns(rest, c, kind, cutoff) == aged;
    forall r | r in aged
      ensures NewerThan(rest, aged, r) == NewerThan(runs, aged, r)
    {
    }
    assert Newest(rest, aged, keep) == Newest(runs, aged, keep);
  }

  /** One more candidate: the runs both of its calls delete are added. */
  lemma GoneNext(runs: Runs, rows: seq<Row>, i: nat, cutoff: int, keep: nat)
    requires i < |rows|
    ensures Gone(runs, rows[..i + 1], cutoff, keep)
         == Gone(runs, rows[..i], cutoff, keep)
            + Doomed(runs, rows[i].id, Enrichment, Pointer(rows[i].candidate, Enrichment), cutoff, keep)
            + Doomed(runs, rows[i].id, Rewrite, Pointer(rows[i].candidate, Rewrite), cutoff, keep)
  {
    hide Doomed, Pointer;
    var row := rows[i];
    var both := Doomed(runs, row.id, Enrichment, Pointer(row.candidate, Enrichment), cutoff, keep)
                + Doomed(runs, row.id, Rewrite, Pointer(row.candidate, Rewrite), cutoff, keep);
    assert rows[..i + 1][i] == row;
    forall r: RunId
      ensures r in Gone(runs, rows[..i + 1], cutoff, keep) <==> r in Gone(runs, rows[..i], cutoff, keep) + both
    {
      DoomedOwn(runs, row, Enrichment, cutoff, keep, r);
      DoomedOwn(runs, row, Rewrite, cutoff, keep, r);
      if r in runs {
        if Expendable(runs, rows[..i], cutoff, keep, r) {
          var j :| 0 <= j < i && Drops(runs, rows[..i][j], cutoff, keep, r);
          assert Drops(runs, rows[..i + 1][j], cutoff, keep, r);
        }
        if r in both {
          assert Drops(runs, rows[..i + 1][i], cutoff, keep, r);
        }
        if Expendable(runs, rows[..i + 1], cutoff, keep, r) {
          var j :| 0 <= j < i + 1 && Drops(runs, rows[..i + 1][j], cutoff, keep, r);
          if j < i {
            assert Drops(runs, rows[..i][j], cutoff, keep, r);
          } else {
            assert runs[r].kind == Enrichment || runs[r].kind == Rewrite;
          }
        }
      }
    }
    assert Gone(runs, rows[..i + 1], cutoff, keep) == Gone(runs, rows[..i], cutoff, keep) + both;
  }

  lemma DoomedOwn(runs: Runs, row: Row, kind: Kind, cutoff: int, keep: nat, r: RunId)
    ensures r in Doomed(runs, row.id, kind, Pointer(row.candidate, kind), cutoff, keep) ==>
      r in runs && runs[r].kind == kind && runs[r].candidate == row.id && Drops(runs, row, cutoff, keep, r)
  {
  }

  /** Runs deleted for earlier rows belong to other candidates. */
  lemma GoneBelongsToEarlier(runs: Runs, rows: seq<Row>, i: nat, cutoff: int, keep: nat, r: RunId)
    requires InIdOrder(rows) && i < |rows| && r in Gone(runs, rows[..i], cutoff, keep)
    ensures runs[r].candidate != rows[i].id
  {
    var j :| 0 <= j < i && Drops(runs, rows[..i][j], cutoff, keep, r);
    DoomedOwn(runs, rows[j], runs[r].kind, cutoff, keep, r);
  }

  lemma NothingGone(runs: Runs)
    ensures Without(runs, {}) == runs && OfKind(runs, {}, Enrichment) == OfKind(runs, {}, Rewrite) == {}
  {
  }

  lemma NothingGoneYet(runs: Runs, none: seq<Row>, cutoff: int, keep: nat)
    requires none == []
    ensures Gone(runs, none, cutoff, keep) == {} && Without(runs, {}) == runs
    ensures OfKind(runs, {}, Enrichment) == OfKind(runs, {}, Rewrite) == {}
  {
  }

  /******* What is expected, in fields *******/

  /** A run that has ended and was created before the cutoff. */
  predicate Ended(run: Run, c: CandidateId, kind: Kind, cutoff: int) {
    && run.candidate == c && run.kind == kind && run.createdAt < cutoff
    && run.status in {Completed, Failed, Outdated, Discarded, Abandoned}
  }

  /** The ended runs of the same candidate and kind that come before it, newest first. */
  function Ahead(runs: Runs, r: RunId, cutoff: int): set<RunId>
    requires r in runs
  {
    set a | a in runs && Ended(runs[a], runs[r].candidate, runs[r].kind, cutoff)
            && (runs[a].createdAt > runs[r].createdAt || (runs[a].createdAt == runs[r].createdAt && a > r))
  }

  /** Ended, not what the candidate points to, and at least `keep` such runs are newer. */
  predicate Surplus(runs: Runs, c: CandidateId, kind: Kind, current: Option<RunId>, cutoff: int, keep: nat, r: RunId)
    requires r in runs
  {
    Ended(runs[r], c, kind, cutoff) && current != Some(r) && keep <= |Ahead(runs, r, cutoff)|
  }

  /** One of the scanned candidates has it as a surplus run. */
  ghost predicate SurplusOfSome(runs: Runs, rows: seq<Row>, cutoff: int, keep: nat, r: RunId)
    requires r in runs
  {
    var kind := runs[r].kind;
    exists i :: 0 <= i < |rows|
      && var current := rows[i].candidate.current;
         Surplus(runs, rows[i].id, kind, if kind in current then Some(current[kind]) else None, cutoff, keep, r)
  }

  lemma DoomedIsSurplus(
    runs: Runs, c: CandidateId, kind: Kind, current: Option<RunId>, cutoff: int, keep: nat, r: RunId)
    requires r in runs
    ensures r in Doomed(runs, c, kind, current, cutoff, keep) <==> Surplus(runs, c, kind, current, cutoff, keep, r)
  {
    if r in OldRuns(runs, c, kind, cutoff) {
      assert NewerThan(runs, OldRuns(runs, c, kind, cutoff), r) == Ahead(runs, r, cutoff);
    }
  }

  lemma DoomedAreSurplus(runs: Runs, c: CandidateId, kind: Kind, current: Option<RunId>, cutoff: int, keep: nat)
    ensures var gone := Doomed(runs, c, kind, current, cutoff, keep);
      && gone == (set r | r in runs && Surplus(runs, c, kind, current, cutoff, keep, r))
      && (forall r :: r in Without(runs, gone) <==> r in runs && !Surplus(runs, c, kind, current, cutoff, keep, r))
  {
    hide Surplus;
    forall r | r in runs
      ensures r in Doomed(runs, c, kind, current, cutoff, keep) <==> Surplus(runs, c, kind, current, cutoff, keep, r)
    {
      DoomedIsSurplus(runs, c, kind, current, cutoff, keep, r);
    }
  }

  lemma GoneIsSurplus(runs: Runs, rows: seq<Row>, cutoff: int, keep: nat)
    ensures forall r :: r in runs ==>
      (r in Gone(runs, rows, cutoff, keep) <==> SurplusOfSome(runs, rows, cutoff, keep, r))
  {
    hide Doomed, Surplus;
    forall r | r in runs
      ensures r in Gone(runs, rows, cutoff, keep) <==> SurplusOfSome(runs, rows, cutoff, keep, r)
    {
      forall i | 0 <= i < |rows|
        ensures var kind, current := runs[r].kind, rows[i].candidate.current;
          Drops(runs, rows[i], cutoff, keep, r) <==>
          Surplus(runs, rows[i].id, kind, if kind in current then Some(current[kind]) else None, cutoff, keep, r)
      {
        DoomedIsSurplus(runs, rows[i].id, runs[r].kind, Pointer(rows[i].candidate, runs[r].kind), cutoff, keep, r);
      }
    }
  }

  /** The runs of a kind that are no longer there. */
  function DeletedOf(before: Runs, after: Runs, kind: Kind): set<RunId> {
    set r | r in before && r !in after && before[r].kind == kind
  }

  /** Exactly the surplus runs of the scanned candidates are gone, and the others are as they were. */
  ghost predicate OnlySurplusGone(candidates: seq<Row>, before: Runs, after: Runs, retentionDays: int, keepRecent: int,
                                  candidateLimit: int, now: int)
  {
    var keep, limit := Clamp(keepRecent, 1, 100), Clamp(candidateLimit, 1, 1000);
    var cutoff := now - Max(1, retentionDays) * 86_400_000_000;
    var inactive := Inactive(candidates);
    var rows := inactive[..if limit < |inactive| then limit else |inactive|];
    && (forall r :: r in after <==> r in before && !SurplusOfSome(before, rows, cutoff, keep, r))
    && (forall r :: r in after ==> after[r] == before[r])
  }

  lemma GoneAsExpected(candidates: seq<Row>, runs: Runs, retentionDays: int, keepRecent: int, candidateLimit: int,
                       now: int)
    requires InIdOrder(candidates)
    ensures var keep, limit := Clamp(keepRecent, 1, 100), Clamp(candidateLimit, 1, 1000);
      var gone := Gone(runs, Selected(candidates, limit), now - Max(1, retentionDays) * DAY, keep);
      OnlySurplusGone(candidates, runs, Without(runs, gone), retentionDays, keepRecent, candidateLimit, now)
  {
    hide Gone, SurplusOfSome, Selected;
    var keep, limit := Clamp(keepRecent, 1, 100), Clamp(candidateLimit, 1, 1000);
    var rows, cutoff := Selected(candidates, limit), now - Max(1, retentionDays) * DAY;
    SelectedIsTheScan(candidates, limit);
    GoneIsSurplus(runs, rows, cutoff, keep);
    GoneByKind(runs, rows, cutoff, keep);
  }

  lemma GoneByKind(runs: Runs, rows: seq<Row>, cutoff: int, keep: nat)
    ensures var gone := Gone(runs, rows, cutoff, keep);
      && (forall r :: r in Without(runs, gone) <==> r in runs && r !in gone)
      && forall kind :: DeletedOf(runs, Without(runs, gone), kind) == OfKind(runs, gone, kind)
  {
    hide Expendable;
  }

  class AIRunRetentionService {
    var candidates: seq<Row>
    var runs: Runs

    constructor (candidates: seq<Row>, runs: Runs)
      ensures this.candidates == candidates && this.runs == runs
    {
      this.candidates := candidates;
      this.runs := runs;
    }

    method DeleteOldTerminal(c: CandidateId, kind: Kind, current: Option<RunId>, cutoff: int, keep: nat)
      returns (deleted: nat)
      modifies this`runs
      ensures forall r :: r in runs <==> r in old(runs) && !Surplus(old(runs), c, kind, current, cutoff, keep, r)
      ensures forall r :: r in runs ==> runs[r] == old(runs)[r]
      ensures deleted == |set r | r in old(runs) && Surplus(old(runs), c, kind, current, cutoff, keep, r)|
      ensures runs == Without(old(runs), Doomed(old(runs), c, kind, current, cutoff, keep))
      ensures deleted == |Doomed(old(runs), c, kind, current, cutoff, keep)|
    {
      hide Surplus;
      DoomedAreSurplus(runs, c, kind, current, cutoff, keep);
      var aged := OldRuns(runs, c, kind, cutoff);
      var protectedIds := Newest(runs, aged, keep);
      if current.Some? {
        protectedIds := protectedIds + {current.value};
      }
      var gone := aged - protectedIds;
      assert gone == Doomed(runs, c, kind, current, cutoff, keep);
      runs := Without(runs, gone);
      deleted := |gone|;
    }

    /**
     Deletes exactly the expendable runs of the scanned candidates, judged on the table as it was
     when the cleanup started, and reports how many of each kind.
     */
    method Cleanup(retentionDays: int, keepRecent: int, candidateLimit: int, now: int)
      returns (scanned: nat, enrichmentDeleted: nat, rewriteDeleted: nat)
      requires InIdOrder(candidates)
      modifies this`runs
      ensures var keep, limit := Clamp(keepRecent, 1, 100), Clamp(candidateLimit, 1, 1000);
        var rows, cutoff := Selected(candidates, limit), now - Max(1, retentionDays) * DAY;
        var gone := Gone(old(runs), rows, cutoff, keep);
        && runs == Without(old(runs), gone)
        && scanned == |rows|
        && enrichmentDeleted == |OfKind(old(runs), gone, Enrichment)|
        && rewriteDeleted == |OfKind(old(runs), gone, Rewrite)|
      ensures OnlySurplusGone(candidates, old(runs), runs, retentionDays, keepRecent, candidateLimit, now)
      ensures enrichmentDeleted == |DeletedOf(old(runs), runs, Enrichment)|
      ensures rewriteDeleted == |DeletedOf(old(runs), runs, Rewrite)|
    {
      hide Gone, OfKind, Selected, Expendable, OnlySurplusGone;
      var keep, limit := Clamp(keepRecent, 1, 100), Clamp(candidateLimit, 1, 1000);
      var cutoff := now - Max(1, retentionDays) * DAY;
      var rows := Selected(candidates, limit);
      SelectedIsTheScan(candidates, limit);
      enrichmentDeleted, rewriteDeleted := 0, 0;
      NothingGoneYet(runs, rows[..0], cutoff, keep);
      for i := 0 to |rows|
        invariant runs == Without(old(runs), Gone(old(runs), rows[..i], cutoff, keep))
        invariant enrichmentDeleted == |OfKind(old(runs), Gone(old(runs), rows[..i], cutoff, keep), Enrichment)|
        invariant rewriteDeleted == |OfKind(old(runs), Gone(old(runs), rows[..i], cutoff, keep), Rewrite)|
      {
        var e, w := CleanCandidate(rows, i, cutoff, keep, old(runs));
        enrichmentDeleted, rewriteDeleted := enrichmentDeleted + e, rewriteDeleted + w;
      }
      assert rows[..|rows|] == rows;
      scanned := |rows|;
      GoneByKind(old(runs), rows, cutoff, keep);
      GoneAsExpected(candidates, old(runs), retentionDays, keepRecent, candidateLimit, now);
    }

    /** Two cleanups with the same clock and settings, one after the other: the second deletes nothing. */
    method CleanupTwice(retentionDays: int, keepRecent: int, candidateLimit: int, now: int)
      returns (first: (nat, nat, nat), second: (nat, nat, nat))
      requires InIdOrder(candidates)
      modifies this`runs
      ensures var keep, limit := Clamp(keepRecent, 1, 100), Clamp(candidateLimit, 1, 1000);
        var rows, cutoff := Selected(candidates, limit), now - Max(1, retentionDays) * DAY;
        runs == Without(old(runs), Gone(old(runs), rows, cutoff, keep))
      ensures second == (first.0, 0, 0)
    {
      hide Gone, OfKind, Selected, Expendable, OnlySurplusGone, DeletedOf;
      var keep, limit := Clamp(keepRecent, 1, 100), Clamp(candidateLimit, 1, 1000);
      ghost var rows, cutoff := Selected(candidates, limit), now - Max(1, retentionDays) * DAY;
      SelectedIsTheScan(candidates, limit);
      SecondCleanupDeletesNothing(runs, rows, cutoff, keep);
      var a, b, c := Cleanup(retentionDays, keepRecent, candidateLimit, now);
      NothingGone(runs);
      first := (a, b, c);
      a, b, c := Cleanup(retentionDays, keepRecent, candidateLimit, now);
      second := (a, b, c);
    }

    /** The loop body. */
    method CleanCandidate(rows: seq<Row>, i: nat, cutoff: int, keep: nat, ghost before: Runs) returns (e: nat, w: nat)
      requires InIdOrder(rows) && i < |rows|
      requires runs == Without(before, Gone(before, rows[..i], cutoff, keep))
      modifies this`runs
      ensures runs == Without(before, Gone(before, rows[..i + 1], cutoff, keep))
      ensures |OfKind(before, Gone(before, rows[..i + 1], cutoff, keep), Enrichment)|
           == |OfKind(before, Gone(before, rows[..i], cutoff, keep), Enrichment)| + e
      ensures |OfKind(before, Gone(before, rows[..i + 1], cutoff, keep), Rewrite)|
           == |OfKind(before, Gone(before, rows[..i], cutoff, keep), Rewrite)| + w
    {
      hide Doomed, Gone, OfKind, InIdOrder, Surplus;
      var row := rows[i];
      ghost var earlier := Gone(before, rows[..i], cutoff, keep);
      ghost var x := Doomed(before, row.id, Enrichment, Pointer(row.candidate, Enrichment), cutoff, keep);
      ghost var y := Doomed(before, row.id, Rewrite, Pointer(row.candidate, Rewrite), cutoff, keep);
      CandidateParts(before, rows, i, cutoff, keep);
      e := DeleteOldTerminal(row.id, Enrichment, Pointer(row.candidate, Enrichment), cutoff, keep);
      assert runs == Without(before, earlier + x);
      w := DeleteOldTerminal(row.id, Rewrite, Pointer(row.candidate, Rewrite), cutoff, keep);
      assert runs == Without(before, earlier + x + y);
    }
  }

  /** What the two calls for one candidate delete, and that it is disjoint from everything before. */
  lemma CandidateParts(before: Runs, rows: seq<Row>, i: nat, cutoff: int, keep: nat)
    requires InIdOrder(rows) && i < |rows|
    ensures var row := rows[i];
      var earlier := Gone(before, rows[..i], cutoff, keep);
      var x := Doomed(before, row.id, Enrichment, Pointer(row.candidate, Enrichment), cutoff, keep);
      var y := Doomed(before, row.id, Rewrite, Pointer(row.candidate, Rewrite), cutoff, keep);
      && Doomed(Without(before, earlier), row.id, Enrichment, Pointer(row.candidate, Enrichment), cutoff, keep) == x
      && Doomed(Without(before, earlier + x), row.id, Rewrite, Pointer(row.candidate, Rewrite), cutoff, keep) == y
      && Gone(before, rows[..i + 1], cutoff, keep) == earlier + x + y
      && |OfKind(before, earlier + x + y, Enrichment)| == |OfKind(before, earlier, Enrichment)| + |x|
      && |OfKind(before, earlier + x + y, Rewrite)| == |OfKind(before, earlier, Rewrite)| + |y|
  {
    hide Doomed, Drops, Expendable, InIdOrder;
    var row := rows[i];
    var earlier := Gone(before, rows[..i], cutoff, keep);
    var x := Doomed(before, row.id, Enrichment, Pointer(row.candidate, Enrichment), cutoff, keep);
    var y := Doomed(before, row.id, Rewrite, Pointer(row.candidate, Rewrite), cutoff, keep);
    forall r | r in earlier
      ensures r in before && before[r].candidate != row.id
    {
      GoneBelongsToEarlier(before, rows, i, cutoff, keep, r);
    }
    forall r
      ensures r in x ==> r in before && before[r].kind == Enrichment && before[r].candidate == row.id
      ensures r in y ==> r in before && before[r].kind == Rewrite && before[r].candidate == row.id
    {
      DoomedOwn(before, row, Enrichment, cutoff, keep, r);
      DoomedOwn(before, row, Rewrite, cutoff, keep, r);
    }
    DoomedIsLocal(before, earlier, row.id, Enrichment, Pointer(row.candidate, Enrichment), cutoff, keep);
    DoomedIsLocal(before, earlier + x, row.id, Rewrite, Pointer(row.candidate, Rewrite), cutoff, keep);
    GoneNext(before, rows, i, cutoff, keep);
    assert OfKind(before, earlier + x + y, Enrichment) == OfKind(before, earlier, Enrichment) + x;
    assert OfKind(before, earlier + x + y, Rewrite) == OfKind(before, earlier, Rewrite) + y;
  }

  /******* What a cleanup guarantees *******/

  /** A second cleanup at the same time, with the same settings, deletes nothing. */
  lemma SecondCleanupDeletesNothing(runs: Runs, rows: seq<Row>, cutoff: int, keep: nat)
    requires InIdOrder(rows)
    ensures Gone(Without(runs, Gone(runs, rows, cutoff, keep)), rows, cutoff, keep) == {}
  {
    hide Doomed, InIdOrder;
    var gone := Gone(runs, rows, cutoff, keep);
    var rest := Without(runs, gone);
    forall r, i | r in rest && 0 <= i < |rows|
      ensures !Drops(rest, rows[i], cutoff, keep, r)
    {
      var row, kind := rows[i], rest[r].kind;
      forall a | a in Doomed(runs, row.id, kind, Pointer(row.candidate, kind), cutoff, keep)
        ensures a in gone
      {
        DoomedOwn(runs, row, kind, cutoff, keep, a);
      }
      DoomedAgain(runs, gone, row.id, kind, Pointer(row.candidate, kind), cutoff, keep);
    }
  }

  /** Once everything a call would delete is gone, the call deletes nothing. */
  lemma DoomedAgain(
    runs: Runs, gone: set<RunId>, c: CandidateId, kind: Kind, current: Option<RunId>, cutoff: int, keep: nat)
    requires Doomed(runs, c, kind, current, cutoff, keep) <= gone
    ensures Doomed(Without(runs, gone), c, kind, current, cutoff, keep) == {}
  {
    var rest := Without(runs, gone);
    var aged, left := OldRuns(runs, c, kind, cutoff), OldRuns(rest, c, kind, cutoff);
    forall r | r in left && r in Newest(runs, aged, keep)
      ensures r in Newest(rest, left, keep)
    {
      assert NewerThan(rest, left, r) <= NewerThan(runs, aged, r);
      SubsetSize(NewerThan(rest, left, r), NewerThan(runs, aged, r));
    }
  }

  /** What survives: recent and running runs, the current run, and `keep` old runs if there were as many. */
  lemma CleanupKeeps(runs: Runs, rows: seq<Row>, cutoff: int, keep: nat, row: Row, kind: Kind)
    requires InIdOrder(rows) && row in rows
    ensures var rest := Without(runs, Gone(runs, rows, cutoff, keep));
      && (forall r :: r in runs && (runs[r].createdAt >= cutoff || runs[r].status == Running) ==> r in rest)
      && (kind in row.candidate.current && row.candidate.current[kind] in runs
          && runs[row.candidate.current[kind]].candidate == row.id && runs[row.candidate.current[kind]].kind == kind
          ==> row.candidate.current[kind] in rest)
      && var aged := OldRuns(runs, row.id, kind, cutoff);
         |OldRuns(rest, row.id, kind, cutoff)| >= if keep < |aged| then keep else |aged|
  {
    var gone := Gone(runs, rows, cutoff, keep);
    var aged := OldRuns(runs, row.id, kind, cutoff);
    NewestIsTheFirstRows(runs, aged, keep);
    var i :| 0 <= i < |rows| && rows[i] == row;
    forall r | r in gone && runs[r].candidate == row.id
      ensures Drops(runs, row, cutoff, keep, r)
    {
      var j :| 0 <= j < |rows| && Drops(runs, rows[j], cutoff, keep, r);
      assert rows[j].id == row.id;
    }
    assert Newest(runs, aged, keep) <= OldRuns(Without(runs, gone), row.id, kind, cutoff);
    SubsetSize(Newest(runs, aged, keep), OldRuns(Without(runs, gone), row.id, kind, cutoff));
  }
}
