/**
 What every reachable state of the run protocol satisfies: the provider is asked at most once for a
 run and for an occurrence, and drafts are persisted all together or not at all.
 */
module AgentRunSafety {
  import opened Wrappers
  import opened AgentRuns
  import opened AgentRunProtocol

  /** The worker that inserted the run and has not accepted an answer yet. */
  predicate BeforeAnswer(pc: Pc) {
    pc.Started? || pc.Inflight? || pc.Called?
  }

  predicate AfterAnswer(pc: Pc) {
    pc.Persisting? || pc.Counted? || pc.Persisted? || pc.Checked?
    || (pc.Read? && (pc.phase == GenerationValidated || pc.phase == DraftsPersisted))
  }

  ghost predicate WorkerInv(s: State, pc: Pc) {
    && (Holds(pc) ==> pc.r in s.db.runs)
    && (pc.Looking? ==> AskedWell(pc.q)) && (pc.Inserting? ==> AskedWell(pc.q))
    && (pc.Started? || pc.Inflight? ==> pc.r !in s.calls)
    && (pc.Inflight? ==> s.db.runs[pc.r].phase != Created)
    && (BeforeAnswer(pc) ==> pc.r !in s.answered)
    && (pc.Called? ==> pc.r in s.calls)
    && (AfterAnswer(pc) ==> pc.r in s.answered)
    && (pc.Checked? ==> Full(s.db, pc.r))
    && ((pc.Forced? || pc.FailWrite?) && pc.force.Some? ==>
          pc.force.value in {RestartRequired, PhaseFailed, FailedClosed})
  }

  predicate AskedWell(q: Request) {
    WritesDrafts(q) ==> q.posts >= 1
  }

  /** `asked` and `answered` say that the provider was asked for the run and that its answer was accepted. */
  ghost predicate RowInv(r: RunId, run: Run, nextRun: RunId, a: map<nat, ContentId>, drafts: map<ContentId, RunId>,
                         asked: bool, answered: bool) {
    && r < nextRun && AskedWell(run.asked)
    && (answered ==> asked && WritesDrafts(run.asked))
    && (asked && WritesDrafts(run.asked) ==> run.phase != Created)
    && (run.phase == GenerationValidated ==> answered && a == map[])
    && (run.phase == DraftsPersisted ==> a != map[])
    && (a != map[] ==> answered && FullSet(a, drafts, run.asked.posts, r))
    && (run.status == Completed && WritesDrafts(run.asked) ==> a != map[])
    && AllLinked(a, drafts, r)
  }

  ghost predicate RunInv(s: State, r: RunId)
    requires r in s.db.runs
  {
    RowInv(r, s.db.runs[r], s.db.nextRun, ArtifactsOf(s.db, r), s.db.drafts, r in s.calls, r in s.answered)
  }

  ghost predicate Unique(db: Db) {
    forall a, b :: a in db.runs && b in db.runs && a != b ==>
      !SameIdentity(db.runs[a].asked, db.runs[b].asked) && !SameOccurrence(db.runs[a].asked, db.runs[b].asked)
  }

  ghost predicate NoRepeats(calls: seq<RunId>) {
    forall i, j :: 0 <= i < j < |calls| ==> calls[i] != calls[j]
  }

  ghost predicate Known(s: State) {
    && (forall r :: r in s.calls ==> r in s.db.runs)
    && s.answered <= s.db.runs.Keys && s.db.artifacts.Keys <= s.db.runs.Keys
    && (forall i :: i in s.db.drafts ==> i < s.db.nextItem && s.db.drafts[i] in s.db.runs)
  }

  predicate SameMaker(a: Pc, b: Pc) {
    BeforeAnswer(a) && BeforeAnswer(b) && a.r == b.r
  }

  ghost predicate OneMaker(s: State) {
    forall p, p' :: p in s.workers && p' in s.workers && SameMaker(s.workers[p], s.workers[p']) ==> p == p'
  }

  ghost predicate Inv(s: State) {
    && Unique(s.db) && NoRepeats(s.calls) && Known(s) && OneMaker(s)
    && (forall r :: r in s.db.runs ==> RunInv(s, r))
    && (forall p :: p in s.workers ==> WorkerInv(s, s.workers[p]))
  }

  /******* Every step keeps the invariant *******/

  /** Only worker p moved, and it did not become the maker of a run. */
  ghost predicate Moved(s: State, p: Worker, s': State) {
    && (forall p' :: p' in s'.workers && p' != p ==> p' in s.workers && s'.workers[p'] == s.workers[p'])
    && (p in s'.workers && BeforeAnswer(s'.workers[p]) ==>
          p in s.workers && BeforeAnswer(s.workers[p]) && s.workers[p].r == s'.workers[p].r)
  }

  lemma MovedOneMaker(s: State, p: Worker, s': State)
    requires OneMaker(s) && Moved(s, p, s')
    ensures OneMaker(s')
  {
    forall q, q' | q in s'.workers && q' in s'.workers && SameMaker(s'.workers[q], s'.workers[q'])
      ensures q == q'
    {
      assert q in s.workers && q' in s.workers && SameMaker(s.workers[q], s.workers[q']);
    }
  }

  lemma ItsWorker(s: State, p: Worker)
    requires Inv(s) && p in s.workers
    ensures WorkerInv(s, s.workers[p])
  {
  }

  lemma ItsRun(s: State, r: RunId)
    requires Inv(s) && r in s.db.runs
    ensures RunInv(s, r)
  {
  }

  /** A step that at most rewrites the row of run r, keeping what was asked. */
  lemma RowStepKeeps(s: State, p: Worker, s': State, r: RunId, run: Run)
    requires Inv(s) && r in s.db.runs && run.asked == s.db.runs[r].asked
    requires s.db.runs[r].phase != Created ==> run.phase != Created
    requires s' == s.(db := SetRun(s.db, r, run), workers := s'.workers) && Moved(s, p, s')
    requires RunInv(s', r)
    requires p in s'.workers ==> WorkerInv(s', s'.workers[p])
    ensures Inv(s')
  {
    hide OneMaker, Moved, RowInv, FullSet;
    assert OneMaker(s') by { MovedOneMaker(s, p, s'); }
    forall x | x in s'.db.runs
      ensures RunInv(s', x)
    {
      assert RunInv(s, x);
    }
    forall p' | p' in s'.workers
      ensures WorkerInv(s', s'.workers[p'])
    {
      RowStepWorker(s, p, s', r, run, p');
    }
  }

  lemma RowStepWorker(s: State, p: Worker, s': State, r: RunId, run: Run, p': Worker)
    requires Inv(s) && r in s.db.runs && run.asked == s.db.runs[r].asked
    requires s.db.runs[r].phase != Created ==> run.phase != Created
    requires s' == s.(db := SetRun(s.db, r, run), workers := s'.workers) && Moved(s, p, s')
    requires p in s'.workers ==> WorkerInv(s', s'.workers[p])
    requires p' in s'.workers
    ensures WorkerInv(s', s'.workers[p'])
  {
    hide Inv, FullSet;
    if p' != p {
      ItsWorker(s, p');
    }
  }

  /** A step that leaves the tables alone. */
  lemma MoveKeeps(s: State, p: Worker, s': State)
    requires Inv(s) && s' == s.(workers := s'.workers) && Moved(s, p, s')
    requires p in s'.workers ==> WorkerInv(s', s'.workers[p])
    ensures Inv(s')
  {
    hide OneMaker, Moved, RowInv, FullSet, Unique, NoRepeats;
    assert OneMaker(s') by { MovedOneMaker(s, p, s'); }
    forall x | x in s'.db.runs
      ensures RunInv(s', x)
    {
      assert RunInv(s, x);
    }
    forall p' | p' in s'.workers
      ensures WorkerInv(s', s'.workers[p'])
    {
      MovedWorker(s, p, s', p');
    }
  }

  lemma MovedWorker(s: State, p: Worker, s': State, p': Worker)
    requires Inv(s) && s' == s.(workers := s'.workers) && Moved(s, p, s') && p' in s'.workers
    requires p in s'.workers ==> WorkerInv(s', s'.workers[p])
    ensures WorkerInv(s', s'.workers[p'])
  {
    hide Inv, FullSet;
    if p' != p {
      ItsWorker(s, p');
    }
  }

  lemma StartKeeps(s: State, p: Worker, a: Action)
    requires Inv(s) && Enabled(s, p, a) && (a.StartRun? || a.StartResume?)
    ensures Inv(Next(s, p, a))
  {
    hide Inv;
    MoveKeeps(s, p, Next(s, p, a));
  }

  lemma LookKeeps(s: State, p: Worker, a: Action)
    requires Inv(s) && Enabled(s, p, a) && (a.LookUp? || a.Count? || a.Check? || a.Return? || a.Die?)
    ensures Inv(Next(s, p, a))
  {
    hide Inv, FullSet, Taken, PersistDrafts, InsertRun, CompleteRun, FailRun, FailSeen, ClaimRun, SetRun, SetPhase;
    hide Dispatched;
    ItsWorker(s, p);
    MoveKeeps(s, p, Next(s, p, a));
  }

  lemma TurnKeeps(s: State, p: Worker, a: Action)
    requires Inv(s) && Enabled(s, p, a) && (a.Raise? || a.FailRead? || a.Reload? || a.ReadRow?)
    ensures Inv(Next(s, p, a))
  {
    hide Inv, FullSet, Taken, PersistDrafts, InsertRun, CompleteRun, FailRun, FailSeen, ClaimRun, SetRun, SetPhase;
    hide Dispatched;
    ItsWorker(s, p);
    if a.ReadRow? {
      assert s.workers[p].r in s.db.runs;
      ItsRun(s, s.workers[p].r);
    }
    MoveKeeps(s, p, Next(s, p, a));
  }

  lemma SameRow(s: State, r: RunId)
    requires r in s.db.runs
    ensures SetRun(s.db, r, s.db.runs[r]) == s.db
  {
    assert s.db.runs[r := s.db.runs[r]] == s.db.runs;
  }

  lemma MakerWriteKeeps(s: State, p: Worker, a: Action)
    requires Inv(s) && Enabled(s, p, a) && (a.Prepare? || (a.Answer? && !a.valid))
    ensures Inv(Next(s, p, a))
  {
    hide Inv, FullSet, Taken, PersistDrafts, InsertRun, CompleteRun, FailSeen, ClaimRun, Dispatched, Catches, Resumed;
    ItsWorker(s, p);
    var s', r := Next(s, p, a), s.workers[p].r;
    ItsRun(s, r);
    RowStepKeeps(s, p, s', r, s'.db.runs[r]);
  }

  lemma FinishBriefKeeps(s: State, p: Worker)
    requires Inv(s) && Enabled(s, p, FinishBrief)
    ensures Inv(Next(s, p, FinishBrief))
  {
    hide Inv, FullSet, Taken, PersistDrafts, InsertRun, SetPhase, FailSeen, ClaimRun, Dispatched, Catches, Resumed;
    ItsWorker(s, p);
    var s', r := Next(s, p, FinishBrief), s.workers[p].r;
    ItsRun(s, r);
    RowStepKeeps(s, p, s', r, s'.db.runs[r]);
  }

  lemma FullIsNotEmpty(db: Db, r: RunId)
    requires r in db.runs && Full(db, r) && db.runs[r].asked.posts >= 1
    ensures ArtifactsOf(db, r) != map[]
  {
    assert 1 in ArtifactsOf(db, r);
  }

  lemma CompleteKeeps(s: State, p: Worker)
    requires Inv(s) && Enabled(s, p, Complete)
    ensures Inv(Next(s, p, Complete))
  {
    hide Inv, FullSet, Taken, PersistDrafts, InsertRun, FailSeen, ClaimRun, Dispatched, Catches, Resumed, Refused;
    ItsWorker(s, p);
    var s', r := Next(s, p, Complete), s.workers[p].r;
    ItsRun(s, r);
    if s.db.runs[r].asked.posts >= 1 {
      FullIsNotEmpty(s.db, r);
    }
    RowStepKeeps(s, p, s', r, s'.db.runs[r]);
  }

  lemma FailKeeps(s: State, p: Worker)
    requires Inv(s) && Enabled(s, p, Fail)
    ensures Inv(Next(s, p, Fail))
  {
    hide Inv, FullSet, Taken, PersistDrafts, InsertRun, CompleteRun, ClaimRun, Dispatched, Catches, Resumed, Refused;
    hide AllLinked, AskedWell, ForcedPhase;
    ItsWorker(s, p);
    var s', r := Next(s, p, Fail), s.workers[p].r;
    ItsRun(s, r);
    RowStepKeeps(s, p, s', r, s'.db.runs[r]);
  }

  lemma AcquireKeeps(s: State, p: Worker, a: Action)
    requires Inv(s) && Enabled(s, p, a) && a.Acquire?
    ensures Inv(Next(s, p, a))
  {
    hide Inv, FullSet, Taken, PersistDrafts, InsertRun, CompleteRun, FailRun, FailSeen, SetPhase, Full;
    ItsWorker(s, p);
    var s', r := Next(s, p, a), s.workers[p].r;
    ItsRun(s, r);
    SameRow(s, r);
    RowStepKeeps(s, p, s', r, s'.db.runs[r]);
  }

  lemma DispatchKeeps(s: State, p: Worker)
    requires Inv(s) && Enabled(s, p, Dispatch)
    ensures Inv(Next(s, p, Dispatch))
  {
    hide Inv, FullSet, Taken, PersistDrafts, InsertRun, CompleteRun, FailRun, FailSeen, SetPhase, Full;
    ItsWorker(s, p);
    var s', r := Next(s, p, Dispatch), s.workers[p].r;
    ItsRun(s, r);
    SameRow(s, r);
    RowStepKeeps(s, p, s', r, s'.db.runs[r]);
  }

  lemma FreshId(s: State)
    requires Inv(s)
    ensures s.db.nextRun !in s.db.runs
  {
    forall r | r in s.db.runs
      ensures r < s.db.nextRun
    {
      assert RunInv(s, r);
    }
  }

  lemma InsertKeeps(s: State, p: Worker)
    requires Inv(s) && Enabled(s, p, Insert)
    ensures Inv(Next(s, p, Insert))
  {
    hide OneMaker, FullSet, AllLinked, RunInv, RowInv;
    var s' := Next(s, p, Insert);
    assert WorkerInv(s, s.workers[p]);
    if Taken(s.db, s.workers[p].q) {
      MoveKeeps(s, p, s');
    } else {
      FreshId(s);
      InsertOneMaker(s, p);
      InsertedRuns(s, p);
      forall p' | p' in s'.workers
        ensures WorkerInv(s', s'.workers[p'])
      {
        assert p' != p ==> WorkerInv(s, s.workers[p']);
      }
    }
  }

  lemma InsertedRuns(s: State, p: Worker)
    requires Inv(s) && Enabled(s, p, Insert) && !Taken(s.db, s.workers[p].q) && s.db.nextRun !in s.db.runs
    ensures var s' := Next(s, p, Insert); forall r :: r in s'.db.runs ==> RunInv(s', r)
  {
    hide Inv, FullSet, AllLinked, RowInv, Taken, ArtifactsOf;
    var s' := Next(s, p, Insert);
    ItsWorker(s, p);
    forall r | r in s'.db.runs
      ensures RunInv(s', r)
    {
      assert ArtifactsOf(s'.db, r) == ArtifactsOf(s.db, r) by { SameArtifacts(s.db, s'.db, r); }
      if r == s.db.nextRun {
        NothingYet(s, r);
        FreshRow(r, s'.db.runs[r], s.db.drafts);
      } else {
        ItsRun(s, r);
        LaterRow(r, s.db.runs[r], s.db.nextRun, ArtifactsOf(s.db, r), s.db.drafts, r in s.calls, r in s.answered);
      }
    }
  }

  lemma SameArtifacts(db: Db, db': Db, r: RunId)
    requires db'.artifacts == db.artifacts
    ensures ArtifactsOf(db', r) == ArtifactsOf(db, r)
  {
  }

  lemma NothingYet(s: State, r: RunId)
    requires Inv(s) && r !in s.db.runs
    ensures ArtifactsOf(s.db, r) == map[] && r !in s.calls && r !in s.answered
    ensures forall i :: i in s.db.drafts ==> s.db.drafts[i] != r
  {
  }

  lemma FreshRow(r: RunId, run: Run, drafts: map<ContentId, RunId>)
    requires run.phase == Created && run.status == Running && AskedWell(run.asked)
    requires forall i :: i in drafts ==> drafts[i] != r
    ensures RowInv(r, run, r + 1, map[], drafts, false, false)
  {
  }

  lemma LaterRow(r: RunId, run: Run, nextRun: RunId, a: map<nat, ContentId>, drafts: map<ContentId, RunId>,
                 asked: bool, answered: bool)
    requires RowInv(r, run, nextRun, a, drafts, asked, answered)
    ensures RowInv(r, run, nextRun + 1, a, drafts, asked, answered)
  {
  }

  lemma InsertOneMaker(s: State, p: Worker)
    requires Inv(s) && Enabled(s, p, Insert) && !Taken(s.db, s.workers[p].q) && s.db.nextRun !in s.db.runs
    ensures OneMaker(Next(s, p, Insert))
  {
    hide FullSet, RunInv;
    var s' := Next(s, p, Insert);
    forall q, q' | q in s'.workers && q' in s'.workers && SameMaker(s'.workers[q], s'.workers[q'])
      ensures q == q'
    {
      assert q != p ==> WorkerInv(s, s.workers[q]);
      assert q' != p ==> WorkerInv(s, s.workers[q']);
      if q != p && q' != p {
        assert SameMaker(s.workers[q], s.workers[q']);
      }
    }
  }

  lemma CallKeeps(s: State, p: Worker)
    requires Inv(s) && Enabled(s, p, CallProvider)
    ensures Inv(Next(s, p, CallProvider))
  {
    hide OneMaker, FullSet, AllLinked, RowInv, Taken, PersistDrafts, InsertRun, FailSeen, ClaimRun, Dispatched;
    var s', r := Next(s, p, CallProvider), s.workers[p].r;
    assert WorkerInv(s, s.workers[p]);
    assert OneMaker(s') by { MovedOneMaker(s, p, s'); }
    forall x | x in s'.db.runs
      ensures RunInv(s', x)
    {
      assert RunInv(s, x);
      if x == r {
        NowAsked(r, s.db.runs[r], s.db.nextRun, ArtifactsOf(s.db, r), s.db.drafts, r in s.calls, r in s.answered);
      }
    }
    forall p' | p' in s'.workers
      ensures WorkerInv(s', s'.workers[p'])
    {
      CallWorker(s, p, p');
    }
  }

  lemma NowAsked(r: RunId, run: Run, nextRun: RunId, a: map<nat, ContentId>, drafts: map<ContentId, RunId>,
                 asked: bool, answered: bool)
    requires RowInv(r, run, nextRun, a, drafts, asked, answered) && (WritesDrafts(run.asked) ==> run.phase != Created)
    ensures RowInv(r, run, nextRun, a, drafts, true, answered)
  {
  }

  lemma CallWorker(s: State, p: Worker, p': Worker)
    requires Inv(s) && Enabled(s, p, CallProvider) && p' in s.workers
    ensures WorkerInv(Next(s, p, CallProvider), Next(s, p, CallProvider).workers[p'])
  {
    hide Inv, FullSet;
    ItsWorker(s, p);
    if p' != p {
      ItsWorker(s, p');
      if SameMaker(s.workers[p], s.workers[p']) {
        OnlyMaker(s, p, p');
      }
    }
  }

  lemma OnlyMaker(s: State, p: Worker, p': Worker)
    requires Inv(s) && p in s.workers && p' in s.workers && SameMaker(s.workers[p], s.workers[p'])
    ensures p == p'
  {
  }

  lemma AnswerKeeps(s: State, p: Worker)
    requires Inv(s) && Enabled(s, p, Answer(true))
    ensures Inv(Next(s, p, Answer(true)))
  {
    hide OneMaker, FullSet, AllLinked, RowInv, Taken, PersistDrafts, InsertRun, FailSeen, ClaimRun, Dispatched, Refused;
    var s', r := Next(s, p, Answer(true)), s.workers[p].r;
    assert WorkerInv(s, s.workers[p]);
    assert OneMaker(s') by { MovedOneMaker(s, p, s'); }
    forall x | x in s'.db.runs
      ensures RunInv(s', x)
    {
      assert RunInv(s, x);
      if x == r {
        NowAnswered(r, s.db.runs[r], s.db.nextRun, ArtifactsOf(s.db, r), s.db.drafts);
      }
    }
    forall p' | p' in s'.workers
      ensures WorkerInv(s', s'.workers[p'])
    {
      AnswerWorker(s, p, p');
    }
  }

  lemma NowAnswered(r: RunId, run: Run, nextRun: RunId, a: map<nat, ContentId>, drafts: map<ContentId, RunId>)
    requires RowInv(r, run, nextRun, a, drafts, true, false) && WritesDrafts(run.asked)
    ensures RowInv(r, run.(phase := GenerationValidated), nextRun, a, drafts, true, true)
  {
  }

  lemma AnswerWorker(s: State, p: Worker, p': Worker)
    requires Inv(s) && Enabled(s, p, Answer(true)) && p' in s.workers
    ensures WorkerInv(Next(s, p, Answer(true)), Next(s, p, Answer(true)).workers[p'])
  {
    hide Inv, FullSet;
    ItsWorker(s, p);
    if p' != p {
      ItsWorker(s, p');
      if BeforeAnswer(s.workers[p']) && s.workers[p'].r == s.workers[p].r {
        OnlyMaker(s, p, p');
      }
    }
  }

  /** Persisting makes an empty artifact set complete. */
  lemma PersistIsComplete(db: Db, r: RunId)
    requires r in db.runs && ArtifactsOf(db, r) == map[] && AllLinked(map[], db.drafts, r)
    ensures var db' := PersistDrafts(db, r);
      Full(db', r) && AllLinked(ArtifactsOf(db', r), db'.drafts, r)
  {
    var db' := PersistDrafts(db, r);
    var a := ArtifactsOf(db', r);
    assert a == Ordinals(db.nextItem, db.runs[r].asked.posts);
    forall i | i in db'.drafts && db'.drafts[i] == r
      ensures exists o :: o in a && a[o] == i
    {
      if i >= db.nextItem {
        var o: nat := i - db.nextItem + 1;
        assert o in a ==> a[o] == i;
      }
      assert !(i in db.drafts && db.drafts[i] == r);
    }
  }

  /** It touches the drafts of no other run. */
  lemma PersistElsewhere(db: Db, r: RunId, a: map<nat, ContentId>, posts: nat, other: RunId)
    requires r in db.runs && other != r
    requires forall i :: i in db.drafts ==> i < db.nextItem
    ensures AllLinked(a, db.drafts, other) ==> AllLinked(a, PersistDrafts(db, r).drafts, other)
    ensures FullSet(a, db.drafts, posts, other) ==> FullSet(a, PersistDrafts(db, r).drafts, posts, other)
  {
  }

  lemma PersistTables(db: Db, r: RunId)
    requires r in db.runs && forall i :: i in db.drafts ==> i < db.nextItem && db.drafts[i] in db.runs
    ensures var db' := PersistDrafts(db, r);
      && db'.runs == db.runs[r := db.runs[r].(phase := DraftsPersisted)] && db'.nextRun == db.nextRun
      && db'.artifacts.Keys == db.artifacts.Keys + {r}
      && (forall x :: x != r ==> ArtifactsOf(db', x) == ArtifactsOf(db, x))
      && (forall i :: i in db'.drafts ==> i < db'.nextItem && db'.drafts[i] in db'.runs)
      && (db.runs[r].asked.posts >= 1 && ArtifactsOf(db, r) == map[] ==> ArtifactsOf(db', r) != map[])
  {
    if db.runs[r].asked.posts >= 1 {
      assert 1 in Ordinals(db.nextItem, db.runs[r].asked.posts);
      assert 1 in ArtifactsOf(PersistDrafts(db, r), r);
    }
  }

  /** The unique constraint lets the insert through exactly when the run has no artifacts. */
  lemma FitIffNone(s: State, r: RunId)
    requires Inv(s) && r in s.db.runs && r in s.answered
    ensures DraftsFit(s.db, r) <==> ArtifactsOf(s.db, r) == map[]
  {
    assert RunInv(s, r);
    if ArtifactsOf(s.db, r) != map[] {
      assert s.db.runs[r].asked.posts >= 1;
      assert 1 in ArtifactsOf(s.db, r);
    }
  }

  lemma StillUnique(db: Db, db': Db)
    requires Unique(db) && db'.runs.Keys == db.runs.Keys
    requires forall r :: r in db.runs ==> db'.runs[r].asked == db.runs[r].asked
    ensures Unique(db')
  {
  }

  lemma PersistKeeps(s: State, p: Worker)
    requires Inv(s) && Enabled(s, p, Persist)
    ensures Inv(Next(s, p, Persist))
  {
    hide FullSet, AllLinked, PersistDrafts, OneMaker, Unique, DraftsFit, ArtifactsOf, Taken, InsertRun, Dispatched;
    var s', r := Next(s, p, Persist), s.workers[p].r;
    assert WorkerInv(s, s.workers[p]) && RunInv(s, r);
    FitIffNone(s, r);
    if !DraftsFit(s.db, r) {
      MoveKeeps(s, p, s');
    } else {
      PersistIsComplete(s.db, r);
      PersistTables(s.db, r);
      assert Unique(s'.db) by { StillUnique(s.db, s'.db); }
      assert OneMaker(s') by { MovedOneMaker(s, p, s'); }
      forall x | x in s'.db.runs
        ensures RunInv(s', x)
      {
        assert RunInv(s, x);
        if x != r {
          PersistElsewhere(s.db, r, ArtifactsOf(s.db, x), s.db.runs[x].asked.posts, x);
        }
      }
      forall p' | p' in s'.workers
        ensures WorkerInv(s', s'.workers[p'])
      {
        PersistWorker(s, p, p');
      }
    }
  }

  lemma PersistWorker(s: State, p: Worker, p': Worker)
    requires Inv(s) && Enabled(s, p, Persist) && DraftsFit(s.db, s.workers[p].r) && p' in s.workers
    requires ArtifactsOf(s.db, s.workers[p].r) == map[]
    ensures WorkerInv(Next(s, p, Persist), Next(s, p, Persist).workers[p'])
  {
    hide FullSet, AllLinked, PersistDrafts, OneMaker, Unique, DraftsFit, ArtifactsOf, RowInv;
    var r := s.workers[p].r;
    assert WorkerInv(s, s.workers[p]) && WorkerInv(s, s.workers[p']);
    PersistTables(s.db, r);
    if p' != p && s.workers[p'].Checked? {
      var x := s.workers[p'].r;
      if x == r {
        assert AllLinked(map[], s.db.drafts, r) by { ItsLinks(s, r); }
        PersistIsComplete(s.db, r);
      } else {
        PersistElsewhere(s.db, r, ArtifactsOf(s.db, x), s.db.runs[x].asked.posts, x);
      }
    }
  }

  lemma ItsLinks(s: State, r: RunId)
    requires Inv(s) && r in s.db.runs
    ensures AllLinked(ArtifactsOf(s.db, r), s.db.drafts, r)
  {
    assert RunInv(s, r);
  }

  lemma NextInv(s: State, p: Worker, a: Action)
    requires Inv(s) && Enabled(s, p, a)
    ensures Inv(Next(s, p, a))
  {
    hide Inv, Next, FullSet, Full, Taken;
    match a
    case Insert => InsertKeeps(s, p);
    case CallProvider => CallKeeps(s, p);
    case Persist => PersistKeeps(s, p);
    case Answer(valid) => if valid { AnswerKeeps(s, p); } else { MakerWriteKeeps(s, p, a); }
    case Prepare => MakerWriteKeeps(s, p, a);
    case FinishBrief => FinishBriefKeeps(s, p);
    case Complete => CompleteKeeps(s, p);
    case Fail => FailKeeps(s, p);
    case Acquire(t, n) => AcquireKeeps(s, p, a);
    case Dispatch => DispatchKeeps(s, p);
    case StartRun(q) => StartKeeps(s, p, a);
    case StartResume(r) => StartKeeps(s, p, a);
    case Raise(refused) => TurnKeeps(s, p, a);
    case FailRead(limit) => TurnKeeps(s, p, a);
    case Reload => TurnKeeps(s, p, a);
    case ReadRow => TurnKeeps(s, p, a);
    case _ => LookKeeps(s, p, a);
  }

  lemma {:induction false} ReachableInv(states: seq<State>, steps: seq<(Worker, Action)>, k: nat)
    requires IsRun(states, steps) && k < |states|
    ensures Inv(states[k])
  {
    hide Inv, Next, Enabled;
    if k == 0 {
      assert Inv(states[0]) by { InitialInv(states[0]); }
    } else {
      ReachableInv(states, steps, k - 1);
      NextInv(states[k - 1], steps[k - 1].0, steps[k - 1].1);
    }
  }

  lemma ReachableIsInv(s: State)
    requires Reachable(s)
    ensures Inv(s)
  {
    hide Inv, Next, Enabled, Initial;
    var states, steps :| IsRun(states, steps) && states[|steps|] == s;
    ReachableInv(states, steps, |steps|);
  }

  lemma InitialInv(s: State)
    requires Initial(s)
    ensures Inv(s)
  {
  }

  /******* Main results *******/

  /**
   Over every interleaving, the provider is asked at most once for a run, and at most once for an
   (automation, scheduled time) occurrence or for a request identity, however often it is retried,
   duplicated or resumed.
   */
  lemma ProviderAskedAtMostOnce(states: seq<State>, steps: seq<(Worker, Action)>, k: nat, i: nat, j: nat)
    requires IsRun(states, steps) && k < |states| && i < j < |states[k].calls|
    ensures var s := states[k]; var a, b := s.calls[i], s.calls[j];
      && a in s.db.runs && b in s.db.runs && a != b
      && var p, q := s.db.runs[a].asked, s.db.runs[b].asked;
         && (p.occurrence.Some? ==> p.occurrence != q.occurrence)
         && (p.request.Some? ==> p.request != q.request || p.owner != q.owner || p.channel != q.channel
                                 || p.scenario != q.scenario)
  {
    hide IsRun;
    ReachableInv(states, steps, k);
  }

  /**
   The phase is recorded before the provider is asked for drafts: a run whose provider was asked never
   looks as if it had not been, not even after a crash.
   */
  lemma AskingIsRecorded(states: seq<State>, steps: seq<(Worker, Action)>, k: nat, r: RunId)
    requires IsRun(states, steps) && k < |states| && r in states[k].calls
    ensures r in states[k].db.runs
    ensures WritesDrafts(states[k].db.runs[r].asked) ==> states[k].db.runs[r].phase != Created
  {
    hide IsRun, FullSet;
    ReachableInv(states, steps, k);
    ItsRun(states[k], r);
  }

  /** Only the worker that inserted a run asks the provider for it; one that came through a resume never does. */
  lemma OnlyTheMakerAsks(s: State, p: Worker, a: Action)
    requires Inv(s) && Enabled(s, p, a) && Next(s, p, a).calls != s.calls
    ensures p in s.workers && (s.workers[p].Started? || s.workers[p].Inflight?)
    ensures s.workers[p].r !in s.calls && Next(s, p, a).calls == s.calls + [s.workers[p].r]
  {
    hide Inv, FullSet, Full;
    if p in s.workers {
      ItsWorker(s, p);
    }
  }

  /**
   Drafts are persisted all together or not at all: a run has no artifacts, or exactly the ordinals
   1..n with distinct content items; every draft of the run is linked by an artifact; and a completed
   drafting run has the full set, which its one provider call produced.
   */
  lemma AllDraftsOrNone(states: seq<State>, steps: seq<(Worker, Action)>, k: nat, r: RunId)
    requires IsRun(states, steps) && k < |states| && r in states[k].db.runs
    ensures var db := states[k].db;
      && (ArtifactsOf(db, r) == map[] || Full(db, r))
      && AllLinked(ArtifactsOf(db, r), db.drafts, r)
      && (db.runs[r].status == Completed && WritesDrafts(db.runs[r].asked) ==> ArtifactsOf(db, r) != map[])
      && (ArtifactsOf(db, r) != map[] ==> r in states[k].calls)
  {
    hide IsRun, FullSet, AllLinked;
    ReachableInv(states, steps, k);
    ItsRun(states[k], r);
  }

  /** Once the drafts of a run are there, no later step changes which they are. */
  lemma DraftsAreFinal(s: State, p: Worker, a: Action, r: RunId)
    requires Inv(s) && Enabled(s, p, a) && r in s.db.runs && ArtifactsOf(s.db, r) != map[]
    ensures ArtifactsOf(Next(s, p, a).db, r) == ArtifactsOf(s.db, r)
  {
    hide Inv, FullSet, Full, Taken, ForcedPhase;
    if a.Persist? {
      ItsWorker(s, p);
      FitIffNone(s, s.workers[p].r);
    }
  }
}
