/**
 `AdminAgentRunner` working alone: its transactions as methods on the tables, the whole outcome of a
 run and of a resume, and the completion that a resume guarantees from any reachable state.
 */
module AgentRunner {
  import opened Wrappers
  import opened AgentRuns
  import opened AgentRunProtocol
  import opened AgentRunSafety

  /******* The outcome of one uncontended call *******/

  /** The second half of both paths: verify the artifacts, then complete or fail closed. */
  function Settled(db: Db, r: RunId): Db
    requires r in db.runs
  {
    if Full(db, r) then CompleteRun(db, r, true) else FailRun(db, r, Some(FailedClosed), true)
  }

  function Restarted(db: Db, r: RunId): Db
    requires r in db.runs
  {
    if db.runs[r].status == Running then db else SetRun(db, r, db.runs[r].(status := Running))
  }

  /** The tables after `resume_drafts_tomorrow` or `resume_prepare_content_series`. */
  function ResumedDb(db: Db, r: RunId, token: Token, now: int): (db': Db)
    requires r in db.runs
    ensures db'.runs.Keys == db.runs.Keys
  {
    if !Claimable(db, r, now) then db
    else
      var claimed := ClaimRun(db, r, token, now);
      match claimed.runs[r].phase
      case GenerationInflight => FailRun(claimed, r, Some(RestartRequired), true)
      case GenerationValidated =>
        var running := Restarted(claimed, r);
        if HasDrafts(running, r) then FailRun(running, r, Some(FailedClosed), true)
        else Settled(PersistDrafts(running, r), r)
      case DraftsPersisted => Settled(claimed, r)
      case _ => FailRun(claimed, r, Some(FailedClosed), true)
  }

  lemma PersistedTables(db: Db, r: RunId, artifacts: map<nat, ContentId>, drafts: map<ContentId, RunId>)
    requires r in db.runs && !HasDrafts(db, r)
    requires artifacts == Ordinals(db.nextItem, db.runs[r].asked.posts)
    requires drafts == AddDrafts(db.drafts, db.nextItem, db.runs[r].asked.posts, r)
    ensures PersistDrafts(db, r)
         == SetPhase(db, r, DraftsPersisted)
            .(artifacts := db.artifacts[r := artifacts],
              drafts := drafts,
              nextItem := db.nextItem + db.runs[r].asked.posts)
  {
    hide Ordinals, AddDrafts;
    assert ArtifactsOf(db, r) + artifacts == artifacts;
  }

  class AdminAgentRunner {
    var db: Db
    /** The runs the provider was asked for. */
    var calls: seq<RunId>

    constructor (db: Db, calls: seq<RunId>)
      ensures this.db == db && this.calls == calls
    {
      this.db := db;
      this.calls := calls;
    }

    method AcquireResumeClaim(r: RunId, token: Token, now: int) returns (acquired: bool)
      requires r in db.runs
      modifies this`db
      ensures var run := old(db).runs[r];
        acquired <==> run.status != Completed && (run.token.None? || run.claimedAt + 90_000_000 < now)
      ensures db == if acquired
                    then old(db).(runs := old(db).runs[r := old(db).runs[r].(token := Some(token), claimedAt := now)])
                    else old(db)
    {
      acquired := db.runs[r].status != Completed && ClaimFree(db.runs[r], now);
      if acquired {
        db := ClaimRun(db, r, token, now);
      }
    }

    /** Creates the drafts one by one in the open transaction and commits them with the phase. */
    method PersistValidated(r: RunId) returns (persisted: bool)
      requires r in db.runs
      modifies this`db
      ensures persisted == !HasDrafts(old(db), r)
      ensures db == if persisted then PersistDrafts(old(db), r) else old(db)
    {
      hide PersistDrafts, FullSet;
      if HasDrafts(db, r) {
        return false;
      }
      var n := db.runs[r].asked.posts;
      var drafts, artifacts: map<nat, ContentId> := db.drafts, map[];
      for index := 0 to n
        invariant drafts == AddDrafts(db.drafts, db.nextItem, index, r)
        invariant artifacts == Ordinals(db.nextItem, index)
      {
        drafts := drafts[db.nextItem + index := r];
        artifacts := artifacts[index + 1 := db.nextItem + index];
      }
      PersistedTables(db, r, artifacts, drafts);
      db := SetPhase(db, r, DraftsPersisted)
      .(artifacts := db.artifacts[r := artifacts], drafts := drafts, nextItem := db.nextItem + n);
      persisted := true;
    }

    /** Goes through the artifacts in ordinal order and refuses anything but the complete set. */
    method ResultFromArtifacts(r: RunId) returns (complete: bool)
      requires r in db.runs
      ensures complete == Full(db, r)
    {
      var a, n := ArtifactsOf(db, r), db.runs[r].asked.posts;
      if !(forall o :: o in a ==> 1 <= o <= n) {
        return false;
      }
      var seen: set<ContentId> := {};
      for o := 1 to n + 1
        invariant forall k: nat :: 1 <= k < o ==> k in a && a[k] in seen && a[k] in db.drafts && db.drafts[a[k]] == r
        invariant forall i :: i in seen ==> exists k: nat :: 1 <= k < o && k in a && a[k] == i
        invariant forall k: nat, k': nat :: 1 <= k < o && 1 <= k' < o && k in a && k' in a && a[k] == a[k'] ==> k == k'
      {
        if o !in a || a[o] in seen || a[o] !in db.drafts || db.drafts[a[o]] != r {
          return false;
        }
        seen := seen + {a[o]};
      }
      return true;
    }

    method FinishResume(r: RunId)
      requires r in db.runs
      modifies this`db
      ensures db == Settled(old(db), r)
    {
      var complete := ResultFromArtifacts(r);
      db := if complete then CompleteRun(db, r, true) else FailRun(db, r, Some(FailedClosed), true);
    }

    /** An explicit resume. It never asks the provider: `calls` is not in the frame. */
    method Resume(r: RunId, token: Token, now: int) returns (busy: bool)
      requires r in db.runs && WritesDrafts(db.runs[r].asked)
      modifies this`db
      ensures var run := old(db).runs[r];
        busy <==> run.status == Completed || (run.token.Some? && now <= run.claimedAt + 90_000_000)
      ensures db == ResumedDb(old(db), r, token, now)
      ensures busy ==> db == old(db)
    {
      var acquired := AcquireResumeClaim(r, token, now);
      busy := !acquired;
      if busy {
        return;
      }
      match db.runs[r].phase
      case GenerationInflight =>
        db := FailRun(db, r, Some(RestartRequired), true);
      case GenerationValidated =>
        if db.runs[r].status != Running {
          db := SetRun(db, r, db.runs[r].(status := Running));
        }
        var persisted := PersistValidated(r);
        if persisted {
          FinishResume(r);
        } else {
          db := FailRun(db, r, Some(FailedClosed), true);
        }
      case DraftsPersisted =>
        FinishResume(r);
      case _ =>
        db := FailRun(db, r, Some(FailedClosed), true);
    }
  }

  /******* What a resume guarantees *******/

  /** Two workers that try to claim a run one after the other: both get it exactly if 90 seconds lie between. */
  method AcquireTwice(runner: AdminAgentRunner, r: RunId, first: Token, t: int, second: Token, now: int)
      returns (both: bool)
    requires r in runner.db.runs && runner.db.runs[r].status != Completed && runner.db.runs[r].token.None?
    modifies runner`db
    ensures both <==> now > t + 90_000_000
    ensures runner.db.runs.Keys == old(runner.db).runs.Keys
    ensures runner.db.runs[r].token == Some(if both then second else first)
  {
    var acquired := runner.AcquireResumeClaim(r, first, t);
    assert acquired;
    both := runner.AcquireResumeClaim(r, second, now);
  }

  /**
   From any reachable state, a resume that nothing disturbs completes a run whose answer was accepted:
   a validated run gets exactly its n drafts, a persisted run gets none, and the provider is not asked.
   */
  lemma ResumeCompletes(s: State, r: RunId, token: Token, now: int)
    requires Inv(s) && r in s.db.runs && WritesDrafts(s.db.runs[r].asked) && Claimable(s.db, r, now)
    requires s.db.runs[r].phase == GenerationValidated || s.db.runs[r].phase == DraftsPersisted
    ensures var db := ResumedDb(s.db, r, token, now); var run := db.runs[r];
      && run.status == Completed && run.phase == PhaseCompleted && run.token.None? && Full(db, r)
      && db.nextItem == s.db.nextItem + (if s.db.runs[r].phase == GenerationValidated then run.asked.posts else 0)
      && (s.db.runs[r].phase == DraftsPersisted ==> db.drafts == s.db.drafts && db.artifacts == s.db.artifacts)
  {
    hide Inv, FullSet, AllLinked;
    ItsRun(s, r);
    if s.db.runs[r].phase == GenerationValidated {
      var running := Restarted(ClaimRun(s.db, r, token, now), r);
      PersistIsComplete(running, r);
    }
  }

  /**
   A resume that nothing disturbs ends with a completed run exactly when the answer was accepted before;
   a run it cannot complete is failed and gets no drafts.
   */
  lemma ResumeCompletesIff(s: State, r: RunId, token: Token, now: int)
    requires Inv(s) && r in s.db.runs && WritesDrafts(s.db.runs[r].asked) && Claimable(s.db, r, now)
    ensures var db := ResumedDb(s.db, r, token, now);
      && (db.runs[r].status == Completed
          <==> s.db.runs[r].phase == GenerationValidated || s.db.runs[r].phase == DraftsPersisted)
      && (db.runs[r].status != Completed ==>
            db.runs[r].status == Failed && db.drafts == s.db.drafts && db.artifacts == s.db.artifacts)
  {
    hide Inv, FullSet, AllLinked, PersistDrafts;
    if s.db.runs[r].phase == GenerationValidated || s.db.runs[r].phase == DraftsPersisted {
      ResumeCompletes(s, r, token, now);
    }
  }

  /** The handler has looked at the run's phase and then loaded some state of its row. */
  function Loaded(s: State, p: Worker, limit: bool, seen: Run): (s': State)
    requires Enabled(s, p, FailRead(limit))
    ensures Enabled(s', p, Fail)
  {
    var looked := Next(s, p, FailRead(limit));
    var pc := looked.workers[p];
    Goto(looked, p, FailWrite(pc.r, pc.force, pc.resumed, pc.guarded, seen))
  }

  /**
   A failure never loses an accepted generation: whatever a failure handler writes for a run that is
   validated or persisted when it looks, a later resume completes the run.
   */
  lemma FailureLosesNoAcceptedRun(
    s: State, p: Worker, limit: bool, seen: Run, token: Token, now: int)
    requires Inv(s) && p in s.workers && s.workers[p].Failing? && s.workers[p].r in s.db.runs
    requires var run := s.db.runs[s.workers[p].r];
      WritesDrafts(run.asked) && (run.phase == GenerationValidated || run.phase == DraftsPersisted)
    requires Enabled(s, p, FailRead(limit))
    ensures var r, end := s.workers[p].r, Next(Loaded(s, p, limit, seen), p, Fail);
      && r in end.db.runs && Inv(end) && end.db.runs[r].phase == s.db.runs[r].phase
      && (Claimable(end.db, r, now) ==>
            ResumedDb(end.db, r, token, now).runs[r].status == Completed && Full(ResumedDb(end.db, r, token, now), r))
  {
    hide Inv, FullSet, ResumedDb;
    var r := s.workers[p].r;
    var looked, loaded := Next(s, p, FailRead(limit)), Loaded(s, p, limit, seen);
    NextInv(s, p, FailRead(limit));
    ItsWorker(looked, p);
    MoveKeeps(looked, p, loaded);
    NextInv(loaded, p, Fail);
    var end := Next(loaded, p, Fail);
    assert end.db.runs[r].phase == s.db.runs[r].phase && end.db.runs[r].asked == s.db.runs[r].asked;
    if Claimable(end.db, r, now) {
      ResumeCompletes(end, r, token, now);
    }
  }

  /******* The same outcome as steps of the protocol *******/

  ghost predicate Steps(s: State, p: Worker, actions: seq<Action>, s': State)
    decreases |actions|
  {
    if actions == [] then s == s'
    else Enabled(s, p, actions[0]) && Steps(Next(s, p, actions[0]), p, actions[1..], s')
  }

  const FINISH: seq<Action> := [Check, Complete, Return]

  /** A resume of an accepted run, worker p taking all its steps with nobody in between. */
  function ResumeScript(r: RunId, token: Token, now: int, persisted: bool): seq<Action> {
    var start := [StartResume(r), Acquire(token, now), ReadRow, Dispatch];
    if persisted then start + FINISH else start + [Count, Persist] + FINISH
  }

  lemma {:induction false} Joined(s: State, p: Worker, a: seq<Action>, mid: State, b: seq<Action>, s': State)
    requires Steps(s, p, a, mid) && Steps(mid, p, b, s')
    ensures Steps(s, p, a + b, s')
    decreases |a|
  {
    hide Next, Enabled;
    if a == [] {
      assert a + b == b;
    } else {
      Joined(Next(s, p, a[0]), p, a[1..], mid, b, s');
      assert (a + b)[1..] == a[1..] + b;
    }
  }

  lemma Once(s: State, p: Worker, a: Action)
    requires Enabled(s, p, a)
    ensures Steps(s, p, [a], Next(s, p, a))
  {
    hide Next, Enabled;
    assert [a][1..] == [];
  }

  lemma CheckStep(s: State, p: Worker, r: RunId)
    requires p in s.workers && s.workers[p] == Persisted(r, true) && r in s.db.runs && Full(s.db, r)
    ensures Enabled(s, p, Check) && Next(s, p, Check) == Goto(s, p, Checked(r, true))
  {
    hide FullSet;
  }

  lemma CompleteStep(s: State, p: Worker, r: RunId)
    requires p in s.workers && s.workers[p] == Checked(r, true) && r in s.db.runs
    ensures Enabled(s, p, Complete) && r in CompleteRun(s.db, r, true).runs
    ensures Next(s, p, Complete) == Goto(s, p, Returning(r, true)).(db := CompleteRun(s.db, r, true))
  {
  }

  lemma ReturnStep(s: State, p: Worker)
    requires p in s.workers && s.workers[p].Returning? && s.workers[p].r in s.db.runs
    ensures Enabled(s, p, Return) && Next(s, p, Return) == End(s, p)
  {
  }

  lemma SettleSteps(s: State, p: Worker, r: RunId)
    requires p in s.workers && s.workers[p] == Persisted(r, true) && r in s.db.runs && Full(s.db, r)
    ensures Steps(s, p, FINISH, End(s, p).(db := Settled(s.db, r)))
  {
    hide FullSet, Full, Steps, CompleteRun, Next, Enabled;
    var s1 := Goto(s, p, Checked(r, true));
    CheckStep(s, p, r);
    Once(s, p, Check);
    var s2 := Goto(s1, p, Returning(r, true)).(db := CompleteRun(s.db, r, true));
    CompleteStep(s1, p, r);
    Once(s1, p, Complete);
    Joined(s, p, [Check], s1, [Complete], s2);
    assert End(s2, p).workers == End(s, p).workers;
    ReturnStep(s2, p);
    Once(s2, p, Return);
    Joined(s, p, [Check] + [Complete], s2, [Return], Next(s2, p, Return));
    assert [Check] + [Complete] + [Return] == FINISH;
  }

  lemma PersistSteps(s: State, p: Worker, r: RunId)
    requires p in s.workers && s.workers[p] == Persisting(r, true) && r in s.db.runs && !HasDrafts(s.db, r)
    ensures r in PersistDrafts(s.db, r).runs
    ensures Steps(s, p, [Count, Persist], Goto(s, p, Persisted(r, true)).(db := PersistDrafts(s.db, r)))
  {
    hide FullSet, PersistDrafts, Steps;
    var s1 := Next(s, p, Count);
    assert s1 == Goto(s, p, Counted(r, true));
    Once(s, p, Count);
    assert DraftsFit(s1.db, r);
    PersistRuns(s.db, r);
    assert s1.workers[p := Persisted(r, true)] == s.workers[p := Persisted(r, true)];
    Once(s1, p, Persist);
    Joined(s, p, [Count], s1, [Persist], Next(s1, p, Persist));
    assert [Count] + [Persist] == [Count, Persist];
  }

  lemma PersistRuns(db: Db, r: RunId)
    requires r in db.runs
    ensures PersistDrafts(db, r).runs.Keys == db.runs.Keys
  {
  }

  /** A resume up to the point where it knows what to do. */
  lemma ResumePrefix(s: State, p: Worker, r: RunId, token: Token, now: int)
    requires p !in s.workers && r in s.db.runs && WritesDrafts(s.db.runs[r].asked) && Claimable(s.db, r, now)
    ensures var claimed := ClaimRun(s.db, r, token, now);
      Steps(s, p, [StartResume(r), Acquire(token, now), ReadRow],
            Goto(s.(db := claimed), p, Read(r, claimed.runs[r].phase, claimed.runs[r].status)))
  {
    hide FullSet, PersistDrafts, Steps;
    var s1, s2 := Goto(s, p, Resuming(r)), Goto(s.(db := ClaimRun(s.db, r, token, now)), p, Claimed(r));
    Once(s, p, StartResume(r));
    assert s1.workers[p := Claimed(r)] == s2.workers;
    Once(s1, p, Acquire(token, now));
    Joined(s, p, [StartResume(r)], s1, [Acquire(token, now)], s2);
    var pc := Read(r, s2.db.runs[r].phase, s2.db.runs[r].status);
    assert s2.workers[p := pc] == s.workers[p := pc];
    Once(s2, p, ReadRow);
    Joined(s, p, [StartResume(r)] + [Acquire(token, now)], s2, [ReadRow], Next(s2, p, ReadRow));
    assert [StartResume(r)] + [Acquire(token, now)] + [ReadRow] == [StartResume(r), Acquire(token, now), ReadRow];
  }

  /** The outcome of `Resume` is the outcome of the protocol's steps when one worker takes them alone. */
  lemma ResumeIsARunOfTheProtocol(s: State, p: Worker, r: RunId, token: Token, now: int)
    requires Inv(s) && p !in s.workers && r in s.db.runs && WritesDrafts(s.db.runs[r].asked) && Claimable(s.db, r, now)
    requires s.db.runs[r].phase == GenerationValidated || s.db.runs[r].phase == DraftsPersisted
    ensures Steps(s, p, ResumeScript(r, token, now, s.db.runs[r].phase == DraftsPersisted),
                  s.(db := ResumedDb(s.db, r, token, now)))
  {
    hide Inv, FullSet, AllLinked, PersistDrafts, Steps, Settled;
    ItsRun(s, r);
    ResumePrefix(s, p, r, token, now);
    var claimed := ClaimRun(s.db, r, token, now);
    var read := Goto(s.(db := claimed), p, Read(r, claimed.runs[r].phase, claimed.runs[r].status));
    var prefix := [StartResume(r), Acquire(token, now), ReadRow];
    Once(read, p, Dispatch);
    var s4 := Next(read, p, Dispatch);
    Joined(s, p, prefix, read, [Dispatch], s4);
    if s.db.runs[r].phase == GenerationValidated {
      assert s4 == Goto(s.(db := Restarted(claimed, r)), p, Persisting(r, true)) by {
        RowKept(s, read, p, Persisting(r, true));
      }
      ResumeRest(s, s4, p, r, prefix + [Dispatch]);
    } else {
      assert s4 == Goto(s.(db := claimed), p, Persisted(r, true)) by { RowKept(s, read, p, Persisted(r, true)); }
      SettleRest(s, s4, p, r, prefix + [Dispatch]);
    }
    assert prefix + [Dispatch] == [StartResume(r), Acquire(token, now), ReadRow, Dispatch];
  }

  lemma RowKept(s: State, t: State, p: Worker, pc: Pc)
    requires p in t.workers && t.workers == s.workers[p := t.workers[p]]
    ensures t.workers[p := pc] == s.workers[p := pc]
  {
  }

  lemma SettleRest(s: State, t: State, p: Worker, r: RunId, before: seq<Action>)
    requires p !in s.workers && r in t.db.runs && t == Goto(s.(db := t.db), p, Persisted(r, true)) && Full(t.db, r)
    requires Steps(s, p, before, t)
    ensures Steps(s, p, before + FINISH, s.(db := Settled(t.db, r)))
  {
    hide FullSet, Steps, Settled;
    SettleSteps(t, p, r);
    assert t.workers - {p} == s.workers;
    Joined(s, p, before, t, FINISH, End(t, p).(db := Settled(t.db, r)));
  }

  lemma ResumeRest(s: State, t: State, p: Worker, r: RunId, before: seq<Action>)
    requires p !in s.workers && r in t.db.runs && t == Goto(s.(db := t.db), p, Persisting(r, true))
    requires !HasDrafts(t.db, r) && AllLinked(map[], t.db.drafts, r)
    requires Steps(s, p, before, t)
    ensures r in PersistDrafts(t.db, r).runs
    ensures Steps(s, p, before + [Count, Persist] + FINISH, s.(db := Settled(PersistDrafts(t.db, r), r)))
  {
    hide FullSet, Steps, Settled, PersistDrafts, AllLinked;
    PersistSteps(t, p, r);
    PersistIsComplete(t.db, r);
    var u := Goto(t, p, Persisted(r, true)).(db := PersistDrafts(t.db, r));
    RowKept(s, t, p, Persisted(r, true));
    Joined(s, p, before, t, [Count, Persist], u);
    SettleRest(s, u, p, r, before + [Count, Persist]);
  }
}
