/**
 The code lets a failure overwrite a completed run. A resume that starts while the original runner is
 still persisting finds the finished drafts in its way, fails closed, and writes that over `completed`;
 and the runner itself does so when the refresh or the audit event after its last commit fails.
 */
module AgentRunRace {
  import opened Wrappers
  import opened AgentRuns
  import opened AgentRunProtocol
  import opened AgentRunSafety
  import opened AgentRunner

  lemma {:induction false} ReachableSteps(s: State, p: Worker, actions: seq<Action>, s': State)
    requires Reachable(s) && Steps(s, p, actions, s')
    ensures Reachable(s')
    decreases |actions|
  {
    hide Reachable, Next, Enabled;
    if actions != [] {
      Extend(s, p, actions[0]);
      ReachableSteps(Next(s, p, actions[0]), p, actions[1..], s');
    }
  }

  const ASKED: Request := Request(1, 2, DraftsTomorrow, Some("r"), None, 3)

  const EMPTY: Db := Db(map[], 0, map[], map[], 0)

  const ASKED_DB: Db := SetPhase(InsertRun(EMPTY, ASKED), 0, GenerationInflight)

  const ACCEPTED_DB: Db := SetPhase(ASKED_DB, 0, GenerationValidated)

  function World(db: Db, workers: map<Worker, Pc>): State {
    State(db, workers, [0], {0})
  }

  /** The original runner, up to an accepted answer. */
  lemma OriginalAccepted()
    ensures Reachable(World(ACCEPTED_DB, map[0 := Persisting(0, false)]))
  {
    hide Reachable;
    var s0 := State(EMPTY, map[], [], {});
    assert Reachable(s0) by { StartReachable(); }
    Extend(s0, 0, StartRun(ASKED));
    var s1 := State(EMPTY, map[0 := Looking(ASKED)], [], {});
    assert s1 == Next(s0, 0, StartRun(ASKED));
    Extend(s1, 0, LookUp);
    var s2 := State(EMPTY, map[0 := Inserting(ASKED)], [], {});
    assert s2 == Next(s1, 0, LookUp);
    Extend(s2, 0, Insert);
    var s3 := State(InsertRun(EMPTY, ASKED), map[0 := Started(0)], [], {});
    assert s3 == Next(s2, 0, Insert);
    Extend(s3, 0, Prepare);
    var s4 := State(ASKED_DB, map[0 := Inflight(0)], [], {});
    assert s4 == Next(s3, 0, Prepare);
    Extend(s4, 0, CallProvider);
    var s5 := State(ASKED_DB, map[0 := Called(0)], [0], {});
    assert s5 == Next(s4, 0, CallProvider);
    Extend(s5, 0, Answer(true));
    assert World(ACCEPTED_DB, map[0 := Persisting(0, false)]) == Next(s5, 0, Answer(true));
  }

  lemma StartReachable()
    ensures Reachable(State(EMPTY, map[], [], {}))
  {
    var none: seq<(Worker, Action)> := [];
    assert IsRun([State(EMPTY, map[], [], {})], none);
    assert [State(EMPTY, map[], [], {})][|none|] == State(EMPTY, map[], [], {});
  }

  const CLAIMED_DB: Db := ClaimRun(ACCEPTED_DB, 0, 7, 1)

  /** A resume claims the run, which has no claim yet, and sees a validated generation. */
  lemma ResumeJoins()
    ensures Reachable(World(CLAIMED_DB, map[0 := Persisting(0, false), 1 := Persisting(0, true)]))
  {
    hide Reachable, Steps;
    OriginalAccepted();
    var s := World(ACCEPTED_DB, map[0 := Persisting(0, false)]);
    ResumePrefix(s, 1, 0, 7, 1);
    var read := Goto(s.(db := CLAIMED_DB), 1, AgentRunProtocol.Read(0, GenerationValidated, Running));
    ReachableSteps(s, 1, [StartResume(0), Acquire(7, 1), ReadRow], read);
    Extend(read, 1, Dispatch);
    assert Next(read, 1, Dispatch) == World(CLAIMED_DB, map[0 := Persisting(0, false), 1 := Persisting(0, true)]);
  }

  function Done(db: Db): Db
    requires 0 in db.runs
  {
    CompleteRun(PersistDrafts(db, 0), 0, false)
  }

  /** The tables before the original runner persists, with or without the claim of a resume. */
  predicate BeforePersist(db: Db) {
    db == ACCEPTED_DB || db == CLAIMED_DB
  }

  lemma PersistedFull(db: Db)
    requires BeforePersist(db)
    ensures 0 in PersistDrafts(db, 0).runs && Full(PersistDrafts(db, 0), 0) && HasDrafts(PersistDrafts(db, 0), 0)
    ensures Done(db).runs[0] == db.runs[0].(phase := PhaseCompleted, status := Completed) && Full(Done(db), 0)
    ensures HasDrafts(Done(db), 0)
  {
    PersistIsComplete(db, 0);
    PersistTables(db, 0);
  }

  lemma OriginalPersists(db: Db, others: map<Worker, Pc>)
    requires BeforePersist(db) && 0 !in others && Reachable(World(db, others[0 := Persisting(0, false)]))
    ensures Reachable(World(PersistDrafts(db, 0), others[0 := Persisted(0, false)]))
  {
    hide Reachable, PersistDrafts, FullSet;
    var s0, s1 := World(db, others[0 := Persisting(0, false)]), World(db, others[0 := Counted(0, false)]);
    Extend(s0, 0, Count);
    assert s1 == Next(s0, 0, Count);
    Extend(s1, 0, Persist);
    assert Next(s1, 0, Persist) == World(PersistDrafts(db, 0), others[0 := Persisted(0, false)]);
  }

  /** The original runner completes. */
  lemma OriginalCompletes(db: Db, others: map<Worker, Pc>)
    requires BeforePersist(db) && 0 !in others && Reachable(World(db, others[0 := Persisting(0, false)]))
    ensures Reachable(World(Done(db), others[0 := Returning(0, false)]))
  {
    hide Reachable, PersistDrafts, FullSet;
    OriginalPersists(db, others);
    PersistedFull(db);
    var s2 := World(PersistDrafts(db, 0), others[0 := Persisted(0, false)]);
    var s3 := World(PersistDrafts(db, 0), others[0 := Checked(0, false)]);
    Extend(s2, 0, Check);
    assert s3 == Next(s2, 0, Check);
    Extend(s3, 0, Complete);
    assert World(Done(db), others[0 := Returning(0, false)]) == Next(s3, 0, Complete);
  }

  /** Run 0 is completed with all its drafts, and these steps of worker p make it a failed one. */
  ghost predicate Overwrites(s: State, p: Worker, actions: seq<Action>, s': State) {
    && 0 in s.db.runs && s.db.runs[0].status == Completed && Full(s.db, 0)
    && Steps(s, p, actions, s')
    && 0 in s'.db.runs && s'.db.runs[0].status == Failed && Full(s'.db, 0)
  }

  /******* A resume beside the original runner *******/

  /** The resume finds the drafts and fails closed. */
  lemma RefusedSteps(s: State, p: Worker)
    requires p in s.workers && s.workers[p] == Persisting(0, true) && 0 in s.db.runs && HasDrafts(s.db, 0)
    ensures Steps(s, p, [Count, Reload, Fail], End(s, p).(db := FailRun(s.db, 0, Some(FailedClosed), true)))
  {
    var s1 := Next(s, p, Count);
    var s2 := Next(s1, p, Reload);
    var s3 := Next(s2, p, Fail);
    assert s3.workers == End(s, p).workers;
    ThreeSteps(s, p, Count, Reload, Fail);
  }

  lemma ThreeSteps(s: State, p: Worker, a: Action, b: Action, c: Action)
    requires Enabled(s, p, a) && Enabled(Next(s, p, a), p, b) && Enabled(Next(Next(s, p, a), p, b), p, c)
    ensures Steps(s, p, [a, b, c], Next(Next(Next(s, p, a), p, b), p, c))
  {
    hide Next, Enabled;
    var s1 := Next(s, p, a);
    assert [a, b, c][1..] == [b, c] && [b, c][1..] == [c] && [c][1..] == [];
    Once(Next(s1, p, b), p, c);
    assert Steps(s1, p, [b, c], Next(Next(s1, p, b), p, c));
  }

  /** From a reachable state in which nobody but the resume is left, its next three steps fail the run. */
  lemma CompletedRunCanFail()
    ensures exists s, s' :: Reachable(s) && s.workers.Keys == {1} && Overwrites(s, 1, [Count, Reload, Fail], s')
  {
    hide Reachable, PersistDrafts, FullSet, Steps;
    var others := map[1 := Persisting(0, true)];
    ResumeJoins();
    assert map[0 := Persisting(0, false), 1 := Persisting(0, true)] == others[0 := Persisting(0, false)];
    OriginalCompletes(CLAIMED_DB, others);
    PersistedFull(CLAIMED_DB);
    var returning, s := World(Done(CLAIMED_DB), others[0 := Returning(0, false)]), World(Done(CLAIMED_DB), others);
    Extend(returning, 0, Return);
    assert Next(returning, 0, Return).workers == s.workers;
    RefusedSteps(s, 1);
    var s' := End(s, 1).(db := FailRun(s.db, 0, Some(FailedClosed), true));
    assert Full(s'.db, 0) by { StillFull(s.db, s'.db); }
    assert Overwrites(s, 1, [Count, Reload, Fail], s');
  }

  lemma StillFull(db: Db, db': Db)
    requires 0 in db.runs && 0 in db'.runs && Full(db, 0) && db' == db.(runs := db'.runs)
    requires db'.runs[0].asked == db.runs[0].asked
    ensures Full(db', 0)
  {
  }

  /******* One worker alone *******/

  /** An exception after the completing commit, as the handlers treat it. */
  const CAUGHT: seq<Action> := [Raise(false), FailRead(false), Reload, Fail]

  /** Wherever a worker returns from a completed run of its own, it can fail that run. */
  lemma ReturnFails(s: State, p: Worker, r: RunId)
    requires p in s.workers && s.workers[p] == Returning(r, false) && r in s.db.runs
    requires s.db.runs[r].phase == PhaseCompleted
    ensures Steps(s, p, CAUGHT, End(s, p).(db := FailRun(s.db, r, Some(PhaseFailed), false)))
  {
    hide Steps;
    var s1 := Goto(s, p, Failing(r, false));
    assert Enabled(s, p, Raise(false)) && s1 == Next(s, p, Raise(false));
    Once(s, p, Raise(false));
    HandlerSteps(s1, p, r);
    assert End(s1, p).workers == End(s, p).workers;
    var s4 := End(s, p).(db := FailRun(s.db, r, Some(PhaseFailed), false));
    Joined(s, p, [Raise(false)], s1, [FailRead(false), Reload, Fail], s4);
    assert [Raise(false)] + [FailRead(false), Reload, Fail] == CAUGHT;
  }

  lemma HandlerSteps(s: State, p: Worker, r: RunId)
    requires p in s.workers && s.workers[p] == Failing(r, false) && r in s.db.runs
    requires s.db.runs[r].phase == PhaseCompleted
    ensures Steps(s, p, [FailRead(false), Reload, Fail],
                  End(s, p).(db := FailRun(s.db, r, Some(PhaseFailed), false)))
  {
    hide Steps, Next, Enabled;
    var run := s.db.runs[r];
    var s1 := Goto(s, p, Forced(r, Some(PhaseFailed), false, false));
    var s2 := Goto(s1, p, FailWrite(r, Some(PhaseFailed), false, false, run));
    LookStep(s, p, r);
    WriteSteps(s1, p, r);
    assert End(s2, p).workers == End(s, p).workers;
    ThreeSteps(s, p, FailRead(false), Reload, Fail);
  }

  lemma LookStep(s: State, p: Worker, r: RunId)
    requires p in s.workers && s.workers[p] == Failing(r, false) && r in s.db.runs
    requires s.db.runs[r].phase == PhaseCompleted
    ensures Enabled(s, p, FailRead(false))
    ensures Next(s, p, FailRead(false)) == Goto(s, p, Forced(r, Some(PhaseFailed), false, false))
  {
  }

  /** The failure is loaded and written with nothing in between. */
  lemma WriteSteps(s: State, p: Worker, r: RunId)
    requires p in s.workers && s.workers[p] == Forced(r, Some(PhaseFailed), false, false) && r in s.db.runs
    ensures Enabled(s, p, Reload)
    ensures var s2 := Goto(s, p, FailWrite(r, Some(PhaseFailed), false, false, s.db.runs[r]));
      && Next(s, p, Reload) == s2 && Enabled(s2, p, Fail)
      && Next(s2, p, Fail) == End(s2, p).(db := FailRun(s.db, r, Some(PhaseFailed), false))
  {
  }

  /** The only worker there is completes a drafting run, and then fails it. */
  lemma CompletedRunFailsAlone()
    ensures exists s, s' :: Reachable(s) && s.workers.Keys == {0} && Overwrites(s, 0, CAUGHT, s')
  {
    hide Reachable, PersistDrafts, FullSet, Steps;
    OriginalAccepted();
    assert map[0 := Persisting(0, false)] == map[][0 := Persisting(0, false)];
    OriginalCompletes(ACCEPTED_DB, map[]);
    PersistedFull(ACCEPTED_DB);
    var s := World(Done(ACCEPTED_DB), map[][0 := Returning(0, false)]);
    ReturnFails(s, 0, 0);
    var s' := End(s, 0).(db := FailRun(s.db, 0, Some(PhaseFailed), false));
    assert Full(s'.db, 0) by { StillFull(s.db, s'.db); }
    assert Overwrites(s, 0, CAUGHT, s');
  }

  const BRIEF: Request := Request(1, 2, AttentionToday, None, None, 0)

  /** The same of an attention brief. */
  lemma CompletedBriefFailsAlone()
    ensures exists s, s' :: Reachable(s) && s.workers.Keys == {0} && Overwrites(s, 0, CAUGHT, s')
                            && s.db.runs[0].asked.scenario.AttentionToday?
  {
    hide Reachable, Steps;
    var s0 := State(EMPTY, map[], [], {});
    StartReachable();
    Extend(s0, 0, StartRun(BRIEF));
    var s1 := State(EMPTY, map[0 := Looking(BRIEF)], [], {});
    assert s1 == Next(s0, 0, StartRun(BRIEF));
    Extend(s1, 0, LookUp);
    var s2 := State(EMPTY, map[0 := Inserting(BRIEF)], [], {});
    assert s2 == Next(s1, 0, LookUp);
    Extend(s2, 0, Insert);
    var s3 := State(InsertRun(EMPTY, BRIEF), map[0 := Started(0)], [], {});
    assert s3 == Next(s2, 0, Insert);
    Extend(s3, 0, FinishBrief);
    var s := State(CompleteRun(s3.db, 0, false), map[0 := Returning(0, false)], [], {});
    assert s == Next(s3, 0, FinishBrief);
    ReturnFails(s, 0, 0);
    var s' := End(s, 0).(db := FailRun(s.db, 0, Some(PhaseFailed), false));
    assert Overwrites(s, 0, CAUGHT, s');
  }
}
