/**
 What the exception handlers record on a run: which exceptions they catch, and the row they leave when
 nothing comes in between.
 */
module AgentRunFailures {
  import opened AgentRunProtocol
  import opened AgentRunSafety
  import opened AgentRuns
  import opened Wrappers

  /** The worker ends with `r` failed in this phase, and with its claim given up if it came by a resume. */
  ghost predicate FailedAs(s: State, p: Worker, r: RunId, phase: Phase, resumed: bool, s': State) {
    && r in s.db.runs && r in s'.db.runs
    && s'.db == s.db.(runs := s.db.runs[r := s'.db.runs[r]])
    && s'.db.runs[r] == Run(s.db.runs[r].asked, phase, Failed, if resumed then None else s.db.runs[r].token,
                            s.db.runs[r].claimedAt)
    && s'.calls == s.calls && s'.answered == s.answered
    && (forall q :: q != p ==> (q in s'.workers <==> q in s.workers))
    && (forall q :: q != p && q in s.workers ==> s'.workers[q] == s.workers[q])
  }

  /** The phase that a handler records: accepted generations keep theirs. */
  function RecordedPhase(run: Run, resumed: bool, limit: bool): Phase {
    if run.asked.scenario == AttentionToday then PhaseFailed
    else
      match run.phase
      case GenerationValidated => GenerationValidated
      case DraftsPersisted => DraftsPersisted
      case GenerationInflight => if resumed then FailedClosed else if limit then PhaseFailed else RestartRequired
      case _ => if resumed then FailedClosed else PhaseFailed
  }

  /** Steps of worker p, with nothing in between. */
  function Then(s: State, p: Worker, a: Action): (s': Option<State>) {
    if Enabled(s, p, a) then Some(Next(s, p, a)) else None
  }

  function ThenAll(s: State, p: Worker, actions: seq<Action>): Option<State>
    decreases |actions|
  {
    if actions == [] then Some(s)
    else
      var next := Then(s, p, actions[0]);
      if next.None? then None else ThenAll(next.value, p, actions[1..])
  }

  lemma LoadAndWrite(s: State, p: Worker)
    requires p in s.workers && s.workers[p].Forced? && s.workers[p].r in s.db.runs
    ensures var pc := s.workers[p]; var end := ThenAll(s, p, [Reload, Fail]);
      && end.Some?
      && FailedAs(s, p, pc.r, if pc.force.Some? then pc.force.value else s.db.runs[pc.r].phase, pc.resumed, end.value)
      && (p in end.value.workers <==> pc.guarded)
      && (p in end.value.workers ==> end.value.workers[p] == Returning(pc.r, pc.resumed))
  {
    var pc := s.workers[p];
    var next := Next(s, p, Reload);
    assert [Reload, Fail][1..] == [Fail] && [Fail][1..] == [];
    assert Enabled(next, p, Fail);
    assert ThenAll(Next(next, p, Fail), p, []) == Some(Next(next, p, Fail));
    assert ThenAll(next, p, [Fail]) == Some(Next(next, p, Fail));
  }

  lemma Handled(s: State, p: Worker, limit: bool)
    requires p in s.workers && s.workers[p].Failing? && s.workers[p].r in s.db.runs
    ensures var pc := s.workers[p]; var end := ThenAll(s, p, [FailRead(limit), Reload, Fail]);
      && end.Some? && p !in end.value.workers
      && FailedAs(s, p, pc.r, RecordedPhase(s.db.runs[pc.r], pc.resumed, limit), pc.resumed, end.value)
  {
    hide FailedAs, ThenAll;
    var next := Next(s, p, FailRead(limit));
    LoadAndWrite(next, p);
    Prepended(s, p, FailRead(limit), [Reload, Fail]);
    assert [FailRead(limit)] + [Reload, Fail] == [FailRead(limit), Reload, Fail];
    SameFailure(s, next, p);
  }

  lemma Prepended(s: State, p: Worker, a: Action, rest: seq<Action>)
    requires Enabled(s, p, a)
    ensures ThenAll(s, p, [a] + rest) == ThenAll(Next(s, p, a), p, rest)
  {
    hide Next, Enabled;
    assert ([a] + rest)[1..] == rest;
  }

  /** A step that only moves the worker. */
  lemma SameFailure(s: State, next: State, p: Worker)
    requires p in next.workers && next == s.(workers := s.workers[p := next.workers[p]])
    ensures forall r, phase, resumed, end :: FailedAs(next, p, r, phase, resumed, end) ==>
      FailedAs(s, p, r, phase, resumed, end)
  {
  }

  /**
   An exception during the work of the worker that inserted the run, or of a resume after it has read
   the row: the phase that is recorded, and that no draft is lost or added.
   */
  lemma ExceptionRecords(s: State, p: Worker, limit: bool)
    requires p in s.workers
    requires var pc := s.workers[p];
      && Holds(pc) && pc.r in s.db.runs
      && (pc.Started? || pc.Inflight? || pc.Called? || pc.Persisting? || pc.Counted? || pc.Persisted? || pc.Checked?
          || pc.Returning? || pc.Read?)
    ensures var pc := s.workers[p];
      var resumed := pc.Read? || (!pc.Started? && !pc.Inflight? && !pc.Called? && pc.resumed);
      var end := ThenAll(s, p, [Raise(false), FailRead(limit), Reload, Fail]);
      && end.Some? && p !in end.value.workers
      && FailedAs(s, p, pc.r, RecordedPhase(s.db.runs[pc.r], resumed, limit), resumed, end.value)
  {
    hide FailedAs, ThenAll, RecordedPhase;
    var next := Next(s, p, Raise(false));
    Handled(next, p, limit);
    Prepended(s, p, Raise(false), [FailRead(limit), Reload, Fail]);
    assert [Raise(false)] + [FailRead(limit), Reload, Fail] == [Raise(false), FailRead(limit), Reload, Fail];
    SameFailure(s, next, p);
  }

  /** An answer that is not accepted fails the run. */
  lemma BadAnswerRecords(s: State, p: Worker, limit: bool)
    requires p in s.workers && s.workers[p].Called? && s.workers[p].r in s.db.runs
    requires WritesDrafts(s.db.runs[s.workers[p].r].asked)
    ensures var r := s.workers[p].r; var end := ThenAll(s, p, [Answer(false), FailRead(limit), Reload, Fail]);
      && end.Some? && p !in end.value.workers && FailedAs(s, p, r, PhaseFailed, false, end.value)
  {
    hide ThenAll, Taken, PersistDrafts, InsertRun, CompleteRun, FailSeen, ClaimRun, Dispatched, Refused, Full;
    var next := Next(s, p, Answer(false));
    Handled(next, p, limit);
    Prepended(s, p, Answer(false), [FailRead(limit), Reload, Fail]);
    assert [Answer(false)] + [FailRead(limit), Reload, Fail] == [Answer(false), FailRead(limit), Reload, Fail];
  }

  /** Drafts that are already there: a resume fails closed, the original runner as after an exception. */
  lemma RefusalRecords(s: State, p: Worker, limit: bool)
    requires p in s.workers && s.workers[p].Persisting? && s.workers[p].r in s.db.runs
    requires HasDrafts(s.db, s.workers[p].r)
    ensures var pc := s.workers[p]; var run := s.db.runs[pc.r];
      var actions := if pc.resumed then [Count, Reload, Fail] else [Count, FailRead(limit), Reload, Fail];
      var end := ThenAll(s, p, actions);
      && end.Some? && p !in end.value.workers
      && var phase := if pc.resumed then FailedClosed else RecordedPhase(run, false, limit);
         FailedAs(s, p, pc.r, phase, pc.resumed, end.value)
  {
    hide FailedAs, ThenAll, RecordedPhase;
    var next := Next(s, p, Count);
    if s.workers[p].resumed {
      LoadAndWrite(next, p);
      Prepended(s, p, Count, [Reload, Fail]);
      assert [Count] + [Reload, Fail] == [Count, Reload, Fail];
    } else {
      Handled(next, p, limit);
      Prepended(s, p, Count, [FailRead(limit), Reload, Fail]);
      assert [Count] + [FailRead(limit), Reload, Fail] == [Count, FailRead(limit), Reload, Fail];
    }
    SameFailure(s, next, p);
  }

  /**
   A resume of a run without accepted answer: an ambiguous generation needs a new request, and that
   failure is written inside the `try`, so the worker is not done; any other phase fails closed.
   */
  lemma ResumeRecords(s: State, p: Worker)
    requires p in s.workers && s.workers[p].Read? && s.workers[p].r in s.db.runs
    requires s.workers[p].phase != GenerationValidated && s.workers[p].phase != DraftsPersisted
    ensures var pc := s.workers[p]; var end := ThenAll(s, p, [Dispatch, Reload, Fail]);
      && end.Some?
      && FailedAs(s, p, pc.r, if pc.phase == GenerationInflight then RestartRequired else FailedClosed, true, end.value)
      && (p in end.value.workers <==> pc.phase == GenerationInflight)
      && (p in end.value.workers ==> end.value.workers[p] == Returning(pc.r, true))
  {
    hide FailedAs, ThenAll;
    var next := Next(s, p, Dispatch);
    LoadAndWrite(next, p);
    Prepended(s, p, Dispatch, [Reload, Fail]);
    assert [Dispatch] + [Reload, Fail] == [Dispatch, Reload, Fail];
    SameFailure(s, next, p);
  }

  /** No handler catches an exception before a resume has read its row, or in a handler itself. */
  lemma NotCaught(s: State, p: Worker, refused: bool)
    requires p in s.workers && Enabled(s, p, Raise(refused))
    ensures var pc := s.workers[p];
      && !pc.Looking? && !pc.Inserting? && !pc.Resuming? && !pc.Claimed? && !pc.Failing?
      && (pc.Forced? || pc.FailWrite? ==> pc.guarded)
      && (pc.Forced? || pc.FailWrite? || pc.Returning? ==> !refused)
  {
  }
}
