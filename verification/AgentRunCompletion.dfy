/**
 When a completed run stays completed: exactly when no worker is still at work on it, whatever the
 other workers, later resumes, crashes and exceptions do from then on.
 */
module AgentRunCompletion {
  import opened AgentRuns
  import opened AgentRunProtocol
  import opened AgentRunSafety
  import opened Wrappers

  /**
   The worker runs or resumes the run, or returns from it, and has got past the claim. Only a failure
   that was loaded from a row already failed, and that nothing can repeat, writes no status.
   */
  predicate AtWork(s: State, w: Worker, r: RunId) {
    && w in s.workers && Holds(s.workers[w]) && s.workers[w].r == r
    && match s.workers[w]
       case Resuming(_) => false
       case FailWrite(_, _, _, guarded, seen) => guarded || seen.status != Failed
       case _ => true
  }

  ghost predicate Unattended(s: State, r: RunId) {
    forall w :: w in s.workers ==> !AtWork(s, w, r)
  }

  predicate IsCompleted(s: State, r: RunId) {
    r in s.db.runs && s.db.runs[r].status == Completed
  }

  /** Along every further sequence of steps. */
  ghost predicate StaysCompleted(s: State, r: RunId) {
    forall states, steps, k: nat :: Continues(s, states, steps) && k < |states| ==> IsCompleted(states[k], r)
  }

  /******* Nobody at work: nobody can come to work *******/

  lemma StepLeavesAlone(s: State, p: Worker, a: Action, r: RunId)
    requires Inv(s) && Enabled(s, p, a) && IsCompleted(s, r) && Unattended(s, r)
    ensures IsCompleted(Next(s, p, a), r) && Unattended(Next(s, p, a), r)
  {
    hide Inv, Full, Taken, ForcedPhase, PersistDrafts, ArtifactsOf, Resumed;
    FreshId(s);
    if p in s.workers {
      assert !AtWork(s, p, r);
      PersistKeepsRows(s, p, r);
    }
    var s' := Next(s, p, a);
    forall w | w in s'.workers
      ensures !AtWork(s', w, r)
    {
      assert w != p ==> w in s.workers && s'.workers[w] == s.workers[w] && !AtWork(s, w, r);
    }
  }

  lemma PersistKeepsRows(s: State, p: Worker, r: RunId)
    requires p in s.workers && r in s.db.runs
    ensures Holds(s.workers[p]) && s.workers[p].r in s.db.runs && s.workers[p].r != r ==>
      r in PersistDrafts(s.db, s.workers[p].r).runs && PersistDrafts(s.db, s.workers[p].r).runs[r] == s.db.runs[r]
  {
  }

  lemma {:induction false} UnattendedForever(
    s: State, r: RunId, states: seq<State>, steps: seq<(Worker, Action)>, k: nat)
    requires Inv(s) && IsCompleted(s, r) && Unattended(s, r) && Continues(s, states, steps) && k < |states|
    ensures Inv(states[k]) && IsCompleted(states[k], r) && Unattended(states[k], r)
  {
    hide Inv, Next, Enabled, IsCompleted, Unattended;
    if k > 0 {
      UnattendedForever(s, r, states, steps, k - 1);
      StepLeavesAlone(states[k - 1], steps[k - 1].0, steps[k - 1].1, r);
      NextInv(states[k - 1], steps[k - 1].0, steps[k - 1].1);
    }
  }

  /******* Somebody at work: a few steps to a failed run *******/

  ghost predicate CanFail(s: State, r: RunId) {
    exists states, steps :: Continues(s, states, steps) && !IsCompleted(states[|steps|], r)
  }

  lemma LastStep(s: State, p: Worker, a: Action, r: RunId)
    requires Enabled(s, p, a) && !IsCompleted(Next(s, p, a), r)
    ensures CanFail(s, r)
  {
    hide Next, Enabled;
    var states, steps := [s, Next(s, p, a)], [(p, a)];
    assert Continues(s, states, steps);
    assert states[|steps|] == Next(s, p, a);
  }

  lemma StepBefore(s: State, p: Worker, a: Action, r: RunId)
    requires Enabled(s, p, a) && CanFail(Next(s, p, a), r)
    ensures CanFail(s, r)
  {
    hide Next, Enabled, IsCompleted;
    var states, steps :| Continues(Next(s, p, a), states, steps) && !IsCompleted(states[|steps|], r);
    var more, next := [s] + states, [(p, a)] + steps;
    assert Continues(s, more, next);
    assert more[|next|] == states[|steps|];
  }

  lemma CanFailMeans(s: State, r: RunId)
    requires CanFail(s, r)
    ensures !StaysCompleted(s, r)
  {
    hide Next, Enabled, IsCompleted;
    var states, steps :| Continues(s, states, steps) && !IsCompleted(states[|steps|], r);
  }

  /** The failure write itself, from a row loaded when it was not failed. */
  lemma WriteFails(s: State, w: Worker, r: RunId)
    requires w in s.workers && s.workers[w].FailWrite? && s.workers[w].r == r && r in s.db.runs
    requires s.workers[w].seen.status != Failed
    ensures CanFail(s, r)
  {
    hide CanFail;
    LastStep(s, w, Fail, r);
  }

  lemma ReloadFails(s: State, w: Worker, r: RunId)
    requires w in s.workers && s.workers[w].Forced? && s.workers[w].r == r && IsCompleted(s, r)
    ensures CanFail(s, r)
  {
    hide CanFail;
    WriteFails(Next(s, w, Reload), w, r);
    StepBefore(s, w, Reload, r);
  }

  /** An exception handler. */
  lemma HandlerFails(s: State, w: Worker, r: RunId)
    requires w in s.workers && s.workers[w].Failing? && s.workers[w].r == r && IsCompleted(s, r)
    ensures CanFail(s, r)
  {
    hide CanFail, ForcedPhase;
    ReloadFails(Next(s, w, FailRead(false)), w, r);
    StepBefore(s, w, FailRead(false), r);
  }

  /** An exception that a handler catches. */
  lemma RaiseFails(s: State, w: Worker, r: RunId)
    requires w in s.workers && Holds(s.workers[w]) && s.workers[w].r == r && IsCompleted(s, r)
    requires Catches(s.workers[w], false)
    ensures CanFail(s, r)
  {
    hide CanFail, Resumed;
    HandlerFails(Next(s, w, Raise(false)), w, r);
    StepBefore(s, w, Raise(false), r);
  }

  /** At any point of a worker's work on the run, something can go wrong that ends in a failed run. */
  lemma WorkCanFail(s: State, w: Worker, r: RunId)
    requires AtWork(s, w, r) && IsCompleted(s, r)
    ensures CanFail(s, r)
  {
    hide CanFail;
    var pc := s.workers[w];
    if Catches(pc, false) {
      RaiseFails(s, w, r);
    } else if pc.FailWrite? {
      WriteFails(s, w, r);
    } else if pc.Forced? {
      ReloadFails(s, w, r);
    } else if pc.Failing? {
      HandlerFails(s, w, r);
    } else {
      RaiseFails(Next(s, w, ReadRow), w, r);
      StepBefore(s, w, ReadRow, r);
    }
  }

  /**
   From a reachable state, a completed run stays completed along every further sequence of steps if
   and only if no worker is at work on it.
   */
  lemma CompletedForeverIff(s: State, r: RunId)
    requires Reachable(s) && IsCompleted(s, r)
    ensures StaysCompleted(s, r) <==> Unattended(s, r)
  {
    hide Inv, Next, Enabled, Continues;
    ReachableIsInv(s);
    if Unattended(s, r) {
      forall states, steps, k: nat | Continues(s, states, steps) && k < |states|
        ensures IsCompleted(states[k], r)
      {
        UnattendedForever(s, r, states, steps, k);
      }
    } else {
      var w :| w in s.workers && AtWork(s, w, r);
      WorkCanFail(s, w, r);
      assert !StaysCompleted(s, r) by { CanFailMeans(s, r); }
    }
  }
}
