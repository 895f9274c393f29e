/**
 Recurring automations: rows, the guarded updates of the tick service, and the system in which any
 number of ticks, pauses and re-enables interleave one transaction at a time.
 */
module Automations {
  import opened Wrappers
  import opened Cadence

  type Id = nat
  type Token = nat
  type Worker = nat

  datatype Reason = ManualPause | OwnershipLost | UnsupportedSkillVersion | InvalidDefinition

  datatype Outcome = RunRecorded | MisfireSkipped | SafetyDisabled

  datatype Row = Row(cadence: Cadence, enabled: bool, reason: Option<Reason>, nextRunAt: int,
                     lastScheduledFor: Option<int>, outcome: Option<Outcome>, claim: Option<Token>, claimedAt: int)

  /** Microseconds. */
  const MISFIRE_GRACE: int := 900_000_000
  const CLAIM_LEASE: int := 120_000_000
  const MAX_OCCURRENCES_PER_TICK: int := 5

  /******* Updates of one row *******/

  function Created(cadence: Cadence, now: int): Row {
    Row(cadence, true, None, NextOccurrence(cadence, now), None, None, None, 0)
  }

  function Paused(row: Row): Row {
    row.(enabled := false, reason := Some(ManualPause), claim := None)
  }

  function Blocked(row: Row, reason: Reason): Row {
    row.(enabled := false, reason := Some(reason), outcome := Some(SafetyDisabled), claim := None)
  }

  /** `set_enabled(True)` once ownership and definition were checked. */
  function Reenabled(row: Row, now: int): Row {
    if row.enabled && row.reason.None? then row
    else row.(enabled := true, reason := None, nextRunAt := NextOccurrence(row.cadence, now), claim := None)
  }

  predicate Due(row: Row, tick: int) {
    row.enabled && row.nextRunAt <= tick && (row.claim.None? || row.claimedAt <= tick - CLAIM_LEASE)
  }

  function Claimed(row: Row, token: Token, tick: int): Row {
    row.(claim := Some(token), claimedAt := tick)
  }

  function Advanced(row: Row, scheduled: int, after: int, outcome: Outcome): Row {
    row.(lastScheduledFor := Some(scheduled), nextRunAt := NextOccurrence(row.cadence, after), outcome := Some(outcome),
         claim := None)
  }

  predicate Misfired(scheduled: int, tick: int) {
    tick - scheduled > MISFIRE_GRACE
  }

  /******* The system *******/

  /** A claimed occurrence in the hands of a tick that started at `tick`. */
  datatype Job = Job(id: Id, token: Token, tick: int, seen: Option<int>, ran: bool)

  /** `runs` holds the occurrences that have a run row; tokens are never reused. */
  datatype State = State(rows: map<Id, Row>, runs: set<(Id, int)>, jobs: map<Worker, Job>, now: int, nextToken: Token)

  datatype Action =
    | Tick(now: int)
    | Create(id: Id, cadence: Cadence)
    | Pause(id: Id)
    | Enable(id: Id, blocker: Option<Reason>)
    | Claim(w: Worker, id: Id, tick: int)
    | Look(w: Worker)
    | SkipMisfire(w: Worker)
    | Refuse(w: Worker, reason: Reason)
    | Reconcile(w: Worker)
    | Run(w: Worker)
    | Finish(w: Worker)
    | Crash(w: Worker)

  function SetRow(s: State, id: Id, row: Row): State {
    s.(rows := s.rows[id := row])
  }

  function EndJob(s: State, w: Worker): State {
    s.(jobs := s.jobs - {w})
  }

  predicate Holding(s: State, w: Worker) {
    w in s.jobs && s.jobs[w].id in s.rows
  }

  /** The job has read its occurrence and has not run it. */
  predicate Deciding(s: State, w: Worker) {
    Holding(s, w) && s.jobs[w].seen.Some? && !s.jobs[w].ran
  }

  /** The claim is still the job's. */
  predicate Mine(s: State, x: Job) {
    x.id in s.rows && s.rows[x.id].claim == Some(x.token)
  }

  predicate Enabled(s: State, a: Action) {
    match a
    case Tick(now) => now >= s.now
    case Create(id, cadence) => id !in s.rows && Valid(cadence)
    case Pause(id) => id in s.rows
    case Enable(id, blocker) => id in s.rows
    case Claim(w, id, tick) => w !in s.jobs && tick <= s.now && id in s.rows && Due(s.rows[id], tick)
    case Look(w) => Holding(s, w) && s.jobs[w].seen.None?
    case SkipMisfire(w) => Deciding(s, w) && Misfired(s.jobs[w].seen.value, s.jobs[w].tick)
    case Refuse(w, reason) => Deciding(s, w) && !Misfired(s.jobs[w].seen.value, s.jobs[w].tick)
    case Reconcile(w) =>
      && Deciding(s, w) && !Misfired(s.jobs[w].seen.value, s.jobs[w].tick)
      && (s.jobs[w].id, s.jobs[w].seen.value) in s.runs
    case Run(w) => Deciding(s, w) && !Misfired(s.jobs[w].seen.value, s.jobs[w].tick)
    case Finish(w) => Holding(s, w) && s.jobs[w].seen.Some? && s.jobs[w].ran
    case Crash(w) => w in s.jobs
  }

  /** `_advance_claimed`: only while the claim is held and the occurrence is still the one read. */
  function Advance(s: State, x: Job, after: int, outcome: Outcome): State
    requires x.id in s.rows && x.seen.Some?
  {
    var row := s.rows[x.id];
    if Mine(s, x) && row.nextRunAt == x.seen.value then SetRow(s, x.id, Advanced(row, x.seen.value, after, outcome))
    else s
  }

  function Next(s: State, a: Action): State
    requires Enabled(s, a)
  {
    match a
    case Tick(now) => s.(now := now)
    case Create(id, cadence) => SetRow(s, id, Created(cadence, s.now))
    case Pause(id) => SetRow(s, id, Paused(s.rows[id]))
    case Enable(id, blocker) =>
      SetRow(s, id, if blocker.Some? then Blocked(s.rows[id], blocker.value) else Reenabled(s.rows[id], s.now))
    case Claim(w, id, tick) =>
      SetRow(s, id, Claimed(s.rows[id], s.nextToken, tick))
      .(jobs := s.jobs[w := Job(id, s.nextToken, tick, None, false)], nextToken := s.nextToken + 1)
    case Look(w) =>
      var x := s.jobs[w];
      if s.rows[x.id].enabled && Mine(s, x) then s.(jobs := s.jobs[w := x.(seen := Some(s.rows[x.id].nextRunAt))])
      else EndJob(s, w)
    case SkipMisfire(w) => EndJob(Advance(s, s.jobs[w], s.jobs[w].tick, MisfireSkipped), w)
    case Refuse(w, reason) =>
      var x := s.jobs[w];
      EndJob(if Mine(s, x) then SetRow(s, x.id, Blocked(s.rows[x.id], reason)) else s, w)
    case Reconcile(w) => EndJob(Advance(s, s.jobs[w], s.jobs[w].seen.value, RunRecorded), w)
    case Run(w) =>
      var x := s.jobs[w];
      s.(runs := s.runs + {(x.id, x.seen.value)}, jobs := s.jobs[w := x.(ran := true)])
    case Finish(w) =>
      // the row is read again after the run: here only the claim is compared
      var x := s.jobs[w];
      EndJob(if Mine(s, x) then SetRow(s, x.id, Advanced(s.rows[x.id], x.seen.value, x.seen.value, RunRecorded)) else s,
             w)
    case Crash(w) => EndJob(s, w)
  }

  ghost predicate Initial(s: State) {
    s.rows == map[] && s.jobs == map[]
  }

  ghost predicate IsRun(states: seq<State>, actions: seq<Action>) {
    && |states| == |actions| + 1 && Initial(states[0])
    && forall k :: 0 <= k < |actions| ==> Enabled(states[k], actions[k]) && states[k + 1] == Next(states[k], actions[k])
  }

  /******* Invariant *******/

  /**
   The next run is an occurrence, later than the last one handled, and no later than the first
   occurrence after now.
   */
  ghost predicate RowInv(id: Id, row: Row, runs: set<(Id, int)>, now: int) {
    && Valid(row.cadence) && IsOccurrence(row.cadence, row.nextRunAt)
    && (row.lastScheduledFor.Some? ==> row.lastScheduledFor.value < row.nextRunAt)
    && row.nextRunAt <= NextOccurrence(row.cadence, now)
    && (row.outcome == Some(RunRecorded) ==> row.lastScheduledFor.Some? && (id, row.lastScheduledFor.value) in runs)
  }

  /** While its claim stands, the job's occurrence is due and unchanged. */
  ghost predicate JobInv(s: State, x: Job) {
    && x.id in s.rows && x.token < s.nextToken && x.tick <= s.now
    && (s.rows[x.id].claim == Some(x.token) ==>
          s.rows[x.id].nextRunAt <= x.tick && (x.seen.Some? ==> s.rows[x.id].nextRunAt == x.seen.value))
    && (x.ran ==> x.seen.Some? && (x.id, x.seen.value) in s.runs)
  }

  ghost predicate Inv(s: State) {
    && (forall id :: id in s.rows ==>
          RowInv(id, s.rows[id], s.runs, s.now) && (s.rows[id].claim.Some? ==> s.rows[id].claim.value < s.nextToken))
    && (forall w :: w in s.jobs ==> JobInv(s, s.jobs[w]))
  }

  /** The schedule of a row only moves forward. */
  predicate Forward(row: Row, row': Row) {
    && row'.cadence == row.cadence && row.nextRunAt <= row'.nextRunAt
    && (row.lastScheduledFor.Some? ==>
          row'.lastScheduledFor.Some? && row.lastScheduledFor.value <= row'.lastScheduledFor.value)
    && (row'.lastScheduledFor != row.lastScheduledFor ==>
          row'.lastScheduledFor == Some(row.nextRunAt) && row.nextRunAt < row'.nextRunAt)
  }

  lemma AdvancedOk(id: Id, row: Row, runs: set<(Id, int)>, now: int, after: int, outcome: Outcome)
    requires RowInv(id, row, runs, now) && row.nextRunAt <= after <= now
    requires outcome == RunRecorded ==> (id, row.nextRunAt) in runs
    ensures RowInv(id, Advanced(row, row.nextRunAt, after, outcome), runs, now)
    ensures Forward(row, Advanced(row, row.nextRunAt, after, outcome))
  {
    hide NextOccurrence, IsOccurrence;
    NextIsLeast(row.cadence, after, 0);
    NextIsMonotone(row.cadence, after, now);
  }

  lemma ReenabledOk(id: Id, row: Row, runs: set<(Id, int)>, now: int)
    requires RowInv(id, row, runs, now)
    ensures RowInv(id, Reenabled(row, now), runs, now) && Forward(row, Reenabled(row, now))
  {
    hide NextOccurrence, IsOccurrence;
    NextIsLeast(row.cadence, now, 0);
  }

  lemma LaterOk(id: Id, row: Row, runs: set<(Id, int)>, now: int, later: int, more: set<(Id, int)>)
    requires RowInv(id, row, runs, now) && now <= later && runs <= more
    ensures RowInv(id, row, more, later)
  {
    hide NextOccurrence, IsOccurrence;
    NextIsMonotone(row.cadence, now, later);
  }

  /** A step that rewrites one row, gives it no new claim, and at most ends jobs. */
  lemma RowStep(s: State, s': State, id: Id)
    requires Inv(s) && id in s.rows && id in s'.rows
    requires s' == s.(rows := s.rows[id := s'.rows[id]], jobs := s'.jobs)
    requires forall w :: w in s'.jobs ==> w in s.jobs && s'.jobs[w] == s.jobs[w]
    requires RowInv(id, s'.rows[id], s.runs, s.now)
    requires s'.rows[id].claim.None? || s'.rows[id] == s.rows[id]
    ensures Inv(s')
  {
    hide RowInv;
    forall w | w in s'.jobs
      ensures JobInv(s', s'.jobs[w])
    {
      assert JobInv(s, s.jobs[w]);
    }
  }

  lemma AdvanceStep(s: State, w: Worker, after: int, outcome: Outcome)
    requires Inv(s) && Holding(s, w) && s.jobs[w].seen.Some?
    requires s.jobs[w].seen.value <= after <= s.now
    requires outcome == RunRecorded ==> (s.jobs[w].id, s.jobs[w].seen.value) in s.runs
    ensures var s' := EndJob(Advance(s, s.jobs[w], after, outcome), w); Inv(s') && Forwards(s, s')
  {
    hide RowInv, Forward, Advanced;
    var x := s.jobs[w];
    var s' := EndJob(Advance(s, x, after, outcome), w);
    assert RowInv(x.id, s.rows[x.id], s.runs, s.now);
    if Mine(s, x) && s.rows[x.id].nextRunAt == x.seen.value {
      AdvancedOk(x.id, s.rows[x.id], s.runs, s.now, after, outcome);
      NoClaim(s.rows[x.id], x.seen.value, after, outcome);
    } else {
      assert s.rows[x.id := s.rows[x.id]] == s.rows;
    }
    RowStep(s, s', x.id);
    Unmoved(s);
  }

  lemma NoClaim(row: Row, scheduled: int, after: int, outcome: Outcome)
    ensures Advanced(row, scheduled, after, outcome).claim.None?
  {
  }

  ghost predicate Forwards(s: State, s': State) {
    forall id :: id in s.rows ==> id in s'.rows && Forward(s.rows[id], s'.rows[id])
  }

  lemma Unmoved(s: State)
    ensures forall id :: id in s.rows ==> Forward(s.rows[id], s.rows[id])
  {
  }

  lemma NextInv(s: State, a: Action)
    requires Inv(s) && Enabled(s, a)
    ensures Inv(Next(s, a)) && Forwards(s, Next(s, a))
  {
    hide RowInv, Forward, NextOccurrence, IsOccurrence, Advance, Due, Misfired;
    var s' := Next(s, a);
    Unmoved(s);
    match a
    case Tick(now) =>
      forall id | id in s.rows
        ensures RowInv(id, s.rows[id], s.runs, now)
      {
        LaterOk(id, s.rows[id], s.runs, s.now, now, s.runs);
      }
      forall w | w in s'.jobs ensures JobInv(s', s'.jobs[w]) { assert JobInv(s, s.jobs[w]); }
    case Create(id, cadence) => CreateKeeps(s, id, cadence);
    case Pause(id) => PauseKeeps(s, id);
    case Enable(id, blocker) => EnableKeeps(s, id, blocker);
    case Claim(w, id, tick) => ClaimKeeps(s, w, id, tick);
    case Look(w) =>
      forall w' | w' in s'.jobs ensures JobInv(s', s'.jobs[w']) { assert JobInv(s, s.jobs[w']); }
    case SkipMisfire(w) => MisfireKeeps(s, w);
    case Refuse(w, reason) => RefuseKeeps(s, w, reason);
    case Reconcile(w) => ReconcileKeeps(s, w);
    case Run(w) => RunKeeps(s, w);
    case Finish(w) => FinishKeeps(s, w);
    case Crash(w) =>
      forall w' | w' in s'.jobs ensures JobInv(s', s'.jobs[w']) { assert JobInv(s, s.jobs[w']); }
  }

  lemma CreateKeeps(s: State, id: Id, cadence: Cadence)
    requires Inv(s) && Enabled(s, Create(id, cadence))
    ensures Inv(Next(s, Create(id, cadence))) && Forwards(s, Next(s, Create(id, cadence)))
  {
    hide NextOccurrence, IsOccurrence, Forward;
    var s' := Next(s, Create(id, cadence));
    NextIsLeast(cadence, s.now, 0);
    Unmoved(s);
    forall w | w in s'.jobs ensures JobInv(s', s'.jobs[w]) { assert JobInv(s, s.jobs[w]); }
  }

  lemma PauseKeeps(s: State, id: Id)
    requires Inv(s) && id in s.rows
    ensures Inv(Next(s, Pause(id))) && Forwards(s, Next(s, Pause(id)))
  {
    hide NextOccurrence, IsOccurrence;
    assert RowInv(id, s.rows[id], s.runs, s.now);
    RowStep(s, Next(s, Pause(id)), id);
  }

  lemma EnableKeeps(s: State, id: Id, blocker: Option<Reason>)
    requires Inv(s) && id in s.rows
    ensures Inv(Next(s, Enable(id, blocker))) && Forwards(s, Next(s, Enable(id, blocker)))
  {
    hide NextOccurrence, IsOccurrence;
    assert RowInv(id, s.rows[id], s.runs, s.now);
    ReenabledOk(id, s.rows[id], s.runs, s.now);
    RowStep(s, Next(s, Enable(id, blocker)), id);
  }

  lemma ClaimKeeps(s: State, w: Worker, id: Id, tick: int)
    requires Inv(s) && Enabled(s, Claim(w, id, tick))
    ensures Inv(Next(s, Claim(w, id, tick))) && Forwards(s, Next(s, Claim(w, id, tick)))
  {
    hide NextOccurrence, IsOccurrence;
    var s' := Next(s, Claim(w, id, tick));
    forall x | x in s'.rows
      ensures RowInv(x, s'.rows[x], s'.runs, s'.now)
    {
      assert RowInv(x, s.rows[x], s.runs, s.now);
    }
    forall w' | w' in s'.jobs
      ensures JobInv(s', s'.jobs[w'])
    {
      assert w' != w ==> JobInv(s, s.jobs[w']);
    }
  }

  lemma MisfireKeeps(s: State, w: Worker)
    requires Inv(s) && Enabled(s, SkipMisfire(w))
    ensures Inv(Next(s, SkipMisfire(w))) && Forwards(s, Next(s, SkipMisfire(w)))
  {
    hide RowInv, NextOccurrence, IsOccurrence, Forward, Advance;
    assert JobInv(s, s.jobs[w]);
    AdvanceStep(s, w, s.jobs[w].tick, MisfireSkipped);
  }

  lemma RefuseKeeps(s: State, w: Worker, reason: Reason)
    requires Inv(s) && Enabled(s, Refuse(w, reason))
    ensures Inv(Next(s, Refuse(w, reason))) && Forwards(s, Next(s, Refuse(w, reason)))
  {
    hide NextOccurrence, IsOccurrence;
    var id := s.jobs[w].id;
    assert RowInv(id, s.rows[id], s.runs, s.now);
    assert s.rows[id := s.rows[id]] == s.rows;
    RowStep(s, Next(s, Refuse(w, reason)), id);
  }

  /** Both ways of recording a run; a job whose claim was lost changes nothing. */
  lemma ReconcileKeeps(s: State, w: Worker)
    requires Inv(s) && (Enabled(s, Reconcile(w)) || Enabled(s, Finish(w)))
    ensures var s' := EndJob(Advance(s, s.jobs[w], s.jobs[w].seen.value, RunRecorded), w); Inv(s') && Forwards(s, s')
  {
    hide RowInv, NextOccurrence, IsOccurrence, Forward;
    var x := s.jobs[w];
    assert JobInv(s, x);
    if Mine(s, x) {
      AdvanceStep(s, w, x.seen.value, RunRecorded);
    } else {
      Unmoved(s);
      var s' := EndJob(s, w);
      forall w' | w' in s'.jobs ensures JobInv(s', s'.jobs[w']) { assert JobInv(s, s.jobs[w']); }
    }
  }

  lemma FinishKeeps(s: State, w: Worker)
    requires Inv(s) && Enabled(s, Finish(w))
    ensures Inv(Next(s, Finish(w))) && Forwards(s, Next(s, Finish(w)))
  {
    hide RowInv, NextOccurrence, IsOccurrence, Forward, Advanced;
    assert JobInv(s, s.jobs[w]);
    ReconcileKeeps(s, w);
    assert Next(s, Finish(w)) == EndJob(Advance(s, s.jobs[w], s.jobs[w].seen.value, RunRecorded), w);
  }

  lemma RunKeeps(s: State, w: Worker)
    requires Inv(s) && Enabled(s, Run(w))
    ensures Inv(Next(s, Run(w))) && Forwards(s, Next(s, Run(w)))
  {
    hide RowInv, NextOccurrence, IsOccurrence, Forward;
    var s' := Next(s, Run(w));
    Unmoved(s);
    forall id | id in s'.rows
      ensures RowInv(id, s'.rows[id], s'.runs, s'.now)
    {
      assert RowInv(id, s.rows[id], s.runs, s.now);
      LaterOk(id, s.rows[id], s.runs, s.now, s.now, s'.runs);
    }
    forall w' | w' in s'.jobs ensures JobInv(s', s'.jobs[w']) { assert JobInv(s, s.jobs[w']); }
  }

  lemma {:induction false} ReachableInv(states: seq<State>, actions: seq<Action>, k: nat)
    requires IsRun(states, actions) && k < |states|
    ensures Inv(states[k])
  {
    hide Inv, Next, Enabled;
    if k == 0 {
      assert Inv(states[0]) by { InitialInv(states[0]); }
    } else {
      ReachableInv(states, actions, k - 1);
      NextInv(states[k - 1], actions[k - 1]);
    }
  }

  lemma InitialInv(s: State)
    requires Initial(s)
    ensures Inv(s)
  {
  }

  /******* Main results *******/

  /**
   Over every interleaving of ticks, crashes, misfires, pauses and re-enables with a clock that does
   not go back, the next run is a proper occurrence later than the last one handled, and a recorded
   outcome has its run.
   */
  lemma LastBeforeNext(states: seq<State>, actions: seq<Action>, k: nat, id: Id)
    requires IsRun(states, actions) && k < |states| && id in states[k].rows
    ensures var row := states[k].rows[id];
      && IsOccurrence(row.cadence, row.nextRunAt)
      && (row.lastScheduledFor.Some? ==> row.lastScheduledFor.value < row.nextRunAt)
      && (row.outcome == Some(RunRecorded) ==>
            row.lastScheduledFor.Some? && (id, row.lastScheduledFor.value) in states[k].runs)
  {
    hide IsRun;
    ReachableInv(states, actions, k);
    assert RowInv(id, states[k].rows[id], states[k].runs, states[k].now);
  }

  /** The next run never moves back, and neither does the last one handled. */
  lemma {:induction false} NeverBack(states: seq<State>, actions: seq<Action>, i: nat, j: nat, id: Id)
    requires IsRun(states, actions) && i <= j < |states| && id in states[i].rows
    ensures id in states[j].rows && states[i].rows[id].nextRunAt <= states[j].rows[id].nextRunAt
    ensures states[i].rows[id].lastScheduledFor.Some? ==>
      states[j].rows[id].lastScheduledFor.Some?
      && states[i].rows[id].lastScheduledFor.value <= states[j].rows[id].lastScheduledFor.value
    decreases j
  {
    hide Inv, Next, Enabled;
    if i < j {
      NeverBack(states, actions, i, j - 1, id);
      ReachableInv(states, actions, j - 1);
      NextInv(states[j - 1], actions[j - 1]);
    }
  }

  /** An occurrence is handled at most once: each step that handles one handles the next run, and moves it on. */
  lemma HandledOnce(states: seq<State>, actions: seq<Action>, i: nat, j: nat, id: Id)
    requires IsRun(states, actions) && i < j < |actions| && id in states[i].rows && id in states[j].rows
    requires states[i + 1].rows[id].lastScheduledFor != states[i].rows[id].lastScheduledFor
    requires id in states[j + 1].rows && states[j + 1].rows[id].lastScheduledFor != states[j].rows[id].lastScheduledFor
    ensures states[i + 1].rows[id].lastScheduledFor.Some? && states[j + 1].rows[id].lastScheduledFor.Some?
    ensures states[i + 1].rows[id].lastScheduledFor.value < states[j + 1].rows[id].lastScheduledFor.value
  {
    hide Inv, Next, Enabled;
    ReachableInv(states, actions, i);
    NextInv(states[i], actions[i]);
    ReachableInv(states, actions, j);
    NextInv(states[j], actions[j]);
    NeverBack(states, actions, i + 1, j, id);
  }
}
