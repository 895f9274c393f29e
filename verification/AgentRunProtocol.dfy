/**
 Any number of workers run and resume assistant runs. Each step is one transaction or one external
 call; a worker may die before any step, and wherever a handler fails the run, an exception may be
 raised before the step. Any other exception ends the worker like its death.
 */
module AgentRunProtocol {
  import opened Wrappers
  import opened AgentRuns

  /**
   Where a worker is. `resumed` says that it came through an explicit resume, `guarded` that
   `_fail_draft_run` was called inside the `try` whose handlers call it too.
   */
  datatype Pc =
    | Looking(q: Request)
    | Inserting(q: Request)
    | Started(r: RunId)
    | Inflight(r: RunId)
    | Called(r: RunId)
    | Persisting(r: RunId, resumed: bool)
    | Counted(r: RunId, resumed: bool)
    | Persisted(r: RunId, resumed: bool)
    | Checked(r: RunId, resumed: bool)
    | Returning(r: RunId, resumed: bool)          // committed, with an audit event and a refresh to go
    | Failing(r: RunId, resumed: bool)            // in an exception handler
    | Forced(r: RunId, force: Option<Phase>, resumed: bool, guarded: bool)
    | FailWrite(r: RunId, force: Option<Phase>, resumed: bool, guarded: bool, seen: Run)
    | Resuming(r: RunId)
    | Claimed(r: RunId)
    | Read(r: RunId, phase: Phase, status: Status)

  type Worker = nat

  /** `calls` records the run of every provider call; `answered` the runs whose answer was accepted. */
  datatype State = State(db: Db, workers: map<Worker, Pc>, calls: seq<RunId>, answered: set<RunId>)

  datatype Action =
    | StartRun(q: Request) | LookUp | Insert | Prepare | CallProvider | Answer(valid: bool) | FinishBrief
    | Count | Persist | Check | Complete | Return
    | Raise(refused: bool) | FailRead(limit: bool) | Reload | Fail
    | StartResume(r: RunId) | Acquire(token: Token, now: int) | ReadRow | Dispatch
    | Die

  function Goto(s: State, p: Worker, pc: Pc): State {
    s.(workers := s.workers[p := pc])
  }

  function End(s: State, p: Worker): State {
    s.(workers := s.workers - {p})
  }

  predicate Holds(pc: Pc) {
    !pc.Looking? && !pc.Inserting?
  }

  /** After an exception: a resume that fails its own checks fails closed at once. */
  function Refused(s: State, p: Worker, r: RunId, resumed: bool): State {
    Goto(s, p, if resumed then Forced(r, Some(FailedClosed), true, false) else Failing(r, false))
  }

  /** The failure write of a session that read the row as `seen`: the ORM leaves out columns that keep their value. */
  function FailSeen(db: Db, r: RunId, seen: Run, force: Option<Phase>, clearClaim: bool): (db': Db)
    requires r in db.runs
    ensures seen == db.runs[r] ==> db' == FailRun(db, r, force, clearClaim)
  {
    var run := db.runs[r];
    SetRun(db, r, run.(
      status := if seen.status == Failed then run.status else Failed,
      phase := if force.None? || force.value == seen.phase then run.phase else force.value,
      token := if clearClaim && seen.token.Some? then None else run.token))
  }

  /** What a resume does with the row it read. */
  function Dispatched(s: State, p: Worker, r: RunId, phase: Phase, status: Status): State
    requires r in s.db.runs
  {
    match phase
    case GenerationInflight => Goto(s, p, Forced(r, Some(RestartRequired), true, true))
    case GenerationValidated =>
      var running := SetRun(s.db, r, s.db.runs[r].(status := Running));
      Goto(s.(db := if status == Running then s.db else running), p, Persisting(r, true))
    case DraftsPersisted => Goto(s, p, Persisted(r, true))
    case _ => Goto(s, p, Forced(r, Some(FailedClosed), true, false))
  }

  predicate Enabled(s: State, p: Worker, a: Action) {
    if a.StartRun? then p !in s.workers && (WritesDrafts(a.q) ==> a.q.request.Some? && a.q.posts >= 1)
    else if a.StartResume? then p !in s.workers && a.r in s.db.runs && WritesDrafts(s.db.runs[a.r].asked)
    else p in s.workers && AtPc(s, s.workers[p], a)
  }

  predicate AtPc(s: State, pc: Pc, a: Action) {
    && (Holds(pc) ==> pc.r in s.db.runs)
    && match a
       case LookUp => pc.Looking?
       case Insert => pc.Inserting?
       case Prepare => pc.Started? && WritesDrafts(s.db.runs[pc.r].asked)
       case CallProvider => pc.Inflight? || (pc.Started? && !WritesDrafts(s.db.runs[pc.r].asked))
       case Answer(valid) => pc.Called? && WritesDrafts(s.db.runs[pc.r].asked)
       case FinishBrief => (pc.Started? || pc.Called?) && !WritesDrafts(s.db.runs[pc.r].asked)
       case Count => pc.Persisting?
       case Persist => pc.Counted?
       case Check => pc.Persisted?
       case Complete => pc.Checked?
       case Return => pc.Returning?
       case Raise(refused) => Holds(pc) && Catches(pc, refused)
       case FailRead(limit) => pc.Failing?
       case Reload => pc.Forced?
       case Fail => pc.FailWrite?
       case Acquire(token, now) => pc.Resuming?
       case ReadRow => pc.Claimed?
       case Dispatch => pc.Read?
       case Die => true
       case _ => false
  }

  /** Is an exception at this point caught by the handlers that fail the run? Otherwise the worker dies. */
  predicate Catches(pc: Pc, refused: bool)
    requires Holds(pc)
  {
    match pc
    case Resuming(_) => false
    case Claimed(_) => false
    case Failing(_, _) => false
    case Forced(_, _, _, guarded) => guarded && !refused
    case FailWrite(_, _, _, guarded, _) => guarded && !refused
    case Returning(_, _) => !refused
    case _ => true
  }

  function Resumed(pc: Pc): bool {
    match pc
    case Persisting(r, resumed) => resumed
    case Counted(r, resumed) => resumed
    case Persisted(r, resumed) => resumed
    case Checked(r, resumed) => resumed
    case Returning(r, resumed) => resumed
    case Forced(r, force, resumed, guarded) => resumed
    case FailWrite(r, force, resumed, guarded, seen) => resumed
    case Read(r, phase, status) => true
    case _ => false
  }

  /** The state after worker p performs the action. */
  function Next(s: State, p: Worker, a: Action): State
    requires Enabled(s, p, a)
  {
    if a.StartRun? then Goto(s, p, Looking(a.q))
    else if a.StartResume? then Goto(s, p, Resuming(a.r))
    else
      var pc := s.workers[p];
      match a
      case LookUp => if Taken(s.db, pc.q) then End(s, p) else Goto(s, p, Inserting(pc.q))
      case Insert =>
        if Taken(s.db, pc.q) then End(s, p)
        else Goto(s.(db := InsertRun(s.db, pc.q)), p, Started(s.db.nextRun))
      case Prepare => Goto(s.(db := SetPhase(s.db, pc.r, GenerationInflight)), p, Inflight(pc.r))
      case CallProvider => Goto(s.(calls := s.calls + [pc.r]), p, Called(pc.r))
      case Answer(valid) =>
        if valid then Goto(s.(db := SetPhase(s.db, pc.r, GenerationValidated), answered := s.answered + {pc.r}),
                           p, Persisting(pc.r, false))
        else Goto(s.(db := SetPhase(s.db, pc.r, PhaseFailed)), p, Failing(pc.r, false))
      case FinishBrief => Goto(s.(db := CompleteRun(s.db, pc.r, false)), p, Returning(pc.r, false))
      case Count =>
        if HasDrafts(s.db, pc.r) then Refused(s, p, pc.r, pc.resumed) else Goto(s, p, Counted(pc.r, pc.resumed))
      case Persist =>
        if DraftsFit(s.db, pc.r) then Goto(s.(db := PersistDrafts(s.db, pc.r)), p, Persisted(pc.r, pc.resumed))
        else Goto(s, p, Failing(pc.r, pc.resumed))
      case Check => if Full(s.db, pc.r) then Goto(s, p, Checked(pc.r, pc.resumed)) else Refused(s, p, pc.r, pc.resumed)
      case Complete => Goto(s.(db := CompleteRun(s.db, pc.r, pc.resumed)), p, Returning(pc.r, pc.resumed))
      case Return => End(s, p)
      case Raise(refused) =>
        // a resume tells its own refusals, which fail closed, from other exceptions
        if refused then Refused(s, p, pc.r, Resumed(pc)) else Goto(s, p, Failing(pc.r, Resumed(pc)))
      case FailRead(limit) =>
        var run := s.db.runs[pc.r];
        Goto(s, p, Forced(pc.r, ForcedPhase(run.phase, run.asked.scenario, pc.resumed, limit), pc.resumed, false))
      case Reload => Goto(s, p, FailWrite(pc.r, pc.force, pc.resumed, pc.guarded, s.db.runs[pc.r]))
      case Fail =>
        var failed := s.(db := FailSeen(s.db, pc.r, pc.seen, pc.force, pc.resumed));
        if pc.guarded then Goto(failed, p, Returning(pc.r, pc.resumed)) else End(failed, p)
      case Acquire(token, now) =>
        if Claimable(s.db, pc.r, now) then Goto(s.(db := ClaimRun(s.db, pc.r, token, now)), p, Claimed(pc.r))
        else End(s, p)
      case ReadRow => Goto(s, p, Read(pc.r, s.db.runs[pc.r].phase, s.db.runs[pc.r].status))
      case Dispatch => Dispatched(s, p, pc.r, pc.phase, pc.status)
      case Die => End(s, p)
  }

  ghost predicate Initial(s: State) {
    s.db.runs == map[] && s.db.artifacts == map[] && s.db.drafts == map[] && s.workers == map[] && s.calls == []
    && s.answered == {}
  }

  ghost predicate IsRun(states: seq<State>, steps: seq<(Worker, Action)>) {
    && |states| == |steps| + 1 && Initial(states[0])
    && forall k :: 0 <= k < |steps| ==>
         Enabled(states[k], steps[k].0, steps[k].1) && states[k + 1] == Next(states[k], steps[k].0, steps[k].1)
  }

  ghost predicate Reachable(s: State) {
    exists states, steps :: IsRun(states, steps) && states[|steps|] == s
  }

  /** Steps that go on from a state. */
  ghost predicate Continues(s: State, states: seq<State>, steps: seq<(Worker, Action)>) {
    && |states| == |steps| + 1 && states[0] == s
    && forall k :: 0 <= k < |steps| ==>
         Enabled(states[k], steps[k].0, steps[k].1) && states[k + 1] == Next(states[k], steps[k].0, steps[k].1)
  }

  lemma Extend(s: State, p: Worker, a: Action)
    requires Reachable(s) && Enabled(s, p, a)
    ensures Reachable(Next(s, p, a))
  {
    hide Next, Enabled, Initial;
    var states, steps :| IsRun(states, steps) && states[|steps|] == s;
    assert IsRun(states + [Next(s, p, a)], steps + [(p, a)]);
    assert (states + [Next(s, p, a)])[|steps + [(p, a)]|] == Next(s, p, a);
  }
}
