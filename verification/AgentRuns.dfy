/** Assistant runs, the drafts they persist, and the single transactions of `AdminAgentRunner`. */
module AgentRuns {
  import opened Wrappers

  type RunId = nat
  type ContentId = nat
  type Token = nat

  datatype Scenario = AttentionToday | DraftsTomorrow | ContentSeries

  datatype Phase =
    | Created | GenerationInflight | GenerationValidated | DraftsPersisted | PhaseCompleted
    | RestartRequired | PhaseFailed | FailedClosed

  datatype Status = Running | Completed | Failed

  /** What a caller asks for. `request` is absent only for an attention brief. */
  datatype Request = Request(owner: nat, channel: nat, scenario: Scenario, request: Option<string>,
                             occurrence: Option<Occurrence>, posts: nat)

  datatype Occurrence = Occurrence(automation: nat, scheduledFor: int)

  datatype Run = Run(asked: Request, phase: Phase, status: Status, token: Option<Token>, claimedAt: int)

  /**
   The tables. `artifacts[r]` maps the ordinals of run r to content items; `drafts` maps every content
   item that carries a run's provenance to that run.
   */
  datatype Db = Db(runs: map<RunId, Run>, nextRun: RunId, artifacts: map<RunId, map<nat, ContentId>>,
                   drafts: map<ContentId, RunId>, nextItem: ContentId)

  /** Microseconds: `_RESUME_CLAIM_SECONDS`. */
  const RESUME_CLAIM: int := 90_000_000

  predicate WritesDrafts(q: Request) {
    !q.scenario.AttentionToday?
  }

  /** `uq_admin_agent_run_idempotency`; rows without a request id are never equal. */
  predicate SameIdentity(a: Request, b: Request) {
    && a.request.Some? && a.request == b.request
    && a.owner == b.owner && a.channel == b.channel && a.scenario == b.scenario
  }

  /** `uq_admin_agent_run_automation_occurrence`. */
  predicate SameOccurrence(a: Request, b: Request) {
    a.occurrence.Some? && a.occurrence == b.occurrence
  }

  predicate Taken(db: Db, q: Request) {
    exists r :: r in db.runs && (SameIdentity(db.runs[r].asked, q) || SameOccurrence(db.runs[r].asked, q))
  }

  function ArtifactsOf(db: Db, r: RunId): map<nat, ContentId> {
    if r in db.artifacts then db.artifacts[r] else map[]
  }

  /******* Transactions *******/

  function InsertRun(db: Db, q: Request): Db {
    db.(runs := db.runs[db.nextRun := Run(q, Created, Running, None, 0)], nextRun := db.nextRun + 1)
  }

  function SetRun(db: Db, r: RunId, run: Run): Db {
    db.(runs := db.runs[r := run])
  }

  function SetPhase(db: Db, r: RunId, phase: Phase): Db
    requires r in db.runs
  {
    SetRun(db, r, db.runs[r].(phase := phase))
  }

  /** The unique constraint on (run, ordinal) lets the whole insert through or rolls it back. */
  predicate DraftsFit(db: Db, r: RunId)
    requires r in db.runs
  {
    forall o :: 1 <= o <= db.runs[r].asked.posts ==> o !in ArtifactsOf(db, r)
  }

  /** Fresh content items first, first + 1, ... in ordinal order. */
  function Ordinals(first: ContentId, posts: nat): (m: map<nat, ContentId>)
    ensures forall o :: o in m <==> 1 <= o <= posts
    ensures forall o :: o in m ==> m[o] == first + o - 1
  {
    if posts == 0 then map[] else Ordinals(first, posts - 1)[posts := first + posts - 1]
  }

  function AddDrafts(drafts: map<ContentId, RunId>, first: ContentId, posts: nat, r: RunId): (m: map<ContentId, RunId>)
    ensures forall i :: i in m <==> i in drafts || first <= i < first + posts
    ensures forall i :: i in m ==> m[i] == if first <= i < first + posts then r else drafts[i]
  {
    if posts == 0 then drafts else AddDrafts(drafts, first, posts - 1, r)[first + posts - 1 := r]
  }

  /** Content items, artifacts and the new phase in one commit. */
  function PersistDrafts(db: Db, r: RunId): Db
    requires r in db.runs
  {
    var n := db.runs[r].asked.posts;
    SetPhase(db, r, DraftsPersisted)
    .(artifacts := db.artifacts[r := ArtifactsOf(db, r) + Ordinals(db.nextItem, n)],
      drafts := AddDrafts(db.drafts, db.nextItem, n, r),
      nextItem := db.nextItem + n)
  }

  function CompleteRun(db: Db, r: RunId, clearClaim: bool): Db
    requires r in db.runs
  {
    var run := db.runs[r].(status := Completed, phase := PhaseCompleted);
    SetRun(db, r, if clearClaim then run.(token := None) else run)
  }

  /** `_fail_draft_run`; nothing here looks at the row's status. */
  function FailRun(db: Db, r: RunId, force: Option<Phase>, clearClaim: bool): Db
    requires r in db.runs
  {
    var run := db.runs[r].(status := Failed, phase := if force.Some? then force.value else db.runs[r].phase);
    SetRun(db, r, if clearClaim then run.(token := None) else run)
  }

  /** The phase the failure handlers force, given the phase they read. */
  function ForcedPhase(phase: Phase, scenario: Scenario, resumed: bool, limit: bool): Option<Phase> {
    if scenario.AttentionToday? then Some(PhaseFailed)
    else if phase == GenerationValidated || phase == DraftsPersisted then None
    else if resumed then Some(FailedClosed)
    else if phase == GenerationInflight && !limit then Some(RestartRequired)
    else Some(PhaseFailed)
  }

  predicate ClaimFree(run: Run, now: int) {
    run.token.None? || run.claimedAt < now - RESUME_CLAIM
  }

  predicate Claimable(db: Db, r: RunId, now: int) {
    r in db.runs && db.runs[r].status != Completed && ClaimFree(db.runs[r], now)
  }

  function ClaimRun(db: Db, r: RunId, token: Token, now: int): Db
    requires r in db.runs
  {
    SetRun(db, r, db.runs[r].(token := Some(token), claimedAt := now))
  }

  /******* What a complete artifact set is *******/

  /** Ordinals 1..posts, distinct content items, all of them drafts of run r. */
  predicate FullSet(a: map<nat, ContentId>, drafts: map<ContentId, RunId>, posts: nat, r: RunId) {
    && (forall o :: o in a ==> 1 <= o <= posts)
    && (forall o: nat :: 1 <= o <= posts ==> o in a)
    && (forall o, o' :: o in a && o' in a && a[o] == a[o'] ==> o == o')
    && (forall o :: o in a ==> a[o] in drafts && drafts[a[o]] == r)
  }

  /** Every draft of the run is linked by one of its artifacts. */
  ghost predicate AllLinked(a: map<nat, ContentId>, drafts: map<ContentId, RunId>, r: RunId) {
    forall i :: i in drafts && drafts[i] == r ==> exists o :: o in a && a[o] == i
  }

  predicate Full(db: Db, r: RunId)
    requires r in db.runs
  {
    FullSet(ArtifactsOf(db, r), db.drafts, db.runs[r].asked.posts, r)
  }

  predicate HasDrafts(db: Db, r: RunId) {
    ArtifactsOf(db, r) != map[]
  }
}
