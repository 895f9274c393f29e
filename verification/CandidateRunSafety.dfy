/**
 The rewrite and enrichment services, the retention service and everything that edits a candidate,
 as steps of one system. A service call takes the candidate row lock, commits, calls the provider
 without any lock, and takes the lock again to record the outcome; retention reads the candidates
 first and deletes afterwards, so its two parts are separate steps.
 */
module CandidateRunSafety {
  import opened Wrappers
  import opened Text
  import opened CandidateRuns

  /** A provider call in flight, with what its service call remembers. */
  datatype Call = Call(run: RunId, candidate: CandidateId, kind: Kind, hash: string, variant: Option<string>,
                       expected: Option<RunId>)

  /** A cleanup that has read its candidates. `reactivated` is history. */
  datatype Cleanup = Cleanup(
    scanned: map<CandidateId, Candidate>,
    cutoff: int,
    keep: nat,
    reactivated: set<CandidateId>)

  datatype State = State(
    candidates: map<CandidateId, Candidate>,
    sources: map<CandidateId, Source>,
    runs: Runs,
    nextRun: RunId,
    calls: map<nat, Call>,
    cleanups: map<nat, Cleanup>)

  /** The request of one `rewrite` or `enrich` call. */
  datatype Request = Request(
    candidate: CandidateId, kind: Kind, provider: string, model: string, variant: string, expected: Option<RunId>)

  const POLICY_REWRITE: string := "rewrite_with_attribution"
  const OUTPUT_CHARS: int := 3200

  function Variant(q: Request): Option<string> {
    if q.kind.Rewrite? then NormalVariant(q.variant) else None
  }

  function RequestInputs(s: State, q: Request): Inputs
    requires q.candidate in s.candidates && q.candidate in s.sources
  {
    InputsNow(s.candidates[q.candidate], s.sources[q.candidate], q.kind, Variant(q))
  }

  predicate SameKey(run: Run, c: CandidateId, kind: Kind, provider: string, model: string, hash: string) {
    run.candidate == c && run.kind == kind && run.provider == provider && run.model == model && run.inputHash == hash
  }

  function RunsWith(s: State, q: Request, status: RunStatus): set<RunId>
    requires q.candidate in s.candidates && q.candidate in s.sources
  {
    set r | r in s.runs && s.runs[r].status == status
            && SameKey(s.runs[r], q.candidate, q.kind, q.provider, q.model, InputHash(RequestInputs(s, q)))
  }

  /** The guards of the first locked section. */
  predicate Admitted(s: State, q: Request) {
    && q.candidate in s.candidates && q.candidate in s.sources
    && s.candidates[q.candidate].active
    && (q.kind.Rewrite? ==> s.sources[q.candidate].reusePolicy == POLICY_REWRITE)
    && (q.kind.Rewrite? && q.expected.Some? ==> Pointer(s.candidates[q.candidate], q.kind) == q.expected)
  }

  function SetPointer(s: State, c: CandidateId, kind: Kind, r: RunId): State
    requires c in s.candidates
  {
    var candidate := s.candidates[c];
    s.(candidates := s.candidates[c := candidate.(current := candidate.current[kind := r])])
  }

  /** A completed run for the same key is adopted. */
  ghost predicate Reuse(s: State, q: Request, r: RunId, s': State) {
    && Admitted(s, q) && r in RunsWith(s, q, Completed)
    && (forall other :: other in RunsWith(s, q, Completed) ==> other <= r)
    && s' == SetPointer(s, q.candidate, q.kind, r)
  }

  /** No completed and no live run: abandon the expired ones, insert a running row, call the provider. */
  ghost predicate Begin(s: State, q: Request, call: nat, now: int, s': State) {
    && Admitted(s, q) && RunsWith(s, q, Completed) == {} && call !in s.calls
    && (forall r :: r in RunsWith(s, q, Running) ==> LeaseExpired(s.runs[r].startedAt, now))
    && var inputs := RequestInputs(s, q);
       var expired := RunsWith(s, q, Running);
       var run := Run(q.candidate, q.kind, q.provider, q.model, InputHash(inputs), Running, now, now, "",
                      Variant(q), inputs);
       s' == s.(runs := (map r | r in s.runs :: if r in expired then s.runs[r].(status := Abandoned) else s.runs[r])
                        [s.nextRun := run],
                nextRun := s.nextRun + 1,
                calls := s.calls[
                  call := Call(s.nextRun, q.candidate, q.kind, InputHash(inputs), Variant(q), q.expected)])
  }

  function EndCall(s: State, call: nat): State {
    s.(calls := s.calls - {call})
  }

  /** The outcome the second locked section records for a provider result. */
  function OutcomeStatus(s: State, x: Call): RunStatus
    requires x.candidate in s.candidates && x.candidate in s.sources
  {
    var candidate := s.candidates[x.candidate];
    if !candidate.active then Discarded
    else if InputHash(InputsNow(candidate, s.sources[x.candidate], x.kind, x.variant)) != x.hash then Outdated
    else if x.kind.Rewrite? && x.expected.Some? && Pointer(candidate, x.kind) != x.expected then Outdated
    else Completed
  }

  /** The provider's metadata may carry the variant key; a requested variant overwrites it. */
  function StoredVariant(x: Call, metadata: Option<string>): Option<string> {
    if x.variant.Some? then x.variant else metadata
  }

  ghost predicate Finish(s: State, call: nat, output: string, metadata: Option<string>, s': State) {
    && call in s.calls && Bounded(output, OUTPUT_CHARS) != ""
    && var x := s.calls[call];
       if x.candidate !in s.candidates || x.candidate !in s.sources
          || x.run !in s.runs || s.runs[x.run].status != Running
       then s' == EndCall(s, call)
       else
         var status := OutcomeStatus(s, x);
         var run := s.runs[x.run].(status := status, text := Bounded(output, OUTPUT_CHARS),
                                   outVariant := StoredVariant(x, metadata));
         var recorded := EndCall(s.(runs := s.runs[x.run := run]), call);
         s' == if status == Completed then SetPointer(recorded, x.candidate, x.kind, x.run) else recorded
  }

  /** The provider failed or its output was refused. */
  ghost predicate Fail(s: State, call: nat, s': State) {
    && call in s.calls
    && var x := s.calls[call];
       s' == EndCall(if x.run in s.runs && s.runs[x.run].status == Running
                     then s.(runs := s.runs[x.run := s.runs[x.run].(status := Failed)]) else s, call)
  }

  /** The candidate's status is set; going back to active is noted by the pending cleanups. */
  ghost predicate SetActive(s: State, c: CandidateId, active: bool, s': State) {
    && c in s.candidates
    && s' == s.(candidates := s.candidates[c := s.candidates[c].(active := active)],
                cleanups := map k | k in s.cleanups ::
                  if active then s.cleanups[k].(reactivated := s.cleanups[k].reactivated + {c}) else s.cleanups[k])
  }

  ghost predicate Edit(s: State, c: CandidateId, action: string, metaPolicy: string, source: Source, s': State) {
    && c in s.candidates
    && s' == s.(candidates := s.candidates[c := s.candidates[c].(action := action, metaPolicy := metaPolicy)],
                sources := s.sources[c := source])
  }

  ghost predicate AddCandidate(s: State, c: CandidateId, candidate: Candidate, source: Source, s': State) {
    && c !in s.candidates && candidate.current == map[]
    && s' == s.(candidates := s.candidates[c := candidate], sources := s.sources[c := source],
                cleanups := map k | k in s.cleanups :: s.cleanups[k].(reactivated := s.cleanups[k].reactivated + {c}))
  }

  /** The SELECT of `cleanup`: any set of candidates that are not active. */
  ghost predicate Scan(s: State, k: nat, chosen: set<CandidateId>, cutoff: int, keep: nat, s': State) {
    && k !in s.cleanups && chosen <= s.candidates.Keys
    && (forall c :: c in chosen ==> !s.candidates[c].active)
    && s' == s.(cleanups := s.cleanups[k := Cleanup(map c | c in chosen :: s.candidates[c], cutoff, keep, {})])
  }

  /** One `_delete_old_terminal`, with the pointer read by the scan. */
  ghost predicate Delete(s: State, k: nat, c: CandidateId, kind: Kind, s': State) {
    && k in s.cleanups && c in s.cleanups[k].scanned
    && var x := s.cleanups[k];
       s' == s.(runs := Without(s.runs, Doomed(s.runs, c, kind, Pointer(x.scanned[c], kind), x.cutoff, x.keep)))
  }

  datatype Action =
    | DoReuse(q: Request, r: RunId)
    | DoBegin(q: Request, call: nat, now: int)
    | DoFinish(call: nat, output: string, metadata: Option<string>)
    | DoFail(call: nat)
    | DoDie(call: nat)
    | DoSetActive(c: CandidateId, active: bool)
    | DoEdit(c: CandidateId, action: string, metaPolicy: string, source: Source)
    | DoAdd(c: CandidateId, candidate: Candidate, source: Source)
    | DoScan(k: nat, chosen: set<CandidateId>, cutoff: int, keep: nat)
    | DoDelete(k: nat, c: CandidateId, kind: Kind)

  ghost predicate Next(s: State, a: Action, s': State) {
    match a
    case DoReuse(q, r) => Reuse(s, q, r, s')
    case DoBegin(q, call, now) => Begin(s, q, call, now, s')
    case DoFinish(call, output, metadata) => Finish(s, call, output, metadata, s')
    case DoFail(call) => Fail(s, call, s')
    case DoDie(call) => call in s.calls && s' == EndCall(s, call)
    case DoSetActive(c, active) => SetActive(s, c, active, s')
    case DoEdit(c, action, metaPolicy, source) => Edit(s, c, action, metaPolicy, source, s')
    case DoAdd(c, candidate, source) => AddCandidate(s, c, candidate, source, s')
    case DoScan(k, chosen, cutoff, keep) => Scan(s, k, chosen, cutoff, keep, s')
    case DoDelete(k, c, kind) => Delete(s, k, c, kind, s')
  }

  ghost predicate Initial(s: State) {
    s.candidates == map[] && s.sources == map[] && s.runs == map[] && s.calls == map[] && s.cleanups == map[]
  }

  ghost predicate IsRun(states: seq<State>, actions: seq<Action>) {
    && |states| == |actions| + 1 && Initial(states[0])
    && forall k :: 0 <= k < |actions| ==> Next(states[k], actions[k], states[k + 1])
  }

  ghost predicate Reachable(s: State) {
    exists states, actions :: IsRun(states, actions) && states[|actions|] == s
  }

  lemma Extend(s: State, a: Action, s': State)
    requires Reachable(s) && Next(s, a, s')
    ensures Reachable(s')
  {
    hide Next, Initial;
    var states, actions :| IsRun(states, actions) && states[|actions|] == s;
    assert IsRun(states + [s'], actions + [a]);
    assert (states + [s'])[|actions + [a]|] == s';
  }

  /******* Invariants *******/

  /** At most one running run for each candidate, kind, provider, model and input hash. */
  ghost predicate OneRunning(s: State) {
    forall a, b :: a in s.runs && b in s.runs && s.runs[a].status == Running && s.runs[b].status == Running
      && SameKey(s.runs[a], s.runs[b].candidate, s.runs[b].kind, s.runs[b].provider, s.runs[b].model,
                 s.runs[b].inputHash)
      ==> a == b
  }

  ghost predicate PointerValid(s: State, c: CandidateId, kind: Kind) {
    c in s.candidates && kind in s.candidates[c].current ==>
      var r := s.candidates[c].current[kind];
      r in s.runs && s.runs[r].status == Completed && s.runs[r].candidate == c && s.runs[r].kind == kind
  }

  ghost predicate RunRecorded(s: State, r: RunId)
    requires r in s.runs
  {
    && r < s.nextRun
    && s.runs[r].inputHash == InputHash(s.runs[r].inputs)
    && (s.runs[r].inputs.variant != Some(""))
  }

  ghost predicate CallKnown(s: State, x: Call) {
    && x.run < s.nextRun && x.variant != Some("")
    && (x.variant.Some? ==> NormalVariant(x.variant.value) == x.variant)
    && (x.run in s.runs ==>
          s.runs[x.run].candidate == x.candidate && s.runs[x.run].kind == x.kind && s.runs[x.run].inputHash == x.hash)
  }

  /** What a pending cleanup still knows about a candidate that was not reactivated. */
  ghost predicate ScanCurrent(s: State, x: Cleanup, c: CandidateId)
    requires c in x.scanned
  {
    c !in x.reactivated ==>
      c in s.candidates && !s.candidates[c].active && s.candidates[c].current == x.scanned[c].current
  }

  ghost predicate Inv(s: State) {
    && s.candidates.Keys == s.sources.Keys
    && OneRunning(s)
    && (forall r :: r in s.runs ==> RunRecorded(s, r))
    && (forall k :: k in s.calls ==> CallKnown(s, s.calls[k]))
    && (forall k, c :: k in s.cleanups && c in s.cleanups[k].scanned ==> ScanCurrent(s, s.cleanups[k], c))
  }

  ghost predicate PointersValid(s: State) {
    forall c, kind :: PointerValid(s, c, kind)
  }

  /******* Every step keeps the invariant *******/

  lemma BeginKeeps(s: State, q: Request, call: nat, now: int, s': State)
    requires Inv(s) && Begin(s, q, call, now, s')
    ensures Inv(s')
  {
    hide OneRunning, ScanCurrent, LeaseExpired, SameKey;
    NormalVariantNonempty(q.variant);
    VariantRoundTrip(q.variant);
    var inputs := RequestInputs(s, q);
    assert RunRecorded(s', s.nextRun);
    forall r | r in s'.runs
      ensures RunRecorded(s', r)
    {
      assert r != s.nextRun ==> RunRecorded(s, r);
    }
    forall k | k in s'.calls
      ensures CallKnown(s', s'.calls[k])
    {
      assert k != call ==> CallKnown(s, s.calls[k]);
    }
    BeginOneRunning(s, q, call, now, s');
    ScansKept(s, s');
  }

  lemma NormalVariantNonempty(raw: string)
    ensures NormalVariant(raw) != Some("")
  {
  }

  lemma BeginOneRunning(s: State, q: Request, call: nat, now: int, s': State)
    requires Inv(s) && Begin(s, q, call, now, s')
    ensures OneRunning(s')
  {
    forall r | r in s.runs
      ensures r < s.nextRun
    {
      assert RunRecorded(s, r);
    }
  }

  ghost predicate SameForScans(s: State, s': State, c: CandidateId)
    requires c in s.candidates
  {
    && c in s'.candidates && s'.candidates[c].active == s.candidates[c].active
    && (!s.candidates[c].active ==> s'.candidates[c].current == s.candidates[c].current)
  }

  lemma ScansKept(s: State, s': State)
    requires Inv(s) && s'.cleanups == s.cleanups
    requires forall c :: c in s.candidates ==> SameForScans(s, s', c)
    ensures forall k, c :: k in s'.cleanups && c in s'.cleanups[k].scanned ==> ScanCurrent(s', s'.cleanups[k], c)
  {
    forall k, c | k in s'.cleanups && c in s'.cleanups[k].scanned
      ensures ScanCurrent(s', s'.cleanups[k], c)
    {
      assert ScanCurrent(s, s.cleanups[k], c);
    }
  }

  /** The outcome of a run was recorded, or nothing changed. */
  predicate Settled(run: Run, run': Run) {
    && run' == run.(status := run'.status, text := run'.text, outVariant := run'.outVariant)
    && (run'.status == Running ==> run.status == Running)
  }

  /** Steps that at most record outcomes of existing runs, or remove runs. */
  lemma RunsShrink(s: State, s': State)
    requires Inv(s) && s'.nextRun == s.nextRun && s'.candidates.Keys == s'.sources.Keys
    requires forall r :: r in s'.runs ==> r in s.runs && Settled(s.runs[r], s'.runs[r])
    requires forall k :: k in s'.calls ==> k in s.calls && s'.calls[k] == s.calls[k]
    requires forall k, c :: k in s'.cleanups && c in s'.cleanups[k].scanned ==> ScanCurrent(s', s'.cleanups[k], c)
    ensures Inv(s')
  {
    forall r | r in s'.runs
      ensures RunRecorded(s', r)
    {
      assert RunRecorded(s, r);
    }
    forall k | k in s'.calls
      ensures CallKnown(s', s'.calls[k])
    {
      assert CallKnown(s, s.calls[k]);
    }
  }

  lemma CandidateStepKeeps(s: State, a: Action, s': State)
    requires Inv(s) && Next(s, a, s') && (a.DoSetActive? || a.DoEdit? || a.DoAdd? || a.DoScan? || a.DoDelete?)
    ensures Inv(s')
  {
    forall k, c | k in s'.cleanups && c in s'.cleanups[k].scanned
      ensures ScanCurrent(s', s'.cleanups[k], c)
    {
      if k in s.cleanups {
        assert ScanCurrent(s, s.cleanups[k], c);
      }
    }
    RunsShrink(s, s');
  }

  lemma ReuseKeeps(s: State, q: Request, r: RunId, s': State)
    requires Inv(s) && Reuse(s, q, r, s')
    ensures Inv(s')
  {
    hide Inv, OneRunning, RunRecorded, CallKnown, ScanCurrent;
    SameTables(s);
    ScansKept(s, s');
    RunsShrink(s, s');
  }

  lemma FinishKeeps(s: State, call: nat, output: string, metadata: Option<string>, s': State)
    requires Inv(s) && Finish(s, call, output, metadata, s')
    ensures Inv(s')
  {
    hide Inv, OneRunning, RunRecorded, CallKnown, ScanCurrent, InputHash, InputsNow, Bounded, StoredVariant, SameKey;
    SameTables(s);
    ScansKept(s, s');
    RunsShrink(s, s');
  }

  lemma SameTables(s: State)
    requires Inv(s)
    ensures s.candidates.Keys == s.sources.Keys
  {
  }

  lemma FailKeeps(s: State, call: nat, s': State)
    requires Inv(s) && (Fail(s, call, s') || (call in s.calls && s' == EndCall(s, call)))
    ensures Inv(s')
  {
    hide Inv, OneRunning, RunRecorded, CallKnown, ScanCurrent;
    SameTables(s);
    ScansKept(s, s');
    RunsShrink(s, s');
  }

  lemma NextInv(s: State, a: Action, s': State)
    requires Inv(s) && Next(s, a, s')
    ensures Inv(s')
  {
    hide Inv, Reuse, Begin, Finish, Fail, SetActive, Edit, AddCandidate, Scan, Delete;
    match a
    case DoBegin(q, call, now) => BeginKeeps(s, q, call, now, s');
    case DoReuse(q, r) => ReuseKeeps(s, q, r, s');
    case DoFinish(call, output, metadata) => FinishKeeps(s, call, output, metadata, s');
    case DoFail(call) => FailKeeps(s, call, s');
    case DoDie(call) => FailKeeps(s, call, s');
    case _ => CandidateStepKeeps(s, a, s');
  }

  lemma {:induction false} RunInv(states: seq<State>, actions: seq<Action>, k: nat)
    requires IsRun(states, actions) && k < |states|
    ensures Inv(states[k])
  {
    hide Inv, Next;
    if k == 0 {
      assert Inv(states[0]) by { InitialInv(states[0]); }
    } else {
      RunInv(states, actions, k - 1);
      NextInv(states[k - 1], actions[k - 1], states[k]);
    }
  }

  lemma ReachableInv(s: State)
    requires Reachable(s)
    ensures Inv(s)
  {
    hide Inv, Next, Initial;
    var states, actions :| IsRun(states, actions) && states[|actions|] == s;
    RunInv(states, actions, |actions|);
  }

  lemma InitialInv(s: State)
    requires Initial(s)
    ensures Inv(s) && PointersValid(s)
  {
  }

  /******* Main results *******/

  /** At most one running run exists for each key in every reachable state. */
  lemma AtMostOneRunning(states: seq<State>, actions: seq<Action>, k: nat, a: RunId, b: RunId)
    requires IsRun(states, actions) && k < |states| && a in states[k].runs && b in states[k].runs
    requires states[k].runs[a].status == Running && states[k].runs[b].status == Running
    requires SameKey(states[k].runs[a], states[k].runs[b].candidate, states[k].runs[b].kind, states[k].runs[b].provider,
                     states[k].runs[b].model, states[k].runs[b].inputHash)
    ensures a == b
  {
    RunInv(states, actions, k);
  }

  lemma TerminalStep(s: State, a: Action, s': State, r: RunId)
    requires Inv(s) && Next(s, a, s') && r < s.nextRun && (r in s.runs ==> s.runs[r].status != Running)
    ensures r < s'.nextRun
    ensures r in s'.runs ==> r in s.runs && s'.runs[r] == s.runs[r]
  {
    hide Inv, InputHash, InputsNow, SameKey, LeaseExpired, OutcomeStatus, Bounded, Doomed;
  }

  /** A run that reached a terminal status keeps its whole row for as long as it exists, and its id is never reused. */
  lemma {:induction false} TerminalRunsNeverChange(states: seq<State>, actions: seq<Action>, k: nat, m: nat, r: RunId)
    requires IsRun(states, actions) && k <= m < |states|
    requires r in states[k].runs && states[k].runs[r].status != Running
    ensures r < states[m].nextRun
    ensures r in states[m].runs ==> states[m].runs[r] == states[k].runs[r]
    decreases m
  {
    hide Inv, Next;
    if m == k {
      RunInv(states, actions, k);
      assert RunRecorded(states[k], r) by { KnownRun(states[k], r); }
    } else {
      TerminalRunsNeverChange(states, actions, k, m - 1, r);
      RunInv(states, actions, m - 1);
      TerminalStep(states[m - 1], actions[m - 1], states[m], r);
    }
  }

  lemma KnownCall(s: State, k: nat)
    requires Inv(s) && k in s.calls
    ensures CallKnown(s, s.calls[k])
  {
  }

  lemma KnownRun(s: State, r: RunId)
    requires Inv(s) && r in s.runs
    ensures RunRecorded(s, r)
  {
  }

  /** Every step except a deletion keeps every current-run pointer valid. */
  lemma PointersKept(s: State, a: Action, s': State)
    requires Inv(s) && PointersValid(s) && Next(s, a, s') && !a.DoDelete?
    ensures PointersValid(s')
  {
    forall c: CandidateId, kind: Kind
      ensures PointerValid(s', c, kind)
    {
      PointerKept(s, a, s', c, kind);
    }
  }

  lemma ReusedRun(s: State, q: Request, r: RunId, s': State)
    requires Reuse(s, q, r, s')
    ensures q.candidate in s.candidates && r in s.runs && s' == SetPointer(s, q.candidate, q.kind, r)
    ensures s.runs[r].status == Completed && s.runs[r].candidate == q.candidate && s.runs[r].kind == q.kind
  {
  }

  lemma FinishKeepsPointer(s: State, call: nat, output: string, metadata: Option<string>, s': State,
                           c: CandidateId, kind: Kind)
    requires Inv(s) && PointerValid(s, c, kind) && Finish(s, call, output, metadata, s')
    ensures PointerValid(s', c, kind)
  {
    hide Inv, OutcomeStatus, InputHash, InputsNow, Bounded, StoredVariant;
    KnownCall(s, call);
  }

  lemma BeginKeepsPointer(s: State, q: Request, call: nat, now: int, s': State, c: CandidateId, kind: Kind)
    requires Inv(s) && PointerValid(s, c, kind) && Begin(s, q, call, now, s')
    ensures PointerValid(s', c, kind)
  {
    hide Inv, InputHash, InputsNow, SameKey, LeaseExpired;
    if c in s.candidates && kind in s.candidates[c].current {
      KnownRun(s, s.candidates[c].current[kind]);
    }
  }

  lemma PointerKept(s: State, a: Action, s': State, c: CandidateId, kind: Kind)
    requires Inv(s) && PointersValid(s) && Next(s, a, s') && !a.DoDelete?
    ensures PointerValid(s', c, kind)
  {
    hide Inv, Finish, Begin, Reuse, Delete;
    assert PointerValid(s, c, kind);
    if a.DoFinish? {
      FinishKeepsPointer(s, a.call, a.output, a.metadata, s', c, kind);
    } else if a.DoBegin? {
      BeginKeepsPointer(s, a.q, a.call, a.now, s', c, kind);
    } else if a.DoReuse? {
      ReusedRun(s, a.q, a.r, s');
    }
  }

  /**
   Exactly when one deletion leaves the candidate's pointer valid: the pointer is still the one the
   scan read, or its run is too recent, or it is among the newest old runs that are kept.
   */
  lemma DeletionKeepsPointerIff(s: State, k: nat, c: CandidateId, kind: Kind, s': State)
    requires Inv(s) && PointersValid(s) && Delete(s, k, c, kind, s')
    requires c in s.candidates && kind in s.candidates[c].current
    ensures s.candidates[c].current[kind] in s.runs
    ensures var x, r := s.cleanups[k], s.candidates[c].current[kind];
      PointerValid(s', c, kind) <==>
        Pointer(x.scanned[c], kind) == Some(r) || s.runs[r].createdAt >= x.cutoff
        || r in Newest(s.runs, OldRuns(s.runs, c, kind, x.cutoff), x.keep)
  {
    assert PointerValid(s, c, kind);
  }

  lemma DeletionKeepsOtherPointers(
    s: State, k: nat, c: CandidateId, kind: Kind, s': State, c': CandidateId, kind': Kind)
    requires Inv(s) && PointersValid(s) && Delete(s, k, c, kind, s') && (c', kind') != (c, kind)
    ensures PointerValid(s', c', kind')
  {
    assert PointerValid(s, c', kind');
  }

  /** The deletion leaves the run alone that the candidate's pointer names now. */
  ghost predicate SparesPointer(s: State, a: Action) {
    a.DoDelete? && a.k in s.cleanups && a.c in s.cleanups[a.k].scanned && Pointed(s, a.c, a.kind) ==>
      var x, r := s.cleanups[a.k], s.candidates[a.c].current[a.kind];
      || Pointer(x.scanned[a.c], a.kind) == Some(r)
      || (r in s.runs && s.runs[r].createdAt >= x.cutoff)
      || r in Newest(s.runs, OldRuns(s.runs, a.c, a.kind, x.cutoff), x.keep)
  }

  predicate Pointed(s: State, c: CandidateId, kind: Kind) {
    c in s.candidates && kind in s.candidates[c].current
  }

  lemma StepKeepsPointersIff(s: State, a: Action, s': State)
    requires Inv(s) && PointersValid(s) && Next(s, a, s')
    ensures PointersValid(s') <==> SparesPointer(s, a)
  {
    hide Inv, Next;
    if a.DoDelete? {
      assert Delete(s, a.k, a.c, a.kind, s') by { ItsDeletion(s, a, s'); }
      forall c: CandidateId, kind: Kind | (c, kind) != (a.c, a.kind)
        ensures PointerValid(s', c, kind)
      {
        DeletionKeepsOtherPointers(s, a.k, a.c, a.kind, s', c, kind);
      }
      if Pointed(s, a.c, a.kind) {
        DeletionKeepsPointerIff(s, a.k, a.c, a.kind, s');
      }
    } else {
      PointersKept(s, a, s');
    }
  }

  lemma ItsDeletion(s: State, a: Action, s': State)
    requires Next(s, a, s') && a.DoDelete?
    ensures Delete(s, a.k, a.c, a.kind, s')
  {
  }

  /** The pointers are valid in every state of a run exactly when every deletion in it spares the pointer. */
  lemma {:induction false} PointersValidIff(states: seq<State>, actions: seq<Action>, k: nat)
    requires IsRun(states, actions) && k < |states|
    ensures (forall m :: 0 <= m <= k ==> PointersValid(states[m]))
       <==> (forall m :: 0 <= m < k ==> SparesPointer(states[m], actions[m]))
  {
    hide Inv, Next, PointersValid, SparesPointer;
    if k == 0 {
      InitialInv(states[0]);
    } else {
      PointersValidIff(states, actions, k - 1);
      if forall m :: 0 <= m <= k - 1 ==> PointersValid(states[m]) {
        RunInv(states, actions, k - 1);
        StepKeepsPointersIff(states[k - 1], actions[k - 1], states[k]);
      }
    }
  }

  /** Every deletion is of a candidate that was not reactivated since its cleanup read it. */
  ghost predicate DeletesInactive(s: State, a: Action) {
    a.DoDelete? && a.k in s.cleanups ==> a.c !in s.cleanups[a.k].reactivated
  }

  /** As long as no candidate is reactivated between scan and deletion, the pointers are always valid. */
  lemma {:induction false} PointersAlwaysValid(states: seq<State>, actions: seq<Action>, k: nat)
    requires IsRun(states, actions) && k < |states|
    requires forall m :: 0 <= m < k ==> DeletesInactive(states[m], actions[m])
    ensures PointersValid(states[k])
  {
    hide Inv, Next, PointersValid;
    if k == 0 {
      InitialInv(states[0]);
    } else {
      PointersAlwaysValid(states, actions, k - 1);
      RunInv(states, actions, k - 1);
      assert DeletesInactive(states[k - 1], actions[k - 1]);
      if actions[k - 1].DoDelete? {
        DeleteOfInactive(states[k - 1], actions[k - 1], states[k]);
      } else {
        PointersKept(states[k - 1], actions[k - 1], states[k]);
      }
    }
  }

  lemma DeleteOfInactive(s: State, a: Action, s': State)
    requires Inv(s) && PointersValid(s) && Next(s, a, s') && a.DoDelete? && DeletesInactive(s, a)
    ensures PointersValid(s')
  {
    forall c: CandidateId, kind: Kind
      ensures PointerValid(s', c, kind)
    {
      assert PointerValid(s, c, kind);
      if (c, kind) != (a.c, a.kind) {
        DeletionKeepsOtherPointers(s, a.k, a.c, a.kind, s', c, kind);
      } else {
        assert ScanCurrent(s, s.cleanups[a.k], c);
      }
    }
  }

  /******* Cache soundness *******/

  /** The run was made from this document, this action and this policy, with this variant. */
  ghost predicate MadeFrom(run: Run, document: Source, action: string, policy: string, variant: Option<string>) {
    && run.inputs.contentHash == document.contentHash && run.inputs.title == document.title
    && run.inputs.url == document.url && run.inputs.action == action && run.inputs.policy == policy
    && run.inputs.variant == variant
  }

  /** The parts of an input that come before the variant. */
  function Base(document: Source, action: string, policy: string): seq<string> {
    [document.contentHash, document.title, document.url, action, policy]
  }

  /** The current-run lookup returns a run only for the very inputs it was made from. */
  lemma CurrentRunMatchesInputs(states: seq<State>, actions: seq<Action>, k: nat, c: CandidateId)
    requires IsRun(states, actions) && k < |states| && c in states[k].candidates && c in states[k].sources
    requires CurrentRun(states[k].candidates, states[k].sources, states[k].runs, c).Some?
    ensures var s := states[k];
      var run := s.runs[CurrentRun(s.candidates, s.sources, s.runs, c).value];
      var document, action := s.sources[c], s.candidates[c].action;
      && run.candidate == c && run.kind == Rewrite && run.status == Completed && Strip(run.text) != ""
      && (NoneContain(NUL, Base(document, action, document.reusePolicy)) && NoneContain(NUL, Parts(run.inputs))
          && (RunVariant(run).Some? ==> NUL !in RunVariant(run).value)
          ==> MadeFrom(run, document, action, document.reusePolicy, RunVariant(run)))
  {
    RunInv(states, actions, k);
    var s, r := states[k], CurrentRun(states[k].candidates, states[k].sources, states[k].runs, c).value;
    var now := InputsNow(s.candidates[c], s.sources[c], Rewrite, RunVariant(s.runs[r]));
    assert RunRecorded(s, r);
    RunVariantNonempty(s.runs[r]);
    var base := Base(s.sources[c], s.candidates[c].action, s.sources[c].reusePolicy);
    if NoneContain(NUL, base) && NoneContain(NUL, Parts(s.runs[r].inputs))
       && (RunVariant(s.runs[r]).Some? ==> NUL !in RunVariant(s.runs[r]).value) {
      BaseAndVariant(now, base);
      InputHashInjective(now, s.runs[r].inputs);
    }
  }

  lemma BaseAndVariant(x: Inputs, base: seq<string>)
    requires base == [x.contentHash, x.title, x.url, x.action, x.policy] && NoneContain(NUL, base)
    requires x.variant.Some? ==> NUL !in x.variant.value
    ensures NoneContain(NUL, Parts(x))
  {
    forall i | 0 <= i < |Parts(x)|
      ensures NUL !in Parts(x)[i]
    {
      assert i < 5 ==> Parts(x)[i] == base[i];
    }
  }

  /** An adopted run was made from exactly the inputs and variant requested, with the policy of its kind. */
  lemma ReuseMatchesInputs(states: seq<State>, actions: seq<Action>, k: nat, q: Request, r: RunId)
    requires IsRun(states, actions) && k < |actions| && actions[k] == DoReuse(q, r)
    requires q.candidate in states[k].candidates && q.candidate in states[k].sources && r in states[k].runs
    ensures var s := states[k];
      var run, document, action := s.runs[r], s.sources[q.candidate], s.candidates[q.candidate].action;
      var policy := if q.kind.Rewrite? then document.reusePolicy else s.candidates[q.candidate].metaPolicy;
      var variant := if q.kind.Rewrite? then NormalVariant(q.variant) else None;
      && run.status == Completed && run.candidate == q.candidate && run.kind == q.kind
      && run.provider == q.provider && run.model == q.model
      && (NoneContain(NUL, Base(document, action, policy)) && NoneContain(NUL, Parts(run.inputs))
          && (variant.Some? ==> NUL !in variant.value)
          ==> MadeFrom(run, document, action, policy, variant))
  {
    RunInv(states, actions, k);
    assert Next(states[k], actions[k], states[k + 1]);
    assert RunRecorded(states[k], r);
    NormalVariantNonempty(q.variant);
    var now := RequestInputs(states[k], q);
    var base := [now.contentHash, now.title, now.url, now.action, now.policy];
    if NoneContain(NUL, base) && NoneContain(NUL, Parts(states[k].runs[r].inputs))
       && (now.variant.Some? ==> NUL !in now.variant.value) {
      BaseAndVariant(now, base);
      InputHashInjective(states[k].runs[r].inputs, now);
    }
  }

  /** After an edit a current run is still current exactly when the edit left all its inputs as they were. */
  lemma EditKeepsCurrentIff(
    s: State, c: CandidateId, action: string, metaPolicy: string, source: Source, s': State, r: RunId)
    requires Edit(s, c, action, metaPolicy, source, s') && c in s.sources
    requires CurrentRun(s.candidates, s.sources, s.runs, c) == Some(r)
    requires NoneContain(NUL, Base(s.sources[c], s.candidates[c].action, s.sources[c].reusePolicy))
    requires NoneContain(NUL, Base(source, action, source.reusePolicy))
    ensures c in s'.candidates && c in s'.sources
    ensures CurrentRun(s'.candidates, s'.sources, s'.runs, c) ==
      if && source.contentHash == s.sources[c].contentHash && source.title == s.sources[c].title
         && source.url == s.sources[c].url && source.reusePolicy == s.sources[c].reusePolicy
         && action == s.candidates[c].action
      then Some(r) else None
  {
    hide RunVariant, Strip;
    var variant := RunVariant(s.runs[r]);
    var before := InputsNow(s.candidates[c], s.sources[c], Rewrite, variant);
    var after := InputsNow(s'.candidates[c], s'.sources[c], Rewrite, variant);
    assert variant != Some("") by { RunVariantNonempty(s.runs[r]); }
    if InputHash(before) == InputHash(after) {
      HashOfVariant(before);
      HashOfVariant(after);
      SameTail(BaseText(before), BaseText(after), variant);
      JoinInjective(NUL, Base(s.sources[c], s.candidates[c].action, s.sources[c].reusePolicy),
                    Base(source, action, source.reusePolicy));
      BasesAgree(s.sources[c], s.candidates[c].action, source, action);
    }
  }

  lemma SameTail(a: string, b: string, variant: Option<string>)
    requires variant.None? ==> a == b
    requires variant.Some? ==> a + [NUL] + variant.value == b + [NUL] + variant.value
    ensures a == b
  {
    if variant.Some? {
      SplitBeforeTail(NUL, a, variant.value, b, variant.value);
    }
  }

  lemma BasesAgree(a: Source, x: string, b: Source, y: string)
    requires Base(a, x, a.reusePolicy) == Base(b, y, b.reusePolicy)
    ensures a == b && x == y
  {
    var p, q := Base(a, x, a.reusePolicy), Base(b, y, b.reusePolicy);
    assert p[0] == q[0] && p[1] == q[1] && p[2] == q[2] && p[3] == q[3] && p[4] == q[4];
  }

  /** What is stored for a call reads back as the call's variant exactly when no foreign key can show. */
  lemma ReadsBackIff(x: Call, metadata: Option<string>, run: Run)
    requires x.variant.Some? ==> NormalVariant(x.variant.value) == x.variant
    requires run.outVariant == StoredVariant(x, metadata)
    ensures RunVariant(run) == x.variant <==> x.variant.Some? || metadata.None? || NormalVariant(metadata.value).None?
  {
  }

  /**
   A rewrite that completes becomes the current run exactly when it was requested with a variant, or
   the provider's metadata has no variant key, or a key that normalises to nothing.
   */
  lemma CompletionIsCurrentIff(s: State, call: nat, output: string, metadata: Option<string>, s': State)
    requires Inv(s) && Finish(s, call, output, metadata, s') && s.calls[call].kind == Rewrite
    requires s.calls[call].candidate in s.candidates && s.calls[call].run in s.runs
    requires s.runs[s.calls[call].run].status == Running && OutcomeStatus(s, s.calls[call]) == Completed
    ensures s.calls[call].candidate in s'.candidates && s.calls[call].candidate in s'.sources
    ensures var x := s.calls[call];
      CurrentRun(s'.candidates, s'.sources, s'.runs, x.candidate) == Some(x.run)
      <==> x.variant.Some? || metadata.None? || NormalVariant(metadata.value).None?
  {
    hide NormalVariant, InputHash, Bounded, Strip, RunVariant, OneRunning;
    var x := s.calls[call];
    KnownCall(s, call);
    var c, d, run := s.candidates[x.candidate], s.sources[x.candidate], s'.runs[x.run];
    BoundedStrips(output, OUTPUT_CHARS);
    ReadsBackIff(x, metadata, run);
    RunVariantNonempty(run);
    var read := InputsNow(c, d, Rewrite, RunVariant(run));
    if InputHash(read) == InputHash(read.(variant := x.variant)) {
      HashSeparatesVariants(read, x.variant);
    }
    assert read.(variant := x.variant) == InputsNow(c, d, Rewrite, x.variant);
  }

  lemma RunVariantNonempty(run: Run)
    ensures RunVariant(run) != Some("")
  {
  }

  lemma BoundedStrips(value: string, limit: int)
    requires limit >= 1
    ensures Strip(Bounded(value, limit)) == Bounded(value, limit)
  {
    BoundedIdempotent(value, limit);
    StripStripped(Strip(value));
    if |Strip(value)| > limit {
      assert Stripped(Bounded(value, limit));
      StripStripped(Bounded(value, limit));
    }
  }

  /** A current run stays current until the candidate's inputs or its pointer change or the run is deleted. */
  lemma CurrentUntilChanged(s: State, a: Action, s': State, c: CandidateId)
    requires Inv(s) && Next(s, a, s') && c in s.candidates && c in s'.candidates && c in s.sources && c in s'.sources
    requires CurrentRun(s.candidates, s.sources, s.runs, c).Some?
    requires s'.sources[c] == s.sources[c] && s'.candidates[c].action == s.candidates[c].action
    requires Pointer(s'.candidates[c], Rewrite) == Pointer(s.candidates[c], Rewrite)
    requires CurrentRun(s.candidates, s.sources, s.runs, c).value in s'.runs
    ensures CurrentRun(s'.candidates, s'.sources, s'.runs, c) == CurrentRun(s.candidates, s.sources, s.runs, c)
  {
    var r := CurrentRun(s.candidates, s.sources, s.runs, c).value;
    assert RunRecorded(s, r);
    TerminalStep(s, a, s', r);
  }
}
