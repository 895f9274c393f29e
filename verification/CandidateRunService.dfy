/**
 `CandidateRewriteService.rewrite` and `CandidateEnrichmentService.enrich` written out as the code
 runs them: a locked section, the provider call without a lock, and a second locked section.
 */
module CandidateRunService {
  import opened Wrappers
  import opened Text
  import opened CandidateRuns
  import opened CandidateRunSafety

  datatype First = Refused | Adopted(run: RunId) | Busy | Asked

  /** What the provider call comes to; a refused output counts as a failure. */
  datatype Answer = Output(text: string, metadata: Option<string>) | ProviderFailed

  datatype Result = NotAllowed | InProgress | Reused(run: RunId) | Recorded(run: RunId, status: RunStatus)

  predicate Usable(answer: Answer) {
    answer.Output? && Bounded(answer.text, OUTPUT_CHARS) != ""
  }

  function Abandon(runs: Runs, expired: set<RunId>): Runs {
    map r | r in runs :: if r in expired then runs[r].(status := Abandoned) else runs[r]
  }

  /******* What is expected, in fields *******/

  /** The candidate is new, and a rewrite is permitted by its source and sees the pointer it expects. */
  predicate Allowed(s: State, q: Request) {
    && q.candidate in s.candidates && q.candidate in s.sources && s.candidates[q.candidate].active
    && (q.kind.Rewrite? ==>
          && s.sources[q.candidate].reusePolicy == "rewrite_with_attribution"
          && (q.expected.Some? ==>
                Rewrite in s.candidates[q.candidate].current
                && s.candidates[q.candidate].current[Rewrite] == q.expected.value))
  }

  function WantedVariant(q: Request): Option<string> {
    if q.kind.Rewrite? then NormalVariant(q.variant) else None
  }

  function WantedPolicy(s: State, q: Request): string
    requires q.candidate in s.candidates && q.candidate in s.sources
  {
    if q.kind.Rewrite? then s.sources[q.candidate].reusePolicy else s.candidates[q.candidate].metaPolicy
  }

  /** The hashed text of what the request is about. */
  function WantedText(s: State, q: Request): string
    requires q.candidate in s.candidates && q.candidate in s.sources
  {
    var document := s.sources[q.candidate];
    var variant := WantedVariant(q);
    var action := s.candidates[q.candidate].action;
    Join('\0', [document.contentHash, document.title, document.url, action, WantedPolicy(s, q)]
                + if variant.Some? then [variant.value] else [])
  }

  /** The runs with this status that were made for the same candidate, kind, provider, model and inputs. */
  function Matching(s: State, q: Request, status: RunStatus): set<RunId>
    requires q.candidate in s.candidates && q.candidate in s.sources
  {
    set r | r in s.runs && s.runs[r].status == status && s.runs[r].candidate == q.candidate
            && s.runs[r].kind == q.kind && s.runs[r].provider == q.provider && s.runs[r].model == q.model
            && s.runs[r].inputHash == WantedText(s, q)
  }

  /** A matching run that started less than fifteen minutes ago. */
  predicate SomeAlive(s: State, q: Request, now: int)
    requires q.candidate in s.candidates && q.candidate in s.sources
  {
    exists x :: x in Matching(s, q, Running) && now < s.runs[x].startedAt + 900_000_000
  }

  /** One more run, which is running, and every matching run before it abandoned. */
  ghost predicate Started(s: State, q: Request, call: nat, now: int, s': State)
    requires q.candidate in s.candidates && q.candidate in s.sources
  {
    && s' == s.(runs := s'.runs, nextRun := s.nextRun + 1, calls := s'.calls)
    && s'.runs.Keys == s.runs.Keys + {s.nextRun}
    && (forall r :: r in s.runs && r != s.nextRun ==>
          s'.runs[r] == if r in Matching(s, q, Running) then s.runs[r].(status := Abandoned) else s.runs[r])
    && var run, document := s'.runs[s.nextRun], s.sources[q.candidate];
       && run.candidate == q.candidate && run.kind == q.kind && run.provider == q.provider && run.model == q.model
       && run.inputHash == WantedText(s, q) && run.status == Running && run.startedAt == run.createdAt == now
       && MadeFrom(run, document, s.candidates[q.candidate].action, WantedPolicy(s, q), WantedVariant(q))
       && s'.calls == s.calls[call := Call(s.nextRun, q.candidate, q.kind, run.inputHash, WantedVariant(q), q.expected)]
  }

  /** The status an answer gets: the candidate was given up, its inputs or its current run changed, or it fits. */
  function Verdict(s: State, x: Call): RunStatus
    requires x.candidate in s.candidates && x.candidate in s.sources
  {
    var candidate, document := s.candidates[x.candidate], s.sources[x.candidate];
    var policy := if x.kind.Rewrite? then document.reusePolicy else candidate.metaPolicy;
    var variant := if x.kind.Rewrite? && x.variant.Some? && x.variant.value != "" then [x.variant.value] else [];
    var text := Join('\0', [document.contentHash, document.title, document.url, candidate.action, policy] + variant);
    if !candidate.active then Discarded
    else if text != x.hash then Outdated
    else if x.kind.Rewrite? && x.expected.Some? && Pointer(candidate, Rewrite) != x.expected then Outdated
    else Completed
  }

  lemma AsExpected(s: State, q: Request)
    ensures Allowed(s, q) <==> Admitted(s, q)
    ensures q.candidate in s.candidates && q.candidate in s.sources ==>
      && WantedText(s, q) == InputHash(RequestInputs(s, q)) && WantedVariant(q) == Variant(q)
      && forall status :: Matching(s, q, status) == RunsWith(s, q, status)
  {
    hide Join, NormalVariant;
    NormalVariantNonempty(q.variant);
    if q.candidate in s.candidates && q.candidate in s.sources {
      var document := s.sources[q.candidate];
      var base := [document.contentHash, document.title, document.url, s.candidates[q.candidate].action,
                   WantedPolicy(s, q)];
      assert Parts(RequestInputs(s, q)) == base + if WantedVariant(q).Some? then [WantedVariant(q).value] else [];
    }
  }

  lemma VerdictAsExpected(s: State, x: Call)
    requires x.candidate in s.candidates && x.candidate in s.sources
    ensures Verdict(s, x) == OutcomeStatus(s, x)
  {
    hide Join;
  }

  lemma StartedAsExpected(s: State, q: Request, call: nat, now: int, s': State)
    requires Begin(s, q, call, now, s')
    ensures q.candidate in s.candidates && q.candidate in s.sources && Started(s, q, call, now, s')
  {
    hide InputHash, WantedText, NormalVariant, RunsWith, Matching;
    AsExpected(s, q);
  }

  class CandidateAIService {
    var s: State

    constructor (s: State)
      ensures this.s == s
    {
      this.s := s;
    }

    /** Up to the commit before the provider call. */
    method FirstSection(q: Request, call: nat, now: int) returns (r: First)
      requires call !in s.calls
      modifies this`s
      ensures r.Refused? <==> !Allowed(old(s), q)
      ensures r.Refused? || r.Busy? ==> s == old(s)
      ensures r.Adopted? <==> Allowed(old(s), q) && Matching(old(s), q, Completed) != {}
      ensures r.Adopted? ==>
        var candidate := old(s).candidates[q.candidate];
        && r.run in Matching(old(s), q, Completed) && (forall x :: x in Matching(old(s), q, Completed) ==> x <= r.run)
        && s == old(s).(candidates := old(s).candidates[
                          q.candidate := candidate.(current := candidate.current[q.kind := r.run])])
      ensures r.Busy? <==>
        Allowed(old(s), q) && Matching(old(s), q, Completed) == {} && SomeAlive(old(s), q, now)
      ensures r.Asked? ==> Started(old(s), q, call, now, s)
      ensures r.Adopted? ==> Reuse(old(s), q, r.run, s)
      ensures r.Asked? ==> Begin(old(s), q, call, now, s)
    {
      hide InputHash, InputsNow, Admitted, Allowed, Bounded, Started, WantedText, Matching;
      AsExpected(s, q);
      if !Admitted(s, q) {
        return Refused;
      }
      AdmittedExists(s, q);
      var completed := RunsWith(s, q, Completed);
      if completed != {} {
        var newest := Newest(completed);
        s := SetPointer(s, q.candidate, q.kind, newest);
        return Adopted(newest);
      }
      var running := RunsWith(s, q, Running);
      if exists x :: x in running && !LeaseExpired(s.runs[x].startedAt, now) {
        return Busy;
      }
      var runs := s.runs;
      var todo := running;
      assert runs == Abandon(s.runs, running - todo);
      while todo != {}
        invariant todo <= running && runs == Abandon(s.runs, running - todo)
        decreases todo
      {
        var x :| x in todo;
        runs := runs[x := runs[x].(status := Abandoned)];
        todo := todo - {x};
      }
      assert running - todo == running;
      var inputs := RequestInputs(s, q);
      var run :=
        Run(q.candidate, q.kind, q.provider, q.model, InputHash(inputs), Running, now, now, "", Variant(q), inputs);
      s := s.(runs := runs[s.nextRun := run], nextRun := s.nextRun + 1,
              calls := s.calls[
                call := Call(s.nextRun, q.candidate, q.kind, InputHash(inputs), Variant(q), q.expected)]);
      r := Asked;
      StartedAsExpected(old(s), q, call, now, s);
    }

    /** `ORDER BY id DESC LIMIT 1`. */
    static method Newest(ids: set<RunId>) returns (top: RunId)
      requires ids != {}
      ensures top in ids && forall x :: x in ids ==> x <= top
    {
      top :| top in ids;
      var todo := ids - {top};
      while todo != {}
        invariant top in ids && todo <= ids && forall x :: x in ids && x !in todo ==> x <= top
        decreases todo
      {
        var x :| x in todo;
        if x > top {
          top := x;
        }
        todo := todo - {x};
      }
    }

    /** After the provider call: record the outcome on the run if it is still running. */
    method SecondSection(call: nat, answer: Answer) returns (r: Option<RunStatus>)
      requires call in s.calls
      modifies this`s
      ensures Usable(answer) ==> Finish(old(s), call, answer.text, answer.metadata, s)
      ensures !Usable(answer) ==> Fail(old(s), call, s)
      ensures r.Some? ==> old(s).calls[call].run in s.runs && s.runs[old(s).calls[call].run].status == r.value
      ensures var x := old(s).calls[call];
        var live := x.run in old(s).runs && old(s).runs[x.run].status == Running;
        var found := x.candidate in old(s).candidates && x.candidate in old(s).sources;
        && s.calls == old(s).calls - {call}
        && (r.Some? <==> live && (Usable(answer) ==> found))
        && (r.None? ==> s == old(s).(calls := s.calls))
        && (r.Some? && !Usable(answer) ==>
              r.value == Failed
              && s == old(s).(calls := s.calls, runs := old(s).runs[x.run := old(s).runs[x.run].(status := Failed)]))
        && (r.Some? && Usable(answer) ==>
              && r.value == Verdict(old(s), x)
              && s.runs == old(s).runs[x.run := old(s).runs[x.run].(
                             status := r.value, text := Bounded(answer.text, 3200),
                             outVariant := if x.variant.Some? then x.variant else answer.metadata)]
              && var candidate := old(s).candidates[x.candidate];
                 s == old(s).(calls := s.calls, runs := s.runs,
                              candidates := if r.value != Completed then old(s).candidates
                                            else old(s).candidates[
                                              x.candidate :=
                                                candidate.(current := candidate.current[x.kind := x.run])]))
    {
      hide InputHash, InputsNow, Bounded, Verdict;
      var x := s.calls[call];
      if !Usable(answer) {
        if x.run in s.runs && s.runs[x.run].status == Running {
          s := s.(runs := s.runs[x.run := s.runs[x.run].(status := Failed)]);
          r := Some(Failed);
        } else {
          r := None;
        }
        s := EndCall(s, call);
        return;
      }
      if x.candidate !in s.candidates || x.candidate !in s.sources
         || x.run !in s.runs || s.runs[x.run].status != Running {
        s := EndCall(s, call);
        return None;
      }
      var status := OutcomeStatus(s, x);
      VerdictAsExpected(s, x);
      var run := s.runs[x.run].(status := status, text := Bounded(answer.text, OUTPUT_CHARS),
                                outVariant := StoredVariant(x, answer.metadata));
      s := EndCall(s.(runs := s.runs[x.run := run]), call);
      if status == Completed {
        s := SetPointer(s, x.candidate, x.kind, x.run);
      }
      r := Some(status);
    }

    /**
     The whole call when nothing else happens in between. A fresh request that gets a usable answer
     always ends completed and current for its key; otherwise the run it started has failed.
     */
    method Rewrite(q: Request, now: int, answer: Answer) returns (r: Result)
      requires Inv(s) && s.calls == map[]
      modifies this`s
      ensures Inv(s) && s.calls == map[]
      ensures r.NotAllowed? <==> !Allowed(old(s), q)
      ensures r.NotAllowed? || r.InProgress? ==> s == old(s)
      ensures r.Reused? ==> Reuse(old(s), q, r.run, s)
      ensures r.Recorded? ==> r.run == old(s).nextRun && r.status == if Usable(answer) then Completed else Failed
      ensures r.Recorded? && r.status == Completed ==>
        q.candidate in s.candidates && Pointer(s.candidates[q.candidate], q.kind) == Some(r.run)
        && Reuse(s, q.(expected := None), r.run, s)
    {
      hide Inv, Admitted, Allowed, InputHash, InputsNow, Bounded, Begin, Finish, Fail, Reuse, Usable;
      ghost var before := s;
      var started := s.nextRun;
      var first := FirstSection(q, 0, now);
      match first
      case Refused => return NotAllowed;
      case Busy => return InProgress;
      case Adopted(run) =>
        NextInv(before, DoReuse(q, run), s);
        ReuseKeepsCalls(before, q, run, s);
        return Reused(run);
      case Asked =>
        ghost var asked := s;
        NextInv(before, DoBegin(q, 0, now), asked);
        BegunIsLive(before, q, now, asked);
        var status := SecondSection(0, answer);
        Outcome(before, q, now, asked, answer, s);
        return Recorded(started, if Usable(answer) then Completed else Failed);
    }
  }

  lemma AdmittedExists(s: State, q: Request)
    requires Admitted(s, q)
    ensures q.candidate in s.candidates && q.candidate in s.sources
  {
  }

  lemma ReuseKeepsCalls(s: State, q: Request, r: RunId, s': State)
    requires Reuse(s, q, r, s')
    ensures s'.calls == s.calls
  {
  }

  /** The call that `Begin` starts. */
  lemma BegunIsLive(s: State, q: Request, now: int, s': State)
    requires Begin(s, q, 0, now, s')
    ensures 0 in s'.calls && s'.calls[0].run == s.nextRun && s'.calls.Keys == s.calls.Keys + {0}
  {
  }

  lemma Outcome(s: State, q: Request, now: int, asked: State, answer: Answer, s': State)
    requires Inv(s) && Inv(asked) && s.calls == map[] && Begin(s, q, 0, now, asked)
    requires if Usable(answer) then Finish(asked, 0, answer.text, answer.metadata, s') else Fail(asked, 0, s')
    ensures Inv(s') && s'.calls == map[]
    ensures Usable(answer) ==>
      q.candidate in s'.candidates && Pointer(s'.candidates[q.candidate], q.kind) == Some(s.nextRun)
    ensures Usable(answer) ==> Reuse(s', q.(expected := None), s.nextRun, s')
  {
    hide Inv, Bounded, Reuse;
    BegunIsLive(s, q, now, asked);
    if Usable(answer) {
      NextInv(asked, DoFinish(0, answer.text, answer.metadata), s');
      FinishedIsAdopted(s, q, now, asked, answer, s');
    } else {
      NextInv(asked, DoFail(0), s');
    }
    EndsCall(asked, answer, s');
  }

  lemma EndsCall(asked: State, answer: Answer, s': State)
    requires 0 in asked.calls && asked.calls.Keys == {0}
    requires if Usable(answer) then Finish(asked, 0, answer.text, answer.metadata, s') else Fail(asked, 0, s')
    ensures s'.calls == map[]
  {
    hide Bounded, InputHash, InputsNow, OutcomeStatus;
  }

  /** An answer to an undisturbed call completes its run, which the same request then adopts again. */
  lemma FinishedIsAdopted(s: State, q: Request, now: int, asked: State, answer: Answer, s': State)
    requires Inv(s) && Begin(s, q, 0, now, asked) && Usable(answer)
    requires Finish(asked, 0, answer.text, answer.metadata, s')
    ensures q.candidate in s'.candidates && Pointer(s'.candidates[q.candidate], q.kind) == Some(s.nextRun)
    ensures Reuse(s', q.(expected := None), s.nextRun, s')
  {
    hide Inv, Bounded, InputHash, LeaseExpired, OneRunning;
    var x := asked.calls[0];
    var again := q.(expected := None);
    assert OutcomeStatus(asked, x) == Completed;
    assert s'.runs == asked.runs[s.nextRun := s'.runs[s.nextRun]];
    assert RequestInputs(s', again) == RequestInputs(s, q);
    forall r | r in s'.runs
      ensures r <= s.nextRun
    {
      if r != s.nextRun {
        KnownRun(s, r);
      }
    }
    assert s.nextRun in RunsWith(s', again, Completed);
    var candidate := s'.candidates[q.candidate];
    assert candidate.current[q.kind := s.nextRun] == candidate.current;
    assert s'.candidates[q.candidate := candidate] == s'.candidates;
    assert SetPointer(s', q.candidate, q.kind, s.nextRun) == s';
  }
}
