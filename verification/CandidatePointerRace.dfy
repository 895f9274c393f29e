/**
 The one way a current-run pointer can be left dangling: a cleanup reads an inactive candidate, the
 candidate is reactivated and adopts an older completed run, and then the cleanup deletes that run.
 */
module CandidatePointerRace {
  import opened Wrappers
  import opened Text
  import opened CandidateRuns
  import opened CandidateRunSafety

  const SOURCE_A: Source := Source("a", "t", "u", POLICY_REWRITE)
  const SOURCE_B: Source := Source("b", "t", "u", POLICY_REWRITE)
  const REQUEST: Request := Request(0, Rewrite, "p", "m", "", None)

  function InputsOf(source: Source): Inputs {
    Inputs(source.contentHash, "t", "u", "x", POLICY_REWRITE, None)
  }

  function RunOf(source: Source, status: RunStatus, at: int): Run {
    Run(0, Rewrite, "p", "m", InputHash(InputsOf(source)), status, at, at, if status == Running then "" else "o", None,
        InputsOf(source))
  }

  function World(active: bool, source: Source, current: map<Kind, RunId>, runs: Runs, next: RunId): State {
    State(map[0 := Candidate(active, "x", "y", current)], map[0 := source], runs, next, map[], map[])
  }

  lemma HashesDiffer()
    ensures InputHash(InputsOf(SOURCE_A)) != InputHash(InputsOf(SOURCE_B))
  {
    var a, b := InputsOf(SOURCE_A), InputsOf(SOURCE_B);
    assert NoneContain(NUL, Parts(a)) && NoneContain(NUL, Parts(b));
    if InputHash(a) == InputHash(b) {
      InputHashInjective(a, b);
    }
  }

  function CallOf(source: Source, r: RunId): Call {
    Call(r, 0, Rewrite, InputHash(InputsOf(source)), None, None)
  }

  function Calling(source: Source, current: map<Kind, RunId>, runs: Runs, r: RunId, at: int): State {
    World(true, source, current, runs[r := RunOf(source, Running, at)], r + 1).(calls := map[0 := CallOf(source, r)])
  }

  ghost predicate Unused(source: Source, runs: Runs, next: RunId) {
    next !in runs && forall r :: r in runs ==> runs[r].inputHash != InputHash(InputsOf(source))
  }

  lemma FreshBegin(source: Source, current: map<Kind, RunId>, runs: Runs, next: RunId, at: int)
    requires (source == SOURCE_A || source == SOURCE_B) && Unused(source, runs, next)
    ensures Begin(World(true, source, current, runs, next), REQUEST, 0, at, Calling(source, current, runs, next, at))
  {
    hide InputHash;
    var s := World(true, source, current, runs, next);
    assert Strip("") == "";
    assert RequestInputs(s, REQUEST) == InputsOf(source);
    assert RunsWith(s, REQUEST, Completed) == {} && RunsWith(s, REQUEST, Running) == {};
    assert (map r | r in s.runs :: s.runs[r]) == s.runs;
    assert map[0 := CallOf(source, next)] == s.calls[0 := CallOf(source, next)];
  }

  lemma FreshFinish(source: Source, current: map<Kind, RunId>, runs: Runs, r: RunId, at: int)
    requires source == SOURCE_A || source == SOURCE_B
    ensures Finish(Calling(source, current, runs, r, at), 0, "o", None,
                   World(true, source, current[Rewrite := r], runs[r := RunOf(source, Completed, at)], r + 1))
  {
    hide InputHash;
    StripStripped("o");
    assert Bounded("o", OUTPUT_CHARS) == "o";
    var s := Calling(source, current, runs, r, at);
    assert OutcomeStatus(s, CallOf(source, r)) == Completed;
    assert s.calls - {0} == map[];
    assert s.runs[r := RunOf(source, Completed, at)] == runs[r := RunOf(source, Completed, at)];
  }

  /** A rewrite whose key has no run yet: it begins, is answered, and becomes current. */
  lemma FreshRewrite(source: Source, current: map<Kind, RunId>, runs: Runs, next: RunId, at: int)
    requires (source == SOURCE_A || source == SOURCE_B) && Unused(source, runs, next)
    requires Reachable(World(true, source, current, runs, next))
    ensures Reachable(
      World(true, source, current[Rewrite := next], runs[next := RunOf(source, Completed, at)], next + 1))
  {
    hide World, Calling, RunOf, Begin, Finish, Reachable, Unused;
    var begun := Calling(source, current, runs, next, at);
    FreshBegin(source, current, runs, next, at);
    Extend(World(true, source, current, runs, next), DoBegin(REQUEST, 0, at), begun);
    FreshFinish(source, current, runs, next, at);
    Extend(begun, DoFinish(0, "o", None),
           World(true, source, current[Rewrite := next], runs[next := RunOf(source, Completed, at)], next + 1));
  }

  lemma StartReachable()
    ensures Reachable(World(true, SOURCE_A, map[], map[], 0))
  {
    var s := State(map[], map[], map[], 0, map[], map[]);
    var none: seq<Action> := [];
    assert IsRun([s], none);
    assert [s][|none|] == s;
    var added := World(true, SOURCE_A, map[], map[], 0);
    assert AddCandidate(s, 0, Candidate(true, "x", "y", map[]), SOURCE_A, added);
    Extend(s, DoAdd(0, Candidate(true, "x", "y", map[]), SOURCE_A), added);
  }

  const RUNS: Runs := map[0 := RunOf(SOURCE_A, Completed, 0), 1 := RunOf(SOURCE_B, Completed, 1)]

  /** Two rewrites, of the source before and after an edit; the second is current. */
  lemma TwoRewrites()
    ensures Reachable(World(true, SOURCE_B, map[Rewrite := 1], RUNS, 2))
  {
    hide Reachable, InputHash;
    StartReachable();
    FreshRewrite(SOURCE_A, map[], map[], 0, 0);
    var first := map[0 := RunOf(SOURCE_A, Completed, 0)];
    assert map[][0 := RunOf(SOURCE_A, Completed, 0)] == first && map[][Rewrite := 0 as RunId] == map[Rewrite := 0];
    var edited := World(true, SOURCE_B, map[Rewrite := 0], first, 1);
    assert Edit(World(true, SOURCE_A, map[Rewrite := 0], first, 1), 0, "x", "y", SOURCE_B, edited);
    Extend(World(true, SOURCE_A, map[Rewrite := 0], first, 1), DoEdit(0, "x", "y", SOURCE_B), edited);
    HashesDiffer();
    FreshRewrite(SOURCE_B, map[Rewrite := 0], first, 1, 1);
    assert first[1 := RunOf(SOURCE_B, Completed, 1)] == RUNS;
    assert map[Rewrite := 0 as RunId][Rewrite := 1] == map[Rewrite := 1];
  }

  /** The world while the cleanup is pending. */
  function Pending(active: bool, source: Source, current: RunId, reactivated: set<CandidateId>): State {
    World(active, source, map[Rewrite := current], RUNS, 2)
    .(cleanups := map[0 := Cleanup(map[0 := Candidate(false, "x", "y", map[Rewrite := 1])], 2, 1, reactivated)])
  }

  lemma ScanAndReactivate()
    ensures Reachable(Pending(true, SOURCE_B, 1, {0}))
  {
    hide Reachable, RunOf;
    TwoRewrites();
    var s, off := World(true, SOURCE_B, map[Rewrite := 1], RUNS, 2), World(false, SOURCE_B, map[Rewrite := 1], RUNS, 2);
    assert SetActive(s, 0, false, off);
    Extend(s, DoSetActive(0, false), off);
    var pending := Pending(false, SOURCE_B, 1, {});
    var chosen: set<CandidateId> := {0};
    var scanned := map c | c in chosen :: off.candidates[c];
    assert scanned == map[0 := Candidate(false, "x", "y", map[Rewrite := 1])];
    assert pending == off.(cleanups := off.cleanups[0 := Cleanup(scanned, 2, 1, {})]);
    assert Scan(off, 0, chosen, 2, 1, pending);
    Extend(off, DoScan(0, {0}, 2, 1), pending);
    var noted := map k | k in pending.cleanups ::
      pending.cleanups[k].(reactivated := pending.cleanups[k].reactivated + {0});
    assert noted == Pending(true, SOURCE_B, 1, {0}).cleanups by {
      assert noted[0].reactivated == {0};
    }
    var active := pending.candidates[0 := pending.candidates[0].(active := true)];
    assert active == Pending(true, SOURCE_B, 1, {0}).candidates;
    assert SetActive(pending, 0, true, Pending(true, SOURCE_B, 1, {0}));
    Extend(pending, DoSetActive(0, true), Pending(true, SOURCE_B, 1, {0}));
  }

  lemma AdoptOlderRun()
    ensures Reachable(Pending(true, SOURCE_A, 0, {0}))
  {
    hide Reachable, InputHash;
    ScanAndReactivate();
    var back := Pending(true, SOURCE_A, 1, {0});
    assert Edit(Pending(true, SOURCE_B, 1, {0}), 0, "x", "y", SOURCE_A, back);
    Extend(Pending(true, SOURCE_B, 1, {0}), DoEdit(0, "x", "y", SOURCE_A), back);
    HashesDiffer();
    assert Strip("") == "";
    assert RequestInputs(back, REQUEST) == InputsOf(SOURCE_A);
    assert RunsWith(back, REQUEST, Completed) == {0};
    assert map[Rewrite := 1 as RunId][Rewrite := 0] == map[Rewrite := 0];
    assert Reuse(back, REQUEST, 0, Pending(true, SOURCE_A, 0, {0}));
    Extend(back, DoReuse(REQUEST, 0), Pending(true, SOURCE_A, 0, {0}));
  }

  lemma OlderRunIsDoomed()
    ensures 0 in Doomed(RUNS, 0, Rewrite, Some(1), 2, 1)
  {
    hide InputHash;
    var aged := OldRuns(RUNS, 0, Rewrite, 2);
    assert aged == {0, 1};
    assert NewerThan(RUNS, aged, 0) == {1};
  }

  /** Some reachable state has a current-run pointer that names no run. */
  lemma PointerCanDangle()
    ensures exists s, c, kind :: Reachable(s) && !PointerValid(s, c, kind)
  {
    hide Reachable, InputHash, Doomed;
    AdoptOlderRun();
    OlderRunIsDoomed();
    var s := Pending(true, SOURCE_A, 0, {0});
    var s' := s.(runs := Without(s.runs, Doomed(s.runs, 0, Rewrite, Some(1), 2, 1)));
    assert Delete(s, 0, 0, Rewrite, s');
    Extend(s, DoDelete(0, 0, Rewrite), s');
    assert 0 !in s'.runs;
    assert !PointerValid(s', 0, Rewrite);
  }
}
