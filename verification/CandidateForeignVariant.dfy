/**
 The one way a completed rewrite fails to be current: nobody asked for a variant, and the provider's
 metadata carries the variant key.
 */
module CandidateForeignVariant {
  import opened CandidatePointerRace
  import opened CandidateRunSafety
  import opened CandidateRuns
  import opened Text
  import opened Wrappers

  /** The step completes the rewrite, and yet its run is not the candidate's current run. */
  ghost predicate LosesRun(s: State, call: nat, output: string, metadata: Option<string>, s': State) {
    && Finish(s, call, output, metadata, s')
    && var x := s.calls[call];
       && x.kind == Rewrite && x.run in s'.runs && s'.runs[x.run].status == Completed
       && x.candidate in s'.candidates && x.candidate in s'.sources
       && CurrentRun(s'.candidates, s'.sources, s'.runs, x.candidate) != Some(x.run)
  }

  /** From a reachable state, the answer of a rewrite without variant whose metadata has the key. */
  lemma ForeignVariantKeyLosesTheRun()
    ensures exists s, s' :: Reachable(s) && LosesRun(s, 0, "o", Some("v"), s')
  {
    hide Reachable, InputHash, CurrentRun;
    var s := Calling(SOURCE_A, map[], map[], 0, 0);
    StartReachable();
    FreshBegin(SOURCE_A, map[], map[], 0, 0);
    Extend(World(true, SOURCE_A, map[], map[], 0), DoBegin(REQUEST, 0, 0), s);
    ReachableInv(s);
    hide Inv;
    StripStripped("o");
    StripStripped("v");
    assert Bounded("o", OUTPUT_CHARS) == "o" && Bounded("v", VARIANT_CHARS) == "v";
    assert OutcomeStatus(s, CallOf(SOURCE_A, 0)) == Completed;
    var run := s.runs[0].(status := Completed, text := "o", outVariant := Some("v"));
    var s' := SetPointer(EndCall(s.(runs := s.runs[0 := run]), 0), 0, Rewrite, 0);
    assert Finish(s, 0, "o", Some("v"), s');
    CompletionIsCurrentIff(s, 0, "o", Some("v"), s');
    assert LosesRun(s, 0, "o", Some("v"), s');
  }
}
