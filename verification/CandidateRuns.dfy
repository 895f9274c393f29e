/**
 Candidates, their source inputs and the AI runs (rewrite and enrichment) made for them: the tables
 and the pure parts of `candidate_rewrite`, `candidate_enrichment`, `ai_run_leases` and
 `ai_run_retention`.
 */
module CandidateRuns {
  import opened Wrappers
  import opened Text

  type CandidateId = nat
  type RunId = nat

  datatype Kind = Rewrite | Enrichment

  /** `Outdated` is the status the tables call "stale". */
  datatype RunStatus = Running | Completed | Failed | Outdated | Discarded | Abandoned

  /** What a generated result depends on. `variant` is the operator's rewrite input variant. */
  datatype Inputs = Inputs(
    contentHash: string, title: string, url: string, action: string, policy: string, variant: Option<string>)

  /**
   The hash column is compared and never inverted, so the model stores the hashed text itself.
   `inputs` is history: what the run was started from. `outVariant` is the variant key of `output`.
   */
  datatype Run = Run(
    candidate: CandidateId, kind: Kind, provider: string, model: string, inputHash: string,
    status: RunStatus, startedAt: int, createdAt: int, text: string, outVariant: Option<string>, inputs: Inputs)

  datatype Candidate = Candidate(active: bool, action: string, metaPolicy: string, current: map<Kind, RunId>)

  /** The joined source document and connector of a candidate. */
  datatype Source = Source(contentHash: string, title: string, url: string, reusePolicy: string)

  type Runs = map<RunId, Run>

  /******* Leases *******/

  /** Microseconds: `AI_RUN_LEASE_SECONDS`. */
  const LEASE: int := 900_000_000

  predicate LeaseExpired(startedAt: int, now: int) {
    now - startedAt >= LEASE
  }

  predicate Terminal(status: RunStatus) {
    status != Running
  }

  /******* Input hash *******/

  const NUL: char := '\0'

  /** `candidate_rewrite_input_hash` and `candidate_enrichment_input_hash`: an absent or empty variant adds no part. */
  function Parts(x: Inputs): (parts: seq<string>)
    ensures |parts| >= 5
  {
    [x.contentHash, x.title, x.url, x.action, x.policy]
    + if x.variant.Some? && x.variant.value != "" then [x.variant.value] else []
  }

  function InputHash(x: Inputs): string {
    Join(NUL, Parts(x))
  }

  /** Inputs in the form the services store them: no NUL, and a variant that is absent or nonempty. */
  ghost predicate Storable(x: Inputs) {
    NoneContain(NUL, Parts(x)) && x.variant != Some("")
  }

  lemma InputHashInjective(x: Inputs, y: Inputs)
    requires Storable(x) && Storable(y) && InputHash(x) == InputHash(y)
    ensures x == y
  {
    JoinInjective(NUL, Parts(x), Parts(y));
    var p, q := Parts(x), Parts(y);
    if x.variant.Some? {
      assert p[5] == x.variant.value;
      assert |q| == 6 && q[5] == y.variant.value;
    }
    assert p[0] == q[0] && p[1] == q[1] && p[2] == q[2] && p[3] == q[3] && p[4] == q[4];
  }

  const VARIANT_CHARS: int := 191

  /** The variant as `rewrite` normalises its argument: bounded, and absent when empty. */
  function NormalVariant(raw: string): Option<string> {
    var v := Bounded(raw, VARIANT_CHARS);
    if v == "" then None else Some(v)
  }

  /** `rewrite_run_input_variant`: the stored key, normalised again. */
  function RunVariant(run: Run): Option<string> {
    if run.outVariant.None? then None else NormalVariant(run.outVariant.value)
  }

  /** Reading back a stored variant gives the variant that was stored. */
  lemma VariantRoundTrip(raw: string)
    ensures NormalVariant(raw).Some? ==> NormalVariant(NormalVariant(raw).value) == NormalVariant(raw)
  {
    BoundedIdempotent(raw, VARIANT_CHARS);
  }

  /** The parts every input has; only the variant comes after them. */
  function BaseText(x: Inputs): string {
    Join(NUL, [x.contentHash, x.title, x.url, x.action, x.policy])
  }

  lemma HashOfVariant(x: Inputs)
    requires x.variant != Some("")
    ensures InputHash(x) == if x.variant.Some? then BaseText(x) + [NUL] + x.variant.value else BaseText(x)
  {
    var base := [x.contentHash, x.title, x.url, x.action, x.policy];
    if x.variant.Some? {
      assert Parts(x) == base + [x.variant.value];
      JoinAppend(NUL, base, x.variant.value);
    } else {
      assert Parts(x) == base;
    }
  }

  /** Inputs that differ in nothing but the variant never share a hash text, whatever the parts contain. */
  lemma HashSeparatesVariants(x: Inputs, v: Option<string>)
    requires x.variant != Some("") && v != Some("") && InputHash(x) == InputHash(x.(variant := v))
    ensures x.variant == v
  {
    HashOfVariant(x);
    HashOfVariant(x.(variant := v));
    var base := BaseText(x);
    if x.variant.Some? && v.Some? {
      assert (base + [NUL] + x.variant.value)[|base| + 1..] == x.variant.value;
      assert (base + [NUL] + v.value)[|base| + 1..] == v.value;
    }
  }

  /** The five parts of inputs without a variant, written out. */
  lemma HashUnrolled(x: Inputs)
    requires x.variant.None?
    ensures InputHash(x)
         == x.contentHash + [NUL] + (x.title + [NUL] + (x.url + [NUL] + (x.action + [NUL] + x.policy)))
  {
    var p := Parts(x);
    assert p[1..] == [x.title, x.url, x.action, x.policy];
    assert p[1..][1..] == [x.url, x.action, x.policy];
    assert p[1..][1..][1..] == [x.action, x.policy];
    assert p[1..][1..][1..][1..] == [x.policy];
    assert Join(NUL, p[1..][1..][1..]) == x.action + [NUL] + x.policy;
    assert Join(NUL, p[1..][1..]) == x.url + [NUL] + (x.action + [NUL] + x.policy);
    assert Join(NUL, p[1..]) == x.title + [NUL] + (x.url + [NUL] + (x.action + [NUL] + x.policy));
  }

  /** Parts between which a separator can stand in two places. */
  lemma Regroup(a: string, b: string, c: string)
    ensures (a + [NUL] + b) + [NUL] + c == a + [NUL] + (b + [NUL] + c)
  {
  }

  lemma Cut(s: string) returns (a: string, b: string)
    requires NUL in s
    ensures s == a + [NUL] + b
  {
    var i :| 0 <= i < |s| && s[i] == NUL;
    a, b := s[..i], s[i + 1..];
  }

  /** Inputs that share their hash text with others: a variant, or a separator inside any part. */
  lemma Twin(x: Inputs) returns (y: Inputs)
    requires x.variant != Some("") && !(x.variant.None? && NoneContain(NUL, Parts(x)))
    ensures y != x && y.variant.None? && InputHash(y) == InputHash(x)
  {
    if x.variant.Some? {
      y := x.(policy := x.policy + [NUL] + x.variant.value, variant := None);
      HashOfVariant(x);
      HashOfVariant(y);
      HashUnrolled(y);
      HashUnrolled(x.(variant := None));
      HashOfVariant(x.(variant := None));
      assert InputHash(x) == InputHash(x.(variant := None)) + [NUL] + x.variant.value;
      assert InputHash(y) == InputHash(x);
    } else {
      y := TwinOfParts(x);
    }
  }

  /** Moving the separator: the part with the NUL is cut there and its neighbour takes the rest. */
  lemma TwinOfParts(x: Inputs) returns (y: Inputs)
    requires x.variant.None? && !NoneContain(NUL, Parts(x))
    ensures y != x && y.variant.None? && InputHash(y) == InputHash(x)
  {
    var i :| 0 <= i < |Parts(x)| && NUL in Parts(x)[i];
    var a, b := Cut(Parts(x)[i]);
    if i == 0 {
      y := x.(contentHash := a, title := b + [NUL] + x.title);
      Regroup(a, b, x.title + [NUL] + (x.url + [NUL] + (x.action + [NUL] + x.policy)));
      Regroup(b, x.title, x.url + [NUL] + (x.action + [NUL] + x.policy));
    } else if i == 1 {
      y := x.(title := a, url := b + [NUL] + x.url);
      Regroup(a, b, x.url + [NUL] + (x.action + [NUL] + x.policy));
      Regroup(b, x.url, x.action + [NUL] + x.policy);
    } else if i == 2 {
      y := x.(url := a, action := b + [NUL] + x.action);
      Regroup(a, b, x.action + [NUL] + x.policy);
      Regroup(b, x.action, x.policy);
    } else if i == 3 {
      y := x.(action := a, policy := b + [NUL] + x.policy);
      Regroup(a, b, x.policy);
    } else {
      y := x.(action := x.action + [NUL] + a, policy := b);
      Regroup(x.action, a, b);
    }
    HashUnrolled(x);
    HashUnrolled(y);
  }

  /**
   Inputs share their hash text with no other inputs exactly when they have no variant and no NUL in
   any part.
   */
  lemma HashIsUniqueIff(x: Inputs)
    requires x.variant != Some("")
    ensures (forall y: Inputs :: y.variant != Some("") && InputHash(y) == InputHash(x) ==> y == x)
       <==> x.variant.None? && NoneContain(NUL, Parts(x))
  {
    hide InputHash, Parts;
    if x.variant.None? && NoneContain(NUL, Parts(x)) {
      forall y: Inputs | y.variant != Some("") && InputHash(y) == InputHash(x)
        ensures y == x
      {
        SeparatorsTell(x, y);
        InputHashInjective(x, y);
      }
    } else {
      var y := Twin(x);
    }
  }

  /** The number of separators tells that the other inputs have no NUL either. */
  lemma SeparatorsTell(x: Inputs, y: Inputs)
    requires x.variant.None? && NoneContain(NUL, Parts(x)) && InputHash(y) == InputHash(x)
    ensures NoneContain(NUL, Parts(y))
  {
    CountJoin(NUL, Parts(x));
    CountJoin(NUL, Parts(y));
    CountAllIsZero(NUL, Parts(x));
    CountAllIsZero(NUL, Parts(y));
  }

  /** The inputs a run of this kind would have now; enrichment takes its policy from the candidate. */
  function InputsNow(candidate: Candidate, source: Source, kind: Kind, variant: Option<string>): Inputs {
    Inputs(source.contentHash, source.title, source.url, candidate.action,
           if kind.Rewrite? then source.reusePolicy else candidate.metaPolicy,
           if kind.Rewrite? then variant else None)
  }

  /** `current_candidate_rewrite_run`: the run the candidate's pointer names, when it is still valid. */
  function CurrentRun(candidates: map<CandidateId, Candidate>, sources: map<CandidateId, Source>, runs: Runs,
                      c: CandidateId): (r: Option<RunId>)
    requires c in candidates && c in sources
    ensures r.Some? ==> r.value in runs
  {
    var candidate := candidates[c];
    if Rewrite !in candidate.current then None
    else
      var r := candidate.current[Rewrite];
      if r !in runs then None
      else if runs[r].candidate != c || runs[r].kind != Rewrite || runs[r].status != Completed then None
      else if runs[r].inputHash != InputHash(InputsNow(candidate, sources[c], Rewrite, RunVariant(runs[r]))) then None
      else if Strip(runs[r].text) == "" then None
      else Some(r)
  }

  /******* Retention *******/

  /** The population `_delete_old_terminal` works on. */
  predicate OldTerminal(run: Run, c: CandidateId, kind: Kind, cutoff: int) {
    run.candidate == c && run.kind == kind && Terminal(run.status) && run.createdAt < cutoff
  }

  function OldRuns(runs: Runs, c: CandidateId, kind: Kind, cutoff: int): set<RunId> {
    set r | r in runs && OldTerminal(runs[r], c, kind, cutoff)
  }

  /** `ORDER BY created_at DESC, id DESC`. */
  predicate Newer(runs: Runs, a: RunId, b: RunId)
    requires a in runs && b in runs
  {
    runs[a].createdAt > runs[b].createdAt || (runs[a].createdAt == runs[b].createdAt && a > b)
  }

  function NewerThan(runs: Runs, among: set<RunId>, r: RunId): set<RunId>
    requires among <= runs.Keys && r in runs
  {
    set a | a in among && Newer(runs, a, r)
  }

  /** The first `keep` rows of that order: those with fewer than `keep` newer ones. */
  function Newest(runs: Runs, among: set<RunId>, keep: nat): set<RunId>
    requires among <= runs.Keys
  {
    set r | r in among && |NewerThan(runs, among, r)| < keep
  }

  /** What one `_delete_old_terminal` call deletes. */
  function Doomed(runs: Runs, c: CandidateId, kind: Kind, current: Option<RunId>, cutoff: int, keep: nat): set<RunId> {
    var aged := OldRuns(runs, c, kind, cutoff);
    aged - Newest(runs, aged, keep) - (if current.Some? then {current.value} else {})
  }

  function Without(runs: Runs, gone: set<RunId>): Runs {
    map r | r in runs && r !in gone :: runs[r]
  }

  function Pointer(candidate: Candidate, kind: Kind): Option<RunId> {
    if kind in candidate.current then Some(candidate.current[kind]) else None
  }
}
