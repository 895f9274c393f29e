/**
 `localize_wall_clock_strict`: resolving a local wall clock in a zone given by its list of offset
 changes, with the meaning of `fold` that PEP 495 gives it ("In the Fold", "Mind the Gap").
 */
module WallClock {
  import opened Wrappers

  /** From UTC instant `at` on, local time is UTC plus `offset`. */
  datatype Transition = Transition(at: int, offset: int)

  datatype Zone = Zone(base: int, transitions: seq<Transition>)

  datatype Error = DoesNotExist | Ambiguous

  /** The offset after k transitions. */
  function Offset(z: Zone, k: nat): int
    requires k <= |z.transitions|
  {
    if k == 0 then z.base else z.transitions[k - 1].offset
  }

  /** Local time of transition i on its later (fold 0) and on its earlier (fold 1) reading. */
  function Wall(z: Zone, fold: nat, i: nat): int
    requires i < |z.transitions|
  {
    var before, after := Offset(z, i), Offset(z, i + 1);
    z.transitions[i].at + if (fold == 0) == (before >= after) then before else after
  }

  /** Transition i comes before the next one, and the local times it skips or repeats end before the next's begin. */
  predicate Separated(z: Zone, i: nat)
    requires i + 1 < |z.transitions|
  {
    z.transitions[i].at < z.transitions[i + 1].at && Wall(z, 0, i) <= Wall(z, 1, i + 1)
  }

  predicate WellSeparated(z: Zone) {
    forall i :: 0 <= i < |z.transitions| - 1 ==> Separated(z, i)
  }

  /** `bisect_right`. */
  function Bisect(values: seq<int>, x: int): (k: nat)
    ensures k <= |values| && (k == 0 || values[k - 1] <= x) && forall i :: k <= i < |values| ==> values[i] > x
  {
    if values == [] then 0
    else if values[|values| - 1] <= x then |values|
    else Bisect(values[..|values| - 1], x)
  }

  function Instants(z: Zone): (s: seq<int>)
    ensures |s| == |z.transitions| && forall i :: 0 <= i < |s| ==> s[i] == z.transitions[i].at
  {
    seq(|z.transitions|, i requires 0 <= i < |z.transitions| => z.transitions[i].at)
  }

  function Walls(z: Zone, fold: nat): (s: seq<int>)
    ensures |s| == |z.transitions| && forall i :: 0 <= i < |s| ==> s[i] == Wall(z, fold, i)
  {
    seq(|z.transitions|, i requires 0 <= i < |z.transitions| => Wall(z, fold, i))
  }

  /** The number of transitions up to a UTC instant. */
  function Regime(z: Zone, utc: int): (k: nat)
    ensures k <= |z.transitions| && (k == 0 || z.transitions[k - 1].at <= utc)
    ensures forall i :: k <= i < |z.transitions| ==> z.transitions[i].at > utc
  {
    var k := Bisect(Instants(z), utc);
    assert forall i :: k <= i < |z.transitions| ==> Instants(z)[i] == z.transitions[i].at;
    k
  }

  /** UTC to local. */
  function Local(z: Zone, utc: int): int {
    utc + Offset(z, Regime(z, utc))
  }

  /** The number of transitions up to a local time, as `fold` reads them. */
  function FoldIndex(z: Zone, fold: nat, wall: int): (k: nat)
    ensures k <= |z.transitions| && (k == 0 || Wall(z, fold, k - 1) <= wall)
    ensures forall i :: k <= i < |z.transitions| ==> Wall(z, fold, i) > wall
  {
    var k := Bisect(Walls(z, fold), wall);
    assert forall i :: k <= i < |z.transitions| ==> Walls(z, fold)[i] == Wall(z, fold, i);
    k
  }

  /** Local to UTC, with the offset that `fold` selects. */
  function ToUtc(z: Zone, fold: nat, wall: int): int {
    wall - Offset(z, FoldIndex(z, fold, wall))
  }

  /** Transition i is the last one that is not after the instant. */
  predicate InForce(z: Zone, i: nat, utc: int)
    requires i < |z.transitions|
  {
    z.transitions[i].at <= utc && forall j :: i < j < |z.transitions| ==> utc < z.transitions[j].at
  }

  /**
   The instant is one at which local clocks show the wall clock: they are ahead of UTC by the offset of
   the last transition that is not after it, or by the zone's base before its first transition.
   */
  predicate Shows(z: Zone, utc: int, wall: int) {
    && (forall i :: 0 <= i < |z.transitions| && InForce(z, i, utc) ==> wall == utc + z.transitions[i].offset)
    && ((forall i :: 0 <= i < |z.transitions| ==> utc < z.transitions[i].at) ==> wall == utc + z.base)
  }

  lemma ShowsIsLocal(z: Zone, utc: int, wall: int)
    ensures Shows(z, utc, wall) <==> Local(z, utc) == wall
  {
    var k := Regime(z, utc);
    if k > 0 {
      assert InForce(z, k - 1, utc);
      assert forall i :: 0 <= i < |z.transitions| && InForce(z, i, utc) ==> i == k - 1;
    }
  }

  lemma ShowsMeansLocal(z: Zone, wall: int)
    ensures forall utc :: Shows(z, utc, wall) <==> Local(z, utc) == wall
  {
    hide Shows, Local;
    forall utc
      ensures Shows(z, utc, wall) <==> Local(z, utc) == wall
    {
      ShowsIsLocal(z, utc, wall);
    }
  }

  /** The offset before transition i. */
  function Earlier(z: Zone, i: nat): int
    requires i < |z.transitions|
  {
    if i == 0 then z.base else z.transitions[i - 1].offset
  }

  /** The offsets between transitions. */
  lemma OffsetsAre(z: Zone)
    ensures forall i :: 0 <= i < |z.transitions| ==>
      Offset(z, i) == Earlier(z, i) && Offset(z, i + 1) == z.transitions[i].offset
  {
  }

  /******* Every instant that shows a wall clock is found through one of the folds *******/

  /** The fold readings of a transition are the later and the earlier of its two local times. */
  lemma WallIs(z: Zone, i: nat)
    requires i < |z.transitions|
    ensures var x, y := z.transitions[i].at + Offset(z, i), z.transitions[i].at + Offset(z, i + 1);
      Wall(z, 0, i) == (if x >= y then x else y) && Wall(z, 1, i) == (if x >= y then y else x)
  {
  }

  lemma FoldSteps(z: Zone, wall: int)
    requires WellSeparated(z)
    ensures FoldIndex(z, 0, wall) <= FoldIndex(z, 1, wall) <= FoldIndex(z, 0, wall) + 1
  {
    hide WellSeparated, Wall, Bisect;
    var k0, k1 := FoldIndex(z, 0, wall), FoldIndex(z, 1, wall);
    if k0 > 0 {
      WallIs(z, k0 - 1);
    }
    if k1 > 1 {
      StepApart(z, k1 - 2);
    }
  }

  lemma StepApart(z: Zone, i: nat)
    requires WellSeparated(z) && i + 1 < |z.transitions|
    ensures Wall(z, 0, i) <= Wall(z, 1, i + 1) && z.transitions[i].at < z.transitions[i + 1].at
  {
    assert Separated(z, i);
  }

  /** The regime of an instant that shows the wall clock lies between the two fold indexes. */
  lemma RegimeBetween(z: Zone, utc: int, wall: int)
    requires WellSeparated(z) && Shows(z, utc, wall)
    ensures FoldIndex(z, 0, wall) <= Regime(z, utc) <= FoldIndex(z, 1, wall)
  {
    hide WellSeparated, Wall, Bisect, Offset, Shows;
    ShowsMeansLocal(z, wall);
    var j, k0, k1 := Regime(z, utc), FoldIndex(z, 0, wall), FoldIndex(z, 1, wall);
    if j > k1 {
      WallIs(z, j - 1);
    }
    if j < k0 {
      WallIs(z, j);
      FoldSorted(z, 0, j, k0 - 1);
    }
  }

  lemma FoundByAFold(z: Zone, utc: int, wall: int)
    requires WellSeparated(z) && Shows(z, utc, wall)
    ensures utc == ToUtc(z, 0, wall) || utc == ToUtc(z, 1, wall)
  {
    hide WellSeparated, Wall, Shows;
    ShowsMeansLocal(z, wall);
    RegimeBetween(z, utc, wall);
    FoldSteps(z, wall);
  }

  lemma {:induction false} FoldSorted(z: Zone, fold: nat, i: nat, j: nat)
    requires WellSeparated(z) && i <= j < |z.transitions| && fold <= 1
    ensures Wall(z, fold, i) <= Wall(z, fold, j)
    decreases j - i
  {
    hide WellSeparated, Wall, Offset;
    if i < j {
      FoldSorted(z, fold, i, j - 1);
      StepApart(z, j - 1);
      WallIs(z, j - 1);
      WallIs(z, j);
    }
  }

  /******* The method *******/

  /**
   Succeeds exactly when one instant shows the wall clock, and returns that instant; the two errors
   mean that no instant shows it, and that several do.
   */
  method LocalizeWallClockStrict(z: Zone, wall: int) returns (r: Result<int, Error>)
    requires WellSeparated(z)
    ensures r.Ok? ==> forall utc :: Shows(z, utc, wall) <==> utc == r.value
    ensures r == Err(DoesNotExist) ==> forall utc :: !Shows(z, utc, wall)
    ensures r == Err(Ambiguous) ==> exists a, b :: a != b && Shows(z, a, wall) && Shows(z, b, wall)
  {
    hide WellSeparated, Wall, Bisect, Offset, Regime, FoldIndex, Local, Shows;
    ShowsMeansLocal(z, wall);
    // the keys of the dictionary, in insertion order
    var candidates: seq<int> := [];
    for fold := 0 to 2
      invariant forall utc :: utc in candidates ==> Shows(z, utc, wall)
      invariant forall f: nat :: f < fold && Shows(z, ToUtc(z, f, wall), wall) ==> ToUtc(z, f, wall) in candidates
      invariant forall i, j :: 0 <= i < j < |candidates| ==> candidates[i] != candidates[j]
    {
      var utc := ToUtc(z, fold, wall);
      if Local(z, utc) == wall && utc !in candidates {
        candidates := candidates + [utc];
      }
    }
    forall utc | Shows(z, utc, wall)
      ensures utc in candidates
    {
      FoundByAFold(z, utc, wall);
    }
    if |candidates| == 0 {
      return Err(DoesNotExist);
    }
    if |candidates| > 1 {
      assert candidates[0] != candidates[1] && Shows(z, candidates[0], wall) && Shows(z, candidates[1], wall);
      return Err(Ambiguous);
    }
    return Ok(candidates[0]);
  }

  /******* When each outcome occurs *******/

  /** The clock skips the wall clock at transition i. */
  predicate InGap(z: Zone, i: nat, wall: int)
    requires i < |z.transitions|
  {
    z.transitions[i].at + Earlier(z, i) <= wall < z.transitions[i].at + z.transitions[i].offset
  }

  /** The clock shows it before transition i and again after it. */
  predicate InFold(z: Zone, i: nat, wall: int)
    requires i < |z.transitions|
  {
    z.transitions[i].at + z.transitions[i].offset <= wall < z.transitions[i].at + Earlier(z, i)
  }

  lemma RegimeIs(z: Zone, utc: int, k: nat)
    requires WellSeparated(z) && k <= |z.transitions|
    requires (k == 0 || z.transitions[k - 1].at <= utc) && (k == |z.transitions| || utc < z.transitions[k].at)
    ensures Regime(z, utc) == k
  {
    var j := Regime(z, utc);
    if j > k {
      Sorted(z, k, j - 1);
    }
  }

  lemma {:induction false} Sorted(z: Zone, i: nat, j: nat)
    requires WellSeparated(z) && i <= j < |z.transitions|
    ensures z.transitions[i].at <= z.transitions[j].at
    decreases j - i
  {
    if i < j {
      Sorted(z, i, j - 1);
      assert Separated(z, j - 1);
    }
  }

  /** When both folds agree, the instant they give shows the wall clock. */
  lemma AgreeingFoldsShow(z: Zone, wall: int)
    requires WellSeparated(z) && FoldIndex(z, 0, wall) == FoldIndex(z, 1, wall)
    ensures Shows(z, ToUtc(z, 0, wall), wall) && ToUtc(z, 0, wall) == ToUtc(z, 1, wall)
  {
    hide Shows;
    ShowsMeansLocal(z, wall);
    var k := FoldIndex(z, 0, wall);
    if k > 0 {
      assert Wall(z, 0, k - 1) <= wall;
    }
    if k < |z.transitions| {
      assert Wall(z, 1, k) > wall;
    }
    RegimeIs(z, ToUtc(z, 0, wall), k);
  }

  /** When they differ, the wall clock lies in the gap or in the fold of the transition between them. */
  lemma DifferingFolds(z: Zone, wall: int)
    requires WellSeparated(z) && FoldIndex(z, 0, wall) != FoldIndex(z, 1, wall)
    ensures var i := FoldIndex(z, 0, wall); i < |z.transitions| && (InGap(z, i, wall) || InFold(z, i, wall))
  {
    FoldSteps(z, wall);
    var i := FoldIndex(z, 0, wall);
    assert Wall(z, 0, i) > wall;
    assert Wall(z, 1, i) <= wall;
  }

  /** A wall clock in transition i's range has the folds i and i + 1. */
  lemma FoldsAt(z: Zone, i: nat, wall: int)
    requires WellSeparated(z) && i < |z.transitions| && (InGap(z, i, wall) || InFold(z, i, wall))
    ensures FoldIndex(z, 0, wall) == i && FoldIndex(z, 1, wall) == i + 1
  {
    hide WellSeparated, Wall, Bisect, Offset;
    OffsetsAre(z);
    WallIs(z, i);
    FoldSteps(z, wall);
    var k0 := FoldIndex(z, 0, wall);
    if k0 > i {
      FoldSorted(z, 0, i, k0 - 1);
    }
  }

  /** A wall clock exists nowhere exactly when some transition skips it. */
  lemma NowhereIffSkipped(z: Zone, wall: int)
    requires WellSeparated(z)
    ensures (forall utc :: !Shows(z, utc, wall)) <==> exists i :: 0 <= i < |z.transitions| && InGap(z, i, wall)
  {
    hide Shows, WellSeparated, Earlier, Wall;
    if FoldIndex(z, 0, wall) == FoldIndex(z, 1, wall) {
      AgreeingFoldsShow(z, wall);
    } else {
      DifferingFolds(z, wall);
      var i := FoldIndex(z, 0, wall);
      if InFold(z, i, wall) {
        FoldShowsTwice(z, i, wall);
      }
    }
    forall i, utc | 0 <= i < |z.transitions| && InGap(z, i, wall)
      ensures !Shows(z, utc, wall)
    {
      if Shows(z, utc, wall) {
        GapShowsNothing(z, i, utc, wall);
      }
    }
  }

  lemma GapShowsNothing(z: Zone, i: nat, utc: int, wall: int)
    requires WellSeparated(z) && i < |z.transitions| && InGap(z, i, wall)
    ensures !Shows(z, utc, wall)
  {
    hide WellSeparated, Wall, Bisect, Offset, Shows;
    ShowsMeansLocal(z, wall);
    OffsetsAre(z);
    FoldsAt(z, i, wall);
    if Shows(z, utc, wall) {
      RegimeBetween(z, utc, wall);
    }
  }

  /** In a fold both readings are real and different. */
  lemma FoldShowsTwice(z: Zone, i: nat, wall: int)
    requires WellSeparated(z) && i < |z.transitions| && InFold(z, i, wall)
    ensures Shows(z, wall - Offset(z, i), wall) && Shows(z, wall - Offset(z, i + 1), wall)
    ensures wall - Offset(z, i) != wall - Offset(z, i + 1)
  {
    hide WellSeparated, Wall, Bisect, Offset, Shows;
    ShowsMeansLocal(z, wall);
    OffsetsAre(z);
    WallIs(z, i);
    if i > 0 {
      StepApart(z, i - 1);
      WallIs(z, i - 1);
    }
    RegimeIs(z, wall - Offset(z, i), i);
    if i + 1 < |z.transitions| {
      StepApart(z, i);
      WallIs(z, i + 1);
    }
    RegimeIs(z, wall - Offset(z, i + 1), i + 1);
  }

  /** A wall clock is ambiguous exactly when some transition repeats it. */
  lemma TwiceIffRepeated(z: Zone, wall: int)
    requires WellSeparated(z)
    ensures (exists a, b :: a != b && Shows(z, a, wall) && Shows(z, b, wall))
       <==> exists i :: 0 <= i < |z.transitions| && InFold(z, i, wall)
  {
    hide Shows, WellSeparated, Earlier, Wall;
    if i :| 0 <= i < |z.transitions| && InFold(z, i, wall) {
      FoldShowsTwice(z, i, wall);
    }
    if a, b :| a != b && Shows(z, a, wall) && Shows(z, b, wall) {
      FoundByAFold(z, a, wall);
      FoundByAFold(z, b, wall);
      DifferingFolds(z, wall);
      var i := FoldIndex(z, 0, wall);
      if InGap(z, i, wall) {
        GapShowsNothing(z, i, a, wall);
      }
    }
  }
}
