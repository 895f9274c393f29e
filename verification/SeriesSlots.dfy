/** `_normalize_slots`: the operator's slots of a series, resolved to instants. */
module SeriesSlots {
  import opened Sets
  import opened WallClock
  import opened Wrappers

  /** A slot as sent: no ordinal when it is not a whole number, no wall clock when date or time are not strict. */
  datatype Slot = Slot(ordinal: Option<int>, wall: Option<int>)

  datatype SlotError =
    | WrongNumber | BadOrdinal | DuplicateOrdinal | BadDateOrTime
    | NoInstant | ManyInstants | NotInFuture | DuplicateInstant

  /** The instant at which the zone's clocks show the wall clock, and the only one. */
  ghost predicate Resolves(z: Zone, wall: int, utc: int) {
    forall t :: Shows(z, t, wall) <==> t == utc
  }

  /** Each slot by itself is one of the ordinals at a future wall clock that exists exactly once. */
  ghost predicate SlotOk(z: Zone, now: int, count: nat, slot: Slot) {
    && slot.ordinal.Some? && 1 <= slot.ordinal.value <= count && slot.wall.Some?
    && exists utc :: Resolves(z, slot.wall.value, utc) && utc > now
  }

  /** Two slots differ in ordinal and in instant. */
  ghost predicate Apart(z: Zone, a: Slot, b: Slot) {
    a.ordinal != b.ordinal && (a.wall.Some? && b.wall.Some? ==>
      forall utc :: !(Resolves(z, a.wall.value, utc) && Resolves(z, b.wall.value, utc)))
  }

  ghost predicate SlotsOk(z: Zone, now: int, count: nat, slots: seq<Slot>) {
    && |slots| == count
    && (forall i :: 0 <= i < |slots| ==> SlotOk(z, now, count, slots[i]))
    && (forall i, j :: 0 <= i < j < |slots| ==> Apart(z, slots[i], slots[j]))
  }

  /** Every ordinal is scheduled at the instant of its slot. */
  ghost predicate Schedules(z: Zone, count: nat, slots: seq<Slot>, plan: map<int, int>) {
    && (forall o :: o in plan <==> 1 <= o <= count)
    && (forall i :: 0 <= i < |slots| ==>
          slots[i].ordinal.Some? && slots[i].wall.Some? && slots[i].ordinal.value in plan
          && Resolves(z, slots[i].wall.value, plan[slots[i].ordinal.value]))
  }

  function Upto(count: nat): (s: set<int>)
    ensures |s| == count && forall o :: o in s <==> 1 <= o <= count
  {
    if count == 0 then {} else Upto(count - 1) + {count}
  }

  /** As many different ordinals as there are posts cover them all, so the last check of the source cannot fail. */
  lemma OrdinalsCover(seen: set<int>, count: nat)
    requires |seen| == count && forall o :: o in seen ==> 1 <= o <= count
    ensures seen == Upto(count)
  {
    if o :| o in Upto(count) && o !in seen {
      StrictSubsetSize(seen, Upto(count), o);
    }
  }

  /** The slots seen so far are acceptable, and `plan` and `instants` say what they resolved to. */
  ghost predicate SoFar(z: Zone, now: int, count: nat, slots: seq<Slot>, plan: map<int, int>, instants: seq<int>) {
    && |instants| == |slots| == |plan.Keys| && (forall o :: o in plan ==> 1 <= o <= count)
    && (forall k :: 0 <= k < |slots| ==> SlotOk(z, now, count, slots[k]))
    && (forall k :: 0 <= k < |slots| ==> Planned(z, slots[k], plan, instants[k]))
    && (forall j, k :: 0 <= j < k < |slots| ==> Apart(z, slots[j], slots[k]))
    && (forall o :: o in plan ==> exists k :: 0 <= k < |slots| && slots[k].ordinal == Some(o))
  }

  lemma Another(
    z: Zone, now: int, count: nat, slots: seq<Slot>, plan: map<int, int>, instants: seq<int>, slot: Slot, at: int)
    requires SoFar(z, now, count, slots, plan, instants) && SlotOk(z, now, count, slot)
    requires slot.ordinal.Some? && 1 <= slot.ordinal.value <= count && slot.ordinal.value !in plan
    requires slot.wall.Some? && at !in instants && Resolves(z, slot.wall.value, at)
    ensures SoFar(z, now, count, slots + [slot], plan[slot.ordinal.value := at], instants + [at])
  {
    hide Resolves, Apart, SlotOk, Planned, Shows, InForce;
    var plan', all := plan[slot.ordinal.value := at], slots + [slot];
    NewIsApart(z, slots, instants, plan, slot, at);
    assert plan'.Keys == plan.Keys + {slot.ordinal.value};
    OrdinalsKnown(slots, plan, slot, at);
    ApartMore(z, slots, slot);
    forall k | 0 <= k < |all|
      ensures Planned(z, all[k], plan', (instants + [at])[k])
    {
      if k < |slots| {
        StillPlanned(z, slots[k], plan, instants[k], slot.ordinal.value, at);
      } else {
        JustPlanned(z, slot, plan, at);
      }
    }
  }

  lemma ApartMore(z: Zone, slots: seq<Slot>, slot: Slot)
    requires forall j, k :: 0 <= j < k < |slots| ==> Apart(z, slots[j], slots[k])
    requires forall k :: 0 <= k < |slots| ==> Apart(z, slots[k], slot)
    ensures forall j, k :: 0 <= j < k < |slots + [slot]| ==> Apart(z, (slots + [slot])[j], (slots + [slot])[k])
  {
    hide Apart;
  }

  lemma OrdinalsKnown(slots: seq<Slot>, plan: map<int, int>, slot: Slot, at: int)
    requires slot.ordinal.Some? && forall o :: o in plan ==> exists k :: 0 <= k < |slots| && slots[k].ordinal == Some(o)
    ensures forall o :: o in plan[slot.ordinal.value := at] ==>
      exists k :: 0 <= k < |slots + [slot]| && (slots + [slot])[k].ordinal == Some(o)
  {
    var all := slots + [slot];
    forall o | o in plan[slot.ordinal.value := at]
      ensures exists k :: 0 <= k < |all| && all[k].ordinal == Some(o)
    {
      if o in plan {
        var k :| 0 <= k < |slots| && slots[k].ordinal == Some(o);
        assert all[k] == slots[k];
      } else {
        assert all[|slots|] == slot;
      }
    }
  }

  lemma StillPlanned(z: Zone, slot: Slot, plan: map<int, int>, at: int, ordinal: int, other: int)
    requires Planned(z, slot, plan, at) && ordinal !in plan
    ensures Planned(z, slot, plan[ordinal := other], at)
  {
  }

  lemma JustPlanned(z: Zone, slot: Slot, plan: map<int, int>, at: int)
    requires slot.ordinal.Some? && slot.wall.Some? && Resolves(z, slot.wall.value, at)
    ensures Planned(z, slot, plan[slot.ordinal.value := at], at)
  {
  }

  /** A used ordinal or instant clashes with an earlier slot. */
  lemma Clash(
    z: Zone, now: int, count: nat, slots: seq<Slot>, plan: map<int, int>, instants: seq<int>, slot: Slot, at: int)
    requires SoFar(z, now, count, slots, plan, instants) && slot.ordinal.Some?
    requires slot.ordinal.value in plan || (at in instants && slot.wall.Some? && Resolves(z, slot.wall.value, at))
    ensures exists k :: 0 <= k < |slots| && !Apart(z, slots[k], slot)
  {
    hide Resolves, SlotOk;
    if slot.ordinal.value in plan {
      var o := slot.ordinal.value;
      assert o in plan ==> exists k :: 0 <= k < |slots| && slots[k].ordinal == Some(o);
      var k :| 0 <= k < |slots| && slots[k].ordinal == Some(o);
      assert !Apart(z, slots[k], slot);
    } else {
      var k :| 0 <= k < |slots| && instants[k] == at;
      assert Planned(z, slots[k], plan, instants[k]);
      assert !Apart(z, slots[k], slot);
    }
  }

  lemma AllSeen(z: Zone, now: int, count: nat, slots: seq<Slot>, plan: map<int, int>, instants: seq<int>)
    requires SoFar(z, now, count, slots, plan, instants) && |slots| == count
    ensures SlotsOk(z, now, count, slots) && Schedules(z, count, slots, plan)
  {
    hide SlotOk, Apart, Resolves;
    OrdinalsCover(plan.Keys, count);
    PlanIsSchedule(z, count, slots, plan, instants);
  }

  /**
   Accepts exactly the slots that give every ordinal one future instant of its own, and returns those
   instants by ordinal.
   */
  method NormalizeSlots(z: Zone, now: int, count: nat, slots: seq<Slot>) returns (r: Result<map<int, int>, SlotError>)
    requires WellSeparated(z)
    ensures r.Ok? <==> SlotsOk(z, now, count, slots)
    ensures r.Ok? ==> Schedules(z, count, slots, r.value)
  {
    hide WellSeparated, Resolves, Apart, Schedules, SoFar;
    if |slots| != count {
      return Err(WrongNumber);
    }
    var plan: map<int, int> := map[];
    var instants: seq<int> := [];
    NoneSeen(z, now, count);
    for i := 0 to |slots|
      invariant SoFar(z, now, count, slots[..i], plan, instants)
    {
      var slot := slots[i];
      if slot.ordinal.None? || !(1 <= slot.ordinal.value <= count) {
        return Err(BadOrdinal);
      }
      if slot.ordinal.value in plan {
        Clash(z, now, count, slots[..i], plan, instants, slot, 0);
        Spoiled(z, now, count, slots, i);
        return Err(DuplicateOrdinal);
      }
      if slot.wall.None? {
        return Err(BadDateOrTime);
      }
      var resolved := ResolveFuture(z, now, slot.wall.value);
      if resolved.Err? {
        return Err(resolved.error);
      }
      if resolved.value in instants {
        Clash(z, now, count, slots[..i], plan, instants, slot, resolved.value);
        Spoiled(z, now, count, slots, i);
        return Err(DuplicateInstant);
      }
      Another(z, now, count, slots[..i], plan, instants, slot, resolved.value);
      assert slots[..i + 1] == slots[..i] + [slot];
      plan := plan[slot.ordinal.value := resolved.value];
      instants := instants + [resolved.value];
    }
    assert slots[..|slots|] == slots;
    AllSeen(z, now, count, slots, plan, instants);
    return Ok(plan);
  }

  lemma NoneSeen(z: Zone, now: int, count: nat)
    ensures SoFar(z, now, count, [], map[], [])
  {
  }

  /** A slot that clashes with an earlier one spoils the whole request. */
  lemma Spoiled(z: Zone, now: int, count: nat, slots: seq<Slot>, i: nat)
    requires i < |slots| && exists k :: 0 <= k < i && !Apart(z, slots[..i][k], slots[i])
    ensures !SlotsOk(z, now, count, slots)
  {
    hide Apart, SlotOk;
    var k :| 0 <= k < i && !Apart(z, slots[..i][k], slots[i]);
    assert slots[..i][k] == slots[k];
  }

  /** The strict resolution and the check that it lies in the future. */
  method ResolveFuture(z: Zone, now: int, wall: int) returns (r: Result<int, SlotError>)
    requires WellSeparated(z)
    ensures r.Ok? <==> exists utc :: Resolves(z, wall, utc) && utc > now
    ensures r.Ok? ==> Resolves(z, wall, r.value) && r.value > now
  {
    hide Shows, WellSeparated;
    var resolved := LocalizeWallClockStrict(z, wall);
    if resolved.Err? {
      NotResolved(z, wall, resolved.error);
      return Err(if resolved.error == DoesNotExist then NoInstant else ManyInstants);
    }
    assert Resolves(z, wall, resolved.value);
    if resolved.value <= now {
      OneInstant(z, wall, resolved.value);
      return Err(NotInFuture);
    }
    return Ok(resolved.value);
  }

  lemma PlanIsSchedule(z: Zone, count: nat, slots: seq<Slot>, plan: map<int, int>, instants: seq<int>)
    requires |instants| == |slots| && plan.Keys == Upto(count)
    requires forall k :: 0 <= k < |slots| ==> Planned(z, slots[k], plan, instants[k])
    ensures Schedules(z, count, slots, plan)
  {
    hide Resolves;
    assert forall o :: o in plan <==> o in Upto(count);
    forall k | 0 <= k < |slots|
      ensures slots[k].ordinal.Some? && slots[k].wall.Some? && slots[k].ordinal.value in plan
      ensures Resolves(z, slots[k].wall.value, plan[slots[k].ordinal.value])
    {
      assert Planned(z, slots[k], plan, instants[k]);
    }
  }

  /** The slot's instant is known and planned under its ordinal. */
  ghost predicate Planned(z: Zone, slot: Slot, plan: map<int, int>, at: int) {
    && slot.ordinal.Some? && slot.wall.Some? && slot.ordinal.value in plan && plan[slot.ordinal.value] == at
    && Resolves(z, slot.wall.value, at)
  }

  lemma OneInstant(z: Zone, wall: int, at: int)
    requires Resolves(z, wall, at)
    ensures forall utc :: Resolves(z, wall, utc) ==> utc == at
  {
    forall utc | Resolves(z, wall, utc)
      ensures utc == at
    {
      assert Shows(z, utc, wall);
    }
  }

  lemma NotResolved(z: Zone, wall: int, error: Error)
    requires error == DoesNotExist ==> forall utc :: !Shows(z, utc, wall)
    requires error == Ambiguous ==> exists a, b :: a != b && Shows(z, a, wall) && Shows(z, b, wall)
    ensures forall utc :: !Resolves(z, wall, utc)
  {
    if error == Ambiguous {
      var a, b :| a != b && Shows(z, a, wall) && Shows(z, b, wall);
      assert forall utc :: Resolves(z, wall, utc) ==> utc == a && utc == b;
    } else {
      assert forall utc :: Resolves(z, wall, utc) ==> Shows(z, utc, wall);
    }
  }

  /** A slot with an ordinal and an instant that were not used is apart from all earlier slots. */
  lemma NewIsApart(z: Zone, slots: seq<Slot>, instants: seq<int>, plan: map<int, int>, slot: Slot, at: int)
    requires |instants| == |slots| && at !in instants
    requires forall k :: 0 <= k < |slots| ==> Planned(z, slots[k], plan, instants[k])
    requires slot.ordinal.Some? && slot.ordinal.value !in plan && slot.wall.Some? && Resolves(z, slot.wall.value, at)
    ensures forall k :: 0 <= k < |slots| ==> Apart(z, slots[k], slot)
  {
    forall k | 0 <= k < |slots|
      ensures Apart(z, slots[k], slot)
    {
      assert Planned(z, slots[k], plan, instants[k]);
      OneInstant(z, slots[k].wall.value, instants[k]);
      OneInstant(z, slot.wall.value, at);
      assert instants[k] in instants;
    }
  }

  /** The plan depends on which slots were sent, not on their order. */
  lemma OrderDoesNotMatter(z: Zone, count: nat, a: seq<Slot>, b: seq<Slot>, x: map<int, int>, y: map<int, int>)
    requires Schedules(z, count, a, x) && Schedules(z, count, b, y) && forall slot :: slot in a <==> slot in b
    requires |a| == count && forall i, j :: 0 <= i < j < |a| ==> a[i].ordinal != a[j].ordinal
    ensures x == y
  {
    forall i | 0 <= i < |a|
      ensures a[i].ordinal.value in y && x[a[i].ordinal.value] == y[a[i].ordinal.value]
    {
      assert a[i] in b;
      var j :| 0 <= j < |b| && b[j] == a[i];
      OneInstant(z, a[i].wall.value, x[a[i].ordinal.value]);
    }
    Covered(a, count);
    assert forall o :: o in x <==> o in y;
    forall o | o in x
      ensures x[o] == y[o]
    {
      var i :| 0 <= i < |a| && a[i].ordinal == Some(o);
    }
  }

  /** Different ordinals 1..count in count slots leave none out. */
  lemma Covered(slots: seq<Slot>, count: nat)
    requires |slots| == count
    requires forall i :: 0 <= i < |slots| ==> slots[i].ordinal.Some? && 1 <= slots[i].ordinal.value <= count
    requires forall i, j :: 0 <= i < j < |slots| ==> slots[i].ordinal != slots[j].ordinal
    ensures forall o :: 1 <= o <= count ==> exists i :: 0 <= i < |slots| && slots[i].ordinal == Some(o)
  {
    OrdinalsSize(slots);
    OrdinalsCover(OrdinalsOf(slots), count);
    forall o | 1 <= o <= count
      ensures exists i :: 0 <= i < |slots| && slots[i].ordinal == Some(o)
    {
      assert o in OrdinalsOf(slots);
    }
  }

  ghost function OrdinalsOf(slots: seq<Slot>): set<int> {
    set slot | slot in slots && slot.ordinal.Some? :: slot.ordinal.value
  }

  lemma {:induction false} OrdinalsSize(slots: seq<Slot>)
    requires forall i :: 0 <= i < |slots| ==> slots[i].ordinal.Some?
    requires forall i, j :: 0 <= i < j < |slots| ==> slots[i].ordinal != slots[j].ordinal
    ensures |OrdinalsOf(slots)| == |slots|
  {
    if slots != [] {
      var last, before := slots[|slots| - 1], slots[..|slots| - 1];
      OrdinalsSize(before);
      assert slots == before + [last];
      assert OrdinalsOf(slots) == OrdinalsOf(before) + {last.ordinal.value};
    }
  }
}
