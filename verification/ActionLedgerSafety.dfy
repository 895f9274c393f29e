/**
 Any number of callers reserve and finish delivery actions. A reserve reads the row and inserts it in
 separate steps, a finish updates and reads back in separate steps, and callers may die in between.
 */
module ActionLedgerSafety {
  import opened Wrappers
  import opened ActionLedger

  datatype Pc =
    | Inserting(reservation: Reservation)
    | ReadingBack(reservation: Reservation, identity: Identity, state: ActionState)

  /** `issued` records every reservation handed out as new; `confirmed` every finish that returned true. */
  datatype State = State(
    rows: Rows,
    callers: map<nat, Pc>,
    issued: seq<Reservation>,
    confirmed: seq<(Key, ActionState)>)

  datatype Action =
    | Select(p: nat, handle: Handle, raw: Identity, live: bool, barrier: bool)
    | Insert(p: nat)
    | Update(p: nat, reservation: Reservation, state: ActionState)
    | ReadBack(p: nat)
    | Die(p: nat)

  predicate Enabled(s: State, a: Action) {
    match a
    case Select(p, handle, raw, live, barrier) => p !in s.callers
    case Insert(p) => p in s.callers && s.callers[p].Inserting?
    case Update(p, reservation, state) => p !in s.callers && state != Reserved
    case ReadBack(p) => p in s.callers && s.callers[p].ReadingBack?
    case Die(p) => p in s.callers
  }

  function End(s: State, p: nat): State {
    s.(callers := s.callers - {p})
  }

  function Next(lower: Lower, s: State, a: Action): State
    requires Enabled(s, a)
  {
    match a
    case Select(p, handle, raw, live, barrier) =>
      var identity := Normalized(lower, raw);
      if identity.None? || handle.publication <= 0 || handle.token == "" || !live || barrier
         || (handle.publication, identity.value.key) in s.rows then s
      else s.(callers := s.callers[p := Inserting(Reservation(handle.publication, identity.value, handle.token))])
    case Insert(p) =>
      var (rows, outcome) := Inserted(s.rows, s.callers[p].reservation);
      End(s, p).(rows := rows, issued := if outcome.NewlyReserved? then s.issued + [outcome.reservation] else s.issued)
    case Update(p, reservation, state) =>
      var identity := Normalized(lower, reservation.identity);
      if identity.None? || reservation.token == "" then s
      else
        var key := (reservation.publication, identity.value.key);
        if Owns(s.rows, reservation, identity.value) && s.rows[key].state == Reserved
        then s.(rows := Updated(s.rows, reservation, identity.value, state), confirmed := s.confirmed + [(key, state)])
        else s.(callers := s.callers[p := ReadingBack(reservation, identity.value, state)])
    case ReadBack(p) =>
      var pc := s.callers[p];
      var key := (pc.reservation.publication, pc.identity.key);
      End(s, p).(confirmed := if Owns(s.rows, pc.reservation, pc.identity) && s.rows[key].state == pc.state
                              then s.confirmed + [(key, pc.state)] else s.confirmed)
    case Die(p) => End(s, p)
  }

  ghost predicate IsRun(lower: Lower, states: seq<State>, actions: seq<Action>) {
    && |states| == |actions| + 1 && states[0] == State(map[], map[], [], [])
    && forall k :: 0 <= k < |actions| ==>
         Enabled(states[k], actions[k]) && states[k + 1] == Next(lower, states[k], actions[k])
  }

  ghost predicate Distinct(issued: seq<Reservation>) {
    forall i, j :: 0 <= i < j < |issued| ==> KeyOf(issued[i]) != KeyOf(issued[j])
  }

  /** The row of an issued reservation is its own, whatever its state. */
  ghost predicate IsIssued(rows: Rows, x: Reservation) {
    Normal(x.identity) && Owns(rows, x, x.identity)
  }

  ghost predicate AllIssued(rows: Rows, issued: seq<Reservation>) {
    forall x :: x in issued ==> IsIssued(rows, x)
  }

  ghost predicate IsConfirmed(rows: Rows, c: (Key, ActionState)) {
    c.1 != Reserved && c.0 in rows && rows[c.0].state == c.1
  }

  ghost predicate AllConfirmed(rows: Rows, confirmed: seq<(Key, ActionState)>) {
    forall c :: c in confirmed ==> IsConfirmed(rows, c)
  }

  ghost predicate CallerInv(pc: Pc) {
    match pc
    case Inserting(x) => Normal(x.identity)
    case ReadingBack(x, identity, state) => state != Reserved
  }

  ghost predicate Covered(rows: Rows, issued: seq<Reservation>) {
    forall key :: key in rows ==> HasIssue(issued, key)
  }

  ghost predicate HasIssue(issued: seq<Reservation>, key: Key) {
    exists i :: 0 <= i < |issued| && KeyOf(issued[i]) == key
  }

  ghost predicate Inv(s: State) {
    && Distinct(s.issued) && AllIssued(s.rows, s.issued) && Covered(s.rows, s.issued)
    && AllConfirmed(s.rows, s.confirmed)
    && forall p :: p in s.callers ==> CallerInv(s.callers[p])
  }

  /** Every row stays, and changes only from reserved to a terminal state. */
  ghost predicate RowsProgress(rows: Rows, rows': Rows) {
    forall key :: key in rows ==> key in rows' && Progresses(rows[key], rows'[key])
  }

  lemma IssuedKept(rows: Rows, rows': Rows, issued: seq<Reservation>)
    requires AllIssued(rows, issued) && RowsProgress(rows, rows')
    ensures AllIssued(rows', issued)
  {
    hide Normal;
    forall x | x in issued
      ensures IsIssued(rows', x)
    {
      assert IsIssued(rows, x);
    }
  }

  lemma ConfirmedKept(rows: Rows, rows': Rows, confirmed: seq<(Key, ActionState)>)
    requires AllConfirmed(rows, confirmed) && RowsProgress(rows, rows')
    ensures AllConfirmed(rows', confirmed)
  {
    forall c | c in confirmed
      ensures IsConfirmed(rows', c)
    {
      assert IsConfirmed(rows, c);
    }
  }

  lemma ConfirmedMore(rows: Rows, confirmed: seq<(Key, ActionState)>, c: (Key, ActionState))
    requires AllConfirmed(rows, confirmed) && IsConfirmed(rows, c)
    ensures AllConfirmed(rows, confirmed + [c])
  {
  }

  lemma UpdateProgress(rows: Rows, x: Reservation, identity: Identity, state: ActionState)
    ensures Updated(rows, x, identity, state).Keys == rows.Keys
    ensures RowsProgress(rows, Updated(rows, x, identity, state))
  {
  }

  lemma CoveredKept(rows: Rows, rows': Rows, issued: seq<Reservation>)
    requires Covered(rows, issued) && rows'.Keys == rows.Keys
    ensures Covered(rows', issued)
  {
    hide HasIssue;
    forall key | key in rows'
      ensures HasIssue(issued, key)
    {
      assert key in rows;
    }
  }

  lemma NextInv(lower: Lower, s: State, a: Action)
    requires Inv(s) && Enabled(s, a)
    ensures Inv(Next(lower, s, a)) && RowsProgress(s.rows, Next(lower, s, a).rows)
  {
    hide Inv, Normal, Normalized, Inserted, Updated, Owns;
    match a
    case Insert(p) => InsertInv(lower, s, p);
    case Update(p, reservation, state) => UpdateInv(lower, s, p, reservation, state);
    case _ => OtherInv(lower, s, a);
  }

  lemma OtherInv(lower: Lower, s: State, a: Action)
    requires Inv(s) && Enabled(s, a) && (a.Select? || a.ReadBack? || a.Die?)
    ensures Inv(Next(lower, s, a)) && Next(lower, s, a).rows == s.rows
  {
    hide Normal, Clean, Distinct, AllIssued, Covered, AllConfirmed, Owns;
    if a.ReadBack? {
      assert CallerInv(s.callers[a.p]);
      ReadBackConfirms(s, a.p);
    }
  }

  lemma ReadBackConfirms(s: State, p: nat)
    requires Inv(s) && Enabled(s, ReadBack(p)) && s.callers[p].state != Reserved
    ensures var pc := s.callers[p]; var key := (pc.reservation.publication, pc.identity.key);
      Owns(s.rows, pc.reservation, pc.identity) && s.rows[key].state == pc.state ==>
        AllConfirmed(s.rows, s.confirmed + [(key, pc.state)])
  {
    hide Normal, Distinct, AllIssued, Covered;
  }

  lemma UpdateInv(lower: Lower, s: State, p: nat, reservation: Reservation, state: ActionState)
    requires Inv(s) && Enabled(s, Update(p, reservation, state))
    ensures var s' := Next(lower, s, Update(p, reservation, state)); Inv(s') && RowsProgress(s.rows, s'.rows)
  {
    hide Normalized, Distinct, AllIssued, Covered, AllConfirmed;
    var s', identity := Next(lower, s, Update(p, reservation, state)), Normalized(lower, reservation.identity);
    if identity.Some? && s'.rows != s.rows {
      UpdateProgress(s.rows, reservation, identity.value, state);
      IssuedKept(s.rows, s'.rows, s.issued);
      ConfirmedKept(s.rows, s'.rows, s.confirmed);
      CoveredKept(s.rows, s'.rows, s.issued);
      ConfirmedMore(s'.rows, s.confirmed, ((reservation.publication, identity.value.key), state));
    } else {
      ConfirmedKept(s.rows, s'.rows, s.confirmed);
    }
  }

  lemma InsertProgress(rows: Rows, x: Reservation)
    requires Normal(x.identity)
    ensures RowsProgress(rows, Inserted(rows, x).0) && Inserted(rows, x).0.Keys == rows.Keys + {KeyOf(x)}
    ensures Inserted(rows, x).1.NewlyReserved? <==> KeyOf(x) !in rows
    ensures KeyOf(x) !in rows ==> IsIssued(Inserted(rows, x).0, x) && Inserted(rows, x).1 == NewlyReserved(x)
  {
    hide Normal;
  }

  lemma IssueMore(rows: Rows, rows': Rows, issued: seq<Reservation>, x: Reservation)
    requires Distinct(issued) && AllIssued(rows, issued) && AllIssued(rows', issued) && Covered(rows, issued)
    requires KeyOf(x) !in rows && rows'.Keys == rows.Keys + {KeyOf(x)} && IsIssued(rows', x)
    ensures Distinct(issued + [x]) && AllIssued(rows', issued + [x]) && Covered(rows', issued + [x])
  {
    hide Normal;
    forall i | 0 <= i < |issued|
      ensures KeyOf(issued[i]) != KeyOf(x)
    {
      assert IsIssued(rows, issued[i]);
    }
    forall key | key in rows'
      ensures HasIssue(issued + [x], key)
    {
      if key in rows {
        assert HasIssue(issued, key);
        var i :| 0 <= i < |issued| && KeyOf(issued[i]) == key;
        assert (issued + [x])[i] == issued[i];
      } else {
        assert (issued + [x])[|issued|] == x;
      }
    }
  }

  lemma InsertInv(lower: Lower, s: State, p: nat)
    requires Inv(s) && Enabled(s, Insert(p))
    ensures Inv(Next(lower, s, Insert(p))) && RowsProgress(s.rows, Next(lower, s, Insert(p)).rows)
  {
    hide Normal, Distinct, AllIssued, Covered, AllConfirmed, Inserted, IsIssued, RowsProgress;
    var s', x := Next(lower, s, Insert(p)), s.callers[p].reservation;
    assert CallerInv(s.callers[p]);
    InsertProgress(s.rows, x);
    IssuedKept(s.rows, s'.rows, s.issued);
    ConfirmedKept(s.rows, s'.rows, s.confirmed);
    if KeyOf(x) in s.rows {
      assert s'.rows.Keys == s.rows.Keys;
      CoveredKept(s.rows, s'.rows, s.issued);
    } else {
      IssueMore(s.rows, s'.rows, s.issued, x);
    }
  }

  lemma {:induction false} ReachableInv(lower: Lower, states: seq<State>, actions: seq<Action>, k: nat)
    requires IsRun(lower, states, actions) && k < |states|
    ensures Inv(states[k])
  {
    if k > 0 {
      ReachableInv(lower, states, actions, k - 1);
      hide Inv, Next, Enabled;
      NextInv(lower, states[k - 1], actions[k - 1]);
    }
  }

  /******* Main results *******/

  /** Over every interleaving, a new reservation is issued at most once for a publication and normalised key. */
  lemma ReservedAtMostOnce(lower: Lower, states: seq<State>, actions: seq<Action>, k: nat, i: nat, j: nat)
    requires IsRun(lower, states, actions) && k < |states| && i < j < |states[k].issued|
    ensures KeyOf(states[k].issued[i]) != KeyOf(states[k].issued[j])
    ensures Normal(states[k].issued[i].identity) && Normal(states[k].issued[j].identity)
  {
    hide Normal;
    ReachableInv(lower, states, actions, k);
    assert IsIssued(states[k].rows, states[k].issued[i]) && IsIssued(states[k].rows, states[k].issued[j]);
  }

  ghost predicate IssuedAs(s: State, x: Reservation, key: Key) {
    KeyOf(x) == key && Owns(s.rows, x, x.identity)
  }

  /** Every row was issued, exactly once, to the caller whose token and intent it carries. */
  lemma RowsAreIssued(lower: Lower, states: seq<State>, actions: seq<Action>, k: nat, key: Key)
    requires IsRun(lower, states, actions) && k < |states| && key in states[k].rows
    ensures exists i :: 0 <= i < |states[k].issued| && IssuedAs(states[k], states[k].issued[i], key)
  {
    hide Normal;
    ReachableInv(lower, states, actions, k);
    assert HasIssue(states[k].issued, key);
    var i :| 0 <= i < |states[k].issued| && KeyOf(states[k].issued[i]) == key;
    assert IsIssued(states[k].rows, states[k].issued[i]);
    assert IssuedAs(states[k], states[k].issued[i], key);
  }

  /** A row is never deleted, and its state changes at most once: a terminal row stays as it is. */
  lemma {:induction false} StateChangesOnce(
    lower: Lower, states: seq<State>, actions: seq<Action>, i: nat, j: nat, key: Key)
    requires IsRun(lower, states, actions) && i <= j < |states| && key in states[i].rows
    ensures key in states[j].rows && Progresses(states[i].rows[key], states[j].rows[key])
    decreases j
  {
    hide Inv, Next, Enabled;
    if i < j {
      StateChangesOnce(lower, states, actions, i, j - 1, key);
      ReachableInv(lower, states, actions, j - 1);
      NextInv(lower, states[j - 1], actions[j - 1]);
    }
  }

  /** When a finish has returned true, the stored state is the one requested, then and ever after. */
  lemma FinishTellsTheTruth(
    lower: Lower, states: seq<State>, actions: seq<Action>, i: nat, j: nat, c: (Key, ActionState))
    requires IsRun(lower, states, actions) && i <= j < |states| && c in states[i].confirmed
    ensures c.0 in states[j].rows && states[j].rows[c.0].state == c.1 != Reserved
  {
    ReachableInv(lower, states, actions, i);
    assert IsConfirmed(states[i].rows, c);
    StateChangesOnce(lower, states, actions, i, j, c.0);
  }
}
