/**
 The delivery action ledger: normalised identities, the rows, and `reserve` and `_finish`.
 */
module ActionLedger {
  import opened Wrappers
  import opened Text

  /******* Identity *******/

  predicate KeyHead(c: char) {
    'a' <= c <= 'z' || '0' <= c <= '9'
  }

  predicate KeyChar(c: char) {
    KeyHead(c) || c == ':' || c == '_' || c == '-'
  }

  /** `_ACTION_KEY_RE`. */
  predicate IsKey(s: string) {
    1 <= |s| <= 160 && KeyHead(s[0]) && forall i :: 0 <= i < |s| ==> KeyChar(s[i])
  }

  predicate HexDigit(c: char) {
    'a' <= c <= 'f' || '0' <= c <= '9'
  }

  /** `_FINGERPRINT_RE`. */
  predicate IsFingerprint(s: string) {
    |s| == 64 && forall i :: 0 <= i < |s| ==> HexDigit(s[i])
  }

  predicate IsActionType(s: string) {
    s == "pin" || s == "forward"
  }

  predicate StartsWith(s: string, prefix: string) {
    prefix <= s
  }

  datatype Identity = Identity(key: string, action: string, fingerprint: string)

  /** By code point: a lower-case ASCII letter or a digit. */
  predicate Alphanumeric(c: char) {
    97 <= c as int <= 122 || 48 <= c as int <= 57
  }

  predicate Hexadecimal(c: char) {
    97 <= c as int <= 102 || 48 <= c as int <= 57
  }

  /**
   A stored identity: the action is "pin" or "forward" and stands before the first colon of the key,
   which has at most 160 of the permitted characters; the fingerprint is 64 hexadecimal digits.
   */
  predicate Normal(x: Identity) {
    && x.action in ["pin", "forward"]
    && x.action + ":" <= x.key && |x.key| <= 160 && Alphanumeric(x.key[0])
    && (forall c :: c in x.key ==> Alphanumeric(c) || c in ":_-")
    && |x.fingerprint| == 64 && (forall c :: c in x.fingerprint ==> Hexadecimal(c))
  }

  lemma ChecksAgree(x: Identity)
    ensures Normal(x) <==>
      IsActionType(x.action) && IsKey(x.key) && StartsWith(x.key, x.action + ":") && IsFingerprint(x.fingerprint)
  {
    assert forall i :: 0 <= i < |x.key| ==> x.key[i] in x.key;
    assert forall i :: 0 <= i < |x.fingerprint| ==> x.fingerprint[i] in x.fingerprint;
    assert forall c: char :: c in ":_-" <==> c == ':' || c == '_' || c == '-';
  }

  /**
   `str.lower` is a parameter: outside ASCII all that matters is that it leaves strings of lower-case
   ASCII letters, digits and the key's punctuation alone.
   */
  type Lower = string -> string

  ghost predicate KeepsKeys(lower: Lower) {
    forall s: string :: (forall i :: 0 <= i < |s| ==> KeyChar(s[i])) ==> lower(s) == s
  }

  function Clean(lower: Lower, s: string): string {
    lower(Strip(s))
  }

  /** `_normalized_identity`. */
  function Normalized(lower: Lower, raw: Identity): (r: Option<Identity>)
    ensures var x := Identity(lower(Strip(raw.key)), lower(Strip(raw.action)), lower(Strip(raw.fingerprint)));
      r == if Normal(x) then Some(x) else None
  {
    var x := Identity(Clean(lower, raw.key), Clean(lower, raw.action), Clean(lower, raw.fingerprint));
    ChecksAgree(x);
    if IsActionType(x.action) && IsKey(x.key) && StartsWith(x.key, x.action + ":") && IsFingerprint(x.fingerprint)
    then Some(x) else None
  }

  lemma KeyCharsAreClean(lower: Lower, s: string)
    requires KeepsKeys(lower) && forall i :: 0 <= i < |s| ==> KeyChar(s[i])
    ensures Clean(lower, s) == s
  {
    StripStripped(s);
  }

  lemma PartsAreKeyChars(x: Identity)
    requires Normal(x)
    ensures forall i :: 0 <= i < |x.action| ==> KeyChar(x.action[i])
    ensures forall i :: 0 <= i < |x.fingerprint| ==> KeyChar(x.fingerprint[i])
    ensures forall i :: 0 <= i < |x.key| ==> KeyChar(x.key[i])
  {
    ChecksAgree(x);
  }

  /**
   Normal identities are exactly the fixed points of normalisation, so a stored identity is read back
   as itself and two callers agree on a key exactly when their normal forms are equal.
   */
  lemma NormalIsFixed(lower: Lower, x: Identity)
    requires KeepsKeys(lower)
    ensures Normal(x) <==> Normalized(lower, x) == Some(x)
  {
    hide Normal, Strip, KeyChar, KeyHead, HexDigit;
    if Normal(x) {
      PartsAreKeyChars(x);
      KeyCharsAreClean(lower, x.key);
      KeyCharsAreClean(lower, x.action);
      KeyCharsAreClean(lower, x.fingerprint);
    }
  }

  lemma NormalizedTwice(lower: Lower, raw: Identity)
    requires KeepsKeys(lower) && Normalized(lower, raw).Some?
    ensures Normalized(lower, Normalized(lower, raw).value) == Normalized(lower, raw)
  {
    NormalIsFixed(lower, Normalized(lower, raw).value);
  }

  /** The key determines the action type. */
  lemma KeyNamesAction(x: Identity, y: Identity)
    requires Normal(x) && Normal(y) && x.key == y.key
    ensures x.action == y.action
  {
    assert x.key[0] == (x.action + ":")[0] && y.key[0] == (y.action + ":")[0];
  }

  /******* Rows *******/

  datatype ActionState = Reserved | Succeeded | Unknown | Suppressed

  datatype Row = Row(action: string, fingerprint: string, token: string, state: ActionState)

  /** Primary key: publication and normalised action key. */
  type Key = (int, string)
  type Rows = map<Key, Row>

  datatype Handle = Handle(publication: int, token: string)

  datatype Reservation = Reservation(publication: int, identity: Identity, token: string)

  datatype Outcome =
    | NewlyReserved(reservation: Reservation)
    | AlreadyReserved(existing: ActionState)
    | Conflict(found: Option<ActionState>)
    | Ineligible

  function KeyOf(x: Reservation): Key {
    (x.publication, x.identity.key)
  }

  function RowOf(x: Reservation): Row {
    Row(x.identity.action, x.identity.fingerprint, x.token, Reserved)
  }

  /** The answer given for a row that is already there. */
  function Existing(row: Row, identity: Identity): Outcome {
    if row.action == identity.action && row.fingerprint == identity.fingerprint then AlreadyReserved(row.state)
    else Conflict(Some(row.state))
  }

  /** The insert, refused by the primary key when the row exists. */
  function Inserted(rows: Rows, x: Reservation): (r: (Rows, Outcome)) {
    if KeyOf(x) in rows then (rows, Existing(rows[KeyOf(x)], x.identity))
    else (rows[KeyOf(x) := RowOf(x)], NewlyReserved(x))
  }

  /** The row is the reservation's, in some state. */
  predicate Owns(rows: Rows, x: Reservation, identity: Identity) {
    var key := (x.publication, identity.key);
    && key in rows && rows[key].action == identity.action && rows[key].fingerprint == identity.fingerprint
    && rows[key].token == x.token
  }

  /** The guarded update of `_finish`. */
  function Updated(rows: Rows, x: Reservation, identity: Identity, state: ActionState): Rows {
    var key := (x.publication, identity.key);
    if Owns(rows, x, identity) && rows[key].state == Reserved then rows[key := rows[key].(state := state)] else rows
  }

  /** A row changes at most once, from reserved to a terminal state. */
  predicate Progresses(row: Row, row': Row) {
    row' == row || (row.state == Reserved && row' == row.(state := row'.state))
  }

  class CanonicalPublicationDeliveryActionLedger {
    var rows: Rows
    const lower: Lower

    constructor (lower: Lower)
      ensures rows == map[] && this.lower == lower
    {
      this.rows, this.lower := map[], lower;
    }

    /** `live` and `barrier` are the answers of the lifecycle and no-replay checks. */
    method Reserve(handle: Handle, raw: Identity, live: bool, barrier: bool) returns (r: Outcome)
      modifies this`rows
      ensures r.Ineligible? <==>
        Normalized(lower, raw).None? || handle.publication <= 0 || handle.token == "" || !live
      ensures !r.Ineligible? && barrier ==> r == Conflict(None)
      ensures !r.Ineligible? && !barrier ==>
        var identity := Normalized(lower, raw).value;
        var key := (handle.publication, identity.key);
        && (r.NewlyReserved? <==> key !in old(rows))
        && (r.AlreadyReserved? <==>
              && key in old(rows) && old(rows)[key].action == identity.action
              && old(rows)[key].fingerprint == identity.fingerprint)
        && (key in old(rows) ==>
              r == AlreadyReserved(old(rows)[key].state) || r == Conflict(Some(old(rows)[key].state)))
      ensures r.NewlyReserved? ==>
        var identity := Normalized(lower, raw).value;
        && r.reservation == Reservation(handle.publication, identity, handle.token)
        && rows == old(rows)[(handle.publication, identity.key) :=
                               Row(identity.action, identity.fingerprint, handle.token, Reserved)]
      ensures !r.NewlyReserved? ==> rows == old(rows)
    {
      hide Normal, Clean;
      var identity := Normalized(lower, raw);
      if identity.None? {
        return Ineligible;
      }
      if handle.publication <= 0 || handle.token == "" || !live {
        return Ineligible;
      }
      if barrier {
        return Conflict(None);
      }
      var reservation := Reservation(handle.publication, identity.value, handle.token);
      if KeyOf(reservation) in rows {
        return Existing(rows[KeyOf(reservation)], identity.value);
      }
      var result := Inserted(rows, reservation);
      rows := result.0;
      r := result.1;
    }

    /** Records a terminal state once; true exactly when the reservation's row now holds it. */
    method Finish(reservation: Reservation, state: ActionState) returns (ok: bool)
      requires state != Reserved
      modifies this`rows
      ensures var identity := Normalized(lower, reservation.identity);
        && (ok ==> identity.Some?)
        && (identity.Some? ==>
              var x := identity.value;
              var key := (reservation.publication, x.key);
              && (ok <==> reservation.token != "" && key in rows
                          && rows[key] == Row(x.action, x.fingerprint, reservation.token, state))
              && rows == if reservation.token != "" && key in old(rows)
                            && old(rows)[key] == Row(x.action, x.fingerprint, reservation.token, Reserved)
                         then old(rows)[key := old(rows)[key].(state := state)] else old(rows))
        && (identity.None? || reservation.token == "" ==> rows == old(rows))
      ensures rows.Keys == old(rows).Keys && forall key :: key in rows ==> Progresses(old(rows)[key], rows[key])
    {
      hide Normal, Clean;
      var identity := Normalized(lower, reservation.identity);
      if identity.None? || reservation.token == "" {
        return false;
      }
      var key := (reservation.publication, identity.value.key);
      var matched := Owns(rows, reservation, identity.value) && rows[key].state == Reserved;
      rows := Updated(rows, reservation, identity.value, state);
      if matched {
        return true;
      }
      return Owns(rows, reservation, identity.value) && rows[key].state == state;
    }
  }
}
