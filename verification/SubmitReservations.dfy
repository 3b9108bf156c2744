/** The fenced submit reservation (backend/src/modules/execution/submit-reservation.store.ts and
    postgres-submit-reservation.store.ts).  Clock readings and owner tokens are parameters. */
module SubmitReservations {
  import opened HedgeRoute

  datatype Reservation = Reservation(quoteId: nat, ownerToken: nat, expiresAt: nat)

  type Reservations = map<nat, Reservation>

  /** A quote is free when it has no reservation or one that has expired. */
  predicate Free(table: Reservations, quoteId: nat, now: nat) {
    quoteId !in table || table[quoteId].expiresAt <= now
  }

  function Acquired(table: Reservations, quoteId: nat, owner: nat, now: nat, leaseMs: nat): Reservations {
    if Free(table, quoteId, now) then table[quoteId := Reservation(quoteId, owner, now + leaseMs)] else table
  }

  function Released(table: Reservations, r: Reservation): Reservations {
    if r.quoteId in table && table[r.quoteId].ownerToken == r.ownerToken then table - {r.quoteId} else table
  }

  class InMemoryStore {
    const leaseMs: nat
    var reservations: Reservations

    constructor (leaseMs: nat)
      ensures this.leaseMs == leaseMs && reservations == map[]
    {
      this.leaseMs, reservations := leaseMs, map[];
    }

    method Acquire(quoteId: nat, owner: nat, now: nat) returns (granted: Option<Reservation>)
      modifies this
      ensures reservations == Acquired(old(reservations), quoteId, owner, now, leaseMs)
      ensures granted == if Free(old(reservations), quoteId, now)
                         then Some(Reservation(quoteId, owner, now + leaseMs)) else None
      ensures granted.Some? <==> quoteId !in old(reservations) || old(reservations)[quoteId].expiresAt <= now
      ensures granted.Some? ==> granted.value == Reservation(quoteId, owner, now + leaseMs)
      ensures reservations == if granted.Some? then old(reservations)[quoteId := granted.value] else old(reservations)
    {
      if quoteId in reservations {
        var current := reservations[quoteId];
        if current.expiresAt > now { return None; }
      }
      var reservation := Reservation(quoteId, owner, now + leaseMs);
      reservations := reservations[quoteId := reservation];
      granted := Some(reservation);
    }

    method Release(reservation: Reservation)
      modifies this
      ensures reservations == Released(old(reservations), reservation)
      ensures reservations == old(reservations)
                              - if reservation.quoteId in old(reservations)
                                   && old(reservations)[reservation.quoteId].ownerToken == reservation.ownerToken
                                then {reservation.quoteId} else {}
    {
      if reservation.quoteId !in reservations { return; }
      if reservations[reservation.quoteId].ownerToken == reservation.ownerToken {
        reservations := reservations - {reservation.quoteId};
      }
    }
  }

  datatype TableRow = TableRow(owner: nat, acquiredAt: nat, expiresAt: nat)

  /** The reservations a table of rows holds. */
  function AsReservations(rows: map<nat, TableRow>): Reservations {
    map q | q in rows :: Reservation(q, rows[q].owner, rows[q].expiresAt)
  }

  /** The Postgres store: the same grants, the same releases, whatever acquired_at holds. */
  class PostgresStore {
    const leaseMs: nat
    var rows: map<nat, TableRow>

    constructor (leaseMs: nat)
      ensures this.leaseMs == leaseMs && AsReservations(rows) == map[]
    {
      this.leaseMs, rows := leaseMs, map[];
    }

    /** INSERT ... ON CONFLICT DO UPDATE ... WHERE expires_at <= now() RETURNING. */
    method Acquire(quoteId: nat, owner: nat, now: nat) returns (granted: Option<Reservation>)
      modifies this
      ensures AsReservations(rows) == Acquired(AsReservations(old(rows)), quoteId, owner, now, leaseMs)
      ensures granted == if Free(AsReservations(old(rows)), quoteId, now)
                         then Some(Reservation(quoteId, owner, now + leaseMs)) else None
      ensures granted.Some? <==> quoteId !in old(rows) || old(rows)[quoteId].expiresAt <= now
      ensures granted.Some? ==> granted.value == Reservation(quoteId, owner, now + leaseMs)
      ensures rows == if granted.Some? then old(rows)[quoteId := TableRow(owner, now, now + leaseMs)] else old(rows)
    {
      var candidate := TableRow(owner, now, now + leaseMs);
      var returned: Option<TableRow> := None;
      if quoteId !in rows {
        rows := rows[quoteId := candidate];
        returned := Some(candidate);
      } else if rows[quoteId].expiresAt <= now {
        rows := rows[quoteId := rows[quoteId].(owner := candidate.owner, acquiredAt := candidate.acquiredAt,
                                               expiresAt := candidate.expiresAt)];
        returned := Some(rows[quoteId]);
      }
      if returned.None? { return None; }
      granted := Some(Reservation(quoteId, returned.value.owner, returned.value.expiresAt));
    }

    /** DELETE ... WHERE quote_id = $1 AND owner_token = $2. */
    method Release(reservation: Reservation)
      modifies this
      ensures AsReservations(rows) == Released(AsReservations(old(rows)), reservation)
      ensures rows == old(rows) - if reservation.quoteId in old(rows)
                                     && old(rows)[reservation.quoteId].owner == reservation.ownerToken
                                  then {reservation.quoteId} else {}
    {
      rows := map q | q in rows && !(q == reservation.quoteId && rows[q].owner == reservation.ownerToken) :: rows[q];
    }
  }

  // ---------------------------------------------------------------- runs

  datatype Op =
    | Acquire(quoteId: nat, owner: nat)
    | Release(reservation: Reservation)
    | Wait(ms: nat)

  datatype State = State(now: nat, leaseMs: nat, table: Reservations, granted: set<Reservation>, released: set<nat>)

  predicate Fresh(s: State, owner: nat) {
    owner !in s.released && forall r :: r in s.granted ==> r.ownerToken != owner
  }

  /** Owner tokens are unique; a caller releases what it was granted. */
  predicate Allowed(s: State, op: Op) {
    match op
    case Acquire(_, owner) => Fresh(s, owner)
    case Release(r) => r in s.granted
    case Wait(_) => true
  }

  function Apply(s: State, op: Op): State {
    match op
    case Acquire(q, owner) =>
      s.(table := Acquired(s.table, q, owner, s.now, s.leaseMs),
         granted := if Free(s.table, q, s.now) then s.granted + {Reservation(q, owner, s.now + s.leaseMs)} else s.granted)
    case Release(r) => s.(table := Released(s.table, r), released := s.released + {r.ownerToken})
    case Wait(ms) => s.(now := s.now + ms)
  }

  predicate LegalRun(s: State, ops: seq<Op>)
    decreases |ops|
  {
    ops == [] || (Allowed(s, ops[0]) && LegalRun(Apply(s, ops[0]), ops[1..]))
  }

  function AfterRun(s: State, ops: seq<Op>): State
    decreases |ops|
  {
    if ops == [] then s else AfterRun(Apply(s, ops[0]), ops[1..])
  }

  /** A granted reservation that is neither released nor expired. */
  predicate Holds(s: State, r: Reservation) { r in s.granted && r.ownerToken !in s.released && r.expiresAt > s.now }

  predicate HeldInTable(s: State, r: Reservation) { Holds(s, r) ==> r.quoteId in s.table && s.table[r.quoteId] == r }

  predicate Fenced(s: State) {
    && (forall r :: r in s.granted ==> HeldInTable(s, r))
    && (forall q :: q in s.table ==> s.table[q] in s.granted && s.table[q].quoteId == q)
    && (forall a, b :: a in s.granted && b in s.granted && a.ownerToken == b.ownerToken ==> a == b)
  }

  lemma FencedStep(s: State, op: Op)
    requires Fenced(s) && Allowed(s, op)
    ensures Fenced(Apply(s, op))
  {
    var s' := Apply(s, op);
    forall r | r in s'.granted ensures HeldInTable(s', r) {
      if r in s.granted { assert HeldInTable(s, r); }
    }
  }

  lemma {:induction false} FencedRun(s: State, ops: seq<Op>)
    requires Fenced(s) && LegalRun(s, ops)
    ensures Fenced(AfterRun(s, ops))
    decreases |ops|
  {
    if ops != [] {
      FencedStep(s, ops[0]);
      FencedRun(Apply(s, ops[0]), ops[1..]);
    }
  }

  /** After any run a quote has at most one unexpired holder, and that holder's reservation is the stored one. */
  lemma AtMostOneHolder(leaseMs: nat, start: nat, ops: seq<Op>, a: Reservation, b: Reservation)
    requires LegalRun(State(start, leaseMs, map[], {}, {}), ops)
    requires var s := AfterRun(State(start, leaseMs, map[], {}, {}), ops);
             Holds(s, a) && Holds(s, b) && a.quoteId == b.quoteId
    ensures var table := AfterRun(State(start, leaseMs, map[], {}, {}), ops).table;
            a == b && a.quoteId in table && table[a.quoteId] == a
  {
    var init := State(start, leaseMs, map[], {}, {});
    FencedRun(init, ops);
    var s := AfterRun(init, ops);
    assert HeldInTable(s, a) && HeldInTable(s, b);
  }

  /** A late release never takes away someone else's reservation: every other holder still holds. */
  lemma LateReleaseHarmless(leaseMs: nat, start: nat, ops: seq<Op>, late: Reservation, holder: Reservation)
    requires LegalRun(State(start, leaseMs, map[], {}, {}), ops)
    requires var s := AfterRun(State(start, leaseMs, map[], {}, {}), ops);
             late in s.granted && Holds(s, holder) && holder != late
    ensures var s' := Apply(AfterRun(State(start, leaseMs, map[], {}, {}), ops), Release(late));
            Holds(s', holder) && holder.quoteId in s'.table && s'.table[holder.quoteId] == holder
  {
    var init := State(start, leaseMs, map[], {}, {});
    FencedRun(init, ops);
    FencedStep(AfterRun(init, ops), Release(late));
    assert HeldInTable(AfterRun(init, ops), holder);
  }

  /** A free quote is granted and a held one refused, after any run: no reservation outlives its holder. */
  lemma GrantedExactlyWhenFree(leaseMs: nat, start: nat, ops: seq<Op>, quoteId: nat)
    requires LegalRun(State(start, leaseMs, map[], {}, {}), ops)
    ensures var s := AfterRun(State(start, leaseMs, map[], {}, {}), ops);
            Free(s.table, quoteId, s.now) <==> forall r :: r in s.granted && Holds(s, r) ==> r.quoteId != quoteId
  {
    var init := State(start, leaseMs, map[], {}, {});
    FencedRun(init, ops);
    StoredUnreleased(init, ops);
    var s := AfterRun(init, ops);
    if Free(s.table, quoteId, s.now) {
      forall r | r in s.granted && Holds(s, r) ensures r.quoteId != quoteId { assert HeldInTable(s, r); }
    } else {
      assert Holds(s, s.table[quoteId]);
    }
  }

  lemma {:induction false} StoredUnreleased(s: State, ops: seq<Op>)
    requires Fenced(s) && LegalRun(s, ops)
    requires forall q :: q in s.table ==> s.table[q].ownerToken !in s.released
    ensures forall q :: q in AfterRun(s, ops).table ==>
              AfterRun(s, ops).table[q].ownerToken !in AfterRun(s, ops).released
    decreases |ops|
  {
    if ops != [] {
      var s' := Apply(s, ops[0]);
      FencedStep(s, ops[0]);
      forall q | q in s'.table ensures s'.table[q].ownerToken !in s'.released {
        if ops[0].Release? && q in s.table { assert s.table[q] in s.granted; }
      }
      StoredUnreleased(s', ops[1..]);
    }
  }
}
