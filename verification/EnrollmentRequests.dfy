/** Durable face-enrollment receipts: one accepted enrollment, bound to the generation, device, actor
    and target it was authorized for, ends exactly once. */
module EnrollmentRequests {
  import opened Outcomes
  import opened SecuritySchema
  import opened SecurityState
  import Store = SecurityStore

  type RequestId = string
  type SessionId = string

  datatype State = Accepted | Active | Completed | Failed | Cancelled | Interrupted {
    predicate Pending() {
      Accepted? || Active?
    }
  }

  /** The primary key; every receipt is for the one action enrollment.start. */
  datatype Key = Key(generation: nat, device: Id, request: RequestId)

  /** The stored digest stands for the target it hashes; all else in the body is constant. */
  datatype Row = Row(
    key: Key,
    actor: Id,
    actorVersion: nat,
    target: Id,
    targetVersion: nat,
    state: State,
    result: Option<string>,
    created: int,
    updated: int)

  datatype Error = Denied(code: Store.Code) | NotFound | NotActive | AuthorizationExpired | RequestIdReused | InvalidUser

  /** What a reservation answers, the first time and on every replay. */
  datatype Reservation = Reservation(request: RequestId, session: SessionId, actor: Id, device: Id, actorVersion: nat, target: Id)

  function ReservationOf(s: SessionId, row: Row): Reservation {
    Reservation(row.key.request, s, row.actor, row.key.device, row.actorVersion, row.target)
  }

  // ---- One receipt's life ----

  /** One step of one receipt: nothing, or a new state on an unchanged reservation. */
  predicate RowStep(a: Row, b: Row) {
    || a == b
    || (&& b == a.(state := b.state, result := b.result, updated := b.updated)
        && ((a.state.Accepted? && b.state.Active? && b.result == a.result)
            || (a.state.Active? && b.state.Completed? && b.result.Some?)
            || (a.state.Pending() && (b.state.Failed? || b.state.Cancelled? || b.state.Interrupted?) && b.result.Some?)))
  }

  predicate Progresses(a: map<SessionId, Row>, b: map<SessionId, Row>) {
    forall s :: s in a ==> s in b && RowStep(a[s], b[s])
  }

  predicate Run(history: seq<map<SessionId, Row>>) {
    forall i :: 0 <= i < |history| - 1 ==> Progresses(history[i], history[i + 1])
  }

  lemma RunExtends(history: seq<map<SessionId, Row>>, next: map<SessionId, Row>)
    requires Run(history) && history != [] && Progresses(history[|history| - 1], next)
    ensures Run(history + [next])
  {
  }

  /** The history ends in the receipts as they are. */
  predicate Past(history: seq<map<SessionId, Row>>, rows: map<SessionId, Row>) {
    history != [] && history[|history| - 1] == rows && Run(history)
  }

  /** Past, kept folded. */
  ghost predicate Remembered(history: seq<map<SessionId, Row>>, rows: map<SessionId, Row>) {
    forall h :: h == history ==> Past(h, rows)
  }

  lemma PastExtends(history: seq<map<SessionId, Row>>, rows: map<SessionId, Row>, next: map<SessionId, Row>)
    requires Remembered(history, rows) && Progresses(rows, next)
    ensures Remembered(history + [next], next)
  {
    assert Past(history, rows);
    RunExtends(history, next);
    assert Past(history + [next], next);
  }

  /** Over any run of the store, a receipt that has ended never changes again, and no receipt ever
      answers differently. */
  lemma {:induction false} EndedReceiptsAreFinal(history: seq<map<SessionId, Row>>, i: nat, j: nat, s: SessionId)
    requires Run(history) && i <= j < |history| && s in history[i]
    ensures s in history[j]
    ensures ReservationOf(s, history[j][s]) == ReservationOf(s, history[i][s])
    ensures !history[i][s].state.Pending() ==> history[j][s] == history[i][s]
    decreases j - i
  {
    if i < j {
      assert Progresses(history[i], history[i + 1]);
      EndedReceiptsAreFinal(history, i + 1, j, s);
    }
  }

  /** The receipt is accepted from step `i` on and first active at step `k`. */
  ghost predicate ActivatedAt(history: seq<map<SessionId, Row>>, i: nat, k: nat, s: SessionId) {
    && i < k < |history| && s in history[k] && history[k][s].state.Active?
    && (forall m :: i <= m < k ==> s in history[m] && history[m][s].state.Accepted?)
  }

  /** A completed receipt was accepted, then active, and never anything else before. */
  lemma {:induction false} CompletedWasActive(history: seq<map<SessionId, Row>>, i: nat, j: nat, s: SessionId)
    requires Run(history) && i <= j < |history| && s in history[i] && s in history[j]
    requires history[i][s].state.Accepted? && history[j][s].state.Completed?
    ensures exists k: nat :: k < j && ActivatedAt(history, i, k, s)
    decreases j - i
  {
    assert Progresses(history[i], history[i + 1]);
    var next := history[i + 1][s];
    if next.state.Accepted? {
      CompletedWasActive(history, i + 1, j, s);
      var k: nat :| k < j && ActivatedAt(history, i + 1, k, s);
      assert ActivatedAt(history, i, k, s);
    } else {
      EndedReceiptsAreFinal(history, i + 1, j, s);
      assert ActivatedAt(history, i, i + 1, s);
    }
  }

  // ---- Receipts and the database ----

  /** A receipt remembers the authority it was reserved under. */
  ghost predicate Remembers(row: Row, origin: Db) {
    && Generation(origin) == row.key.generation
    && row.actor in origin.security && origin.security[row.actor].version == row.actorVersion
    && row.target in origin.security && origin.security[row.target].version == row.targetVersion
    && (origin.security[row.actor].admin || row.actor == row.target)
  }

  ghost predicate ReceiptsOk(rows: map<SessionId, Row>, origins: map<SessionId, Db>, db: Db) {
    && rows.Keys <= origins.Keys
    && (forall s :: s in rows ==> Evolves(origins[s], db) && Remembers(rows[s], origins[s]))
    && RowsOk(rows)
  }

  /** A receipt has its result once it is no longer pending, and every receipt its own key. */
  predicate RowsOk(rows: map<SessionId, Row>) {
    && (forall s :: s in rows ==> (rows[s].result.None? <==> rows[s].state.Pending()))
    && (forall s, t :: s in rows && t in rows && rows[s].key == rows[t].key ==> s == t)
  }

  /** ReceiptsOk, kept folded. */
  ghost predicate Recorded(rows: map<SessionId, Row>, origins: map<SessionId, Db>, db: Db) {
    forall r :: r == rows ==> ReceiptsOk(r, origins, db)
  }

  /** Whatever the other operations do, they keep the receipts sound. */
  lemma EvolutionKeeps(rows: map<SessionId, Row>, origins: map<SessionId, Db>, a: Db, b: Db)
    requires Recorded(rows, origins, a) && Evolves(a, b)
    ensures Recorded(rows, origins, b)
  {
    assert ReceiptsOk(rows, origins, a);
    forall s | s in rows ensures Evolves(origins[s], b) {
      EvolvesTransitively(origins[s], a, b);
    }
    assert ReceiptsOk(rows, origins, b);
  }

  lemma PutKeepsRows(rows: map<SessionId, Row>, s: SessionId, row: Row)
    requires RowsOk(rows) && s in rows && RowStep(rows[s], row)
    ensures RowsOk(rows[s := row]) && Progresses(rows, rows[s := row])
  {
  }

  lemma PutKeeps(rows: map<SessionId, Row>, origins: map<SessionId, Db>, db: Db, s: SessionId, row: Row)
    requires Recorded(rows, origins, db) && s in rows && RowStep(rows[s], row)
    ensures Recorded(rows[s := row], origins, db) && Progresses(rows, rows[s := row])
  {
    assert ReceiptsOk(rows, origins, db);
    PutKeepsRows(rows, s, row);
    assert ReceiptsOk(rows[s := row], origins, db);
  }

  predicate KeyFree(rows: map<SessionId, Row>, key: Key) {
    forall s :: s in rows ==> rows[s].key != key
  }

  lemma InsertKeeps(rows: map<SessionId, Row>, origins: map<SessionId, Db>, db: Db, s: SessionId, row: Row)
    requires Recorded(rows, origins, db) && s !in rows && KeyFree(rows, row.key)
    requires Remembers(row, db) && row.state.Accepted? && row.result.None?
    ensures Recorded(rows[s := row], origins[s := db], db) && Progresses(rows, rows[s := row])
  {
    assert ReceiptsOk(rows, origins, db);
    assert Follows(db, db);
    assert ReceiptsOk(rows[s := row], origins[s := db], db);
  }

  // ---- Completion authority ----

  predicate ActorStands(db: Db, row: Row, now: int) {
    && row.key.device in db.devices && db.devices[row.key.device].user == row.actor
    && row.actor in db.users && row.actor in db.security
    && Store.PrincipalRowActive(db, row.key.device, now)
    && db.security[row.actor].version == row.actorVersion
  }

  predicate TargetStands(db: Db, row: Row) {
    Store.SecurityUser(db, row.target) && db.security[row.target].version == row.targetVersion
  }

  /** Activation and completion ask for the authority again. */
  function CompletionRefusal(db: Db, row: Row, now: int): Option<Error> {
    if db.lifecycle.None? then Some(Denied(Store.CommissioningUnavailable))
    else if Generation(db) != row.key.generation || !ActorStands(db, row, now) || !TargetStands(db, row) then Some(AuthorizationExpired)
    else if !db.security[row.actor].admin && row.target != row.actor then Some(Denied(Store.TargetNotAllowed))
    else if !Store.OwnerControls(db, IsOwner(db, row.actor), EnrollmentStart, Some(row.target)) then Some(Denied(Store.OwnerRequired))
    else None
  }

  /** Equal versions mean nothing about either account has changed since the reservation, so the role
      check can no longer fail by itself. */
  lemma UnexpiredAuthorityIsUnchanged(rows: map<SessionId, Row>, origins: map<SessionId, Db>, db: Db, s: SessionId, now: int)
    requires Recorded(rows, origins, db) && s in rows && CompletionRefusal(db, rows[s], now) != Some(AuthorizationExpired) && db.lifecycle.Some?
    ensures s in origins && Evolves(origins[s], db) && Generation(origins[s]) == Generation(db)
    ensures SameIdentity(origins[s], db, rows[s].actor) && SameIdentity(origins[s], db, rows[s].target)
    ensures CompletionRefusal(db, rows[s], now) != Some(Denied(Store.TargetNotAllowed))
  {
    assert ReceiptsOk(rows, origins, db);
    assert Follows(origins[s], db);
  }

  function Interrupt(row: Row, now: int): Row {
    if row.state.Pending() then row.(state := Interrupted, result := Some("interrupted"), updated := now) else row
  }

  class EnrollmentRequestStore {
    const security: Store.SecurityStore
    var rows: map<SessionId, Row>
    ghost var origins: map<SessionId, Db>   // the database each receipt was reserved in
    ghost var history: seq<map<SessionId, Row>>   // the receipts since the product was last reset

    ghost predicate Valid()
      reads this, security
    {
      security.Valid() && Recorded(rows, origins, security.db) && Remembered(history, rows)
    }

    constructor (security: Store.SecurityStore)
      requires security.Valid()
      ensures Valid() && this.security == security && rows == map[]
    {
      this.security := security;
      rows, origins, history := map[], map[], [map[]];
      assert ReceiptsOk(map[], map[], security.db);
      assert Past([map[]], map[]);
    }

    /** Whatever the security store does between two operations leaves the receipts and their past sound. */
    twostate lemma SecurityMoves()
      requires old(Valid()) && security.Valid() && Evolves(old(security.db), security.db)
      requires rows == old(rows) && origins == old(origins) && history == old(history)
      ensures Valid()
    {
      EvolutionKeeps(rows, origins, old(security.db), security.db);
    }

    /** In every run of these operations, and of security operations between them: a receipt that has ended never
        changes again, and no receipt ever answers differently. */
    lemma EndedStaysEnded(i: nat, s: SessionId)
      requires Valid() && i < |history| && s in history[i]
      ensures s in rows && ReservationOf(s, rows[s]) == ReservationOf(s, history[i][s])
      ensures !history[i][s].state.Pending() ==> rows[s] == history[i][s]
    {
      assert Past(history, rows);
      EndedReceiptsAreFinal(history, i, |history| - 1, s);
    }

    /** And a completed one was accepted, then active, and never anything else before. */
    lemma CompletedWasAccepted(i: nat, s: SessionId)
      requires Valid() && i < |history| && s in history[i] && history[i][s].state.Accepted?
      requires s in rows && rows[s].state.Completed?
      ensures exists k: nat :: k < |history| - 1 && ActivatedAt(history, i, k, s)
    {
      assert Past(history, rows);
      CompletedWasActive(history, i, |history| - 1, s);
    }

    /** A product reset deletes the receipts with the identities. */
    method Reset(activation: Token, now: int) returns (r: Store.Reply<nat>)
      requires Valid()
      modifies this, security
      ensures Valid()
      ensures r.Done? <==> old(security.db).lifecycle.Some?
      ensures r.Done? ==> rows == map[] && security.db == Wiped(old(security.db), activation)
      ensures r.Refused? ==> rows == old(rows) && history == old(history) && security.db == old(security.db)
    {
      r := security.ResetProduct(activation, now);
      if r.Done? {
        rows, origins, history := map[], map[], [map[]];
        assert ReceiptsOk(map[], map[], security.db);
        assert Past([map[]], map[]);
      } else {
        SecurityMoves();
      }
    }

    /** Nothing but the receipts changes. */
    twostate predicate SecurityUnchanged()
      reads this, security
    {
      security.db == old(security.db) && security.issued == old(security.issued) && security.consumed == old(security.consumed)
    }

    function Owned(key: Key): set<SessionId>
      reads this
    {
      set s | s in rows && rows[s].key == key
    }

    /** The primary key leaves one receipt to a key. */
    lemma OnlyRow(key: Key, s: SessionId)
      requires Valid() && s in Owned(key)
      ensures Owned(key) == {s}
    {
      assert ReceiptsOk(rows, origins, security.db);
    }

    /** Accept an enrollment against a one-use grant, or replay the acceptance already given for the
        same request without using any grant. */
    method Reserve(p: Store.Principal, request: RequestId, target: Id, grant: Token, session: SessionId, now: int)
      returns (r: Result<(bool, Reservation), Error>)
      requires Valid() && session !in rows
      modifies this, security
      ensures Valid() && Progresses(old(rows), rows) && old(history) <= history && Evolves(old(security.db), security.db)
      ensures r.Success? <==>
                && Store.Current(old(security.db), p, now)
                && Store.ControlRefusal(old(security.db), p, EnrollmentStart, Some(target)).None?
                && old(security.db).lifecycle.Some?
                && if old(Owned(Key(Generation(security.db), p.device, request))) != {}
                   then exists s :: s in old(Owned(Key(Generation(security.db), p.device, request))) && old(rows)[s].target == target
                   else Store.SecurityUser(old(security.db), target) && Store.Usable(old(security.db), p, grant, EnrollmentStart, Some(target), now)
      ensures r.Failure? ==> rows == old(rows) && SecurityUnchanged()
      ensures r.Success? ==> Store.Current(old(security.db), p, now)
      ensures r.Success? && !r.value.0 ==>
                && rows == old(rows) && SecurityUnchanged()
                && r.value.1.session in rows && r.value.1 == ReservationOf(r.value.1.session, rows[r.value.1.session])
                && rows[r.value.1.session].key == Key(Generation(security.db), p.device, request) && rows[r.value.1.session].target == target
      ensures r.Success? && r.value.0 ==>
                && old(Owned(Key(Generation(security.db), p.device, request))) == {} && target in old(security.db).security
                && rows == old(rows)[session := Row(Key(Generation(security.db), p.device, request), p.user, p.version, target,
                                                    old(security.db).security[target].version, Accepted, None, now, now)]
                && r.value.1 == ReservationOf(session, rows[session])
                && grant !in old(security.consumed) && security.consumed == old(security.consumed) + {grant}
                && security.db.users == old(security.db).users
      ensures r.Success? && old(Owned(Key(Generation(security.db), p.device, request))) != {} ==> !r.value.0
    {
      if !Store.Current(security.db, p, now) {
        return Failure(Denied(Store.StalePrincipal));
      }
      assert Follows(security.db, security.db);
      var adminOrSelf := Store.AdminOrSelf(p, EnrollmentStart, Some(target));
      if adminOrSelf.Some? {
        return Failure(Denied(adminOrSelf.value));
      }
      if !Store.OwnerControls(security.db, p.owner, EnrollmentStart, Some(target)) {
        return Failure(Denied(Store.OwnerRequired));
      }
      if security.db.lifecycle.None? {
        return Failure(Denied(Store.CommissioningUnavailable));
      }
      var key := Key(Generation(security.db), p.device, request);
      var existing := Owned(key);
      if existing != {} {
        var s :| s in existing;
        OnlyRow(key, s);
        if rows[s].target != target {
          return Failure(RequestIdReused);
        }
        return Success((false, ReservationOf(s, rows[s])));
      }
      assert KeyFree(rows, key) by {
        forall s | s in rows ensures rows[s].key != key {
          assert s !in existing;
        }
      }
      if !Store.SecurityUser(security.db, target) {
        return Failure(InvalidUser);
      }
      var version := security.db.security[target].version;
      var used := security.ConsumeGrant(p, grant, EnrollmentStart, Some(target), now);
      if used.Refused? {
        return Failure(Denied(used.code));
      }
      EvolutionKeeps(rows, origins, old(security.db), security.db);
      var row := Row(key, p.user, p.version, target, version, Accepted, None, now, now);
      InsertKeeps(rows, origins, security.db, session, row);
      PastExtends(history, rows, rows[session := row]);
      rows := rows[session := row];
      history := history + [rows];
      origins := origins[session := security.db];
      return Success((true, ReservationOf(session, row)));
    }

    /** An accepted receipt whose authority still stands becomes active; any other receipt is reported
        as it is. */
    method Activate(s: SessionId, now: int) returns (r: Result<bool, Error>)
      requires Valid()
      modifies `rows, `history
      ensures Valid() && Progresses(old(rows), rows) && old(history) <= history
      ensures s !in old(rows) ==> r == Failure(NotFound) && rows == old(rows)
      ensures s in old(rows) && !old(rows)[s].state.Accepted? ==> r == Success(false) && rows == old(rows)
      ensures s in old(rows) && old(rows)[s].state.Accepted? ==>
                var refusal := CompletionRefusal(security.db, old(rows)[s], now);
                if refusal.Some? then r == Failure(refusal.value) && rows == old(rows)
                else r == Success(true) && rows == old(rows)[s := old(rows)[s].(state := Active, updated := now)]
    {
      if s !in rows {
        return Failure(NotFound);
      }
      var row := rows[s];
      if !row.state.Accepted? {
        return Success(false);
      }
      var refusal := CompletionRefusal(security.db, row, now);
      if refusal.Some? {
        return Failure(refusal.value);
      }
      PutKeeps(rows, origins, security.db, s, row.(state := Active, updated := now));
      PastExtends(history, rows, rows[s := row.(state := Active, updated := now)]);
      rows := rows[s := row.(state := Active, updated := now)];
      history := history + [rows];
      return Success(true);
    }

    /** End a pending receipt without a template. */
    method Finalize(s: SessionId, state: State, result: string, now: int) returns (r: Result<Row, Error>)
      requires Valid() && (state.Failed? || state.Cancelled? || state.Interrupted?)
      modifies `rows, `history
      ensures Valid() && Progresses(old(rows), rows) && old(history) <= history
      ensures r == if s in old(rows) then Success(rows[s]) else Failure(NotFound)
      ensures rows == if s in old(rows) && old(rows)[s].state.Pending()
                      then old(rows)[s := old(rows)[s].(state := state, result := Some(result), updated := now)]
                      else old(rows)
    {
      if s !in rows {
        return Failure(NotFound);
      }
      if rows[s].state.Pending() {
        var row := rows[s].(state := state, result := Some(result), updated := now);
        PutKeeps(rows, origins, security.db, s, row);
        PastExtends(history, rows, rows[s := row]);
        rows := rows[s := row];
        history := history + [rows];
      }
      return Success(rows[s]);
    }

    /** Store the template and complete the receipt in one transaction. The target's face changes
        exactly when the receipt goes from active to completed, and at that instant neither account
        differs from what it was at the reservation. */
    method Complete(s: SessionId, face: Face, result: string, now: int) returns (r: Result<Row, Error>)
      requires Valid()
      modifies this, security
      ensures Valid() && Progresses(old(rows), rows) && old(history) <= history && Evolves(old(security.db), security.db)
      ensures var completes := s in old(rows) && old(rows)[s].state.Active? && CompletionRefusal(old(security.db), old(rows)[s], now).None?;
              if completes then
                var row := old(rows)[s];
                && rows == old(rows)[s := row.(state := Completed, result := Some(result), updated := now)]
                && r == Success(rows[s])
                && row.target in security.db.users
                && security.db.users == old(security.db).users[row.target := old(security.db).users[row.target].(face := Some(face))]
                && s in origins && Generation(origins[s]) == Generation(old(security.db))
                && SameIdentity(origins[s], old(security.db), row.actor) && SameIdentity(origins[s], old(security.db), row.target)
              else
                && rows == old(rows) && security.db == old(security.db)
                && r == (if s !in old(rows) then Failure(NotFound)
                         else if !old(rows)[s].state.Pending() then Success(rows[s])
                         else if old(rows)[s].state.Accepted? then Failure(NotActive)
                         else Failure(CompletionRefusal(old(security.db), old(rows)[s], now).value))
    {
      assert Follows(security.db, security.db);
      if s !in rows {
        return Failure(NotFound);
      }
      var row := rows[s];
      if !row.state.Pending() {
        return Success(row);
      }
      if row.state.Accepted? {
        return Failure(NotActive);
      }
      var refusal := CompletionRefusal(security.db, row, now);
      if refusal.Some? {
        return Failure(refusal.value);
      }
      UnexpiredAuthorityIsUnchanged(rows, origins, security.db, s, now);
      var user := security.db.users[row.target].(face := Some(face));
      UserChangedKeeps(security.db, row.target, user);
      var d := UpdateUser(security.db, row.target, user).value;
      EvolutionKeeps(rows, origins, security.db, d);
      security.Commit(d, now);
      var done := row.(state := Completed, result := Some(result), updated := now);
      PutKeeps(rows, origins, security.db, s, done);
      PastExtends(history, rows, rows[s := done]);
      rows := rows[s := done];
      history := history + [rows];
      return Success(done);
    }

    /** At startup every pending receipt is interrupted, one UPDATE at a time. */
    method InterruptPending(now: int) returns (count: nat)
      requires Valid()
      modifies `rows, `history
      ensures Valid() && Progresses(old(rows), rows) && old(history) <= history
      ensures rows == map s | s in old(rows) :: Interrupt(old(rows)[s], now)
      ensures count == |set s | s in old(rows) && old(rows)[s].state.Pending()|
      ensures forall s :: s in rows ==> !rows[s].state.Pending()
      ensures forall s :: s in old(rows) ==>
                if old(rows)[s].state.Pending() then rows[s].state.Interrupted? && rows[s].result.Some? && rows[s].updated == now
                else rows[s] == old(rows)[s]
    {
      ghost var before := rows;
      var pending := set s | s in rows && rows[s].state.Pending();
      count := |pending|;
      var rest := pending;
      while rest != {}
        invariant rest <= pending && Valid() && rows.Keys == before.Keys && old(history) <= history
        invariant forall s :: s in rows ==> rows[s] == if s in pending - rest then Interrupt(before[s], now) else before[s]
        decreases |rest|
      {
        var s :| s in rest;
        assert rows[s].state.Pending();
        PutKeeps(rows, origins, security.db, s, Interrupt(rows[s], now));
        PastExtends(history, rows, rows[s := Interrupt(rows[s], now)]);
        rows := rows[s := Interrupt(rows[s], now)];
        history := history + [rows];
        rest := rest - {s};
      }
    }
  }
}
