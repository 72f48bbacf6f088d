/** The shared database: its tables, the statements that change identities and roles, and the
    triggers that guard them. A guarded statement answers None when it aborts. */
module SecuritySchema {
  import opened Outcomes
  import opened PinPolicy

  type Id = string
  type Token = string     // tokens stand for their hashes, which are injective
  type Pin = string
  type Face = seq<int>

  datatype User = User(name: string, face: Option<Face>, active: bool, access: bool)

  datatype Security = Security(pin: Pin, admin: bool, counter: Counter, version: nat)

  datatype Device = Device(user: Id, token: Token, local: bool, active: bool, created: int, expires: Option<int>)

  datatype Action =
    | UserCreate | UserDelete | UserAccess | SettingsUpdate | DeviceRevoke | PairingInvite | UserPin | UserRole
    | EnrollmentStart
    | ScanUnlock | ScanIgnition | DeviceLock | IgnitionStop | DeviceReset

  datatype Grant = Grant(device: Id, user: Id, action: Action, target: Option<Id>, version: nat, expires: int)

  datatype Invite = Invite(target: Id, issuer: Id, device: Id, version: nat, expires: int)

  /** The ownership column with exactly the columns its CHECK allows to be set. */
  datatype Ownership = Legacy | AwaitingClaim(activation: Token) | ClaimedBy(owner: Id, recovery: Token)

  datatype Lifecycle = Lifecycle(ownership: Ownership, generation: nat)

  datatype Db = Db(
    users: map<Id, User>,
    security: map<Id, Security>,
    devices: map<Id, Device>,
    grants: map<Token, Grant>,
    invites: map<Token, Invite>,
    lifecycle: Option<Lifecycle>)

  // ---- Roles ----

  predicate Claimed(db: Db) {
    db.lifecycle.Some? && db.lifecycle.value.ownership.ClaimedBy?
  }

  function Owner(db: Db): Id
    requires Claimed(db)
  {
    db.lifecycle.value.ownership.owner
  }

  predicate IsOwner(db: Db, id: Id) {
    Claimed(db) && Owner(db) == id
  }

  predicate IsActive(db: Db, id: Id) {
    id in db.users && db.users[id].active
  }

  predicate IsAdmin(db: Db, id: Id) {
    id in db.security && db.security[id].admin
  }

  predicate ActiveAdmin(db: Db, id: Id) {
    IsActive(db, id) && IsAdmin(db, id)
  }

  predicate OtherActiveAdmin(db: Db, id: Id) {
    exists u :: u in db.security && ActiveAdmin(db, u) && u != id
  }

  /** Another active administrator besides `id` and the owner of a claimed product. */
  predicate OtherRegularAdmin(db: Db, id: Id) {
    Claimed(db) && exists u :: u in db.security && ActiveAdmin(db, u) && u != id && u != Owner(db)
  }

  /** While ownership is claimed, the owner is an active administrator and at most one other active
      user is one. */
  ghost predicate Topology(db: Db) {
    Claimed(db) ==>
      && ActiveAdmin(db, Owner(db))
      && (forall u, v :: ActiveAdmin(db, u) && ActiveAdmin(db, v) && u != Owner(db) && v != Owner(db) ==> u == v)
  }

  predicate HasActiveAdmin(db: Db) {
    exists u :: u in db.security && ActiveAdmin(db, u)
  }

  // ---- Guarded statements ----

  predicate IdentityChanged(was: User, now: User) {
    was.active != now.active || was.access != now.access || was.face != now.face
  }

  function WithoutGrantsOf(grants: map<Token, Grant>, id: Id): map<Token, Grant> {
    map t | t in grants && grants[t].user != id && grants[t].target != Some(id) :: grants[t]
  }

  /** The identity trigger: the version moves on and the user's grants are gone; invites stay. */
  function BumpIdentity(db: Db, id: Id): Db {
    db.(security := if id in db.security then db.security[id := db.security[id].(version := db.security[id].version + 1)]
                    else db.security,
        grants := WithoutGrantsOf(db.grants, id))
  }

  predicate KeepLastAdmin(db: Db, id: Id) {
    ActiveAdmin(db, id) && !OtherActiveAdmin(db, id)
  }

  predicate LimitRegularAdmin(db: Db, id: Id) {
    Claimed(db) && id != Owner(db) && OtherRegularAdmin(db, id)
  }

  predicate RoleTopologyOf(db: Db, owner: Id) {
    && ActiveAdmin(db, owner)
    && (forall u, v :: u in db.security && v in db.security && ActiveAdmin(db, u) && ActiveAdmin(db, v) && u != owner && v != owner ==> u == v)
  }

  function InsertUser(db: Db, id: Id, user: User): Option<Db> {
    if id in db.users then None else Some(db.(users := db.users[id := user]))
  }

  function UpdateUser(db: Db, id: Id, user: User): Option<Db> {
    if id !in db.users then Some(db)
    else
      var was := db.users[id];
      if was.active && !user.active && (KeepLastAdmin(db, id) || IsOwner(db, id)) then None
      else if !was.active && user.active && IsAdmin(db, id) && LimitRegularAdmin(db, id) then None
      else
        var d := db.(users := db.users[id := user]);
        Some(if IdentityChanged(was, user) then BumpIdentity(d, id) else d)
  }

  predicate UserReferenced(db: Db, id: Id) {
    || id in db.security
    || (exists d :: d in db.devices && db.devices[d].user == id)
    || (exists t :: t in db.grants && db.grants[t].user == id)
    || (exists t :: t in db.invites && (db.invites[t].target == id || db.invites[t].issuer == id))
  }

  /** `keys` says whether the connection enforces foreign keys. */
  function DeleteUser(db: Db, id: Id, keys: bool): Option<Db> {
    if id !in db.users then Some(db)
    else if KeepLastAdmin(db, id) || IsOwner(db, id) then None
    else if keys && UserReferenced(db, id) then None
    else Some(db.(users := db.users - {id}))
  }

  predicate RowAllowed(row: Security) {
    row.counter.failed < PIN_MAX_FAILURES && row.version > 0
  }

  function InsertSecurity(db: Db, id: Id, row: Security, keys: bool): Option<Db> {
    if id in db.security || !RowAllowed(row) || (keys && id !in db.users) then None
    else if row.admin && IsActive(db, id) && LimitRegularAdmin(db, id) then None
    else Some(db.(security := db.security[id := row]))
  }

  function UpdateSecurity(db: Db, id: Id, row: Security): Option<Db> {
    if id !in db.security then Some(db)
    else if !RowAllowed(row) then None
    else
      var was := db.security[id];
      if !was.admin && row.admin && IsActive(db, id) && LimitRegularAdmin(db, id) then None
      else if was.admin && !row.admin && (KeepLastAdmin(db, id) || IsOwner(db, id)) then None
      else Some(db.(security := db.security[id := row]))
  }

  function DeleteSecurity(db: Db, id: Id): Option<Db> {
    if id !in db.security then Some(db)
    else if KeepLastAdmin(db, id) || IsOwner(db, id) then None
    else Some(db.(security := db.security - {id}))
  }

  /** Inserting or updating the one lifecycle row. */
  function PutLifecycle(db: Db, row: Lifecycle): Option<Db> {
    if row.generation == 0 then None
    else if row.ownership.ClaimedBy? && !RoleTopologyOf(db, row.ownership.owner) then None
    else Some(db.(lifecycle := Some(row)))
  }

  function DeleteLifecycle(db: Db): Option<Db> {
    Some(db.(lifecycle := None))
  }

  /** Any statement on the guarded columns, and any change at all of the unguarded tables. */
  datatype Statement =
    | InsertUserRow(id: Id, user: User)
    | UpdateUserRow(id: Id, user: User)
    | DeleteUserRow(id: Id)
    | InsertSecurityRow(id: Id, row: Security)
    | UpdateSecurityRow(id: Id, row: Security)
    | DeleteSecurityRow(id: Id)
    | PutLifecycleRow(lifecycle: Lifecycle)
    | DeleteLifecycleRow
    | WriteOtherTables(devices: map<Id, Device>, grants: map<Token, Grant>, invites: map<Token, Invite>)

  function Exec(db: Db, s: Statement, keys: bool): Option<Db> {
    match s
    case InsertUserRow(id, user) => InsertUser(db, id, user)
    case UpdateUserRow(id, user) => UpdateUser(db, id, user)
    case DeleteUserRow(id) => DeleteUser(db, id, keys)
    case InsertSecurityRow(id, row) => InsertSecurity(db, id, row, keys)
    case UpdateSecurityRow(id, row) => UpdateSecurity(db, id, row)
    case DeleteSecurityRow(id) => DeleteSecurity(db, id)
    case PutLifecycleRow(row) => PutLifecycle(db, row)
    case DeleteLifecycleRow => DeleteLifecycle(db)
    case WriteOtherTables(devices, grants, invites) => Some(db.(devices := devices, grants := grants, invites := invites))
  }

  /** An aborted statement leaves the database as it was. */
  function ExecAll(db: Db, statements: seq<Statement>, keys: bool): Db {
    if statements == [] then db
    else
      var before := ExecAll(db, statements[..|statements| - 1], keys);
      match Exec(before, statements[|statements| - 1], keys)
      case Some(after) => after
      case None => before
  }

  // ---- The triggers keep the role topology ----

  /** The one statement no trigger watches: inserting a user under an administrator's leftover
      security row while another regular administrator is active. */
  predicate RevivesAdmin(db: Db, s: Statement) {
    && s.InsertUserRow? && s.user.active && s.id !in db.users
    && Claimed(db) && s.id != Owner(db) && IsAdmin(db, s.id) && OtherRegularAdmin(db, s.id)
  }

  lemma SameRolesSameTopology(a: Db, b: Db)
    requires a.users == b.users && a.lifecycle == b.lifecycle && a.security.Keys == b.security.Keys
    requires forall u :: u in a.security ==> a.security[u].admin == b.security[u].admin
    ensures Topology(a) <==> Topology(b)
    ensures HasActiveAdmin(a) <==> HasActiveAdmin(b)
  {
    assert forall u :: ActiveAdmin(a, u) <==> ActiveAdmin(b, u);
  }

  /** Only `id` may gain or lose the standing of an active administrator. */
  ghost predicate OnlyChanges(a: Db, b: Db, id: Id) {
    a.lifecycle == b.lifecycle && forall u :: u != id ==> (ActiveAdmin(a, u) <==> ActiveAdmin(b, u))
  }

  lemma GainKeepsTopology(a: Db, b: Db, id: Id)
    requires Topology(a) && OnlyChanges(a, b, id) && ActiveAdmin(b, id)
    requires ActiveAdmin(a, id) || !LimitRegularAdmin(a, id)
    ensures Topology(b) && HasActiveAdmin(b)
  {
    if Claimed(a) && !ActiveAdmin(a, id) && id != Owner(a) {
      assert forall u :: u != Owner(a) && u != id ==> !ActiveAdmin(a, u);
    }
    assert id in b.security;
  }

  lemma LossKeepsTopology(a: Db, b: Db, id: Id)
    requires Topology(a) && OnlyChanges(a, b, id) && !ActiveAdmin(b, id)
    requires ActiveAdmin(a, id) ==> !KeepLastAdmin(a, id) && !IsOwner(a, id)
    ensures Topology(b)
    ensures HasActiveAdmin(a) ==> HasActiveAdmin(b)
  {
    if HasActiveAdmin(a) {
      var u :| u in a.security && ActiveAdmin(a, u) && u != id;
      assert u in b.security && ActiveAdmin(b, u);
    }
  }

  lemma UserStatementKeeps(db: Db, id: Id, user: User)
    requires Topology(db)
    ensures UpdateUser(db, id, user).Some? ==> Topology(UpdateUser(db, id, user).value)
    ensures HasActiveAdmin(db) && UpdateUser(db, id, user).Some? ==> HasActiveAdmin(UpdateUser(db, id, user).value)
  {
    if id in db.users && UpdateUser(db, id, user).Some? {
      var d := db.(users := db.users[id := user]);
      assert OnlyChanges(db, d, id);
      if ActiveAdmin(d, id) {
        GainKeepsTopology(db, d, id);
      } else {
        LossKeepsTopology(db, d, id);
      }
      SameRolesSameTopology(d, BumpIdentity(d, id));
    }
  }

  lemma SecurityStatementKeeps(db: Db, id: Id, row: Security, keys: bool)
    requires Topology(db)
    ensures UpdateSecurity(db, id, row).Some? ==> Topology(UpdateSecurity(db, id, row).value)
    ensures InsertSecurity(db, id, row, keys).Some? ==> Topology(InsertSecurity(db, id, row, keys).value)
    ensures HasActiveAdmin(db) && UpdateSecurity(db, id, row).Some? ==> HasActiveAdmin(UpdateSecurity(db, id, row).value)
    ensures HasActiveAdmin(db) && InsertSecurity(db, id, row, keys).Some? ==> HasActiveAdmin(InsertSecurity(db, id, row, keys).value)
  {
    var d := db.(security := db.security[id := row]);
    assert OnlyChanges(db, d, id);
    if UpdateSecurity(db, id, row) == Some(d) || InsertSecurity(db, id, row, keys) == Some(d) {
      if ActiveAdmin(d, id) {
        GainKeepsTopology(db, d, id);
      } else {
        LossKeepsTopology(db, d, id);
      }
    }
  }

  lemma DeleteStatementKeeps(db: Db, id: Id, keys: bool)
    requires Topology(db)
    ensures DeleteUser(db, id, keys).Some? ==> Topology(DeleteUser(db, id, keys).value)
    ensures DeleteSecurity(db, id).Some? ==> Topology(DeleteSecurity(db, id).value)
    ensures HasActiveAdmin(db) && DeleteUser(db, id, keys).Some? ==> HasActiveAdmin(DeleteUser(db, id, keys).value)
    ensures HasActiveAdmin(db) && DeleteSecurity(db, id).Some? ==> HasActiveAdmin(DeleteSecurity(db, id).value)
  {
    if !KeepLastAdmin(db, id) && !IsOwner(db, id) {
      LossKeepsTopology(db, db.(users := db.users - {id}), id);
      LossKeepsTopology(db, db.(security := db.security - {id}), id);
    }
  }

  lemma InsertUserExactly(db: Db, id: Id, user: User)
    requires Topology(db) && id !in db.users
    ensures Topology(db.(users := db.users[id := user])) <==> !RevivesAdmin(db, InsertUserRow(id, user))
    ensures HasActiveAdmin(db) ==> HasActiveAdmin(db.(users := db.users[id := user]))
  {
    var d := db.(users := db.users[id := user]);
    assert OnlyChanges(db, d, id);
    if RevivesAdmin(db, InsertUserRow(id, user)) {
      var u :| u in db.security && ActiveAdmin(db, u) && u != id && u != Owner(db);
      assert ActiveAdmin(d, u) && ActiveAdmin(d, id);
    } else if ActiveAdmin(d, id) {
      GainKeepsTopology(db, d, id);
    } else {
      LossKeepsTopology(db, d, id);
    }
    if HasActiveAdmin(db) {
      var u :| u in db.security && ActiveAdmin(db, u);
      assert ActiveAdmin(d, u);
    }
  }

  /** Whoever runs whichever statement: it keeps the role topology exactly when it does not revive a
      leftover administrator row, and it never takes away the last active administrator. */
  lemma TriggersKeepTopologyExactly(db: Db, s: Statement, keys: bool)
    requires Topology(db) && Exec(db, s, keys).Some?
    ensures Topology(Exec(db, s, keys).value) <==> !RevivesAdmin(db, s)
    ensures HasActiveAdmin(db) ==> HasActiveAdmin(Exec(db, s, keys).value)
  {
    match s
    case InsertUserRow(id, user) => InsertUserExactly(db, id, user);
    case UpdateUserRow(id, user) => UserStatementKeeps(db, id, user);
    case DeleteUserRow(id) => DeleteStatementKeeps(db, id, keys);
    case InsertSecurityRow(id, row) => SecurityStatementKeeps(db, id, row, keys);
    case UpdateSecurityRow(id, row) => SecurityStatementKeeps(db, id, row, keys);
    case DeleteSecurityRow(id) => DeleteStatementKeeps(db, id, keys);
    case PutLifecycleRow(row) => PutLifecycleKeeps(db, row);
    case DeleteLifecycleRow => SameRoles(db, Exec(db, s, keys).value);
    case WriteOtherTables(devices, grants, invites) =>
      SameRolesSameTopology(db, db.(devices := devices, grants := grants, invites := invites));
  }

  lemma SameRoles(a: Db, b: Db)
    requires a.users == b.users && a.security == b.security
    ensures forall u :: ActiveAdmin(a, u) <==> ActiveAdmin(b, u)
    ensures HasActiveAdmin(a) <==> HasActiveAdmin(b)
  {
    assert forall u :: ActiveAdmin(a, u) <==> ActiveAdmin(b, u);
  }

  lemma PutLifecycleKeeps(db: Db, row: Lifecycle)
    requires PutLifecycle(db, row).Some?
    ensures Topology(PutLifecycle(db, row).value)
    ensures HasActiveAdmin(db) ==> HasActiveAdmin(PutLifecycle(db, row).value)
  {
    var d := db.(lifecycle := Some(row));
    SameRoles(db, d);
    if row.ownership.ClaimedBy? {
      forall u, v | ActiveAdmin(d, u) && ActiveAdmin(d, v) && u != Owner(d) && v != Owner(d) ensures u == v {
        assert ActiveAdmin(db, u) && ActiveAdmin(db, v);
      }
    }
  }

  /** Every security row belongs to a user row. */
  predicate RowsHaveUsers(db: Db) {
    db.security.Keys <= db.users.Keys
  }

  ghost predicate Sound(db: Db) {
    Topology(db) && RowsHaveUsers(db)
  }

  /** Sound, kept folded. */
  ghost predicate Safe(db: Db) {
    forall d :: d == db ==> Sound(d)
  }

  lemma EnforcedStatementKeeps(db: Db, s: Statement)
    requires Safe(db) && Exec(db, s, true).Some?
    ensures Safe(Exec(db, s, true).value)
    ensures HasActiveAdmin(db) ==> HasActiveAdmin(Exec(db, s, true).value)
  {
    assert Sound(db);
    TriggersKeepTopologyExactly(db, s, true);
    assert Sound(Exec(db, s, true).value);
  }

  lemma {:induction false} EnforcedRunKeeps(db: Db, statements: seq<Statement>)
    requires Safe(db)
    ensures Safe(ExecAll(db, statements, true))
    ensures HasActiveAdmin(db) ==> HasActiveAdmin(ExecAll(db, statements, true))
  {
    if statements != [] {
      var init, last := statements[..|statements| - 1], statements[|statements| - 1];
      EnforcedRunKeeps(db, init);
      var before := ExecAll(db, init, true);
      if Exec(before, last, true).Some? {
        EnforcedStatementKeeps(before, last);
      }
    }
  }

  /** While connections enforce foreign keys, no run of statements at all breaks the topology or takes
      away the last active administrator. */
  lemma EnforcedKeysKeepTopology(db: Db, statements: seq<Statement>)
    requires Topology(db) && RowsHaveUsers(db)
    ensures Topology(ExecAll(db, statements, true)) && RowsHaveUsers(ExecAll(db, statements, true))
    ensures HasActiveAdmin(db) ==> HasActiveAdmin(ExecAll(db, statements, true))
  {
    assert Sound(db);
    EnforcedRunKeeps(db, statements);
    assert Sound(ExecAll(db, statements, true));
  }

  /** Without them two statements do, from a sound database: a delete and an insert. */
  lemma UnenforcedKeysBreakTopology()
    ensures exists db: Db, statements: seq<Statement> ::
              Topology(db) && RowsHaveUsers(db) && !Topology(ExecAll(db, statements, false))
  {
    var on := User("n", None, true, true);
    var admin := Security("000000", true, Counter(0, 0), 1);
    var db := Db(map["o" := on, "a" := on, "b" := on.(active := false)],
                 map["o" := admin, "a" := admin, "b" := admin],
                 map[], map[], map[], Some(Lifecycle(ClaimedBy("o", "r"), 1)));
    var s1, s2 := DeleteUserRow("b"), InsertUserRow("b", on);
    assert ActiveAdmin(db, "o") && ActiveAdmin(db, "a");
    assert Topology(db);
    assert Exec(db, s1, false) == Some(db.(users := db.users - {"b"}));
    assert ExecAll(db, [s1], false) == db.(users := db.users - {"b"}) by {
      assert [s1][..0] == [];
    }
    var d := db.(users := (db.users - {"b"})["b" := on]);
    assert ExecAll(db, [s1, s2], false) == d by {
      assert [s1, s2][..1] == [s1];
    }
    assert ActiveAdmin(d, "a") && ActiveAdmin(d, "b") && Owner(d) == "o";
    assert !Topology(d);
  }
}
