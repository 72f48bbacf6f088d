/** What every operation of the security store keeps, over the effects the operations have. */
module SecurityState {
  import opened Outcomes
  import opened PinPolicy
  import opened SecuritySchema

  const PAIRING_INVITE_SECONDS: nat := 300
  const OPERATION_GRANT_SECONDS: nat := 30
  const LOCAL_DEVICE_SECONDS: nat := 900
  const MAX_MOBILE_DEVICES: nat := 10
  const MAX_GRANTS_PER_DEVICE: nat := 32

  // ---- Invariants ----

  /** Foreign keys and table CHECKs. */
  ghost predicate References(db: Db) {
    && db.security.Keys <= db.users.Keys
    && (forall u :: u in db.security ==> RowAllowed(db.security[u]))
    && (forall d :: d in db.devices ==> db.devices[d].user in db.users)
    && (forall t :: t in db.invites ==> db.invites[t].device in db.devices)
    && (db.lifecycle.Some? ==> db.lifecycle.value.generation > 0)
  }

  /** A grant is current: its device is an active device of its user, who is active, and it carries
      the user's present version. */
  predicate CurrentGrant(db: Db, g: Grant) {
    && g.device in db.devices
    && db.devices[g.device].active
    && db.devices[g.device].user == g.user
    && IsActive(db, g.user)
    && g.user in db.security
    && db.security[g.user].version == g.version
  }

  function GrantsOf(grants: map<Token, Grant>, device: Id): set<Token> {
    set t | t in grants && grants[t].device == device
  }

  ghost predicate GrantTable(db: Db) {
    && (forall t :: t in db.grants ==> CurrentGrant(db, db.grants[t]))
    && (forall d :: |GrantsOf(db.grants, d)| <= MAX_GRANTS_PER_DEVICE)
  }

  function MobileOf(devices: map<Id, Device>, user: Id): set<Id> {
    set d | d in devices && devices[d].user == user && !devices[d].local
  }

  ghost predicate DeviceTable(db: Db) {
    forall u :: |MobileOf(db.devices, u)| <= MAX_MOBILE_DEVICES
  }

  predicate Unclaimed(db: Db) {
    db.lifecycle.Some? && db.lifecycle.value.ownership.AwaitingClaim?
  }

  predicate Vacant(db: Db) {
    db.users == map[] && db.security == map[] && db.devices == map[]
  }

  ghost predicate StoreOk(db: Db) {
    && Topology(db)
    && References(db)
    && GrantTable(db)
    && DeviceTable(db)
    && (Unclaimed(db) ==> Vacant(db))
  }

  /** StoreOk, kept folded. */
  ghost predicate Kept(db: Db) {
    forall d :: d == db ==> StoreOk(d)
  }

  // ---- How the database may change ----

  function Generation(db: Db): nat {
    if db.lifecycle.Some? then db.lifecycle.value.generation else 0
  }

  predicate SameIdentity(a: Db, b: Db, u: Id) {
    && (u in a.security <==> u in b.security)
    && (u in a.security ==> a.security[u].admin == b.security[u].admin)
    && (u in a.users <==> u in b.users)
    && (u in a.users ==> !IdentityChanged(a.users[u], b.users[u]))
  }

  /** Within a generation no account disappears, and an account whose version has not moved has the
      same role, standing, access and face template. */
  ghost predicate Follows(a: Db, b: Db) {
    && Generation(a) <= Generation(b)
    && (Generation(a) == Generation(b) ==>
          && a.users.Keys <= b.users.Keys
          && (forall u :: u in a.security ==>
                && u in b.security
                && a.security[u].version <= b.security[u].version
                && (a.security[u].version == b.security[u].version ==> SameIdentity(a, b, u))))
  }

  /** Follows, kept folded. */
  ghost predicate Evolves(a: Db, b: Db) {
    forall c :: c == b ==> Follows(a, c)
  }

  lemma EvolvesTransitively(a: Db, b: Db, c: Db)
    requires Evolves(a, b) && Evolves(b, c)
    ensures Evolves(a, c)
  {
    assert Follows(a, b) && Follows(b, c);
    assert Follows(a, c);
  }

  /** A version seen twice in one generation has not moved in between, nor has the account. */
  lemma VersionFreezesTheAccount(a: Db, b: Db, c: Db, u: Id)
    requires Evolves(a, b) && Evolves(b, c)
    requires Generation(a) == Generation(c) && u in a.security && u in c.security
    requires a.security[u].version == c.security[u].version
    ensures Generation(b) == Generation(a)
    ensures u in b.security && b.security[u].version == a.security[u].version
    ensures SameIdentity(a, b, u) && SameIdentity(b, c, u)
  {
    assert Follows(a, b) && Follows(b, c);
  }

  // ---- Effects ----

  function WithCounter(db: Db, u: Id, c: Counter): Db
    requires u in db.security
  {
    db.(security := db.security[u := db.security[u].(counter := c)])
  }

  function GrantsWithout(grants: map<Token, Grant>, gone: set<Id>): map<Token, Grant> {
    map t | t in grants && grants[t].device !in gone :: grants[t]
  }

  function InvitesWithout(invites: map<Token, Invite>, gone: set<Id>): map<Token, Invite> {
    map t | t in invites && invites[t].device !in gone :: invites[t]
  }

  /** Device rows go with the invites they issued and the grants they hold. */
  function WithoutDevices(db: Db, gone: set<Id>): Db {
    db.(invites := InvitesWithout(db.invites, gone),
        grants := GrantsWithout(db.grants, gone),
        devices := db.devices - gone)
  }

  function ExpiredLocals(db: Db, now: int): set<Id> {
    set d | d in db.devices && db.devices[d].local && db.devices[d].expires.Some? && db.devices[d].expires.value <= now
  }

  function Unexpired(db: Db, now: int): Db {
    db.(invites := map t | t in db.invites && db.invites[t].expires > now :: db.invites[t],
        grants := map t | t in db.grants && db.grants[t].expires > now :: db.grants[t])
  }

  function Pruned(db: Db, now: int): Db {
    WithoutDevices(Unexpired(db, now), ExpiredLocals(db, now))
  }

  function Joined(db: Db, id: Id, row: Device): Db {
    db.(devices := db.devices[id := row])
  }

  /** One device is switched off, with its grants and invites. */
  function Disabled(db: Db, id: Id): Db
    requires id in db.devices
  {
    db.(devices := db.devices[id := db.devices[id].(active := false)],
        grants := GrantsWithout(db.grants, {id}),
        invites := InvitesWithout(db.invites, {id}))
  }

  function DisabledDevices(devices: map<Id, Device>, u: Id): map<Id, Device> {
    map d | d in devices :: if devices[d].user == u then devices[d].(active := false) else devices[d]
  }

  function InvitesWithoutUser(invites: map<Token, Invite>, u: Id): map<Token, Invite> {
    map t | t in invites && invites[t].issuer != u && invites[t].target != u :: invites[t]
  }

  /** All of a user's credentials go. */
  function Revoked(db: Db, u: Id): Db {
    db.(devices := DisabledDevices(db.devices, u),
        grants := WithoutGrantsOf(db.grants, u),
        invites := InvitesWithoutUser(db.invites, u))
  }

  function FreshSecurity(pin: Pin, admin: bool): Security {
    Security(pin, admin, Counter(0, 0), 1)
  }

  function Renewed(row: Security, pin: Pin): Security {
    row.(pin := pin, counter := Counter(0, 0), version := row.version + 1)
  }

  function PinChanged(db: Db, u: Id, pin: Pin): Db {
    var row := if u in db.security then Renewed(db.security[u], pin) else FreshSecurity(pin, false);
    Revoked(db.(security := db.security[u := row]), u)
  }

  /** The users whose role a role change changes: the target, and every other regular administrator
      when a new one is named. */
  function RoleChanges(db: Db, target: Id, admin: bool): set<Id> {
    set u | u in db.security && (if u == target then db.security[u].admin != admin
                                 else admin && db.security[u].admin && !IsOwner(db, u))
  }

  function Reassigned(security: map<Id, Security>, changed: set<Id>): map<Id, Security> {
    map u | u in security :: if u in changed then security[u].(admin := !security[u].admin, version := security[u].version + 1) else security[u]
  }

  function RoleAssigned(db: Db, target: Id, admin: bool): Db {
    var changed := RoleChanges(db, target, admin);
    db.(security := Reassigned(db.security, changed),
        grants := map t | t in db.grants && db.grants[t].user !in changed && !(db.grants[t].target.Some? && db.grants[t].target.value in changed) :: db.grants[t],
        invites := map t | t in db.invites && db.invites[t].issuer !in changed :: db.invites[t])
  }

  function GrantsExcept(grants: map<Token, Grant>, device: Id, action: Action, target: Option<Id>): map<Token, Grant> {
    map t | t in grants && !(grants[t].device == device && grants[t].action == action && grants[t].target == target) :: grants[t]
  }

  function Recovered(db: Db, pin: Pin, device: Id, row: Device, recovery: Token): Db
    requires Claimed(db) && Owner(db) in db.security
  {
    var o := Owner(db);
    db.(security := db.security[o := Renewed(db.security[o], pin).(admin := true)],
        devices := map[device := row],
        grants := map[],
        invites := map[],
        lifecycle := Some(db.lifecycle.value.(ownership := ClaimedBy(o, recovery))))
  }

  /** The first owner of an unclaimed product. */
  function Owned(db: Db, user: Id, name: string, pin: Pin, device: Id, row: Device, recovery: Token): Db {
    db.(users := db.users[user := User(name, None, true, true)],
        security := db.security[user := FreshSecurity(pin, true)],
        devices := db.devices[device := row],
        lifecycle := Some(Lifecycle(ClaimedBy(user, recovery), Generation(db))))
  }

  function Wiped(db: Db, activation: Token): Db
    requires db.lifecycle.Some?
  {
    Db(map[], map[], map[], map[], map[], Some(Lifecycle(AwaitingClaim(activation), Generation(db) + 1)))
  }

  /** Everything issued under the old host identity is void. */
  function Rotated(db: Db): Db {
    db.(devices := map d | d in db.devices :: db.devices[d].(active := false), grants := map[], invites := map[])
  }

  // ---- The effects keep the invariants ----

  lemma SmallerSet(a: set<Token>, b: set<Token>)
    requires a <= b
    ensures |a| <= |b|
  {
    if a != {} {
      var x :| x in a;
      SmallerSet(a - {x}, b - {x});
    }
  }

  /** No grant appears, and those that stay are as current as they were. */
  ghost predicate GrantsStay(a: Db, b: Db) {
    forall t :: t in b.grants ==> t in a.grants && b.grants[t] == a.grants[t] && (CurrentGrant(a, a.grants[t]) ==> CurrentGrant(b, a.grants[t]))
  }

  lemma GrantsStayOk(a: Db, b: Db)
    requires GrantTable(a) && GrantsStay(a, b)
    ensures GrantTable(b)
  {
    forall d ensures |GrantsOf(b.grants, d)| <= MAX_GRANTS_PER_DEVICE {
      SmallerSet(GrantsOf(b.grants, d), GrantsOf(a.grants, d));
    }
  }

  /** No mobile device appears. */
  lemma DevicesStayOk(a: Db, b: Db)
    requires DeviceTable(a)
    requires forall d :: d in b.devices ==> d in a.devices && b.devices[d].user == a.devices[d].user && b.devices[d].local == a.devices[d].local
    ensures DeviceTable(b)
  {
    forall u ensures |MobileOf(b.devices, u)| <= MAX_MOBILE_DEVICES {
      SmallerSet(MobileOf(b.devices, u), MobileOf(a.devices, u));
    }
  }

  /** Conclude both folded facts at once. */
  lemma Fold(a: Db, b: Db)
    requires StoreOk(b) && Follows(a, b)
    ensures Kept(b) && Evolves(a, b)
  {
  }

  lemma CounterKeeps(db: Db, u: Id, c: Counter)
    requires Kept(db) && u in db.security && c.failed < PIN_MAX_FAILURES
    ensures Kept(WithCounter(db, u, c)) && Evolves(db, WithCounter(db, u, c))
  {
    assert StoreOk(db);
    var b := WithCounter(db, u, c);
    SameRolesSameTopology(db, b);
    GrantsStayOk(db, b);
    Fold(db, b);
  }

  lemma WithoutDevicesKeeps(db: Db, gone: set<Id>)
    requires Kept(db)
    ensures Kept(WithoutDevices(db, gone)) && Evolves(db, WithoutDevices(db, gone))
  {
    assert StoreOk(db);
    var b := WithoutDevices(db, gone);
    SameRolesSameTopology(db, b);
    GrantsStayOk(db, b);
    DevicesStayOk(db, b);
    Fold(db, b);
  }

  lemma UnexpiredKeeps(db: Db, now: int)
    requires Kept(db)
    ensures Kept(Unexpired(db, now)) && Evolves(db, Unexpired(db, now))
  {
    assert StoreOk(db);
    var b := Unexpired(db, now);
    SameRolesSameTopology(db, b);
    GrantsStayOk(db, b);
    Fold(db, b);
  }

  lemma PrunedKeeps(db: Db, now: int)
    requires Kept(db)
    ensures Kept(Pruned(db, now)) && Evolves(db, Pruned(db, now))
  {
    var a := Unexpired(db, now);
    UnexpiredKeeps(db, now);
    WithoutDevicesKeeps(a, ExpiredLocals(db, now));
    EvolvesTransitively(db, a, Pruned(db, now));
  }

  lemma DisabledKeeps(db: Db, id: Id)
    requires Kept(db) && id in db.devices
    ensures Kept(Disabled(db, id)) && Evolves(db, Disabled(db, id))
  {
    assert StoreOk(db);
    var b := Disabled(db, id);
    SameRolesSameTopology(db, b);
    GrantsStayOk(db, b);
    DevicesStayOk(db, b);
    Fold(db, b);
  }

  lemma RotatedKeeps(db: Db)
    requires Kept(db)
    ensures Kept(Rotated(db)) && Evolves(db, Rotated(db))
  {
    assert StoreOk(db);
    var b := Rotated(db);
    SameRolesSameTopology(db, b);
    GrantsStayOk(db, b);
    DevicesStayOk(db, b);
    Fold(db, b);
  }

  /** A fresh device fits when it is local or its user has a free mobile slot. */
  lemma JoinedKeeps(db: Db, id: Id, row: Device)
    requires Kept(db) && id !in db.devices && row.user in db.users && !Unclaimed(db)
    requires row.local || |MobileOf(db.devices, row.user)| < MAX_MOBILE_DEVICES
    ensures Kept(Joined(db, id, row)) && Evolves(db, Joined(db, id, row))
  {
    assert StoreOk(db);
    var b := Joined(db, id, row);
    SameRolesSameTopology(db, b);
    GrantsStayOk(db, b);
    forall u ensures |MobileOf(b.devices, u)| <= MAX_MOBILE_DEVICES {
      if u == row.user && !row.local {
        assert MobileOf(b.devices, u) == MobileOf(db.devices, u) + {id};
      } else {
        assert MobileOf(b.devices, u) == MobileOf(db.devices, u);
      }
    }
    Fold(db, b);
  }

  lemma InviteKeeps(db: Db, invites: map<Token, Invite>)
    requires Kept(db)
    requires forall t :: t in invites ==> invites[t].device in db.devices
    ensures Kept(db.(invites := invites)) && Evolves(db, db.(invites := invites))
  {
    assert StoreOk(db);
    var b := db.(invites := invites);
    SameRolesSameTopology(db, b);
    GrantsStayOk(db, b);
    Fold(db, b);
  }

  lemma DropGrantsKeeps(db: Db, grants: map<Token, Grant>)
    requires Kept(db)
    requires forall t :: t in grants ==> t in db.grants && grants[t] == db.grants[t]
    ensures Kept(db.(grants := grants)) && Evolves(db, db.(grants := grants))
  {
    assert StoreOk(db);
    var b := db.(grants := grants);
    SameRolesSameTopology(db, b);
    GrantsStayOk(db, b);
    Fold(db, b);
  }

  lemma IssueBounded(grants: map<Token, Grant>, token: Token, g: Grant, device: Id)
    requires token !in grants
    requires |GrantsOf(grants, device)| < MAX_GRANTS_PER_DEVICE || (device != g.device && |GrantsOf(grants, device)| <= MAX_GRANTS_PER_DEVICE)
    ensures |GrantsOf(grants[token := g], device)| <= MAX_GRANTS_PER_DEVICE
  {
    assert GrantsOf(grants[token := g], device) == GrantsOf(grants, device) + (if device == g.device then {token} else {});
  }

  lemma IssueTable(db: Db, token: Token, g: Grant)
    requires GrantTable(db) && token !in db.grants && CurrentGrant(db, g)
    requires |GrantsOf(db.grants, g.device)| < MAX_GRANTS_PER_DEVICE
    ensures GrantTable(db.(grants := db.grants[token := g]))
  {
    var b := db.(grants := db.grants[token := g]);
    forall d ensures |GrantsOf(b.grants, d)| <= MAX_GRANTS_PER_DEVICE {
      IssueBounded(db.grants, token, g, d);
    }
  }

  lemma IssueKeeps(db: Db, token: Token, g: Grant)
    requires Kept(db) && token !in db.grants && CurrentGrant(db, g)
    requires |GrantsOf(db.grants, g.device)| < MAX_GRANTS_PER_DEVICE
    ensures Kept(db.(grants := db.grants[token := g])) && Evolves(db, db.(grants := db.grants[token := g]))
  {
    assert StoreOk(db);
    var b := db.(grants := db.grants[token := g]);
    SameRolesSameTopology(db, b);
    IssueTable(db, token, g);
    Fold(db, b);
  }

  /** A new account, without a role. */
  lemma AccountKeeps(db: Db, id: Id, name: string, pin: Pin)
    requires Kept(db) && id !in db.users && !Unclaimed(db)
    ensures var b := db.(users := db.users[id := User(name, None, true, true)], security := db.security[id := FreshSecurity(pin, false)]);
            Kept(b) && Evolves(db, b)
  {
    assert StoreOk(db);
    var b := db.(users := db.users[id := User(name, None, true, true)], security := db.security[id := FreshSecurity(pin, false)]);
    assert forall u :: ActiveAdmin(b, u) <==> ActiveAdmin(db, u);
    GrantsStayOk(db, b);
    Fold(db, b);
  }

  lemma PinChangedFollows(db: Db, u: Id, pin: Pin)
    requires References(db) && IsActive(db, u)
    ensures References(PinChanged(db, u, pin)) && Follows(db, PinChanged(db, u, pin))
  {
  }

  lemma PinChangedKeeps(db: Db, u: Id, pin: Pin)
    requires Kept(db) && IsActive(db, u)
    ensures Kept(PinChanged(db, u, pin)) && Evolves(db, PinChanged(db, u, pin))
  {
    assert StoreOk(db);
    var b := PinChanged(db, u, pin);
    assert forall v :: ActiveAdmin(b, v) <==> ActiveAdmin(db, v);
    assert Topology(b);
    GrantsStayOk(db, b);
    DevicesStayOk(db, b);
    PinChangedFollows(db, u, pin);
    Fold(db, b);
  }

  // ---- A new PIN ----

  /** At this reading, the account is signed in by this PIN. */
  predicate PinMatches(db: Db, u: Id, pin: Pin, now: int)
    requires u in db.security
  {
    Verify(db.security[u].counter, now, pin == db.security[u].pin).1.Matched?
  }

  /** The account is reached by the new PIN and by no other, at every reading of the clock; of its
      devices only the `kept` ones are active, and no grant and no invite by it or for it is left. */
  ghost predicate Rekeyed(before: Db, after: Db, u: Id, pin: Pin, kept: set<Id>) {
    && u in after.security
    && (forall offered, now :: now >= 0 ==> (PinMatches(after, u, offered, now) <==> offered == pin))
    && after.security[u].version == (if u in before.security then before.security[u].version else 0) + 1
    && (forall d :: d in after.devices && after.devices[d].user == u && after.devices[d].active ==> d in kept)
    && (forall t :: t in after.grants ==> after.grants[t].user != u && after.grants[t].target != Some(u))
    && (forall t :: t in after.invites ==> after.invites[t].issuer != u && after.invites[t].target != u)
  }

  /** No other account, device, grant or invite changed, and neither did a user or the lifecycle. */
  ghost predicate OthersKept(before: Db, after: Db, u: Id) {
    && after.users == before.users && after.lifecycle == before.lifecycle
    && after.security.Keys == before.security.Keys + {u}
    && (forall v :: v in before.security && v != u ==> after.security[v] == before.security[v])
    && after.devices.Keys == before.devices.Keys
    && (forall d :: d in before.devices && before.devices[d].user != u ==> after.devices[d] == before.devices[d])
    && (forall t :: t in before.grants && before.grants[t].user != u && before.grants[t].target != Some(u) ==>
          t in after.grants && after.grants[t] == before.grants[t])
    && (forall t :: t in before.invites && before.invites[t].issuer != u && before.invites[t].target != u ==>
          t in after.invites && after.invites[t] == before.invites[t])
  }

  lemma PinChangedRekeys(db: Db, u: Id, pin: Pin)
    ensures var b := PinChanged(db, u, pin);
            && Rekeyed(db, b, u, pin, {}) && OthersKept(db, b, u)
            && b.security[u].admin == (u in db.security && db.security[u].admin)
  {
  }

  /** A recovery leaves the owner alone with the one new device; every other account keeps its row. */
  lemma RecoveredRekeys(db: Db, pin: Pin, device: Id, row: Device, recovery: Token)
    requires Claimed(db) && Owner(db) in db.security
    ensures var b := Recovered(db, pin, device, row, recovery);
            var o := Owner(db);
            && Rekeyed(db, b, o, pin, {device}) && b.security[o].admin
            && b.devices == map[device := row] && b.grants == map[] && b.invites == map[]
            && b.lifecycle == Some(Lifecycle(ClaimedBy(o, recovery), db.lifecycle.value.generation))
            && b.users == db.users && b.security.Keys == db.security.Keys
            && (forall v :: v in db.security && v != o ==> b.security[v] == db.security[v])
  {
  }

  lemma UserChangedGrants(db: Db, u: Id, user: User)
    requires GrantTable(db) && u in db.users && UpdateUser(db, u, user).Some?
    ensures GrantsStay(db, UpdateUser(db, u, user).value)
  {
  }

  lemma UserChangedFollows(db: Db, u: Id, user: User)
    requires References(db) && u in db.users && UpdateUser(db, u, user).Some?
    ensures References(UpdateUser(db, u, user).value)
    ensures Follows(db, UpdateUser(db, u, user).value)
  {
  }

  /** A changed user row, through the triggers. */
  lemma UserChangedKeeps(db: Db, u: Id, user: User)
    requires Kept(db) && u in db.users && UpdateUser(db, u, user).Some?
    ensures Kept(UpdateUser(db, u, user).value) && Evolves(db, UpdateUser(db, u, user).value)
  {
    assert StoreOk(db);
    var b := UpdateUser(db, u, user).value;
    UserStatementKeeps(db, u, user);
    UserChangedGrants(db, u, user);
    GrantsStayOk(db, b);
    UserChangedFollows(db, u, user);
    assert DeviceTable(b);
    Fold(db, b);
  }

  lemma RoleAssignedKeeps(db: Db, target: Id, admin: bool)
    requires Kept(db) && Claimed(db) && target != Owner(db) && IsActive(db, target) && target in db.security
    ensures Kept(RoleAssigned(db, target, admin)) && Evolves(db, RoleAssigned(db, target, admin))
  {
    assert StoreOk(db);
    var b := RoleAssigned(db, target, admin);
    assert forall u :: u != Owner(db) && u != target && ActiveAdmin(b, u) ==> !admin && ActiveAdmin(db, u);
    GrantsStayOk(db, b);
    Fold(db, b);
  }

  lemma OneDevice(b: Db, device: Id)
    requires b.devices.Keys == {device}
    ensures DeviceTable(b)
  {
    forall u ensures |MobileOf(b.devices, u)| <= MAX_MOBILE_DEVICES {
      SmallerSet(MobileOf(b.devices, u), {device});
    }
  }

  lemma NoGrants(b: Db)
    requires b.grants == map[]
    ensures GrantTable(b)
  {
    assert forall d :: GrantsOf(b.grants, d) == {};
  }

  lemma RecoveredKeeps(db: Db, pin: Pin, device: Id, row: Device, recovery: Token)
    requires Kept(db) && Claimed(db) && Owner(db) in db.security && row.user == Owner(db)
    ensures Kept(Recovered(db, pin, device, row, recovery)) && Evolves(db, Recovered(db, pin, device, row, recovery))
  {
    assert StoreOk(db);
    var b := Recovered(db, pin, device, row, recovery);
    assert forall u :: ActiveAdmin(b, u) <==> ActiveAdmin(db, u);
    NoGrants(b);
    OneDevice(b, device);
    Fold(db, b);
  }

  lemma OwnedKeeps(db: Db, user: Id, name: string, pin: Pin, device: Id, row: Device, recovery: Token)
    requires Kept(db) && Unclaimed(db) && row.user == user
    ensures Kept(Owned(db, user, name, pin, device, row, recovery)) && Evolves(db, Owned(db, user, name, pin, device, row, recovery))
  {
    assert StoreOk(db);
    var b := Owned(db, user, name, pin, device, row, recovery);
    assert db.grants == map[] by {
      forall t ensures t !in db.grants {
        if t in db.grants {
          assert false;
        }
      }
    }
    NoGrants(b);
    OneDevice(b, device);
    Fold(db, b);
  }

  lemma WipedKeeps(db: Db, activation: Token)
    requires Kept(db) && db.lifecycle.Some?
    ensures Kept(Wiped(db, activation)) && Evolves(db, Wiped(db, activation))
  {
    var b := Wiped(db, activation);
    NoGrants(b);
    assert forall u :: MobileOf(b.devices, u) == {};
    Fold(db, b);
  }
}
