/** What the store's transactions mean to the people and devices behind the rows: who is signed in
    afterwards and for how long, who may authorize what, and how long a grant or an invite is good. */
module SecurityEffects {
  import opened Outcomes
  import opened PinPolicy
  import opened SecuritySchema
  import opened SecurityState
  import opened SecurityStore

  // ---- Who may authorize which action ----

  /** The action would touch the product owner's account, or one of the owner's devices. */
  predicate TouchesOwner(db: Db, action: Action, target: Option<Id>) {
    && Claimed(db) && target.Some?
    && (if action == DeviceRevoke
        then target.value in db.devices && db.devices[target.value].user == Owner(db)
        else target.value == Owner(db))
  }

  predicate OwnOrUnnamed(p: Principal, target: Option<Id>) {
    target == None || target == Some(p.user)
  }

  /** The rules of the dashboard, action by action. */
  predicate MayAuthorize(db: Db, p: Principal, action: Action, target: Option<Id>)
    requires p.user in db.users
  {
    match action
    case UserCreate => p.admin
    case SettingsUpdate => p.admin
    case UserRole => p.admin && p.owner
    case UserDelete => p.admin && (TouchesOwner(db, action, target) ==> p.owner)
    case UserAccess => p.admin && (TouchesOwner(db, action, target) ==> p.owner)
    case UserPin => p.admin && (TouchesOwner(db, action, target) ==> p.owner)
    case PairingInvite => p.admin && (TouchesOwner(db, action, target) ==> p.owner)
    case DeviceRevoke => p.admin && (TouchesOwner(db, action, target) ==> p.owner)
    case EnrollmentStart =>
      target != None && (p.admin || target == Some(p.user)) && (TouchesOwner(db, action, target) ==> p.owner)
    case ScanUnlock => OwnOrUnnamed(p, target) && db.users[p.user].access
    case ScanIgnition => OwnOrUnnamed(p, target) && db.users[p.user].access
    case DeviceLock => OwnOrUnnamed(p, target)
    case IgnitionStop => OwnOrUnnamed(p, target)
    case DeviceReset => OwnOrUnnamed(p, target)
  }

  /** Authorization is refused, before the PIN is looked at, exactly outside those rules. */
  lemma AuthorityExactly(db: Db, p: Principal, action: Action, target: Option<Id>)
    requires p.user in db.users
    ensures AuthorizeRefusal(db, p, action, target).None? <==> MayAuthorize(db, p, action, target)
  {
  }

  // ---- A sign-in ----

  /** The identity a device row stands for. */
  function PrincipalOf(db: Db, device: Id): Principal
    requires device in db.devices && db.devices[device].user in db.users && db.devices[device].user in db.security
  {
    var u := db.devices[device].user;
    Principal(device, u, db.users[u].name, db.security[u].admin, db.security[u].version, IsOwner(db, u))
  }

  /** A sign-in ends every earlier local session of the account and no other device of anyone, opens
      one session that is good for 900 seconds, and changes no account. */
  lemma SignInExactly(db: Db, u: Id, device: Id, token: Token, now: int)
    requires SecurityUser(db, u) && device !in db.devices
    ensures var b := LoggedIn(db, u, device, token, now);
            && (forall d :: d in b.devices <==> d == device || (d in db.devices && !(db.devices[d].local && db.devices[d].user == u)))
            && (forall d :: d in b.devices && d != device ==> b.devices[d] == db.devices[d])
            && b.devices[device].token == token && b.devices[device].local
            && (forall later :: Current(b, PrincipalOf(b, device), later) <==> later < now + 900)
            && (forall t :: t in b.grants <==> t in db.grants && !(db.grants[t].device in LocalSessions(db, u)))
            && (forall t :: t in b.invites <==> t in db.invites && !(db.invites[t].device in LocalSessions(db, u)))
            && b.users == db.users && b.security == db.security && b.lifecycle == db.lifecycle
  {
  }

  /** The account's local sessions. */
  function LocalSessions(db: Db, u: Id): set<Id> {
    set d | d in db.devices && db.devices[d].local && db.devices[d].user == u
  }

  // ---- A grant ----

  /** An authorization that passed is good for 30 seconds, for the same device, user, action and
      target, and for nothing else; it replaces only an earlier grant for the same. Until then it
      passes every check of the consumption, as long as the device's session lasts. */
  lemma GrantIsGoodExactly(db: Db, p: Principal, action: Action, target: Option<Id>, token: Token, now: int)
    requires Current(db, p, now) && token !in db.grants
    ensures var named := EffectiveTarget(p, action, target);
            var b := Authorized(db, p, action, named, token, now);
            && (forall other, a, t, later :: Usable(b, other, token, a, t, later) <==>
                  other.device == p.device && other.user == p.user && other.version == p.version
                  && a == action && t == named && later < now + 30)
            && (forall t :: t in db.grants && db.grants[t].expires > now && db.grants[t].device == p.device
                            && !(db.grants[t].action == action && db.grants[t].target == named) ==>
                  t in b.grants && b.grants[t] == db.grants[t])
            && (forall t :: t in b.grants && t != token ==>
                  !(b.grants[t].device == p.device && b.grants[t].action == action && b.grants[t].target == named))
  {
    var b := Authorized(db, p, action, EffectiveTarget(p, action, target), token, now);
    assert token in b.grants;
  }

  lemma GrantIsConsumable(db: Db, p: Principal, action: Action, target: Option<Id>, token: Token, now: int, later: int)
    requires Current(db, p, now) && token !in db.grants && MayAuthorize(db, p, action, target)
    requires now <= later < now + 30
    requires db.devices[p.device].expires.None? || db.devices[p.device].expires.value > later
    ensures var named := EffectiveTarget(p, action, target);
            var b := Authorized(db, p, action, named, token, now);
            Current(b, p, later) && ControlRefusal(b, p, action, named).None? && Usable(b, p, token, action, named, later)
  {
    var named := EffectiveTarget(p, action, target);
    var b := Authorized(db, p, action, named, token, now);
    AuthorityExactly(db, p, action, target);
    GrantIsGoodExactly(db, p, action, target, token, now);
    assert p.device in b.devices && b.devices[p.device] == db.devices[p.device];
    StillAllowed(db, b, p, action, named, now);
  }

  /** Pruning takes away expired sessions only, so it never lifts the owner's protection. */
  lemma StillAllowed(db: Db, b: Db, p: Principal, action: Action, target: Option<Id>, now: int)
    requires ControlRefusal(db, p, action, target).None?
    requires b.lifecycle == db.lifecycle
    requires forall d :: d in b.devices ==> d in db.devices && b.devices[d] == db.devices[d]
    ensures ControlRefusal(b, p, action, target).None?
  {
  }

  // ---- An invite and its pairing ----

  /** The database after an invite was issued. */
  function Invited(db: Db, p: Principal, target: Id, token: Token, now: int): Db {
    var d := Pruned(db, now);
    d.(invites := InvitesExcept(d.invites, target)[token := Invite(target, p.user, p.device, p.version, now + PAIRING_INVITE_SECONDS)])
  }

  /** An invite is good for 300 seconds while the device it was issued from is signed in, and it is
      the only one for its target. */
  lemma InviteIsGoodExactly(db: Db, p: Principal, target: Id, token: Token, now: int, later: int)
    requires Current(db, p, now) && p.admin && SecurityUser(db, target) && token !in db.invites
    ensures var b := Invited(db, p, target, token, now);
            && (InviteHolds(b, token, later) <==> later < now + 300 && Current(b, p, later))
            && (forall t :: t in b.invites && b.invites[t].target == target ==> t == token)
            && (forall t :: t in b.invites && t != token ==> t in db.invites && b.invites[t] == db.invites[t])
  {
    var b := Invited(db, p, target, token, now);
    assert p.device in b.devices;
  }

  /** A pairing uses its invite up and signs the target in on one new mobile device, for good; it
      removes only inactive mobile devices of the target, and no more than bring it back to nine. */
  lemma PairingExactly(db: Db, invite: Token, gone: set<Id>, device: Id, token: Token, now: int)
    requires InviteHolds(db, invite, now) && device !in db.devices && SlotMade(db, db.invites[invite].target, gone)
    ensures var u := db.invites[invite].target;
            var b := Paired(db, invite, gone, device, MobileDevice(u, token, now));
            && invite !in b.invites
            && (forall d :: d in b.devices <==> d == device || (d in db.devices && d !in gone))
            && (forall d :: d in b.devices && d != device ==> b.devices[d] == db.devices[d])
            && (forall d :: d in gone ==> db.devices[d].user == u && !db.devices[d].local && !db.devices[d].active)
            && |gone| == (if |MobileOf(db.devices, u)| <= 9 then 0 else |MobileOf(db.devices, u)| - 9)
            && (forall later :: Current(b, PrincipalOf(b, device), later))
            && b.devices[device].token == token && b.devices[device].user == u && !b.devices[device].local
            && b.users == db.users && b.security == db.security && b.lifecycle == db.lifecycle
  {
  }

  // ---- What takes identities away ----

  /** A new PIN ends every session of the account, on whatever device. */
  lemma NewPinSignsOut(db: Db, u: Id, pin: Pin, p: Principal, now: int)
    requires p.user == u
    ensures !Current(PinChanged(db, u, pin), p, now) && !Current(AdminRecovered(db, u, pin), p, now)
  {
  }

  /** Everyone else stays signed in exactly as they were. */
  lemma NewPinKeepsOthers(db: Db, u: Id, pin: Pin, p: Principal, now: int)
    requires p.user != u
    ensures Current(PinChanged(db, u, pin), p, now) <==> Current(db, p, now)
    ensures Current(AdminRecovered(db, u, pin), p, now) <==> Current(db, p, now)
  {
  }

  /** A recovery signs everyone out but the owner on the new device, who is signed in for good. */
  lemma RecoverySignsOut(db: Db, pin: Pin, device: Id, token: Token, recovery: Token, p: Principal, now: int, later: int)
    requires Kept(db) && Claimed(db) && Owner(db) in db.security
    ensures var b := Recovered(db, pin, device, MobileDevice(Owner(db), token, now), recovery);
            && Owner(db) in b.users
            && (Current(b, p, later) <==> p == PrincipalOf(b, device))
            && PrincipalOf(b, device).owner && PrincipalOf(b, device).admin
  {
    assert StoreOk(db);
  }

  /** A claim makes its one user the owner, signed in for good on the new device with the new PIN. */
  lemma ClaimSignsIn(db: Db, user: Id, name: string, pin: Pin, device: Id, token: Token, recovery: Token, p: Principal, now: int, later: int)
    requires Kept(db) && Unclaimed(db)
    ensures var b := Owned(db, user, name, pin, device, MobileDevice(user, token, now), recovery);
            && (Current(b, p, later) <==> p == Principal(device, user, name, true, 1, true))
            && b.users.Keys == {user} && b.devices[device].token == token
            && b.lifecycle == Some(Lifecycle(ClaimedBy(user, recovery), Generation(db)))
            && (forall offered :: later >= 0 ==> (PinMatches(b, user, offered, later) <==> offered == pin))
  {
    assert StoreOk(db);
  }

  /** Deleting an account, or changing its access or its face, signs it out and takes the grants by and for
      it; everyone else stays as they were, and so do all devices and invites. */
  lemma ChangedIdentitySignsOut(db: Db, u: Id, user: User, p: Principal, now: int)
    requires u in db.users && u in db.security && UpdateUser(db, u, user).Some?
    requires user.active != db.users[u].active || user.access != db.users[u].access || user.face != db.users[u].face
    ensures var b := UpdateUser(db, u, user).value;
            && (Current(db, p, now) ==> (Current(b, p, now) <==> p.user != u))
            && (forall t :: t in b.grants <==> t in db.grants && db.grants[t].user != u && db.grants[t].target != Some(u))
            && b.users == db.users[u := user] && b.devices == db.devices && b.invites == db.invites && b.lifecycle == db.lifecycle
            && b.security[u].pin == db.security[u].pin && b.security[u].admin == db.security[u].admin
            && (forall v :: v in db.security && v != u ==> v in b.security && b.security[v] == db.security[v])
  {
  }

  /** A revoked device is signed out with its grants and invites; no other device, grant or invite
      is touched. */
  lemma RevokedDeviceExactly(db: Db, id: Id, p: Principal, now: int)
    requires id in db.devices
    ensures var b := Disabled(db, id);
            && (Current(b, p, now) <==> Current(db, p, now) && p.device != id)
            && b.devices.Keys == db.devices.Keys && (forall d :: d in db.devices && d != id ==> b.devices[d] == db.devices[d])
            && (forall t :: t in b.grants <==> t in db.grants && db.grants[t].device != id)
            && (forall t :: t in b.invites <==> t in db.invites && db.invites[t].device != id)
            && b.users == db.users && b.security == db.security && b.lifecycle == db.lifecycle
  {
  }

  /** After a new host identity, or a wipe, nobody is signed in; the rotation keeps every account,
      the wipe none, and the next claim needs the new activation secret. */
  lemma NobodyStays(db: Db, activation: Token, p: Principal, now: int)
    requires db.lifecycle.Some?
    ensures !Current(Rotated(db), p, now) && !Current(Wiped(db, activation), p, now)
    ensures Rotated(db).users == db.users && Rotated(db).security == db.security && Rotated(db).lifecycle == db.lifecycle
    ensures Rotated(db).grants == map[] && Rotated(db).invites == map[]
    ensures Vacant(Wiped(db, activation)) && Wiped(db, activation).grants == map[] && Wiped(db, activation).invites == map[]
    ensures Unclaimed(Wiped(db, activation)) && Wiped(db, activation).lifecycle.value.ownership.activation == activation
    ensures Generation(Wiped(db, activation)) == Generation(db) + 1
  {
  }

  /** Pruning signs nobody out: it removes expired grants and invites, and expired local sessions
      with what they held. */
  lemma PruningExactly(db: Db, p: Principal, now: int)
    ensures var b := Pruned(db, now);
            && (Current(b, p, now) <==> Current(db, p, now))
            && (forall d :: d in b.devices ==> d in db.devices && b.devices[d] == db.devices[d])
            && (forall d :: d in db.devices && d !in b.devices ==>
                  db.devices[d].local && db.devices[d].expires.Some? && db.devices[d].expires.value <= now)
            && (forall t :: t in db.grants && db.grants[t].device in b.devices ==> (t in b.grants <==> db.grants[t].expires > now))
            && (forall t :: t in db.invites && db.invites[t].device in b.devices ==> (t in b.invites <==> db.invites[t].expires > now))
            && b.users == db.users && b.security == db.security && b.lifecycle == db.lifecycle
  {
  }

  /** A role change moves the authority of those it changes, and of nobody else: whoever kept the
      role stays signed in, and whoever did not is signed out with the grants by and for it and the
      invites it issued. */
  lemma RoleChangeSignsOut(db: Db, target: Id, admin: bool, p: Principal, now: int)
    requires Kept(db) && Claimed(db) && SecurityUser(db, target) && target != Owner(db)
    ensures var b := RoleAssigned(db, target, admin);
            var moved := IsAdmin(b, p.user) != IsAdmin(db, p.user);
            && (Current(db, p, now) ==> (Current(b, p, now) <==> !moved))
            && (moved ==> forall t :: t in b.grants ==> b.grants[t].user != p.user && b.grants[t].target != Some(p.user))
            && (moved ==> forall t :: t in b.invites ==> b.invites[t].issuer != p.user)
            && b.users == db.users && b.devices == db.devices && b.lifecycle == db.lifecycle
  {
    assert StoreOk(db);
  }
}
