/** The security store: each operation is one transaction over the shared database. A refused
    operation leaves the database as it was, except that a refused PIN is counted before it is
    reported. */
module SecurityStore {
  import opened Outcomes
  import opened PinPolicy
  import opened SecuritySchema
  import opened SecurityState

  datatype Principal = Principal(device: Id, user: Id, name: string, admin: bool, version: nat, owner: bool)

  datatype Code =
    | InvalidCredentials | PinLocked | StalePrincipal | AdminRequired | OwnerRequired | InvalidTarget | TargetNotAllowed
    | FaceAccessDenied | GrantLimitReached | InvalidOperationGrant | UserNotFound | DuplicateUser | OwnerRoleFixed
    | DeviceNotFound | DeviceLimitReached | InvalidPairingInvite | InvalidActivation | InvalidRecovery | OwnershipInconsistent
    | CommissioningUnavailable | NotAvailable | Aborted

  datatype Reply<+T> = Done(value: T) | Refused(code: Code)

  // ---- Authority ----

  predicate PrincipalRowActive(db: Db, device: Id, now: int)
    requires device in db.devices && db.devices[device].user in db.users
  {
    && db.devices[device].active
    && db.users[db.devices[device].user].active
    && (db.devices[device].expires.None? || db.devices[device].expires.value > now)
  }

  /** The authenticated identity is still what the database says it is. */
  predicate Current(db: Db, p: Principal, now: int) {
    && p.device in db.devices && db.devices[p.device].user == p.user
    && p.user in db.users && p.user in db.security
    && PrincipalRowActive(db, p.device, now)
    && db.users[p.user].name == p.name
    && db.security[p.user].admin == p.admin
    && db.security[p.user].version == p.version
    && IsOwner(db, p.user) == p.owner
  }

  predicate AdminAction(a: Action) {
    a.UserCreate? || a.UserDelete? || a.UserAccess? || a.SettingsUpdate? || a.DeviceRevoke? || a.PairingInvite? || a.UserPin? || a.UserRole?
  }

  predicate OwnUserAction(a: Action) {
    a.ScanUnlock? || a.ScanIgnition? || a.DeviceLock? || a.IgnitionStop? || a.DeviceReset?
  }

  predicate OwnerProtectedAction(a: Action) {
    a.UserDelete? || a.UserAccess? || a.EnrollmentStart? || a.UserPin? || a.DeviceRevoke? || a.PairingInvite?
  }

  /** The account an action's target belongs to. */
  function TargetUser(db: Db, action: Action, target: Id): Option<Id> {
    if !action.DeviceRevoke? then Some(target)
    else if target in db.devices then Some(db.devices[target].user)
    else None
  }

  /** Only the owner may act on the owner's account. */
  predicate OwnerControls(db: Db, owner: bool, action: Action, target: Option<Id>) {
    OwnerProtectedAction(action) && target.Some? && Claimed(db) && TargetUser(db, action, target.value) == Some(Owner(db)) ==> owner
  }

  function AdminOrSelf(p: Principal, action: Action, target: Option<Id>): Option<Code> {
    if !action.EnrollmentStart? then None
    else if target.None? then Some(InvalidTarget)
    else if !p.admin && target.value != p.user then Some(TargetNotAllowed)
    else None
  }

  /** The checks authorization and consumption share, in order. */
  function ControlRefusal(db: Db, p: Principal, action: Action, target: Option<Id>): Option<Code> {
    if AdminAction(action) && !p.admin then Some(AdminRequired)
    else if action.UserRole? && !p.owner then Some(OwnerRequired)
    else if AdminOrSelf(p, action, target).Some? then AdminOrSelf(p, action, target)
    else if !OwnerControls(db, p.owner, action, target) then Some(OwnerRequired)
    else None
  }

  /** Operations on one's own account name it implicitly. */
  function EffectiveTarget(p: Principal, action: Action, target: Option<Id>): Option<Id> {
    if OwnUserAction(action) && target.None? then Some(p.user) else target
  }

  function AuthorizeRefusal(db: Db, p: Principal, action: Action, target: Option<Id>): Option<Code>
    requires p.user in db.users
  {
    if ControlRefusal(db, p, action, target).Some? then ControlRefusal(db, p, action, target)
    else if OwnUserAction(action) && EffectiveTarget(p, action, target) != Some(p.user) then Some(TargetNotAllowed)
    else if (action.ScanUnlock? || action.ScanIgnition?) && !db.users[p.user].access then Some(FaceAccessDenied)
    else None
  }

  function PinCode(v: Verdict): Code {
    if v.Wrong? then InvalidCredentials else PinLocked
  }

  function PinCheck(db: Db, u: Id, pin: Pin, now: int): (Counter, Verdict)
    requires u in db.security
  {
    Verify(db.security[u].counter, now, pin == db.security[u].pin)
  }

  /** One PIN check as the counter's history records it. */
  function Check(db: Db, u: Id, pin: Pin, now: int, rolledBack: bool): Attempt
    requires u in db.security
  {
    Attempt(now, pin == db.security[u].pin, rolledBack)
  }

  /** An active user with a security row. */
  predicate SecurityUser(db: Db, u: Id) {
    IsActive(db, u) && u in db.security
  }

  lemma PruningShrinks(db: Db, now: int)
    ensures Shrinks(db.grants, Pruned(db, now).grants)
    ensures Pruned(db, now).security == db.security && Pruned(db, now).lifecycle == db.lifecycle
  {
  }

  // ---- Names as SQLite's lower(trim()) compares them ----

  function LowerChar(c: char): char {
    if 'A' <= c <= 'Z' then c - 'A' + 'a' else c
  }

  function Lower(s: string): string {
    if s == "" then "" else [LowerChar(s[0])] + Lower(s[1..])
  }

  function TrimLeft(s: string): string {
    if s != "" && s[0] == ' ' then TrimLeft(s[1..]) else s
  }

  function TrimRight(s: string): string {
    if s != "" && s[|s| - 1] == ' ' then TrimRight(s[..|s| - 1]) else s
  }

  function FoldedName(name: string): string {
    Lower(TrimRight(TrimLeft(name)))
  }

  datatype Account = ById(id: Id) | ByName(name: string)

  predicate Matches(db: Db, u: Id, account: Account)
    requires u in db.users
  {
    match account
    case ById(id) => u == id
    case ByName(name) => FoldedName(db.users[u].name) == FoldedName(name)
  }

  function LoginRows(db: Db, account: Account): set<Id> {
    set u | u in db.security && SecurityUser(db, u) && Matches(db, u, account)
  }

  function LocalOf(db: Db, u: Id): set<Id> {
    set d | d in db.devices && db.devices[d].user == u && db.devices[d].local
  }

  function LocalDevice(u: Id, token: Token, now: int): Device {
    Device(u, token, true, true, now, Some(now + LOCAL_DEVICE_SECONDS))
  }

  function MobileDevice(u: Id, token: Token, now: int): Device {
    Device(u, token, false, true, now, None)
  }

  predicate TokenUsed(db: Db, token: Token) {
    exists d :: d in db.devices && db.devices[d].token == token
  }

  // ---- Pairing ----

  /** The invite is live, and so is all the authority it was issued under. */
  predicate InviteHolds(db: Db, token: Token, now: int) {
    && token in db.invites
    && var i := db.invites[token];
    && i.expires > now
    && SecurityUser(db, i.target)
    && i.device in db.devices && db.devices[i.device].user == i.issuer
    && db.devices[i.device].active
    && (db.devices[i.device].expires.None? || db.devices[i.device].expires.value > now)
    && ActiveAdmin(db, i.issuer)
    && db.security[i.issuer].version == i.version
  }

  function InactiveMobiles(db: Db, u: Id): set<Id> {
    set d | d in MobileOf(db.devices, u) && !db.devices[d].active
  }

  function SlotsNeeded(db: Db, u: Id): nat {
    var rows := |MobileOf(db.devices, u)|;
    if rows < MAX_MOBILE_DEVICES then 0 else rows - MAX_MOBILE_DEVICES + 1
  }

  /** The order of text columns. */
  predicate TextLess(a: string, b: string) {
    b != [] && (a == [] || a[0] < b[0] || (a[0] == b[0] && TextLess(a[1..], b[1..])))
  }

  lemma {:induction false} TextOrder(a: string, b: string, c: string)
    ensures a == b || TextLess(a, b) || TextLess(b, a)
    ensures TextLess(a, b) && TextLess(b, c) ==> TextLess(a, c)
    decreases |a|
  {
    if a != [] && b != [] {
      TextOrder(a[1..], b[1..], if c != [] then c[1..] else c);
      assert a == [a[0]] + a[1..] && b == [b[0]] + b[1..];
    }
  }

  /** The order in which the rows are read: by creation, then by id. */
  predicate Precedes(devices: map<Id, Device>, a: Id, b: Id)
    requires a in devices && b in devices
  {
    devices[a].created < devices[b].created || (devices[a].created == devices[b].created && (a == b || TextLess(a, b)))
  }

  lemma PrecedenceOrders(devices: map<Id, Device>, a: Id, b: Id, c: Id)
    requires a in devices && b in devices && c in devices
    ensures Precedes(devices, a, b) || Precedes(devices, b, a)
    ensures Precedes(devices, a, b) && Precedes(devices, b, c) ==> Precedes(devices, a, c)
  {
    TextOrder(a, b, c);
  }

  /** The rows that make room are the first inactive ones, and just enough of them. */
  predicate SlotMade(db: Db, u: Id, gone: set<Id>) {
    && gone <= InactiveMobiles(db, u)
    && |gone| == SlotsNeeded(db, u)
    && (forall a, b :: a in gone && b in InactiveMobiles(db, u) - gone ==> Precedes(db.devices, a, b))
  }

  function Paired(db: Db, invite: Token, gone: set<Id>, device: Id, row: Device): Db {
    var d := Joined(WithoutDevices(db, gone), device, row);
    d.(invites := d.invites - {invite})
  }

  // ---- Every grant is accounted for ----

  /** The PIN check of an authorization: the account's counter and PIN as they were, and the PIN offered. */
  datatype Evidence = Evidence(counter: Counter, stored: Pin, offered: Pin)

  function EvidenceOf(db: Db, u: Id, offered: Pin): Evidence
    requires u in db.security
  {
    Evidence(db.security[u].counter, db.security[u].pin, offered)
  }

  /** One authorization. */
  datatype Issue = Issue(device: Id, user: Id, action: Action, target: Option<Id>, version: nat, at: int, check: Evidence)

  predicate PinMatched(i: Issue) {
    Verify(i.check.counter, i.at, i.check.offered == i.check.stored).1.Matched?
  }

  function GrantFor(i: Issue): Grant {
    Grant(i.device, i.user, i.action, i.target, i.version, i.at + OPERATION_GRANT_SECONDS)
  }

  ghost predicate BookOk(grants: map<Token, Grant>, issued: map<Token, Issue>, consumed: set<Token>, clock: int) {
    && consumed <= issued.Keys
    && (forall t :: t in issued ==> issued[t].at <= clock && PinMatched(issued[t]))
    && (forall t :: t in grants ==> t in issued && t !in consumed && grants[t] == GrantFor(issued[t]))
  }

  /** BookOk, kept folded. */
  ghost predicate Booked(grants: map<Token, Grant>, issued: map<Token, Issue>, consumed: set<Token>, clock: int) {
    forall g :: g == grants ==> BookOk(g, issued, consumed, clock)
  }

  predicate Shrinks(a: map<Token, Grant>, b: map<Token, Grant>) {
    forall t :: t in b ==> t in a && a[t] == b[t]
  }

  lemma ShrinkKeepsBook(a: map<Token, Grant>, b: map<Token, Grant>, issued: map<Token, Issue>, consumed: set<Token>, clock: int, now: int)
    requires Booked(a, issued, consumed, clock) && Shrinks(a, b) && clock <= now
    ensures Booked(b, issued, consumed, now)
  {
    assert BookOk(a, issued, consumed, clock);
    assert BookOk(b, issued, consumed, now);
  }

  lemma IssueKeepsBook(grants: map<Token, Grant>, issued: map<Token, Issue>, consumed: set<Token>, clock: int, token: Token, i: Issue)
    requires Booked(grants, issued, consumed, clock) && token !in issued && i.at <= clock && PinMatched(i)
    ensures token !in grants
    ensures Booked(grants[token := GrantFor(i)], issued[token := i], consumed, clock)
  {
    assert BookOk(grants, issued, consumed, clock);
    assert BookOk(grants[token := GrantFor(i)], issued[token := i], consumed, clock);
  }

  lemma ConsumeKeepsBook(grants: map<Token, Grant>, issued: map<Token, Issue>, consumed: set<Token>, clock: int, token: Token)
    requires Booked(grants, issued, consumed, clock) && token in grants
    ensures token in issued && token !in consumed && grants[token] == GrantFor(issued[token]) && issued[token].at <= clock
    ensures PinMatched(issued[token])
    ensures Booked(grants - {token}, issued, consumed + {token}, clock)
  {
    assert BookOk(grants, issued, consumed, clock);
    assert BookOk(grants - {token}, issued, consumed + {token}, clock);
  }

  lemma IssuedBy(grants: map<Token, Grant>, issued: map<Token, Issue>, consumed: set<Token>, clock: int)
    requires Booked(grants, issued, consumed, clock)
    ensures forall t :: t in issued ==> issued[t].at <= clock
  {
    assert BookOk(grants, issued, consumed, clock);
  }

  /** The database has evolved from each of the databases grants were issued in, where the account had
      the version of the grant, and the grants still held are of the present generation. */
  ghost predicate TraceOk(origins: map<Token, Db>, issued: map<Token, Issue>, db: Db) {
    && origins.Keys == issued.Keys
    && (forall t :: t in origins ==>
          && Evolves(origins[t], db)
          && issued[t].user in origins[t].security
          && origins[t].security[issued[t].user].version == issued[t].version)
    && (forall t :: t in db.grants && t in origins ==> Generation(origins[t]) == Generation(db))
  }

  /** TraceOk, kept folded. */
  ghost predicate Traced(origins: map<Token, Db>, issued: map<Token, Issue>, db: Db) {
    forall d :: d == db ==> TraceOk(origins, issued, d)
  }

  lemma TraceContinues(origins: map<Token, Db>, issued: map<Token, Issue>, a: Db, b: Db)
    requires Traced(origins, issued, a) && Evolves(a, b) && Shrinks(a.grants, b.grants)
    requires Generation(a) == Generation(b) || b.grants == map[]
    ensures Traced(origins, issued, b)
  {
    assert TraceOk(origins, issued, a);
    forall t | t in origins ensures Evolves(origins[t], b) {
      EvolvesTransitively(origins[t], a, b);
    }
    assert TraceOk(origins, issued, b);
  }

  lemma TraceStarts(origins: map<Token, Db>, issued: map<Token, Issue>, db: Db, token: Token, i: Issue, after: Db)
    requires Traced(origins, issued, db) && token !in issued
    requires Evolves(db, after) && Generation(db) == Generation(after) && Shrinks(db.grants, after.grants - {token})
    requires i.user in after.security && after.security[i.user].version == i.version
    ensures Traced(origins[token := after], issued[token := i], after)
  {
    assert TraceOk(origins, issued, db);
    forall t | t in origins ensures Evolves(origins[t], after) {
      EvolvesTransitively(origins[t], db, after);
    }
    assert Follows(after, after);
    forall t | t in after.grants && t != token && t in origins ensures Generation(origins[t]) == Generation(after) {
      assert t in after.grants - {token};
    }
    assert TraceOk(origins[token := after], issued[token := i], after);
  }

  /** An account whose grant is still good has not changed since the grant was issued. */
  lemma TraceFreezes(origins: map<Token, Db>, issued: map<Token, Issue>, db: Db, token: Token)
    requires Traced(origins, issued, db) && token in db.grants && token in issued
    requires issued[token].user in db.security && db.security[issued[token].user].version == issued[token].version
    ensures token in origins && Evolves(origins[token], db) && Generation(origins[token]) == Generation(db)
    ensures SameIdentity(origins[token], db, issued[token].user)
  {
    assert TraceOk(origins, issued, db);
    assert Follows(origins[token], db);
  }

  // ---- Every PIN check is accounted for ----

  /** The PIN checks of one account since its PIN was set, whichever operation made them. */
  datatype Tally = Tally(start: Counter, attempts: seq<Attempt>)

  const UNTRIED := Tally(Counter(0, 0), [])

  ghost predicate TallyOk(db: Db, tallies: map<Id, Tally>) {
    forall u :: u in db.security ==>
      && u in tallies
      && tallies[u].start.failed < PIN_MAX_FAILURES
      && db.security[u].counter == Final(tallies[u].start, tallies[u].attempts)
  }

  /** TallyOk, kept folded. */
  ghost predicate Tallied(db: Db, tallies: map<Id, Tally>) {
    forall d :: d == db ==> TallyOk(d, tallies)
  }

  predicate CountersKept(a: Db, b: Db) {
    forall u :: u in b.security ==> u in a.security && b.security[u].counter == a.security[u].counter
  }

  lemma TallyStays(a: Db, b: Db, tallies: map<Id, Tally>)
    requires Tallied(a, tallies) && CountersKept(a, b)
    ensures Tallied(b, tallies)
  {
    assert TallyOk(a, tallies);
    assert TallyOk(b, tallies);
  }

  function Tried(tallies: map<Id, Tally>, u: Id, a: Attempt): map<Id, Tally>
    requires u in tallies
  {
    tallies[u := tallies[u].(attempts := tallies[u].attempts + [a])]
  }

  /** An account's counter moved on by one attempt; the others stay. */
  lemma TallyTries(a: Db, b: Db, tallies: map<Id, Tally>, u: Id, attempt: Attempt)
    requires Tallied(a, tallies) && u in a.security
    requires u in b.security && b.security[u].counter == After(a.security[u].counter, attempt)
    requires forall v :: v in b.security && v != u ==> v in a.security && b.security[v].counter == a.security[v].counter
    ensures u in tallies && Tallied(b, Tried(tallies, u, attempt))
  {
    assert TallyOk(a, tallies);
    FinalAppend(tallies[u].start, tallies[u].attempts, attempt);
    assert TallyOk(b, Tried(tallies, u, attempt));
  }

  /** An account got a new PIN, or is new. */
  lemma TallyRestarts(a: Db, b: Db, tallies: map<Id, Tally>, u: Id)
    requires Tallied(a, tallies)
    requires u in b.security ==> b.security[u].counter == Counter(0, 0)
    requires forall v :: v in b.security && v != u ==> v in a.security && b.security[v].counter == a.security[v].counter
    ensures Tallied(b, tallies[u := UNTRIED])
  {
    assert TallyOk(a, tallies);
    assert TallyOk(b, tallies[u := UNTRIED]);
  }

  /** In a store where every check is tallied, in the order in which the checks were served, any stretch of
      an account's checks without a reset obeys the bound of the counter, whichever operations made them. */
  lemma StoreBoundsWrongPins(db: Db, tallies: map<Id, Tally>, u: Id, i: nat, j: nat, from: int, span: nat, skew: nat)
    requires Tallied(db, tallies) && u in db.security && u in tallies && i <= j <= |tallies[u].attempts|
    requires Skewed(tallies[u].attempts[i..j], skew)
    requires WithoutReset(Final(tallies[u].start, tallies[u].attempts[..i]), tallies[u].attempts[i..j])
    ensures Misses(Final(tallies[u].start, tallies[u].attempts[..i]), tallies[u].attempts[i..j], from, from + span)
            <= Cap(from, from + span, from - skew) <= PIN_MAX_FAILURES * ((span + skew) / PIN_LOCKOUT_SECONDS + 1)
  {
    assert TallyOk(db, tallies);
    FinalStaysInRange(tallies[u].start, tallies[u].attempts[..i]);
    WrongPinsAreBounded(Final(tallies[u].start, tallies[u].attempts[..i]), tallies[u].attempts[i..j], from, span, skew);
  }

  // ---- Statements on the unguarded tables ----

  predicate DeviceReferenced(db: Db, id: Id) {
    || (exists t :: t in db.grants && db.grants[t].device == id)
    || (exists t :: t in db.invites && db.invites[t].device == id)
  }

  function DeleteDevice(db: Db, id: Id): Option<Db> {
    if DeviceReferenced(db, id) then None else Some(db.(devices := db.devices - {id}))
  }

  function InsertDevice(db: Db, id: Id, row: Device): Option<Db> {
    if id in db.devices || TokenUsed(db, row.token) || row.user !in db.users then None
    else Some(Joined(db, id, row))
  }

  /** A device row goes after the invites it issued and the grants it holds. */
  method DeleteDeviceRow(d: Db, id: Id) returns (e: Db)
    ensures e == WithoutDevices(d, {id})
  {
    e := d.(invites := InvitesWithout(d.invites, {id}));
    e := e.(grants := GrantsWithout(e.grants, {id}));
    var deleted := DeleteDevice(e, id);
    assert !DeviceReferenced(e, id);
    e := deleted.value;
  }

  lemma WithoutNone(d: Db)
    ensures WithoutDevices(d, {}) == d
  {
    assert WithoutDevices(d, {}).invites == d.invites;
    assert WithoutDevices(d, {}).grants == d.grants;
    assert WithoutDevices(d, {}).devices == d.devices;
  }

  method DeleteDeviceRows(d: Db, ids: set<Id>) returns (e: Db)
    ensures e == WithoutDevices(d, ids)
  {
    e := d;
    var rest := ids;
    ghost var done: set<Id> := {};
    WithoutNone(d);
    while rest != {}
      invariant ids == done + rest && done !! rest
      invariant e == WithoutDevices(d, done)
      decreases |rest|
    {
      var id :| id in rest;
      e := DeleteDeviceRow(e, id);
      WithoutOneMore(d, done, id);
      rest := rest - {id};
      done := done + {id};
    }
    assert ids == done;
  }

  lemma WithoutOneMore(d: Db, gone: set<Id>, id: Id)
    ensures WithoutDevices(WithoutDevices(d, gone), {id}) == WithoutDevices(d, gone + {id})
  {
    var a, b := WithoutDevices(WithoutDevices(d, gone), {id}), WithoutDevices(d, gone + {id});
    assert a.invites == b.invites;
    assert a.grants == b.grants;
    assert a.devices == b.devices;
  }

  method Prune(d: Db, now: int) returns (e: Db)
    ensures e == Pruned(d, now)
  {
    e := d.(invites := map t | t in d.invites && d.invites[t].expires > now :: d.invites[t]);
    e := e.(grants := map t | t in e.grants && e.grants[t].expires > now :: e.grants[t]);
    e := DeleteDeviceRows(e, ExpiredLocals(e, now));
  }

  /** Room for one more mobile device of a user, made by deleting the oldest inactive ones. */
  method MakeMobileSlot(d: Db, u: Id) returns (e: Db, ok: bool, ghost gone: set<Id>)
    ensures ok <==> SlotsNeeded(d, u) <= |InactiveMobiles(d, u)|
    ensures ok ==> SlotMade(d, u, gone) && e == WithoutDevices(d, gone)
    ensures !ok ==> e == d
  {
    var needed := SlotsNeeded(d, u);
    var inactive := InactiveMobiles(d, u);
    if |inactive| < needed {
      return d, false, {};
    }
    var chosen := OldestOf(d.devices, inactive, needed);
    e := DeleteDeviceRows(d, chosen);
    return e, true, chosen;
  }

  /** The first `count` of some devices, in the order of their rows. */
  method OldestOf(devices: map<Id, Device>, from: set<Id>, count: nat) returns (chosen: set<Id>)
    requires from <= devices.Keys && count <= |from|
    ensures chosen <= from && |chosen| == count
    ensures forall a, b :: a in chosen && b in from - chosen ==> Precedes(devices, a, b)
  {
    chosen := {};
    while |chosen| < count
      invariant chosen <= from && |chosen| <= count
      invariant forall a, b :: a in chosen && b in from - chosen ==> Precedes(devices, a, b)
    {
      assert from - chosen != {} by {
        assert from - chosen == {} ==> from == chosen;
      }
      var next := Oldest(devices, from - chosen);
      chosen := chosen + {next};
    }
  }

  method Oldest(devices: map<Id, Device>, from: set<Id>) returns (oldest: Id)
    requires from <= devices.Keys && from != {}
    ensures oldest in from && forall b :: b in from ==> Precedes(devices, oldest, b)
  {
    oldest :| oldest in from;
    var rest := from - {oldest};
    while rest != {}
      invariant rest <= from && oldest in from
      invariant forall b :: b in from - rest ==> Precedes(devices, oldest, b)
      decreases |rest|
    {
      var d :| d in rest;
      PrecedenceOrders(devices, oldest, d, d);
      if !Precedes(devices, oldest, d) {
        forall b | b in from - rest ensures Precedes(devices, d, b) {
          PrecedenceOrders(devices, d, oldest, b);
        }
        oldest := d;
      }
      rest := rest - {d};
    }
  }

  /** A new local session instead of every earlier one of the account. */
  method ReplaceSessions(d: Db, u: Id, device: Id, token: Token, now: int) returns (e: Db)
    requires u in d.users && device !in d.devices && !TokenUsed(d, token)
    ensures e == LoggedIn(d, u, device, token, now)
  {
    e := DeleteDeviceRows(d, LocalOf(d, u));
    assert !TokenUsed(e, token);
    e := InsertDevice(e, device, LocalDevice(u, token, now)).value;
  }

  /** Check the PIN of a known account, and open its session if it matches. */
  method OpenSession(d: Db, u: Id, pin: Pin, device: Id, token: Token, now: int) returns (e: Db, r: Reply<Id>)
    requires Kept(d) && u in d.security && device !in d.devices && !TokenUsed(d, token)
    ensures LoginEnds(d, u, pin, device, token, now, r, e)
    ensures Kept(e) && Evolves(d, e) && Shrinks(d.grants, e.grants) && e.lifecycle == d.lifecycle
  {
    assert u in d.users && Follows(d, d) by {
      assert StoreOk(d);
    }
    var (counter, verdict) := PinCheck(d, u, pin, now);
    PinCheckKeeps(d, d, u, pin, now);
    e := d.(security := d.security[u := d.security[u].(counter := counter)]);
    if !verdict.Matched? {
      return e, Refused(PinCode(verdict));
    }
    LoginKeeps(e, u, device, token, now);
    EvolvesTransitively(d, e, LoggedIn(e, u, device, token, now));
    e := ReplaceSessions(e, u, device, token, now);
    return e, Done(u);
  }

  // ---- Role changes, statement by statement ----

  function Demotable(db: Db, target: Id): set<Id> {
    set u | u in db.security && db.security[u].admin && u != target && !IsOwner(db, u)
  }

  /** Demote users one guarded UPDATE at a time; no trigger stops any of them, because the owner stays
      an active administrator. */
  method Demote(d: Db, users: set<Id>, target: Id) returns (e: Db)
    requires Kept(d) && Claimed(d) && users <= Demotable(d, target)
    ensures e == d.(security := Reassigned(d.security, users))
  {
    e := d;
    var rest := users;
    ghost var done: set<Id> := {};
    ReassignedNone(d.security);
    while rest != {}
      invariant users == done + rest && done !! rest
      invariant e == d.(security := Reassigned(d.security, done))
      decreases |rest|
    {
      var u :| u in rest;
      DemotionPasses(d, done, u);
      var row := e.security[u];
      var updated := UpdateSecurity(e, u, row.(admin := false, version := row.version + 1));
      e := updated.value;
      rest := rest - {u};
      done := done + {u};
    }
    assert done == users;
  }

  lemma ReassignedNone(security: map<Id, Security>)
    ensures Reassigned(security, {}) == security
  {
  }

  lemma DemotionPasses(d: Db, done: set<Id>, u: Id)
    requires Kept(d) && Claimed(d) && Owner(d) !in done && u in d.security && d.security[u].admin && u !in done && u != Owner(d)
    ensures var e := d.(security := Reassigned(d.security, done));
            && u in e.security && e.security[u] == d.security[u]
            && UpdateSecurity(e, u, e.security[u].(admin := false, version := e.security[u].version + 1))
               == Some(d.(security := Reassigned(d.security, done + {u})))
  {
    assert StoreOk(d);
    var e := d.(security := Reassigned(d.security, done));
    assert Owner(e) in e.security && ActiveAdmin(e, Owner(e));
    assert OtherActiveAdmin(e, u);
    var row := e.security[u].(admin := false, version := e.security[u].version + 1);
    assert e.security[u := row] == Reassigned(d.security, done + {u});
  }

  /** Promoting or demoting the target then passes every trigger too. */
  lemma RoleChangePasses(d: Db, target: Id, admin: bool)
    requires Kept(d) && Claimed(d) && SecurityUser(d, target) && target != Owner(d)
    requires d.security[target].admin != admin
    ensures var others := if admin then Demotable(d, target) else {};
            var e := d.(security := Reassigned(d.security, others));
            && target in e.security && e.security[target] == d.security[target]
            && UpdateSecurity(e, target, e.security[target].(admin := admin, version := e.security[target].version + 1))
               == Some(d.(security := Reassigned(d.security, others + {target})))
  {
    assert StoreOk(d);
    var others := if admin then Demotable(d, target) else {};
    var e := d.(security := Reassigned(d.security, others));
    assert Owner(e) in e.security && ActiveAdmin(e, Owner(e));
    assert OtherActiveAdmin(e, target);
    assert admin ==> !OtherRegularAdmin(e, target);
    var row := e.security[target].(admin := admin, version := e.security[target].version + 1);
    assert e.security[target := row] == Reassigned(d.security, others + {target});
  }

  function GrantsWithoutAll(grants: map<Token, Grant>, gone: set<Id>): map<Token, Grant> {
    map t | t in grants && grants[t].user !in gone && !(grants[t].target.Some? && grants[t].target.value in gone) :: grants[t]
  }

  function InvitesWithoutIssuers(invites: map<Token, Invite>, gone: set<Id>): map<Token, Invite> {
    map t | t in invites && invites[t].issuer !in gone :: invites[t]
  }

  /** What a role change takes from the users it changed. */
  method DropRoleCredentials(d: Db, changed: set<Id>) returns (e: Db)
    ensures e == d.(grants := GrantsWithoutAll(d.grants, changed), invites := InvitesWithoutIssuers(d.invites, changed))
  {
    e := d;
    var rest := changed;
    ghost var done: set<Id> := {};
    assert GrantsWithoutAll(d.grants, {}) == d.grants && InvitesWithoutIssuers(d.invites, {}) == d.invites;
    while rest != {}
      invariant changed == done + rest && done !! rest
      invariant e == d.(grants := GrantsWithoutAll(d.grants, done), invites := InvitesWithoutIssuers(d.invites, done))
      decreases |rest|
    {
      var u :| u in rest;
      e := e.(grants := WithoutGrantsOf(e.grants, u));
      e := e.(invites := InvitesWithoutIssuers(e.invites, {u}));
      OneMoreUser(d, done, u);
      rest := rest - {u};
      done := done + {u};
    }
    assert done == changed;
  }

  lemma OneMoreUser(d: Db, done: set<Id>, u: Id)
    ensures WithoutGrantsOf(GrantsWithoutAll(d.grants, done), u) == GrantsWithoutAll(d.grants, done + {u})
    ensures InvitesWithoutIssuers(InvitesWithoutIssuers(d.invites, done), {u}) == InvitesWithoutIssuers(d.invites, done + {u})
  {
  }

  /** The whole role change of one transaction. */
  method ApplyRole(d: Db, target: Id, admin: bool) returns (e: Db)
    requires Kept(d) && Claimed(d) && SecurityUser(d, target) && target != Owner(d)
    ensures e == RoleAssigned(d, target, admin)
  {
    var others := if admin then Demotable(d, target) else {};
    e := Demote(d, others, target);
    var changed := others;
    if d.security[target].admin != admin {
      RoleChangePasses(d, target, admin);
      var row := e.security[target];
      var updated := UpdateSecurity(e, target, row.(admin := admin, version := row.version + 1));
      e := updated.value;
      changed := changed + {target};
    }
    assert changed == RoleChanges(d, target, admin);
    e := DropRoleCredentials(e, changed);
  }

  /** Naming an administrator leaves exactly the owner and the target; removing one removes only it. */
  lemma RolesAfterChange(db: Db, target: Id, admin: bool, u: Id)
    requires Kept(db) && Claimed(db) && SecurityUser(db, target) && target != Owner(db)
    ensures ActiveAdmin(RoleAssigned(db, target, admin), u) <==>
              if admin then u == Owner(db) || u == target else ActiveAdmin(db, u) && u != target
  {
    assert StoreOk(db);
    var b := RoleAssigned(db, target, admin);
    if u in db.security {
      assert b.security[u].admin == if u in RoleChanges(db, target, admin) then !db.security[u].admin else db.security[u].admin;
    }
  }

  predicate LiveLocal(db: Db, d: Id, token: Token)
    requires d in db.devices
  {
    db.devices[d].token == token && db.devices[d].local && db.devices[d].active
  }

  predicate NameTaken(db: Db, name: string) {
    exists u :: u in db.users && db.users[u].active && FoldedName(db.users[u].name) == FoldedName(name)
  }

  function InvitesExcept(invites: map<Token, Invite>, target: Id): map<Token, Invite> {
    map t | t in invites && invites[t].target != target :: invites[t]
  }

  function LoggedIn(db: Db, u: Id, device: Id, token: Token, now: int): Db {
    Joined(WithoutDevices(db, LocalOf(db, u)), device, LocalDevice(u, token, now))
  }

  /** A sign-in whose account is known ends with the counter advanced, and a session if it matched. */
  ghost predicate LoginEnds(db: Db, u: Id, pin: Pin, device: Id, token: Token, now: int, r: Reply<Id>, after: Db)
    requires u in db.security
  {
    var (counter, verdict) := PinCheck(db, u, pin, now);
    var d := WithCounter(db, u, counter);
    if verdict.Matched? then r == Done(u) && after == LoggedIn(d, u, device, token, now)
    else r == Refused(PinCode(verdict)) && after == d
  }

  lemma PinCheckKeeps(before: Db, db: Db, u: Id, pin: Pin, now: int)
    requires Kept(db) && Evolves(before, db) && u in db.security
    ensures Kept(WithCounter(db, u, PinCheck(db, u, pin, now).0)) && Evolves(before, WithCounter(db, u, PinCheck(db, u, pin, now).0))
  {
    var c := PinCheck(db, u, pin, now).0;
    assert c.failed < PIN_MAX_FAILURES by {
      assert StoreOk(db);
    }
    CounterKeeps(db, u, c);
    EvolvesTransitively(before, db, WithCounter(db, u, c));
  }

  lemma LoginKeeps(db: Db, u: Id, device: Id, token: Token, now: int)
    requires Kept(db) && device !in db.devices && u in db.security
    ensures Kept(LoggedIn(db, u, device, token, now)) && Evolves(db, LoggedIn(db, u, device, token, now))
  {
    var d := WithoutDevices(db, LocalOf(db, u));
    assert u in db.users && !Unclaimed(db) by {
      assert StoreOk(db);
    }
    WithoutDevicesKeeps(db, LocalOf(db, u));
    JoinedKeeps(d, device, LocalDevice(u, token, now));
    EvolvesTransitively(db, d, LoggedIn(db, u, device, token, now));
  }

  lemma CurrentIsClaimedOrLegacy(db: Db, p: Principal, now: int)
    requires Kept(db) && Current(db, p, now)
    ensures !Unclaimed(db)
  {
    assert StoreOk(db);
  }

  lemma AccountInserts(db: Db, id: Id, name: string, pin: Pin)
    requires Kept(db) && id !in db.users
    ensures var user := User(name, None, true, true);
            && InsertUser(db, id, user) == Some(db.(users := db.users[id := user]))
            && InsertSecurity(db.(users := db.users[id := user]), id, FreshSecurity(pin, false), true)
               == Some(db.(users := db.users[id := user], security := db.security[id := FreshSecurity(pin, false)]))
  {
    assert StoreOk(db);
  }

  lemma InvitesHaveDevices(db: Db)
    requires Kept(db)
    ensures forall t :: t in db.invites ==> db.invites[t].device in db.devices
  {
    assert StoreOk(db);
  }

  /** What a pairing under a live invite leaves behind. */
  ghost predicate PairEnds(before: Db, db: Db, invite: Token, pin: Pin, device: Id, token: Token, now: int, gone: set<Id>, r: Reply<Id>, after: Db)
    requires InviteHolds(db, invite, now)
  {
    var u := db.invites[invite].target;
    var (counter, verdict) := PinCheck(db, u, pin, now);
    var d := WithCounter(db, u, counter);
    if !verdict.Matched? then r == Refused(PinCode(verdict)) && after == d
    else if SlotsNeeded(d, u) > |InactiveMobiles(d, u)| then r == Refused(DeviceLimitReached) && after == before
    else
      && SlotMade(d, u, gone)
      && if TokenUsed(WithoutDevices(d, gone), token) then r == Refused(Aborted) && after == before
         else r == Done(u) && after == Paired(d, invite, gone, device, MobileDevice(u, token, now))
  }

  lemma SlotFits(db: Db, u: Id, gone: set<Id>)
    requires Kept(db) && SlotMade(db, u, gone)
    ensures |MobileOf(WithoutDevices(db, gone).devices, u)| < MAX_MOBILE_DEVICES
  {
    assert StoreOk(db);
    assert |MobileOf(db.devices, u)| <= MAX_MOBILE_DEVICES;
    assert MobileOf(WithoutDevices(db, gone).devices, u) == MobileOf(db.devices, u) - gone;
    assert gone <= MobileOf(db.devices, u);
  }

  lemma PairedKeeps(before: Db, db: Db, invite: Token, gone: set<Id>, device: Id, row: Device)
    requires Kept(db) && Evolves(before, db) && row.user in db.security && !row.local
    requires SlotMade(db, row.user, gone) && device !in db.devices
    ensures Kept(Paired(db, invite, gone, device, row)) && Evolves(before, Paired(db, invite, gone, device, row))
  {
    assert row.user in db.users && !Unclaimed(db) by {
      assert StoreOk(db);
    }
    var d := WithoutDevices(db, gone);
    WithoutDevicesKeeps(db, gone);
    SlotFits(db, row.user, gone);
    JoinedKeeps(d, device, row);
    var e := Joined(d, device, row);
    InvitesHaveDevices(e);
    InviteKeeps(e, e.invites - {invite});
    EvolvesTransitively(before, db, d);
    EvolvesTransitively(before, d, e);
    EvolvesTransitively(before, e, Paired(db, invite, gone, device, row));
  }

  lemma PinRowPasses(db: Db, u: Id, pin: Pin)
    requires Kept(db) && IsActive(db, u)
    ensures var updated := if u in db.security then UpdateSecurity(db, u, Renewed(db.security[u], pin))
                           else InsertSecurity(db, u, FreshSecurity(pin, false), true);
            updated.Some? && Revoked(updated.value, u) == PinChanged(db, u, pin)
  {
    assert StoreOk(db);
  }

  /** The device holds fewer than 32 live grants besides the one this would replace. */
  predicate RoomForGrant(db: Db, p: Principal, action: Action, target: Option<Id>, now: int)
    requires p.user in db.security
  {
    var d := Pruned(WithCounter(db, p.user, Counter(0, 0)), now);
    |GrantsOf(GrantsExcept(d.grants, p.device, action, target), p.device)| < MAX_GRANTS_PER_DEVICE
  }

  /** The database after a grant was issued. */
  function Authorized(db: Db, p: Principal, action: Action, target: Option<Id>, token: Token, now: int): Db
    requires p.user in db.security
  {
    var d := Pruned(WithCounter(db, p.user, Counter(0, 0)), now);
    d.(grants := GrantsExcept(d.grants, p.device, action, target)
                   [token := Grant(p.device, p.user, action, target, p.version, now + OPERATION_GRANT_SECONDS)])
  }

  /** The grant row a consumption looks for. */
  predicate Usable(db: Db, p: Principal, token: Token, action: Action, target: Option<Id>, now: int) {
    && token in db.grants
    && var g := db.grants[token];
    && g.device == p.device && g.user == p.user && g.action == action && g.target == target
    && g.version == p.version && g.expires > now
  }

  lemma RefusalIsNotThePin(db: Db, p: Principal, action: Action, target: Option<Id>)
    requires p.user in db.users && AuthorizeRefusal(db, p, action, target).Some?
    ensures !AuthorizeRefusal(db, p, action, target).value.InvalidCredentials?
    ensures !AuthorizeRefusal(db, p, action, target).value.PinLocked?
  {
  }

  lemma ClaimPasses(db: Db, user: Id, name: string, pin: Pin, device: Id, token: Token, recovery: Token, now: int)
    requires Kept(db) && Unclaimed(db)
    ensures var row := User(name, None, true, true);
            var a := InsertUser(db, user, row);
            && a == Some(db.(users := db.users[user := row]))
            && var b := InsertSecurity(a.value, user, FreshSecurity(pin, true), true);
            && b == Some(a.value.(security := db.security[user := FreshSecurity(pin, true)]))
            && var c := InsertDevice(b.value, device, MobileDevice(user, token, now));
            && c == Some(Joined(b.value, device, MobileDevice(user, token, now)))
            && PutLifecycle(c.value, Lifecycle(ClaimedBy(user, recovery), Generation(db)))
               == Some(Owned(db, user, name, pin, device, MobileDevice(user, token, now), recovery))
  {
    assert StoreOk(db);
    assert db.users == map[] && db.security == map[] && db.devices == map[];
    var d := Owned(db, user, name, pin, device, MobileDevice(user, token, now), recovery);
    assert RoleTopologyOf(d.(lifecycle := db.lifecycle), user);
    assert d == d.(lifecycle := db.lifecycle).(lifecycle := Some(Lifecycle(ClaimedBy(user, recovery), Generation(db))));
  }

  lemma RecoverPasses(db: Db, pin: Pin, device: Id, token: Token, recovery: Token, now: int)
    requires Kept(db) && Claimed(db)
    ensures ActiveAdmin(db, Owner(db)) && Owner(db) in db.users
    ensures var o := Owner(db);
            var a := UpdateSecurity(db.(grants := map[], invites := map[], devices := map[]), o, Renewed(db.security[o], pin).(admin := true));
            && a.Some?
            && var b := InsertDevice(a.value, device, MobileDevice(o, token, now));
            && b.Some?
            && b.value.(lifecycle := Some(db.lifecycle.value.(ownership := ClaimedBy(o, recovery))))
               == Recovered(db, pin, device, MobileDevice(o, token, now), recovery)
  {
    assert StoreOk(db);
  }

  function ActiveNamed(db: Db, name: string): set<Id> {
    set u | u in db.users && db.users[u].active && FoldedName(db.users[u].name) == FoldedName(name)
  }

  function AdminRecovered(db: Db, u: Id, pin: Pin): Db {
    var row := if u in db.security then Renewed(db.security[u], pin).(admin := true) else FreshSecurity(pin, true);
    Revoked(db.(security := db.security[u := row]), u)
  }

  lemma AdminRecoveredKeeps(db: Db, u: Id, pin: Pin)
    requires Kept(db) && IsActive(db, u) && !Claimed(db) && !Unclaimed(db)
    ensures Kept(AdminRecovered(db, u, pin)) && Evolves(db, AdminRecovered(db, u, pin))
    ensures var updated := if u in db.security then UpdateSecurity(db, u, Renewed(db.security[u], pin).(admin := true))
                           else InsertSecurity(db, u, FreshSecurity(pin, true), true);
            updated.Some? && Revoked(updated.value, u) == AdminRecovered(db, u, pin)
  {
    assert StoreOk(db);
    var b := AdminRecovered(db, u, pin);
    GrantsStayOk(db, b);
    DevicesStayOk(db, b);
    Fold(db, b);
  }

  lemma AdminRecoveredRekeys(db: Db, u: Id, pin: Pin)
    ensures var b := AdminRecovered(db, u, pin);
            Rekeyed(db, b, u, pin, {}) && OthersKept(db, b, u) && b.security[u].admin
  {
  }

  lemma IssueKeepsAfter(before: Db, db: Db, token: Token, g: Grant)
    requires Kept(db) && Evolves(before, db) && token !in db.grants && CurrentGrant(db, g)
    requires |GrantsOf(db.grants, g.device)| < MAX_GRANTS_PER_DEVICE
    ensures Kept(db.(grants := db.grants[token := g])) && Evolves(before, db.(grants := db.grants[token := g]))
  {
    IssueKeeps(db, token, g);
    EvolvesTransitively(before, db, db.(grants := db.grants[token := g]));
  }

  lemma FreshIsNotHeld(grants: map<Token, Grant>, issued: map<Token, Issue>, consumed: set<Token>, clock: int, token: Token)
    requires Booked(grants, issued, consumed, clock) && token !in issued
    ensures token !in grants
  {
    assert BookOk(grants, issued, consumed, clock);
  }

  /** The database a grant is about to be inserted in. */
  function ReadyForGrant(counted: Db, device: Id, action: Action, target: Option<Id>, now: int): Db {
    var d := Pruned(counted, now);
    d.(grants := GrantsExcept(d.grants, device, action, target))
  }

  lemma ReadyKeeps(db: Db, counted: Db, p: Principal, action: Action, target: Option<Id>, now: int)
    requires Current(db, p, now) && counted == WithCounter(db, p.user, Counter(0, 0))
    requires Kept(counted) && Evolves(db, counted)
    ensures var r := ReadyForGrant(counted, p.device, action, target, now);
            && Kept(r) && Evolves(db, r) && Shrinks(db.grants, r.grants)
            && r.security == counted.security && r.lifecycle == db.lifecycle
            && CurrentGrant(r, Grant(p.device, p.user, action, target, p.version, now + OPERATION_GRANT_SECONDS))
  {
    var d := Pruned(counted, now);
    PrunedKeeps(counted, now);
    EvolvesTransitively(db, counted, d);
    var r := ReadyForGrant(counted, p.device, action, target, now);
    DropGrantsKeeps(d, r.grants);
    EvolvesTransitively(db, d, r);
    assert p.device in d.devices;
  }

  // ---- Invites that outlive their issuer's authority ----

  /** The identity trigger takes the grants of a changed account but leaves the invites it issued;
      only the join of a pairing refuses them. */
  lemma StaleInvitesSurvive(db: Db, u: Id, user: User, token: Token, now: int)
    requires u in db.users && u in db.security && IdentityChanged(db.users[u], user)
    requires UpdateUser(db, u, user).Some?
    requires token in db.invites && db.invites[token].issuer == u && db.invites[token].version == db.security[u].version
    ensures var d := UpdateUser(db, u, user).value;
            && token in d.invites && d.invites[token] == db.invites[token]
            && !InviteHolds(d, token, now)
            && (forall t :: t in d.grants ==> d.grants[t].user != u && d.grants[t].target != Some(u))
  {
  }

  /** Once its issuer's version has moved past it, an invite is refused for the rest of the generation. */
  lemma StaleInvitesStayRefused(d: Db, e: Db, token: Token, now: int)
    requires Evolves(d, e) && Generation(d) == Generation(e)
    requires token in d.invites && token in e.invites && d.invites[token] == e.invites[token]
    requires d.invites[token].issuer in d.security && d.security[d.invites[token].issuer].version > d.invites[token].version
    ensures !InviteHolds(e, token, now)
  {
    assert Follows(d, e);
  }

  // ---- The store ----

  class SecurityStore {
    var db: Db
    ghost var issued: map<Token, Issue>   // every grant ever issued
    ghost var origins: map<Token, Db>     // the database each one was issued in
    ghost var consumed: set<Token>
    ghost var tallies: map<Id, Tally>
    ghost var clock: int                  // the latest reading served

    ghost predicate Valid()
      reads this
    {
      && Kept(db) && Booked(db.grants, issued, consumed, clock) && Traced(origins, issued, db)
      && Tallied(db, tallies)
    }

    /** A store opened on a sound database without grants. */
    constructor (initial: Db, now: int)
      requires StoreOk(initial) && initial.grants == map[]
      ensures Valid() && db == initial && issued == map[] && consumed == {} && clock == now
    {
      db := initial;
      issued, origins, consumed, clock := map[], map[], {}, now;
      tallies := map u | u in initial.security :: Tally(initial.security[u].counter, []);
      new;
      assert TallyOk(db, tallies);
      assert BookOk(map[], map[], {}, now);
      assert TraceOk(map[], map[], initial);
    }

    /** What every operation keeps: accounts only evolve, and nothing is un-issued or un-consumed. */
    twostate predicate Advanced(now: int)
      reads this
    {
      && Evolves(old(db), db)
      && clock == Max(old(clock), now)
    }

    twostate predicate BookUnchanged()
      reads this
    {
      issued == old(issued) && origins == old(origins) && consumed == old(consumed)
    }

    twostate predicate PinsUntried()
      reads this
    {
      tallies == old(tallies)
    }

    /** COMMIT of a transaction that issued no grant and checked no PIN. */
    method Commit(d: Db, now: int)
      requires Valid()
      requires Kept(d) && Evolves(db, d) && Shrinks(db.grants, d.grants) && CountersKept(db, d)
      requires Generation(db) == Generation(d) || d.grants == map[]
      modifies this
      ensures Valid() && Advanced(now) && PinsUntried()
      ensures db == d && BookUnchanged()
    {
      TallyStays(db, d, tallies);
      CommitTally(d, now, tallies);
    }

    /** COMMIT of a transaction that issued no grant, with what it did to the PIN counters. */
    method CommitTally(d: Db, now: int, ghost next: map<Id, Tally>)
      requires Valid()
      requires Kept(d) && Evolves(db, d) && Shrinks(db.grants, d.grants) && Tallied(d, next)
      requires Generation(db) == Generation(d) || d.grants == map[]
      modifies this
      ensures Valid() && Advanced(now)
      ensures db == d && BookUnchanged() && tallies == next
    {
      tallies := next;
      ShrinkKeepsBook(db.grants, d.grants, issued, consumed, clock, Max(clock, now));
      TraceContinues(origins, issued, db, d);
      db := d;
      clock := Max(clock, now);
    }

    /** Sign in locally: every earlier local session of the account is replaced. A failed sign-in is
        still committed, with its counter. */
    method LocalLogin(account: Account, pin: Pin, device: Id, token: Token, now: int) returns (r: Reply<Id>)
      requires Valid()
      requires device !in db.devices && !TokenUsed(db, token)
      modifies this
      ensures Valid() && Advanced(now) && BookUnchanged()
      ensures var rows := LoginRows(Pruned(old(db), now), account);
              if |rows| != 1 then r == Refused(InvalidCredentials) && db == Pruned(old(db), now) && PinsUntried()
              else exists u :: u in rows && LoginEnds(Pruned(old(db), now), u, pin, device, token, now, r, db)
                               && u in old(tallies) && tallies == Tried(old(tallies), u, Check(old(db), u, pin, now, false))
    {
      var d := Prune(db, now);
      PrunedKeeps(db, now);
      var rows := LoginRows(d, account);
      if |rows| != 1 {
        Commit(d, now);
        return Refused(InvalidCredentials);
      }
      var u :| u in rows;
      r := LoginAs(d, u, pin, device, token, now);
    }

    /** Check one account's PIN after the pruning of a sign-in. */
    method LoginAs(d: Db, u: Id, pin: Pin, device: Id, token: Token, now: int) returns (r: Reply<Id>)
      requires Valid() && Kept(d) && Evolves(db, d) && d == Pruned(db, now)
      requires u in d.security && device !in d.devices && !TokenUsed(d, token)
      modifies this
      ensures Valid() && Advanced(now) && BookUnchanged()
      ensures LoginEnds(d, u, pin, device, token, now, r, db)
      ensures u in old(tallies) && tallies == Tried(old(tallies), u, Check(old(db), u, pin, now, false))
    {
      var e;
      e, r := OpenSession(d, u, pin, device, token, now);
      EvolvesTransitively(db, d, e);
      PruningShrinks(db, now);
      TallyTries(db, e, tallies, u, Check(db, u, pin, now, false));
      CommitTally(e, now, Tried(tallies, u, Check(db, u, pin, now, false)));
    }

    /** End a local session by its token. */
    method RevokeLocal(token: Token, now: int) returns (revoked: bool)
      requires Valid()
      modifies this
      ensures Valid() && Advanced(now) && BookUnchanged() && PinsUntried()
      ensures revoked <==> exists d :: d in old(db).devices && LiveLocal(old(db), d, token)
      ensures revoked ==> exists d :: d in old(db).devices && LiveLocal(old(db), d, token) && db == Disabled(old(db), d)
      ensures !revoked ==> db == old(db)
    {
      Tick(now);
      var matching := set d | d in db.devices && LiveLocal(db, d, token);
      assert forall d :: d in db.devices && LiveLocal(db, d, token) ==> d in matching;
      if matching == {} {
        return false;
      }
      var d :| d in matching;
      DisabledKeeps(db, d);
      Commit(Disabled(db, d), now);
      return true;
    }

    /** Create an account without a role. */
    method CreateUser(p: Principal, id: Id, name: string, pin: Pin, now: int) returns (r: Reply<Id>)
      requires Valid() && id !in db.users
      modifies this
      ensures Valid() && Advanced(now) && BookUnchanged()
      ensures r.Done? <==> Current(old(db), p, now) && p.admin && !NameTaken(old(db), name)
      ensures r.Done? ==> db == old(db).(users := old(db).users[id := User(name, None, true, true)],
                                         security := old(db).security[id := FreshSecurity(pin, false)])
      ensures r.Done? ==> tallies == old(tallies)[id := UNTRIED]
      ensures r.Refused? ==> db == old(db) && PinsUntried()
    {
      Tick(now);
      if !Current(db, p, now) {
        return Refused(StalePrincipal);
      }
      if !p.admin {
        return Refused(AdminRequired);
      }
      if NameTaken(db, name) {
        return Refused(DuplicateUser);
      }
      CurrentIsClaimedOrLegacy(db, p, now);
      AccountKeeps(db, id, name, pin);
      AccountInserts(db, id, name, pin);
      var d := InsertUser(db, id, User(name, None, true, true)).value;
      d := InsertSecurity(d, id, FreshSecurity(pin, false), true).value;
      TallyRestarts(db, d, tallies, id);
      CommitTally(d, now, tallies[id := UNTRIED]);
      return Done(id);
    }

    /** Nothing changes but the time. */
    method Tick(now: int)
      requires Valid()
      modifies this
      ensures Valid() && Advanced(now) && db == old(db) && BookUnchanged() && PinsUntried()
    {
      assert Follows(db, db);
      Commit(db, now);
    }

    /** Replace any invite for the target by a new one. */
    method IssueInvite(p: Principal, target: Id, token: Token, now: int) returns (r: Reply<Token>)
      requires Valid() && token !in db.invites
      modifies this
      ensures Valid() && Advanced(now) && BookUnchanged() && PinsUntried()
      ensures r.Done? <==> Current(old(db), p, now) && p.admin && OwnerControls(old(db), p.owner, PairingInvite, Some(target)) && SecurityUser(old(db), target)
      ensures r.Done? ==> var d := Pruned(old(db), now);
                          db == d.(invites := InvitesExcept(d.invites, target)[token := Invite(target, p.user, p.device, p.version, now + PAIRING_INVITE_SECONDS)])
      ensures r.Refused? ==> db == old(db)
    {
      Tick(now);
      if !Current(db, p, now) {
        return Refused(StalePrincipal);
      }
      if !p.admin {
        return Refused(AdminRequired);
      }
      if !OwnerControls(db, p.owner, PairingInvite, Some(target)) {
        return Refused(OwnerRequired);
      }
      if !SecurityUser(db, target) {
        return Refused(UserNotFound);
      }
      var d := Prune(db, now);
      PrunedKeeps(db, now);
      var invites := InvitesExcept(d.invites, target)[token := Invite(target, p.user, p.device, p.version, now + PAIRING_INVITE_SECONDS)];
      InvitesHaveDevices(d);
      assert p.device in d.devices;
      InviteKeeps(d, invites);
      EvolvesTransitively(db, d, d.(invites := invites));
      Commit(d.(invites := invites), now);
      return Done(token);
    }

    /** Use an invite: with the target's PIN it becomes one mobile device of the target. */
    method Pair(invite: Token, pin: Pin, device: Id, token: Token, now: int) returns (r: Reply<Id>, ghost gone: set<Id>)
      requires Valid() && device !in db.devices
      modifies this
      ensures Valid() && Advanced(now) && BookUnchanged()
      ensures var d := Pruned(old(db), now);
              if !InviteHolds(d, invite, now) then r == Refused(InvalidPairingInvite) && db == old(db) && PinsUntried()
              else
                && PairEnds(old(db), d, invite, pin, device, token, now, gone, r, db)
                && d.invites[invite].target in old(tallies)
                && tallies == Tried(old(tallies), d.invites[invite].target,
                                    Check(old(db), d.invites[invite].target, pin, now, r == Refused(DeviceLimitReached) || r == Refused(Aborted)))
    {
      Tick(now);
      gone := {};
      var d := Prune(db, now);
      PrunedKeeps(db, now);
      if !InviteHolds(d, invite, now) {
        return Refused(InvalidPairingInvite), {};
      }
      ghost var pruned := d;
      var u := d.invites[invite].target;
      var (counter, verdict) := PinCheck(d, u, pin, now);
      d := d.(security := d.security[u := d.security[u].(counter := counter)]);
      PinCheckKeeps(db, pruned, u, pin, now);
      PruningShrinks(db, now);
      if !verdict.Matched? {
        r := Refused(PinCode(verdict));
      } else {
        var e, ok, made := MakeMobileSlot(d, u);
        gone := made;
        if !ok {
          r := Refused(DeviceLimitReached);
        } else {
          var joined := InsertDevice(e, device, MobileDevice(u, token, now));
          if joined.None? {
            r := Refused(Aborted);
          } else {
            PairedKeeps(db, d, invite, made, device, MobileDevice(u, token, now));
            d := joined.value;
            d := d.(invites := d.invites - {invite});
            r := Done(u);
          }
        }
      }
      var rolledBack := r == Refused(DeviceLimitReached) || r == Refused(Aborted);
      if rolledBack {
        d := db;
        assert Follows(db, db);
      }
      ghost var a := Check(db, u, pin, now, rolledBack);
      TallyTries(db, d, tallies, u, a);
      CommitTally(d, now, Tried(tallies, u, a));
    }

    /** The owner names the one regular administrator, or removes one. */
    method SetRole(p: Principal, target: Id, admin: bool, now: int) returns (r: Reply<bool>)
      requires Valid()
      modifies this
      ensures Valid() && Advanced(now) && BookUnchanged() && PinsUntried()
      ensures r.Done? <==> Current(old(db), p, now) && p.admin && p.owner && SecurityUser(old(db), target) && !IsOwner(old(db), target)
      ensures r.Done? ==> db == RoleAssigned(old(db), target, admin)
      ensures r.Refused? ==> db == old(db) && r.code != Aborted
    {
      Tick(now);
      if !Current(db, p, now) {
        return Refused(StalePrincipal);
      }
      if !p.admin {
        return Refused(AdminRequired);
      }
      if !p.owner {
        return Refused(OwnerRequired);
      }
      if !SecurityUser(db, target) {
        return Refused(UserNotFound);
      }
      if IsOwner(db, target) {
        return Refused(OwnerRoleFixed);
      }
      var d := ApplyRole(db, target, admin);
      RoleAssignedKeeps(db, target, admin);
      Commit(d, now);
      return Done(admin);
    }

    /** A new PIN revokes all of the account's credentials. */
    method SetPin(p: Principal, target: Id, pin: Pin, now: int) returns (r: Reply<Id>)
      requires Valid()
      modifies this
      ensures Valid() && Advanced(now) && BookUnchanged()
      ensures r.Done? <==> Current(old(db), p, now) && p.admin && OwnerControls(old(db), p.owner, UserPin, Some(target)) && IsActive(old(db), target)
      ensures r.Done? ==> db == PinChanged(old(db), target, pin)
      ensures r.Done? ==> Rekeyed(old(db), db, target, pin, {}) && OthersKept(old(db), db, target)
                          && db.security[target].admin == (target in old(db).security && old(db).security[target].admin)
      ensures r.Done? ==> tallies == old(tallies)[target := UNTRIED]
      ensures r.Refused? ==> db == old(db) && PinsUntried()
    {
      Tick(now);
      if !Current(db, p, now) {
        return Refused(StalePrincipal);
      }
      if !p.admin {
        return Refused(AdminRequired);
      }
      if !OwnerControls(db, p.owner, UserPin, Some(target)) {
        return Refused(OwnerRequired);
      }
      if !IsActive(db, target) {
        return Refused(UserNotFound);
      }
      PinRowPasses(db, target, pin);
      var updated := if target in db.security then UpdateSecurity(db, target, Renewed(db.security[target], pin))
                     else InsertSecurity(db, target, FreshSecurity(pin, false), true);
      PinChangedKeeps(db, target, pin);
      PinChangedRekeys(db, target, pin);
      TallyRestarts(db, Revoked(updated.value, target), tallies, target);
      CommitTally(Revoked(updated.value, target), now, tallies[target := UNTRIED]);
      return Done(target);
    }

    method RevokeDevice(p: Principal, device: Id, now: int) returns (r: Reply<Id>)
      requires Valid()
      modifies this
      ensures Valid() && Advanced(now) && BookUnchanged() && PinsUntried()
      ensures r.Done? <==> Current(old(db), p, now) && p.admin && device in old(db).devices && old(db).devices[device].active
                           && (IsOwner(old(db), old(db).devices[device].user) ==> p.owner)
      ensures r.Done? ==> db == Disabled(old(db), device)
      ensures r.Refused? ==> db == old(db)
    {
      Tick(now);
      if !Current(db, p, now) {
        return Refused(StalePrincipal);
      }
      if !p.admin {
        return Refused(AdminRequired);
      }
      if device !in db.devices || !db.devices[device].active {
        return Refused(DeviceNotFound);
      }
      if IsOwner(db, db.devices[device].user) && !p.owner {
        return Refused(OwnerRequired);
      }
      DisabledKeeps(db, device);
      Commit(Disabled(db, device), now);
      return Done(device);
    }

    /** Check the PIN of a signed-in account; only its counter moves. */
    method ConfirmSession(p: Principal, pin: Pin, now: int) returns (r: Reply<Id>)
      requires Valid()
      modifies this
      ensures Valid() && Advanced(now) && BookUnchanged()
      ensures !Current(old(db), p, now) ==> r == Refused(StalePrincipal) && db == old(db) && PinsUntried()
      ensures Current(old(db), p, now) ==>
                var (counter, verdict) := PinCheck(old(db), p.user, pin, now);
                && db == WithCounter(old(db), p.user, counter)
                && p.user in old(tallies) && tallies == Tried(old(tallies), p.user, Check(old(db), p.user, pin, now, false))
                && r == if verdict.Matched? then Done(p.user) else Refused(PinCode(verdict))
    {
      Tick(now);
      if !Current(db, p, now) {
        return Refused(StalePrincipal);
      }
      var (counter, verdict) := PinCheck(db, p.user, pin, now);
      assert Evolves(db, db) by {
        assert Follows(db, db);
      }
      PinCheckKeeps(db, db, p.user, pin, now);
      TallyTries(db, WithCounter(db, p.user, counter), tallies, p.user, Check(db, p.user, pin, now, false));
      CommitTally(WithCounter(db, p.user, counter), now, Tried(tallies, p.user, Check(db, p.user, pin, now, false)));
      return if verdict.Matched? then Done(p.user) else Refused(PinCode(verdict));
    }

    /** Issue a one-use grant for 30 s, after a PIN check. A grant refused because the device holds too
        many rolls even the matched PIN back. */
    method Authorize(p: Principal, pin: Pin, action: Action, target: Option<Id>, token: Token, now: int) returns (r: Reply<Token>)
      requires Valid() && token !in issued
      modifies this
      ensures Valid() && Advanced(now) && consumed == old(consumed)
      ensures !Current(old(db), p, now) ==> r == Refused(StalePrincipal)
      ensures Current(old(db), p, now) && AuthorizeRefusal(old(db), p, action, target).Some? ==>
                r == Refused(AuthorizeRefusal(old(db), p, action, target).value) && PinsUntried()
      ensures Current(old(db), p, now) && AuthorizeRefusal(old(db), p, action, target).None? ==>
                var verdict := PinCheck(old(db), p.user, pin, now).1;
                && (!verdict.Matched? ==> r == Refused(PinCode(verdict)))
                && p.user in old(tallies) && tallies == Tried(old(tallies), p.user, Check(old(db), p.user, pin, now, verdict.Matched? && r.Refused?))
                && (verdict.Matched? ==> (r.Done? <==> RoomForGrant(old(db), p, action, EffectiveTarget(p, action, target), now)))
      ensures r.Done? ==> p.user in old(db).security
                          && issued == old(issued)[token := Issue(p.device, p.user, action, EffectiveTarget(p, action, target), p.version, now,
                                                                 EvidenceOf(old(db), p.user, pin))]
                          && origins == old(origins)[token := db]
      ensures r.Done? ==> db == Authorized(old(db), p, action, EffectiveTarget(p, action, target), token, now)
      ensures r.Refused? ==> BookUnchanged()
      ensures r.Refused? ==> db == (if r.code.InvalidCredentials? || r.code.PinLocked? then WithCounter(old(db), p.user, PinCheck(old(db), p.user, pin, now).0) else old(db))
    {
      Tick(now);
      if !Current(db, p, now) {
        return Refused(StalePrincipal);
      }
      var refusal := AuthorizeRefusal(db, p, action, target);
      if refusal.Some? {
        RefusalIsNotThePin(db, p, action, target);
        return Refused(refusal.value);
      }
      var (counter, verdict) := PinCheck(db, p.user, pin, now);
      assert Evolves(db, db) by {
        assert Follows(db, db);
      }
      PinCheckKeeps(db, db, p.user, pin, now);
      var d := WithCounter(db, p.user, counter);
      if !verdict.Matched? {
        TallyTries(db, d, tallies, p.user, Check(db, p.user, pin, now, false));
        CommitTally(d, now, Tried(tallies, p.user, Check(db, p.user, pin, now, false)));
        return Refused(PinCode(verdict));
      }
      var named := EffectiveTarget(p, action, target);
      r := IssueGrant(d, p, pin, action, named, token, now);
    }

    method IssueGrant(counted: Db, p: Principal, ghost pin: Pin, action: Action, target: Option<Id>, token: Token, now: int)
      returns (r: Reply<Token>)
      requires Valid() && now <= clock && token !in issued
      requires Current(db, p, now) && counted == WithCounter(db, p.user, Counter(0, 0))
      requires Kept(counted) && Evolves(db, counted) && PinCheck(db, p.user, pin, now).1.Matched?
      modifies this
      ensures Valid() && Advanced(now) && consumed == old(consumed)
      ensures r.Done? <==> RoomForGrant(old(db), p, action, target, now)
      ensures r.Done? ==> db == Authorized(old(db), p, action, target, token, now)
                          && issued == old(issued)[token := Issue(p.device, p.user, action, target, p.version, now, EvidenceOf(old(db), p.user, pin))]
                          && origins == old(origins)[token := db]
      ensures p.user in old(tallies) && tallies == Tried(old(tallies), p.user, Attempt(now, true, r.Refused?))
      ensures r.Refused? ==> r.code == GrantLimitReached && db == old(db) && BookUnchanged()
    {
      var d := Prune(counted, now);
      d := d.(grants := GrantsExcept(d.grants, p.device, action, target));
      ReadyKeeps(db, counted, p, action, target, now);
      if |GrantsOf(d.grants, p.device)| >= MAX_GRANTS_PER_DEVICE {
        assert Follows(db, db);
        TallyTries(db, db, tallies, p.user, Attempt(now, true, true));
        tallies := Tried(tallies, p.user, Attempt(now, true, true));
        return Refused(GrantLimitReached);
      }
      ghost var i := Issue(p.device, p.user, action, target, p.version, now, EvidenceOf(db, p.user, pin));
      FreshIsNotHeld(db.grants, issued, consumed, clock, token);
      IssueKeepsAfter(db, d, token, GrantFor(i));
      CommitGrant(d, token, Grant(p.device, p.user, action, target, p.version, now + OPERATION_GRANT_SECONDS), i, Attempt(now, true, false));
      return Done(token);
    }

    /** COMMIT of the one transaction that issues a grant. */
    method CommitGrant(d: Db, token: Token, g: Grant, ghost i: Issue, ghost a: Attempt)
      requires Valid() && token !in issued && i.at == a.now <= clock && g == GrantFor(i)
      requires Shrinks(db.grants, d.grants) && Generation(d) == Generation(db)
      requires Kept(d.(grants := d.grants[token := g])) && Evolves(db, d.(grants := d.grants[token := g]))
      requires i.user in db.security && i.user in d.security && d.security[i.user].version == i.version
      requires i.check == EvidenceOf(db, i.user, i.check.offered) && PinMatched(i)
      requires d.security[i.user].counter == After(db.security[i.user].counter, a)
      requires forall v :: v in d.security && v != i.user ==> v in db.security && d.security[v].counter == db.security[v].counter
      modifies this
      ensures Valid() && clock == old(clock) && consumed == old(consumed)
      ensures db == d.(grants := d.grants[token := g])
      ensures issued == old(issued)[token := i] && origins == old(origins)[token := db]
      ensures i.user in old(tallies) && tallies == Tried(old(tallies), i.user, a)
    {
      var after := d.(grants := d.grants[token := g]);
      ShrinkKeepsBook(db.grants, d.grants, issued, consumed, clock, clock);
      IssueKeepsBook(d.grants, issued, consumed, clock, token, i);
      TraceStarts(origins, issued, db, token, i, after);
      TallyTries(db, after, tallies, i.user, a);
      tallies := Tried(tallies, i.user, a);
      db := after;
      issued := issued[token := i];
      origins := origins[token := db];
    }

    /** Use a grant: exactly when it was issued to this device, user, action and target, after a check that
        matched the account's PIN, under the version the account still has, at a reading later than 30 s before this one, and never
        used before. */
    method ConsumeGrant(p: Principal, token: Token, action: Action, target: Option<Id>, now: int) returns (r: Reply<Token>)
      requires Valid()
      modifies this
      ensures Valid() && Advanced(now) && issued == old(issued) && origins == old(origins) && PinsUntried()
      ensures r.Done? <==> Current(old(db), p, now) && ControlRefusal(old(db), p, action, target).None? && Usable(old(db), p, token, action, target, now)
      ensures r.Done? ==>
                && token in issued && token !in old(consumed) && consumed == old(consumed) + {token}
                && issued[token] == Issue(p.device, p.user, action, target, old(db).security[p.user].version, issued[token].at, issued[token].check)
                && PinMatched(issued[token])
                && now - OPERATION_GRANT_SECONDS < issued[token].at <= old(clock)
                && token in origins && Evolves(origins[token], old(db)) && Generation(origins[token]) == Generation(old(db))
                && SameIdentity(origins[token], old(db), p.user)
                && db == old(db).(grants := old(db).grants - {token})
      ensures r.Refused? ==> db == old(db) && consumed == old(consumed)
    {
      IssuedBy(db.grants, issued, consumed, clock);
      Tick(now);
      if !Current(db, p, now) {
        return Refused(StalePrincipal);
      }
      var refusal := ControlRefusal(db, p, action, target);
      if refusal.Some? {
        return Refused(refusal.value);
      }
      if !Usable(db, p, token, action, target, now) {
        return Refused(InvalidOperationGrant);
      }
      DropGrantsKeeps(db, db.grants - {token});
      ConsumeKeepsBook(db.grants, issued, consumed, clock, token);
      TraceFreezes(origins, issued, db, token);
      TraceContinues(origins, issued, db, db.(grants := db.grants - {token}));
      TallyStays(db, db.(grants := db.grants - {token}), tallies);
      db := db.(grants := db.grants - {token});
      consumed := consumed + {token};
      return Done(token);
    }

    // ---- The dashboard's own transactions on the shared database ----

    /** Deleting an account switches it off and forgets its face; the owner and the last administrator
        are refused by the triggers. The role column is left as it was. */
    method DeleteUserAccount(u: Id, now: int) returns (r: Reply<Id>)
      requires Valid()
      modifies this
      ensures Valid() && Advanced(now) && BookUnchanged() && PinsUntried()
      ensures r.Done? <==> IsActive(old(db), u) && !IsOwner(old(db), u) && !KeepLastAdmin(old(db), u)
      ensures r.Done? ==> db == BumpIdentity(old(db).(users := old(db).users[u := old(db).users[u].(active := false, access := false, face := None)]), u)
      ensures r.Refused? ==> db == old(db)
    {
      Tick(now);
      if !IsActive(db, u) {
        return Refused(UserNotFound);
      }
      var updated := UpdateUser(db, u, db.users[u].(active := false, access := false, face := None));
      if updated.None? {
        return Refused(Aborted);
      }
      UserChangedKeeps(db, u, db.users[u].(active := false, access := false, face := None));
      Commit(updated.value, now);
      return Done(u);
    }

    method SetUserAccess(u: Id, allowed: bool, now: int) returns (r: Reply<Id>)
      requires Valid()
      modifies this
      ensures Valid() && Advanced(now) && BookUnchanged() && PinsUntried()
      ensures r.Done? <==> IsActive(old(db), u)
      ensures r.Done? ==> var d := old(db).(users := old(db).users[u := old(db).users[u].(access := allowed)]);
                          db == if old(db).users[u].access == allowed then d else BumpIdentity(d, u)
      ensures r.Refused? ==> db == old(db)
    {
      Tick(now);
      if !IsActive(db, u) {
        return Refused(UserNotFound);
      }
      UserChangedKeeps(db, u, db.users[u].(access := allowed));
      Commit(UpdateUser(db, u, db.users[u].(access := allowed)).value, now);
      return Done(u);
    }

    /** A new host identity voids every device, invite and grant. */
    method RotateHostIdentity(now: int)
      requires Valid()
      modifies this
      ensures Valid() && Advanced(now) && BookUnchanged() && PinsUntried()
      ensures db == Rotated(old(db))
    {
      RotatedKeeps(db);
      Commit(Rotated(db), now);
    }

    // ---- Commissioning ----

    /** Claim an unclaimed product: its first user becomes the owner. Nothing else can stop it. */
    method Claim(activation: Token, available: bool, user: Id, name: string, pin: Pin, device: Id, token: Token, recovery: Token, now: int) returns (r: Reply<Id>)
      requires Valid()
      modifies this
      ensures Valid() && Advanced(now) && BookUnchanged()
      ensures r.Done? <==> Unclaimed(old(db)) && old(db).lifecycle.value.ownership.activation == activation && available
      ensures r.Done? ==> r.value == user && db == Owned(old(db), user, name, pin, device, MobileDevice(user, token, now), recovery)
      ensures r.Done? ==> tallies == old(tallies)[user := UNTRIED]
      ensures r.Refused? ==> db == old(db) && PinsUntried()
      ensures r.Refused? ==> r.code == if old(db).lifecycle.None? then CommissioningUnavailable
                                       else if !(Unclaimed(old(db)) && old(db).lifecycle.value.ownership.activation == activation) then InvalidActivation
                                       else NotAvailable
    {
      Tick(now);
      if db.lifecycle.None? {
        return Refused(CommissioningUnavailable);
      }
      var state := db.lifecycle.value;
      if !state.ownership.AwaitingClaim? || state.ownership.activation != activation {
        return Refused(InvalidActivation);
      }
      if !available {
        return Refused(NotAvailable);
      }
      ClaimPasses(db, user, name, pin, device, token, recovery, now);
      var d := InsertUser(db, user, User(name, None, true, true)).value;
      d := InsertSecurity(d, user, FreshSecurity(pin, true), true).value;
      d := InsertDevice(d, device, MobileDevice(user, token, now)).value;
      d := PutLifecycle(d, Lifecycle(ClaimedBy(user, recovery), state.generation)).value;
      OwnedKeeps(db, user, name, pin, device, MobileDevice(user, token, now), recovery);
      TallyRestarts(db, d, tallies, user);
      CommitTally(d, now, tallies[user := UNTRIED]);
      return Done(user);
    }

    /** Recover a claimed product: every credential goes, and the owner gets a new PIN, device and
        recovery secret. The owner is never missing. */
    method Recover(secret: Token, authorized: bool, pin: Pin, device: Id, token: Token, recovery: Token, now: int) returns (r: Reply<Id>)
      requires Valid()
      modifies this
      ensures Valid() && Advanced(now) && BookUnchanged()
      ensures r.Done? <==> Claimed(old(db)) && old(db).lifecycle.value.ownership.recovery == secret && authorized
      ensures r.Done? ==> Owner(old(db)) in old(db).security && r.value == Owner(old(db))
                          && db == Recovered(old(db), pin, device, MobileDevice(Owner(old(db)), token, now), recovery)
      ensures r.Done? ==> Rekeyed(old(db), db, r.value, pin, {device}) && db.security[r.value].admin
                          && db.devices == map[device := MobileDevice(r.value, token, now)] && db.grants == map[] && db.invites == map[]
                          && db.lifecycle == Some(Lifecycle(ClaimedBy(r.value, recovery), Generation(old(db))))
      ensures r.Done? ==> tallies == old(tallies)[r.value := UNTRIED]
      ensures r.Refused? ==> db == old(db) && r.code != OwnershipInconsistent && PinsUntried()
      ensures r.Refused? ==> r.code == if old(db).lifecycle.None? then CommissioningUnavailable
                                       else if !(Claimed(old(db)) && old(db).lifecycle.value.ownership.recovery == secret) then InvalidRecovery
                                       else NotAvailable
    {
      Tick(now);
      if db.lifecycle.None? {
        return Refused(CommissioningUnavailable);
      }
      var state := db.lifecycle.value;
      if !state.ownership.ClaimedBy? || state.ownership.recovery != secret {
        return Refused(InvalidRecovery);
      }
      if !authorized {
        return Refused(NotAvailable);
      }
      var o := state.ownership.owner;
      RecoverPasses(db, pin, device, token, recovery, now);
      if !ActiveAdmin(db, o) {
        return Refused(OwnershipInconsistent);
      }
      var d := db.(grants := map[]);
      d := d.(invites := map[]);
      d := d.(devices := map[]);
      d := UpdateSecurity(d, o, Renewed(d.security[o], pin).(admin := true)).value;
      d := InsertDevice(d, device, MobileDevice(o, token, now)).value;
      d := d.(lifecycle := Some(state.(ownership := ClaimedBy(o, recovery))));
      RecoveredKeeps(db, pin, device, MobileDevice(o, token, now), recovery);
      RecoveredRekeys(db, pin, device, MobileDevice(o, token, now), recovery);
      TallyRestarts(db, d, tallies, o);
      CommitTally(d, now, tallies[o := UNTRIED]);
      return Done(o);
    }

    /** The product part of a reset: with the triggers dropped, every identity goes and the next
        generation awaits its claim. */
    method ResetProduct(activation: Token, now: int) returns (r: Reply<nat>)
      requires Valid()
      modifies this
      ensures Valid() && Advanced(now) && BookUnchanged() && PinsUntried()
      ensures r.Done? <==> old(db).lifecycle.Some?
      ensures r.Done? ==> db == Wiped(old(db), activation) && r.value == Generation(old(db)) + 1
      ensures r.Refused? ==> db == old(db)
    {
      Tick(now);
      if db.lifecycle.None? {
        return Refused(CommissioningUnavailable);
      }
      var next := db.lifecycle.value.generation + 1;
      var d := db.(grants := map[]);
      d := d.(invites := map[]);
      d := d.(devices := map[]);
      d := d.(security := map[]);
      d := d.(users := map[]);
      d := PutLifecycle(d, Lifecycle(AwaitingClaim(activation), next)).value;
      WipedKeeps(db, activation);
      Commit(d, now);
      return Done(next);
    }

    /** The stopped-service recovery of a legacy product makes one named user an administrator. */
    method RecoverAdmin(name: string, pin: Pin, now: int) returns (r: Reply<Id>)
      requires Valid()
      modifies this
      ensures Valid() && Advanced(now) && BookUnchanged()
      ensures r.Done? <==> (old(db).lifecycle.None? || old(db).lifecycle.value.ownership.Legacy?) && |ActiveNamed(old(db), name)| == 1
      ensures r.Done? ==> r.value in ActiveNamed(old(db), name) && db == AdminRecovered(old(db), r.value, pin)
      ensures r.Done? ==> Rekeyed(old(db), db, r.value, pin, {}) && OthersKept(old(db), db, r.value) && db.security[r.value].admin
      ensures r.Done? ==> tallies == old(tallies)[r.value := UNTRIED]
      ensures r.Refused? ==> db == old(db) && PinsUntried()
    {
      Tick(now);
      if db.lifecycle.Some? && !db.lifecycle.value.ownership.Legacy? {
        return Refused(NotAvailable);
      }
      var named := ActiveNamed(db, name);
      if |named| != 1 {
        return Refused(UserNotFound);
      }
      var u :| u in named;
      AdminRecoveredKeeps(db, u, pin);
      AdminRecoveredRekeys(db, u, pin);
      var updated := if u in db.security then UpdateSecurity(db, u, Renewed(db.security[u], pin).(admin := true))
                     else InsertSecurity(db, u, FreshSecurity(pin, true), true);
      TallyRestarts(db, Revoked(updated.value, u), tallies, u);
      CommitTally(Revoked(updated.value, u), now, tallies[u := UNTRIED]);
      return Done(u);
    }
  }
}
