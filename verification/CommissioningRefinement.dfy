/** The database host does what the host of the commissioning protocol does: one submission of a request is
    one message processed, and a product reset is a reset. */
module CommissioningRefinement {
  import opened Outcomes
  import opened SecuritySchema
  import opened SecurityState
  import Protocol = Commissioning
  import Receipts = CommissioningStore
  import PinPolicy
  import Store = SecurityStore

  // ---- Requests as messages ----

  function MessageOf(id: Receipts.RequestId, r: Receipts.Request): Protocol.Message {
    match r
    case ClaimRequest(activation, name, pin, token, recovery) =>
      Protocol.Message(Protocol.Pending(id, Protocol.Card(Protocol.Activation, activation), token, recovery, name), pin)
    case RecoverRequest(secret, pin, token, recovery) =>
      Protocol.Message(Protocol.Pending(id, Protocol.Card(Protocol.Recovery, secret), token, recovery, ""), pin)
    case PairRequest(invite, pin, token) =>
      Protocol.Message(Protocol.Pending(id, Protocol.Card(Protocol.PairingInvite, invite), token, "", ""), pin)
  }

  /** A message names one request. */
  lemma MessagesAreDistinct(id: Receipts.RequestId, a: Receipts.Request, b: Receipts.Request)
    ensures MessageOf(id, a) == MessageOf(id, b) <==> a == b
  {
  }

  function EntryOf(id: Receipts.RequestId, a: Receipts.Attempt): Protocol.Entry {
    Protocol.Entry(a.response.generation, id, Receipts.DeviceToken(a.request), a.response.device, a.response.user,
                   Protocol.NewRecovery(MessageOf(id, a.request).pending))
  }

  // ---- The database as a host ----

  /** The invite is good but for the clock: all the authority it was issued under stands. */
  predicate Standing(db: Db, t: Token) {
    && t in db.invites
    && var i := db.invites[t];
    && Store.SecurityUser(db, i.target)
    && i.device in db.devices && db.devices[i.device].user == i.issuer && db.devices[i.device].active
    && ActiveAdmin(db, i.issuer) && db.security[i.issuer].version == i.version
  }

  /** The reading at which it ends: its own, or that of the session that issued it. */
  function EndOf(db: Db, t: Token): int
    requires Standing(db, t)
  {
    var i := db.invites[t];
    var session := db.devices[i.device].expires;
    if session.Some? && session.value < i.expires then session.value else i.expires
  }

  function InvitesOf(db: Db): map<Token, Protocol.Invite> {
    map t | t in db.invites && Standing(db, t) :: Protocol.Invite(db.invites[t].target, EndOf(db, t))
  }

  /** A product that is neither legacy nor without a lifecycle. */
  predicate Governed(db: Db) {
    Unclaimed(db) || Claimed(db)
  }

  function OwnershipOf(db: Db): Protocol.Ownership
    requires Governed(db)
  {
    match db.lifecycle.value.ownership
    case AwaitingClaim(activation) => Protocol.Unowned(activation)
    case ClaimedBy(owner, recovery) => Protocol.OwnedBy(owner, recovery)
  }

  function ReceiptsOf(attempts: map<Receipts.RequestId, Receipts.Attempt>): map<Receipts.RequestId, Protocol.Receipt> {
    map id | id in attempts :: Protocol.Receipt(MessageOf(id, attempts[id].request), EntryOf(id, attempts[id]))
  }

  /** `log` are the devices created for requests so far. */
  function HostOf(db: Db, attempts: map<Receipts.RequestId, Receipts.Attempt>, log: seq<Protocol.Entry>): Protocol.Host
    requires Governed(db)
  {
    Protocol.Host(Generation(db), OwnershipOf(db), InvitesOf(db), ReceiptsOf(attempts), log)
  }

  /** Pruning at a reading may withdraw invites that had ended by then, and does nothing else. */
  predicate Pruning(before: Protocol.Host, after: Protocol.Host, now: int) {
    && after == before.(invites := after.invites)
    && (forall t :: t in after.invites ==> t in before.invites && after.invites[t] == before.invites[t])
    && (forall t :: t in before.invites && t !in after.invites ==> before.invites[t].expires <= now)
  }

  lemma HoldsExactly(db: Db, t: Token, now: int)
    ensures Store.InviteHolds(db, t, now) <==> t in InvitesOf(db) && InvitesOf(db)[t].expires > now
    ensures Store.InviteHolds(db, t, now) ==> InvitesOf(db)[t].user == db.invites[t].target
  {
  }

  // ---- What pruning, counters and device rows do to the invites ----

  /** The invites of `b` are those of `a`, except for some that had ended. */
  predicate InvitesPruned(a: map<Token, Protocol.Invite>, b: map<Token, Protocol.Invite>, now: int) {
    && (forall t :: t in b ==> t in a && b[t] == a[t])
    && (forall t :: t in a && t !in b ==> a[t].expires <= now)
  }

  lemma PruningInvites(db: Db, now: int)
    ensures InvitesPruned(InvitesOf(db), InvitesOf(Pruned(db, now)), now)
  {
    var d := Pruned(db, now);
    forall t | t in db.invites && Standing(db, t) && !(t in d.invites && Standing(d, t)) ensures EndOf(db, t) <= now {
    }
    forall t | t in d.invites && Standing(d, t) ensures Standing(db, t) && EndOf(db, t) == EndOf(d, t) {
    }
  }

  lemma PrunedHolds(db: Db, t: Token, now: int)
    ensures Store.InviteHolds(Pruned(db, now), t, now) <==> Store.InviteHolds(db, t, now)
    ensures Store.InviteHolds(db, t, now) ==> Pruned(db, now).invites[t] == db.invites[t]
  {
    PruningInvites(db, now);
    HoldsExactly(db, t, now);
    HoldsExactly(Pruned(db, now), t, now);
  }

  lemma CounterInvites(db: Db, u: Id, c: PinPolicy.Counter)
    requires u in db.security
    ensures InvitesOf(WithCounter(db, u, c)) == InvitesOf(db)
  {
    var d := WithCounter(db, u, c);
    forall t | t in db.invites ensures Standing(d, t) <==> Standing(db, t) {
    }
  }

  /** No invite that stands was issued from an inactive device. */
  lemma SlotInvites(db: Db, u: Id, gone: set<Id>)
    requires gone <= Store.InactiveMobiles(db, u)
    ensures InvitesOf(WithoutDevices(db, gone)) == InvitesOf(db)
  {
    var d := WithoutDevices(db, gone);
    forall t | t in db.invites && Standing(db, t) ensures t in d.invites && Standing(d, t) && EndOf(d, t) == EndOf(db, t) {
      assert db.invites[t].device !in gone;
    }
  }

  lemma JoinInvites(db: Db, device: Id, row: Device)
    requires device !in db.devices && forall t :: t in db.invites ==> db.invites[t].device in db.devices
    ensures InvitesOf(Joined(db, device, row)) == InvitesOf(db)
  {
    var d := Joined(db, device, row);
    forall t | t in db.invites ensures Standing(d, t) <==> Standing(db, t) {
    }
  }

  lemma UsedInvite(db: Db, t: Token)
    ensures InvitesOf(db.(invites := db.invites - {t})) == InvitesOf(db) - {t}
  {
    var d := db.(invites := db.invites - {t});
    forall k | k in d.invites ensures Standing(d, k) <==> Standing(db, k) {
    }
  }

  // ---- One submission ----

  predicate RefusesSecret(code: Receipts.Code) {
    code == Receipts.Denied(Store.InvalidActivation) || code == Receipts.Denied(Store.InvalidPairingInvite)
  }

  /** What the protocol leaves open, as the submission decided it. */
  function PlanOf(c: Receipts.Circumstances, now: int, r: Result<Receipts.Response, Receipts.Code>): Protocol.Plan {
    Protocol.Plan(now, false, r.Failure? && !RefusesSecret(r.error), false, c.device, c.user)
  }

  predicate SameAnswer(id: Receipts.RequestId, request: Receipts.Request, r: Result<Receipts.Response, Receipts.Code>, reply: Protocol.Reply) {
    match r
    case Success(response) => reply == Protocol.Committed(EntryOf(id, Receipts.Attempt(request, response)))
    case Failure(code) => reply == if RefusesSecret(code) then Protocol.InvalidSecret else Protocol.OtherRefusal
  }

  function AttemptsAfter(attempts: map<Receipts.RequestId, Receipts.Attempt>, id: Receipts.RequestId, request: Receipts.Request,
                         r: Result<Receipts.Response, Receipts.Code>): map<Receipts.RequestId, Receipts.Attempt>
  {
    if r.Success? then attempts[id := Receipts.Attempt(request, r.value)] else attempts
  }

  function LogAfter(log: seq<Protocol.Entry>, id: Receipts.RequestId, request: Receipts.Request,
                    r: Result<Receipts.Response, Receipts.Code>): seq<Protocol.Entry>
  {
    if r.Success? then log + [EntryOf(id, Receipts.Attempt(request, r.value))] else log
  }

  lemma ReceiptAdded(attempts: map<Receipts.RequestId, Receipts.Attempt>, id: Receipts.RequestId, a: Receipts.Attempt)
    ensures ReceiptsOf(attempts[id := a]) == ReceiptsOf(attempts)[id := Protocol.Receipt(MessageOf(id, a.request), EntryOf(id, a))]
  {
  }

  /** The submission is a step of the protocol host, up to invites that had ended. */
  ghost predicate IsProcess(before: Db, attempts: map<Receipts.RequestId, Receipts.Attempt>, log: seq<Protocol.Entry>,
                            id: Receipts.RequestId, request: Receipts.Request, c: Receipts.Circumstances, now: int,
                            r: Result<Receipts.Response, Receipts.Code>, after: Db)
    requires Governed(before)
  {
    var (g, reply) := Protocol.Process(HostOf(before, attempts, log), MessageOf(id, request), PlanOf(c, now, r));
    && Governed(after) && SameAnswer(id, request, r, reply)
    && Pruning(g, HostOf(after, AttemptsAfter(attempts, id, request, r), LogAfter(log, id, request, r)), now)
  }

  lemma RefusalIsProcess(before: Db, attempts: map<Receipts.RequestId, Receipts.Attempt>, log: seq<Protocol.Entry>,
                         id: Receipts.RequestId, request: Receipts.Request, c: Receipts.Circumstances, now: int,
                         r: Result<Receipts.Response, Receipts.Code>, after: Db)
    requires Governed(before) && Governed(after) && id !in attempts && r.Failure?
    requires var card := MessageOf(id, request).pending.card;
             RefusesSecret(r.error) <==> Protocol.Dead(HostOf(before, attempts, log), card, now) && !card.kind.Recovery?
    requires Pruning(HostOf(before, attempts, log), HostOf(after, attempts, log), now)
    ensures IsProcess(before, attempts, log, id, request, c, now, r, after)
  {
  }

  /** The entry a commit logs is the receipt's. */
  lemma CommittedEntry(h: Protocol.Host, id: Receipts.RequestId, request: Receipts.Request, plan: Protocol.Plan, response: Receipts.Response)
    requires !Protocol.Dead(h, MessageOf(id, request).pending.card, plan.now)
    requires response == Receipts.Response(Protocol.Committing(h, MessageOf(id, request), plan).1.user, plan.device, h.generation)
    ensures Protocol.Committing(h, MessageOf(id, request), plan).1 == EntryOf(id, Receipts.Attempt(request, response))
  {
  }

  lemma CommittedHost(h: Protocol.Host, m: Protocol.Message, plan: Protocol.Plan)
    requires !Protocol.Dead(h, m.pending.card, plan.now)
    ensures var (g, entry) := Protocol.Committing(h, m, plan);
            && g.generation == h.generation && g.receipts == h.receipts[m.pending.request := Protocol.Receipt(m, entry)]
            && g.log == h.log + [entry]
  {
  }

  /** What a commit makes of the host. */
  lemma CommitIsProcess(before: Db, attempts: map<Receipts.RequestId, Receipts.Attempt>, log: seq<Protocol.Entry>,
                        id: Receipts.RequestId, request: Receipts.Request, c: Receipts.Circumstances, now: int,
                        r: Result<Receipts.Response, Receipts.Code>, after: Db)
    requires Governed(before) && Governed(after) && id !in attempts && r.Success?
    requires r.value.device == c.device && r.value.generation == Generation(before) == Generation(after)
    requires !Protocol.Dead(HostOf(before, attempts, log), MessageOf(id, request).pending.card, now)
    requires var h := HostOf(before, attempts, log);
             var (g, entry) := Protocol.Committing(h, MessageOf(id, request), PlanOf(c, now, r));
             && r.value.user == entry.user && OwnershipOf(after) == g.ownership && InvitesPruned(g.invites, InvitesOf(after), now)
    ensures IsProcess(before, attempts, log, id, request, c, now, r, after)
  {
    var h := HostOf(before, attempts, log);
    ReceiptAdded(attempts, id, Receipts.Attempt(request, r.value));
    CommittedEntry(h, id, request, PlanOf(c, now, r), r.value);
    CommittedHost(h, MessageOf(id, request), PlanOf(c, now, r));
  }

  lemma ClaimCommits(before: Db, attempts: map<Receipts.RequestId, Receipts.Attempt>, log: seq<Protocol.Entry>,
                        id: Receipts.RequestId, request: Receipts.Request, c: Receipts.Circumstances, now: int,
                        r: Result<Receipts.Response, Receipts.Code>, after: Db)
    requires Kept(before) && Governed(before) && id !in attempts && request.ClaimRequest?
    requires Receipts.Decided(before, request, c, now, r, after) && r.Success?
    requires r.value.device == c.device && r.value.generation == Generation(before)
    ensures IsProcess(before, attempts, log, id, request, c, now, r, after)
  {
    NoInvitesUnclaimed(before);
    NoInvites(before);
    NoInvites(after);
    CommitIsProcess(before, attempts, log, id, request, c, now, r, after);
  }

  lemma ClaimIsProcess(before: Db, attempts: map<Receipts.RequestId, Receipts.Attempt>, log: seq<Protocol.Entry>,
                        id: Receipts.RequestId, request: Receipts.Request, c: Receipts.Circumstances, now: int,
                        r: Result<Receipts.Response, Receipts.Code>, after: Db)
    requires Kept(before) && Governed(before) && id !in attempts && request.ClaimRequest?
    requires Receipts.Decided(before, request, c, now, r, after)
    requires r.Success? ==> r.value.device == c.device && r.value.generation == Generation(before)
    ensures IsProcess(before, attempts, log, id, request, c, now, r, after)
  {
    if r.Success? {
      ClaimCommits(before, attempts, log, id, request, c, now, r, after);
    } else {
      RefusalIsProcess(before, attempts, log, id, request, c, now, r, after);
    }
  }

  lemma NoInvitesUnclaimed(db: Db)
    requires Kept(db) && Unclaimed(db)
    ensures db.invites == map[]
  {
    assert StoreOk(db);
  }

  lemma NoInvites(db: Db)
    requires db.invites == map[]
    ensures InvitesOf(db) == map[]
  {
  }

  lemma RecoveryIsProcess(before: Db, attempts: map<Receipts.RequestId, Receipts.Attempt>, log: seq<Protocol.Entry>,
                          id: Receipts.RequestId, request: Receipts.Request, c: Receipts.Circumstances, now: int,
                          r: Result<Receipts.Response, Receipts.Code>, after: Db)
    requires Governed(before) && id !in attempts && request.RecoverRequest?
    requires Receipts.Decided(before, request, c, now, r, after)
    requires r.Success? ==> r.value.device == c.device && r.value.generation == Generation(before)
    ensures IsProcess(before, attempts, log, id, request, c, now, r, after)
  {
    if r.Success? {
      NoInvites(after);
      CommitIsProcess(before, attempts, log, id, request, c, now, r, after);
    } else {
      RefusalIsProcess(before, attempts, log, id, request, c, now, r, after);
    }
  }

  /** The invites after a pairing whose PIN was right. */
  lemma PairingInvites(before: Db, now: int, u: Id, counter: PinPolicy.Counter, invite: Token, gone: set<Id>, device: Id, row: Device)
    requires Kept(before) && u in Pruned(before, now).security && device !in before.devices
    requires gone <= Store.InactiveMobiles(WithCounter(Pruned(before, now), u, counter), u)
    ensures InvitesPruned(InvitesOf(before) - {invite},
                          InvitesOf(Store.Paired(WithCounter(Pruned(before, now), u, counter), invite, gone, device, row)), now)
  {
    assert forall t :: t in before.invites ==> before.invites[t].device in before.devices by {
      assert StoreOk(before);
    }
    var d := Pruned(before, now);
    var e := WithCounter(d, u, counter);
    var f := WithoutDevices(e, gone);
    PruningInvites(before, now);
    CounterInvites(d, u, counter);
    SlotInvites(e, u, gone);
    JoinInvites(f, device, row);
    UsedInvite(Joined(f, device, row), invite);
  }

  lemma PairingCommits(before: Db, attempts: map<Receipts.RequestId, Receipts.Attempt>, log: seq<Protocol.Entry>,
                        id: Receipts.RequestId, request: Receipts.Request, c: Receipts.Circumstances, now: int,
                        r: Result<Receipts.Response, Receipts.Code>, after: Db, gone: set<Id>)
    requires Kept(before) && Governed(before) && id !in attempts && request.PairRequest? && c.device !in before.devices
    requires r.Success? && r.value.device == c.device && r.value.generation == Generation(before)
    requires var d := Pruned(before, now);
             && Store.InviteHolds(d, request.invite, now)
             && Store.PairEnds(before, d, request.invite, request.pairPin, c.device, request.pairToken, now, gone, Receipts.ReplyOf(r), after)
    ensures IsProcess(before, attempts, log, id, request, c, now, r, after)
  {
    var d := Pruned(before, now);
    var u := d.invites[request.invite].target;
    var counter := Store.PinCheck(d, u, request.pairPin, now).0;
    PrunedHolds(before, request.invite, now);
    HoldsExactly(before, request.invite, now);
    PairingInvites(before, now, u, counter, request.invite, gone, c.device, Store.MobileDevice(u, request.pairToken, now));
    CommitIsProcess(before, attempts, log, id, request, c, now, r, after);
  }

  lemma PairingRefuses(before: Db, attempts: map<Receipts.RequestId, Receipts.Attempt>, log: seq<Protocol.Entry>,
                        id: Receipts.RequestId, request: Receipts.Request, c: Receipts.Circumstances, now: int,
                        r: Result<Receipts.Response, Receipts.Code>, after: Db, gone: set<Id>)
    requires Governed(before) && id !in attempts && request.PairRequest? && r.Failure? && r.error.Denied? && !RefusesSecret(r.error)
    requires var d := Pruned(before, now);
             && Store.InviteHolds(d, request.invite, now)
             && Store.PairEnds(before, d, request.invite, request.pairPin, c.device, request.pairToken, now, gone, Receipts.ReplyOf(r), after)
    ensures IsProcess(before, attempts, log, id, request, c, now, r, after)
  {
    var d := Pruned(before, now);
    var u := d.invites[request.invite].target;
    PrunedHolds(before, request.invite, now);
    HoldsExactly(before, request.invite, now);
    PruningInvites(before, now);
    CounterInvites(d, u, Store.PinCheck(d, u, request.pairPin, now).0);
    RefusalIsProcess(before, attempts, log, id, request, c, now, r, after);
  }

  lemma PairingIsProcess(before: Db, attempts: map<Receipts.RequestId, Receipts.Attempt>, log: seq<Protocol.Entry>,
                        id: Receipts.RequestId, request: Receipts.Request, c: Receipts.Circumstances, now: int,
                        r: Result<Receipts.Response, Receipts.Code>, after: Db)
    requires Kept(before) && Governed(before) && id !in attempts && request.PairRequest? && c.device !in before.devices
    requires Receipts.Decided(before, request, c, now, r, after)
    requires r.Success? ==> r.value.device == c.device && r.value.generation == Generation(before)
    requires r.Failure? ==> r.error.Denied?
    ensures IsProcess(before, attempts, log, id, request, c, now, r, after)
  {
    var d := Pruned(before, now);
    if !Store.InviteHolds(d, request.invite, now) {
      PrunedHolds(before, request.invite, now);
      HoldsExactly(before, request.invite, now);
      RefusalIsProcess(before, attempts, log, id, request, c, now, r, after);
    } else {
      var gone :| Store.PairEnds(before, d, request.invite, request.pairPin, c.device, request.pairToken, now, gone, Receipts.ReplyOf(r), after);
      if r.Success? {
        PairingCommits(before, attempts, log, id, request, c, now, r, after, gone);
      } else {
        PairingRefuses(before, attempts, log, id, request, c, now, r, after, gone);
      }
    }
  }

  /** A request without a receipt: whatever CommissioningStore.Submit decides is one Process step of the protocol
      host, with the same answer, up to invites that had ended by then. */
  lemma SubmitIsProcess(before: Db, attempts: map<Receipts.RequestId, Receipts.Attempt>, log: seq<Protocol.Entry>,
                        id: Receipts.RequestId, request: Receipts.Request, c: Receipts.Circumstances, now: int,
                        r: Result<Receipts.Response, Receipts.Code>, after: Db)
    requires Kept(before) && Governed(before) && id !in attempts && c.device !in before.devices
    requires Receipts.Decided(before, request, c, now, r, after)
    requires r.Success? ==> r.value.device == c.device && r.value.generation == Generation(before)
    requires r.Failure? ==> r.error.Denied?
    ensures IsProcess(before, attempts, log, id, request, c, now, r, after)
  {
    match request
    case ClaimRequest(_, _, _, _, _) => ClaimIsProcess(before, attempts, log, id, request, c, now, r, after);
    case RecoverRequest(_, _, _, _) => RecoveryIsProcess(before, attempts, log, id, request, c, now, r, after);
    case PairRequest(_, _, _) => PairingIsProcess(before, attempts, log, id, request, c, now, r, after);
  }

  /** A repeated request id is answered as the protocol host answers it, and changes nothing. */
  lemma ReplayIsProcess(db: Db, attempts: map<Receipts.RequestId, Receipts.Attempt>, log: seq<Protocol.Entry>,
                        id: Receipts.RequestId, request: Receipts.Request, c: Receipts.Circumstances, now: int)
    requires Governed(db) && id in attempts
    ensures var h := HostOf(db, attempts, log);
            var r := if attempts[id].request == request then Success(attempts[id].response) else Failure(Receipts.RequestIdReused);
            Protocol.Process(h, MessageOf(id, request), PlanOf(c, now, r))
            == (h, if r.Success? then Protocol.Committed(EntryOf(id, attempts[id])) else Protocol.OtherRefusal)
  {
    MessagesAreDistinct(id, attempts[id].request, request);
  }

  /** CommissioningStore.Reset is the reset of the protocol host. */
  lemma ResetIsReset(db: Db, attempts: map<Receipts.RequestId, Receipts.Attempt>, log: seq<Protocol.Entry>, activation: Token)
    requires Governed(db)
    ensures Governed(Wiped(db, activation))
    ensures HostOf(Wiped(db, activation), map[], log) == Protocol.Reset(HostOf(db, attempts, log), activation)
  {
    assert InvitesOf(Wiped(db, activation)) == map[] && ReceiptsOf(map[]) == map[];
  }

  // ---- The two hosts side by side ----

  /** Submit, run beside the protocol host that it refines. */
  method SubmitBeside(store: Receipts.CommissioningStore, id: Receipts.RequestId, request: Receipts.Request,
                      c: Receipts.Circumstances, now: int, ghost log: seq<Protocol.Entry>)
    returns (r: Result<Receipts.Response, Receipts.Code>)
    requires store.security.Valid() && Governed(store.security.db) && c.device !in store.security.db.devices
    modifies store, store.security
    ensures store.security.Valid() && Governed(store.security.db)
    ensures var (g, reply) := Protocol.Process(old(HostOf(store.security.db, store.attempts, log)), MessageOf(id, request), PlanOf(c, now, r));
            && SameAnswer(id, request, r, reply)
            && Pruning(g, HostOf(store.security.db, store.attempts, if id in old(store.attempts) then log else LogAfter(log, id, request, r)), now)
  {
    ghost var before, attempts := store.security.db, store.attempts;
    r := store.Submit(id, request, c, now);
    if id in attempts {
      ReplayIsProcess(before, attempts, log, id, request, c, now);
      assert Pruning(HostOf(before, attempts, log), HostOf(store.security.db, store.attempts, log), now);
    } else {
      SubmitIsProcess(before, attempts, log, id, request, c, now, r, store.security.db);
      assert IsProcess(before, attempts, log, id, request, c, now, r, store.security.db);
    }
  }
}
