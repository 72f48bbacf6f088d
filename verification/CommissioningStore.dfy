/** Request replay at the host: claim, recovery and resumable pairing each commit together with a
    receipt, and a repeated request is answered from it. */
module CommissioningStore {
  import opened Outcomes
  import opened SecuritySchema
  import opened SecurityState
  import Store = SecurityStore

  type RequestId = string

  /** The digested request: its kind and every value of the body, the PIN included. */
  datatype Request =
    | ClaimRequest(activation: Token, name: string, claimPin: Pin, claimToken: Token, claimRecovery: Token)
    | RecoverRequest(secret: Token, recoverPin: Pin, recoverToken: Token, newRecovery: Token)
    | PairRequest(invite: Token, pairPin: Pin, pairToken: Token)

  datatype Response = Response(user: Id, device: Id, generation: nat)

  datatype Attempt = Attempt(request: Request, response: Response)

  datatype Code = Denied(code: Store.Code) | RequestIdReused

  function DeviceToken(r: Request): Token {
    match r
    case ClaimRequest(_, _, _, token, _) => token
    case RecoverRequest(_, _, token, _) => token
    case PairRequest(_, _, token) => token
  }

  /** What may decide a request besides its body: the maintenance and power gate, the recovery window,
      and the identifiers the host draws. */
  datatype Circumstances = Circumstances(available: bool, window: bool, user: Id, device: Id)

  /** The device of a response is the one the request asked for. */
  predicate DeviceOf(db: Db, a: Attempt) {
    && a.response.device in db.devices
    && db.devices[a.response.device].user == a.response.user
    && db.devices[a.response.device].token == DeviceToken(a.request)
    && db.devices[a.response.device].active && !db.devices[a.response.device].local
  }

  /** Why a claim or recovery is refused: without a lifecycle, for its secret, or for the gate or window. */
  function Refusal(db: Db, right: bool, wrong: Store.Code): Store.Code {
    if db.lifecycle.None? then Store.CommissioningUnavailable else if !right then wrong else Store.NotAvailable
  }

  /** What became of a request that had no receipt. */
  ghost predicate Decided(before: Db, request: Request, c: Circumstances, now: int, r: Result<Response, Code>, after: Db) {
    match request
    case ClaimRequest(activation, name, pin, token, recovery) =>
      var right := Unclaimed(before) && before.lifecycle.value.ownership.activation == activation;
      && (r.Success? <==> right && c.available)
      && (r.Success? ==> r.value.user == c.user
                         && after == Owned(before, c.user, name, pin, c.device, Store.MobileDevice(c.user, token, now), recovery))
      && (r.Failure? ==> after == before && r == Failure(Denied(Refusal(before, right, Store.InvalidActivation))))
    case RecoverRequest(secret, pin, token, recovery) =>
      && (r.Success? <==> Claimed(before) && before.lifecycle.value.ownership.recovery == secret && c.window)
      && (r.Success? ==> Owner(before) in before.security && r.value.user == Owner(before)
                         && after == Recovered(before, pin, c.device, Store.MobileDevice(Owner(before), token, now), recovery))
      && (r.Failure? ==> after == before
                         && r == Failure(Denied(Refusal(before, Claimed(before) && before.lifecycle.value.ownership.recovery == secret,
                                                        Store.InvalidRecovery))))
    case PairRequest(invite, pin, token) =>
      var d := Pruned(before, now);
      if !Store.InviteHolds(d, invite, now) then r == Failure(Denied(Store.InvalidPairingInvite)) && after == before
      else
        && (exists gone :: Store.PairEnds(before, d, invite, pin, c.device, token, now, gone, ReplyOf(r), after))
        && (r.Failure? ==> r.error.Denied? && r.error.code != Store.InvalidPairingInvite)
  }

  /** A committed request has made its one device, and a refused one none. */
  lemma DecidedDevices(before: Db, request: Request, c: Circumstances, now: int, r: Result<Response, Code>, after: Db)
    requires Decided(before, request, c, now, r, after)
    ensures Generation(after) == Generation(before)
    ensures r.Success? && r.value.device == c.device ==> DeviceOf(after, Attempt(request, r.value))
    ensures r.Success? ==> forall d :: d in after.devices && d != c.device ==> d in before.devices
    ensures r.Failure? ==> after.devices.Keys <= before.devices.Keys
  {
  }

  function ReplyOf(r: Result<Response, Code>): Store.Reply<Id> {
    match r
    case Success(response) => Store.Done(response.user)
    case Failure(Denied(code)) => Store.Refused(code)
    case Failure(RequestIdReused) => Store.Refused(Store.NotAvailable)
  }

  class CommissioningStore {
    const security: Store.SecurityStore
    var attempts: map<RequestId, Attempt>

    constructor (security: Store.SecurityStore)
      ensures this.security == security && attempts == map[]
    {
      this.security := security;
      attempts := map[];
    }

    /** The operation that a request without a receipt asks for. */
    method Perform(request: Request, c: Circumstances, now: int) returns (r: Result<Response, Code>)
      requires security.Valid() && c.device !in security.db.devices
      modifies security
      ensures security.Valid() && Evolves(old(security.db), security.db)
      ensures Decided(old(security.db), request, c, now, r, security.db)
      ensures r.Success? ==> r.value.device == c.device && r.value.generation == Generation(old(security.db))
      ensures r.Failure? ==> r.error.Denied?
    {
      var generation := Generation(security.db);
      var reply;
      ghost var gone: set<Id> := {};
      match request {
        case ClaimRequest(activation, name, pin, token, recovery) =>
          reply := security.Claim(activation, c.available, c.user, name, pin, c.device, token, recovery, now);
        case RecoverRequest(secret, pin, token, recovery) =>
          reply := security.Recover(secret, c.window, pin, c.device, token, recovery, now);
        case PairRequest(invite, pin, token) =>
          reply, gone := security.Pair(invite, pin, c.device, token, now);
      }
      r := match reply
        case Done(user) => Success(Response(user, c.device, generation))
        case Refused(code) => Failure(Denied(code));
      assert ReplyOf(r) == reply;
      if request.PairRequest? && Store.InviteHolds(Pruned(old(security.db), now), request.invite, now) {
        assert Store.PairEnds(old(security.db), Pruned(old(security.db), now), request.invite, request.pairPin, c.device,
                              request.pairToken, now, gone, ReplyOf(r), security.db);
      }
    }

    /** Run one request. A request id that was committed before is answered from its receipt when the
        request is the very same, refused when it is not, and changes nothing either way. Otherwise it
        commits one device together with its receipt, or leaves no receipt. */
    method Submit(id: RequestId, request: Request, c: Circumstances, now: int) returns (r: Result<Response, Code>)
      requires security.Valid() && c.device !in security.db.devices
      modifies this, security
      ensures security.Valid() && Evolves(old(security.db), security.db)
      ensures id in old(attempts) ==>
                && attempts == old(attempts) && security.db == old(security.db)
                && r == if old(attempts)[id].request == request then Success(old(attempts)[id].response) else Failure(RequestIdReused)
      ensures id !in old(attempts) && r.Success? ==>
                && attempts == old(attempts)[id := Attempt(request, r.value)]
                && DeviceOf(security.db, attempts[id])
                && r.value.device == c.device && r.value.device !in old(security.db).devices
                && r.value.generation == Generation(old(security.db)) == Generation(security.db)
                && (forall d :: d in security.db.devices && d != c.device ==> d in old(security.db).devices)
      ensures id !in old(attempts) && r.Failure? ==>
                attempts == old(attempts) && security.db.devices.Keys <= old(security.db).devices.Keys
      ensures id !in old(attempts) ==> Decided(old(security.db), request, c, now, r, security.db)
    {
      if id in attempts {
        assert Follows(security.db, security.db);
        if attempts[id].request != request {
          return Failure(RequestIdReused);
        }
        return Success(attempts[id].response);
      }
      r := Perform(request, c, now);
      DecidedDevices(old(security.db), request, c, now, r, security.db);
      if r.Success? {
        attempts := attempts[id := Attempt(request, r.value)];
      }
    }

    /** A reset wipes the receipts with the product. */
    method Reset(activation: Token, now: int) returns (r: Store.Reply<nat>)
      requires security.Valid()
      modifies this, security
      ensures security.Valid()
      ensures r.Done? <==> old(security.db).lifecycle.Some?
      ensures r.Done? ==> attempts == map[] && security.db == Wiped(old(security.db), activation)
      ensures r.Refused? ==> attempts == old(attempts) && security.db == old(security.db)
    {
      r := security.ResetProduct(activation, now);
      if r.Done? {
        attempts := map[];
      }
    }
  }
}
