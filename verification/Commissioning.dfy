/** Commissioning between one PC client and the host over a lossy channel. The client saves the
    request before it sends it and may retry it, restart, or lose any reply; the host keeps a receipt
    of every request it committed. */
module Commissioning {
  import opened Outcomes

  type RequestId = string
  type Secret = string
  type Id = string
  type Pin = string

  datatype Kind = PairingInvite | Activation | Recovery

  datatype Card = Card(kind: Kind, secret: Secret)

  /** The saved request: everything of the body except the PIN. */
  datatype Pending = Pending(request: RequestId, card: Card, token: Secret, newSecret: Secret, name: string)

  /** The body as sent. The stored digest stands for it, being injective, and so it binds the PIN. */
  datatype Message = Message(pending: Pending, pin: Pin)

  /** One device the host created for a request. */
  datatype Entry = Entry(generation: nat, request: RequestId, token: Secret, device: Id, user: Id, recovery: Option<Secret>)

  datatype Receipt = Receipt(message: Message, entry: Entry)

  datatype Ownership = Unowned(activation: Secret) | OwnedBy(owner: Id, recovery: Secret)

  /** `expires` is the earlier of the invite's end and that of the session that issued it. */
  datatype Invite = Invite(user: Id, expires: int)

  datatype Host = Host(
    generation: nat,
    ownership: Ownership,
    invites: map<Secret, Invite>,
    receipts: map<RequestId, Receipt>,
    log: seq<Entry>)               // every device ever created for a request

  datatype Reply = Committed(entry: Entry) | InvalidSecret | OtherRefusal

  datatype Pairing = Pairing(token: Secret, device: Id, user: Id)

  datatype Saved = Saved(generation: nat, paired: Option<Pairing>, pending: Option<Pending>, recoveryCard: Option<Secret>)

  const EMPTY := Saved(0, None, None, None)

  /** How a save ends; one that raises may still have replaced the file. */
  datatype Save = Works | Fails | WorksButRaises {
    predicate Applied() {
      !Fails?
    }
  }

  datatype Client = Client(memory: Saved, disk: Saved, staged: Option<Card>, outstanding: Option<nat>)

  // ---- The host ----

  /** At this reading the request's credential is not, or no longer, good for anything. */
  predicate Dead(h: Host, card: Card, now: int) {
    match card.kind
    case PairingInvite => card.secret !in h.invites || h.invites[card.secret].expires <= now
    case Activation => !(h.ownership.Unowned? && h.ownership.activation == card.secret)
    case Recovery => !(h.ownership.OwnedBy? && h.ownership.recovery == card.secret)
  }

  /** What the request cannot decide: the reading of the clock, which for a pairing is taken before the lock;
      refusals before the receipt is looked up (rate limit, power, maintenance); refusals after the
      credential is accepted (PIN, lockout, device limit, window); whether an answer that follows the
      commit is replaced by an error (`raises`); and the fresh identifiers. */
  datatype Plan = Plan(now: int, early: bool, late: bool, raises: bool, device: Id, user: Id)

  function NewRecovery(p: Pending): Option<Secret> {
    if p.card.kind.PairingInvite? then None else Some(p.newSecret)
  }

  function UserFor(h: Host, p: Pending, plan: Plan): Id
    requires !Dead(h, p.card, plan.now)
  {
    match p.card.kind
    case PairingInvite => h.invites[p.card.secret].user
    case Activation => plan.user
    case Recovery => h.ownership.owner
  }

  function Committing(h: Host, m: Message, plan: Plan): (Host, Entry)
    requires !Dead(h, m.pending.card, plan.now)
  {
    var p := m.pending;
    var user := UserFor(h, p, plan);
    var entry := Entry(h.generation, p.request, p.token, plan.device, user, NewRecovery(p));
    var invites := match p.card.kind
      case PairingInvite => h.invites - {p.card.secret}
      case Activation => h.invites
      case Recovery => map[];
    var ownership := if p.card.kind.PairingInvite? then h.ownership else OwnedBy(user, p.newSecret);
    (h.(ownership := ownership, invites := invites, receipts := h.receipts[p.request := Receipt(m, entry)], log := h.log + [entry]), entry)
  }

  /** What a committed request is answered. */
  function Answered(e: Entry, plan: Plan): Reply {
    if plan.raises then OtherRefusal else Committed(e)
  }

  predicate Commits(h: Host, m: Message, plan: Plan) {
    !plan.early && m.pending.request !in h.receipts && !Dead(h, m.pending.card, plan.now) && !plan.late
  }

  function Process(h: Host, m: Message, plan: Plan): (Host, Reply) {
    var p := m.pending;
    if plan.early then (h, OtherRefusal)
    else if p.request in h.receipts then
      (h, if h.receipts[p.request].message == m then Answered(h.receipts[p.request].entry, plan) else OtherRefusal)
    else if Dead(h, p.card, plan.now) then (h, if p.card.kind.Recovery? then OtherRefusal else InvalidSecret)
    else if plan.late then (h, OtherRefusal)
    else
      var (g, entry) := Committing(h, m, plan);
      (g, Answered(entry, plan))
  }

  function Reset(h: Host, activation: Secret): Host {
    h.(generation := h.generation + 1, ownership := Unowned(activation), invites := map[], receipts := map[])
  }

  // ---- The client ----

  function Pend(c: Client, p: Pending, save: Save): Client {
    var next := c.memory.(pending := Some(p));
    c.(memory := next, disk := if save.Applied() then next else c.disk)
  }

  function PairedWith(s: Saved, p: Pending, e: Entry): Saved {
    Saved(s.generation + 1, Some(Pairing(p.token, e.device, e.user)), None, NewRecovery(p))
  }

  /** Save first, then take over in memory. */
  function Replace(c: Client, next: Saved, save: Save): Client {
    c.(disk := if save.Applied() then next else c.disk,
       memory := if save.Works? then next else c.memory,
       staged := if save.Works? then None else c.staged)
  }

  function Receiving(c: Client, reply: Reply, save: Save): Client
    requires c.memory.pending.Some?
  {
    var p := c.memory.pending.value;
    var d := c.(outstanding := None);
    match reply
    case Committed(e) => if e.request == p.request then Replace(d, PairedWith(c.memory, p, e), save) else d
    case InvalidSecret => Replace(d, c.memory.(pending := None), save)
    case OtherRefusal => d
  }

  function Restarted(c: Client): Client {
    Client(c.disk, c.disk, None, None)
  }

  function Forgetting(c: Client, save: Save): Client {
    if c.memory.pending.Some? || c.memory.recoveryCard.Some? || c.memory.paired.None? then c
    else Replace(c, EMPTY.(generation := c.memory.generation + 1), save)
  }

  /** The card leaves memory before the save. */
  function Acknowledging(c: Client, save: Save): Client {
    if c.memory.recoveryCard.None? then c
    else
      var next := c.memory.(recoveryCard := None);
      c.(memory := next, disk := if save.Applied() then next else c.disk)
  }

  // ---- The protocol ----

  datatype World = World(
    client: Client,
    host: Host,
    sent: seq<Message>,               // one entry per attempt
    replies: map<nat, Reply>,
    seen: set<Secret>,                // every credential any card or host has held
    ours: map<RequestId, Pending>,    // the client's requests
    theirs: set<RequestId>,           // other clients' requests
    refusedAt: map<RequestId, int>,   // the client's requests refused for their credential, and the latest reading of it
    discarded: set<RequestId>,
    settled: set<RequestId>)          // requests whose end reached the client's disk

  datatype Event =
    | Stage(card: Card)
    | Commission(pin: Pin, request: RequestId, token: Secret, newSecret: Secret, name: string, save: Save)
    | Retry(pin: Pin)
    | Deliver(attempt: nat, plan: Plan)
    | Receive(save: Save)
    | GiveUp
    | RestartClient
    | Forget(save: Save)
    | Acknowledge(save: Save)
    | Foreign(message: Message, plan: Plan)
    | ResetHost(activation: Secret)
    | IssueInvite(secret: Secret, user: Id, expires: int)
    | WithdrawInvite(secret: Secret)

  function Send(w: World, pin: Pin): World
    requires w.client.memory.pending.Some?
  {
    w.(client := w.client.(outstanding := Some(|w.sent|)),
       sent := w.sent + [Message(w.client.memory.pending.value, pin)])
  }

  predicate MayStage(c: Client) {
    c.memory.paired.None? && c.memory.pending.None? && c.outstanding.None?
  }

  function Staging(w: World, card: Card): World {
    if !MayStage(w.client) then w
    else w.(client := w.client.(staged := Some(card)), seen := w.seen + {card.secret})
  }

  function Starting(w: World, pin: Pin, request: RequestId, token: Secret, newSecret: Secret, name: string, save: Save): World {
    if !MayStage(w.client) || w.client.staged.None? || request in w.ours || request in w.theirs then w
    else
      var p := Pending(request, w.client.staged.value, token, newSecret, name);
      var v := w.(client := Pend(w.client, p, save), ours := w.ours[request := p]);
      if save.Works? then Send(v, pin) else v
  }

  function Retrying(w: World, pin: Pin): World {
    if w.client.memory.pending.None? || w.client.outstanding.Some? then w else Send(w, pin)
  }

  function Latest(refusedAt: map<RequestId, int>, r: RequestId, now: int): int {
    if r in refusedAt && refusedAt[r] > now then refusedAt[r] else now
  }

  function Delivering(w: World, attempt: nat, plan: Plan): World {
    if attempt >= |w.sent| || attempt in w.replies then w
    else
      var (h, reply) := Process(w.host, w.sent[attempt], plan);
      var r := w.sent[attempt].pending.request;
      w.(host := h, replies := w.replies[attempt := reply],
         refusedAt := if reply.InvalidSecret? then w.refusedAt[r := Latest(w.refusedAt, r, plan.now)] else w.refusedAt)
  }

  /** A reply ends the request on disk, and perhaps discards it. */
  function Receipted(w: World, save: Save): World {
    var c := w.client;
    if c.outstanding.None? || c.outstanding.value !in w.replies || c.memory.pending.None? then w
    else
      var reply := w.replies[c.outstanding.value];
      var id := c.memory.pending.value.request;
      var ends := save.Applied() && !reply.OtherRefusal?;
      w.(client := Receiving(c, reply, save),
         settled := w.settled + (if ends then {id} else {}),
         discarded := w.discarded + (if ends && reply.InvalidSecret? then {id} else {}))
  }

  function ForeignRequest(w: World, m: Message, plan: Plan): World {
    if m.pending.request in w.ours then w
    else w.(host := Process(w.host, m, plan).0, theirs := w.theirs + {m.pending.request})
  }

  function Resetting(w: World, activation: Secret): World {
    if activation in w.seen then w else w.(host := Reset(w.host, activation), seen := w.seen + {activation})
  }

  function Inviting(w: World, secret: Secret, invite: Invite): World {
    if secret in w.seen then w
    else w.(host := w.host.(invites := w.host.invites[secret := invite]), seen := w.seen + {secret})
  }

  function Next(w: World, e: Event): World {
    match e
    case Stage(card) => Staging(w, card)
    case Commission(pin, request, token, newSecret, name, save) => Starting(w, pin, request, token, newSecret, name, save)
    case Retry(pin) => Retrying(w, pin)
    case Deliver(attempt, plan) => Delivering(w, attempt, plan)
    case Receive(save) => Receipted(w, save)
    case GiveUp => w.(client := w.client.(outstanding := None))
    case RestartClient => w.(client := Restarted(w.client))
    case Forget(save) => if w.client.outstanding.Some? then w else w.(client := Forgetting(w.client, save))
    case Acknowledge(save) => if w.client.outstanding.Some? then w else w.(client := Acknowledging(w.client, save))
    case Foreign(m, plan) => ForeignRequest(w, m, plan)
    case ResetHost(activation) => Resetting(w, activation)
    case IssueInvite(secret, user, expires) => Inviting(w, secret, Invite(user, expires))
    case WithdrawInvite(secret) => w.(host := w.host.(invites := w.host.invites - {secret}))
  }

  function Run(w: World, events: seq<Event>): World {
    if events == [] then w else Next(Run(w, events[..|events| - 1]), events[|events| - 1])
  }

  /** A new client and a host that awaits its claim. */
  function Fresh(generation: nat, activation: Secret): World {
    World(Client(EMPTY, EMPTY, None, None), Host(generation, Unowned(activation), map[], map[], []),
          [], map[], {activation}, map[], {}, map[], {}, {})
  }

  // ---- Invariant ----

  /** Every receipt is of a device of this generation, and every device of this generation has one. */
  predicate HostOk(h: Host) {
    && (forall r :: r in h.receipts ==>
          var (e, p) := (h.receipts[r].entry, h.receipts[r].message.pending);
          e in h.log && e.generation == h.generation && e.request == r && p.request == r && e.token == p.token && e.recovery == NewRecovery(p))
    && (forall i :: 0 <= i < |h.log| ==> h.log[i].generation <= h.generation)
    && (forall i :: 0 <= i < |h.log| && h.log[i].generation == h.generation ==>
          h.log[i].request in h.receipts && h.receipts[h.log[i].request].entry == h.log[i])
    && (forall i, j :: 0 <= i < j < |h.log| ==> h.log[i].generation != h.log[j].generation || h.log[i].request != h.log[j].request)
  }

  /** The credential is dead from the reading `at` on. */
  predicate GoneBy(h: Host, card: Card, at: int) {
    match card.kind
    case PairingInvite => card.secret in h.invites ==> h.invites[card.secret].expires <= at
    case Activation => !(h.ownership.Unowned? && h.ownership.activation == card.secret)
    case Recovery => false
  }

  predicate RefusedOk(w: World) {
    && w.discarded <= w.refusedAt.Keys
    && (forall r :: r in w.refusedAt ==>
          r in w.ours && w.ours[r].card.secret in w.seen && GoneBy(w.host, w.ours[r].card, w.refusedAt[r]))
  }

  predicate ReplyOk(w: World, n: nat)
    requires n in w.replies && n < |w.sent|
  {
    var p := w.sent[n].pending;
    match w.replies[n]
    case Committed(e) => e in w.host.log && e.request == p.request && e.token == p.token && e.recovery == NewRecovery(p)
    case InvalidSecret => p.request in w.refusedAt
    case OtherRefusal => true
  }

  /** The device was created for a request of this client, with that request's token. */
  predicate OwnEntry(e: Entry, log: seq<Entry>, ours: map<RequestId, Pending>) {
    e in log && e.request in ours && ours[e.request].token == e.token && e.recovery == NewRecovery(ours[e.request])
  }

  predicate IsPairing(e: Entry, s: Saved)
    requires s.paired.Some?
  {
    && Pairing(e.token, e.device, e.user) == s.paired.value
    && (s.recoveryCard.Some? ==> e.recovery == s.recoveryCard)
  }

  /** A saved pairing is a device the host created for a request of this client, and a recovery card the
      secret it committed with it. */
  predicate PairingOk(s: Saved, log: seq<Entry>, ours: map<RequestId, Pending>) {
    && (s.paired.None? ==> s.recoveryCard.None?)
    && (s.paired.Some? ==> exists e :: e in log && OwnEntry(e, log, ours) && IsPairing(e, s))
  }

  predicate PendingOk(p: Pending, ours: map<RequestId, Pending>) {
    p.request in ours && ours[p.request] == p
  }

  predicate ClientOk(w: World) {
    var c := w.client;
    && PairingOk(c.memory, w.host.log, w.ours) && PairingOk(c.disk, w.host.log, w.ours)
    && (c.memory.pending.Some? ==> PendingOk(c.memory.pending.value, w.ours))
    && (c.disk.pending.Some? ==> c.disk.pending == c.memory.pending)
    && (c.staged.Some? ==> c.staged.value.secret in w.seen)
    && (c.outstanding.Some? ==> c.outstanding.value < |w.sent| && c.memory.pending == Some(w.sent[c.outstanding.value].pending))
  }

  predicate Inv(w: World) {
    && HostOk(w.host)
    && ClientOk(w)
    && (forall r :: r in w.ours ==> w.ours[r].request == r && w.ours[r].card.secret in w.seen && r !in w.theirs)
    && (forall i :: 0 <= i < |w.sent| ==> PendingOk(w.sent[i].pending, w.ours))
    && (forall n :: n in w.replies ==> n < |w.sent| && ReplyOk(w, n))
    && (forall r :: r in w.host.receipts ==> r in w.theirs || (r in w.ours && w.host.receipts[r].message.pending == w.ours[r] && w.host.receipts[r].message in w.sent))
    && (w.host.ownership.Unowned? ==> w.host.ownership.activation in w.seen)
    && RefusedOk(w)
  }

  /** Inv, kept folded. */
  ghost predicate Safe(w: World) {
    forall v :: v == w ==> Inv(v)
  }

  // ---- Steps keep the invariant ----

  /** Committing creates one device, and its receipt. */
  lemma CommittingKeepsHost(h: Host, m: Message, plan: Plan)
    requires HostOk(h) && m.pending.request !in h.receipts && !Dead(h, m.pending.card, plan.now)
    ensures HostOk(Committing(h, m, plan).0)
  {
    var (g, entry) := Committing(h, m, plan);
    assert g.log[|h.log|] == entry;
    assert entry in g.log;
    forall r | r in g.receipts && r != m.pending.request ensures g.receipts[r].entry in g.log {
      assert h.receipts[r].entry in h.log;
    }
    forall i | 0 <= i < |h.log| && h.log[i].generation == h.generation ensures h.log[i].request != m.pending.request {
      assert h.log[i].request in h.receipts;
    }
  }

  /** The host changed as processing a message changes it. */
  predicate Processed(h: Host, g: Host, m: Message) {
    && g.generation == h.generation
    && h.log <= g.log
    && (forall k :: k in g.invites ==> k in h.invites && g.invites[k] == h.invites[k])
    && (g.ownership == h.ownership || g.ownership.OwnedBy?)
    && (g.receipts == h.receipts
        || (m.pending.request !in h.receipts
            && m.pending.request in g.receipts && g.receipts[m.pending.request].message == m
            && g.receipts - {m.pending.request} == h.receipts))
  }

  lemma ProcessKeepsHost(h: Host, m: Message, plan: Plan)
    requires HostOk(h)
    ensures var (g, reply) := Process(h, m, plan);
            && HostOk(g) && Processed(h, g, m)
            && (reply.Committed? ==> reply.entry in g.log && reply.entry.request == m.pending.request
                                     && reply.entry.token == m.pending.token && reply.entry.recovery == NewRecovery(m.pending))
            && (reply.InvalidSecret? ==> GoneBy(g, m.pending.card, plan.now) && m.pending.request !in g.receipts)
  {
    var p := m.pending;
    if Commits(h, m, plan) {
      CommittingKeepsHost(h, m, plan);
      var (g, entry) := Committing(h, m, plan);
      assert g.log[|h.log|] == entry;
      assert g.receipts - {p.request} == h.receipts;
    }
  }

  /** Processing a message revives no credential. */
  lemma GoneLasts(h: Host, g: Host, m: Message, card: Card, at: int)
    requires Processed(h, g, m) && GoneBy(h, card, at)
    ensures GoneBy(g, card, at)
  {
  }

  lemma PairingLasts(s: Saved, log: seq<Entry>, ours: map<RequestId, Pending>, longer: seq<Entry>, more: map<RequestId, Pending>)
    requires PairingOk(s, log, ours) && log <= longer
    requires forall r :: r in ours ==> r in more && more[r] == ours[r]
    ensures PairingOk(s, longer, more)
  {
    if s.paired.Some? {
      var e :| e in log && OwnEntry(e, log, ours) && IsPairing(e, s);
      assert e in longer && OwnEntry(e, longer, more);
    }
  }

  /** The rest of the world agrees with the host that processed a message. */
  lemma ProcessedKeeps(w: World, g: Host, m: Message)
    requires Inv(w) && HostOk(g) && Processed(w.host, g, m)
    requires m.pending.request in w.ours ==> w.ours[m.pending.request] == m.pending && m in w.sent
    requires m.pending.request in w.ours || m.pending.request in w.theirs
    ensures Inv(w.(host := g))
  {
    var v := w.(host := g);
    PairingLasts(w.client.memory, w.host.log, w.ours, g.log, w.ours);
    PairingLasts(w.client.disk, w.host.log, w.ours, g.log, w.ours);
    forall n | n in w.replies ensures ReplyOk(v, n) {
      assert ReplyOk(w, n) && n < |w.sent| && PendingOk(w.sent[n].pending, w.ours);
    }
    forall r | r in w.refusedAt ensures GoneBy(g, w.ours[r].card, w.refusedAt[r]) {
      GoneLasts(w.host, g, m, w.ours[r].card, w.refusedAt[r]);
    }
    forall r | r in g.receipts ensures r in w.theirs || (r in w.ours && g.receipts[r].message.pending == w.ours[r] && g.receipts[r].message in w.sent) {
      if g.receipts != w.host.receipts && r != m.pending.request {
        assert r in g.receipts - {m.pending.request};
        assert (g.receipts - {m.pending.request})[r] == w.host.receipts[r];
      }
    }
  }

  lemma DeliverKeeps(w: World, attempt: nat, plan: Plan)
    requires Safe(w)
    ensures Safe(Delivering(w, attempt, plan))
  {
    assert Inv(w);
    if attempt < |w.sent| && attempt !in w.replies {
      var m := w.sent[attempt];
      var (g, reply) := Process(w.host, m, plan);
      ProcessKeepsHost(w.host, m, plan);
      assert PendingOk(m.pending, w.ours);
      ProcessedKeeps(w, g, m);
      ReplyKeeps(w.(host := g), attempt, reply, plan.now);
    }
  }

  lemma ReplyKeeps(w: World, n: nat, reply: Reply, now: int)
    requires Inv(w) && n < |w.sent| && n !in w.replies
    requires reply.Committed? ==> reply.entry in w.host.log && reply.entry.request == w.sent[n].pending.request
                                  && reply.entry.token == w.sent[n].pending.token && reply.entry.recovery == NewRecovery(w.sent[n].pending)
    requires reply.InvalidSecret? ==> GoneBy(w.host, w.sent[n].pending.card, now)
    ensures var r := w.sent[n].pending.request;
            Safe(w.(replies := w.replies[n := reply],
                    refusedAt := if reply.InvalidSecret? then w.refusedAt[r := Latest(w.refusedAt, r, now)] else w.refusedAt))
  {
    var r := w.sent[n].pending.request;
    var v := w.(replies := w.replies[n := reply],
                refusedAt := if reply.InvalidSecret? then w.refusedAt[r := Latest(w.refusedAt, r, now)] else w.refusedAt);
    assert PendingOk(w.sent[n].pending, w.ours);
    forall k | k in v.replies ensures k < |v.sent| && ReplyOk(v, k) {
      if k != n {
        assert ReplyOk(w, k);
      }
    }
    assert ClientOk(v);
    assert RefusedOk(v);
    assert Inv(v);
  }

  lemma ForeignKeeps(w: World, m: Message, plan: Plan)
    requires Safe(w)
    ensures Safe(ForeignRequest(w, m, plan))
  {
    assert Inv(w);
    if m.pending.request !in w.ours {
      var v := w.(theirs := w.theirs + {m.pending.request});
      assert Inv(v) by {
        assert forall n :: n in w.replies ==> ReplyOk(w, n) && ReplyOk(v, n);
        assert ClientOk(v);
      }
      ProcessKeepsHost(w.host, m, plan);
      ProcessedKeeps(v, Process(w.host, m, plan).0, m);
    }
  }

  /** Host changes that only take authority away, or renew it with fresh secrets, keep everything. */
  lemma HostEventKeeps(w: World, g: Host, secrets: set<Secret>)
    requires Inv(w) && HostOk(g) && g.log == w.host.log
    requires g.receipts == w.host.receipts || g.receipts == map[]
    requires forall k :: k in g.invites ==> k in secrets - w.seen || (k in w.host.invites && g.invites[k] == w.host.invites[k])
    requires g.ownership == w.host.ownership || (g.ownership.Unowned? && g.ownership.activation in secrets - w.seen)
    ensures Safe(w.(host := g, seen := w.seen + secrets))
  {
    var v := w.(host := g, seen := w.seen + secrets);
    forall n | n in w.replies ensures ReplyOk(v, n) {
      assert ReplyOk(w, n);
    }
    assert ClientOk(v);
    assert RefusedOk(v);
    assert Inv(v);
  }

  lemma ResetKeeps(w: World, activation: Secret)
    requires Safe(w)
    ensures Safe(Resetting(w, activation))
  {
    assert Inv(w);
    if activation !in w.seen {
      assert HostOk(Reset(w.host, activation));
      HostEventKeeps(w, Reset(w.host, activation), {activation});
    }
  }

  lemma InviteKeeps(w: World, secret: Secret, invite: Invite)
    requires Safe(w)
    ensures Safe(Inviting(w, secret, invite))
  {
    assert Inv(w);
    if secret !in w.seen {
      HostEventKeeps(w, w.host.(invites := w.host.invites[secret := invite]), {secret});
    }
  }

  lemma WithdrawKeeps(w: World, secret: Secret)
    requires Safe(w)
    ensures Safe(w.(host := w.host.(invites := w.host.invites - {secret})))
  {
    assert Inv(w);
    HostEventKeeps(w, w.host.(invites := w.host.invites - {secret}), {});
    assert w.seen + {} == w.seen;
  }

  /** Changes of the client alone. */
  lemma ClientKeeps(w: World, v: World)
    requires Inv(w) && v.host == w.host && v.sent == w.sent && v.replies == w.replies && v.seen == w.seen
    requires v.ours == w.ours && v.theirs == w.theirs && v.refusedAt == w.refusedAt && v.discarded <= w.refusedAt.Keys
    requires ClientOk(v)
    ensures Safe(v)
  {
    forall n | n in w.replies ensures ReplyOk(v, n) {
      assert ReplyOk(w, n);
    }
    assert Inv(v);
  }

  lemma StageKeeps(w: World, card: Card)
    requires Safe(w)
    ensures Safe(Staging(w, card))
  {
    assert Inv(w);
    if MayStage(w.client) {
      HostEventKeeps(w, w.host, {card.secret});
      var v := w.(seen := w.seen + {card.secret});
      assert w.(host := w.host, seen := w.seen + {card.secret}) == v;
      assert Inv(v);
      ClientKeeps(v, Staging(w, card));
    }
  }

  lemma SendKeeps(w: World, pin: Pin)
    requires Safe(w) && w.client.memory.pending.Some?
    ensures Safe(Send(w, pin))
  {
    assert Inv(w);
    var v := Send(w, pin);
    assert forall m :: m in w.sent ==> m in v.sent;
    forall n | n in w.replies ensures ReplyOk(v, n) {
      assert ReplyOk(w, n);
    }
    assert ClientOk(v);
    assert Inv(v);
  }

  lemma PendKeeps(w: World, request: RequestId, token: Secret, newSecret: Secret, name: string, save: Save)
    requires Safe(w) && MayStage(w.client) && w.client.staged.Some? && request !in w.ours && request !in w.theirs
    ensures var p := Pending(request, w.client.staged.value, token, newSecret, name);
            Safe(w.(client := Pend(w.client, p, save), ours := w.ours[request := p]))
  {
    assert Inv(w);
    var p := Pending(request, w.client.staged.value, token, newSecret, name);
    var v := w.(client := Pend(w.client, p, save), ours := w.ours[request := p]);
    PairingLasts(w.client.memory, w.host.log, w.ours, w.host.log, v.ours);
    PairingLasts(w.client.disk, w.host.log, w.ours, w.host.log, v.ours);
    forall n | n in w.replies ensures ReplyOk(v, n) {
      assert ReplyOk(w, n);
    }
    assert ClientOk(v);
    assert Inv(v);
  }

  lemma StartKeeps(w: World, pin: Pin, request: RequestId, token: Secret, newSecret: Secret, name: string, save: Save)
    requires Safe(w)
    ensures Safe(Starting(w, pin, request, token, newSecret, name, save))
  {
    if MayStage(w.client) && w.client.staged.Some? && request !in w.ours && request !in w.theirs {
      PendKeeps(w, request, token, newSecret, name, save);
      var p := Pending(request, w.client.staged.value, token, newSecret, name);
      if save.Works? {
        SendKeeps(w.(client := Pend(w.client, p, save), ours := w.ours[request := p]), pin);
      }
    }
  }

  /** What the client saves when its request is answered. */
  lemma AnswerKeepsPairing(w: World, reply: Reply, save: Save)
    requires ClientOk(w) && w.client.memory.pending.Some?
    requires var p := w.client.memory.pending.value;
             reply.Committed? ==> reply.entry in w.host.log && reply.entry.request == p.request
                                  && reply.entry.token == p.token && reply.entry.recovery == NewRecovery(p)
    ensures var c := Receiving(w.client, reply, save);
            && PairingOk(c.memory, w.host.log, w.ours) && PairingOk(c.disk, w.host.log, w.ours)
            && c.outstanding.None? && (c.disk.pending.Some? ==> c.disk.pending == c.memory.pending)
            && (c.memory.pending.Some? ==> c.memory.pending == w.client.memory.pending)
            && (c.staged.Some? ==> c.staged == w.client.staged)
  {
    var p := w.client.memory.pending.value;
    if reply.Committed? {
      assert OwnEntry(reply.entry, w.host.log, w.ours) && IsPairing(reply.entry, PairedWith(w.client.memory, p, reply.entry));
    }
  }

  lemma ReceiveKeeps(w: World, save: Save)
    requires Safe(w)
    ensures Safe(Receipted(w, save))
  {
    assert Inv(w);
    var c := w.client;
    if c.outstanding.Some? && c.outstanding.value in w.replies && c.memory.pending.Some? {
      var n := c.outstanding.value;
      assert ReplyOk(w, n) && PendingOk(c.memory.pending.value, w.ours);
      AnswerKeepsPairing(w, w.replies[n], save);
      assert ClientOk(Receipted(w, save));
      ClientKeeps(w, Receipted(w, save));
    }
  }

  lemma LocalKeeps(w: World, save: Save)
    requires Safe(w)
    ensures Safe(w.(client := w.client.(outstanding := None)))
    ensures Safe(w.(client := Restarted(w.client)))
    ensures w.client.outstanding.None? ==> Safe(w.(client := Forgetting(w.client, save))) && Safe(w.(client := Acknowledging(w.client, save)))
  {
    assert Inv(w);
    ClientKeeps(w, w.(client := w.client.(outstanding := None)));
    ClientKeeps(w, w.(client := Restarted(w.client)));
    if w.client.outstanding.None? {
      ClientKeeps(w, w.(client := Forgetting(w.client, save)));
      ClientKeeps(w, w.(client := Acknowledging(w.client, save)));
    }
  }

  lemma NextKeeps(w: World, e: Event)
    requires Safe(w)
    ensures Safe(Next(w, e))
  {
    match e
    case Stage(card) => StageKeeps(w, card);
    case Commission(pin, request, token, newSecret, name, save) => StartKeeps(w, pin, request, token, newSecret, name, save);
    case Retry(pin) =>
      if w.client.memory.pending.Some? && w.client.outstanding.None? {
        SendKeeps(w, pin);
      }
    case Deliver(attempt, plan) => DeliverKeeps(w, attempt, plan);
    case Receive(save) => ReceiveKeeps(w, save);
    case GiveUp => LocalKeeps(w, Works);
    case RestartClient => LocalKeeps(w, Works);
    case Forget(save) => LocalKeeps(w, save);
    case Acknowledge(save) => LocalKeeps(w, save);
    case Foreign(m, plan) => ForeignKeeps(w, m, plan);
    case ResetHost(activation) => ResetKeeps(w, activation);
    case IssueInvite(secret, user, expires) => InviteKeeps(w, secret, Invite(user, expires));
    case WithdrawInvite(secret) => WithdrawKeeps(w, secret);
  }

  lemma {:induction false} RunKeeps(generation: nat, activation: Secret, events: seq<Event>)
    ensures Safe(Run(Fresh(generation, activation), events))
  {
    if events == [] {
      assert Inv(Fresh(generation, activation));
    } else {
      RunKeeps(generation, activation, events[..|events| - 1]);
      NextKeeps(Run(Fresh(generation, activation), events[..|events| - 1]), events[|events| - 1]);
    }
  }

  // ---- Exactly once ----

  /** Whatever is lost, retried or restarted, the host creates at most one device for a request in a
      generation. */
  lemma AtMostOneDevicePerRequest(generation: nat, activation: Secret, events: seq<Event>, i: nat, j: nat)
    ensures var log := Run(Fresh(generation, activation), events).host.log;
            i < j < |log| ==> log[i].generation != log[j].generation || log[i].request != log[j].request
  {
    RunKeeps(generation, activation, events);
    assert Inv(Run(Fresh(generation, activation), events));
  }

  /** A paired client holds a device the host created for one of the client's own requests, and the recovery
      secret that was committed with it. */
  lemma PairedClientMatchesHost(generation: nat, activation: Secret, events: seq<Event>)
    ensures var w := Run(Fresh(generation, activation), events);
            PairingOk(w.client.memory, w.host.log, w.ours) && PairingOk(w.client.disk, w.host.log, w.ours)
  {
    RunKeeps(generation, activation, events);
    assert Inv(Run(Fresh(generation, activation), events));
  }

  // ---- Discarded requests ----

  /** The host holds nothing for a request that it has refused for its credential. */
  predicate RefusedHoldNothing(w: World) {
    forall r :: r in w.refusedAt ==> r !in w.host.receipts
  }

  /** The host commits an attempt of a request that it has already refused. */
  predicate Revives(w: World, e: Event) {
    && e.Deliver? && e.attempt < |w.sent| && e.attempt !in w.replies
    && w.sent[e.attempt].pending.request in w.refusedAt && Commits(w.host, w.sent[e.attempt], e.plan)
  }

  /** An attempt of a refused request is processed with an earlier reading of the clock than the refusal: its
      reading was taken first, and it waited longer for the lock. */
  predicate Overtaken(w: World, e: Event) {
    && e.Deliver? && e.attempt < |w.sent| && e.attempt !in w.replies
    && w.sent[e.attempt].pending.request in w.refusedAt && e.plan.now < w.refusedAt[w.sent[e.attempt].pending.request]
  }

  /** Only an overtaken attempt can revive a request, and only one of a pairing invite. */
  lemma RevivedWasOvertaken(w: World, e: Event)
    requires Safe(w) && Revives(w, e)
    ensures Overtaken(w, e) && w.sent[e.attempt].pending.card.kind.PairingInvite?
  {
    assert Inv(w);
    var p := w.sent[e.attempt].pending;
    assert PendingOk(p, w.ours);
    assert GoneBy(w.host, p.card, w.refusedAt[p.request]);
  }

  /** A refused request gets a receipt through exactly that event. */
  lemma RefusalsHoldExactly(w: World, e: Event)
    requires Safe(w) && RefusedHoldNothing(w)
    ensures RefusedHoldNothing(Next(w, e)) <==> !Revives(w, e)
  {
    assert Inv(w);
    match e
    case Deliver(attempt, plan) =>
      if attempt < |w.sent| && attempt !in w.replies {
        DeliveryHoldsExactly(w, attempt, plan);
      }
    case Foreign(m, plan) => ProcessKeepsHost(w.host, m, plan);
    case _ => OtherEventsHold(w, e);
  }

  lemma DeliveryHoldsExactly(w: World, attempt: nat, plan: Plan)
    requires Inv(w) && RefusedHoldNothing(w) && attempt < |w.sent| && attempt !in w.replies
    ensures RefusedHoldNothing(Delivering(w, attempt, plan)) <==> !Revives(w, Deliver(attempt, plan))
  {
    var m := w.sent[attempt];
    var (g, reply) := Process(w.host, m, plan);
    ProcessKeepsHost(w.host, m, plan);
    if Commits(w.host, m, plan) {
      assert m.pending.request in g.receipts;
    } else {
      assert g == w.host;
    }
  }

  lemma OtherEventsHold(w: World, e: Event)
    requires !e.Deliver? && !e.Foreign?
    ensures Next(w, e).refusedAt == w.refusedAt
    ensures forall r :: r in Next(w, e).host.receipts ==> r in w.host.receipts
  {
  }

  predicate NeverOvertaken(w: World, events: seq<Event>)
    decreases |events|
  {
    events == [] ||
    (NeverOvertaken(w, events[..|events| - 1]) && !Overtaken(Run(w, events[..|events| - 1]), events[|events| - 1]))
  }

  lemma {:induction false} RefusedRequestsLeaveNothing(generation: nat, activation: Secret, events: seq<Event>)
    requires NeverOvertaken(Fresh(generation, activation), events)
    ensures RefusedHoldNothing(Run(Fresh(generation, activation), events))
  {
    if events != [] {
      var n := |events| - 1;
      var w := Run(Fresh(generation, activation), events[..n]);
      RefusedRequestsLeaveNothing(generation, activation, events[..n]);
      RunKeeps(generation, activation, events[..n]);
      RefusalsHoldExactly(w, events[n]);
      if Revives(w, events[n]) {
        RevivedWasOvertaken(w, events[n]);
      }
    }
  }

  /** If no attempt of a refused request is overtaken by its refusal, a request the client has discarded has no
      receipt and no device in this generation, at any later time either. */
  lemma DiscardedRequestsLeaveNothing(generation: nat, activation: Secret, events: seq<Event>, r: RequestId)
    requires NeverOvertaken(Fresh(generation, activation), events)
    ensures var w := Run(Fresh(generation, activation), events);
            r in w.discarded ==>
              && r !in w.host.receipts
              && (forall i :: 0 <= i < |w.host.log| ==> w.host.log[i].generation != w.host.generation || w.host.log[i].request != r)
  {
    RefusedRequestsLeaveNothing(generation, activation, events);
    RunKeeps(generation, activation, events);
    assert Inv(Run(Fresh(generation, activation), events));
  }

  lemma NextDiscards(w: World, e: Event)
    ensures w.discarded <= Next(w, e).discarded
  {
  }

  lemma {:induction false} DiscardIsForever(w: World, events: seq<Event>)
    ensures w.discarded <= Run(w, events).discarded
  {
    if events != [] {
      DiscardIsForever(w, events[..|events| - 1]);
      NextDiscards(Run(w, events[..|events| - 1]), events[|events| - 1]);
    }
  }

  // ---- Nothing sent is lost ----

  predicate OnDisk(w: World, p: Pending) {
    w.client.disk.pending == Some(p) || p.request in w.settled
  }

  /** Every request ever sent is on the client's disk, or its end reached that disk. */
  predicate Durable(w: World) {
    forall i :: 0 <= i < |w.sent| ==> OnDisk(w, w.sent[i].pending)
  }

  /** Retrying a request whose save failed sends what is not on disk. */
  predicate UnsavedSend(w: World, e: Event) {
    && e.Retry? && w.client.outstanding.None? && w.client.memory.pending.Some?
    && !OnDisk(w, w.client.memory.pending.value)
  }

  lemma StartIsDurable(w: World, pin: Pin, request: RequestId, token: Secret, newSecret: Secret, name: string, save: Save)
    requires Inv(w) && Durable(w)
    ensures Durable(Starting(w, pin, request, token, newSecret, name, save))
  {
    var v := Starting(w, pin, request, token, newSecret, name, save);
    forall i | 0 <= i < |v.sent| ensures OnDisk(v, v.sent[i].pending) {
      if i < |w.sent| {
        assert OnDisk(w, w.sent[i].pending);
      }
    }
  }

  lemma RetryIsDurableExactly(w: World, pin: Pin)
    requires Durable(w)
    ensures Durable(Retrying(w, pin)) <==> !UnsavedSend(w, Retry(pin))
  {
    var v := Retrying(w, pin);
    if w.client.memory.pending.Some? && w.client.outstanding.None? {
      assert v.sent[|w.sent|].pending == w.client.memory.pending.value;
      assert forall i :: 0 <= i < |w.sent| ==> v.sent[i] == w.sent[i] && OnDisk(w, w.sent[i].pending);
    }
  }

  lemma ReceiveIsDurable(w: World, save: Save)
    requires Inv(w) && Durable(w)
    ensures Durable(Receipted(w, save))
  {
    var v := Receipted(w, save);
    forall i | 0 <= i < |v.sent| ensures OnDisk(v, v.sent[i].pending) {
      assert OnDisk(w, w.sent[i].pending);
    }
  }

  /** Durability is kept by every event but one, and that one breaks it. */
  lemma SendsAreDurableExactly(w: World, e: Event)
    requires Safe(w) && Durable(w)
    ensures Durable(Next(w, e)) <==> !UnsavedSend(w, e)
  {
    assert Inv(w);
    match e
    case Commission(pin, request, token, newSecret, name, save) => StartIsDurable(w, pin, request, token, newSecret, name, save);
    case Retry(pin) => RetryIsDurableExactly(w, pin);
    case Receive(save) => ReceiveIsDurable(w, save);
    case _ => LocalIsDurable(w, e);
  }

  lemma LocalIsDurable(w: World, e: Event)
    requires Inv(w) && Durable(w) && !e.Commission? && !e.Retry? && !e.Receive?
    ensures Durable(Next(w, e))
  {
    var v := Next(w, e);
    assert v.sent == w.sent && v.settled == w.settled;
    forall i | 0 <= i < |v.sent| ensures OnDisk(v, v.sent[i].pending) {
      assert OnDisk(w, w.sent[i].pending);
    }
  }

  predicate NeverUnsaved(w: World, events: seq<Event>) {
    forall i :: 0 <= i < |events| ==> !UnsavedSend(Run(w, events[..i]), events[i])
  }

  /** If every send was saved, every request the host holds a receipt for can still be retried from the
      client's disk, or its end is already there; and unless an attempt was overtaken, that end is no discard. */
  lemma {:induction false} NothingSentIsLost(generation: nat, activation: Secret, events: seq<Event>)
    requires NeverUnsaved(Fresh(generation, activation), events)
    ensures var w := Run(Fresh(generation, activation), events);
            && Durable(w)
            && (forall r :: r in w.host.receipts && r in w.ours ==> OnDisk(w, w.ours[r]))
            && (NeverOvertaken(Fresh(generation, activation), events) ==>
                  forall r :: r in w.host.receipts && r in w.ours ==> r !in w.discarded)
  {
    var w := Run(Fresh(generation, activation), events);
    if NeverOvertaken(Fresh(generation, activation), events) {
      RefusedRequestsLeaveNothing(generation, activation, events);
      RunKeeps(generation, activation, events);
      assert Inv(w);
    }
    if events != [] {
      var n := |events| - 1;
      forall i | 0 <= i < n ensures !UnsavedSend(Run(Fresh(generation, activation), events[..n][..i]), events[..n][i]) {
        assert events[..n][..i] == events[..i];
      }
      NothingSentIsLost(generation, activation, events[..n]);
      RunKeeps(generation, activation, events[..n]);
      SendsAreDurableExactly(Run(Fresh(generation, activation), events[..n]), events[n]);
    }
    ReceiptsAreOnDisk(generation, activation, events);
  }

  lemma ReceiptsAreOnDisk(generation: nat, activation: Secret, events: seq<Event>)
    requires Durable(Run(Fresh(generation, activation), events))
    ensures var w := Run(Fresh(generation, activation), events);
            forall r :: r in w.host.receipts && r in w.ours ==> OnDisk(w, w.ours[r])
  {
    RunKeeps(generation, activation, events);
    var w := Run(Fresh(generation, activation), events);
    assert Inv(w);
    forall r | r in w.host.receipts && r in w.ours ensures OnDisk(w, w.ours[r]) {
      var i :| 0 <= i < |w.sent| && w.sent[i] == w.host.receipts[r].message;
      assert OnDisk(w, w.sent[i].pending);
    }
  }

  lemma RunPrefix(w: World, events: seq<Event>, n: nat, e: Event)
    requires n < |events| && events[n] == e
    ensures Run(w, events[..n + 1]) == Next(Run(w, events[..n]), e)
  {
    assert events[..n + 1][..n] == events[..n];
  }

  const STRANDING: seq<Event> :=
    [Stage(Card(Activation, "a")), Event.Commission("000000", "r", "t", "n", "name", Fails), Retry("000000"),
     Deliver(0, Plan(0, false, false, false, "d", "u")), RestartClient]

  function StrandedAfter(n: nat): World
    requires n <= 5
  {
    Run(Fresh(1, "a"), STRANDING[..n])
  }

  lemma StrandedUnsaved()
    ensures var w := StrandedAfter(2);
            && w.client.memory.pending == Some(Pending("r", Card(Activation, "a"), "t", "n", "name"))
            && w.client.disk == EMPTY && w.client.outstanding.None? && w.sent == [] && w.replies == map[]
            && w.host == Fresh(1, "a").host
  {
    var e := Event.Commission("000000", "r", "t", "n", "name", Fails);
    RunPrefix(Fresh(1, "a"), STRANDING, 0, Stage(Card(Activation, "a")));
    assert StrandedAfter(1) == Staging(Fresh(1, "a"), Card(Activation, "a"));
    RunPrefix(Fresh(1, "a"), STRANDING, 1, e);
    assert StrandedAfter(2) == Starting(StrandedAfter(1), "000000", "r", "t", "n", "name", Fails);
  }

  lemma StrandedCommitted()
    ensures var w := StrandedAfter(4);
            "r" in w.host.receipts && w.client.disk == EMPTY
  {
    StrandedUnsaved();
    RunPrefix(Fresh(1, "a"), STRANDING, 2, Retry("000000"));
    assert StrandedAfter(3) == Send(StrandedAfter(2), "000000");
    RunPrefix(Fresh(1, "a"), STRANDING, 3, Deliver(0, Plan(0, false, false, false, "d", "u")));
    assert StrandedAfter(4) == Delivering(StrandedAfter(3), 0, Plan(0, false, false, false, "d", "u"));
  }

  /** A failed first save, then a retry, then a restart: the host holds a device the client has
      forgotten. */
  lemma UnsavedRetryStrandsADevice()
    ensures var w := Run(Fresh(1, "a"), STRANDING);
            && "r" in w.host.receipts && w.client.memory == w.client.disk == EMPTY
  {
    StrandedCommitted();
    RunPrefix(Fresh(1, "a"), STRANDING, 4, RestartClient);
    assert STRANDING[..5] == STRANDING;
  }

  const OVERTAKING: seq<Event> :=
    [Foreign(Message(Pending("c", Card(Activation, "a"), "ct", "card", "owner"), "1"), Plan(1, false, false, false, "d0", "o")),
     IssueInvite("s", "u", 10), Stage(Card(PairingInvite, "s")), Event.Commission("2", "r", "t", "", "", Works), GiveUp,
     Retry("2"), Deliver(1, Plan(10, false, false, false, "d", "x")), Receive(Works),
     Deliver(0, Plan(9, false, false, false, "d", "x"))]

  const REQUEST := Pending("r", Card(PairingInvite, "s"), "t", "", "")

  function OvertakenAfter(n: nat): World
    requires n <= 9
  {
    Run(Fresh(1, "a"), OVERTAKING[..n])
  }

  lemma OvertakingStep(n: nat, e: Event)
    requires n < 9 && OVERTAKING[n] == e
    ensures OvertakenAfter(n + 1) == Next(OvertakenAfter(n), e)
  {
    RunPrefix(Fresh(1, "a"), OVERTAKING, n, e);
  }

  lemma InviteIsStaged()
    ensures var w := OvertakenAfter(3);
            && w.client == Client(EMPTY, EMPTY, Some(REQUEST.card), None) && w.sent == [] && w.replies == map[]
            && w.ours == map[] && w.theirs == {"c"} && w.refusedAt == map[]
            && "r" !in w.host.receipts && w.host.invites == map["s" := Invite("u", 10)]
  {
    OvertakingStep(0, OVERTAKING[0]);
    OvertakingStep(1, IssueInvite("s", "u", 10));
    OvertakingStep(2, Stage(Card(PairingInvite, "s")));
    assert OvertakenAfter(0) == Fresh(1, "a");
  }

  lemma RequestIsSent()
    ensures var w := OvertakenAfter(4);
            && w.client == Client(EMPTY.(pending := Some(REQUEST)), EMPTY.(pending := Some(REQUEST)), Some(REQUEST.card), Some(0))
            && w.sent == [Message(REQUEST, "2")] && w.replies == map[]
            && w.refusedAt == map[] && "r" !in w.host.receipts && w.host.invites == map["s" := Invite("u", 10)]
  {
    InviteIsStaged();
    OvertakingStep(3, Event.Commission("2", "r", "t", "", "", Works));
    assert OvertakenAfter(4) == Starting(OvertakenAfter(3), "2", "r", "t", "", "", Works);
  }

  lemma RequestIsSentTwice()
    ensures var w := OvertakenAfter(6);
            && w.client.memory == EMPTY.(pending := Some(REQUEST)) && w.client.outstanding == Some(1)
            && w.sent == [Message(REQUEST, "2"), Message(REQUEST, "2")] && w.replies == map[]
            && w.refusedAt == map[] && "r" !in w.host.receipts && w.host.invites == map["s" := Invite("u", 10)]
  {
    RequestIsSent();
    OvertakingStep(4, GiveUp);
    OvertakingStep(5, Retry("2"));
  }

  lemma RequestIsDiscarded()
    ensures var w := OvertakenAfter(8);
            && w.client.memory == EMPTY && w.client.outstanding.None? && "r" in w.discarded
            && |w.sent| == 2 && w.sent[0] == Message(REQUEST, "2") && 0 !in w.replies
            && "r" !in w.host.receipts && w.host.invites == map["s" := Invite("u", 10)]
  {
    RequestIsSentTwice();
    var v := OvertakenAfter(6);
    OvertakingStep(6, Deliver(1, Plan(10, false, false, false, "d", "x")));
    assert Dead(v.host, REQUEST.card, 10);
    assert OvertakenAfter(7) == v.(replies := map[1 := InvalidSecret], refusedAt := map["r" := 10]);
    OvertakingStep(7, Receive(Works));
  }

  /** Reached with readings 10 and 9 of a host whose invite ends at 10: the second attempt is refused, the client
      discards the request, and the first attempt, overtaken, still pairs a device the client does not know. */
  lemma OvertakenRequestPairs()
    ensures var w := Run(Fresh(1, "a"), OVERTAKING);
            && "r" in w.discarded && "r" in w.host.receipts && w.client.memory == EMPTY && w.client.outstanding.None?
  {
    RequestIsDiscarded();
    OvertakingStep(8, Deliver(0, Plan(9, false, false, false, "d", "x")));
    assert Commits(OvertakenAfter(8).host, Message(REQUEST, "2"), Plan(9, false, false, false, "d", "x"));
    assert OVERTAKING[..9] == OVERTAKING;
  }

  /** From any reachable state a saved request whose commit reply was lost is finished by one undisturbed
      retry with the PIN it was committed with; any other PIN changes nothing on either side. */
  lemma RetryConverges(w: World, pin: Pin, plan: Plan)
    requires Safe(w) && w.client.memory.pending.Some? && w.client.outstanding.None? && !plan.early && !plan.raises
    requires w.client.memory.pending.value.request in w.host.receipts
    ensures var p := w.client.memory.pending.value;
            var receipt := w.host.receipts[p.request];
            var v := Next(Next(Next(w, Retry(pin)), Deliver(|w.sent|, plan)), Receive(Works));
            && v.host == w.host
            && v.client.outstanding.None?
            && (if pin == receipt.message.pin
                then v.client.memory.paired == Some(Pairing(p.token, receipt.entry.device, receipt.entry.user))
                     && v.client.memory.recoveryCard == receipt.entry.recovery
                     && v.client.memory.recoveryCard == (if p.card.kind == PairingInvite then None else Some(p.newSecret))
                     && v.client.memory.pending.None? && v.client.disk == v.client.memory
                else v.client.memory == w.client.memory && v.client.disk == w.client.disk)
  {
    assert Inv(w);
    var p := w.client.memory.pending.value;
    assert PendingOk(p, w.ours);
    var a := Next(w, Retry(pin));
    assert a.sent[|w.sent|] == Message(p, pin);
    assert |w.sent| !in w.replies;
    assert w.host.receipts[p.request].message.pending == p;
  }

  // ---- The client, as it is run ----

  class PcClient {
    var memory: Saved
    var disk: Saved
    var staged: Option<Card>
    var outstanding: Option<nat>

    ghost function View(): Client
      reads this
    {
      Client(memory, disk, staged, outstanding)
    }

    /** Start with what was saved. */
    constructor (disk: Saved)
      ensures View() == Client(disk, disk, None, None)
    {
      memory, this.disk, staged, outstanding := disk, disk, None, None;
    }

    method SaveState(next: Saved, save: Save) returns (raised: bool)
      modifies `disk
      ensures disk == (if save.Applied() then next else old(disk)) && raised == !save.Works?
    {
      if save.Applied() {
        disk := next;
      }
      raised := !save.Works?;
    }

    /** Save a new request and say whether it may be sent. The request is pending in memory even when
        its save failed. */
    method Commission(request: RequestId, token: Secret, newSecret: Secret, name: string, save: Save) returns (p: Option<Pending>)
      modifies this
      ensures p.Some? <==> old(MayStage(View())) && old(staged).Some? && save.Works?
      ensures p.Some? ==> p == memory.pending == disk.pending
      ensures if old(MayStage(View())) && old(staged).Some?
              then View() == Pend(old(View()), Pending(request, old(staged).value, token, newSecret, name), save)
              else View() == old(View())
    {
      if memory.paired.Some? || memory.pending.Some? || outstanding.Some? || staged.None? {
        return None;
      }
      var pending := Pending(request, staged.value, token, newSecret, name);
      memory := memory.(pending := Some(pending));
      var raised := SaveState(memory, save);
      p := if raised then None else Some(pending);
    }

    method ReplaceState(next: Saved, save: Save)
      modifies this
      ensures View() == Replace(old(View()), next, save)
    {
      var raised := SaveState(next, save);
      if !raised {
        memory := next;
        staged := None;
      }
    }

    /** Take in the reply to the attempt under way. */
    method Receive(reply: Reply, save: Save)
      requires memory.pending.Some?
      modifies this
      ensures View() == Receiving(old(View()), reply, save)
    {
      var p := memory.pending.value;
      outstanding := None;
      match reply {
        case Committed(e) =>
          if e.request == p.request {
            var paired := Pairing(p.token, e.device, e.user);
            ReplaceState(Saved(memory.generation + 1, Some(paired), None, NewRecovery(p)), save);
          }
        case InvalidSecret => ReplaceState(memory.(pending := None), save);
        case OtherRefusal =>
      }
    }

    method Forget(save: Save)
      modifies this
      ensures View() == Forgetting(old(View()), save)
    {
      if memory.pending.Some? || memory.recoveryCard.Some? || memory.paired.None? {
        return;
      }
      ReplaceState(EMPTY.(generation := memory.generation + 1), save);
    }

    method Acknowledge(save: Save)
      modifies this
      ensures View() == Acknowledging(old(View()), save)
    {
      if memory.recoveryCard.None? {
        return;
      }
      memory := memory.(recoveryCard := None);
      var raised := SaveState(memory, save);
    }
  }
}
