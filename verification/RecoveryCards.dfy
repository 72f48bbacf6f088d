/** The recovery card of a paired client: it holds the secret the host committed, it is kept until it
    is acknowledged, and the newest one still opens the product. */
module RecoveryCards {
  import opened Outcomes
  import opened Commissioning

  // ---- What one answer does to the client ----

  /** The answer ends the client's request: it commits it, or refuses its credential. */
  predicate EndsRequest(reply: Reply, p: Pending) {
    reply == InvalidSecret || (reply.Committed? && reply.entry.request == p.request)
  }

  /** A commit pairs the client with the host's device under the token it had saved, and hands over the
      secret it had chosen, unless it was invited; a refused credential clears the request; any other
      answer leaves it to be retried. A save that raised changes nothing in memory. */
  lemma AnswerExactly(c: Client, reply: Reply, save: Save)
    requires c.memory.pending.Some?
    ensures var p := c.memory.pending.value;
            var d := Receiving(c, reply, save);
            && d.outstanding.None?
            && (!EndsRequest(reply, p) ==> d == c.(outstanding := None))
            && (EndsRequest(reply, p) && save.Works? ==> d.memory == d.disk && d.staged.None?)
            && (EndsRequest(reply, p) && !save.Works? ==> d.memory == c.memory && d.staged == c.staged)
            && (EndsRequest(reply, p) && save.Fails? ==> d.disk == c.disk)
            && (EndsRequest(reply, p) && !save.Fails? ==>
                  && d.disk.pending.None?
                  && (reply.InvalidSecret? ==> d.disk == c.memory.(pending := None))
                  && (reply.Committed? ==>
                        && d.disk.paired == Some(Pairing(p.token, reply.entry.device, reply.entry.user))
                        && d.disk.recoveryCard == (if p.card.kind == PairingInvite then None else Some(p.newSecret))
                        && d.disk.generation == c.memory.generation + 1))
  {
  }

  /** Forgetting removes the pairing, on disk and then in memory, exactly when the client is paired and has
      neither a request pending nor a card to be acknowledged. */
  lemma ForgetExactly(c: Client, save: Save)
    ensures var d := Forgetting(c, save);
            var allowed := c.memory.paired.Some? && c.memory.pending.None? && c.memory.recoveryCard.None?;
            && (!allowed ==> d == c)
            && (allowed && save != Fails ==>
                  && d.disk.paired.None? && d.disk.pending.None? && d.disk.recoveryCard.None?
                  && d.disk.generation == c.memory.generation + 1)
            && (allowed && save == Works ==> d.memory == d.disk && MayStage(d.(outstanding := None)))
            && (allowed && save != Works ==> d.memory == c.memory)
  {
  }

  // ---- Acknowledged since the pairing ----

  /** Whether the card has been acknowledged since the pairing, as memory and the disk have it. */
  datatype Acked = Acked(memory: bool, disk: bool)

  /** The attempt under way has been answered by the commit of the pending request. */
  predicate PairsNow(w: World) {
    && w.client.outstanding.Some? && w.client.outstanding.value in w.replies && w.client.memory.pending.Some?
    && w.replies[w.client.outstanding.value].Committed?
    && w.replies[w.client.outstanding.value].entry.request == w.client.memory.pending.value.request
  }

  predicate AcknowledgesNow(w: World) {
    w.client.outstanding.None? && w.client.memory.recoveryCard.Some?
  }

  /** A pairing that is saved starts afresh, an acknowledgement counts where it is saved, and a restart
      goes back to what the disk has. */
  function After(w: World, a: Acked, e: Event): Acked {
    match e
    case Receive(save) =>
      if PairsNow(w) then Acked(a.memory && save != Works, a.disk && save == Fails) else a
    case Acknowledge(save) => if AcknowledgesNow(w) then Acked(true, a.disk || save != Fails) else a
    case RestartClient => Acked(a.disk, a.disk)
    case _ => a
  }

  function Acknowledged(w: World, events: seq<Event>): Acked {
    if events == [] then Acked(false, false)
    else
      var n := |events| - 1;
      After(Run(w, events[..n]), Acknowledged(w, events[..n]), events[n])
  }

  /** The secret a client of this request is to keep. */
  function Owed(p: Pending): Option<Secret> {
    if p.card.kind == PairingInvite then None else Some(p.newSecret)
  }

  /** The entry behind a saved pairing: a device the host created for a request of this client, with the
      request's token, and committed with the secret the client had chosen, unless it was invited. */
  predicate Behind(e: Entry, s: Saved, log: seq<Entry>, ours: map<RequestId, Pending>)
    requires s.paired.Some?
  {
    && e in log && e.request in ours && ours[e.request].token == e.token
    && s.paired.value == Pairing(e.token, e.device, e.user)
    && e.recovery == Owed(ours[e.request])
  }

  /** A paired client holds the secret of its pairing until it was acknowledged, and none afterwards;
      nobody else holds one. */
  predicate CardKept(s: Saved, acked: bool, log: seq<Entry>, ours: map<RequestId, Pending>) {
    if s.paired.Some?
    then exists e :: e in log && Behind(e, s, log, ours) && s.recoveryCard == if acked then None else e.recovery
    else s.recoveryCard.None?
  }

  predicate Cards(w: World, a: Acked) {
    && CardKept(w.client.memory, a.memory, w.host.log, w.ours)
    && CardKept(w.client.disk, a.disk, w.host.log, w.ours)
    && (w.client.memory.pending.Some? ==> w.client.memory.paired.None?)
    && (w.client.disk.pending.Some? ==> w.client.disk.paired.None?)
    && (w.client.memory.recoveryCard.Some? ==> w.client.disk == w.client.memory)
  }

  /** Cards, kept folded. */
  ghost predicate Kept(w: World, a: Acked) {
    forall v :: v == w ==> Cards(v, a)
  }

  lemma CardLasts(s: Saved, acked: bool, log: seq<Entry>, ours: map<RequestId, Pending>, longer: seq<Entry>, more: map<RequestId, Pending>)
    requires CardKept(s, acked, log, ours) && log <= longer
    requires forall r :: r in ours ==> r in more && more[r] == ours[r]
    ensures CardKept(s, acked, longer, more)
  {
    if s.paired.Some? {
      var e :| e in log && Behind(e, s, log, ours) && s.recoveryCard == if acked then None else e.recovery;
      assert e in longer && Behind(e, s, longer, more);
    }
  }

  /** Events that leave what the client has saved alone, and take no entry and no request away. */
  lemma OthersKeep(w: World, a: Acked, v: World)
    requires Kept(w, a) && v.client.memory == w.client.memory && v.client.disk == w.client.disk
    requires w.host.log <= v.host.log && forall r :: r in w.ours ==> r in v.ours && v.ours[r] == w.ours[r]
    ensures Kept(v, a)
  {
    assert Cards(w, a);
    CardLasts(w.client.memory, a.memory, w.host.log, w.ours, v.host.log, v.ours);
    CardLasts(w.client.disk, a.disk, w.host.log, w.ours, v.host.log, v.ours);
    assert Cards(v, a);
  }

  lemma ProcessExtendsLog(h: Host, m: Message, plan: Plan)
    ensures h.log <= Process(h, m, plan).0.log
  {
  }

  lemma StartingKeeps(w: World, a: Acked, pin: Pin, request: RequestId, token: Secret, newSecret: Secret, name: string, save: Save)
    requires Kept(w, a)
    ensures Kept(Starting(w, pin, request, token, newSecret, name, save), a)
  {
    assert Cards(w, a);
    assert Cards(Starting(w, pin, request, token, newSecret, name, save), a);
  }

  lemma PairingStarts(w: World, e: Entry)
    requires Safe(w) && PairsNow(w) && w.replies[w.client.outstanding.value].entry == e
    ensures var p := w.client.memory.pending.value;
            var s := PairedWith(w.client.memory, p, e);
            s.paired.Some? && Behind(e, s, w.host.log, w.ours) && s.recoveryCard == e.recovery && s.pending.None?
  {
    assert Inv(w);
    var n := w.client.outstanding.value;
    assert ReplyOk(w, n) && PendingOk(w.client.memory.pending.value, w.ours);
  }

  lemma ReceivingKeeps(w: World, a: Acked, save: Save)
    requires Safe(w) && Kept(w, a)
    ensures Kept(Receipted(w, save), After(w, a, Receive(save)))
  {
    assert Cards(w, a);
    if PairsNow(w) {
      PairingStarts(w, w.replies[w.client.outstanding.value].entry);
    }
    assert Cards(Receipted(w, save), After(w, a, Receive(save)));
  }

  lemma LocalKeeps(w: World, a: Acked, save: Save)
    requires Kept(w, a)
    ensures Kept(w.(client := Restarted(w.client)), Acked(a.disk, a.disk))
    ensures Kept(w.(client := Forgetting(w.client, save)), a)
  {
    assert Cards(w, a);
    assert Cards(w.(client := Restarted(w.client)), Acked(a.disk, a.disk));
    assert Cards(w.(client := Forgetting(w.client, save)), a);
  }

  lemma AcknowledgingKeeps(w: World, a: Acked, save: Save)
    requires Kept(w, a) && AcknowledgesNow(w)
    ensures Kept(w.(client := Acknowledging(w.client, save)), Acked(true, a.disk || save != Fails))
  {
    assert Cards(w, a);
    var v := w.(client := Acknowledging(w.client, save));
    var e :| e in w.host.log && Behind(e, w.client.memory, w.host.log, w.ours)
             && w.client.memory.recoveryCard == if a.memory then None else e.recovery;
    assert Behind(e, v.client.memory, w.host.log, w.ours);
    assert Cards(v, Acked(true, a.disk || save != Fails));
  }

  lemma NextKeepsCards(w: World, a: Acked, e: Event)
    requires Safe(w) && Kept(w, a)
    ensures Kept(Next(w, e), After(w, a, e))
  {
    match e
    case Commission(pin, request, token, newSecret, name, save) => StartingKeeps(w, a, pin, request, token, newSecret, name, save);
    case Receive(save) => ReceivingKeeps(w, a, save);
    case RestartClient => LocalKeeps(w, a, Works);
    case Forget(save) => LocalKeeps(w, a, save);
    case Acknowledge(save) =>
      if AcknowledgesNow(w) {
        AcknowledgingKeeps(w, a, save);
      }
    case Deliver(attempt, plan) =>
      if attempt < |w.sent| {
        ProcessExtendsLog(w.host, w.sent[attempt], plan);
      }
      OthersKeep(w, a, Next(w, e));
    case Foreign(m, plan) =>
      ProcessExtendsLog(w.host, m, plan);
      OthersKeep(w, a, Next(w, e));
    case _ => OthersKeep(w, a, Next(w, e));
  }

  /** Over every run: a paired client, in memory and on disk, has as its recovery card exactly the secret
      the host committed with its pairing - the one it chose for a claim or a recovery, none for an invite
      - until that card was acknowledged, and none from then on. */
  lemma {:induction false} CardsAreKept(generation: nat, activation: Secret, events: seq<Event>)
    ensures var w := Run(Fresh(generation, activation), events);
            var a := Acknowledged(Fresh(generation, activation), events);
            && Kept(w, a)
            && CardKept(w.client.memory, a.memory, w.host.log, w.ours)
            && CardKept(w.client.disk, a.disk, w.host.log, w.ours)
  {
    if events == [] {
      assert Cards(Fresh(generation, activation), Acked(false, false));
    } else {
      var n := |events| - 1;
      CardsAreKept(generation, activation, events[..n]);
      RunKeeps(generation, activation, events[..n]);
      NextKeepsCards(Run(Fresh(generation, activation), events[..n]),
                     Acknowledged(Fresh(generation, activation), events[..n]), events[n]);
      assert Cards(Run(Fresh(generation, activation), events), Acknowledged(Fresh(generation, activation), events));
    }
  }

  /** A card in memory is on the disk too, and of all events only an acknowledgement takes it away:
      not a restart, not a later answer, and not forgetting, which is refused while it is there. */
  lemma OnlyAcknowledgingTakesTheCard(generation: nat, activation: Secret, events: seq<Event>, e: Event)
    ensures var w := Run(Fresh(generation, activation), events);
            var v := Next(w, e);
            w.client.memory.recoveryCard.Some? ==>
              && w.client.disk == w.client.memory
              && (v.client.memory.recoveryCard == w.client.memory.recoveryCard <==> !(e.Acknowledge? && w.client.outstanding.None?))
              && v.client.memory.paired == w.client.memory.paired
  {
    CardsAreKept(generation, activation, events);
    var w := Run(Fresh(generation, activation), events);
    assert Cards(w, Acknowledged(Fresh(generation, activation), events));
  }

  // ---- The card opens the product ----

  /** The newest entry of this generation that carries a secret. */
  predicate Newest(h: Host, i: int) {
    && 0 <= i < |h.log| && h.log[i].generation == h.generation && h.log[i].recovery.Some?
    && (forall j :: i < j < |h.log| ==> h.log[j].recovery.None?)
  }

  /** It is the secret that recovers the product, for the user it was committed to. */
  ghost predicate NewestOwns(h: Host) {
    forall i :: Newest(h, i) ==> h.ownership == OwnedBy(h.log[i].user, h.log[i].recovery.value)
  }

  lemma ProcessKeepsNewest(h: Host, m: Message, plan: Plan)
    requires NewestOwns(h)
    ensures NewestOwns(Process(h, m, plan).0)
  {
    var g := Process(h, m, plan).0;
    if Commits(h, m, plan) {
      assert g.log == h.log + [Committing(h, m, plan).1];
      forall i | Newest(g, i) ensures g.ownership == OwnedBy(g.log[i].user, g.log[i].recovery.value) {
        if i < |h.log| {
          assert g.log[|h.log|].recovery.None?;
          assert forall j :: i < j < |h.log| ==> h.log[j] == g.log[j];
          assert Newest(h, i);
        }
      }
    }
  }

  lemma NextKeepsNewest(w: World, e: Event)
    requires Safe(w) && NewestOwns(w.host)
    ensures NewestOwns(Next(w, e).host)
  {
    match e
    case Deliver(attempt, plan) =>
      if attempt < |w.sent| {
        ProcessKeepsNewest(w.host, w.sent[attempt], plan);
      }
    case Foreign(m, plan) => ProcessKeepsNewest(w.host, m, plan);
    case ResetHost(activation) => assert Inv(w);
    case _ => SameHost(w, e);
  }

  lemma SameHost(w: World, e: Event)
    requires NewestOwns(w.host) && !e.Deliver? && !e.Foreign? && !e.ResetHost?
    ensures NewestOwns(Next(w, e).host)
  {
    var g := Next(w, e).host;
    assert g.log == w.host.log && g.generation == w.host.generation && g.ownership == w.host.ownership;
    assert forall i :: Newest(g, i) ==> Newest(w.host, i);
  }

  lemma {:induction false} NewestSecretOwns(generation: nat, activation: Secret, events: seq<Event>)
    ensures NewestOwns(Run(Fresh(generation, activation), events).host)
  {
    if events != [] {
      var n := |events| - 1;
      NewestSecretOwns(generation, activation, events[..n]);
      RunKeeps(generation, activation, events[..n]);
      NextKeepsNewest(Run(Fresh(generation, activation), events[..n]), events[n]);
    }
  }

  /** In every run the newest secret committed in this generation is good at the host for a recovery, so
      an owner who was not recovered or reset since, and has not acknowledged the card, can recover. */
  lemma NewestCardRecovers(generation: nat, activation: Secret, events: seq<Event>, i: int, now: int)
    ensures var h := Run(Fresh(generation, activation), events).host;
            Newest(h, i) ==> !Dead(h, Card(Recovery, h.log[i].recovery.value), now)
  {
    NewestSecretOwns(generation, activation, events);
  }

  // ---- The retry ends with the card ----

  /** The undisturbed retry of a committed request ends paired with the card of its request, in memory
      and on disk. */
  lemma RetryBringsTheCard(w: World, pin: Pin, plan: Plan)
    requires Safe(w) && w.client.memory.pending.Some? && w.client.outstanding.None? && !plan.early && !plan.raises
    requires w.client.memory.pending.value.request in w.host.receipts
    requires pin == w.host.receipts[w.client.memory.pending.value.request].message.pin
    ensures var p := w.client.memory.pending.value;
            var receipt := w.host.receipts[p.request];
            var v := Next(Next(Next(w, Retry(pin)), Deliver(|w.sent|, plan)), Receive(Works));
            && v.client.memory.paired == Some(Pairing(p.token, receipt.entry.device, receipt.entry.user))
            && v.client.memory.recoveryCard == receipt.entry.recovery == Owed(p)
            && v.client.disk == v.client.memory
  {
    RetryConverges(w, pin, plan);
  }
}
