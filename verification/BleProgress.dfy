/** What one BLE peer does when its workers and its client keep going: a read hands over what is
    buffered, a worker's round moves the next piece, and an exchange that is closed ends. */
module BleProgress {
  import opened BleProtocol
  import opened Outcomes
  import opened BlePeer

  // ---- What one read answers ----

  /** Both workers are done, upstream has ended, and everything received was handed over. */
  predicate BothEnded(p: PeerState) {
    p.writerDone && p.readerDone && p.upstreamEof && p.downlink == []
  }

  function Smallest(a: int, b: int, c: int): int {
    if a <= b && a <= c then a else if b <= c then b else c
  }

  /** Neither worker moved, and no frame was accepted. */
  predicate SameWork(p: PeerState, q: PeerState) {
    && q.writer == p.writer && q.writerDone == p.writerDone && q.uplink == p.uplink
    && q.reader == p.reader && q.readerDone == p.readerDone && q.upstreamEof == p.upstreamEof
    && q.closeReceived == p.closeReceived && q.log.accepted == p.log.accepted && q.log.sent == p.log.sent
  }

  /** What a read of a healthy peer with no control frame waiting answers and does: DATA if and only
      if bytes are buffered, the first of them, as many as there are up to the room beside the headers
      and the protocol's limit, and exactly those leave the buffer. CLOSED if and only if both
      directions have ended and that was not reported. WAIT otherwise. */
  predicate Answered(p: PeerState, q: PeerState, frame: ServerFrame, mtu: int)
    requires mtu >= 5
  {
    var size := Smallest(|p.downlink|, mtu - 4, 511);
    && (frame.ServerData? <==> p.downlink != [])
    && (frame.Closed? <==> BothEnded(p) && !p.closedDelivered)
    && (frame.ServerData? || frame.Closed? || frame.Wait?)
    && (p.downlink != [] ==> frame == ServerData(p.downlink[..size]))
    && q.downlink == p.downlink[size..]
    && q.log.delivered == p.log.delivered + p.downlink[..size]
    && q.log.frames == p.log.frames + [frame]
    && (q.closedDelivered <==> p.closedDelivered || frame.Closed?)
    && q.mtu == mtu && q.Healthy() && q.controls == []
    && q.log.received == p.log.received && SameWork(p, q)
  }

  lemma ReadAnswersExactly(p: PeerState, mtu: int)
    requires Inv(p) && p.Healthy() && p.controls == [] && mtu >= 5
    ensures Answered(p, Reading(p, mtu).0, Reading(p, mtu).1, mtu)
  {
    if p.downlink == [] {
      assert UplinkFidelity(p) && HealthyShape(p) && WellFormedWorkers(p);
      if BothEnded(p) {
        assert p.uplink == [] && InFlight(p.writer) == [] && p.uplinkBytes == 0;
      }
    }
  }

  /** A pending control frame comes first, and a peer that failed answers its error for good. */
  lemma ReadBeforeData(p: PeerState, mtu: int)
    requires Inv(p) && mtu >= 5 && !(p.Healthy() && p.controls == [])
    ensures var (q, frame) := Reading(p, mtu);
            && (p.Healthy() && !p.closedDelivered ==> frame == OpenOk && q.controls == [])
            && (p.disconnected ==> frame == Error(BadState))
            && (!p.disconnected && p.error.Some? ==> frame == Error(p.error.value))
            && q.downlink == p.downlink && q.log.delivered == p.log.delivered && SameWork(p, q)
            && q.Healthy() == p.Healthy() && q.closedDelivered == p.closedDelivered
  {
  }

  // ---- Runs ----

  lemma RunLast(p: PeerState, events: seq<Event>, e: Event, q: PeerState)
    requires Run(p, events) == q
    ensures Run(p, events + [e]) == Next(q, e)
  {
    assert (events + [e])[..|events|] == events;
  }

  lemma {:induction false} RunJoins(p: PeerState, events: seq<Event>, more: seq<Event>)
    ensures Run(p, events + more) == Run(Run(p, events), more)
    decreases |more|
  {
    if more == [] {
      assert events + more == events;
    } else {
      var init, last := more[..|more| - 1], more[|more| - 1];
      RunJoins(p, events, init);
      RunLast(p, events + init, last, Run(p, events + init));
      RunLast(Run(p, events), init, last, Run(p, events + init));
      assert more == init + [last] && events + more == (events + init) + [last];
    }
  }

  predicate Ends(p: PeerState, events: seq<Event>, q: PeerState) {
    Run(p, events) == q
  }

  /** The events take `p` to `q`, behind a bound variable: unfolded only where a proof names `Ends`. */
  ghost predicate Leads(p: PeerState, events: seq<Event>, q: PeerState) {
    forall r :: r == q ==> Ends(p, events, r)
  }

  lemma OneLeads(p: PeerState, e: Event, q: PeerState)
    requires Next(p, e) == q
    ensures Leads(p, [e], q)
  {
    assert [e][..0] == [];
    assert Ends(p, [e], q);
  }

  lemma LeadsJoin(p: PeerState, events: seq<Event>, q: PeerState, more: seq<Event>, r: PeerState)
    requires Leads(p, events, q) && Leads(q, more, r)
    ensures Leads(p, events + more, r)
  {
    assert Ends(p, events, q) && Ends(q, more, r);
    RunJoins(p, events, more);
    assert Ends(p, events + more, r);
  }

  lemma TwoLead(p: PeerState, a: Event, q: PeerState, b: Event, r: PeerState)
    requires Leads(p, [a], q) && Leads(q, [b], r)
    ensures Leads(p, [a, b], r)
  {
    LeadsJoin(p, [a], q, [b], r);
    assert [a] + [b] == [a, b];
  }

  lemma ThreeLead(p: PeerState, a: Event, q: PeerState, b: Event, r: PeerState, c: Event, s: PeerState)
    requires Leads(p, [a], q) && Leads(q, [b], r) && Leads(r, [c], s)
    ensures Leads(p, [a, b, c], s)
  {
    TwoLead(p, a, q, b, r);
    LeadsJoin(p, [a, b], r, [c], s);
    assert [a, b] + [c] == [a, b, c];
  }

  lemma {:induction false} EveryRunKeeps(p: PeerState, events: seq<Event>)
    requires Inv(p)
    ensures Inv(Run(p, events))
    decreases |events|
  {
    if events != [] {
      EveryRunKeeps(p, events[..|events| - 1]);
      NextKeeps(Run(p, events[..|events| - 1]), events[|events| - 1]);
    }
  }

  // ---- Reads alone empty the buffer ----

  function Reads(mtus: seq<int>): seq<Event> {
    if mtus == [] then [] else Reads(mtus[..|mtus| - 1]) + [Read(mtus[|mtus| - 1])]
  }

  predicate Usable(mtus: seq<int>) {
    forall i :: 0 <= i < |mtus| ==> mtus[i] >= 5
  }

  /** As many reads as there are buffered bytes hand all of them over, in order, whatever room each
      read has; and when both directions have ended, one more has reported CLOSED. */
  lemma {:induction false} ReadsEmptyTheBuffer(p: PeerState, mtus: seq<int>)
    requires Inv(p) && p.Healthy() && p.controls == [] && Usable(mtus)
    ensures var q := Run(p, Reads(mtus));
            && Inv(q) && q.Healthy() && q.controls == [] && SameWork(p, q) && q.log.received == p.log.received
            && q.log.delivered + q.downlink == p.log.delivered + p.downlink
            && (|mtus| >= |p.downlink| ==> q.downlink == [] && q.log.delivered == p.log.delivered + p.downlink)
            && (|mtus| < |p.downlink| ==> |q.downlink| <= |p.downlink| - |mtus|)
            && (|mtus| > |p.downlink| && p.writerDone && p.readerDone && p.upstreamEof ==> q.closedDelivered)
    decreases |mtus|
  {
    if mtus != [] {
      var n := |mtus| - 1;
      var earlier := Run(p, Reads(mtus[..n]));
      ReadsEmptyTheBuffer(p, mtus[..n]);
      var q := ReadHandsOver(earlier, mtus[n]);
      assert Ends(earlier, [Read(mtus[n])], q);
      RunJoins(p, Reads(mtus[..n]), [Read(mtus[n])]);
    }
  }

  lemma RunRead(p: PeerState, mtu: int)
    requires mtu >= 5
    ensures Leads(p, [Read(mtu)], Reading(p, mtu).0)
  {
    OneLeads(p, Read(mtu), Reading(p, mtu).0);
  }

  lemma AnsweredHandsOver(p: PeerState, q: PeerState, frame: ServerFrame, mtu: int)
    requires mtu >= 5 && Answered(p, q, frame, mtu)
    ensures HandsOver(p, q)
  {
    HandedOver(p.log.delivered, p.downlink, Smallest(|p.downlink|, mtu - 4, 511));
  }

  /** One read moves the front of the buffer to the client, and reports the end when it is reached. */
  predicate HandsOver(p: PeerState, q: PeerState) {
    && q.Healthy() && q.controls == [] && SameWork(p, q) && q.log.received == p.log.received
    && q.log.delivered + q.downlink == p.log.delivered + p.downlink
    && (p.downlink == [] ==> q.downlink == []) && (p.downlink != [] ==> |q.downlink| < |p.downlink|)
    && (p.closedDelivered || BothEnded(p) ==> q.closedDelivered)
  }

  lemma ReadHandsOver(p: PeerState, mtu: int) returns (q: PeerState)
    requires Inv(p) && p.Healthy() && p.controls == [] && mtu >= 5
    ensures Leads(p, [Read(mtu)], q) && Inv(q) && HandsOver(p, q)
  {
    q := Reading(p, mtu).0;
    ReadKeeps(p, mtu);
    ReadAnswersExactly(p, mtu);
    AnsweredHandsOver(p, q, Reading(p, mtu).1, mtu);
    RunRead(p, mtu);
  }

  lemma HandedOver(delivered: Bytes, downlink: Bytes, size: nat)
    requires size <= |downlink|
    ensures (delivered + downlink[..size]) + downlink[size..] == delivered + downlink
  {
    assert downlink[..size] + downlink[size..] == downlink;
    assert (delivered + downlink[..size]) + downlink[size..] == delivered + (downlink[..size] + downlink[size..]);
  }

  // ---- One round of a worker ----

  function SendingRound(bytes: Bytes): seq<Event> {
    if bytes == [] then [WriterTake, WriterSettle] else [WriterTake, WriterSend(|bytes|), WriterSettle]
  }

  /** The first queued payload went upstream, and no longer counts against the buffer. */
  function SentFirst(p: PeerState): PeerState
    requires p.uplink != [] && p.uplink[0].Chunk?
  {
    p.(uplink := p.uplink[1..], uplinkBytes := p.uplinkBytes - |p.uplink[0].bytes|,
       log := p.log.(sent := p.log.sent + p.uplink[0].bytes))
  }

  lemma WriterTakes(p: PeerState, q: PeerState)
    requires p.Healthy() && p.upstream && p.writer == WriterWaiting && p.uplink != [] && p.uplink[0].Chunk?
    requires q == p.(uplink := p.uplink[1..], writer := WriterSending(p.uplink[0].bytes, 0))
    ensures Leads(p, [WriterTake], q)
  {
    OneLeads(p, WriterTake, q);
  }

  lemma WriterSendsAll(p: PeerState, bytes: Bytes, q: PeerState)
    requires p.writer == WriterSending(bytes, 0) && bytes != []
    requires q == p.(writer := WriterSending(bytes, |bytes|), log := p.log.(sent := p.log.sent + bytes))
    ensures Leads(p, [WriterSend(|bytes|)], q)
  {
    assert bytes[0..|bytes|] == bytes;
    OneLeads(p, WriterSend(|bytes|), q);
  }

  lemma WriterSettles(p: PeerState, q: PeerState)
    requires p.writer.WriterSending? && p.writer.sent == |p.writer.chunk|
    requires q == p.(writer := WriterWaiting, uplinkBytes := p.uplinkBytes - |p.writer.chunk|)
    ensures Leads(p, [WriterSettle], q)
  {
    OneLeads(p, WriterSettle, q);
  }

  lemma WriterSendsNone(p: PeerState, taken: PeerState)
    requires p.Healthy() && p.upstream && p.writer == WriterWaiting && p.uplink != [] && p.uplink[0] == Chunk([])
    requires taken == p.(uplink := p.uplink[1..], writer := WriterSending([], 0))
    ensures Leads(p, [WriterTake, WriterSettle], SentFirst(p))
  {
    assert p.log.sent + [] == p.log.sent;
    WriterTakes(p, taken);
    WriterSettles(taken, SentFirst(p));
    TwoLead(p, WriterTake, taken, WriterSettle, SentFirst(p));
  }

  lemma WriterSendsSome(p: PeerState, bytes: Bytes, taken: PeerState, sent: PeerState)
    requires p.Healthy() && p.upstream && p.writer == WriterWaiting && p.uplink != [] && p.uplink[0] == Chunk(bytes)
    requires bytes != [] && taken == p.(uplink := p.uplink[1..], writer := WriterSending(bytes, 0))
    requires sent == taken.(writer := WriterSending(bytes, |bytes|), log := p.log.(sent := p.log.sent + bytes))
    ensures Leads(p, [WriterTake, WriterSend(|bytes|), WriterSettle], SentFirst(p))
  {
    WriterTakes(p, taken);
    WriterSendsAll(taken, bytes, sent);
    WriterSettles(sent, SentFirst(p));
    ThreeLead(p, WriterTake, taken, WriterSend(|bytes|), sent, WriterSettle, SentFirst(p));
  }

  /** The writer of a healthy peer takes the next payload, sends it, and waits again: exactly that
      payload goes upstream. */
  lemma WriterSends(p: PeerState)
    requires p.Healthy() && p.upstream && p.writer == WriterWaiting && p.uplink != [] && p.uplink[0].Chunk?
    ensures Leads(p, SendingRound(p.uplink[0].bytes), SentFirst(p))
  {
    var bytes := p.uplink[0].bytes;
    var taken := p.(uplink := p.uplink[1..], writer := WriterSending(bytes, 0));
    if bytes == [] {
      WriterSendsNone(p, taken);
    } else {
      WriterSendsSome(p, bytes, taken,
                      taken.(writer := WriterSending(bytes, |bytes|), log := p.log.(sent := p.log.sent + bytes)));
    }
  }

  function EndingRound(): seq<Event> {
    [WriterTake, WriterShutdown, WriterExit]
  }

  lemma WriterTakesEnd(p: PeerState, q: PeerState)
    requires p.Healthy() && p.upstream && p.writer == WriterWaiting && p.uplink == [EndOfStream]
    requires q == p.(uplink := [], writer := WriterClosing)
    ensures Leads(p, [WriterTake], q)
  {
    assert p.uplink[1..] == [];
    OneLeads(p, WriterTake, q);
  }

  lemma WriterLeaves(p: PeerState, q: PeerState, r: PeerState)
    requires p.writer == WriterClosing && q == p.(writer := WriterLeaving)
    requires r == Released(p.(writer := WriterExited, writerDone := true))
    ensures Leads(p, [WriterShutdown], q) && Leads(q, [WriterExit], r)
  {
    OneLeads(p, WriterShutdown, q);
    OneLeads(q, WriterExit, r);
  }

  /** The end marker makes the writer shut the upstream socket for writing, and leave. */
  lemma WriterEnds(p: PeerState)
    requires p.Healthy() && p.upstream && p.writer == WriterWaiting && p.uplink == [EndOfStream]
    ensures Leads(p, EndingRound(), Released(p.(uplink := [], writer := WriterExited, writerDone := true)))
  {
    var closing := p.(uplink := [], writer := WriterClosing);
    var leaving := closing.(writer := WriterLeaving);
    var left := Released(closing.(writer := WriterExited, writerDone := true));
    WriterTakesEnd(p, closing);
    WriterLeaves(closing, leaving, left);
    ThreeLead(p, WriterTake, closing, WriterShutdown, leaving, WriterExit, left);
  }

  lemma ReaderMakesRoom(p: PeerState, q: PeerState)
    requires p.Healthy() && p.upstream && p.reader == ReaderWaiting && |p.downlink| < MAX_DIRECTION_BUFFER
    requires q == p.(reader := ReaderReceiving(MAX_DIRECTION_BUFFER - |p.downlink|))
    ensures Leads(p, [ReaderCheck], q)
  {
    OneLeads(p, ReaderCheck, q);
  }

  lemma ReaderReceives(p: PeerState, chunk: Bytes, q: PeerState)
    requires p.reader.ReaderReceiving? && 0 < |chunk| <= p.reader.room && |chunk| <= 4096
    requires q == p.(reader := ReaderHolding(chunk), log := p.log.(received := p.log.received + chunk))
    ensures Leads(p, [ReaderReceive(chunk)], q)
  {
    OneLeads(p, ReaderReceive(chunk), q);
  }

  lemma ReaderKeepsChunk(p: PeerState, q: PeerState)
    requires p.Healthy() && p.reader.ReaderHolding?
    requires q == p.(reader := ReaderWaiting, downlink := p.downlink + p.reader.chunk)
    ensures Leads(p, [ReaderStore], q)
  {
    OneLeads(p, ReaderStore, q);
  }

  /** The reader of a healthy peer with room stores what upstream sent, behind what is buffered. */
  lemma ReaderStores(p: PeerState, chunk: Bytes)
    requires p.Healthy() && p.upstream && p.reader == ReaderWaiting
    requires 0 < |chunk| <= 4096 && |p.downlink| + |chunk| <= MAX_DIRECTION_BUFFER
    ensures Leads(p, [ReaderCheck, ReaderReceive(chunk), ReaderStore],
                  p.(downlink := p.downlink + chunk, log := p.log.(received := p.log.received + chunk)))
  {
    var checked := p.(reader := ReaderReceiving(MAX_DIRECTION_BUFFER - |p.downlink|));
    var held := p.(reader := ReaderHolding(chunk), log := p.log.(received := p.log.received + chunk));
    var stored := p.(downlink := p.downlink + chunk, log := p.log.(received := p.log.received + chunk));
    ReaderMakesRoom(p, checked);
    ReaderReceives(checked, chunk, held);
    ReaderKeepsChunk(held, stored);
    ThreeLead(p, ReaderCheck, checked, ReaderReceive(chunk), held, ReaderStore, stored);
  }

  function EofRound(): seq<Event> {
    [ReaderCheck, ReaderReceive([]), ReaderStore] + [ReaderExit]
  }

  lemma ReaderSeesEof(p: PeerState, q: PeerState, r: PeerState)
    requires p.reader.ReaderReceiving? && q == p.(reader := ReaderAtEof)
    requires r == p.(reader := ReaderLeaving, upstreamEof := true)
    ensures Leads(p, [ReaderReceive([])], q) && Leads(q, [ReaderStore], r)
  {
    OneLeads(p, ReaderReceive([]), q);
    OneLeads(q, ReaderStore, r);
  }

  lemma ReaderLeaves(p: PeerState, q: PeerState)
    requires p.reader == ReaderLeaving && q == Released(p.(reader := ReaderExited, readerDone := true))
    ensures Leads(p, [ReaderExit], q)
  {
    OneLeads(p, ReaderExit, q);
  }

  /** The end of the upstream stream makes the reader record it, and leave. */
  lemma ReaderEnds(p: PeerState)
    requires p.Healthy() && p.upstream && p.reader == ReaderWaiting && |p.downlink| < MAX_DIRECTION_BUFFER
    ensures Leads(p, EofRound(), Released(p.(reader := ReaderExited, upstreamEof := true, readerDone := true)))
  {
    var checked := p.(reader := ReaderReceiving(MAX_DIRECTION_BUFFER - |p.downlink|));
    var atEof := p.(reader := ReaderAtEof);
    var leaving := p.(reader := ReaderLeaving, upstreamEof := true);
    var left := Released(p.(reader := ReaderExited, upstreamEof := true, readerDone := true));
    ReaderMakesRoom(p, checked);
    ReaderSeesEof(checked, atEof, leaving);
    ThreeLead(p, ReaderCheck, checked, ReaderReceive([]), atEof, ReaderStore, leaving);
    ReaderLeaves(leaving, left);
    LeadsJoin(p, [ReaderCheck, ReaderReceive([]), ReaderStore], leaving, [ReaderExit], left);
  }

  // ---- A closed exchange ends ----

  function WriterWork(items: seq<Item>): seq<Event> {
    if items == [] then []
    else (if items[0].Chunk? then SendingRound(items[0].bytes) else EndingRound()) + WriterWork(items[1..])
  }

  predicate ClosedQueue(items: seq<Item>) {
    && items != [] && items[|items| - 1] == EndOfStream
    && (forall i :: 0 <= i < |items| - 1 ==> items[i].Chunk?)
  }

  /** Everything queued went upstream, and the writer left. */
  function AllSent(p: PeerState): PeerState {
    p.(uplink := [], uplinkBytes := p.uplinkBytes - |Flat(p.uplink)|, writer := WriterExited, writerDone := true,
       log := p.log.(sent := p.log.sent + Flat(p.uplink)))
  }

  lemma SentFirstThenRest(p: PeerState)
    requires p.uplink != [] && p.uplink[0].Chunk?
    ensures AllSent(SentFirst(p)) == AllSent(p)
  {
    var first, rest := p.uplink[0].bytes, Flat(p.uplink[1..]);
    assert p.log.sent + (first + rest) == (p.log.sent + first) + rest;
  }

  lemma WriterFinishesLast(p: PeerState)
    requires p.Healthy() && p.upstream && p.writer == WriterWaiting && p.uplink == [EndOfStream] && !p.upstreamEof
    ensures Leads(p, WriterWork(p.uplink), AllSent(p))
  {
    WriterEnds(p);
    assert EndingRound() + [] == EndingRound();
    assert Flat(p.uplink) == [] && p.log.sent + [] == p.log.sent;
  }

  /** The writer works off a closed queue to its end marker: everything queued goes upstream. */
  lemma {:induction false} WriterFinishes(p: PeerState)
    requires p.Healthy() && p.upstream && p.writer == WriterWaiting && ClosedQueue(p.uplink) && !p.upstreamEof
    ensures Leads(p, WriterWork(p.uplink), AllSent(p))
    decreases |p.uplink|
  {
    var rest := p.uplink[1..];
    if rest == [] {
      assert p.uplink == [EndOfStream];
      WriterFinishesLast(p);
    } else {
      assert forall i :: 0 <= i < |rest| ==> rest[i] == p.uplink[i + 1];
      WriterSends(p);
      WriterFinishes(SentFirst(p));
      SentFirstThenRest(p);
      LeadsJoin(p, SendingRound(p.uplink[0].bytes), SentFirst(p), WriterWork(rest), AllSent(p));
    }
  }

  /** The client closes and goes on reading, the workers do their rounds, upstream ends its side. */
  function ClosingRun(p: PeerState, mtus: seq<int>, mtu: int): seq<Event> {
    ClosingWork(p) + Reads(mtus) + EofRound() + [Read(mtu)]
  }

  function ClosingWork(p: PeerState): seq<Event> {
    [CloseFrame] + WriterWork(p.uplink + [EndOfStream])
  }

  lemma CloseLeads(p: PeerState, q: PeerState)
    requires p.phase.Active? && p.error.None?
    requires q == p.(phase := Closing, closeReceived := true, uplink := p.uplink + [EndOfStream])
    ensures Leads(p, [CloseFrame], q)
  {
    OneLeads(p, CloseFrame, q);
  }

  lemma ClosingReachesUpstream(p: PeerState) returns (q: PeerState)
    requires Inv(p) && p.Healthy() && p.phase.Active? && p.writer == WriterWaiting && p.reader == ReaderWaiting
    ensures Leads(p, ClosingWork(p), q)
    ensures Inv(q) && q.Healthy() && q.writerDone && q.reader == ReaderWaiting && !q.closedDelivered
    ensures q.upstream && !q.upstreamEof
    ensures q.downlink == p.downlink && q.controls == p.controls && q.log == p.log.(sent := p.log.accepted)
  {
    var c := p.(phase := Closing, closeReceived := true, uplink := p.uplink + [EndOfStream]);
    q := AllSent(c);
    assert HealthyShape(p) && UplinkFidelity(p) && WellFormedWorkers(p);
    CloseLeads(p, c);
    WriterFinishes(c);
    LeadsJoin(p, [CloseFrame], c, WriterWork(c.uplink), q);
    EveryRunKeeps(p, ClosingWork(p));
    assert Ends(p, ClosingWork(p), q);
    FlatAppend(p.uplink, EndOfStream);
    assert p.log.sent + [] + Flat(p.uplink) == p.log.sent + (Flat(p.uplink) + []);
  }

  lemma EofIsRecorded(p: PeerState) returns (q: PeerState)
    requires Inv(p) && p.Healthy() && p.upstream && p.reader == ReaderWaiting && p.downlink == [] && !p.closedDelivered
    ensures Leads(p, EofRound(), q)
    ensures Inv(q) && q.Healthy() && q.readerDone && q.upstreamEof && q.writerDone == p.writerDone
    ensures q.downlink == [] && q.controls == p.controls && q.log == p.log && !q.closedDelivered
  {
    q := Released(p.(reader := ReaderExited, upstreamEof := true, readerDone := true));
    ReaderEnds(p);
    EveryRunKeeps(p, EofRound());
    assert Ends(p, EofRound(), q);
  }

  lemma LastReadReports(p: PeerState, mtu: int)
    requires Inv(p) && p.Healthy() && p.controls == [] && mtu >= 5 && BothEnded(p) && !p.closedDelivered
    ensures var q := Run(p, [Read(mtu)]);
            && q.closedDelivered && q.log.frames == p.log.frames + [Closed]
            && q.log.sent == p.log.sent && q.log.delivered == p.log.delivered
  {
    RunRead(p, mtu);
    assert Ends(p, [Read(mtu)], Reading(p, mtu).0);
    ReadAnswersExactly(p, mtu);
  }

  lemma NothingLeft(p: PeerState)
    requires DownlinkFidelity(p) && p.reader == ReaderWaiting
    ensures p.log.delivered + p.downlink == p.log.received
  {
    assert p.log.delivered + p.downlink + [] == p.log.delivered + p.downlink;
  }

  /** Every open exchange can be ended: from any reachable peer whose workers wait, closing it lets
      the workers and the client's reads bring it to CLOSED, with everything the client had sent
      gone upstream and everything upstream had sent in the client's hands. */
  lemma ClosedExchangeEnds(p: PeerState, mtus: seq<int>, mtu: int)
    requires Inv(p) && p.Healthy() && p.phase.Active? && p.controls == []
    requires p.writer == WriterWaiting && p.reader == ReaderWaiting
    requires Usable(mtus) && |mtus| >= |p.downlink| && mtu >= 5
    ensures var q := Run(p, ClosingRun(p, mtus, mtu));
            && q.closedDelivered && q.log.frames != [] && q.log.frames[|q.log.frames| - 1] == Closed
            && q.log.sent == p.log.accepted && q.log.delivered == p.log.received
  {
    NothingLeft(p);
    var c := ClosingReachesUpstream(p);
    ReadsEmptyTheBuffer(c, mtus);
    var r := Run(c, Reads(mtus));
    assert Ends(c, Reads(mtus), r);
    StillOpen(r);
    var e := EofIsRecorded(r);
    LeadsJoin(p, ClosingWork(p), c, Reads(mtus), r);
    LeadsJoin(p, ClosingWork(p) + Reads(mtus), r, EofRound(), e);
    assert Ends(p, ClosingWork(p) + Reads(mtus) + EofRound(), e);
    LastReadReports(e, mtu);
    RunJoins(p, ClosingWork(p) + Reads(mtus) + EofRound(), [Read(mtu)]);
  }

  lemma StillOpen(p: PeerState)
    requires Inv(p) && p.Healthy() && p.reader == ReaderWaiting
    ensures p.upstream && !p.closedDelivered
  {
  }

  // ---- What a failure does ----

  /** The first failure of a live peer is kept, closes upstream and empties every buffer; a peer that failed
      or was disconnected is left as it is. */
  lemma PoisonExactly(p: PeerState, code: ErrorCode)
    ensures var q := Next(p, Poison(code));
            && (p.error.None? && !p.disconnected ==>
                  && q.error == Some(code) && q.phase.Poisoned? && !q.upstream
                  && q.uplink == [] && q.uplinkBytes == 0 && q.downlink == [] && q.controls == []
                  && q.log == p.log && q.writer == p.writer && q.reader == p.reader && !q.disconnected)
            && (p.error.Some? || p.disconnected ==> q == p)
  {
  }

  /** A connector that cannot reach upstream fails the peer, and so does a writer that meets an error, with its
      code, and leaves. */
  lemma ConnectorFailurePoisons(p: PeerState)
    requires p.Healthy() && p.connecting
    ensures var q := Next(p, ConnectFailed);
            q.error == Some(UpstreamUnavailable) && !q.connecting && q.uplink == [] && q.downlink == []
  {
  }

  lemma WriterFailurePoisons(p: PeerState, code: ErrorCode)
    requires p.Healthy() && p.writer.WriterSending?
    ensures var q := WriterAborting(SendFailing(p, code));
            Leads(p, [WriterError(code), WriterAbort], q)
            && q.error == Some(code) && q.writer == WriterLeaving && q.uplink == [] && q.downlink == []
  {
    OneLeads(p, WriterError(code), SendFailing(p, code));
    OneLeads(SendFailing(p, code), WriterAbort, WriterAborting(SendFailing(p, code)));
    TwoLead(p, WriterError(code), SendFailing(p, code), WriterAbort, WriterAborting(SendFailing(p, code)));
  }

  /** A reader that meets an error fails the peer too, unless the client has closed: then it only leaves. */
  lemma ReaderFailurePoisons(p: PeerState)
    requires p.Healthy() && p.reader.ReaderReceiving?
    ensures p.closeReceived ==> Leads(p, [ReaderError], p.(reader := ReaderLeaving))
    ensures !p.closeReceived ==>
              var q := ReaderAborting(ReceiveFailing(p));
              Leads(p, [ReaderError, ReaderAbort], q) && q.error == Some(UpstreamUnavailable) && q.reader == ReaderLeaving
  {
    OneLeads(p, ReaderError, ReceiveFailing(p));
    OneLeads(ReceiveFailing(p), ReaderAbort, ReaderAborting(ReceiveFailing(p)));
    TwoLead(p, ReaderError, ReceiveFailing(p), ReaderAbort, ReaderAborting(ReceiveFailing(p)));
  }

  /** Data outside an open exchange fails it; within one, it is taken exactly while there is room. */
  lemma DataExactly(p: PeerState, payload: Bytes)
    requires p.Healthy()
    ensures var d := Next(p, DataFrame(payload));
            && (p.phase != Active ==> d.error == Some(BadState))
            && (p.phase == Active && p.uplinkBytes + |payload| > 32768 ==> d == p)
            && (p.phase == Active && p.uplinkBytes + |payload| <= 32768 ==>
                  && d.Healthy() && d.phase == Active && d.log.accepted == p.log.accepted + payload
                  && d.uplink == p.uplink + [Chunk(payload)] && d.uplinkBytes == p.uplinkBytes + |payload|)
  {
  }

  /** So does a close; within an open exchange it is queued behind the data. */
  lemma CloseExactly(p: PeerState)
    requires p.Healthy()
    ensures var c := Next(p, CloseFrame);
            && (p.phase != Active ==> c.error == Some(BadState))
            && (p.phase == Active ==>
                  c.Healthy() && c.closeReceived && c.phase == Closing && c.uplink == p.uplink + [EndOfStream])
  {
  }

  /** A peer that failed takes nothing more, and keeps its first error. */
  lemma FailedPeerIsLeftAlone(p: PeerState, payload: Bytes, code: ErrorCode, mtu: int)
    requires p.error.Some? && mtu >= 5
    ensures Next(p, DataFrame(payload)) == Next(p, CloseFrame) == Next(p, Poison(code)) == p
    ensures !p.disconnected ==> Reading(p, mtu).1 == Error(p.error.value)
    ensures Reading(p, mtu).0.error == p.error && Reading(p, mtu).0.log.delivered == p.log.delivered
  {
  }

  // ---- A whole exchange ----

  /** A connected peer answers OPEN_OK to its first read, and is then open with idle workers. */
  lemma ConnectingOpens(mtu: int, first: int) returns (p: PeerState)
    requires first >= 5
    ensures Leads(Initial(mtu), [ConnectOk(true), Read(first)], p)
    ensures Inv(p) && p.Healthy() && p.phase.Active? && p.upstream && p.controls == [] && p.uplink == [] && p.uplinkBytes == 0
    ensures p.downlink == [] && p.writer == WriterWaiting && p.reader == ReaderWaiting
    ensures p.log == Log([], [], [], [], [OpenOk])
  {
    var c := Connected(Initial(mtu), true);
    OneLeads(Initial(mtu), ConnectOk(true), c);
    p := Reading(c, first).0;
    RunRead(c, first);
    TwoLead(Initial(mtu), ConnectOk(true), c, Read(first), p);
    assert Inv(Initial(mtu));
    EveryRunKeeps(Initial(mtu), [ConnectOk(true), Read(first)]);
    assert Ends(Initial(mtu), [ConnectOk(true), Read(first)], p);
  }

  /** What the client and upstream put in between. */
  lemma ExchangeFills(p: PeerState, payload: Bytes, reply: Bytes) returns (q: PeerState)
    requires Inv(p) && p.Healthy() && p.phase.Active? && p.upstream && p.controls == [] && p.uplink == [] && p.uplinkBytes == 0
    requires p.downlink == [] && p.writer == WriterWaiting && p.reader == ReaderWaiting
    requires p.log.accepted == p.log.received == [] && |payload| <= MAX_DIRECTION_BUFFER && 0 < |reply| <= 4096
    ensures Leads(p, [DataFrame(payload)] + [ReaderCheck, ReaderReceive(reply), ReaderStore], q)
    ensures Inv(q) && q.Healthy() && q.phase.Active? && q.controls == []
    ensures q.writer == WriterWaiting && q.reader == ReaderWaiting && q.downlink == reply
    ensures q.log.accepted == payload && q.log.received == reply
  {
    var d := AcceptingData(p, payload);
    OneLeads(p, DataFrame(payload), d);
    assert [] + payload == payload && [] + reply == reply;
    q := d.(downlink := d.downlink + reply, log := d.log.(received := d.log.received + reply));
    ReaderStores(d, reply);
    LeadsJoin(p, [DataFrame(payload)], d, [ReaderCheck, ReaderReceive(reply), ReaderStore], q);
    var events := [DataFrame(payload)] + [ReaderCheck, ReaderReceive(reply), ReaderStore];
    EveryRunKeeps(p, events);
    assert Ends(p, events, q);
  }

  /** From a fresh peer to CLOSED: the client opens, writes a payload, closes and goes on reading; upstream
      answers and ends. The payload reaches upstream, the answer reaches the client, and the last frame it
      reads is CLOSED. */
  lemma WholeExchange(mtu: int, first: int, payload: Bytes, reply: Bytes, mtus: seq<int>, last: int)
    requires first >= 5 && last >= 5 && Usable(mtus) && |mtus| >= |reply|
    requires |payload| <= MAX_DIRECTION_BUFFER && 0 < |reply| <= 4096
    ensures exists events :: Exchanged(Run(Initial(mtu), events), payload, reply)
  {
    var p := ConnectingOpens(mtu, first);
    var q := ExchangeFills(p, payload, reply);
    var opening := [ConnectOk(true), Read(first)];
    var filling := [DataFrame(payload)] + [ReaderCheck, ReaderReceive(reply), ReaderStore];
    LeadsJoin(Initial(mtu), opening, p, filling, q);
    ClosedExchangeEnds(q, mtus, last);
    JoinedEnd(Initial(mtu), opening + filling, q, ClosingRun(q, mtus, last), payload, reply);
  }

  /** The exchange handed `payload` to upstream, and `reply` to the client before CLOSED. */
  predicate Exchanged(p: PeerState, payload: Bytes, reply: Bytes) {
    && p.log.sent == payload && p.log.delivered == reply
    && p.log.frames != [] && p.log.frames[|p.log.frames| - 1] == Closed
  }

  lemma JoinedEnd(p: PeerState, events: seq<Event>, q: PeerState, more: seq<Event>, payload: Bytes, reply: Bytes)
    requires Leads(p, events, q) && Exchanged(Run(q, more), payload, reply)
    ensures exists all :: Exchanged(Run(p, all), payload, reply)
  {
    assert Ends(p, events, q);
    RunJoins(p, events, more);
    assert Exchanged(Run(p, events + more), payload, reply);
  }
}
