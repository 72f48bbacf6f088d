/** One BLE peer of the tunnel gateway: the record that the GATT callbacks, the
    connector, the upstream writer and the upstream reader share.

    Each event below is one critical section of the peer's condition, or one thing a
    worker does between two of them (a partial send, a receive). A run is any sequence
    of events, so every interleaving of the four actors is covered. */
module BlePeer {
  import opened BleProtocol
  import opened Outcomes

  datatype Item = Chunk(bytes: Bytes) | EndOfStream

  datatype Phase = Connecting | Active | Closing | Finished | Poisoned

  /** Where the upstream writer thread is, with its local chunk. */
  datatype Writer =
    | WriterUnstarted
    | WriterWaiting
    | WriterSending(chunk: Bytes, sent: nat)
    | WriterFailing(code: ErrorCode, chunk: Bytes, sent: nat)
    | WriterClosing
    | WriterLeaving
    | WriterExited

  /** Where the upstream reader thread is, with the room it computed or the chunk it holds. */
  datatype Reader =
    | ReaderUnstarted
    | ReaderWaiting
    | ReaderReceiving(room: nat)
    | ReaderHolding(chunk: Bytes)
    | ReaderAtEof
    | ReaderFailing
    | ReaderLeaving
    | ReaderExited

  /** What an observer has seen of one peer generation. */
  datatype Log = Log(
    accepted: Bytes,    // payload bytes of accepted DATA frames
    sent: Bytes,        // bytes handed to the upstream socket
    received: Bytes,    // bytes received from the upstream socket
    delivered: Bytes,   // payload bytes of DATA frames returned to the client
    frames: seq<ServerFrame>)

  datatype PeerState = PeerState(
    connecting: bool,   // the connector thread has not finished
    mtu: int,
    uplink: seq<Item>,
    uplinkBytes: int,
    downlink: Bytes,
    controls: seq<ServerFrame>,
    upstream: bool,
    phase: Phase,
    closeReceived: bool,
    upstreamEof: bool,
    readerDone: bool,
    writerDone: bool,
    released: bool,
    closedDelivered: bool,
    disconnected: bool,
    error: Option<ErrorCode>,
    writer: Writer,
    reader: Reader,
    log: Log)
  {
    predicate Healthy() {
      error.None? && !disconnected
    }
  }

  datatype Event =
    | ConnectOk(current: bool)
    | ConnectFailed
    | DataFrame(payload: Bytes)
    | CloseFrame
    | Read(mtu: int)
    | Poison(code: ErrorCode)
    | Terminate
    | WriterTake
    | WriterSend(count: nat)
    | WriterError(code: ErrorCode)
    | WriterAbort
    | WriterSettle
    | WriterShutdown
    | WriterExit
    | ReaderCheck
    | ReaderIdle
    | ReaderReceive(chunk: Bytes)
    | ReaderError
    | ReaderAbort
    | ReaderStore
    | ReaderExit

  function Initial(mtu: int): PeerState {
    PeerState(true, mtu, [], 0, [], [], false, Connecting, false, false, false, false, false, false, false,
              None, WriterUnstarted, ReaderUnstarted, Log([], [], [], [], []))
  }

  // ---- The critical sections ----

  function Released(p: PeerState): PeerState {
    if p.released || p.error.Some? || !p.closeReceived || !p.upstreamEof || !p.readerDone || !p.writerDone
       || p.uplink != [] || p.uplinkBytes != 0 || p.downlink != []
    then p
    else p.(upstream := false, released := true, phase := Finished)
  }

  function Poisoning(p: PeerState, code: ErrorCode): PeerState {
    if p.disconnected || p.error.Some? then p
    else p.(error := Some(code), phase := Poisoned, upstream := false,
            uplink := [], uplinkBytes := 0, downlink := [], controls := [])
  }

  function Terminating(p: PeerState): PeerState {
    p.(disconnected := true, upstream := false, uplink := [], downlink := [], controls := [])
  }

  function Connected(p: PeerState, current: bool): PeerState {
    if !p.connecting then p
    else if !current || !p.Healthy() then p.(connecting := false)
    else p.(connecting := false, upstream := true, writer := WriterWaiting, reader := ReaderWaiting,
            phase := Active, controls := p.controls + [OpenOk])
  }

  function AcceptingData(p: PeerState, payload: Bytes): PeerState {
    if p.phase != Active || p.error.Some? then Poisoning(p, BadState)
    else if p.uplinkBytes + |payload| > MAX_DIRECTION_BUFFER then p
    else p.(uplink := p.uplink + [Chunk(payload)], uplinkBytes := p.uplinkBytes + |payload|,
            log := p.log.(accepted := p.log.accepted + payload))
  }

  function AcceptingClose(p: PeerState): PeerState {
    if p.phase != Active || p.error.Some? then Poisoning(p, BadState)
    else p.(phase := Closing, closeReceived := true, uplink := p.uplink + [EndOfStream])
  }

  function Logged(p: PeerState, frame: ServerFrame): PeerState {
    p.(log := p.log.(frames := p.log.frames + [frame]))
  }

  function ChunkSize(p: PeerState, mtu: int): nat
    requires mtu >= 5
  {
    if |p.downlink| < TlsPayloadCapacity(mtu) then |p.downlink| else TlsPayloadCapacity(mtu)
  }

  function Delivering(p: PeerState, size: nat): PeerState
    requires size <= |p.downlink|
  {
    Logged(p.(downlink := p.downlink[size..], log := p.log.(delivered := p.log.delivered + p.downlink[..size])),
           ServerData(p.downlink[..size]))
  }

  /** A read with nothing to deliver: it may be the one that reports the graceful close. */
  function Polling(p: PeerState): (PeerState, ServerFrame) {
    if p.released && !p.closedDelivered
    then (Logged(p.(closedDelivered := true), Closed), Closed)
    else (Logged(p, Wait), Wait)
  }

  /** The frame a read returns, and the state it leaves. */
  function Reading(p: PeerState, mtu: int): (PeerState, ServerFrame)
    requires mtu >= 5
  {
    if p.disconnected then (Logged(p, Error(BadState)), Error(BadState))
    else
      var q := p.(mtu := mtu);
      if q.error.Some? then (Logged(q, Error(q.error.value)), Error(q.error.value))
      else if q.controls != [] then (Logged(q.(controls := q.controls[1..]), q.controls[0]), q.controls[0])
      else if q.downlink != [] then
        var size := ChunkSize(q, mtu);
        (Released(Delivering(q, size)), ServerData(q.downlink[..size]))
      else Polling(Released(q))
  }

  /** One pass of the writer's first critical section; it waits while there is nothing to do. */
  function Taking(p: PeerState): PeerState {
    if p.writer != WriterWaiting then p
    else if !p.Healthy() then p.(writer := WriterLeaving)
    else if p.uplink == [] then p
    else p.(uplink := p.uplink[1..],
            writer := if !p.upstream then WriterFailing(UpstreamUnavailable, [], 0)
                      else if p.uplink[0].EndOfStream? then WriterClosing
                      else WriterSending(p.uplink[0].bytes, 0))
  }

  function Sending(p: PeerState, count: nat): PeerState {
    if p.writer.WriterSending? && 0 < count && p.writer.sent + count <= |p.writer.chunk|
    then p.(writer := WriterSending(p.writer.chunk, p.writer.sent + count),
            log := p.log.(sent := p.log.sent + p.writer.chunk[p.writer.sent..p.writer.sent + count]))
    else p
  }

  function SendFailing(p: PeerState, code: ErrorCode): PeerState {
    if p.writer.WriterSending? then p.(writer := WriterFailing(code, p.writer.chunk, p.writer.sent)) else p
  }

  function WriterAborting(p: PeerState): PeerState {
    if p.writer.WriterFailing? then Poisoning(p, p.writer.code).(writer := WriterLeaving) else p
  }

  function Settling(p: PeerState): PeerState {
    if p.writer.WriterSending? && p.writer.sent == |p.writer.chunk|
    then p.(writer := WriterWaiting, uplinkBytes := p.uplinkBytes - |p.writer.chunk|)
    else p
  }

  function ShuttingDown(p: PeerState): PeerState {
    if p.writer == WriterClosing then p.(writer := WriterLeaving) else p
  }

  function WriterFinishing(p: PeerState): PeerState {
    if p.writer == WriterLeaving then Released(p.(writer := WriterExited, writerDone := true)) else p
  }

  /** One pass of the reader's first critical section; it waits while the buffer is full. */
  function MakingRoom(p: PeerState): PeerState {
    if p.reader != ReaderWaiting then p
    else if !p.Healthy() then p.(reader := ReaderLeaving)
    else if |p.downlink| >= MAX_DIRECTION_BUFFER then p
    else p.(reader := if p.upstream then ReaderReceiving(MAX_DIRECTION_BUFFER - |p.downlink|) else ReaderFailing)
  }

  /** select found nothing readable, or recv returned `chunk`; an empty chunk is end of stream. */
  function Idling(p: PeerState): PeerState {
    if p.reader.ReaderReceiving? then p.(reader := ReaderWaiting) else p
  }

  function Receiving(p: PeerState, chunk: Bytes): PeerState {
    if !p.reader.ReaderReceiving? || |chunk| > p.reader.room || |chunk| > 4096 then p
    else if chunk == [] then p.(reader := ReaderAtEof)
    else p.(reader := ReaderHolding(chunk), log := p.log.(received := p.log.received + chunk))
  }

  function ReceiveFailing(p: PeerState): PeerState {
    if p.reader.ReaderReceiving? then p.(reader := if p.closeReceived then ReaderLeaving else ReaderFailing) else p
  }

  function ReaderAborting(p: PeerState): PeerState {
    if p.reader == ReaderFailing then Poisoning(p, UpstreamUnavailable).(reader := ReaderLeaving) else p
  }

  function Storing(p: PeerState): PeerState {
    if p.reader == ReaderAtEof then p.(reader := ReaderLeaving, upstreamEof := true)
    else if !p.reader.ReaderHolding? then p
    else if !p.Healthy() then p.(reader := ReaderLeaving)
    else p.(reader := ReaderWaiting, downlink := p.downlink + p.reader.chunk)
  }

  function ReaderFinishing(p: PeerState): PeerState {
    if p.reader == ReaderLeaving then Released(p.(reader := ReaderExited, readerDone := true)) else p
  }

  function Next(p: PeerState, e: Event): PeerState {
    match e
    case ConnectOk(current) => Connected(p, current)
    case ConnectFailed =>
      if p.connecting then Poisoning(p, UpstreamUnavailable).(connecting := false) else p
    case DataFrame(payload) => AcceptingData(p, payload)
    case CloseFrame => AcceptingClose(p)
    case Read(mtu) => if mtu < 5 then p else Reading(p, mtu).0
    case Poison(code) => Poisoning(p, code)
    case Terminate => Terminating(p)
    case WriterTake => Taking(p)
    case WriterSend(count) => Sending(p, count)
    case WriterError(code) => SendFailing(p, code)
    case WriterAbort => WriterAborting(p)
    case WriterSettle => Settling(p)
    case WriterShutdown => ShuttingDown(p)
    case WriterExit => WriterFinishing(p)
    case ReaderCheck => MakingRoom(p)
    case ReaderIdle => Idling(p)
    case ReaderReceive(chunk) => Receiving(p, chunk)
    case ReaderError => ReceiveFailing(p)
    case ReaderAbort => ReaderAborting(p)
    case ReaderStore => Storing(p)
    case ReaderExit => ReaderFinishing(p)
  }

  function Run(p: PeerState, events: seq<Event>): PeerState
    decreases |events|
  {
    if events == [] then p else Next(Run(p, events[..|events| - 1]), events[|events| - 1])
  }

  // ---- What the gateway promises in every reachable state ----

  function Flat(items: seq<Item>): Bytes {
    if items == [] then []
    else (if items[0].Chunk? then items[0].bytes else []) + Flat(items[1..])
  }

  function InFlight(w: Writer): Bytes {
    if w.WriterSending? || w.WriterFailing? then w.chunk else []
  }

  function Unsent(w: Writer): Bytes {
    if (w.WriterSending? || w.WriterFailing?) && w.sent <= |w.chunk| then w.chunk[w.sent..] else []
  }

  function InHand(r: Reader): Bytes {
    if r.ReaderHolding? then r.chunk else []
  }

  /** Client to upstream: nothing accepted is lost, repeated or reordered, and the counter is exact. */
  predicate UplinkFidelity(p: PeerState) {
    && p.log.accepted == p.log.sent + Unsent(p.writer) + Flat(p.uplink)
    && p.uplinkBytes == |InFlight(p.writer)| + |Flat(p.uplink)|
    && p.uplinkBytes <= MAX_DIRECTION_BUFFER
  }

  /** Upstream to client: nothing received is lost, repeated or reordered. */
  predicate DownlinkFidelity(p: PeerState) {
    p.log.received == p.log.delivered + p.downlink + InHand(p.reader)
  }

  /** Both directions have drained for good. */
  predicate Drained(p: PeerState) {
    && p.log.accepted == p.log.sent
    && p.log.received == p.log.delivered
    && p.upstreamEof && p.closeReceived
    && p.writer == WriterExited && p.reader == ReaderExited
    && p.uplink == [] && p.downlink == []
    && !p.connecting && !p.phase.Connecting? && !p.phase.Active?
  }

  /** The progress of a generation's frames through WAIT* OPEN_OK (WAIT|DATA)* CLOSED,
      where any prefix may be cut off by ERROR for good. */
  datatype Progress = Opening | Opened | Ended | Failed | AfterEnd | Illegal

  function Advance(g: Progress, f: ServerFrame): Progress {
    match g
    case Opening => if f.Wait? then Opening else if f.OpenOk? then Opened else if f.Error? then Failed else Illegal
    case Opened =>
      if f.Wait? || f.ServerData? then Opened else if f.Closed? then Ended else if f.Error? then Failed else Illegal
    case Failed => if f.Error? then Failed else Illegal
    case Ended => AfterEnd
    case AfterEnd => AfterEnd
    case Illegal => Illegal
  }

  function Scan(frames: seq<ServerFrame>): Progress {
    if frames == [] then Opening else Advance(Scan(frames[..|frames| - 1]), frames[|frames| - 1])
  }

  predicate WellFormedWorkers(p: PeerState) {
    && (p.writerDone <==> p.writer == WriterExited)
    && (p.readerDone <==> p.reader == ReaderExited)
    && (p.upstreamEof ==> p.reader == ReaderLeaving || p.reader == ReaderExited)
    && (p.writer.WriterSending? || p.writer.WriterFailing? ==> p.writer.sent <= |p.writer.chunk|)
    && |p.downlink| <= MAX_DIRECTION_BUFFER
    && (p.reader.ReaderReceiving? ==> |p.downlink| + p.reader.room <= MAX_DIRECTION_BUFFER)
    && (p.reader.ReaderHolding? ==> |p.downlink| + |p.reader.chunk| <= MAX_DIRECTION_BUFFER)
    && (p.connecting ==> p.writer == WriterUnstarted && p.reader == ReaderUnstarted)
    && (p.released ==> p.closeReceived && p.upstreamEof && p.readerDone && p.writerDone)
  }

  /** How phase, queue, threads and pending OPEN_OK fit together while the peer is healthy. */
  predicate HealthyShape(p: PeerState) {
    && !p.phase.Poisoned?
    && (p.phase.Connecting? <==> p.writer == WriterUnstarted)
    && (p.phase.Connecting? <==> p.reader == ReaderUnstarted)
    && (p.phase.Connecting? ==> p.controls == [] && p.downlink == [] && p.uplink == [])
    && (!p.phase.Connecting? ==> !p.connecting)
    && (p.phase.Active? || p.phase.Connecting? ==> !p.closeReceived)
    && (p.phase.Active? || p.phase.Closing? ==> p.upstream)
    && (p.phase.Finished? <==> p.released)
    && (forall i :: 0 <= i < |p.uplink| && p.uplink[i].EndOfStream? ==> i == |p.uplink| - 1 && p.closeReceived)
    && (p.writer.WriterClosing? || p.writer.WriterLeaving? || p.writer.WriterExited?
        ==> p.closeReceived && p.uplink == [])
  }

  predicate FrameShape(p: PeerState) {
    var g := Scan(p.log.frames);
    && !g.Illegal?
    && (p.closedDelivered <==> g.Ended? || g.AfterEnd?)
    && (p.Healthy() ==> !g.Failed?)
    && (p.Healthy() && !p.closedDelivered ==>
          if p.phase.Connecting? || p.controls != []
          then g == Opening && (p.phase.Connecting? || p.controls == [OpenOk])
          else g == Opened)
    && (p.closedDelivered && p.Healthy() ==> p.controls == [])
  }

  function Payloads(frames: seq<ServerFrame>): Bytes {
    if frames == [] then []
    else Payloads(frames[..|frames| - 1]) + (if frames[|frames| - 1].ServerData? then frames[|frames| - 1].bytes else [])
  }

  predicate PoisonedShape(p: PeerState) {
    p.error.Some? ==> p.uplinkBytes <= 0 && (p.writer.WriterSending? ==> p.uplinkBytes == 0)
  }

  predicate Inv(p: PeerState) {
    && WellFormedWorkers(p)
    && PoisonedShape(p)
    && Payloads(p.log.frames) == p.log.delivered
    && FrameShape(p)
    && (p.Healthy() ==> HealthyShape(p) && UplinkFidelity(p) && DownlinkFidelity(p))
    && ((p.released && !p.disconnected) || p.closedDelivered ==> p.released && Drained(p))
  }

  // ---- Every event keeps the invariant ----

  lemma {:induction false} FlatAppend(items: seq<Item>, item: Item)
    ensures Flat(items + [item]) == Flat(items) + (if item.Chunk? then item.bytes else [])
  {
    if items == [] {
      assert items + [item] == [item];
    } else {
      FlatAppend(items[1..], item);
      assert (items + [item])[1..] == items[1..] + [item];
    }
  }

  lemma ScanAppend(frames: seq<ServerFrame>, f: ServerFrame)
    ensures Scan(frames + [f]) == Advance(Scan(frames), f)
    ensures Payloads(frames + [f]) == Payloads(frames) + (if f.ServerData? then f.bytes else [])
  {
    assert (frames + [f])[..|frames|] == frames;
  }

  lemma PoisonKeeps(p: PeerState, code: ErrorCode)
    requires Inv(p)
    ensures Inv(Poisoning(p, code))
  {
  }

  lemma ReleaseKeeps(p: PeerState)
    requires Inv(p)
    ensures Inv(Released(p))
  {
  }

  lemma ConnectKeeps(p: PeerState, current: bool)
    requires Inv(p)
    ensures Inv(Connected(p, current))
  {
  }

  lemma DataKeeps(p: PeerState, payload: Bytes)
    requires Inv(p)
    ensures Inv(AcceptingData(p, payload))
  {
    FlatAppend(p.uplink, Chunk(payload));
    PoisonKeeps(p, BadState);
  }

  lemma CloseKeeps(p: PeerState)
    requires Inv(p)
    ensures Inv(AcceptingClose(p))
  {
    FlatAppend(p.uplink, EndOfStream);
    PoisonKeeps(p, BadState);
  }

  lemma DeliverKeeps(p: PeerState, size: nat)
    requires Inv(p) && p.Healthy() && p.controls == [] && 0 < size <= |p.downlink|
    ensures Inv(Delivering(p, size))
  {
    var q := Delivering(p, size);
    assert FrameShape(q) by {
      ScanAppend(p.log.frames, ServerData(p.downlink[..size]));
    }
    assert DownlinkFidelity(q) by {
      assert p.downlink == p.downlink[..size] + p.downlink[size..];
    }
    assert UplinkFidelity(q);
    assert HealthyShape(q);
    assert WellFormedWorkers(q);
  }

  lemma PollKeeps(p: PeerState)
    requires Inv(p) && p.Healthy() && p.controls == []
    ensures Inv(Polling(p).0)
  {
    var q := Polling(p).0;
    ScanAppend(p.log.frames, Polling(p).1);
    assert FrameShape(q);
    assert UplinkFidelity(q);
    assert HealthyShape(q);
  }

  lemma MtuKeeps(p: PeerState, mtu: int)
    requires Inv(p)
    ensures Inv(p.(mtu := mtu))
  {
  }

  lemma ErrorReadKeeps(p: PeerState, code: ErrorCode)
    requires Inv(p) && !p.Healthy()
    ensures Inv(Logged(p, Error(code)))
  {
    ScanAppend(p.log.frames, Error(code));
  }

  lemma ControlReadKeeps(p: PeerState)
    requires Inv(p) && p.Healthy() && p.controls != []
    ensures Inv(Logged(p.(controls := p.controls[1..]), p.controls[0]))
  {
    ScanAppend(p.log.frames, p.controls[0]);
  }

  lemma ReadKeeps(p: PeerState, mtu: int)
    requires Inv(p) && mtu >= 5
    ensures Inv(Reading(p, mtu).0)
  {
    var q := p.(mtu := mtu);
    MtuKeeps(p, mtu);
    if p.disconnected {
      ErrorReadKeeps(p, BadState);
    } else if q.error.Some? {
      ErrorReadKeeps(q, q.error.value);
    } else if q.controls != [] {
      ControlReadKeeps(q);
    } else if q.downlink != [] {
      DeliverKeeps(q, ChunkSize(q, mtu));
      ReleaseKeeps(Delivering(q, ChunkSize(q, mtu)));
    } else {
      ReleaseKeeps(q);
      PollKeeps(Released(q));
    }
  }

  /** A step of a worker on a peer that is not released leaves the frames as they were. */
  predicate LeavesFrames(p: PeerState, q: PeerState) {
    && q.log.frames == p.log.frames && q.log.delivered == p.log.delivered
    && q.closedDelivered == p.closedDelivered && q.controls == p.controls && q.phase == p.phase
    && q.error == p.error && q.disconnected == p.disconnected
    && !p.released && !q.released
  }

  lemma WorkerStepKeeps(p: PeerState, q: PeerState)
    requires Inv(p) && LeavesFrames(p, q)
    requires WellFormedWorkers(q) && PoisonedShape(q)
    requires p.Healthy() ==> HealthyShape(q) && UplinkFidelity(q) && DownlinkFidelity(q)
    ensures Inv(q)
  {
  }

  lemma FlatTail(items: seq<Item>)
    requires items != []
    ensures Flat(items) == (if items[0].Chunk? then items[0].bytes else []) + Flat(items[1..])
  {
  }

  lemma TakeUplink(p: PeerState)
    requires UplinkFidelity(p) && p.writer == WriterWaiting && p.Healthy() && p.uplink != [] && p.upstream
    ensures UplinkFidelity(Taking(p))
  {
    var first := if p.uplink[0].Chunk? then p.uplink[0].bytes else [];
    var rest := Flat(p.uplink[1..]);
    FlatTail(p.uplink);
    var w := Taking(p).writer;
    assert InFlight(w) == first && Unsent(w) == first;
    assert p.log.sent + Unsent(p.writer) + (first + rest) == p.log.sent + first + rest;
  }

  lemma TakeShape(p: PeerState)
    requires WellFormedWorkers(p) && HealthyShape(p) && p.writer == WriterWaiting && p.Healthy() && p.uplink != []
    ensures WellFormedWorkers(Taking(p)) && HealthyShape(Taking(p))
  {
    assert forall i :: 0 <= i < |p.uplink[1..]| ==> p.uplink[1..][i] == p.uplink[i + 1];
  }

  lemma TakeKeeps(p: PeerState)
    requires Inv(p)
    ensures Inv(Taking(p))
  {
    if p.writer == WriterWaiting {
      if p.Healthy() && p.uplink != [] {
        assert p.upstream;
        TakeUplink(p);
        TakeShape(p);
      }
      WorkerStepKeeps(p, Taking(p));
    }
  }

  /** Bytes that are sent move from the chunk in flight to the wire. */
  lemma SendMoves(sent: Bytes, chunk: Bytes, from: nat, count: nat, rest: Bytes)
    requires from + count <= |chunk|
    ensures sent + chunk[from..] + rest == (sent + chunk[from..from + count]) + chunk[from + count..] + rest
  {
    var now, later := chunk[from..from + count], chunk[from + count..];
    assert chunk[from..] == now + later;
    assert sent + (now + later) == (sent + now) + later;
  }

  lemma SendUplink(p: PeerState, count: nat)
    requires UplinkFidelity(p) && p.writer.WriterSending? && 0 < count && p.writer.sent + count <= |p.writer.chunk|
    ensures UplinkFidelity(Sending(p, count))
  {
    var q, chunk, from := Sending(p, count), p.writer.chunk, p.writer.sent;
    SendMoves(p.log.sent, chunk, from, count, Flat(p.uplink));
    assert Unsent(p.writer) == chunk[from..] && Unsent(q.writer) == chunk[from + count..];
    assert q.log.sent == p.log.sent + chunk[from..from + count] && q.uplink == p.uplink;
  }

  lemma SendKeeps(p: PeerState, count: nat)
    requires Inv(p)
    ensures Inv(Sending(p, count))
  {
    if p.writer.WriterSending? && 0 < count && p.writer.sent + count <= |p.writer.chunk| {
      var q := Sending(p, count);
      if p.Healthy() {
        SendUplink(p, count);
        assert HealthyShape(q) && DownlinkFidelity(q);
      }
      WorkerStepKeeps(p, q);
    }
  }

  lemma SettleKeeps(p: PeerState)
    requires Inv(p)
    ensures Inv(Settling(p))
  {
    assert FrameShape(Settling(p));
  }

  lemma SendFailKeeps(p: PeerState, code: ErrorCode)
    requires Inv(p)
    ensures Inv(SendFailing(p, code))
  {
    assert FrameShape(SendFailing(p, code));
  }

  lemma ShutdownKeeps(p: PeerState)
    requires Inv(p)
    ensures Inv(ShuttingDown(p))
  {
    assert FrameShape(ShuttingDown(p));
  }

  lemma WriterAbortKeeps(p: PeerState)
    requires Inv(p)
    ensures Inv(WriterAborting(p))
  {
  }

  lemma WriterExitKeeps(p: PeerState)
    requires Inv(p)
    ensures Inv(WriterFinishing(p))
  {
    if p.writer == WriterLeaving {
      ReleaseKeeps(p.(writer := WriterExited, writerDone := true));
    }
  }

  lemma RoomKeeps(p: PeerState)
    requires Inv(p)
    ensures Inv(MakingRoom(p))
  {
  }

  lemma IdleKeeps(p: PeerState)
    requires Inv(p)
    ensures Inv(Idling(p)) && Inv(ReceiveFailing(p))
  {
  }

  lemma ReceiveDownlink(p: PeerState, chunk: Bytes)
    requires WellFormedWorkers(p) && (p.Healthy() ==> DownlinkFidelity(p)) && p.reader.ReaderReceiving?
    ensures WellFormedWorkers(Receiving(p, chunk))
    ensures p.Healthy() ==> DownlinkFidelity(Receiving(p, chunk))
  {
    assert p.log.delivered + p.downlink + [] + chunk == p.log.delivered + p.downlink + chunk;
  }

  lemma ReceiveKeeps(p: PeerState, chunk: Bytes)
    requires Inv(p)
    ensures Inv(Receiving(p, chunk))
  {
    if p.reader.ReaderReceiving? {
      var q := Receiving(p, chunk);
      ReceiveDownlink(p, chunk);
      assert p.Healthy() ==> HealthyShape(q) && UplinkFidelity(q);
      WorkerStepKeeps(p, q);
    }
  }

  lemma StoreKeeps(p: PeerState)
    requires Inv(p)
    ensures Inv(Storing(p))
  {
    if p.reader == ReaderAtEof || p.reader.ReaderHolding? {
      var q := Storing(p);
      assert p.Healthy() ==> HealthyShape(q) && UplinkFidelity(q) && DownlinkFidelity(q);
      WorkerStepKeeps(p, q);
    }
  }

  lemma ReaderAbortKeeps(p: PeerState)
    requires Inv(p)
    ensures Inv(ReaderAborting(p))
  {
  }

  lemma ReaderExitKeeps(p: PeerState)
    requires Inv(p)
    ensures Inv(ReaderFinishing(p))
  {
    if p.reader == ReaderLeaving {
      ReleaseKeeps(p.(reader := ReaderExited, readerDone := true));
    }
  }

  predicate WriterEvent(e: Event) {
    e.WriterTake? || e.WriterSend? || e.WriterError? || e.WriterAbort? || e.WriterSettle? || e.WriterShutdown? || e.WriterExit?
  }

  lemma WriterEventKeeps(p: PeerState, e: Event)
    requires Inv(p) && WriterEvent(e)
    ensures Inv(Next(p, e))
  {
    match e
    case WriterTake => TakeKeeps(p);
    case WriterSend(count) => SendKeeps(p, count);
    case WriterError(code) => SendFailKeeps(p, code);
    case WriterAbort => WriterAbortKeeps(p);
    case WriterSettle => SettleKeeps(p);
    case WriterShutdown => ShutdownKeeps(p);
    case WriterExit => WriterExitKeeps(p);
  }

  predicate ReaderEvent(e: Event) {
    e.ReaderCheck? || e.ReaderIdle? || e.ReaderReceive? || e.ReaderError? || e.ReaderAbort? || e.ReaderStore? || e.ReaderExit?
  }

  lemma ReaderEventKeeps(p: PeerState, e: Event)
    requires Inv(p) && ReaderEvent(e)
    ensures Inv(Next(p, e))
  {
    match e
    case ReaderCheck => RoomKeeps(p);
    case ReaderIdle => IdleKeeps(p);
    case ReaderReceive(chunk) => ReceiveKeeps(p, chunk);
    case ReaderError => IdleKeeps(p);
    case ReaderAbort => ReaderAbortKeeps(p);
    case ReaderStore => StoreKeeps(p);
    case ReaderExit => ReaderExitKeeps(p);
  }

  lemma NextKeeps(p: PeerState, e: Event)
    requires Inv(p)
    ensures Inv(Next(p, e))
  {
    if WriterEvent(e) {
      WriterEventKeeps(p, e);
    } else if ReaderEvent(e) {
      ReaderEventKeeps(p, e);
    } else {
      match e
      case ConnectOk(current) => ConnectKeeps(p, current);
      case ConnectFailed => PoisonKeeps(p, UpstreamUnavailable);
      case DataFrame(payload) => DataKeeps(p, payload);
      case CloseFrame => CloseKeeps(p);
      case Read(mtu) => if mtu >= 5 { ReadKeeps(p, mtu); }
      case Poison(code) => PoisonKeeps(p, code);
      case Terminate =>
    }
  }

  lemma {:induction false} RunKeeps(mtu: int, events: seq<Event>)
    ensures Inv(Run(Initial(mtu), events))
    decreases |events|
  {
    if events != [] {
      RunKeeps(mtu, events[..|events| - 1]);
      NextKeeps(Run(Initial(mtu), events[..|events| - 1]), events[|events| - 1]);
    }
  }

  // ---- Headline results over every run ----

  /** Relay fidelity under every interleaving: while a generation is neither poisoned nor
      disconnected both streams are exact, and both buffers stay within 32 KiB. */
  lemma RelayFidelity(mtu: int, events: seq<Event>)
    ensures var p := Run(Initial(mtu), events);
            && |p.downlink| <= MAX_DIRECTION_BUFFER
            && (p.Healthy() ==> UplinkFidelity(p) && DownlinkFidelity(p))
  {
    RunKeeps(mtu, events);
  }

  /** Graceful close is complete, and stays so whatever happens to the peer afterwards. */
  lemma GracefulClose(mtu: int, events: seq<Event>)
    ensures var p := Run(Initial(mtu), events);
            Closed in p.log.frames ==>
              && p.log.sent == p.log.accepted
              && p.upstreamEof
              && p.log.delivered == p.log.received
  {
    RunKeeps(mtu, events);
    ClosedIsScanned(Run(Initial(mtu), events).log.frames);
  }

  lemma {:induction false} ClosedIsScanned(frames: seq<ServerFrame>)
    ensures Closed in frames ==> Scan(frames).Ended? || Scan(frames).AfterEnd? || Scan(frames).Illegal?
  {
    if frames != [] {
      ClosedIsScanned(frames[..|frames| - 1]);
      assert frames == frames[..|frames| - 1] + [frames[|frames| - 1]];
    }
  }

  predicate AllWait(frames: seq<ServerFrame>) {
    forall i :: 0 <= i < |frames| ==> frames[i].Wait?
  }

  predicate AllWaitOrData(frames: seq<ServerFrame>) {
    forall i :: 0 <= i < |frames| ==> frames[i].Wait? || frames[i].ServerData?
  }

  predicate AllError(frames: seq<ServerFrame>) {
    forall i :: 0 <= i < |frames| ==> frames[i].Error?
  }

  /** A prefix of WAIT* OPEN_OK (WAIT|DATA)* CLOSED. */
  predicate Orderly(frames: seq<ServerFrame>) {
    || AllWait(frames)
    || (exists o :: 0 <= o < |frames| && AllWait(frames[..o]) && frames[o].OpenOk?
                    && (AllWaitOrData(frames[o + 1..])
                        || (o + 1 < |frames| && AllWaitOrData(frames[o + 1..|frames| - 1])
                            && frames[|frames| - 1].Closed?)))
  }

  /** Every generation's frames are a prefix of WAIT* OPEN_OK (WAIT|DATA)* CLOSED, or such a
      prefix followed only by ERROR. (Nothing is read after CLOSED: the gateway drops the peer.) */
  lemma FrameLanguage(mtu: int, events: seq<Event>)
    ensures var p := Run(Initial(mtu), events);
            !Scan(p.log.frames).AfterEnd? ==>
              exists e :: 0 <= e <= |p.log.frames| && Orderly(p.log.frames[..e]) && AllError(p.log.frames[e..])
  {
    RunKeeps(mtu, events);
    var frames := Run(Initial(mtu), events).log.frames;
    if !Scan(frames).AfterEnd? {
      var e := ErrorsFrom(frames);
      assert Orderly(frames[..e]) && AllError(frames[e..]);
    }
  }

  lemma {:induction false} ErrorsFrom(frames: seq<ServerFrame>) returns (e: nat)
    requires !Scan(frames).AfterEnd? && !Scan(frames).Illegal?
    ensures e <= |frames| && Orderly(frames[..e]) && AllError(frames[e..])
    ensures !Scan(frames).Failed? ==> e == |frames|
  {
    var n := |frames|;
    if Scan(frames).Failed? {
      e := ErrorsFrom(frames[..n - 1]);
      assert frames[..n - 1][..e] == frames[..e];
      assert forall i :: e <= i < n - 1 ==> frames[i] == frames[..n - 1][e..][i - e];
    } else {
      e := n;
      assert frames[..n] == frames;
      ScanIsOrderly(frames);
    }
  }

  predicate OpenedAt(frames: seq<ServerFrame>, o: nat) {
    o < |frames| && AllWait(frames[..o]) && frames[o].OpenOk? && AllWaitOrData(frames[o + 1..])
  }

  lemma OpenedGrows(frames: seq<ServerFrame>, o: nat, last: ServerFrame)
    requires OpenedAt(frames, o)
    ensures last.Wait? || last.ServerData? ==> OpenedAt(frames + [last], o)
    ensures last.Closed? ==> Orderly(frames + [last])
  {
    var more := frames + [last];
    assert more[..o] == frames[..o] && more[o] == frames[o];
    assert more[o + 1..] == frames[o + 1..] + [last];
    assert more[o + 1..|more| - 1] == frames[o + 1..];
  }

  lemma {:induction false} ScanIsOrderly(frames: seq<ServerFrame>)
    requires Scan(frames).Opening? || Scan(frames).Opened? || Scan(frames).Ended?
    ensures Scan(frames).Opening? ==> AllWait(frames)
    ensures Scan(frames).Opened? ==> exists o :: OpenedAt(frames, o)
    ensures Orderly(frames)
  {
    if frames != [] {
      var n := |frames| - 1;
      var init, last := frames[..n], frames[n];
      ScanIsOrderly(init);
      assert frames == init + [last];
      if Scan(init).Opening? {
        assert last.OpenOk? ==> OpenedAt(frames, n);
      } else {
        var o :| OpenedAt(init, o);
        OpenedGrows(init, o, last);
      }
    }
  }

  /** What reached the client is exactly what its DATA frames carried. */
  lemma DeliveredIsRead(mtu: int, events: seq<Event>)
    ensures var p := Run(Initial(mtu), events); Payloads(p.log.frames) == p.log.delivered
  {
    RunKeeps(mtu, events);
  }

  lemma RunPrefix(p: PeerState, events: seq<Event>, n: nat, e: Event)
    requires n < |events| && events[n] == e
    ensures Run(p, events[..n + 1]) == Next(Run(p, events[..n]), e)
  {
    assert events[..n + 1][..n] == events[..n];
  }

  const POISONED_SEND: seq<Event> := [ConnectOk(true), DataFrame([7]), WriterTake, WriterSend(1), Poison(Timeout), WriterSettle]

  /** The peer after that many of the events. */
  function PoisonedAfter(n: nat): PeerState
    requires n <= 6
  {
    Run(Initial(23), POISONED_SEND[..n])
  }

  lemma AfterAccept()
    ensures var p := PoisonedAfter(2);
            && p.uplink == [Chunk([7])] && p.uplinkBytes == 1 && p.writer == WriterWaiting && p.Healthy() && p.upstream
  {
    RunPrefix(Initial(23), POISONED_SEND, 0, ConnectOk(true));
    assert PoisonedAfter(1) == Connected(Initial(23), true);
    RunPrefix(Initial(23), POISONED_SEND, 1, DataFrame([7]));
    assert PoisonedAfter(2) == AcceptingData(PoisonedAfter(1), [7]);
  }

  lemma AfterTake()
    ensures var p := PoisonedAfter(3);
            p.writer == WriterSending([7], 0) && p.uplinkBytes == 1 && p.Healthy()
  {
    AfterAccept();
    RunPrefix(Initial(23), POISONED_SEND, 2, WriterTake);
    assert PoisonedAfter(3) == Taking(PoisonedAfter(2));
  }

  lemma AfterSend()
    ensures var p := PoisonedAfter(4);
            p.writer == WriterSending([7], 1) && p.uplinkBytes == 1 && p.Healthy()
  {
    AfterTake();
    RunPrefix(Initial(23), POISONED_SEND, 3, WriterSend(1));
    assert PoisonedAfter(4) == Sending(PoisonedAfter(3), 1);
  }

  lemma AfterPoison()
    ensures var p := PoisonedAfter(5);
            p.writer == WriterSending([7], 1) && p.uplinkBytes == 0
  {
    AfterSend();
    RunPrefix(Initial(23), POISONED_SEND, 4, Poison(Timeout));
    assert PoisonedAfter(5) == Poisoning(PoisonedAfter(4), Timeout);
  }

  /** The byte counter is exact only for a healthy peer: poisoning zeroes it while the writer
      still subtracts the chunk it was sending. */
  lemma PoisonedCounterGoesNegative()
    ensures Run(Initial(23), POISONED_SEND).uplinkBytes == -1
  {
    AfterPoison();
    RunPrefix(Initial(23), POISONED_SEND, 5, WriterSettle);
    assert PoisonedAfter(6) == Settling(PoisonedAfter(5));
    assert POISONED_SEND[..6] == POISONED_SEND;
  }

  /** After poisoning, the counter is zero until that one subtraction and never positive. */
  lemma PoisonedCounter(mtu: int, events: seq<Event>)
    ensures PoisonedShape(Run(Initial(mtu), events))
  {
    RunKeeps(mtu, events);
  }
}
