/** The gateway's peer objects and its two device tables. A worker thread's local
    variables are fields of its peer here, so that the thread can be stopped between
    any two critical sections. */
module BleGateway {
  import opened BleProtocol
  import opened Outcomes
  import opened BlePeer

  const MAX_CLIENTS: nat := 4

  datatype Acceptance = Accepted | Backpressure | PoisonedPeer

  class Peer {
    const generation: nat
    var connecting: bool
    var mtu: int
    var uplink: seq<Item>
    var uplinkBytes: int
    var downlink: Bytes
    var controls: seq<ServerFrame>
    var upstream: bool
    var phase: Phase
    var closeReceived: bool
    var upstreamEof: bool
    var readerDone: bool
    var writerDone: bool
    var released: bool
    var closedDelivered: bool
    var disconnected: bool
    var error: Option<ErrorCode>
    var writer: Writer
    var reader: Reader
    ghost var log: Log

    ghost function View(): PeerState
      reads this
    {
      PeerState(connecting, mtu, uplink, uplinkBytes, downlink, controls, upstream, phase, closeReceived,
                upstreamEof, readerDone, writerDone, released, closedDelivered, disconnected, error,
                writer, reader, log)
    }

    constructor (generation: nat, mtu: int)
      ensures View() == Initial(mtu) && this.generation == generation
      ensures Ok()
    {
      this.generation := generation;
      this.mtu := mtu;
      connecting, uplink, uplinkBytes, downlink, controls := true, [], 0, [], [];
      upstream, phase, closeReceived, upstreamEof := false, Connecting, false, false;
      readerDone, writerDone, released, closedDelivered, disconnected := false, false, false, false, false;
      error, writer, reader, log := None, WriterUnstarted, ReaderUnstarted, Log([], [], [], [], []);
      RunKeeps(mtu, []);
    }

    /** The peer satisfies the reachable-state invariant and has not reported CLOSED. The invariant is
        stated through a bound variable so that it is unfolded only where a proof names it. */
    ghost predicate Ok()
      reads this
    {
      !closedDelivered && forall p :: p == View() ==> Inv(p)
    }

    predicate IsHealthy()
      reads this
    {
      error.None? && !disconnected
    }

    method ReleaseIfReady()
      modifies this
      ensures closedDelivered == old(closedDelivered)
      ensures View() == Released(old(View()))
    {
      if released || error.Some? || !closeReceived || !upstreamEof || !readerDone || !writerDone
         || uplink != [] || uplinkBytes != 0 || downlink != [] {
        return;
      }
      upstream := false;
      released := true;
      phase := Finished;
    }

    /** Let go of the upstream socket and of everything queued for the client. */
    method Drop()
      modifies this
      ensures View() == old(View()).(upstream := false, uplink := [], downlink := [], controls := [])
    {
      upstream := false;
      uplink := [];
      downlink := [];
      controls := [];
    }

    method Poison(code: ErrorCode)
      modifies this
      ensures closedDelivered == old(closedDelivered)
      ensures View() == Poisoning(old(View()), code)
    {
      if disconnected || error.Some? {
        return;
      }
      Drop();
      error := Some(code);
      phase := Poisoned;
      uplinkBytes := 0;
    }

    twostate predicate Unchanged()
      reads this
    {
      View() == old(View())
    }

    twostate predicate Terminated()
      reads this
    {
      View() == Terminating(old(View()))
    }

    method Terminate()
      modifies this
      ensures closedDelivered == old(closedDelivered)
      ensures View() == Terminating(old(View()))
    {
      Drop();
      disconnected := true;
    }

    /** The 60 s exchange timer: it poisons only an exchange that is still running. */
    method ExchangeTimedOut()
      modifies this
      ensures View() == if old(View()).Healthy() && !old(released) then Poisoning(old(View()), Timeout) else old(View())
    {
      var active := !disconnected && !released && error.None?;
      if active {
        Poison(Timeout);
      }
    }

    // ---- The connector thread ----

    method FinishConnect(current: bool)
      modifies this
      ensures closedDelivered == old(closedDelivered)
      ensures View() == Connected(old(View()), current)
    {
      if connecting {
        if !current || !IsHealthy() {
          connecting := false;
        } else {
          Attach();
        }
      }
    }

    method Attach()
      requires connecting && IsHealthy()
      modifies this
      ensures closedDelivered == old(closedDelivered)
      ensures View() == Connected(old(View()), true)
    {
      StartWorkers();
      connecting := false;
      upstream := true;
      phase := Active;
      controls := controls + [OpenOk];
    }

    method StartWorkers()
      modifies this
      ensures View() == old(View()).(writer := WriterWaiting, reader := ReaderWaiting)
    {
      writer := WriterWaiting;
      reader := ReaderWaiting;
    }

    method FailConnect()
      modifies this
      ensures closedDelivered == old(closedDelivered)
      ensures View() == Next(old(View()), ConnectFailed)
    {
      if connecting {
        Poison(UpstreamUnavailable);
        connecting := false;
      }
    }

    // ---- The GATT callbacks ----

    method WriteData(payload: Bytes) returns (r: Acceptance)
      modifies this
      ensures closedDelivered == old(closedDelivered)
      ensures View() == AcceptingData(old(View()), payload)
      ensures r == if old(phase) != Active || old(error).Some? then PoisonedPeer
                   else if old(uplinkBytes) + |payload| > MAX_DIRECTION_BUFFER then Backpressure else Accepted
      ensures r == Accepted ==> log.accepted == old(log.accepted) + payload
      ensures r == Backpressure ==> View() == old(View())
      ensures old(Ok()) ==> Ok()
    {
      if Inv(View()) {
        DataKeeps(View(), payload);
      }
      if phase != Active || error.Some? {
        Poison(BadState);
        return PoisonedPeer;
      }
      if uplinkBytes + |payload| > MAX_DIRECTION_BUFFER {
        return Backpressure;
      }
      uplink := uplink + [Chunk(payload)];
      uplinkBytes := uplinkBytes + |payload|;
      log := log.(accepted := log.accepted + payload);
      return Accepted;
    }

    method RequestClose()
      modifies this
      ensures closedDelivered == old(closedDelivered)
      ensures View() == AcceptingClose(old(View()))
      ensures old(Ok()) ==> Ok()
    {
      if Inv(View()) {
        CloseKeeps(View());
      }
      if phase != Active || error.Some? {
        Poison(BadState);
      } else {
        phase := Closing;
        closeReceived := true;
        uplink := uplink + [EndOfStream];
      }
    }

    method ReadFrame(mtu: int) returns (frame: ServerFrame)
      requires mtu >= 5
      modifies this
      ensures View() == Reading(old(View()), mtu).0
      ensures frame == Reading(old(View()), mtu).1
    {
      if disconnected {
        frame := Error(BadState);
      } else {
        this.mtu := mtu;
        if error.Some? {
          frame := Error(error.value);
        } else if controls != [] {
          frame := controls[0];
          controls := controls[1..];
        } else if downlink != [] {
          var size := if |downlink| < TlsPayloadCapacity(mtu) then |downlink| else TlsPayloadCapacity(mtu);
          frame := Deliver(size);
          return;
        } else {
          frame := Poll();
          return;
        }
      }
      log := log.(frames := log.frames + [frame]);
    }

    /** A read of a registered peer: if it answers CLOSED, both directions have drained. */
    method Answer(mtu: int) returns (frame: ServerFrame)
      requires Ok() && mtu >= 5
      modifies this
      ensures (View(), frame) == Reading(old(View()), mtu)
      ensures if frame == Closed then Drained(View()) else Ok()
    {
      ReadReportsClosed(View(), mtu);
      frame := ReadFrame(mtu);
    }

    method Deliver(size: nat) returns (frame: ServerFrame)
      requires size <= |downlink|
      modifies this
      ensures View() == Released(Delivering(old(View()), size))
      ensures frame == ServerData(old(downlink)[..size])
    {
      frame := ServerData(downlink[..size]);
      log := log.(delivered := log.delivered + downlink[..size], frames := log.frames + [frame]);
      downlink := downlink[size..];
      ReleaseIfReady();
    }

    method Poll() returns (frame: ServerFrame)
      modifies this
      ensures (View(), frame) == Polling(Released(old(View())))
    {
      ReleaseIfReady();
      if released && !closedDelivered {
        closedDelivered := true;
        frame := Closed;
      } else {
        frame := Wait;
      }
      log := log.(frames := log.frames + [frame]);
    }

    // ---- The upstream writer thread ----

    method TakeUplink()
      modifies this
      ensures closedDelivered == old(closedDelivered)
      ensures View() == Taking(old(View()))
    {
      if writer != WriterWaiting {
        return;
      }
      if disconnected || error.Some? {
        writer := WriterLeaving;
      } else if uplink != [] {
        var payload := uplink[0];
        uplink := uplink[1..];
        if !upstream {
          writer := WriterFailing(UpstreamUnavailable, [], 0);
        } else if payload.EndOfStream? {
          writer := WriterClosing;
        } else {
          writer := WriterSending(payload.bytes, 0);
        }
      }
    }

    method SendSome(count: nat)
      modifies this
      ensures closedDelivered == old(closedDelivered)
      ensures View() == Sending(old(View()), count)
    {
      if writer.WriterSending? && 0 < count && writer.sent + count <= |writer.chunk| {
        log := log.(sent := log.sent + writer.chunk[writer.sent..writer.sent + count]);
        writer := WriterSending(writer.chunk, writer.sent + count);
      }
    }

    method SettleChunk()
      modifies this
      ensures closedDelivered == old(closedDelivered)
      ensures View() == Settling(old(View()))
    {
      if writer.WriterSending? && writer.sent == |writer.chunk| {
        uplinkBytes := uplinkBytes - |writer.chunk|;
        writer := WriterWaiting;
      }
    }

    method FailSend(code: ErrorCode)
      modifies this
      ensures closedDelivered == old(closedDelivered)
      ensures View() == SendFailing(old(View()), code)
    {
      if writer.WriterSending? {
        writer := WriterFailing(code, writer.chunk, writer.sent);
      }
    }

    method AbortWriter()
      modifies this
      ensures closedDelivered == old(closedDelivered)
      ensures View() == WriterAborting(old(View()))
    {
      if writer.WriterFailing? {
        Poison(writer.code);
        writer := WriterLeaving;
      }
    }

    method ShutdownUpstream()
      modifies this
      ensures closedDelivered == old(closedDelivered)
      ensures View() == ShuttingDown(old(View()))
    {
      if writer == WriterClosing {
        writer := WriterLeaving;
      }
    }

    method FinishWriter()
      modifies this
      ensures closedDelivered == old(closedDelivered)
      ensures View() == WriterFinishing(old(View()))
    {
      if writer == WriterLeaving {
        writer := WriterExited;
        writerDone := true;
        ReleaseIfReady();
      }
    }

    // ---- The upstream reader thread ----

    method MakeRoom()
      modifies this
      ensures closedDelivered == old(closedDelivered)
      ensures View() == MakingRoom(old(View()))
    {
      if reader != ReaderWaiting {
        return;
      }
      if disconnected || error.Some? {
        reader := ReaderLeaving;
      } else if |downlink| < MAX_DIRECTION_BUFFER {
        reader := if upstream then ReaderReceiving(MAX_DIRECTION_BUFFER - |downlink|) else ReaderFailing;
      }
    }

    method FindNothing()
      modifies this
      ensures closedDelivered == old(closedDelivered)
      ensures View() == Idling(old(View()))
    {
      if reader.ReaderReceiving? {
        reader := ReaderWaiting;
      }
    }

    method Receive(chunk: Bytes)
      modifies this
      ensures closedDelivered == old(closedDelivered)
      ensures View() == Receiving(old(View()), chunk)
    {
      if reader.ReaderReceiving? && |chunk| <= reader.room && |chunk| <= 4096 {
        if chunk == [] {
          reader := ReaderAtEof;
        } else {
          reader := ReaderHolding(chunk);
          log := log.(received := log.received + chunk);
        }
      }
    }

    method FailReceive()
      modifies this
      ensures closedDelivered == old(closedDelivered)
      ensures View() == ReceiveFailing(old(View()))
    {
      if reader.ReaderReceiving? {
        reader := if closeReceived then ReaderLeaving else ReaderFailing;
      }
    }

    method AbortReader()
      modifies this
      ensures closedDelivered == old(closedDelivered)
      ensures View() == ReaderAborting(old(View()))
    {
      if reader == ReaderFailing {
        Poison(UpstreamUnavailable);
        reader := ReaderLeaving;
      }
    }

    method StoreChunk()
      modifies this
      ensures closedDelivered == old(closedDelivered)
      ensures View() == Storing(old(View()))
    {
      if reader == ReaderAtEof {
        upstreamEof := true;
        reader := ReaderLeaving;
      } else if reader.ReaderHolding? {
        if disconnected || error.Some? {
          reader := ReaderLeaving;
        } else {
          downlink := downlink + reader.chunk;
          reader := ReaderWaiting;
        }
      }
    }

    method FinishReader()
      modifies this
      ensures closedDelivered == old(closedDelivered)
      ensures View() == ReaderFinishing(old(View()))
    {
      if reader == ReaderLeaving {
        reader := ReaderExited;
        readerDone := true;
        ReleaseIfReady();
      }
    }

    /** One event, carried out by the actor it belongs to. */
    method Step(e: Event)
      modifies this
      ensures View() == Next(old(View()), e)
      ensures old(Ok()) && !e.Read? ==> Ok()
    {
      if Inv(View()) {
        NextKeeps(View(), e);
      }
      match e
      case ConnectOk(current) => FinishConnect(current);
      case ConnectFailed => FailConnect();
      case DataFrame(payload) => var _ := WriteData(payload);
      case CloseFrame => RequestClose();
      case Read(mtu) => if mtu >= 5 { var _ := ReadFrame(mtu); }
      case Poison(code) => Poison(code);
      case Terminate => Terminate();
      case _ => WorkerStep(e);
    }

    /** An event of the upstream writer or reader thread. */
    method WorkerStep(e: Event)
      requires FromWorker(e)
      modifies this
      ensures View() == Next(old(View()), e)
      ensures closedDelivered == old(closedDelivered)
    {
      match e
      case WriterTake => TakeUplink();
      case WriterSend(count) => SendSome(count);
      case WriterError(code) => FailSend(code);
      case WriterAbort => AbortWriter();
      case WriterSettle => SettleChunk();
      case WriterShutdown => ShutdownUpstream();
      case WriterExit => FinishWriter();
      case ReaderCheck => MakeRoom();
      case ReaderIdle => FindNothing();
      case ReaderReceive(chunk) => Receive(chunk);
      case ReaderError => FailReceive();
      case ReaderAbort => AbortReader();
      case ReaderStore => StoreChunk();
      case ReaderExit => FinishReader();
    }
  }

  predicate FromWorker(e: Event) {
    && !e.ConnectOk? && !e.ConnectFailed? && !e.DataFrame? && !e.CloseFrame?
    && !e.Read? && !e.Poison? && !e.Terminate?
  }

  datatype WriteOutcome = Done | Retry | GatewayClosed | BadMtu

  /** Peers and rejections by device. GATT callbacks run one at a time on the GLib loop, so each
      is one method; worker threads and timers act through Actor at any point in between. */
  class BleTunnelGateway {
    var peers: map<string, Peer>
    var rejected: map<string, ErrorCode>
    var nextGeneration: nat
    var closed: bool

    ghost predicate Valid()
      reads this, peers.Values
    {
      && |peers| <= MAX_CLIENTS
      && peers.Keys !! rejected.Keys
      && (forall d :: d in peers ==> peers[d].Ok() && 1 <= peers[d].generation <= nextGeneration)
      && (forall d, e :: d in peers && e in peers && d != e ==> peers[d].generation != peers[e].generation)
    }

    ghost function Touched(device: string): set<Peer>
      reads this
    {
      if device in peers then {peers[device]} else {}
    }

    /** The payload would overflow the uplink buffer of the device's open exchange. */
    ghost predicate Full(device: string, payload: Bytes)
      reads this, Touched(device)
    {
      && device in peers
      && peers[device].phase == Active && peers[device].error.None?
      && peers[device].uplinkBytes + |payload| > MAX_DIRECTION_BUFFER
    }

    twostate predicate TablesKept()
      reads this
    {
      peers == old(peers) && rejected == old(rejected) && nextGeneration == old(nextGeneration) && closed == old(closed)
    }

    constructor ()
      ensures Valid() && peers == map[] && rejected == map[] && !closed
    {
      peers, rejected, nextGeneration, closed := map[], map[], 0, false;
    }

    /** Any event of a worker, timer or callback on a registered peer, other than a read. */
    method Actor(p: Peer, e: Event)
      requires Valid() && p in peers.Values && !e.Read?
      modifies p
      ensures Valid()
      ensures p.View() == Next(old(p.View()), e)
    {
      p.Step(e);
    }

    method PoisonPeer(p: Peer, code: ErrorCode)
      requires Valid() && p in peers.Values
      modifies p
      ensures Valid()
      ensures p.View() == Poisoning(old(p.View()), code)
    {
      PoisonKeeps(p.View(), code);
      p.Poison(code);
    }

    method WriteFrame(device: string, mtu: int, value: Bytes) returns (r: WriteOutcome)
      requires Valid()
      modifies this`peers, this`rejected, this`nextGeneration, Touched(device)
      ensures Valid()
      ensures closed ==> r == GatewayClosed && Untouched(device)
      ensures !closed ==>
                match ParseClientFrame(value, mtu)
                case Violation(code) => r == Done && Refused(device, code)
                case Frame(Open) => r == Done && OpenedOrRefused(device, mtu)
                case Frame(Data(payload)) =>
                  r == (if old(Full(device, payload)) then Retry else Done) && Applied(device, DataFrame(payload))
                case Frame(Close) => r == Done && Applied(device, CloseFrame)
                case MtuTooSmall => r == BadMtu && Untouched(device)
    {
      r := Done;
      if closed {
        return GatewayClosed;
      }
      match ParseClientFrame(value, mtu)
      case Violation(code) => RejectOrPoison(device, code);
      case Frame(Open) => OpenTunnel(device, mtu);
      case Frame(Data(payload)) => r := WriteData(device, payload);
      case Frame(Close) => RequestClose(device);
      case MtuTooSmall => r := BadMtu;
    }

    twostate predicate Untouched(device: string)
      reads this, peers.Values
    {
      TablesKept() && (device in peers ==> peers[device].View() == old(peers[device].View()))
    }

    /** A violating frame poisons its peer, or rejects a device that has none. */
    twostate predicate Refused(device: string, code: ErrorCode)
      reads this, peers.Values
    {
      && peers == old(peers) && nextGeneration == old(nextGeneration)
      && (device in peers ==> rejected == old(rejected)
                              && peers[device].View() == Poisoning(old(peers[device].View()), code))
      && (device !in peers ==> rejected == old(rejected)[device := code])
    }

    /** OPEN on a rejected device is ignored, a second OPEN poisons, a fifth client is BUSY;
        otherwise a fresh peer of a new generation is registered. */
    twostate predicate OpenedOrRefused(device: string, mtu: int)
      reads this, peers.Values
    {
      if device in old(rejected) then TablesKept()
      else if device in old(peers) then TablesKept() && peers[device].View() == Poisoning(old(peers[device].View()), BadState)
      else if |old(peers)| >= MAX_CLIENTS then
        peers == old(peers) && nextGeneration == old(nextGeneration) && rejected == old(rejected)[device := Busy]
      else
        && device in peers && fresh(peers[device]) && peers == old(peers)[device := peers[device]]
        && nextGeneration == old(nextGeneration) + 1 && peers[device].generation == nextGeneration
        && peers[device].View() == Initial(mtu)
        && rejected == old(rejected)
    }

    /** DATA and CLOSE go to the device's peer; without one the device is rejected. */
    twostate predicate Applied(device: string, e: Event)
      reads this, peers.Values
    {
      && peers == old(peers) && nextGeneration == old(nextGeneration)
      && (device in peers ==> rejected == old(rejected) && peers[device].View() == Next(old(peers[device].View()), e))
      && (device !in peers ==>
            rejected == if device in old(rejected) then old(rejected) else old(rejected)[device := BadState])
    }

    method RejectOrPoison(device: string, code: ErrorCode)
      requires Valid()
      modifies this`rejected, Touched(device)
      ensures Valid() && Refused(device, code)
    {
      if device in peers {
        PoisonPeer(peers[device], code);
      } else {
        rejected := rejected[device := code];
      }
    }

    method OpenTunnel(device: string, mtu: int)
      requires Valid()
      modifies this`peers, this`rejected, this`nextGeneration, Touched(device)
      ensures Valid() && OpenedOrRefused(device, mtu)
    {
      if device in rejected {
        return;
      }
      if device in peers {
        PoisonPeer(peers[device], BadState);
      } else if |peers| >= MAX_CLIENTS {
        rejected := rejected[device := Busy];
      } else {
        nextGeneration := nextGeneration + 1;
        var peer := new Peer(nextGeneration, mtu);
        peers := peers[device := peer];
      }
    }

    method WriteData(device: string, payload: Bytes) returns (r: WriteOutcome)
      requires Valid()
      modifies this`rejected, Touched(device)
      ensures Valid()
      ensures Applied(device, DataFrame(payload))
      ensures r == if old(Full(device, payload)) then Retry else Done
    {
      r := Done;
      if device in peers {
        var peer := peers[device];
        var accepted := peer.WriteData(payload);
        if accepted == Backpressure {
          r := Retry;
        }
      } else if device !in rejected {
        rejected := rejected[device := BadState];
      }
    }

    method RequestClose(device: string)
      requires Valid()
      modifies this`rejected, Touched(device)
      ensures Valid()
      ensures Applied(device, CloseFrame)
    {
      if device in peers {
        var peer := peers[device];
        peer.RequestClose();
      } else if device !in rejected {
        rejected := rejected[device := BadState];
      }
    }

    /** A read answers for the registered generation, and drops the peer with its CLOSED.
        When it does, the exchange was complete in both directions. */
    method ReadFrame(device: string, mtu: int) returns (frame: ServerFrame)
      requires Valid() && mtu >= 5
      modifies this`peers, Touched(device)
      ensures Valid()
      ensures device in rejected ==> frame == Error(rejected[device]) && TablesKept()
      ensures device !in rejected && device !in old(peers) ==> frame == Error(BadState) && TablesKept()
      ensures device in old(peers) ==>
                && (old(peers[device]).View(), frame) == Reading(old(peers[device].View()), mtu)
                && peers == (if frame == Closed then old(peers) - {device} else old(peers))
                && (frame == Closed ==> Drained(old(peers[device]).View()))
    {
      if device in rejected {
        return Error(rejected[device]);
      }
      if device !in peers {
        return Error(BadState);
      }
      frame := peers[device].Answer(mtu);
      if frame == Closed {
        peers := peers - {device};
      }
    }

    method Disconnect(device: string)
      requires Valid()
      modifies this`peers, this`rejected, Touched(device)
      ensures Valid()
      ensures peers == old(peers) - {device} && rejected == old(rejected) - {device}
      ensures device in old(peers) ==> old(peers[device]).View() == Terminating(old(peers[device].View()))
    {
      var found := device in peers;
      ghost var before := peers;
      if found {
        var peer := peers[device];
        peers := peers - {device};
        rejected := rejected - {device};
        peer.Terminate();
        assert forall d :: d in peers ==> peers[d] != peer;
      } else {
        peers := peers - {device};
        rejected := rejected - {device};
      }
    }

    method PoisonIfGeneration(device: string, generation: nat, code: ErrorCode)
      requires Valid()
      modifies Touched(device)
      ensures Valid()
      ensures device in peers ==>
                peers[device].View() == if peers[device].generation == generation
                                        then Poisoning(old(peers[device].View()), code) else old(peers[device].View())
    {
      if device in peers && peers[device].generation == generation {
        PoisonPeer(peers[device], code);
      }
    }

    /** Closing the gateway terminates every registered peer and empties both tables. */
    method Close()
      requires Valid()
      modifies this, peers.Values
      ensures Valid() && closed && peers == map[] && rejected == map[]
      ensures forall p :: p in old(peers.Values) ==> p.Terminated()
    {
      closed := true;
      var remaining := peers.Values;
      peers := map[];
      rejected := map[];
      while remaining != {}
        invariant remaining <= old(peers.Values)
        invariant closed && peers == map[] && rejected == map[]
        invariant forall p :: p in remaining ==> p.Unchanged()
        invariant forall p :: p in old(peers.Values) && p !in remaining ==> p.Terminated()
        decreases remaining
      {
        var peer :| peer in remaining;
        remaining := remaining - {peer};
        peer.Terminate();
        assert peer.Terminated();
      }
    }
  }

  lemma ReadReportsClosed(p: PeerState, mtu: int)
    requires Inv(p) && !p.closedDelivered && mtu >= 5
    ensures var (q, frame) := Reading(p, mtu);
            if frame == Closed then Drained(q) else Inv(q) && !q.closedDelivered
  {
    ReadKeeps(p, mtu);
  }
}
