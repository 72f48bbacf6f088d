/** The frozen BLE v1 framing shared by the host gateway and the PC client. */
module BleProtocol {

  type Byte = b: int | 0 <= b < 256
  type Bytes = seq<Byte>

  const PROTOCOL_VERSION: Byte := 1
  const MAX_TLS_PAYLOAD: nat := 511
  const MAX_DIRECTION_BUFFER: nat := 32 * 1024

  datatype ErrorCode = Busy | BadState | UnsupportedVersion | UpstreamUnavailable | Timeout {
    function Code(): Byte {
      match this
      case Busy => 1
      case BadState => 2
      case UnsupportedVersion => 3
      case UpstreamUnavailable => 4
      case Timeout => 5
    }
  }

  datatype ClientFrame = Open | Data(payload: Bytes) | Close

  /** What parsing a GATT write yields: a frame, a protocol violation, or the
      ValueError of an unusable MTU. */
  datatype Parsed = Frame(frame: ClientFrame) | Violation(code: ErrorCode) | MtuTooSmall

  datatype ServerFrame = OpenOk | ServerData(bytes: Bytes) | Wait | Closed | Error(code: ErrorCode)

  /** The client's reading of a server value; an error code is a raw byte there. */
  datatype Received = SawOpenOk | SawData(bytes: Bytes) | SawWait | SawClosed | SawError(code: Byte) | Unexpected

  function TlsPayloadCapacity(mtu: int): nat
    requires mtu >= 5
  {
    if mtu - 4 < MAX_TLS_PAYLOAD then mtu - 4 else MAX_TLS_PAYLOAD
  }

  function ParseClientFrame(value: Bytes, mtu: int): Parsed {
    if value == [] then Violation(BadState)
    else if value[0] == 1 then
      if |value| != 2 then Violation(BadState)
      else if value[1] != PROTOCOL_VERSION then Violation(UnsupportedVersion)
      else Frame(Open)
    else if value[0] == 3 then
      if |value| != 1 then Violation(BadState) else Frame(Close)
    else if value[0] == 2 then
      if |value| == 1 then Violation(BadState)
      else if mtu < 5 then MtuTooSmall
      else if |value| - 1 > TlsPayloadCapacity(mtu) then Violation(BadState)
      else Frame(Data(value[1..]))
    else Violation(BadState)
  }

  /** The bytes the PC client writes for a frame. */
  function EncodeClient(frame: ClientFrame): Bytes {
    match frame
    case Open => [1, PROTOCOL_VERSION]
    case Data(payload) => [2] + payload
    case Close => [3]
  }

  predicate Fits(frame: ClientFrame, mtu: int) {
    frame.Data? ==> mtu >= 5 && 1 <= |frame.payload| <= TlsPayloadCapacity(mtu)
  }

  function EncodeServer(frame: ServerFrame): Bytes {
    match frame
    case OpenOk => [0x81, PROTOCOL_VERSION]
    case ServerData(bytes) => [0x82] + bytes
    case Wait => [0x83]
    case Closed => [0x84]
    case Error(code) => [0xFF, code.Code()]
  }

  function DecodeServer(value: Bytes): Received {
    if value == [0x83] then SawWait
    else if |value| == 2 && value[0] == 0xFF then SawError(value[1])
    else if value == [0x81, PROTOCOL_VERSION] then SawOpenOk
    else if value == [0x84] then SawClosed
    else if |value| > 1 && value[0] == 0x82 then SawData(value[1..])
    else Unexpected
  }

  function AsReceived(frame: ServerFrame): Received {
    match frame
    case OpenOk => SawOpenOk
    case ServerData(bytes) => SawData(bytes)
    case Wait => SawWait
    case Closed => SawClosed
    case Error(code) => SawError(code.Code())
  }

  /** Parsing inverts the client's encoding, and accepts nothing else. */
  lemma ParseInvertsEncode(value: Bytes, mtu: int, frame: ClientFrame)
    ensures ParseClientFrame(value, mtu) == Frame(frame) <==> value == EncodeClient(frame) && Fits(frame, mtu)
  {
    if value != [] {
      assert value == [value[0]] + value[1..];
      if frame.Data? && value == EncodeClient(frame) {
        assert value[1..] == frame.payload;
      }
      if |value| == 2 {
        assert value == [value[0], value[1]];
      }
    }
  }

  /** The client reads back every well-formed server frame. */
  lemma DecodeInvertsEncode(frame: ServerFrame)
    requires frame.ServerData? ==> frame.bytes != []
    ensures DecodeServer(EncodeServer(frame)) == AsReceived(frame)
  {
    if frame.ServerData? {
      var value := EncodeServer(frame);
      assert value[0] == 0x82;
      assert value[1..] == frame.bytes;
    }
  }

  // ---- The client's chunking of one TLS record ----

  /** The payload bytes that a series of DATA frames carries. */
  function Carried(frames: seq<Bytes>): Bytes
    requires forall i :: 0 <= i < |frames| ==> frames[i] != []
  {
    if frames == [] then [] else Carried(frames[..|frames| - 1]) + frames[|frames| - 1][1..]
  }

  /** BleTunnel.write_tls: the frames written for one payload, in order. They carry
      exactly the payload, the gateway accepts each of them at the same MTU, and
      every frame but the last is full. */
  method WriteTls(payload: Bytes, mtu: int) returns (frames: seq<Bytes>)
    requires mtu >= 5
    ensures forall i :: 0 <= i < |frames| ==> frames[i] != [] && ParseClientFrame(frames[i], mtu) == Frame(Data(frames[i][1..]))
    ensures Carried(frames) == payload
    ensures forall i :: 0 <= i < |frames| - 1 ==> |frames[i]| == 1 + TlsPayloadCapacity(mtu)
  {
    var capacity := TlsPayloadCapacity(mtu);
    var offset := 0;
    frames := [];
    while offset < |payload|
      invariant 0 <= offset
      invariant forall i :: 0 <= i < |frames| ==> frames[i] != [] && ParseClientFrame(frames[i], mtu) == Frame(Data(frames[i][1..]))
      invariant Carried(frames) == payload[..if offset < |payload| then offset else |payload|]
      invariant forall i :: 0 <= i < |frames| - 1 ==> |frames[i]| == 1 + capacity
      invariant offset < |payload| && frames != [] ==> |frames[|frames| - 1]| == 1 + capacity
      decreases |payload| - offset
    {
      var end := if offset + capacity < |payload| then offset + capacity else |payload|;
      var chunk := payload[offset..end];
      assert payload[..end] == payload[..offset] + chunk;
      ParseInvertsEncode([2] + chunk, mtu, Data(chunk));
      assert (frames + [[2] + chunk])[..|frames|] == frames;
      frames := frames + [[2] + chunk];
      offset := offset + capacity;
    }
    assert payload[..|payload|] == payload;
  }
}
