/** Matching AUTHORIZED with AUTH_ACK on the serial line: the Pi's link, composed with a controller that
    accepts a reply only for the request it is waiting on. Lines carry a request ID and nothing else, so
    the link binds what it reads to the connection that it reads it from. */
module Esp32 {
  import opened Outcomes

  type Connection = nat

  datatype Request = Request(id: string, connection: Connection)

  /** `checked` is whether the reply found its connection current, and `sent` what its write returned, once
      they are known. */
  datatype Pending = Pending(request: Request, checked: Option<bool>, sent: Option<bool>, accepted: bool, done: bool)

  datatype Link = Link(
    connection: Option<Connection>,
    pending: Option<Pending>,
    cancelledRequestId: Option<string>,
    stopped: bool)

  /** A line from the controller. */
  datatype Line = StartAuth(id: string) | Ack(id: string) | Cancel(id: string)

  /** How writing AUTHORIZED ends; one that raises may still have reached the controller. */
  datatype Writing = Written | NotWritten | WrittenButRaised

  datatype World = World(
    link: Link,
    nextConnection: Connection,
    issued: set<string>,              // request IDs the controller has generated
    waiting: Option<string>,          // the controller's pending, unexpired request
    accepted: set<string>,            // requests whose action the controller started
    toController: set<string>,        // AUTHORIZED lines on the wire
    toPi: set<Line>,
    read: map<string, Connection>,    // the connection each START_AUTH was read from
    granted: seq<Request>)            // authorizations that returned True

  datatype Event =
    | Connect
    | Lose(connection: Connection)
    | ControllerStarts(id: string)
    | Begin(request: Request)
    | Check
    | Reply(writing: Writing)
    | ControllerReads(id: string)
    | ControllerCancels
    | PiReads(line: Line, from: Connection)
    | End
    | Stop

  const QUIET := Link(None, None, None, false)

  // ---- The link's critical sections ----

  function ConnectionLost(l: Link, connection: Option<Connection>): Link {
    if connection != l.connection then l
    else Link(None,
              if l.pending.Some? then Some(l.pending.value.(accepted := false, done := true)) else None,
              None, l.stopped)
  }

  /** The first section of authorize installs the ACK wait, or refuses. */
  function Begun(l: Link, request: Request): (Link, bool) {
    if l.stopped || Some(request.connection) != l.connection || l.pending.Some?
       || l.cancelledRequestId == Some(request.id)
    then (l, false)
    else (l.(pending := Some(Pending(request, None, None, false, false))), true)
  }

  /** The first part of the reply: is the request's connection still the current one of a running link? */
  function Checked(l: Link): Link {
    if l.pending.None? || l.pending.value.checked.Some? then l
    else
      var current := Some(l.pending.value.request.connection) == l.connection && !l.stopped;
      l.(pending := Some(l.pending.value.(checked := Some(current))))
  }

  /** The reply is written outside the lock, after a check that passed. */
  predicate Writes(l: Link, w: Writing) {
    && l.pending.Some? && l.pending.value.checked == Some(true) && l.pending.value.sent.None?
    && w != NotWritten
  }

  function Replied(l: Link, w: Writing): Link {
    if l.pending.None? || l.pending.value.checked.None? || l.pending.value.sent.Some? then l
    else l.(pending := Some(l.pending.value.(sent := Some(l.pending.value.checked.value && w.Written?))))
  }

  function ResultReceived(l: Link, request: Request, ack: bool): Link {
    var c := if !ack && Some(request.connection) == l.connection then l.(cancelledRequestId := Some(request.id)) else l;
    if c.pending.Some? && c.pending.value.request == request
    then c.(pending := Some(c.pending.value.(accepted := ack, done := true)))
    else c
  }

  /** The last section, after the wait ended or timed out. */
  function Ended(l: Link): (Link, bool)
    requires l.pending.Some?
  {
    var p := l.pending.value;
    (l.(pending := None),
     p.sent == Some(true) && p.accepted && Some(p.request.connection) == l.connection && !l.stopped)
  }

  // ---- The composed system ----

  function Started(): World {
    World(QUIET, 0, {}, None, {}, {}, {}, map[], [])
  }

  /** One line is read from an open or a former connection. */
  function LineRead(w: World, line: Line, from: Connection): World {
    var v := w.(toPi := w.toPi - {line});
    match line
    case StartAuth(id) => v.(read := w.read[id := from])
    case Ack(id) => v.(link := ResultReceived(w.link, Request(id, from), true))
    case Cancel(id) => v.(link := ResultReceived(w.link, Request(id, from), false))
  }

  function Next(w: World, e: Event): World {
    match e
    case Connect =>
      w.(link := ConnectionLost(w.link, w.link.connection).(connection := Some(w.nextConnection)),
         nextConnection := w.nextConnection + 1)
    case Lose(connection) => w.(link := ConnectionLost(w.link, Some(connection)))
    case ControllerStarts(id) =>
      if id in w.issued then w else w.(issued := w.issued + {id}, waiting := Some(id), toPi := w.toPi + {StartAuth(id)})
    case Begin(request) => w.(link := Begun(w.link, request).0)
    case Check => w.(link := Checked(w.link))
    case Reply(writing) =>
      w.(link := Replied(w.link, writing),
         toController := w.toController + (if Writes(w.link, writing) then {w.link.pending.value.request.id} else {}))
    case ControllerReads(id) =>
      if id !in w.toController then w
      else if w.waiting == Some(id) then
        w.(toController := w.toController - {id}, waiting := None, accepted := w.accepted + {id}, toPi := w.toPi + {Ack(id)})
      else w.(toController := w.toController - {id})
    case ControllerCancels =>
      if w.waiting.None? then w else w.(waiting := None, toPi := w.toPi + {Cancel(w.waiting.value)})
    case PiReads(line, from) => if line !in w.toPi || from >= w.nextConnection then w else LineRead(w, line, from)
    case End =>
      if w.link.pending.None? || w.link.pending.value.sent.None? then w
      else
        var (after, ok) := Ended(w.link);
        w.(link := after, granted := if ok then w.granted + [w.link.pending.value.request] else w.granted)
    case Stop => w.(link := ConnectionLost(w.link, w.link.connection).(stopped := true))
  }

  function Run(w: World, events: seq<Event>): World
    decreases |events|
  {
    if events == [] then w else Next(Run(w, events[..|events| - 1]), events[|events| - 1])
  }

  /** The controller's requests: each is issued once, accepted at most once, and read at most once. */
  ghost predicate ControllerOk(w: World) {
    && (w.waiting.Some? ==> w.waiting.value in w.issued && w.waiting.value !in w.accepted)
    && w.accepted <= w.issued && w.read.Keys <= w.issued
    && (forall id :: StartAuth(id) in w.toPi ==> id in w.issued && id !in w.read)
    && (forall id :: Ack(id) in w.toPi ==> id in w.accepted)
  }

  /** Each acceptance is granted at most once, because its acknowledgement is read at most once. */
  predicate GrantedOk(w: World) {
    && (forall i :: 0 <= i < |w.granted| ==> w.granted[i].id in w.accepted && Ack(w.granted[i].id) !in w.toPi)
    && (forall i, j :: 0 <= i < j < |w.granted| ==> w.granted[i].id != w.granted[j].id)
  }

  predicate PendingOk(w: World) {
    w.link.pending.Some? && w.link.pending.value.accepted ==>
      && w.link.pending.value.request.id in w.accepted
      && Ack(w.link.pending.value.request.id) !in w.toPi
      && NotGranted(w.granted, w.link.pending.value.request.id)
  }

  predicate NotGranted(granted: seq<Request>, id: string) {
    forall i :: 0 <= i < |granted| ==> granted[i].id != id
  }

  ghost predicate Inv(w: World) {
    && ControllerOk(w) && GrantedOk(w) && PendingOk(w)
    && (w.link.connection.Some? ==> w.link.connection.value < w.nextConnection)
  }

  /** Inv, kept folded. */
  ghost predicate Agreed(w: World) {
    forall v :: v == w ==> Inv(v)
  }

  lemma ReadKeeps(w: World, line: Line, from: Connection)
    requires Inv(w) && line in w.toPi
    ensures Inv(LineRead(w, line, from))
  {
    if line.Ack? {
      assert NotGranted(w.granted, line.id);
    }
  }

  lemma EndKeeps(w: World)
    requires Inv(w)
    ensures Inv(Next(w, End))
  {
  }

  lemma AcceptKeeps(w: World, id: string)
    requires Inv(w) && id in w.toController && w.waiting == Some(id)
    ensures Inv(Next(w, ControllerReads(id)))
  {
  }

  lemma ControllerKeeps(w: World, id: string)
    requires Inv(w) && w.waiting != Some(id)
    ensures Inv(Next(w, ControllerReads(id)))
  {
  }

  lemma StartKeeps(w: World, id: string)
    requires Inv(w)
    ensures Inv(Next(w, ControllerStarts(id))) && Inv(Next(w, ControllerCancels))
  {
  }

  lemma NextKeeps(w: World, e: Event)
    requires Inv(w)
    ensures Inv(Next(w, e))
  {
    match e
    case PiReads(line, from) => if line in w.toPi { ReadKeeps(w, line, from); }
    case End => EndKeeps(w);
    case ControllerReads(id) =>
      if w.waiting == Some(id) {
        if id in w.toController {
          AcceptKeeps(w, id);
        }
      } else {
        ControllerKeeps(w, id);
      }
    case ControllerStarts(id) => StartKeeps(w, id);
    case ControllerCancels => StartKeeps(w, "");
    case _ =>
  }

  lemma AgreedKeeps(w: World, e: Event)
    requires Agreed(w)
    ensures Agreed(Next(w, e))
  {
    assert Inv(w);
    NextKeeps(w, e);
  }

  /** What the last section of authorize grants was accepted, on the connection still current, and was not
      granted before. */
  lemma EndIsFresh(w: World)
    requires Agreed(w) && w.link.pending.Some? && Ended(w.link).1
    ensures var r := w.link.pending.value.request;
            && r.id in w.accepted && NotGranted(w.granted, r.id) && Some(r.connection) == w.link.connection && !w.link.stopped
            && Next(w, End).granted == w.granted + [r]
  {
    assert Inv(w);
  }

  lemma GrantedIsAccepted(w: World, r: Request)
    requires Agreed(w) && r in w.granted
    ensures r.id in w.accepted
  {
    assert Inv(w);
  }

  /** The link read the request's START_AUTH, and from the request's connection. */
  predicate WasRead(w: World, r: Request) {
    r.id in w.read && w.read[r.id] == r.connection
  }

  /** A START_AUTH line is read once, so a request stays bound to its connection. */
  lemma ReadIsFinal(w: World, e: Event, r: Request)
    requires Agreed(w) && WasRead(w, r)
    ensures WasRead(Next(w, e), r)
  {
    assert Inv(w);
  }

  lemma {:induction false} RunKeeps(events: seq<Event>)
    ensures Inv(Run(Started(), events))
    decreases |events|
  {
    if events != [] {
      RunKeeps(events[..|events| - 1]);
      NextKeeps(Run(Started(), events[..|events| - 1]), events[|events| - 1]);
    }
  }

  /** Agreement: whatever is lost, delayed, cancelled or reconnected, and whether or not a write that reached
      the controller raised, an authorization that returns True names a request whose action the controller
      started, on the connection still current; and each such start is returned once. */
  lemma GrantsAgree(events: seq<Event>)
    ensures var w := Run(Started(), events);
            && (forall r :: r in w.granted ==> r.id in w.accepted)
            && (forall i, j :: 0 <= i < j < |w.granted| ==> w.granted[i].id != w.granted[j].id)
            && (Next(w, End).granted != w.granted ==>
                  && w.link.pending.Some? && w.link.pending.value.request.id in w.accepted
                  && Some(w.link.pending.value.request.connection) == w.link.connection
                  && Next(w, End).granted == w.granted + [w.link.pending.value.request])
  {
    RunKeeps(events);
  }

  // ---- The undisturbed handshake ----

  lemma ReplyReachesController(w: World, r: Request)
    requires w.link.pending == Some(Pending(r, None, None, false, false))
    requires w.link.connection == Some(r.connection) && !w.link.stopped
    ensures var v := Next(Next(w, Check), Reply(Written));
            && v == w.(link := v.link, toController := v.toController) && r.id in v.toController
            && v.link == w.link.(pending := Some(Pending(r, Some(true), Some(true), false, false)))
  {
    var c := Next(w, Check);
    assert c.link == w.link.(pending := Some(Pending(r, Some(true), None, false, false)));
  }

  lemma ControllerAcknowledges(w: World, r: Request)
    requires w.link.pending.Some? && w.link.pending.value.request == r && r.id in w.toController && w.waiting == Some(r.id)
    requires r.connection < w.nextConnection
    ensures var v := Next(Next(w, ControllerReads(r.id)), PiReads(Ack(r.id), r.connection));
            && r.id in v.accepted && v.granted == w.granted && v.waiting.None?
            && v.link == w.link.(pending := Some(w.link.pending.value.(accepted := true, done := true)))
  {
    var c := Next(w, ControllerReads(r.id));
    assert Ack(r.id) in c.toPi && c.link == w.link;
  }

  /** When nothing is lost or cancelled, the request that the controller waits on is accepted by it, and its
      acknowledgement reaches the wait. */
  lemma HandshakeAccepts(w: World, r: Request)
    requires w.link.pending == Some(Pending(r, None, None, false, false))
    requires w.link.connection == Some(r.connection) && !w.link.stopped
    requires w.waiting == Some(r.id) && r.connection < w.nextConnection
    ensures var v := Next(Next(Next(Next(w, Check), Reply(Written)), ControllerReads(r.id)), PiReads(Ack(r.id), r.connection));
            && r.id in v.accepted && v.granted == w.granted && v.waiting.None?
            && v.link == w.link.(pending := Some(Pending(r, Some(true), Some(true), true, true)))
  {
    ReplyReachesController(w, r);
    ControllerAcknowledges(Next(Next(w, Check), Reply(Written)), r);
  }

  /** So an idle link on the connection of a request that the controller waits on grants it. */
  lemma HandshakeGrants(w: World, r: Request)
    requires w.link.pending.None? && w.link.connection == Some(r.connection) && !w.link.stopped
    requires w.link.cancelledRequestId != Some(r.id) && w.waiting == Some(r.id) && r.connection < w.nextConnection
    ensures var b := Next(w, Begin(r));
            var v := Next(Next(Next(Next(b, Check), Reply(Written)), ControllerReads(r.id)), PiReads(Ack(r.id), r.connection));
            Next(v, End).granted == w.granted + [r] && Next(v, End).link == w.link
  {
    HandshakeAccepts(Next(w, Begin(r)), r);
  }

  /** The cancellation of `r` is known for as long as its connection is current. */
  predicate Remembers(w: World, r: Request) {
    && r.connection < w.nextConnection
    && (w.link.connection == Some(r.connection) ==> w.link.cancelledRequestId == Some(r.id))
  }

  predicate CancelsAnother(e: Event, r: Request) {
    e.PiReads? && e.line.Cancel? && e.line.id != r.id
  }

  lemma NextRemembers(w: World, e: Event, r: Request)
    requires Remembers(w, r) && !CancelsAnother(e, r)
    ensures Remembers(Next(w, e), r)
  {
  }

  /** An early cancellation is kept until a worker can see it: the request is refused for as long
      as no other cancellation arrives. */
  lemma {:induction false} CancellationIsRemembered(w: World, events: seq<Event>, r: Request)
    requires Inv(w)
    requires w.link.cancelledRequestId == Some(r.id) && w.link.connection == Some(r.connection)
    requires forall i :: 0 <= i < |events| ==> !CancelsAnother(events[i], r)
    ensures Remembers(Run(w, events), r) && !Begun(Run(w, events).link, r).1
    decreases |events|
  {
    if events != [] {
      var n := |events| - 1;
      CancellationIsRemembered(w, events[..n], r);
      NextRemembers(Run(w, events[..n]), events[n], r);
    }
  }

  /** A cancellation that is read on the current connection refuses its request before it is asked, and ends its
      wait without a grant if it is being asked. */
  lemma CancellationRefuses(w: World, r: Request)
    requires Cancel(r.id) in w.toPi && w.link.connection == Some(r.connection) && r.connection < w.nextConnection
    ensures var v := Next(w, PiReads(Cancel(r.id), r.connection));
            && v.link.cancelledRequestId == Some(r.id) && v.link.connection == Some(r.connection)
            && !Begun(v.link, r).1
            && (w.link.pending.Some? && w.link.pending.value.request == r ==>
                  && v.link.pending.Some? && v.link.pending.value.done && !Ended(v.link).1
                  && Next(v, End).granted == w.granted)
            && (w.link.pending.Some? && w.link.pending.value.request != r ==> v.link.pending == w.link.pending)
  {
  }

  /** A lost connection fails what waits on it, and no request of it is asked again. */
  lemma LossRefuses(w: World, r: Request)
    requires w.link.connection == Some(r.connection)
    ensures var v := Next(w, Lose(r.connection));
            && v.link.connection.None? && v.link.cancelledRequestId.None? && !Begun(v.link, r).1
            && (w.link.pending.Some? ==> v.link.pending.Some? && v.link.pending.value.done && !Ended(v.link).1)
  {
  }

  // ---- The link object ----

  class Esp32Link {
    var connection: Option<Connection>
    var pending: Option<Pending>
    var cancelledRequestId: Option<string>
    var stopped: bool

    function View(): Link
      reads this
    {
      Link(connection, pending, cancelledRequestId, stopped)
    }

    constructor ()
      ensures View() == QUIET
    {
      connection, pending, cancelledRequestId, stopped := None, None, None, false;
    }

    method LoseConnection(lost: Option<Connection>)
      modifies this
      ensures View() == ConnectionLost(old(View()), lost)
    {
      if lost != connection {
        return;
      }
      connection := None;
      cancelledRequestId := None;
      if pending.Some? {
        pending := Some(pending.value.(accepted := false, done := true));
      }
    }

    method BeginAuthorize(request: Request) returns (installed: bool)
      modifies this`pending
      ensures (View(), installed) == Begun(old(View()), request)
    {
      if stopped || Some(request.connection) != connection || pending.Some? || cancelledRequestId == Some(request.id) {
        return false;
      }
      pending := Some(Pending(request, None, None, false, false));
      return true;
    }

    /** reply, under the lock. */
    method CheckReply()
      modifies this`pending
      ensures View() == Checked(old(View()))
    {
      if pending.None? || pending.value.checked.Some? {
        return;
      }
      var current := Some(pending.value.request.connection) == connection;
      pending := Some(pending.value.(checked := Some(current && !stopped)));
    }

    /** reply, after it. A write that raises returns False, whatever reached the controller. */
    method WriteReply(writing: Writing)
      modifies this`pending
      ensures View() == Replied(old(View()), writing)
    {
      if pending.None? || pending.value.checked.None? || pending.value.sent.Some? {
        return;
      }
      var sent := pending.value.checked.value && writing == Written;
      pending := Some(pending.value.(sent := Some(sent)));
    }

    method ReceiveResult(from: Connection, id: string, ack: bool)
      modifies this
      ensures View() == ResultReceived(old(View()), Request(id, from), ack)
    {
      if !ack && Some(from) == connection {
        cancelledRequestId := Some(id);
      }
      if pending.Some? && pending.value.request.connection == from && pending.value.request.id == id {
        pending := Some(pending.value.(accepted := ack, done := true));
      }
    }

    method EndAuthorize() returns (authorized: bool)
      requires pending.Some?
      modifies this`pending
      ensures (View(), authorized) == Ended(old(View()))
    {
      var p := pending.value;
      pending := None;
      return p.sent == Some(true) && p.accepted && Some(p.request.connection) == connection && !stopped;
    }

    method StopLink()
      modifies this
      ensures View() == ConnectionLost(old(View()), old(connection)).(stopped := true)
    {
      stopped := true;
      LoseConnection(connection);
    }
  }
}
