/** Scan sessions of the Pi runtime, their race between cancel and grant, and their composition with the
    controller link. A scan has one worker thread, which makes one grant attempt. The attempt holds the
    actuation lock from the cancellation check to the recorded result; Cancel takes the same lock. For a
    plain scan the attempt is one step. For a hardware scan it waits for the controller's
    acknowledgement in between, while the link, the controller and a raised cancel event go on. */
module ScanSessions {
  import opened Outcomes
  import Actuation
  import Esp32

  datatype Purpose = UnlockPurpose | IgnitionPurpose

  datatype Progress = Running | Granted | Denied | Errored | Cancelled | TimedOut

  /** A hardware scan is one with the controller's request. */
  datatype Session = Session(
    purpose: Purpose,
    request: Option<Esp32.Request>,
    bound: nat,          // authorization_generation, read when the scan was requested
    state: Progress,
    cancelEvent: bool,
    worker: bool)        // the worker thread may still attempt a grant

  datatype Attempt = Attempt(
    denied: bool,          // face access, identity, camera or settings refused the match
    user: string,
    userId: Option<string>,
    seconds: int,
    sent: bool,
    cancelledEarly: bool,  // a cancellation was raised after the check and before the link is asked
    failSafe: Actuation.LockPlan,
    timerStarts: bool,
    readable: bool,
    write: Actuation.Write,
    compensation: bool)

  /** The hardware attempt that holds the actuation lock while it waits for the controller. */
  datatype Waiting = Waiting(id: string, attempt: Attempt)

  /** `used`, `acted` and `failed` record the past: the request of every session ever opened, the sessions
      whose unlock or start took effect, in order, and the requests that the link was asked for in vain. */
  datatype System = System(
    sessions: map<string, Session>,
    active: Option<string>,
    closed: bool,
    paused: bool,
    drained: bool,
    actuation: Actuation.State,
    link: Esp32.World,
    waiting: Option<Waiting>,
    used: map<string, Option<Esp32.Request>>,
    acted: seq<string>,
    failed: set<string>)

  datatype Event =
    | NewScan(id: string, purpose: Purpose, request: Option<Esp32.Request>, bound: nat)
    | Cancel(id: string)
    | RaiseCancel(id: string)
    | Grant(id: string, attempt: Attempt)
    | Settle
    | Finish(id: string, final: Progress)
    | Release(id: string)
    | Remove(id: string)
    | RevokeIgnition
    | Elsewhere(event: Actuation.Event)
    | Wire(line: Esp32.Event)
    | Close
    | Pause
    | Drain(clean: bool)
    | Resume

  function Fresh(unlocked: bool): System {
    System(map[], None, false, false, false, Actuation.Booted(unlocked), Esp32.Started(), None, map[], [], {})
  }

  predicate Busy(s: System) {
    s.active.Some? && s.active.value in s.sessions
  }

  // ---- Bookkeeping ----

  /** A hardware scan is opened for a request that the link has read. */
  predicate MayOpen(s: System, request: Option<Esp32.Request>) {
    request.Some? ==> Esp32.WasRead(s.link, request.value)
  }

  function Opened(s: System, id: string, purpose: Purpose, request: Option<Esp32.Request>, bound: nat): System {
    if s.closed || s.paused || Busy(s) || id in s.used || !MayOpen(s, request) then s
    else s.(sessions := s.sessions[id := Session(purpose, request, bound, Running, false, true)],
            active := Some(id), used := s.used[id := request])
  }

  function Cancelling(s: System, id: string): System {
    if id !in s.sessions || s.sessions[id].state != Running then s
    else s.(sessions := s.sessions[id := s.sessions[id].(cancelEvent := true, state := Cancelled)])
  }

  function CancelRaised(s: System, id: string): System {
    if id !in s.sessions then s else s.(sessions := s.sessions[id := s.sessions[id].(cancelEvent := true)])
  }

  /** A final state is never Running, and a cancelled session keeps its state. Only a grant that took effect
      finishes as Granted. */
  function Finished(s: System, id: string, final: Progress): System {
    if id !in s.sessions || s.sessions[id].state == Cancelled || final == Running || final == Cancelled then s
    else s.(sessions := s.sessions[id := s.sessions[id].(state := final)])
  }

  predicate IsWaiting(s: System, id: string) {
    s.waiting.Some? && s.waiting.value.id == id
  }

  /** A worker releases its session when its attempt is over. */
  function Freed(s: System, id: string): System {
    if IsWaiting(s, id) then s
    else
      var t := s.(active := if s.active == Some(id) then None else s.active);
      if id !in s.sessions then t
      else
        var session := s.sessions[id];
        t.(sessions := s.sessions[id := session.(worker := false,
                                                 state := if session.state == Running then Cancelled else session.state)])
  }

  /** Sessions are dropped only once they are no longer the active one. */
  function Removed(s: System, id: string): System {
    if s.active == Some(id) || IsWaiting(s, id) then s else s.(sessions := s.sessions - {id})
  }

  function IgnitionRevoked(s: System): System {
    if !Busy(s) then s
    else
      var session := s.sessions[s.active.value];
      if session.purpose == IgnitionPurpose && session.state == Running then Cancelling(s, s.active.value) else s
  }

  function Paused(s: System): System {
    if s.closed || (s.paused && s.drained) then s else s.(paused := true, drained := false)
  }

  predicate WorkersAlive(s: System) {
    s.waiting.Some? || exists id :: id in s.sessions && s.sessions[id].worker
  }

  /** The end of a maintenance stop: it has drained only if no worker is alive and camera, timers and
      deadline (`clean`) raised nothing. */
  function Drained(s: System, clean: bool): System {
    if !s.paused then s else s.(active := None, drained := clean && !WorkersAlive(s))
  }

  function Resumed(s: System): System {
    if s.closed || !s.paused || !s.drained then s
    else s.(sessions := map[], active := None, paused := false, drained := false)
  }

  // ---- The grant ----

  /** The actuation gets as far as asking for the command or the callback. */
  predicate Reaches(a: Actuation.State, session: Session, attempt: Attempt) {
    match session.purpose
    case UnlockPurpose => Actuation.UnlockReaches(a, attempt.seconds, session.bound, attempt.timerStarts)
    case IgnitionPurpose => Actuation.StartReaches(a, attempt.seconds, Some(session.bound), attempt.readable, attempt.timerStarts)
  }

  function Actuated(a: Actuation.State, session: Session, attempt: Attempt, delivery: Actuation.Delivery): (Actuation.State, bool) {
    var r := match session.purpose
      case UnlockPurpose =>
        Actuation.Unlocked(a, attempt.user, attempt.userId, attempt.seconds, session.bound,
                           Actuation.UnlockPlan(attempt.timerStarts, delivery, attempt.write, attempt.compensation))
      case IgnitionPurpose =>
        Actuation.IgnitionSet(a, true, attempt.seconds, false, Some(session.bound),
                              Actuation.IgnitionPlan(attempt.readable, attempt.timerStarts, delivery));
    (r.0, r.1.Success?)
  }

  /** Only the request for maintenance can be raised while the lock is held; whoever holds it looked at it
      before, and does not again. */
  function Unnoticed(a: Actuation.State): Actuation.State {
    a.(maintenanceRequested := false)
  }

  function ActuatedUnderLock(a: Actuation.State, session: Session, attempt: Attempt, delivery: Actuation.Delivery): (Actuation.State, bool) {
    var (b, ok) := Actuated(Unnoticed(a), session, attempt, delivery);
    (b.(maintenanceRequested := a.maintenanceRequested), ok)
  }

  function Recorded(s: System, id: string, after: Actuation.State, ok: bool): System {
    Finished(s.(actuation := after, acted := if ok then s.acted + [id] else s.acted), id, if ok then Granted else Errored)
  }

  /** An attempt that is over in the step it began in. */
  function Completed(s: System, id: string, attempt: Attempt, delivery: Actuation.Delivery): System
    requires id in s.sessions
  {
    var (after, ok) := Actuated(s.actuation, s.sessions[id], attempt, delivery);
    Recorded(s, id, after, ok)
  }

  /** The callback of a hardware grant: it answers no without asking the link if a cancellation came
      first, resets the connection if the link refuses, and otherwise waits. */
  function Asked(s: System, id: string, attempt: Attempt): System
    requires id in s.sessions && s.sessions[id].request.Some?
  {
    var request := s.sessions[id].request.value;
    if attempt.cancelledEarly then Completed(CancelRaised(s, id), id, attempt, Actuation.Withheld)
    else if !Esp32.Begun(s.link.link, request).1 then Completed(s, id, attempt, Actuation.Unconfirmed(attempt.failSafe))
    else s.(link := Esp32.Next(s.link, Esp32.Begin(request)), waiting := Some(Waiting(id, attempt)))
  }

  function Granting(s: System, id: string, attempt: Attempt): System {
    if s.waiting.Some? || id !in s.sessions || !s.sessions[id].worker then s
    else
      var session := s.sessions[id];
      var over := s.(sessions := s.sessions[id := session.(worker := false)]);
      if session.cancelEvent || s.closed then over
      else if attempt.denied || session.bound != s.actuation.generation then Finished(over, id, Denied)
      else if session.request.None? then
        Completed(over, id, attempt, if attempt.sent then Actuation.Sent else Actuation.NotSent)
      else if !Reaches(s.actuation, session, attempt) then Completed(over, id, attempt, Actuation.Withheld)
      else Asked(over, id, attempt)
  }

  /** The reply was written, or not, and the wait for the acknowledgement is over. */
  predicate Settles(s: System) {
    && s.waiting.Some? && s.waiting.value.id in s.sessions
    && s.link.link.pending.Some? && s.link.link.pending.value.sent.Some?
  }

  /** The link answers yes, and no cancellation was raised meanwhile. */
  predicate Confirmed(s: System)
    requires Settles(s)
  {
    Esp32.Ended(s.link.link).1 && !s.sessions[s.waiting.value.id].cancelEvent
  }

  function Delivered(s: System): Actuation.Delivery
    requires Settles(s)
  {
    if Confirmed(s) then Actuation.Acknowledged else Actuation.Unconfirmed(s.waiting.value.attempt.failSafe)
  }

  /** The link's last section ended the wait. */
  function Left(s: System): System {
    s.(link := Esp32.Next(s.link, Esp32.End), waiting := None)
  }

  /** The callback returned; the unlock or start that called it completes and is recorded. */
  function Closing(s: System, w: Waiting, delivery: Actuation.Delivery, request: string): System
    requires w.id in s.sessions
  {
    var (after, ok) := ActuatedUnderLock(s.actuation, s.sessions[w.id], w.attempt, delivery);
    Recorded(s.(failed := if ok then s.failed else s.failed + {request}), w.id, after, ok)
  }

  function Settling(s: System): System {
    if !Settles(s) then s
    else Closing(Left(s), s.waiting.value, Delivered(s), s.link.link.pending.value.request.id)
  }

  /** While a hardware grant waits, no other step that takes the actuation lock can happen. */
  function Actuating(s: System, e: Actuation.Event): System {
    if s.waiting.Some? && !e.RequestMaintenance? then s else s.(actuation := Actuation.Next(s.actuation, e))
  }

  /** The link's own sections of a grant belong to the grant. */
  function Wired(s: System, line: Esp32.Event): System {
    if line.Begin? || line.End? then s else s.(link := Esp32.Next(s.link, line))
  }

  function Next(s: System, e: Event): System {
    match e
    case NewScan(id, purpose, request, bound) => Opened(s, id, purpose, request, bound)
    case Cancel(id) => if s.waiting.Some? then s else Cancelling(s, id)
    case RaiseCancel(id) => CancelRaised(s, id)
    case Grant(id, attempt) => Granting(s, id, attempt)
    case Settle => Settling(s)
    case Finish(id, final) => if final == Granted then s else Finished(s, id, final)
    case Release(id) => Freed(s, id)
    case Remove(id) => Removed(s, id)
    case RevokeIgnition => IgnitionRevoked(s)
    case Elsewhere(event) => Actuating(s, event)
    case Wire(line) => Wired(s, line)
    case Close => s.(closed := true)
    case Pause => Paused(s)
    case Drain(clean) => Drained(s, clean)
    case Resume => Resumed(s)
  }

  function Run(s: System, events: seq<Event>): System
    decreases |events|
  {
    if events == [] then s else Next(Run(s, events[..|events| - 1]), events[|events| - 1])
  }

  // ---- The invariant ----

  ghost predicate SessionsOk(s: System) {
    && s.sessions.Keys <= s.used.Keys
    && (forall id :: id in s.sessions ==> s.sessions[id].request == s.used[id])
    && (forall id :: id in s.sessions && s.sessions[id].state == Cancelled ==>
          s.sessions[id].cancelEvent || (!s.sessions[id].worker && !IsWaiting(s, id)))
    && (forall id :: id in s.sessions && s.sessions[id].state == Granted ==> id in s.acted)
  }

  /** A session acts once: its thread has made its one attempt when it has acted. */
  ghost predicate ActedOk(s: System) {
    && (forall i :: 0 <= i < |s.acted| ==>
          && s.acted[i] in s.used
          && !IsWaiting(s, s.acted[i])
          && (s.acted[i] in s.sessions ==> !s.sessions[s.acted[i]].worker))
    && (forall i, j :: 0 <= i < j < |s.acted| ==> s.acted[i] != s.acted[j])
  }

  /** The link waits for an acknowledgement exactly while a hardware grant holds the lock, for the
      request of its session, and the actuation is as the grant found it. */
  ghost predicate WaitingOk(s: System) {
    && (s.waiting.Some? <==> s.link.link.pending.Some?)
    && (s.waiting.Some? ==>
          var id := s.waiting.value.id;
          && id in s.sessions && !s.sessions[id].worker
          && s.sessions[id].request == Some(s.link.link.pending.value.request)
          && Reaches(Unnoticed(s.actuation), s.sessions[id], s.waiting.value.attempt))
  }

  /** A drained runtime has no attempt left, and takes no new scan. */
  ghost predicate DrainedOk(s: System) {
    s.drained ==> s.paused && s.waiting.None? && forall id :: id in s.sessions ==> !s.sessions[id].worker
  }

  predicate Apart(a: Option<Esp32.Request>, b: Option<Esp32.Request>) {
    a.Some? && b.Some? ==> a.value.id != b.value.id
  }

  /** Every session's request was read by the link, on the connection the session names. */
  ghost predicate RequestsRead(s: System) {
    forall id :: id in s.used && s.used[id].Some? ==> Esp32.WasRead(s.link, s.used[id].value)
  }

  /** Agreement: every hardware session that acted had its own request granted by the link. */
  ghost predicate ActedAgree(s: System) {
    && Esp32.Agreed(s.link)
    && (forall i :: 0 <= i < |s.acted| && s.acted[i] in s.used && s.used[s.acted[i]].Some? ==>
          s.used[s.acted[i]].value in s.link.granted)
    && (forall i, j :: 0 <= i < j < |s.acted| && s.acted[i] in s.used && s.acted[j] in s.used ==>
          Apart(s.used[s.acted[i]], s.used[s.acted[j]]))
  }

  ghost predicate Inv(s: System) {
    SessionsOk(s) && ActedOk(s) && WaitingOk(s) && DrainedOk(s) && ActedAgree(s) && RequestsRead(s)
  }

  /** Inv, kept folded. */
  ghost predicate Safe(s: System) {
    forall t :: t == s ==> Inv(t)
  }

  lemma OpenKeeps(s: System, id: string, purpose: Purpose, request: Option<Esp32.Request>, bound: nat)
    requires Safe(s)
    ensures Safe(Opened(s, id, purpose, request, bound))
  {
    assert Inv(s);
    assert Inv(Opened(s, id, purpose, request, bound));
  }

  lemma TouchActed(s: System, id: string, v: Session)
    requires ActedOk(s) && id in s.sessions && (v.worker ==> s.sessions[id].worker)
    ensures ActedOk(s.(sessions := s.sessions[id := v]))
  {
  }

  lemma TouchWaiting(s: System, id: string, v: Session)
    requires WaitingOk(s) && DrainedOk(s) && id in s.sessions
    requires v == s.sessions[id].(state := v.state, cancelEvent := v.cancelEvent, worker := v.worker)
    requires v.worker ==> s.sessions[id].worker
    ensures WaitingOk(s.(sessions := s.sessions[id := v])) && DrainedOk(s.(sessions := s.sessions[id := v]))
  {
  }

  /** One session changes its progress, its event or its worker. */
  lemma TouchKeeps(s: System, id: string, v: Session)
    requires Safe(s) && id in s.sessions
    requires v == s.sessions[id].(state := v.state, cancelEvent := v.cancelEvent, worker := v.worker)
    requires v.worker ==> s.sessions[id].worker
    requires v.state == Cancelled ==> v.cancelEvent || (!v.worker && !IsWaiting(s, id))
    requires v.state == Granted ==> id in s.acted
    ensures Safe(s.(sessions := s.sessions[id := v]))
  {
    assert Inv(s);
    TouchActed(s, id, v);
    TouchWaiting(s, id, v);
    assert Inv(s.(sessions := s.sessions[id := v]));
  }

  lemma FactsOf(s: System, id: string)
    requires Safe(s) && id in s.sessions
    ensures id in s.used && s.used[id] == s.sessions[id].request
    ensures s.sessions[id].state == Cancelled ==>
              s.sessions[id].cancelEvent || (!s.sessions[id].worker && !IsWaiting(s, id))
    ensures s.sessions[id].state == Granted ==> id in s.acted
  {
    assert Inv(s);
  }

  lemma ActiveKeeps(s: System, active: Option<string>, closed: bool)
    requires Safe(s)
    ensures Safe(s.(active := active, closed := closed))
  {
    assert Inv(s);
    assert Inv(s.(active := active, closed := closed));
  }

  lemma CancelKeeps(s: System, id: string)
    requires Safe(s)
    ensures Safe(Cancelling(s, id)) && Safe(CancelRaised(s, id))
  {
    if id in s.sessions {
      FactsOf(s, id);
      TouchKeeps(s, id, s.sessions[id].(cancelEvent := true, state := Cancelled));
      TouchKeeps(s, id, s.sessions[id].(cancelEvent := true));
    }
  }

  lemma FinishKeeps(s: System, id: string, final: Progress)
    requires Safe(s) && (final == Granted ==> id in s.acted)
    ensures Safe(Finished(s, id, final))
  {
    if id in s.sessions && s.sessions[id].state != Cancelled && final != Running && final != Cancelled {
      TouchKeeps(s, id, s.sessions[id].(state := final));
    }
  }

  lemma ReleaseKeeps(s: System, id: string)
    requires Safe(s)
    ensures Safe(Freed(s, id))
  {
    if !IsWaiting(s, id) {
      var t := s.(active := if s.active == Some(id) then None else s.active);
      ActiveKeeps(s, t.active, s.closed);
      if id in s.sessions {
        FactsOf(s, id);
        var session := s.sessions[id];
        TouchKeeps(t, id, session.(worker := false, state := if session.state == Running then Cancelled else session.state));
      }
    }
  }

  lemma RemoveActed(s: System, id: string)
    requires ActedOk(s) && ActedAgree(s)
    ensures ActedOk(s.(sessions := s.sessions - {id})) && ActedAgree(s.(sessions := s.sessions - {id}))
  {
  }

  lemma RemoveSessions(s: System, id: string)
    requires SessionsOk(s) && WaitingOk(s) && DrainedOk(s) && !IsWaiting(s, id)
    ensures var t := s.(sessions := s.sessions - {id}); SessionsOk(t) && WaitingOk(t) && DrainedOk(t)
  {
  }

  lemma RemoveKeeps(s: System, id: string)
    requires Safe(s)
    ensures Safe(Removed(s, id))
  {
    if s.active != Some(id) && !IsWaiting(s, id) {
      assert Inv(s);
      RemoveActed(s, id);
      RemoveSessions(s, id);
      assert Inv(s.(sessions := s.sessions - {id}));
    }
  }

  lemma RevokeKeeps(s: System)
    requires Safe(s)
    ensures Safe(IgnitionRevoked(s))
  {
    if Busy(s) {
      CancelKeeps(s, s.active.value);
    }
  }

  lemma PauseKeeps(s: System)
    requires Safe(s)
    ensures Safe(Paused(s))
  {
    assert Inv(s);
    assert Inv(Paused(s));
  }

  lemma DrainKeeps(s: System, clean: bool)
    requires Safe(s)
    ensures Safe(Drained(s, clean))
  {
    assert Inv(s);
    assert Inv(Drained(s, clean));
  }

  lemma ResumeKeeps(s: System)
    requires Safe(s)
    ensures Safe(Resumed(s))
  {
    assert Inv(s);
    assert Inv(Resumed(s));
  }

  /** The actuation matters to the invariant only while a grant waits. */
  lemma ActuatingKeeps(s: System, e: Actuation.Event)
    requires Safe(s)
    ensures Safe(Actuating(s, e))
  {
    assert Inv(s);
    var t := Actuating(s, e);
    assert s.waiting.Some? ==> Unnoticed(t.actuation) == Unnoticed(s.actuation);
    assert t == s.(actuation := t.actuation);
    assert Inv(t);
  }

  lemma WirePending(w: Esp32.World, line: Esp32.Event)
    requires !line.Begin? && !line.End?
    ensures var v := Esp32.Next(w, line);
            && (v.link.pending.Some? <==> w.link.pending.Some?)
            && (v.link.pending.Some? ==> v.link.pending.value.request == w.link.pending.value.request)
            && v.granted == w.granted
  {
  }

  lemma ReadStays(s: System, line: Esp32.Event)
    requires RequestsRead(s) && Esp32.Agreed(s.link)
    ensures RequestsRead(s.(link := Esp32.Next(s.link, line)))
  {
    forall id | id in s.used && s.used[id].Some? ensures Esp32.WasRead(Esp32.Next(s.link, line), s.used[id].value) {
      Esp32.ReadIsFinal(s.link, line, s.used[id].value);
    }
  }

  lemma WireKeeps(s: System, line: Esp32.Event)
    requires Safe(s)
    ensures Safe(Wired(s, line))
  {
    if !line.Begin? && !line.End? {
      assert Inv(s);
      Esp32.AgreedKeeps(s.link, line);
      WirePending(s.link, line);
      ReadStays(s, line);
      assert Inv(Wired(s, line));
    }
  }

  // ---- The grant keeps it ----

  /** The attempt is made: the worker cannot make another. */
  lemma SpentKeeps(s: System, id: string)
    requires Safe(s) && id in s.sessions && s.sessions[id].worker && s.waiting.None?
    ensures var over := s.(sessions := s.sessions[id := s.sessions[id].(worker := false)]);
            Safe(over) && id !in over.acted
  {
    FactsOf(s, id);
    TouchKeeps(s, id, s.sessions[id].(worker := false));
    assert Inv(s);
  }

  /** No session has acted for this request. */
  ghost predicate NotActed(s: System, request: string) {
    forall i :: 0 <= i < |s.acted| && s.acted[i] in s.used && s.used[s.acted[i]].Some? ==> s.used[s.acted[i]].value.id != request
  }

  /** Recording a result: a hardware session may be recorded as acted only with its request newly
      granted. */
  lemma RecordKeeps(s: System, id: string, after: Actuation.State, ok: bool)
    requires Safe(s) && s.waiting.None? && id in s.sessions && !s.sessions[id].worker && id !in s.acted
    requires ok ==> s.sessions[id].request.None?
                    || (s.sessions[id].request.value in s.link.granted && NotActed(s, s.sessions[id].request.value.id))
    ensures Safe(Recorded(s, id, after, ok))
  {
    var t := s.(actuation := after, acted := if ok then s.acted + [id] else s.acted);
    assert Safe(t) by {
      assert Inv(s);
      if ok {
        ActedGrows(s, id, after);
      }
      assert Inv(t);
    }
    assert ok ==> t.acted[|s.acted|] == id;
    FinishKeeps(t, id, if ok then Granted else Errored);
  }

  lemma ActedGrows(s: System, id: string, after: Actuation.State)
    requires Inv(s) && s.waiting.None? && id in s.sessions && !s.sessions[id].worker && id !in s.acted
    requires s.sessions[id].request.None?
             || (s.sessions[id].request.value in s.link.granted && NotActed(s, s.sessions[id].request.value.id))
    ensures Inv(s.(actuation := after, acted := s.acted + [id]))
  {
  }

  /** Without a confirmed delivery nothing is granted. */
  lemma UnconfirmedFails(a: Actuation.State, session: Session, attempt: Attempt, delivery: Actuation.Delivery)
    requires delivery.Withheld? || delivery.Unconfirmed?
    ensures !Actuated(a, session, attempt, delivery).1
    ensures Actuated(a, session, attempt, delivery).0.trace.attempts
            == a.trace.attempts + (if delivery.Unconfirmed? && Reaches(a, session, attempt) then [Actuation.STOP, Actuation.LOCK] else [])
  {
    var up := Actuation.UnlockPlan(attempt.timerStarts, delivery, attempt.write, attempt.compensation);
    var ip := Actuation.IgnitionPlan(attempt.readable, attempt.timerStarts, delivery);
    if delivery.Withheld? {
      Actuation.WithheldGrant(a, attempt.user, attempt.userId, attempt.seconds, session.bound, up, ip);
      assert a.trace.attempts + [] == a.trace.attempts;
    } else {
      Actuation.UnconfirmedUnlock(a, attempt.user, attempt.userId, attempt.seconds, session.bound, up);
      Actuation.UnconfirmedStart(a, attempt.seconds, Some(session.bound), ip);
    }
  }

  lemma CompleteKeeps(s: System, id: string, attempt: Attempt, delivery: Actuation.Delivery)
    requires Safe(s) && s.waiting.None? && id in s.sessions && !s.sessions[id].worker && id !in s.acted
    requires s.sessions[id].request.Some? ==> delivery.Withheld? || delivery.Unconfirmed?
    ensures Safe(Completed(s, id, attempt, delivery))
  {
    if s.sessions[id].request.Some? {
      UnconfirmedFails(s.actuation, s.sessions[id], attempt, delivery);
    }
    var (after, ok) := Actuated(s.actuation, s.sessions[id], attempt, delivery);
    RecordKeeps(s, id, after, ok);
  }

  lemma ReachesUnnoticed(a: Actuation.State, session: Session, attempt: Attempt)
    requires Reaches(a, session, attempt)
    ensures Reaches(Unnoticed(a), session, attempt)
  {
  }

  lemma WaitKeeps(s: System, id: string, attempt: Attempt)
    requires Safe(s) && s.waiting.None? && id in s.sessions && !s.sessions[id].worker && id !in s.acted && !s.drained
    requires s.sessions[id].request.Some? && s.sessions[id].state != Cancelled
    requires Reaches(s.actuation, s.sessions[id], attempt)
    requires Esp32.Begun(s.link.link, s.sessions[id].request.value).1
    ensures Safe(s.(link := Esp32.Next(s.link, Esp32.Begin(s.sessions[id].request.value)), waiting := Some(Waiting(id, attempt))))
  {
    assert Inv(s);
    var request := s.sessions[id].request.value;
    Esp32.AgreedKeeps(s.link, Esp32.Begin(request));
    ReadStays(s, Esp32.Begin(request));
    ReachesUnnoticed(s.actuation, s.sessions[id], attempt);
    assert Inv(s.(link := Esp32.Next(s.link, Esp32.Begin(request)), waiting := Some(Waiting(id, attempt))));
  }

  lemma AskedKeeps(s: System, id: string, attempt: Attempt)
    requires Safe(s) && s.waiting.None? && id in s.sessions && !s.sessions[id].worker && id !in s.acted && !s.drained
    requires s.sessions[id].request.Some? && s.sessions[id].state != Cancelled
    requires Reaches(s.actuation, s.sessions[id], attempt)
    ensures Safe(Asked(s, id, attempt))
  {
    if attempt.cancelledEarly {
      CancelKeeps(s, id);
      CompleteKeeps(CancelRaised(s, id), id, attempt, Actuation.Withheld);
    } else if !Esp32.Begun(s.link.link, s.sessions[id].request.value).1 {
      CompleteKeeps(s, id, attempt, Actuation.Unconfirmed(attempt.failSafe));
    } else {
      WaitKeeps(s, id, attempt);
    }
  }

  lemma WorkersNotDrained(s: System, id: string)
    requires Safe(s) && id in s.sessions && s.sessions[id].worker
    ensures !s.drained
  {
    assert Inv(s);
  }

  lemma GrantKeeps(s: System, id: string, attempt: Attempt)
    requires Safe(s)
    ensures Safe(Granting(s, id, attempt))
  {
    if s.waiting.None? && id in s.sessions && s.sessions[id].worker {
      var session := s.sessions[id];
      var over := s.(sessions := s.sessions[id := session.(worker := false)]);
      SpentKeeps(s, id);
      FactsOf(s, id);
      WorkersNotDrained(s, id);
      if session.cancelEvent || s.closed {
      } else if attempt.denied || session.bound != s.actuation.generation {
        FinishKeeps(over, id, Denied);
      } else if session.request.None? {
        CompleteKeeps(over, id, attempt, if attempt.sent then Actuation.Sent else Actuation.NotSent);
      } else if !Reaches(s.actuation, session, attempt) {
        CompleteKeeps(over, id, attempt, Actuation.Withheld);
      } else {
        AskedKeeps(over, id, attempt);
      }
    }
  }

  /** The link's last section grants the request it names, which no session has acted for. */
  lemma EndGrants(s: System, failed: set<string>)
    requires Inv(s) && Settles(s)
    ensures var t := Left(s).(failed := failed);
            && Inv(t) && s.waiting.value.id !in t.acted
            && (Esp32.Ended(s.link.link).1 ==>
                  var request := s.link.link.pending.value.request;
                  && t.link.granted == s.link.granted + [request] && NotActed(t, request.id))
  {
    Esp32.AgreedKeeps(s.link, Esp32.End);
    ReadStays(s, Esp32.End);
    if Esp32.Ended(s.link.link).1 {
      Esp32.EndIsFresh(s.link);
    }
  }

  lemma SettleKeeps(s: System)
    requires Safe(s)
    ensures Safe(Settling(s))
  {
    if Settles(s) {
      assert Inv(s);
      var (id, attempt) := (s.waiting.value.id, s.waiting.value.attempt);
      if !Confirmed(s) {
        UnconfirmedFails(Unnoticed(s.actuation), s.sessions[id], attempt, Delivered(s));
      }
      var (after, ok) := ActuatedUnderLock(s.actuation, s.sessions[id], attempt, Delivered(s));
      var t := Left(s).(failed := if ok then s.failed else s.failed + {s.link.link.pending.value.request.id});
      EndGrants(s, t.failed);
      RecordKeeps(t, id, after, ok);
    }
  }

  lemma NextKeeps(s: System, e: Event)
    requires Safe(s)
    ensures Safe(Next(s, e))
  {
    match e
    case NewScan(id, purpose, request, bound) => OpenKeeps(s, id, purpose, request, bound);
    case Cancel(id) => CancelKeeps(s, id);
    case RaiseCancel(id) => CancelKeeps(s, id);
    case Grant(id, attempt) => GrantKeeps(s, id, attempt);
    case Settle => SettleKeeps(s);
    case Finish(id, final) => if final != Granted { FinishKeeps(s, id, final); }
    case Release(id) => ReleaseKeeps(s, id);
    case Remove(id) => RemoveKeeps(s, id);
    case RevokeIgnition => RevokeKeeps(s);
    case Elsewhere(event) => ActuatingKeeps(s, event);
    case Wire(line) => WireKeeps(s, line);
    case Close => ActiveKeeps(s, s.active, true);
    case Pause => PauseKeeps(s);
    case Drain(clean) => DrainKeeps(s, clean);
    case Resume => ResumeKeeps(s);
  }

  lemma {:induction false} RunKeeps(unlocked: bool, events: seq<Event>)
    ensures Safe(Run(Fresh(unlocked), events))
    decreases |events|
  {
    if events == [] {
      assert Inv(Fresh(unlocked));
    } else {
      RunKeeps(unlocked, events[..|events| - 1]);
      NextKeeps(Run(Fresh(unlocked), events[..|events| - 1]), events[|events| - 1]);
    }
  }

  // ---- Which steps act ----

  /** A plain scan's attempt takes effect. */
  predicate PlainActs(s: System, id: string, attempt: Attempt) {
    && s.waiting.None? && id in s.sessions && s.sessions[id].worker && s.sessions[id].request.None?
    && !s.sessions[id].cancelEvent && !s.closed && !attempt.denied && s.sessions[id].bound == s.actuation.generation
    && Actuated(s.actuation, s.sessions[id], attempt, if attempt.sent then Actuation.Sent else Actuation.NotSent).1
  }

  /** An acknowledged start is in effect; an acknowledged unlock must also be saved. */
  predicate Saved(session: Session, attempt: Attempt) {
    session.purpose.IgnitionPurpose? || attempt.write.Stored?
  }

  /** What an acknowledged grant adds to the commands; an unlock that is not saved is locked again. */
  function CommandsOf(session: Session, attempt: Attempt): seq<Actuation.Command> {
    if session.purpose.IgnitionPurpose? then [Actuation.START]
    else if attempt.write.Stored? then [Actuation.UNLOCK]
    else [Actuation.UNLOCK, Actuation.LOCK]
  }

  lemma AcknowledgedActs(a: Actuation.State, session: Session, attempt: Attempt)
    requires Reaches(a, session, attempt)
    ensures var (b, ok) := Actuated(a, session, attempt, Actuation.Acknowledged);
            && (ok <==> Saved(session, attempt))
            && b.trace.attempts == a.trace.attempts + CommandsOf(session, attempt)
  {
    Actuation.AppendTwo(a.trace.attempts, Actuation.UNLOCK, Actuation.LOCK);
  }

  /** The link refuses the request of a grant that got as far as asking it. */
  predicate RefusedByLink(s: System, id: string, attempt: Attempt) {
    && s.waiting.None? && id in s.sessions && s.sessions[id].worker && s.sessions[id].request.Some?
    && !s.sessions[id].cancelEvent && !s.closed && !attempt.denied && s.sessions[id].bound == s.actuation.generation
    && Reaches(s.actuation, s.sessions[id], attempt) && !attempt.cancelledEarly
    && !Esp32.Begun(s.link.link, s.sessions[id].request.value).1
  }

  lemma AskedOutcome(s: System, id: string, attempt: Attempt)
    requires id in s.sessions && s.sessions[id].request.Some? && Reaches(s.actuation, s.sessions[id], attempt)
    ensures var t := Asked(s, id, attempt);
            var refused := !attempt.cancelledEarly && !Esp32.Begun(s.link.link, s.sessions[id].request.value).1;
            && t.acted == s.acted
            && t.actuation.trace.attempts
               == s.actuation.trace.attempts + (if refused then [Actuation.STOP, Actuation.LOCK] else [])
  {
    var session := s.sessions[id];
    UnconfirmedFails(s.actuation, session.(cancelEvent := true), attempt, Actuation.Withheld);
    UnconfirmedFails(s.actuation, session, attempt, Actuation.Unconfirmed(attempt.failSafe));
    assert s.actuation.trace.attempts + [] == s.actuation.trace.attempts;
  }

  lemma WithheldOutcome(s: System, id: string, attempt: Attempt)
    requires id in s.sessions
    ensures var t := Completed(s, id, attempt, Actuation.Withheld);
            t.acted == s.acted && t.actuation.trace.attempts == s.actuation.trace.attempts
  {
    UnconfirmedFails(s.actuation, s.sessions[id], attempt, Actuation.Withheld);
    assert s.actuation.trace.attempts + [] == s.actuation.trace.attempts;
  }

  lemma PlainOutcome(s: System, id: string, attempt: Attempt)
    requires id in s.sessions ==> s.sessions[id].request.None?
    ensures Granting(s, id, attempt).acted == (if PlainActs(s, id, attempt) then s.acted + [id] else s.acted)
  {
  }

  lemma HardwareOutcome(s: System, id: string, attempt: Attempt)
    requires id in s.sessions && s.sessions[id].request.Some?
    ensures var t := Granting(s, id, attempt);
            && t.acted == s.acted
            && t.actuation.trace.attempts
               == s.actuation.trace.attempts + (if RefusedByLink(s, id, attempt) then [Actuation.STOP, Actuation.LOCK] else [])
  {
    assert s.actuation.trace.attempts + [] == s.actuation.trace.attempts;
    if s.waiting.None? && s.sessions[id].worker {
      var over := s.(sessions := s.sessions[id := s.sessions[id].(worker := false)]);
      if Reaches(s.actuation, s.sessions[id], attempt) {
        AskedOutcome(over, id, attempt);
      } else {
        WithheldOutcome(over, id, attempt);
      }
    }
  }

  /** What the end of a hardware grant makes of the actuation. */
  lemma SettleActuates(s: System)
    requires Safe(s) && Settles(s)
    ensures var (id, attempt) := (s.waiting.value.id, s.waiting.value.attempt);
            var (after, ok) := ActuatedUnderLock(s.actuation, s.sessions[id], attempt, Delivered(s));
            && (ok <==> Confirmed(s) && Saved(s.sessions[id], attempt))
            && after.trace.attempts
               == s.actuation.trace.attempts
                  + (if Confirmed(s) then CommandsOf(s.sessions[id], attempt) else [Actuation.STOP, Actuation.LOCK])
  {
    var (id, attempt) := (s.waiting.value.id, s.waiting.value.attempt);
    assert Reaches(Unnoticed(s.actuation), s.sessions[id], attempt) by {
      assert Inv(s);
    }
    if Confirmed(s) {
      AcknowledgedActs(Unnoticed(s.actuation), s.sessions[id], attempt);
    } else {
      UnconfirmedFails(Unnoticed(s.actuation), s.sessions[id], attempt, Delivered(s));
    }
  }

  lemma SettleOutcome(s: System)
    requires Safe(s) && Settles(s)
    ensures var t := Settling(s);
            var (id, attempt) := (s.waiting.value.id, s.waiting.value.attempt);
            var acts := Confirmed(s) && Saved(s.sessions[id], attempt);
            && t.acted == (if acts then s.acted + [id] else s.acted)
            && t.failed == (if acts then s.failed else s.failed + {s.link.link.pending.value.request.id})
            && t.actuation.trace.attempts
               == s.actuation.trace.attempts
                  + (if Confirmed(s) then CommandsOf(s.sessions[id], attempt) else [Actuation.STOP, Actuation.LOCK])
  {
    SettleActuates(s);
  }

  // ---- Cancellation ----

  /** `id` was issued, and it is gone or its state is Cancelled. */
  predicate Dead(s: System, id: string) {
    id in s.used && (id in s.sessions ==> s.sessions[id].state == Cancelled)
  }

  /** The step touches no session but `id`, takes back nothing that acted, and writes nothing to the wire. */
  predicate TouchesOnly(s: System, t: System, id: string, other: string) {
    && t.used == s.used && t.failed == s.failed && s.acted <= t.acted
    && t.link.toController == s.link.toController && t.link.accepted == s.link.accepted
    && (t.link.link.pending == s.link.link.pending || s.waiting.None?)
    && (other != id ==>
          && (other in t.sessions <==> other in s.sessions)
          && (other in s.sessions ==> t.sessions[other] == s.sessions[other])
          && (other in t.acted <==> other in s.acted))
  }

  lemma RecordTouches(s: System, id: string, after: Actuation.State, ok: bool, other: string)
    ensures TouchesOnly(s, Recorded(s, id, after, ok), id, other)
  {
  }

  lemma CompleteTouches(s: System, id: string, attempt: Attempt, delivery: Actuation.Delivery, other: string)
    requires id in s.sessions
    ensures TouchesOnly(s, Completed(s, id, attempt, delivery), id, other)
  {
    var (after, ok) := Actuated(s.actuation, s.sessions[id], attempt, delivery);
    RecordTouches(s, id, after, ok, other);
  }

  lemma AskTouches(s: System, id: string, attempt: Attempt, other: string)
    requires s.waiting.None? && id in s.sessions && s.sessions[id].request.Some?
    ensures TouchesOnly(s, Asked(s, id, attempt), id, other)
  {
    CompleteTouches(CancelRaised(s, id), id, attempt, Actuation.Withheld, other);
    CompleteTouches(s, id, attempt, Actuation.Unconfirmed(attempt.failSafe), other);
  }

  lemma PlainTouches(s: System, id: string, attempt: Attempt, other: string)
    requires id in s.sessions && s.sessions[id].request.None?
    ensures TouchesOnly(s, Granting(s, id, attempt), id, other)
  {
    var over := s.(sessions := s.sessions[id := s.sessions[id].(worker := false)]);
    CompleteTouches(over, id, attempt, if attempt.sent then Actuation.Sent else Actuation.NotSent, other);
  }

  lemma HardwareTouches(s: System, id: string, attempt: Attempt, other: string)
    requires s.waiting.None? && id in s.sessions && s.sessions[id].request.Some?
    ensures TouchesOnly(s, Granting(s, id, attempt), id, other)
  {
    var over := s.(sessions := s.sessions[id := s.sessions[id].(worker := false)]);
    if Reaches(s.actuation, s.sessions[id], attempt) {
      AskTouches(over, id, attempt, other);
    } else {
      CompleteTouches(over, id, attempt, Actuation.Withheld, other);
    }
  }

  lemma GrantTouches(s: System, id: string, attempt: Attempt, other: string)
    ensures TouchesOnly(s, Granting(s, id, attempt), id, other)
  {
    if s.waiting.None? && id in s.sessions {
      if s.sessions[id].request.None? {
        PlainTouches(s, id, attempt, other);
      } else {
        HardwareTouches(s, id, attempt, other);
      }
    }
  }

  lemma DeadAfterGrant(s: System, other: string, attempt: Attempt, id: string)
    requires Dead(s, id) && (id in s.sessions && s.sessions[id].worker ==> s.sessions[id].cancelEvent)
    ensures Dead(Granting(s, other, attempt), id)
    ensures id in Granting(s, other, attempt).acted <==> id in s.acted
  {
    if id != other {
      GrantTouches(s, other, attempt, id);
    }
  }

  lemma DeadAfterSettle(s: System, id: string)
    requires Safe(s) && Dead(s, id)
    ensures Dead(Settling(s), id)
    ensures id in Settling(s).acted <==> id in s.acted
  {
    if Settles(s) {
      SettleOutcome(s);
      FactsOf(s, s.waiting.value.id);
    }
  }

  lemma DeadStaysDead(s: System, e: Event, id: string)
    requires Safe(s) && Dead(s, id)
    ensures Dead(Next(s, e), id)
    ensures id in Next(s, e).acted <==> id in s.acted
  {
    if e.Settle? {
      DeadAfterSettle(s, id);
    } else if e.Grant? {
      if id in s.sessions {
        FactsOf(s, id);
      }
      DeadAfterGrant(s, e.id, e.attempt, id);
    }
  }

  lemma {:induction false} DeadForever(s: System, events: seq<Event>, id: string)
    requires Safe(s) && Dead(s, id)
    ensures Safe(Run(s, events)) && Dead(Run(s, events), id)
    ensures id in Run(s, events).acted <==> id in s.acted
    decreases |events|
  {
    if events != [] {
      var n := |events| - 1;
      DeadForever(s, events[..n], id);
      NextKeeps(Run(s, events[..n]), events[n]);
      DeadStaysDead(Run(s, events[..n]), events[n], id);
    }
  }

  /** `cancelled` is absorbing over every interleaving, and a session once seen cancelled never
      actuates afterwards: also not when it was cancelled while the controller was being asked. */
  lemma CancelledNeverActs(unlocked: bool, events: seq<Event>, later: seq<Event>, id: string)
    ensures var s := Run(Fresh(unlocked), events);
            var t := Run(s, later);
            id in s.sessions && s.sessions[id].state == Cancelled ==>
              && (id in t.sessions ==> t.sessions[id].state == Cancelled)
              && (id in t.acted <==> id in s.acted)
  {
    var s := Run(Fresh(unlocked), events);
    RunKeeps(unlocked, events);
    if id in s.sessions && s.sessions[id].state == Cancelled {
      FactsOf(s, id);
      DeadForever(s, later, id);
    }
  }

  // ---- Agreement with the controller ----

  /** No session ever actuates twice, and a session is reported as granted only if it did. (A worker
      thread makes one grant attempt: the `worker` flag is that thread.) */
  lemma GrantsAreSingle(unlocked: bool, events: seq<Event>)
    ensures var s := Run(Fresh(unlocked), events);
            && (forall i, j :: 0 <= i < j < |s.acted| ==> s.acted[i] != s.acted[j])
            && (forall id :: id in s.sessions && s.sessions[id].state == Granted ==> id in s.acted)
  {
    RunKeeps(unlocked, events);
    assert Inv(Run(Fresh(unlocked), events));
  }

  /** In every run of runtime, link, wire and controller: each hardware session that acted had its own
      request accepted by the controller, and no other session acted for that request. */
  lemma HardwareGrantsAgree(unlocked: bool, events: seq<Event>)
    ensures var s := Run(Fresh(unlocked), events);
            && (forall i :: 0 <= i < |s.acted| ==> s.acted[i] in s.used)
            && (forall i :: 0 <= i < |s.acted| && s.used[s.acted[i]].Some? ==>
                  Esp32.WasRead(s.link, s.used[s.acted[i]].value) && s.used[s.acted[i]].value.id in s.link.accepted)
            && (forall i, j :: 0 <= i < j < |s.acted| ==> Apart(s.used[s.acted[i]], s.used[s.acted[j]]))
  {
    var s := Run(Fresh(unlocked), events);
    RunKeeps(unlocked, events);
    assert Inv(s);
    forall i | 0 <= i < |s.acted| && s.used[s.acted[i]].Some?
      ensures s.used[s.acted[i]].value.id in s.link.accepted
    {
      Esp32.GrantedIsAccepted(s.link, s.used[s.acted[i]].value);
    }
  }

  /** The controller has accepted the request, and the connection it came on is the current one of a
      running link. */
  predicate AcceptedNow(w: Esp32.World, request: Esp32.Request) {
    request.id in w.accepted && Some(request.connection) == w.link.connection && !w.link.stopped
  }

  lemma SettleReports(s: System)
    requires Safe(s) && Settles(s)
    ensures var id := s.waiting.value.id;
            && s.sessions[id].request == Some(s.link.link.pending.value.request)
            && (Confirmed(s) ==> AcceptedNow(s.link, s.link.link.pending.value.request))
            && (Settling(s).sessions[id].state == Granted <==> Confirmed(s) && Saved(s.sessions[id], s.waiting.value.attempt))
  {
    assert Inv(s);
    FactsOf(s, s.waiting.value.id);
    SettleActuates(s);
    if Confirmed(s) {
      Esp32.EndIsFresh(s.link);
    }
  }

  /** A hardware session acts in no other step than the one that ends its wait. That step counts only if
      the controller has accepted the session's own request, on the connection that is still current,
      and no cancellation was raised; otherwise it attempts STOP and LOCK, and nothing else. */
  lemma HardwareGrantsAreAcknowledged(unlocked: bool, events: seq<Event>)
    requires Settles(Run(Fresh(unlocked), events))
    ensures var s := Run(Fresh(unlocked), events);
            var t := Next(s, Settle);
            var (id, attempt) := (s.waiting.value.id, s.waiting.value.attempt);
            && s.sessions[id].request == Some(s.link.link.pending.value.request)
            && (Confirmed(s) ==> AcceptedNow(s.link, s.link.link.pending.value.request) && !s.sessions[id].cancelEvent)
            && t.acted == (if Confirmed(s) && Saved(s.sessions[id], attempt) then s.acted + [id] else s.acted)
            && t.actuation.trace.attempts
               == s.actuation.trace.attempts
                  + (if Confirmed(s) then CommandsOf(s.sessions[id], attempt) else [Actuation.STOP, Actuation.LOCK])
            && (t.sessions[id].state == Granted <==> Confirmed(s) && Saved(s.sessions[id], attempt))
  {
    RunKeeps(unlocked, events);
    SettleOutcome(Run(Fresh(unlocked), events));
    SettleReports(Run(Fresh(unlocked), events));
  }

  /** Before that, the attempt of a hardware session acts never, and the one command that it may cause is
      the fail-safe lock that answers a refusal by the link. */
  lemma HardwareAttemptsOnlyReset(s: System, id: string, attempt: Attempt)
    requires id in s.sessions && s.sessions[id].request.Some?
    ensures var t := Next(s, Grant(id, attempt));
            && t.acted == s.acted
            && t.actuation.trace.attempts
               == s.actuation.trace.attempts + (if RefusedByLink(s, id, attempt) then [Actuation.STOP, Actuation.LOCK] else [])
  {
    HardwareOutcome(s, id, attempt);
  }

  /** Some session acted for the request. */
  ghost predicate ActedFor(s: System, request: string) {
    !NotActed(s, request)
  }

  /** Every AUTHORIZED that was written is answered for: its session acted, waits, or failed. */
  ghost predicate Answered(s: System) {
    forall r :: r in s.link.toController || r in s.link.accepted ==>
                  || ActedFor(s, r) || r in s.failed
                  || IsPending(s.link.link, r)
  }

  predicate IsPending(l: Esp32.Link, r: string) {
    l.pending.Some? && l.pending.value.request.id == r
  }

  lemma WireAnswers(w: Esp32.World, line: Esp32.Event, r: string)
    requires !line.End? && !line.Begin?
    ensures var v := Esp32.Next(w, line);
            && (r in v.toController || r in v.accepted ==> r in w.toController || r in w.accepted || IsPending(w.link, r))
            && (IsPending(w.link, r) ==> IsPending(v.link, r))
  {
  }

  lemma ActedForGrows(s: System, t: System, r: string)
    requires ActedFor(s, r) && s.acted <= t.acted
    requires forall id :: id in s.used ==> id in t.used && t.used[id] == s.used[id]
    ensures ActedFor(t, r)
  {
    var i :| 0 <= i < |s.acted| && s.acted[i] in s.used && s.used[s.acted[i]].Some? && s.used[s.acted[i]].value.id == r;
    assert t.acted[i] == s.acted[i];
  }

  /** A step that writes nothing to the wire, takes nothing back and leaves the link waiting. */
  lemma QuietAnswers(s: System, t: System)
    requires Answered(s) && s.acted <= t.acted && s.failed <= t.failed
    requires forall id :: id in s.used ==> id in t.used && t.used[id] == s.used[id]
    requires t.link.toController == s.link.toController && t.link.accepted == s.link.accepted
    requires forall r :: IsPending(s.link.link, r) ==> IsPending(t.link.link, r) || ActedFor(t, r) || r in t.failed
    ensures Answered(t)
  {
    forall r | r in t.link.toController || r in t.link.accepted
      ensures ActedFor(t, r) || r in t.failed || IsPending(t.link.link, r)
    {
      if ActedFor(s, r) {
        ActedForGrows(s, t, r);
      }
    }
  }

  lemma WiredAnswers(s: System, line: Esp32.Event)
    requires Answered(s)
    ensures Answered(Wired(s, line))
  {
    if !line.End? && !line.Begin? {
      var t := Wired(s, line);
      forall r | r in t.link.toController || r in t.link.accepted
        ensures ActedFor(t, r) || r in t.failed || IsPending(t.link.link, r)
      {
        WireAnswers(s.link, line, r);
        if ActedFor(s, r) {
          ActedForGrows(s, t, r);
        }
      }
    }
  }

  lemma SettleWritesNothing(s: System)
    requires Settles(s)
    ensures var t := Settling(s);
            && t.used == s.used && s.acted <= t.acted && s.failed <= t.failed
            && t.link.toController == s.link.toController && t.link.accepted == s.link.accepted
  {
  }

  lemma SettleAnswersItsOwn(s: System)
    requires Safe(s) && Settles(s)
    ensures var r := s.link.link.pending.value.request.id;
            ActedFor(Settling(s), r) || r in Settling(s).failed
  {
    var t := Settling(s);
    SettleOutcome(s);
    FactsOf(s, s.waiting.value.id);
    SettleReports(s);
    if t.acted != s.acted {
      assert t.acted[|s.acted|] == s.waiting.value.id;
    }
  }

  lemma SettleAnswers(s: System)
    requires Safe(s) && Answered(s)
    ensures Answered(Settling(s))
  {
    if Settles(s) {
      SettleWritesNothing(s);
      SettleAnswersItsOwn(s);
      QuietAnswers(s, Settling(s));
    }
  }

  lemma GrantAnswers(s: System, id: string, attempt: Attempt)
    requires Safe(s) && Answered(s)
    ensures Answered(Granting(s, id, attempt))
  {
    GrantTouches(s, id, attempt, id);
    assert s.waiting.None? ==> s.link.link.pending.None? by {
      assert Inv(s);
    }
    QuietAnswers(s, Granting(s, id, attempt));
  }

  lemma BookkeepingIsQuiet(s: System, e: Event)
    requires !e.Grant? && !e.Settle? && !e.Wire? && !e.Elsewhere?
    ensures var t := Next(s, e);
            && t.acted == s.acted && t.failed == s.failed && t.link == s.link
            && (forall id :: id in s.used ==> id in t.used && t.used[id] == s.used[id])
  {
    match e
    case Finish(id, final) =>
    case Release(id) =>
    case RevokeIgnition =>
    case _ =>
  }

  lemma NextAnswers(s: System, e: Event)
    requires Safe(s) && Answered(s)
    ensures Answered(Next(s, e))
  {
    match e
    case Grant(id, attempt) => GrantAnswers(s, id, attempt);
    case Settle => SettleAnswers(s);
    case Wire(line) => WiredAnswers(s, line);
    case Elsewhere(event) => QuietAnswers(s, Actuating(s, event));
    case _ =>
      BookkeepingIsQuiet(s, e);
      QuietAnswers(s, Next(s, e));
  }

  lemma {:induction false} RunAnswers(unlocked: bool, events: seq<Event>)
    ensures Answered(Run(Fresh(unlocked), events))
    decreases |events|
  {
    if events != [] {
      RunAnswers(unlocked, events[..|events| - 1]);
      RunKeeps(unlocked, events[..|events| - 1]);
      NextAnswers(Run(Fresh(unlocked), events[..|events| - 1]), events[|events| - 1]);
    }
  }

  /** No action that the controller may have started goes unnoticed: for each AUTHORIZED ever written, its
      session acted, still waits, or failed; and it fails only in a step that ends with a LOCK. */
  lemma NoAuthorizationIsLost(unlocked: bool, events: seq<Event>, e: Event)
    ensures var s := Run(Fresh(unlocked), events);
            && (forall r :: r in s.link.toController || r in s.link.accepted ==>
                  ActedFor(s, r) || r in s.failed || (s.waiting.Some? && IsPending(s.link.link, r)))
            && (Next(s, e).failed != s.failed ==>
                  && Settles(s) && Next(s, e).failed == s.failed + {s.link.link.pending.value.request.id}
                  && s.actuation.trace.attempts < Next(s, e).actuation.trace.attempts
                  && LastIsLock(Next(s, e).actuation.trace.attempts))
  {
    var s := Run(Fresh(unlocked), events);
    RunKeeps(unlocked, events);
    RunAnswers(unlocked, events);
    assert s.waiting.Some? <==> s.link.link.pending.Some? by {
      assert Inv(s);
    }
    FailuresEndLocked(s, e);
  }

  predicate LastIsLock(commands: seq<Actuation.Command>) {
    commands != [] && commands[|commands| - 1] == Actuation.LOCK
  }

  lemma FailuresEndLocked(s: System, e: Event)
    requires Safe(s)
    ensures Next(s, e).failed != s.failed ==>
              && Settles(s) && Next(s, e).failed == s.failed + {s.link.link.pending.value.request.id}
              && s.actuation.trace.attempts < Next(s, e).actuation.trace.attempts
              && LastIsLock(Next(s, e).actuation.trace.attempts)
  {
    match e
    case Settle =>
      if Settles(s) {
        SettleOutcome(s);
      }
    case Grant(id, attempt) => GrantTouches(s, id, attempt, id);
    case _ =>
  }

  // ---- The authority a scan was requested under ----

  lemma ActuatedEvolves(a: Actuation.State, session: Session, attempt: Attempt, delivery: Actuation.Delivery)
    ensures Actuation.Evolves(a, Actuated(a, session, attempt, delivery).0)
  {
    Actuation.UnlockEvolves(a, attempt.user, attempt.userId, attempt.seconds, session.bound,
                            Actuation.UnlockPlan(attempt.timerStarts, delivery, attempt.write, attempt.compensation));
    Actuation.StartEvolves(a, attempt.seconds, Actuation.IgnitionPlan(attempt.readable, attempt.timerStarts, delivery));
  }

  lemma UnderLockEvolves(a: Actuation.State, session: Session, attempt: Attempt, delivery: Actuation.Delivery)
    requires Reaches(Unnoticed(a), session, attempt)
    ensures Actuation.Evolves(a, ActuatedUnderLock(a, session, attempt, delivery).0)
  {
    ActuatedEvolves(Unnoticed(a), session, attempt, delivery);
  }

  lemma CompleteEvolves(s: System, id: string, attempt: Attempt, delivery: Actuation.Delivery)
    requires id in s.sessions
    ensures Actuation.Evolves(s.actuation, Completed(s, id, attempt, delivery).actuation)
  {
    ActuatedEvolves(s.actuation, s.sessions[id], attempt, delivery);
  }

  lemma AskEvolves(s: System, id: string, attempt: Attempt)
    requires id in s.sessions && s.sessions[id].request.Some?
    ensures Actuation.Evolves(s.actuation, Asked(s, id, attempt).actuation)
  {
    if attempt.cancelledEarly {
      CompleteEvolves(CancelRaised(s, id), id, attempt, Actuation.Withheld);
    } else {
      CompleteEvolves(s, id, attempt, Actuation.Unconfirmed(attempt.failSafe));
    }
  }

  lemma PlainEvolves(s: System, id: string, attempt: Attempt)
    requires id in s.sessions && s.sessions[id].request.None?
    ensures Actuation.Evolves(s.actuation, Granting(s, id, attempt).actuation)
  {
    var over := s.(sessions := s.sessions[id := s.sessions[id].(worker := false)]);
    CompleteEvolves(over, id, attempt, if attempt.sent then Actuation.Sent else Actuation.NotSent);
  }

  lemma HardwareEvolves(s: System, id: string, attempt: Attempt)
    requires id in s.sessions && s.sessions[id].request.Some?
    ensures Actuation.Evolves(s.actuation, Granting(s, id, attempt).actuation)
  {
    var over := s.(sessions := s.sessions[id := s.sessions[id].(worker := false)]);
    if Reaches(s.actuation, s.sessions[id], attempt) {
      AskEvolves(over, id, attempt);
    } else {
      CompleteEvolves(over, id, attempt, Actuation.Withheld);
    }
  }

  lemma GrantEvolves(s: System, id: string, attempt: Attempt)
    ensures Actuation.Evolves(s.actuation, Granting(s, id, attempt).actuation)
  {
    if id in s.sessions {
      if s.sessions[id].request.None? {
        PlainEvolves(s, id, attempt);
      } else {
        HardwareEvolves(s, id, attempt);
      }
    }
  }

  lemma SettleEvolves(s: System)
    requires Safe(s)
    ensures Actuation.Evolves(s.actuation, Settling(s).actuation)
  {
    if Settles(s) {
      var w := s.waiting.value;
      assert Reaches(Unnoticed(s.actuation), s.sessions[w.id], w.attempt) by {
        assert Inv(s);
      }
      UnderLockEvolves(s.actuation, s.sessions[w.id], w.attempt, Delivered(s));
    }
  }

  lemma NextEvolves(s: System, e: Event)
    requires Safe(s)
    ensures Actuation.Evolves(s.actuation, Next(s, e).actuation)
  {
    match e
    case Grant(id, attempt) => GrantEvolves(s, id, attempt);
    case Settle => SettleEvolves(s);
    case Elsewhere(event) => Actuation.NextEvolves(s.actuation, event);
    case _ =>
  }

  /** An actuation event from outside the scans, revoking every earlier decision. */
  predicate RevokedBy(s: System, e: Event) {
    e.Elsewhere? && s.waiting.None? && Actuation.Revokes(s.actuation, e.event)
  }

  predicate Unrevoked(s: System, events: seq<Event>)
    decreases |events|
  {
    events == [] ||
    (Unrevoked(s, events[..|events| - 1]) && !RevokedBy(Run(s, events[..|events| - 1]), events[|events| - 1]))
  }

  lemma RevokingMoves(s: System, e: Event)
    requires Safe(s) && Next(s, e).actuation.generation == s.actuation.generation
    ensures !RevokedBy(s, e)
  {
    if e.Elsewhere? {
      Actuation.GenerationMovesExactly(s.actuation, e.event);
    }
  }

  lemma {:induction false} SameGeneration(s: System, events: seq<Event>)
    requires Safe(s)
    ensures Safe(Run(s, events))
    ensures s.actuation.generation <= Run(s, events).actuation.generation
    ensures s.actuation.generation == Run(s, events).actuation.generation ==>
              Unrevoked(s, events) && Actuation.SameAuthority(s.actuation, Run(s, events).actuation)
    decreases |events|
  {
    if events != [] {
      var n := |events| - 1;
      var t := Run(s, events[..n]);
      SameGeneration(s, events[..n]);
      NextKeeps(t, events[n]);
      NextEvolves(t, events[n]);
      if s.actuation.generation == Next(t, events[n]).actuation.generation {
        RevokingMoves(t, events[n]);
      }
    }
  }

  lemma ActsAtItsGeneration(s: System, e: Event)
    requires Safe(s) && Next(s, e).acted != s.acted
    ensures var u := Next(s, e);
            && |u.acted| == |s.acted| + 1 && s.acted <= u.acted
            && var id := u.acted[|s.acted|];
               && id in s.sessions && s.sessions[id].bound == s.actuation.generation && !s.sessions[id].cancelEvent
               && id in u.sessions && u.sessions[id].state == Granted
  {
    if e.Grant? {
      PlainActsOnce(s, e.id, e.attempt);
    } else {
      SettleOutcome(s);
      SettleReports(s);
      assert Inv(s);
    }
  }

  lemma PlainActsOnce(s: System, id: string, attempt: Attempt)
    requires Safe(s) && Granting(s, id, attempt).acted != s.acted
    ensures PlainActs(s, id, attempt)
    ensures var u := Granting(s, id, attempt);
            u.acted == s.acted + [id] && id in u.sessions && u.sessions[id].state == Granted
  {
    if id in s.sessions && s.sessions[id].request.Some? {
      HardwareOutcome(s, id, attempt);
    } else {
      PlainOutcome(s, id, attempt);
      FactsOf(s, id);
    }
  }

  /** A scan requested at `s` acts later, in whatever step, only if nothing revoked it meanwhile: since
      `s`, no unlock succeeded, no LOCK was attempted, the owner is the same, no maintenance ended, and no
      event from elsewhere revoked anything. */
  lemma GrantsBindToTheRequest(unlocked: bool, before: seq<Event>, events: seq<Event>, e: Event)
    ensures var s := Run(Fresh(unlocked), before);
            var t := Run(s, events);
            var u := Next(t, e);
            u.acted != t.acted ==>
              && |u.acted| == |t.acted| + 1 && t.acted <= u.acted
              && var id := u.acted[|t.acted|];
                 && id in t.sessions && !t.sessions[id].cancelEvent
                 && id in u.sessions && u.sessions[id].state == Granted
                 && (t.sessions[id].bound == s.actuation.generation ==>
                       Unrevoked(s, events) && Actuation.SameAuthority(s.actuation, t.actuation))
  {
    var s := Run(Fresh(unlocked), before);
    RunKeeps(unlocked, before);
    SameGeneration(s, events);
    var t := Run(s, events);
    if Next(t, e).acted != t.acted {
      ActsAtItsGeneration(t, e);
    }
  }

  // ---- The runtime ----

  class ScanRuntime {
    var sessions: map<string, Session>
    var activeSessionId: Option<string>
    var closed: bool
    var paused: bool
    var maintenanceDrained: bool
    var waiting: Option<Waiting>       // the frame of the grant that is inside the link's authorize
    const actuation: Actuation.RuntimeActuation
    const link: Esp32.Esp32Link
    ghost var world: Esp32.World       // wire and controller around the link
    ghost var used: map<string, Option<Esp32.Request>>
    ghost var acted: seq<string>
    ghost var failed: set<string>

    ghost function View(): System
      reads this, actuation, link
    {
      System(sessions, activeSessionId, closed, paused, maintenanceDrained, actuation.View(),
             world.(link := link.View()), waiting, used, acted, failed)
    }

    constructor (unlocked: bool)
      ensures View() == Fresh(unlocked) && fresh(actuation) && fresh(link)
    {
      sessions, activeSessionId, closed, paused, maintenanceDrained := map[], None, false, false, false;
      waiting, world, used, acted, failed := None, Esp32.Started(), map[], [], {};
      actuation := new Actuation.RuntimeActuation(unlocked);
      link := new Esp32.Esp32Link();
    }

    /** Session IDs are fresh UUIDs, so a new one was never issued before. */
    method NewSession(id: string, purpose: Purpose, request: Option<Esp32.Request>, bound: nat) returns (created: bool)
      requires id !in used && MayOpen(View(), request)
      modifies this
      ensures View() == Opened(old(View()), id, purpose, request, bound)
      ensures created <==> !old(closed) && !old(paused) && !Busy(old(View()))
    {
      if closed || paused {
        return false;
      }
      if activeSessionId.Some? && activeSessionId.value in sessions {
        return false;
      }
      sessions := sessions[id := Session(purpose, request, bound, Running, false, true)];
      activeSessionId := Some(id);
      used := used[id := request];
      return true;
    }

    method Cancel(id: string)
      modifies this`sessions
      ensures View() == Cancelling(old(View()), id)
    {
      if id in sessions && sessions[id].state == Running {
        sessions := sessions[id := sessions[id].(cancelEvent := true, state := Cancelled)];
      }
    }

    /** cancel_esp32_scan: the event is raised before the actuation lock is taken. */
    method RaiseCancelEvent(id: string)
      modifies this`sessions
      ensures View() == CancelRaised(old(View()), id)
    {
      if id in sessions {
        sessions := sessions[id := sessions[id].(cancelEvent := true)];
      }
    }

    method Finish(id: string, final: Progress)
      modifies this`sessions
      ensures View() == Finished(old(View()), id, final)
    {
      if id !in sessions || sessions[id].state == Cancelled || final == Running || final == Cancelled {
        return;
      }
      sessions := sessions[id := sessions[id].(state := final)];
    }

    method ReleaseSession(id: string)
      modifies this`sessions, this`activeSessionId
      ensures View() == Freed(old(View()), id)
    {
      if waiting.Some? && waiting.value.id == id {
        return;
      }
      if activeSessionId == Some(id) {
        activeSessionId := None;
      }
      if id in sessions {
        var session := sessions[id];
        if session.state == Running {
          session := session.(state := Cancelled);
        }
        sessions := sessions[id := session.(worker := false)];
      }
    }

    method RemoveSession(id: string)
      modifies this`sessions
      ensures View() == Removed(old(View()), id)
    {
      if activeSessionId != Some(id) && !(waiting.Some? && waiting.value.id == id) {
        sessions := sessions - {id};
      }
    }

    method RevokeActiveIgnition()
      modifies this`sessions
      ensures View() == IgnitionRevoked(old(View()))
    {
      if activeSessionId.Some? && activeSessionId.value in sessions {
        var session := sessions[activeSessionId.value];
        if session.purpose == IgnitionPurpose && session.state == Running {
          Cancel(activeSessionId.value);
        }
      }
    }

    method Close()
      modifies this`closed
      ensures View() == old(View()).(closed := true)
    {
      closed := true;
    }

    /** quiesce, before the sessions are cancelled. */
    method Pause()
      modifies this`paused, this`maintenanceDrained
      ensures View() == Paused(old(View()))
    {
      if closed || (paused && maintenanceDrained) {
        return;
      }
      paused := true;
      maintenanceDrained := false;
    }

    /** quiesce, after camera, workers and timers were waited for. */
    method Drain(clean: bool)
      modifies this`activeSessionId, this`maintenanceDrained
      ensures View() == Drained(old(View()), clean)
    {
      if paused {
        activeSessionId := None;
        maintenanceDrained := clean && waiting.None? && !(exists id :: id in sessions && sessions[id].worker);
      }
    }

    method ResumeAfterMaintenance()
      modifies this`sessions, this`activeSessionId, this`paused, this`maintenanceDrained
      ensures View() == Resumed(old(View()))
    {
      if closed || !paused || !maintenanceDrained {
        return;
      }
      sessions := map[];
      activeSessionId := None;
      paused := false;
      maintenanceDrained := false;
    }

    method Actuate(session: Session, attempt: Attempt, delivery: Actuation.Delivery) returns (ok: bool)
      modifies actuation
      ensures (actuation.View(), ok) == Actuated(old(actuation.View()), session, attempt, delivery)
    {
      var r: Result<(), Actuation.Error>;
      match session.purpose {
      case UnlockPurpose =>
        r := actuation.Unlock(attempt.user, attempt.userId, attempt.seconds, session.bound,
                              Actuation.UnlockPlan(attempt.timerStarts, delivery, attempt.write, attempt.compensation));
      case IgnitionPurpose =>
        r := actuation.SetIgnition(true, attempt.seconds, false, Some(session.bound),
                                   Actuation.IgnitionPlan(attempt.readable, attempt.timerStarts, delivery));
      }
      return r.Success?;
    }

    /** The unlock or start looked at the request for maintenance before it called back. */
    method ActuateUnderLock(session: Session, attempt: Attempt, delivery: Actuation.Delivery) returns (ok: bool)
      modifies actuation
      ensures (actuation.View(), ok) == ActuatedUnderLock(old(actuation.View()), session, attempt, delivery)
    {
      var requested := actuation.maintenanceRequested;
      actuation.maintenanceRequested := false;
      ok := Actuate(session, attempt, delivery);
      actuation.maintenanceRequested := requested;
    }

    predicate CallbackReached(session: Session, attempt: Attempt)
      reads actuation
      ensures CallbackReached(session, attempt) == Reaches(actuation.View(), session, attempt)
    {
      match session.purpose
      case UnlockPurpose => actuation.WouldUnlock(attempt.seconds, session.bound, attempt.timerStarts)
      case IgnitionPurpose => actuation.WouldStart(attempt.seconds, Some(session.bound), attempt.readable, attempt.timerStarts)
    }

    method Record(id: string, ok: bool)
      modifies this`sessions, this`acted
      ensures View() == Recorded(old(View()), id, actuation.View(), ok)
    {
      if ok {
        acted := acted + [id];
        Finish(id, Granted);
      } else {
        Finish(id, Errored);
      }
    }

    method Complete(id: string, attempt: Attempt, delivery: Actuation.Delivery)
      requires id in sessions
      modifies this`sessions, this`acted, actuation
      ensures View() == Completed(old(View()), id, attempt, delivery)
    {
      var ok := Actuate(sessions[id], attempt, delivery);
      Record(id, ok);
    }

    /** _authorize_hardware_scan, up to the wait for the acknowledgement. */
    method AskLink(id: string, attempt: Attempt)
      requires id in sessions && sessions[id].request.Some?
      modifies this`sessions, this`acted, this`waiting, actuation, link
      ensures View() == Asked(old(View()), id, attempt)
    {
      if attempt.cancelledEarly {
        RaiseCancelEvent(id);
        Complete(id, attempt, Actuation.Withheld);
        return;
      }
      var installed := link.BeginAuthorize(sessions[id].request.value);
      if !installed {
        Complete(id, attempt, Actuation.Unconfirmed(attempt.failSafe));
        return;
      }
      waiting := Some(Waiting(id, attempt));
    }

    /** The worker's one grant attempt. It holds the actuation lock throughout; an attempt of a hardware
        scan that reaches the link stays in it until SettleGrant. */
    method GrantScan(id: string, attempt: Attempt)
      modifies this`sessions, this`acted, this`waiting, actuation, link
      ensures View() == Granting(old(View()), id, attempt)
    {
      if waiting.Some? || id !in sessions || !sessions[id].worker {
        return;
      }
      var session := sessions[id];
      sessions := sessions[id := session.(worker := false)];
      if session.cancelEvent || closed {
        return;
      }
      if attempt.denied || session.bound != actuation.generation {
        Finish(id, Denied);
      } else if session.request.None? {
        Complete(id, attempt, if attempt.sent then Actuation.Sent else Actuation.NotSent);
      } else if !CallbackReached(session, attempt) {
        Complete(id, attempt, Actuation.Withheld);
      } else {
        AskLink(id, attempt);
      }
    }

    /** The last section of the link's authorize. */
    method LeaveLink() returns (authorized: bool)
      requires link.pending.Some? && link.pending.value.sent.Some?
      modifies this`waiting, this`world, link
      ensures View() == Left(old(View()))
      ensures authorized == Esp32.Ended(old(link.View())).1
    {
      ghost var request := link.pending.value.request;
      authorized := link.EndAuthorize();
      world := if authorized then world.(granted := world.granted + [request]) else world;
      waiting := None;
    }

    method CloseGrant(w: Waiting, delivery: Actuation.Delivery, ghost request: string)
      requires w.id in sessions
      modifies this`sessions, this`acted, this`failed, actuation
      ensures View() == Closing(old(View()), w, delivery, request)
    {
      var ok := ActuateUnderLock(sessions[w.id], w.attempt, delivery);
      failed := if ok then failed else failed + {request};
      Record(w.id, ok);
    }

    /** The rest of the attempt, once the reply was written and the wait is over: the callback returns, and
        the unlock or start inside which it was called completes. */
    method SettleGrant()
      modifies this`sessions, this`acted, this`waiting, this`world, this`failed, actuation, link
      ensures View() == Settling(old(View()))
    {
      if waiting.None? || waiting.value.id !in sessions || link.pending.None? || link.pending.value.sent.None? {
        return;
      }
      var w, cancelled := waiting.value, sessions[waiting.value.id].cancelEvent;
      ghost var request := link.pending.value.request.id;
      var authorized := LeaveLink();
      CloseGrant(w, if authorized && !cancelled then Actuation.Acknowledged else Actuation.Unconfirmed(w.attempt.failSafe), request);
    }
  }
}
