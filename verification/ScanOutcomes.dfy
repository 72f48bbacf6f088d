/** What becomes of a scan: what one attempt, one cancellation and the end of a runtime do to its
    sessions, and that an undisturbed scan, plain or from the controller, takes effect. */
module ScanOutcomes {
  import opened Outcomes
  import Actuation
  import Esp32
  import opened ScanSessions

  // ---- A session opens ----

  /** A scan is taken on exactly while the runtime is open and running, no other session is active, and its
      name is new; a scan for the controller also needs a request that the link read on that connection.
      It then runs, alone, with one attempt to make. */
  lemma NewScanExactly(s: System, id: string, purpose: Purpose, request: Option<Esp32.Request>, bound: nat)
    requires Safe(s)
    ensures var t := Next(s, NewScan(id, purpose, request, bound));
            var free := s.active.None? || s.active.value !in s.sessions;
            var read := request.Some? ==> request.value.id in s.link.read && s.link.read[request.value.id] == request.value.connection;
            && (id in t.used && id !in s.used <==> id !in s.used && !s.closed && !s.paused && free && read)
            && (t == s || (id !in s.used && id in t.sessions && t.active == Some(id)
                           && t.sessions[id] == Session(purpose, request, bound, Running, false, true)))
            && (forall other :: other != id ==> (other in t.sessions <==> other in s.sessions)
                                                && (other in s.sessions ==> t.sessions[other] == s.sessions[other]))
            && t.actuation == s.actuation && t.acted == s.acted
  {
    assert Inv(s);
  }

  // ---- A cancellation ----

  /** While no grant waits, cancelling a running session makes it cancelled and raises its event, whatever
      else it is doing; a session that is over keeps its state, and no other session is touched. */
  lemma CancelExactly(s: System, id: string)
    requires s.waiting.None?
    ensures var t := Next(s, Cancel(id));
            && t.sessions.Keys == s.sessions.Keys
            && (id in s.sessions && s.sessions[id].state == Running ==>
                  t.sessions[id].state == Cancelled && t.sessions[id].cancelEvent)
            && (id in s.sessions && s.sessions[id].state != Running ==> t.sessions[id] == s.sessions[id])
            && (forall other :: other in s.sessions && other != id ==> t.sessions[other] == s.sessions[other])
            && t.actuation == s.actuation && t.acted == s.acted && t.link == s.link
  {
  }

  /** So a cancellation holds, over every run: a running session that was cancelled while no grant waited
      never acts, and is cancelled for as long as it is kept. */
  lemma CancelHolds(unlocked: bool, events: seq<Event>, later: seq<Event>, id: string)
    ensures var s := Run(Fresh(unlocked), events);
            var t := Run(Next(s, Cancel(id)), later);
            s.waiting.None? && id in s.sessions && s.sessions[id].state == Running ==>
              && (id in t.sessions ==> t.sessions[id].state == Cancelled)
              && (id in t.acted <==> id in s.acted)
  {
    var s := Run(Fresh(unlocked), events);
    if s.waiting.None? {
      CancelExactly(s, id);
    }
    var all := events + [Cancel(id)];
    assert all[..|all| - 1] == events;
    CancelledNeverActs(unlocked, all, later, id);
  }

  /** A session that is raised while the controller is asked is not granted: the wait ends in STOP and LOCK. */
  lemma RaisedWhileWaiting(s: System)
    requires Safe(s) && s.waiting.Some?
    ensures var id := s.waiting.value.id;
            var t := Next(s, RaiseCancel(id));
            && id in t.sessions && t.sessions[id].cancelEvent
            && (Settles(t) ==>
                  && Settling(t).acted == s.acted
                  && Settling(t).actuation.trace.attempts == s.actuation.trace.attempts + [Actuation.STOP, Actuation.LOCK])
  {
    assert Inv(s);
    var id := s.waiting.value.id;
    var t := Next(s, RaiseCancel(id));
    CancelKeeps(s, id);
    if Settles(t) {
      SettleOutcome(t);
    }
  }

  // ---- An attempt of a plain scan ----

  /** The worker's one attempt is used up. A cancelled or closed scan does nothing else; a refused match, or
      one whose authority has moved, is denied without a command. */
  lemma BlockedAttempt(s: System, id: string, attempt: Attempt)
    requires Safe(s) && s.waiting.None? && id in s.sessions && s.sessions[id].worker
    requires s.sessions[id].cancelEvent || s.closed || attempt.denied || s.sessions[id].bound != s.actuation.generation
    ensures var t := Next(s, Grant(id, attempt));
            && t.actuation == s.actuation && t.acted == s.acted && t.link == s.link && t.waiting.None?
            && t.sessions[id] == s.sessions[id].(worker := false, state := t.sessions[id].state)
            && t.sessions[id].state == (if s.sessions[id].cancelEvent || s.closed then s.sessions[id].state else Denied)
  {
    FactsOf(s, id);
  }

  /** Otherwise the scan unlocks, or starts the engine, exactly when the command goes out, its timer can
      start, the service is not in maintenance and the result is saved; and it is reported so. */
  lemma PlainUnlockExactly(s: System, id: string, attempt: Attempt)
    requires Safe(s) && s.waiting.None? && id in s.sessions && s.sessions[id].worker && s.sessions[id].request.None?
    requires !s.sessions[id].cancelEvent && !s.closed && !attempt.denied && s.sessions[id].bound == s.actuation.generation
    requires s.sessions[id].purpose == UnlockPurpose
    ensures var t := Next(s, Grant(id, attempt));
            var works := !s.actuation.InMaintenance() && (attempt.seconds <= 0 || attempt.timerStarts) && attempt.sent && attempt.write.Stored?;
            && t.acted == (if works then s.acted + [id] else s.acted)
            && t.sessions[id].state == (if works then Granted else Errored) && !t.sessions[id].worker
            && (works ==> t.actuation.unlocked && t.actuation.owner == Some(attempt.user) && t.actuation.ownerId == attempt.userId)
  {
    FactsOf(s, id);
    Actuation.UnlockExactly(s.actuation, attempt.user, attempt.userId, attempt.seconds, s.sessions[id].bound,
                            Actuation.UnlockPlan(attempt.timerStarts, if attempt.sent then Actuation.Sent else Actuation.NotSent,
                                                 attempt.write, attempt.compensation));
  }

  lemma PlainStartExactly(s: System, id: string, attempt: Attempt)
    requires Safe(s) && s.waiting.None? && id in s.sessions && s.sessions[id].worker && s.sessions[id].request.None?
    requires !s.sessions[id].cancelEvent && !s.closed && !attempt.denied && s.sessions[id].bound == s.actuation.generation
    requires s.sessions[id].purpose == IgnitionPurpose && !s.actuation.ignitionOn
    ensures var t := Next(s, Grant(id, attempt));
            var a := s.actuation;
            var works := !a.InMaintenance() && a.owner.Some? && a.owner.value != "" && attempt.readable && a.unlocked
                         && (attempt.seconds <= 0 || attempt.timerStarts) && attempt.sent;
            && t.acted == (if works then s.acted + [id] else s.acted)
            && t.sessions[id].state == (if works then Granted else Errored) && !t.sessions[id].worker
            && (t.actuation.ignitionOn <==> works)
  {
    FactsOf(s, id);
    Actuation.StartExactly(s.actuation, attempt.seconds, Some(s.sessions[id].bound),
                           Actuation.IgnitionPlan(attempt.readable, attempt.timerStarts,
                                                  if attempt.sent then Actuation.Sent else Actuation.NotSent));
  }

  // ---- An undisturbed scan for the controller ----

  /** The attempt of a scan for the controller holds the lock and waits exactly when it is not blocked, the
      command could go out, no cancellation came first, and the link is running on the request's
      connection, idle, and has not been told that the request is cancelled. */
  lemma HardwareWaitsExactly(s: System, id: string, attempt: Attempt)
    requires Safe(s) && s.waiting.None? && id in s.sessions && s.sessions[id].worker && s.sessions[id].request.Some?
    ensures var t := Next(s, Grant(id, attempt));
            var r := s.sessions[id].request.value;
            && (t.waiting == Some(Waiting(id, attempt)) <==>
                  && !s.sessions[id].cancelEvent && !s.closed && !attempt.denied && s.sessions[id].bound == s.actuation.generation
                  && Reaches(s.actuation, s.sessions[id], attempt) && !attempt.cancelledEarly
                  && !s.link.link.stopped && s.link.link.connection == Some(r.connection) && s.link.link.pending.None?
                  && s.link.link.cancelledRequestId != Some(r.id))
            && (t.waiting.Some? ==>
                  && t == s.(sessions := t.sessions, link := t.link, waiting := t.waiting)
                  && t.sessions == s.sessions[id := s.sessions[id].(worker := false)]
                  && t.link == s.link.(link := s.link.link.(pending := Some(Esp32.Pending(r, None, None, false, false)))))
  {
  }

  /** The rest of the handshake: the reply is checked and written, the controller takes it, and its
      acknowledgement is read. */
  function Shaken(s: System, r: Esp32.Request): System {
    Next(Next(Next(Next(s, Wire(Esp32.Check)), Wire(Esp32.Reply(Esp32.Written))), Wire(Esp32.ControllerReads(r.id))),
         Wire(Esp32.PiReads(Esp32.Ack(r.id), r.connection)))
  }

  lemma ShakenConfirms(s: System, r: Esp32.Request)
    requires s.link.link.pending == Some(Esp32.Pending(r, None, None, false, false))
    requires s.link.link.connection == Some(r.connection) && !s.link.link.stopped
    requires s.link.waiting == Some(r.id) && r.connection < s.link.nextConnection
    ensures var t := Shaken(s, r);
            && t == s.(link := t.link) && t.link.granted == s.link.granted
            && t.link.link == s.link.link.(pending := Some(Esp32.Pending(r, Some(true), Some(true), true, true)))
  {
    Esp32.HandshakeAccepts(s.link, r);
  }

  /** An undisturbed scan for the controller takes effect: the attempt waits, the handshake runs, and the
      settled grant unlocks the car, or starts the engine, and is reported so. */
  lemma UndisturbedGrantActs(s: System, id: string, attempt: Attempt)
    requires Safe(s) && s.waiting.None? && id in s.sessions && s.sessions[id].worker && s.sessions[id].request.Some?
    requires !s.sessions[id].cancelEvent && !s.closed && !attempt.denied && s.sessions[id].bound == s.actuation.generation
    requires Reaches(s.actuation, s.sessions[id], attempt) && !attempt.cancelledEarly
    requires s.sessions[id].purpose == UnlockPurpose ==> attempt.write.Stored?
    requires var r := s.sessions[id].request.value;
             && !s.link.link.stopped && s.link.link.connection == Some(r.connection) && s.link.link.pending.None?
             && s.link.link.cancelledRequestId != Some(r.id)
             && s.link.waiting == Some(r.id) && r.connection < s.link.nextConnection
    ensures var r := s.sessions[id].request.value;
            var t := Next(Shaken(Next(s, Grant(id, attempt)), r), Settle);
            && t.acted == s.acted + [id] && t.waiting.None? && t.link.granted == s.link.granted + [r]
            && id in t.sessions && t.sessions[id].state == Granted && t.failed == s.failed
            && t.actuation.trace.attempts == s.actuation.trace.attempts
                  + [if s.sessions[id].purpose == UnlockPurpose then Actuation.UNLOCK else Actuation.START]
  {
    var r := s.sessions[id].request.value;
    var waiting := Next(s, Grant(id, attempt));
    var shaken := Shaken(waiting, r);
    HardwareWaitsExactly(s, id, attempt);
    ShakenConfirms(waiting, r);
    NextKeeps(s, Grant(id, attempt));
    ShakenKeeps(waiting, r);
    ConfirmedSettles(shaken, id, attempt, r);
  }

  lemma ShakenKeeps(s: System, r: Esp32.Request)
    requires Safe(s)
    ensures Safe(Shaken(s, r))
  {
    var a := Next(s, Wire(Esp32.Check));
    NextKeeps(s, Wire(Esp32.Check));
    var b := Next(a, Wire(Esp32.Reply(Esp32.Written)));
    NextKeeps(a, Wire(Esp32.Reply(Esp32.Written)));
    var c := Next(b, Wire(Esp32.ControllerReads(r.id)));
    NextKeeps(b, Wire(Esp32.ControllerReads(r.id)));
    NextKeeps(c, Wire(Esp32.PiReads(Esp32.Ack(r.id), r.connection)));
  }

  lemma ConfirmedSettles(s: System, id: string, attempt: Attempt, r: Esp32.Request)
    requires Safe(s) && s.waiting == Some(Waiting(id, attempt)) && id in s.sessions && !s.sessions[id].cancelEvent
    requires s.sessions[id].purpose == UnlockPurpose ==> attempt.write.Stored?
    requires s.link.link.pending == Some(Esp32.Pending(r, Some(true), Some(true), true, true))
    requires s.link.link.connection == Some(r.connection) && !s.link.link.stopped
    ensures var t := Next(s, Settle);
            && t.acted == s.acted + [id] && t.waiting.None? && t.link.granted == s.link.granted + [r]
            && id in t.sessions && t.sessions[id].state == Granted && t.failed == s.failed
            && t.actuation.trace.attempts == s.actuation.trace.attempts
                  + [if s.sessions[id].purpose == UnlockPurpose then Actuation.UNLOCK else Actuation.START]
  {
    SettleOutcome(s);
    SettleReports(s);
    FactsOf(s, id);
  }

  // ---- The end of a session and of a runtime ----

  /** A worker that is done frees its session: nothing is active any more, and a session that was still
      running counts as cancelled. A worker that waits for the controller is not done. */
  lemma ReleaseExactly(s: System, id: string)
    requires id in s.sessions
    ensures var t := Next(s, Release(id));
            && (s.waiting.Some? && s.waiting.value.id == id ==> t == s)
            && (s.waiting.None? || s.waiting.value.id != id ==>
                  && t.active != Some(id) && (s.active != Some(id) ==> t.active == s.active)
                  && !t.sessions[id].worker && t.sessions[id].cancelEvent == s.sessions[id].cancelEvent
                  && t.sessions[id].state == (if s.sessions[id].state == Running then Cancelled else s.sessions[id].state))
            && (forall other :: other in s.sessions && other != id ==> other in t.sessions && t.sessions[other] == s.sessions[other])
            && t.actuation == s.actuation && t.acted == s.acted
  {
  }

  /** A session can be dropped exactly when it is neither active nor waiting for the controller, and a closed runtime
      takes on no other. */
  lemma RemoveExactly(s: System, id: string)
    ensures var t := Next(s, Remove(id));
            && (id in t.sessions <==> id in s.sessions && (s.active == Some(id) || (s.waiting.Some? && s.waiting.value.id == id)))
            && (forall other :: other != id ==> (other in t.sessions <==> other in s.sessions)
                                                && (other in s.sessions ==> t.sessions[other] == s.sessions[other]))
    ensures var t := Next(s, Close);
            t.closed && forall other, purpose, request, bound :: Next(t, NewScan(other, purpose, request, bound)) == t
  {
  }

  /** An ended ignition authority cancels the active session exactly when that is a running ignition scan. */
  lemma RevokeIgnitionExactly(s: System)
    ensures var t := Next(s, RevokeIgnition);
            var hit := s.active.Some? && s.active.value in s.sessions
                       && s.sessions[s.active.value].purpose == IgnitionPurpose && s.sessions[s.active.value].state == Running;
            && (hit ==> t.sessions[s.active.value].state == Cancelled && t.sessions[s.active.value].cancelEvent)
            && (forall id :: id in s.sessions && !(hit && id == s.active.value) ==> id in t.sessions && t.sessions[id] == s.sessions[id])
            && t.actuation == s.actuation
  {
  }

  /** A pause shuts new scans out, and counts as drained exactly when it is clean and no worker is left; a
      drained runtime, and no other, resumes with its sessions gone. */
  lemma MaintenanceExactly(s: System, clean: bool)
    requires Safe(s)
    ensures var t := Next(s, Pause);
            && (!s.closed ==> t.paused && (t.drained ==> s.drained)) && t.sessions == s.sessions
    ensures var t := Next(s, Drain(clean));
            && (s.paused ==> (t.drained <==> clean && s.waiting.None? && forall id :: id in s.sessions ==> !s.sessions[id].worker))
            && t.sessions == s.sessions && t.actuation == s.actuation
    ensures var t := Next(s, Resume);
            && (!s.closed && s.paused && s.drained ==> !t.paused && !t.drained && t.sessions == map[] && t.active.None?)
            && (s.closed || !s.paused || !s.drained ==> t == s)
  {
    assert Inv(s);
  }
}
