/** What holding the button does: a hold that is kept up opens the window its length asks for, and
    anything that breaks it opens none. */
module ButtonHolds {
  import opened Outcomes
  import opened HardwareEvents

  /** A PressDown, and a PressKeepalive at each later time. */
  function HoldSteps(id: PressId, beats: seq<real>): seq<Step>
    requires beats != []
  {
    if |beats| == 1 then [Step(PressDown(id), beats[0])]
    else HoldSteps(id, beats[..|beats| - 1]) + [Step(PressKeepalive(id), beats[|beats| - 1])]
  }

  /** The button is free: the product is operational, nothing is pressed, and the press is a new one. */
  predicate Free(s: State, id: PressId) {
    s.powered && !s.maintenance && !s.transitioning && s.press.None? && id !in s.finished
  }

  /** A press that is seen again within the lease each time is held from its first sighting on. */
  lemma {:induction false} HoldingLasts(s: State, id: PressId, beats: seq<real>)
    requires Free(s, id) && beats != [] && Chain(beats, s.timing.lease)
    ensures Run(s, HoldSteps(id, beats)) ==
            s.(press := Some(Press(id, beats[0], beats[|beats| - 1])), beats := beats, clock := beats[|beats| - 1])
    decreases |beats|
  {
    var n := |beats| - 1;
    if n == 0 {
      RunStep(s, [], Step(PressDown(id), beats[0]));
      assert [] + [Step(PressDown(id), beats[0])] == HoldSteps(id, beats);
      assert [beats[0]] == beats;
    } else {
      HoldingLasts(s, id, beats[..n]);
      RunStep(s, HoldSteps(id, beats[..n]), Step(PressKeepalive(id), beats[n]));
      assert 0.0 <= beats[n] - beats[n - 1] <= s.timing.lease;
      assert beats[..n] + [beats[n]] == beats;
    }
  }

  /** The whole hold and its release. */
  function HoldAndRelease(id: PressId, beats: seq<real>, up: real): seq<Step>
    requires beats != []
  {
    HoldSteps(id, beats) + [Step(PressUp(id), up)]
  }

  /** From any state in which the button is free, a hold that is kept up and released within the lease
      opens the recovery window if it lasted ten seconds, the pairing window if it lasted three, and
      otherwise leaves the windows as they were. A window opens from the release on, for its length, and
      closes the other; the press is over, and is remembered with what it did. */
  lemma HoldOpensExactly(s: State, id: PressId, beats: seq<real>, up: real)
    requires Free(s, id) && beats != [] && Chain(beats, s.timing.lease) && 0.0 <= up - beats[|beats| - 1] <= s.timing.lease
    ensures var t := Run(s, HoldAndRelease(id, beats, up));
            var held := up - beats[0];
            && t.recoveryUntil == (if held >= 10.0 then up + s.timing.recovery else if held >= 3.0 then 0.0 else s.recoveryUntil)
            && t.pairingUntil == (if held >= 10.0 then 0.0 else if held >= 3.0 then up + s.timing.pairing else s.pairingUntil)
            && t.press.None? && Gate(t).None? && t.timing == s.timing && t.clock == up
            && id in t.finished
            && t.finished[id] == Released(if held >= 10.0 then Recovery else if held >= 3.0 then Pairing else NoAction, Rounded(held))
  {
    HoldingLasts(s, id, beats);
    var pressed := Run(s, HoldSteps(id, beats));
    RunStep(s, HoldSteps(id, beats), Step(PressUp(id), up));
    ChainSpans(beats, s.timing.lease);
    ReleaseOpens(pressed.(clock := up), id, up);
  }

  lemma ReleaseOpens(s: State, id: PressId, now: real)
    requires Gate(s).None? && s.press.Some? && s.press.value.id == id && id !in s.finished
    requires now - s.press.value.lastSeenAt <= s.timing.lease && now >= s.press.value.startedAt
    ensures var (t, reply) := Up(s, id, now);
            var held := now - s.press.value.startedAt;
            var action := if held >= 10.0 then Recovery else if held >= 3.0 then Pairing else NoAction;
            && reply == Ended(Released(action, Rounded(held)))
            && t.recoveryUntil == (if held >= 10.0 then now + s.timing.recovery else if held >= 3.0 then 0.0 else s.recoveryUntil)
            && t.pairingUntil == (if held >= 10.0 then 0.0 else if held >= 3.0 then now + s.timing.pairing else s.pairingUntil)
            && t.press.None? && Gate(t).None? && t.timing == s.timing && t.clock == s.clock
            && id in t.finished && t.finished[id] == Released(action, Rounded(held))
  {
  }

  /** So the window that a hold opened admits exactly what comes before its end. */
  lemma HeldWindowAdmits(s: State, id: PressId, beats: seq<real>, up: real, later: real)
    requires Free(s, id) && beats != [] && Chain(beats, s.timing.lease) && 0.0 <= up - beats[|beats| - 1] <= s.timing.lease
    ensures var t := Run(s, HoldAndRelease(id, beats, up));
            var held := up - beats[0];
            && (held >= 10.0 ==> (RequireWindow(t, RecoveryWindow, later) == Accepted <==> later < up + s.timing.recovery))
            && (3.0 <= held < 10.0 ==> (RequireWindow(t, PairingWindow, later) == Accepted <==> later < up + s.timing.pairing))
            && (held >= 10.0 && later >= 0.0 ==> RequireWindow(t, PairingWindow, later) == Refused(WindowRequired))
            && (3.0 <= held < 10.0 && later >= 0.0 ==> RequireWindow(t, RecoveryWindow, later) == Refused(WindowRequired))
  {
    HoldOpensExactly(s, id, beats, up);
  }

  // ---- What breaks a hold ----

  /** A press that was not seen for longer than the lease is over: its keepalive and its release are
      refused, it opens nothing, and it is remembered as cancelled. */
  lemma LapsedHoldOpensNothing(s: State, id: PressId, now: real)
    requires Gate(s).None? && s.press.Some? && s.press.value.id == id && id !in s.finished
    requires now - s.press.value.lastSeenAt > s.timing.lease
    ensures var (k, kept) := Keepalive(s, id, now);
            var (u, released) := Up(s, id, now);
            && k == u && kept == released == Refused(PressNotActive)
            && u.press.None? && u.pairingUntil == s.pairingUntil && u.recoveryUntil == s.recoveryUntil
            && id in u.finished && u.finished[id] == Cancelled
  {
  }

  /** A cancelled press opens nothing either, at whatever time; another press is left alone. */
  lemma CancelledHoldOpensNothing(s: State, id: PressId)
    requires id !in s.finished
    ensures var (t, reply) := Cancel(s, id);
            && reply == Ended(Cancelled) && id in t.finished && t.finished[id] == Cancelled
            && t.press == (if s.press.Some? && s.press.value.id == id then None else s.press)
            && t.pairingUntil == s.pairingUntil && t.recoveryUntil == s.recoveryUntil
            && (Gate(t).None? ==> forall now :: Up(t, id, now) == (t, Ended(Cancelled)))
  {
  }

  /** While a press is live no other press starts: it is told the button is busy, and pressing the live one
      again changes nothing. */
  lemma LivePressIsAlone(s: State, id: PressId, now: real)
    requires Gate(s).None? && s.press.Some? && id !in s.finished && now - s.press.value.lastSeenAt <= s.timing.lease
    ensures Down(s, id, now) == (s, if s.press.value.id == id then Pressed else Refused(ButtonBusy))
    ensures s.press.value.id != id ==> Keepalive(s, id, now) == Up(s, id, now) == (s, Refused(PressNotActive))
  {
  }

  /** The result of a finished press is repeated, and releasing or cancelling it again does nothing. */
  lemma FinishedPressRepeats(s: State, id: PressId, now: real)
    requires id in s.finished
    ensures Cancel(s, id) == (s, Ended(s.finished[id]))
    ensures Gate(s).None? ==> Down(s, id, now) == Up(s, id, now) == (s, Ended(s.finished[id]))
  {
  }

  /** Entering maintenance, beginning to power off and closing the windows end a hold and both windows, and
      until the gate opens again no press and no window is accepted. */
  lemma GateEndsHolds(s: State, id: PressId, w: Window, now: real)
    requires now >= 0.0
    ensures var m := SetMaintenance(s, true);
            m.maintenance && m.press.None? && m.pairingUntil == m.recoveryUntil == 0.0
            && Down(m, id, now).1 == Keepalive(m, id, now).1 == Up(m, id, now).1 == RequireWindow(m, w, now) == Refused(Maintenance)
    ensures var c := CloseWindows(s);
            c.press.None? && c.pairingUntil == c.recoveryUntil == 0.0 && RequireWindow(c, w, now) != Accepted
    ensures PowerStarts(s, false) ==>
              var p := PowerBegins(s, false);
              && !p.powered && p.transitioning && p.press.None? && p.pairingUntil == p.recoveryUntil == 0.0
              && Down(p, id, now).1 == Up(p, id, now).1 == RequireWindow(p, w, now) == Refused(PowerTransition)
  {
  }

  /** A power request is under way exactly when nothing forbids it and it would change something; it ends
      powered as asked if its callback worked, and powered off, to be tried again, if it did not. */
  lemma PowerExactly(s: State, on: bool, works: bool)
    requires GateHolds(s)
    ensures PowerStarts(s, on) <==>
              && !s.maintenance && !s.transitioning && s.failedTarget != Some(!on)
              && (on != s.powered || s.failedTarget == Some(on))
    ensures PowerStarts(s, on) ==>
              var e := PowerEnds(PowerBegins(s, on), on, works);
              && !e.transitioning && e.powered == (on && works)
              && e.failedTarget == (if works then None else Some(on))
  {
  }
}
