/** The button, its pairing and recovery windows, and the power and maintenance gate. */
module HardwareEvents {
  import opened Outcomes
  import opened OrderedKeys

  type PressId = string

  const PAIRING_HOLD: real := 3.0
  const RECOVERY_HOLD: real := 10.0
  const MAX_FINISHED: nat := 32

  datatype Action = NoAction | Pairing | Recovery

  /** How a press ended. */
  datatype Result = Released(action: Action, held: real) | Cancelled

  datatype Press = Press(id: PressId, startedAt: real, lastSeenAt: real)

  datatype Timing = Timing(pairing: real, recovery: real, lease: real)

  /** The times one press was seen, and when it was released. */
  datatype Hold = Hold(id: PressId, beats: seq<real>, releasedAt: real)

  /** A closed window has deadline 0. `beats`, `opener` and `clock` only record the past. */
  datatype State = State(
    timing: Timing,
    powered: bool,
    maintenance: bool,
    transitioning: bool,
    failedTarget: Option<bool>,
    press: Option<Press>,
    pairingUntil: real,
    recoveryUntil: real,
    order: seq<PressId>,
    finished: map<PressId, Result>,
    beats: seq<real>,
    opener: Option<Hold>,
    clock: real)

  datatype Code = Maintenance | PowerTransition | PoweredOff | ButtonBusy | PressNotActive | WindowRequired | PowerRecoveryRequired

  datatype Reply = Pressed | Ended(result: Result) | Accepted | Refused(code: Code)

  // ---- Steps ----

  function Gate(s: State): Option<Code> {
    if s.maintenance then Some(Maintenance)
    else if s.transitioning then Some(PowerTransition)
    else if !s.powered then Some(PoweredOff)
    else None
  }

  function Remember(s: State, id: PressId, r: Result): State {
    s.(order := Touched(s.order, id, MAX_FINISHED),
       finished := (s.finished - Evicted(s.order, id, MAX_FINISHED))[id := r])
  }

  predicate Lapsed(s: State, now: real) {
    s.press.Some? && now - s.press.value.lastSeenAt > s.timing.lease
  }

  /** A press not seen within the lease is cancelled. */
  function Expire(s: State, now: real): State {
    if Lapsed(s, now) then Remember(s.(press := None, beats := []), s.press.value.id, Cancelled) else s
  }

  predicate Pressing(s: State, id: PressId) {
    s.press.Some? && s.press.value.id == id
  }

  function Down(s: State, id: PressId, now: real): (State, Reply) {
    if Gate(s).Some? then (s, Refused(Gate(s).value))
    else if id in s.finished then (s, Ended(s.finished[id]))
    else
      var d := Expire(s, now);
      if d.press.Some? then (d, if d.press.value.id == id then Pressed else Refused(ButtonBusy))
      else (d.(press := Some(Press(id, now, now)), beats := [now]), Pressed)
  }

  function Keepalive(s: State, id: PressId, now: real): (State, Reply) {
    if Gate(s).Some? then (s, Refused(Gate(s).value))
    else
      var d := Expire(s, now);
      if !Pressing(d, id) then (d, Refused(PressNotActive))
      else (d.(press := Some(d.press.value.(lastSeenAt := now)), beats := d.beats + [now]), Pressed)
  }

  function ActionFor(held: real): Action {
    if held >= RECOVERY_HOLD then Recovery else if held >= PAIRING_HOLD then Pairing else NoAction
  }

  /** round(x, 3): to the nearest thousandth, and to the even one of two. */
  function Rounded(x: real): real {
    var down := (x * 1000.0).Floor;
    var rest := x * 1000.0 - down as real;
    (if rest > 0.5 || (rest == 0.5 && down % 2 == 1) then down + 1 else down) as real / 1000.0
  }

  /** The reported time is within half a millisecond of the held one, and is a whole number of them. */
  lemma RoundedIsClose(x: real)
    ensures -0.0005 <= Rounded(x) - x <= 0.0005
    ensures (Rounded(x) * 1000.0).Floor as real == Rounded(x) * 1000.0
  {
    assert Rounded(x) * 1000.0 == (Rounded(x) * 1000.0).Floor as real;
  }

  /** Opening one window closes the other. */
  function OpenWindow(s: State, action: Action, hold: Hold): State {
    match action
    case Recovery => s.(recoveryUntil := hold.releasedAt + s.timing.recovery, pairingUntil := 0.0, opener := Some(hold))
    case Pairing => s.(pairingUntil := hold.releasedAt + s.timing.pairing, recoveryUntil := 0.0, opener := Some(hold))
    case NoAction => s
  }

  /** A released press opens the window its length asks for. */
  function Release(s: State, now: real): (State, Result)
    requires s.press.Some?
  {
    var id := s.press.value.id;
    var held := if now - s.press.value.startedAt > 0.0 then now - s.press.value.startedAt else 0.0;
    var result := Released(ActionFor(held), Rounded(held));
    var hold := Hold(id, s.beats, now);
    (Remember(OpenWindow(s.(press := None, beats := []), result.action, hold), id, result), result)
  }

  function Up(s: State, id: PressId, now: real): (State, Reply) {
    if Gate(s).Some? then (s, Refused(Gate(s).value))
    else if id in s.finished then (s, Ended(s.finished[id]))
    else
      var d := Expire(s, now);
      if !Pressing(d, id) then (d, Refused(PressNotActive))
      else
        var (e, result) := Release(d, now);
        (e, Ended(result))
  }

  function Cancel(s: State, id: PressId): (State, Reply) {
    if id in s.finished then (s, Ended(s.finished[id]))
    else (Remember(if Pressing(s, id) then s.(press := None, beats := []) else s, id, Cancelled), Ended(Cancelled))
  }

  function CloseWindows(s: State): State {
    s.(press := None, beats := [], pairingUntil := 0.0, recoveryUntil := 0.0)
  }

  /** The part of a power request before its callback; Accepted means that no callback is due. */
  function PowerRefusal(s: State, on: bool): Option<Code> {
    if s.maintenance then Some(Maintenance)
    else if s.transitioning then Some(PowerTransition)
    else if s.failedTarget == Some(!on) then Some(PowerRecoveryRequired)
    else None
  }

  predicate PowerStarts(s: State, on: bool) {
    PowerRefusal(s, on).None? && !(on == s.powered && s.failedTarget != Some(on))
  }

  function PowerBegins(s: State, on: bool): State {
    if !PowerStarts(s, on) then s
    else if on then s.(transitioning := true)
    else CloseWindows(s.(transitioning := true, powered := false))
  }

  /** The part after it; requests are serialized, so the callback that ends is the one that began. */
  function PowerEnds(s: State, on: bool, works: bool): State {
    if !works then s.(transitioning := false, failedTarget := Some(on))
    else s.(powered := if on then true else s.powered, transitioning := false, failedTarget := None)
  }

  function SetMaintenance(s: State, on: bool): State {
    var d := s.(maintenance := on);
    if on then CloseWindows(d) else d
  }

  datatype Window = PairingWindow | RecoveryWindow

  predicate Open(s: State, w: Window, now: real) {
    (if w.PairingWindow? then s.pairingUntil else s.recoveryUntil) > now
  }

  function RequireWindow(s: State, w: Window, now: real): Reply {
    if Gate(s).Some? then Refused(Gate(s).value)
    else if Open(s, w, now) then Accepted
    else Refused(WindowRequired)
  }

  datatype Event =
    | PressDown(id: PressId)
    | PressKeepalive(id: PressId)
    | PressUp(id: PressId)
    | PressCancel(id: PressId)
    | PowerBegin(on: bool)
    | PowerEnd(on: bool, works: bool)
    | Maintain(on: bool)
    | Close
    | Look

  /** A callback ends only while one is under way. */
  function Next(s: State, e: Event, now: real): State {
    var t := s.(clock := now);
    match e
    case PressDown(id) => Down(t, id, now).0
    case PressKeepalive(id) => Keepalive(t, id, now).0
    case PressUp(id) => Up(t, id, now).0
    case PressCancel(id) => Cancel(t, id).0
    case PowerBegin(on) => PowerBegins(t, on)
    case PowerEnd(on, works) => if t.transitioning then PowerEnds(t, on, works) else t
    case Maintain(on) => SetMaintenance(t, on)
    case Close => CloseWindows(t)
    case Look => Expire(t, now)
  }

  datatype Step = Step(event: Event, now: real)

  predicate Ordered(steps: seq<Step>) {
    forall i, j :: 0 <= i < j < |steps| ==> steps[i].now <= steps[j].now
  }

  function Run(s: State, steps: seq<Step>): State {
    if steps == [] then s
    else
      var last := steps[|steps| - 1];
      Next(Run(s, steps[..|steps| - 1]), last.event, last.now)
  }

  function Booted(timing: Timing, now: real): State {
    State(timing, true, false, false, None, None, 0.0, 0.0, [], map[], [], None, now)
  }

  // ---- Invariant ----

  /** Consecutive sightings within the lease. */
  predicate Chain(beats: seq<real>, lease: real) {
    forall i :: 0 <= i < |beats| - 1 ==> 0.0 <= beats[i + 1] - beats[i] <= lease
  }

  predicate PressBacked(s: State) {
    s.press.Some? ==>
      && s.beats != [] && Chain(s.beats, s.timing.lease)
      && s.beats[0] == s.press.value.startedAt
      && s.beats[|s.beats| - 1] == s.press.value.lastSeenAt <= s.clock
  }

  /** A hold: sightings of one press within the lease of each other and of its release, spanning at
      least `least` seconds. */
  predicate Held(h: Hold, lease: real, least: real) {
    && h.beats != [] && Chain(h.beats, lease)
    && 0.0 <= h.releasedAt - h.beats[|h.beats| - 1] <= lease
    && h.releasedAt - h.beats[0] >= least
  }

  /** An open window was opened by a hold long enough for it, and lasts as long as it should. */
  predicate WindowsBacked(s: State) {
    && (s.pairingUntil == 0.0 || s.recoveryUntil == 0.0)
    && (s.pairingUntil != 0.0 ==> s.opener.Some? && Held(s.opener.value, s.timing.lease, PAIRING_HOLD)
                                  && s.opener.value.releasedAt - s.opener.value.beats[0] < RECOVERY_HOLD
                                  && s.pairingUntil == s.opener.value.releasedAt + s.timing.pairing)
    && (s.recoveryUntil != 0.0 ==> s.opener.Some? && Held(s.opener.value, s.timing.lease, RECOVERY_HOLD)
                                   && s.recoveryUntil == s.opener.value.releasedAt + s.timing.recovery)
  }

  /** Nothing is live while the product is not operational. */
  predicate GateHolds(s: State) {
    && (s.press.Some? || s.pairingUntil != 0.0 || s.recoveryUntil != 0.0 ==> Gate(s).None?)
    && (s.transitioning || s.failedTarget.Some? ==> !s.powered)
  }

  ghost predicate Inv(s: State) {
    && s.timing.pairing > 0.0 && s.timing.recovery > 0.0 && s.timing.lease > 0.0
    && s.clock >= 0.0
    && GateHolds(s)
    && PressBacked(s)
    && WindowsBacked(s)
    && InStep(s.order, s.finished.Keys, MAX_FINISHED)
  }

  /** Inv, kept folded. */
  ghost predicate Safe(s: State) {
    forall t :: t == s ==> Inv(t)
  }

  lemma RememberKeeps(s: State, id: PressId, r: Result)
    requires Inv(s)
    ensures Inv(Remember(s, id, r))
  {
    TouchedKeepsStep(s.order, s.finished.Keys, id, MAX_FINISHED);
    assert Remember(s, id, r).finished.Keys == s.finished.Keys + {id} - Evicted(s.order, id, MAX_FINISHED);
  }

  lemma ExpireKeeps(s: State, now: real)
    requires Inv(s)
    ensures Inv(Expire(s, now))
  {
    if Lapsed(s, now) {
      RememberKeeps(s.(press := None, beats := []), s.press.value.id, Cancelled);
    }
  }

  lemma DownKeeps(s: State, id: PressId, now: real)
    requires Safe(s) && s.clock == now
    ensures Safe(Down(s, id, now).0)
  {
    assert Inv(s);
    ExpireKeeps(s, now);
    assert Inv(Down(s, id, now).0);
  }

  lemma KeepaliveKeeps(s: State, id: PressId, now: real)
    requires Safe(s) && s.clock == now
    ensures Safe(Keepalive(s, id, now).0)
  {
    assert Inv(s);
    ExpireKeeps(s, now);
    assert Inv(Keepalive(s, id, now).0);
  }

  lemma ChainSpans(beats: seq<real>, lease: real)
    requires beats != [] && Chain(beats, lease)
    ensures beats[0] <= beats[|beats| - 1]
    decreases |beats|
  {
    if |beats| > 1 {
      ChainSpans(beats[..|beats| - 1], lease);
    }
  }

  lemma ReleaseKeeps(s: State, now: real)
    requires Inv(s) && s.press.Some? && !Lapsed(s, now) && s.clock == now
    ensures Inv(Release(s, now).0)
  {
    var id := s.press.value.id;
    var held := now - s.press.value.startedAt;
    ChainSpans(s.beats, s.timing.lease);
    var hold := Hold(id, s.beats, now);
    var (d, result) := Release(s, now);
    assert result == Released(ActionFor(held), Rounded(held));
    var o := OpenWindow(s.(press := None, beats := []), result.action, hold);
    assert Inv(o);
    RememberKeeps(o, id, result);
    assert d == Remember(o, id, result);
  }

  lemma UpKeeps(s: State, id: PressId, now: real)
    requires Safe(s) && s.clock == now
    ensures Safe(Up(s, id, now).0)
  {
    assert Inv(s);
    ExpireKeeps(s, now);
    var d := Expire(s, now);
    if Gate(s).None? && id !in s.finished && Pressing(d, id) {
      ReleaseKeeps(d, now);
    }
    assert Inv(Up(s, id, now).0);
  }

  lemma CancelKeeps(s: State, id: PressId)
    requires Safe(s)
    ensures Safe(Cancel(s, id).0)
  {
    assert Inv(s);
    RememberKeeps(if Pressing(s, id) then s.(press := None, beats := []) else s, id, Cancelled);
    assert Inv(Cancel(s, id).0);
  }

  lemma GateEventsKeep(s: State, on: bool, works: bool)
    requires Safe(s)
    ensures Safe(PowerBegins(s, on)) && Safe(SetMaintenance(s, on)) && Safe(CloseWindows(s))
    ensures s.transitioning ==> Safe(PowerEnds(s, on, works))
  {
    assert Inv(s);
    assert Inv(PowerBegins(s, on));
    assert Inv(SetMaintenance(s, on));
    assert Inv(CloseWindows(s));
    if s.transitioning {
      assert Inv(PowerEnds(s, on, works));
    }
  }

  lemma NextKeeps(s: State, e: Event, now: real)
    requires Safe(s) && s.clock <= now
    ensures Safe(Next(s, e, now)) && Next(s, e, now).clock == now
  {
    assert Inv(s);
    var t := s.(clock := now);
    assert Inv(t);
    match e
    case PressDown(id) => DownKeeps(t, id, now);
    case PressKeepalive(id) => KeepaliveKeeps(t, id, now);
    case PressUp(id) => UpKeeps(t, id, now);
    case PressCancel(id) => CancelKeeps(t, id);
    case PowerBegin(on) => GateEventsKeep(t, on, true);
    case PowerEnd(on, works) => GateEventsKeep(t, on, works);
    case Maintain(on) => GateEventsKeep(t, on, true);
    case Close => GateEventsKeep(t, true, true);
    case Look =>
      ExpireKeeps(t, now);
      assert Inv(Next(s, e, now));
  }

  predicate Sane(timing: Timing, start: real, steps: seq<Step>) {
    && timing.pairing > 0.0 && timing.recovery > 0.0 && timing.lease > 0.0
    && start >= 0.0 && Ordered(steps)
    && (steps != [] ==> start <= steps[0].now)
  }

  lemma {:induction false} RunKeeps(timing: Timing, start: real, steps: seq<Step>)
    requires Sane(timing, start, steps)
    ensures Safe(Run(Booted(timing, start), steps))
    ensures Run(Booted(timing, start), steps).clock == if steps == [] then start else steps[|steps| - 1].now
  {
    if steps == [] {
      assert Inv(Booted(timing, start));
    } else {
      var init, last := steps[..|steps| - 1], steps[|steps| - 1];
      RunKeeps(timing, start, init);
      assert Run(Booted(timing, start), init).clock <= last.now;
      NextKeeps(Run(Booted(timing, start), init), last.event, last.now);
    }
  }

  // ---- Where the sightings come from ----

  /** The sightings of a press are steps of the run: one PressDown of its id, then PressKeepalives of the
      same id, at those times and in that order. */
  ghost predicate Sightings(steps: seq<Step>, at: seq<nat>, id: PressId, beats: seq<real>) {
    && |at| == |beats| > 0
    && (forall k :: 0 <= k < |at| ==> at[k] < |steps|)
    && (forall j, k :: 0 <= j < k < |at| ==> at[j] < at[k])
    && (forall k :: 0 <= k < |at| ==> steps[at[k]] == Step(if k == 0 then PressDown(id) else PressKeepalive(id), beats[k]))
  }

  ghost predicate Seen(steps: seq<Step>, id: PressId, beats: seq<real>) {
    exists at :: Sightings(steps, at, id, beats)
  }

  /** A hold that the run made: its sightings, and after them the PressUp that ended it. */
  ghost predicate HoldIn(steps: seq<Step>, h: Hold) {
    exists at, up :: ReleasedAt(steps, at, up, h)
  }

  ghost predicate ReleasedAt(steps: seq<Step>, at: seq<nat>, up: nat, h: Hold) {
    && Sightings(steps, at, h.id, h.beats)
    && at[|at| - 1] < up < |steps| && steps[up] == Step(PressUp(h.id), h.releasedAt)
  }

  lemma SightingsExtend(steps: seq<Step>, at: seq<nat>, id: PressId, beats: seq<real>, last: Step)
    requires Sightings(steps, at, id, beats)
    ensures Sightings(steps + [last], at, id, beats)
    ensures last.event == PressKeepalive(id) ==> Sightings(steps + [last], at + [|steps|], id, beats + [last.now])
  {
  }

  lemma SeenExtends(steps: seq<Step>, id: PressId, beats: seq<real>, last: Step)
    requires Seen(steps, id, beats)
    ensures Seen(steps + [last], id, beats)
    ensures last.event == PressKeepalive(id) ==> Seen(steps + [last], id, beats + [last.now])
    ensures last.event == PressUp(id) ==> HoldIn(steps + [last], Hold(id, beats, last.now))
  {
    var at :| Sightings(steps, at, id, beats);
    SightingsExtend(steps, at, id, beats, last);
    if last.event == PressUp(id) {
      assert ReleasedAt(steps + [last], at, |steps|, Hold(id, beats, last.now));
    }
  }

  lemma SeenFirst(steps: seq<Step>, id: PressId, now: real)
    ensures Seen(steps + [Step(PressDown(id), now)], id, [now])
  {
    assert Sightings(steps + [Step(PressDown(id), now)], [|steps|], id, [now]);
  }

  lemma HoldExtends(steps: seq<Step>, h: Hold, last: Step)
    requires HoldIn(steps, h)
    ensures HoldIn(steps + [last], h)
  {
    var at, up :| ReleasedAt(steps, at, up, h);
    SightingsExtend(steps, at, h.id, h.beats, last);
    assert ReleasedAt(steps + [last], at, up, h);
  }

  /** How one step moves the recorded sightings. */
  lemma PressMoves(s: State, e: Event, now: real)
    ensures var t := Next(s, e, now);
            t.press.None?
            || (s.press.Some? && t.press.value.id == s.press.value.id
                && (t.beats == s.beats || (e == PressKeepalive(t.press.value.id) && t.beats == s.beats + [now])))
            || (e == PressDown(t.press.value.id) && t.beats == [now])
  {
  }

  lemma OpenerMoves(s: State, e: Event, now: real)
    ensures var t := Next(s, e, now);
            t.opener == s.opener
            || (s.press.Some? && e == PressUp(s.press.value.id) && t.opener == Some(Hold(s.press.value.id, s.beats, now)))
  {
  }

  lemma {:induction false} RunIsSeen(timing: Timing, start: real, steps: seq<Step>)
    ensures var s := Run(Booted(timing, start), steps);
            && (s.press.Some? ==> Seen(steps, s.press.value.id, s.beats))
            && (s.opener.Some? ==> HoldIn(steps, s.opener.value))
    decreases |steps|
  {
    if steps != [] {
      var init, last := steps[..|steps| - 1], steps[|steps| - 1];
      RunIsSeen(timing, start, init);
      assert steps == init + [last];
      SeenStep(init, Run(Booted(timing, start), init), last);
    }
  }

  lemma SeenStep(init: seq<Step>, s: State, last: Step)
    requires s.press.Some? ==> Seen(init, s.press.value.id, s.beats)
    requires s.opener.Some? ==> HoldIn(init, s.opener.value)
    ensures var t := Next(s, last.event, last.now);
            && (t.press.Some? ==> Seen(init + [last], t.press.value.id, t.beats))
            && (t.opener.Some? ==> HoldIn(init + [last], t.opener.value))
  {
    PressMoves(s, last.event, last.now);
    OpenerMoves(s, last.event, last.now);
    if s.press.Some? {
      SeenExtends(init, s.press.value.id, s.beats, last);
    }
    if s.opener.Some? {
      HoldExtends(init, s.opener.value, last);
    }
    if last.event.PressDown? {
      SeenFirst(init, last.event.id, last.now);
    }
  }

  /** The hold behind an open window: a PressDown, the PressKeepalives and the PressUp of one id in the run,
      each within the lease of the one before, spanning at least `least` seconds. */
  ghost predicate OpenedBy(steps: seq<Step>, opener: Option<Hold>, lease: real, least: real) {
    opener.Some? && HoldIn(steps, opener.value) && Held(opener.value, lease, least)
  }

  /** In every run: a live press or an open window means powered, no maintenance and no transition; at
      most one window is open; it was opened by an unbroken hold of 3 s (pairing) or 10 s (recovery)
      that the button reported, within its length of now; and at most 32 finished presses are kept. */
  lemma LiveMeansOperational(timing: Timing, start: real, steps: seq<Step>, now: real)
    requires Sane(timing, start, steps)
    ensures var s := Run(Booted(timing, start), steps);
            s.clock <= now ==>
              && (s.press.Some? || Open(s, PairingWindow, now) || Open(s, RecoveryWindow, now) ==> s.powered && !s.maintenance && !s.transitioning)
              && !(Open(s, PairingWindow, now) && Open(s, RecoveryWindow, now))
              && (Open(s, PairingWindow, now) ==> OpenedBy(steps, s.opener, timing.lease, PAIRING_HOLD)
                                                  && now < s.opener.value.releasedAt + timing.pairing)
              && (Open(s, RecoveryWindow, now) ==> OpenedBy(steps, s.opener, timing.lease, RECOVERY_HOLD)
                                                   && now < s.opener.value.releasedAt + timing.recovery)
              && |s.finished| <= MAX_FINISHED
  {
    RunKeeps(timing, start, steps);
    RunIsSeen(timing, start, steps);
    TimingIsFixed(timing, start, steps);
    var s := Run(Booted(timing, start), steps);
    assert Inv(s);
    InStepBounds(s.order, s.finished.Keys, MAX_FINISHED);
  }

  lemma {:induction false} TimingIsFixed(timing: Timing, start: real, steps: seq<Step>)
    ensures Run(Booted(timing, start), steps).timing == timing
  {
    if steps != [] {
      TimingIsFixed(timing, start, steps[..|steps| - 1]);
      var last := steps[|steps| - 1];
      NextKeepsTiming(Run(Booted(timing, start), steps[..|steps| - 1]), last.event, last.now);
    }
  }

  lemma NextKeepsTiming(s: State, e: Event, now: real)
    ensures Next(s, e, now).timing == s.timing
  {
  }

  /** After a failed transition only its own target is admitted, until it succeeds. */
  lemma FailedTransitionAdmitsItsTarget(s: State, on: bool)
    requires Safe(s) && s.failedTarget.Some? && !s.maintenance && !s.transitioning
    ensures PowerStarts(s, on) <==> on == s.failedTarget.value
    ensures on != s.failedTarget.value ==> PowerRefusal(s, on) == Some(PowerRecoveryRequired) && PowerBegins(s, on) == s
    ensures on == s.failedTarget.value ==>
              var d := PowerEnds(PowerBegins(s, on), on, true);
              d.failedTarget.None? && d.powered == on
  {
    assert Inv(s);
  }

  // ---- An active press among the finished ones ----

  predicate PressIsFresh(s: State) {
    s.press.Some? ==> s.press.value.id !in s.finished
  }

  /** Pressing down again with the id of a press whose lease has run out unnoticed: the press is first
      remembered as cancelled and then started again under the same id. */
  predicate Represses(s: State, e: Event, now: real) {
    && e.PressDown? && Gate(s).None? && Pressing(s, e.id) && Lapsed(s, now)
  }

  lemma RememberStores(s: State, id: PressId, r: Result)
    requires Inv(s)
    ensures id in Remember(s, id, r).finished && Remember(s, id, r).finished[id] == r
    ensures forall k :: k in Remember(s, id, r).finished ==> k == id || k in s.finished
  {
    TouchedKeepsStep(s.order, s.finished.Keys, id, MAX_FINISHED);
  }

  lemma ExpireRemembers(s: State, now: real)
    requires Inv(s)
    ensures Lapsed(s, now) ==> s.press.value.id in Expire(s, now).finished && Expire(s, now).finished[s.press.value.id] == Cancelled
    ensures forall k :: k in Expire(s, now).finished ==> k in s.finished || (Lapsed(s, now) && k == s.press.value.id)
    ensures PressIsFresh(s) ==> PressIsFresh(Expire(s, now))
  {
    if Lapsed(s, now) {
      RememberStores(s.(press := None, beats := []), s.press.value.id, Cancelled);
    }
  }

  lemma CancelStaysFresh(s: State, id: PressId)
    requires Inv(s) && PressIsFresh(s)
    ensures PressIsFresh(Cancel(s, id).0)
  {
    RememberStores(if Pressing(s, id) then s.(press := None, beats := []) else s, id, Cancelled);
  }

  /** An active press is never among the finished ones, except through exactly that event. */
  lemma PressIsFreshExactly(s: State, e: Event, now: real)
    requires Safe(s) && PressIsFresh(s) && s.clock <= now
    ensures PressIsFresh(Next(s, e, now)) <==> !Represses(s, e, now)
  {
    assert Inv(s);
    var t := s.(clock := now);
    assert Inv(t);
    ExpireRemembers(t, now);
    if e.PressCancel? {
      CancelStaysFresh(t, e.id);
    }
  }

  /** Such a press cannot be released: its release is answered as cancelled and leaves it pressed. */
  lemma RepressedButtonSticks(s: State, id: PressId, now: real, later: real)
    requires Safe(s) && s.clock <= now <= later && Represses(s, PressDown(id), now) && PressIsFresh(s)
    ensures var d := Next(s, PressDown(id), now);
            && Pressing(d, id)
            && Up(d, id, later) == (d, Ended(Cancelled))
  {
    assert Inv(s);
    var t := s.(clock := now);
    assert Inv(t);
    ExpireRemembers(t, now);
  }

  lemma RunStep(s: State, steps: seq<Step>, last: Step)
    ensures Run(s, steps + [last]) == Next(Run(s, steps), last.event, last.now)
  {
    assert (steps + [last])[..|steps|] == steps;
  }

  /** Such a press is reached with the deployed timing: pressed at 0 s and, unseen for longer than the lease
      of 2 s, pressed again at 3 s. It is then active, remembered as cancelled, and cannot be released. */
  lemma RepressIsReachable(later: real)
    requires later >= 3.0
    ensures var s := Run(Booted(Timing(120.0, 120.0, 2.0), 0.0), [Step(PressDown("a"), 0.0)]);
            var d := Run(Booted(Timing(120.0, 120.0, 2.0), 0.0), [Step(PressDown("a"), 0.0), Step(PressDown("a"), 3.0)]);
            && Represses(s, PressDown("a"), 3.0)
            && Pressing(d, "a") && !PressIsFresh(d)
            && Up(d, "a", later) == (d, Ended(Cancelled))
  {
    var b := Booted(Timing(120.0, 120.0, 2.0), 0.0);
    var first := [Step(PressDown("a"), 0.0)];
    RunStep(b, [], first[0]);
    assert [] + first == first;
    var s := Run(b, first);
    assert s == b.(press := Some(Press("a", 0.0, 0.0)), beats := [0.0]);
    RunStep(b, first, Step(PressDown("a"), 3.0));
    assert first + [Step(PressDown("a"), 3.0)] == [Step(PressDown("a"), 0.0), Step(PressDown("a"), 3.0)];
    RunKeeps(Timing(120.0, 120.0, 2.0), 0.0, first);
    PressIsFreshExactly(s, PressDown("a"), 3.0);
    RepressedButtonSticks(s, "a", 3.0, later);
  }

  // ---- The object ----

  class HardwareEvents {
    const timing: Timing
    var powered: bool
    var maintenance: bool
    var transitioning: bool
    var failedTarget: Option<bool>
    var press: Option<Press>
    var pairingUntil: real
    var recoveryUntil: real
    var order: seq<PressId>
    var finished: map<PressId, Result>
    ghost var beats: seq<real>
    ghost var opener: Option<Hold>
    ghost var clock: real

    ghost function View(): State
      reads this
    {
      State(timing, powered, maintenance, transitioning, failedTarget, press, pairingUntil, recoveryUntil, order, finished, beats, opener, clock)
    }

    constructor (timing: Timing, now: real)
      ensures View() == Booted(timing, now)
    {
      this.timing := timing;
      powered, maintenance, transitioning, failedTarget, press := true, false, false, None, None;
      pairingUntil, recoveryUntil, order, finished := 0.0, 0.0, [], map[];
      beats, opener, clock := [], None, now;
    }

    method RequireOperational() returns (refusal: Option<Code>)
      ensures refusal == Gate(View())
    {
      if maintenance {
        return Some(Maintenance);
      }
      if transitioning {
        return Some(PowerTransition);
      }
      if !powered {
        return Some(PoweredOff);
      }
      return None;
    }

    method RememberFinished(id: PressId, r: Result)
      modifies `order, `finished
      ensures View() == Remember(old(View()), id, r)
    {
      order := Without(order, id) + [id];
      if |order| > MAX_FINISHED {
        finished := finished - {order[0]};
        order := order[1..];
      }
      finished := finished[id := r];
      assert finished == Remember(old(View()), id, r).finished;
    }

    method ExpirePress(now: real)
      modifies this
      ensures View() == Expire(old(View()), now)
    {
      if press.Some? && now - press.value.lastSeenAt > timing.lease {
        var id := press.value.id;
        press := None;
        beats := [];
        RememberFinished(id, Cancelled);
      }
    }

    method OnDown(id: PressId, now: real) returns (r: Reply)
      modifies this
      ensures (View(), r) == Down(old(View()), id, now)
    {
      var refusal := RequireOperational();
      if refusal.Some? {
        return Refused(refusal.value);
      }
      if id in finished {
        return Ended(finished[id]);
      }
      ExpirePress(now);
      if press.Some? {
        return if press.value.id == id then Pressed else Refused(ButtonBusy);
      }
      press := Some(Press(id, now, now));
      beats := [now];
      return Pressed;
    }

    method OnKeepalive(id: PressId, now: real) returns (r: Reply)
      modifies this
      ensures (View(), r) == Keepalive(old(View()), id, now)
    {
      var refusal := RequireOperational();
      if refusal.Some? {
        return Refused(refusal.value);
      }
      ExpirePress(now);
      if press.None? || press.value.id != id {
        return Refused(PressNotActive);
      }
      press := Some(press.value.(lastSeenAt := now));
      beats := beats + [now];
      return Pressed;
    }

    method SetWindows(action: Action, now: real, ghost hold: Hold)
      requires hold.releasedAt == now
      modifies this
      ensures View() == OpenWindow(old(View()), action, hold)
    {
      match action {
        case Recovery =>
          recoveryUntil, pairingUntil := now + timing.recovery, 0.0;
          opener := Some(hold);
        case Pairing =>
          pairingUntil, recoveryUntil := now + timing.pairing, 0.0;
          opener := Some(hold);
        case NoAction =>
      }
    }

    method ReleasePress(now: real) returns (r: Result)
      requires press.Some?
      modifies this
      ensures (View(), r) == Release(old(View()), now)
    {
      var id := press.value.id;
      var held := now - press.value.startedAt;
      if held < 0.0 {
        held := 0.0;
      }
      ghost var hold := Hold(id, beats, now);
      press := None;
      beats := [];
      var action := if held >= RECOVERY_HOLD then Recovery else if held >= PAIRING_HOLD then Pairing else NoAction;
      SetWindows(action, now, hold);
      r := Released(action, Rounded(held));
      RememberFinished(id, r);
    }

    method OnUp(id: PressId, now: real) returns (r: Reply)
      modifies this
      ensures (View(), r) == Up(old(View()), id, now)
    {
      var refusal := RequireOperational();
      if refusal.Some? {
        return Refused(refusal.value);
      }
      if id in finished {
        return Ended(finished[id]);
      }
      ExpirePress(now);
      if press.None? || press.value.id != id {
        return Refused(PressNotActive);
      }
      var result := ReleasePress(now);
      return Ended(result);
    }

    method OnCancel(id: PressId) returns (r: Reply)
      modifies this
      ensures (View(), r) == Cancel(old(View()), id)
    {
      if id in finished {
        return Ended(finished[id]);
      }
      if press.Some? && press.value.id == id {
        press := None;
        beats := [];
      }
      RememberFinished(id, Cancelled);
      return Ended(Cancelled);
    }

    method CloseAll()
      modifies this
      ensures View() == CloseWindows(old(View()))
    {
      press, pairingUntil, recoveryUntil := None, 0.0, 0.0;
      beats := [];
    }

    method MaintenanceMode(on: bool)
      modifies this
      ensures View() == SetMaintenance(old(View()), on)
    {
      maintenance := on;
      if on {
        CloseAll();
      }
    }

    /** A whole power request around its callback. Only a failed callback leaves the target to be
        retried. */
    method Power(on: bool, works: bool) returns (r: Reply)
      modifies this
      ensures View() == (if PowerStarts(old(View()), on) then PowerEnds(PowerBegins(old(View()), on), on, works) else old(View()))
      ensures r == match PowerRefusal(old(View()), on)
                   case Some(code) => Refused(code)
                   case None => if PowerStarts(old(View()), on) && !works then Refused(PowerTransition) else Accepted
    {
      if maintenance {
        return Refused(Maintenance);
      }
      if transitioning {
        return Refused(PowerTransition);
      }
      if failedTarget.Some? && failedTarget.value != on {
        return Refused(PowerRecoveryRequired);
      }
      if on == powered && failedTarget != Some(on) {
        return Accepted;
      }
      transitioning := true;
      if !on {
        powered := false;
        CloseAll();
      }
      if !works {
        transitioning := false;
        failedTarget := Some(on);
        return Refused(PowerTransition);
      }
      if on {
        powered := true;
      }
      transitioning := false;
      failedTarget := None;
      return Accepted;
    }
  }
}
