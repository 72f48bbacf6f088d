/** Actuator commands, the lock state they represent, and the two safety timers.
    Every method of the class holds the one actuation lock, so each is one atomic step;
    what a command, a database write or a timer start does is an input of the step. */
module Actuation {
  import opened Outcomes

  type TimerId = nat

  datatype Command = UNLOCK | LOCK | START | STOP

  /** A database write is stored, lost, or stored although it raised. */
  datatype Write = Stored | Lost | StoredButRaised

  /** Delivery of one STOP and one LOCK, and the lock row that follows them. */
  datatype LockPlan = LockPlan(stop: bool, lock: bool, write: Write)

  /** How UNLOCK or START reaches the controller: as a plain command, or through the hardware
      authorization callback, which may find no acknowledgement and reset the connection. */
  datatype Delivery =
    | Sent
    | NotSent
    | Acknowledged
    | Withheld                      // the callback returned False without an attempt
    | Unconfirmed(reset: LockPlan)  // AUTHORIZED was not acknowledged: fail-safe STOP and LOCK
    | CallbackRaised
  {
    predicate Accepted() {
      Sent? || Acknowledged?
    }
  }

  /** What an observer knows: the commands attempted and delivered, the limit of the running
      engine, the relock delay and user the last successful unlock asked for, the generation each
      successful unlock used, and whether anything failed so far. */
  datatype Trace = Trace(
    attempts: seq<Command>,
    lastLock: Option<bool>,      // Some(true) after UNLOCK, Some(false) after LOCK
    lastEngine: Option<bool>,    // Some(true) after START, Some(false) after STOP
    stopSeconds: int,
    relockSeconds: int,
    relockUser: Option<string>,
    unlocks: seq<nat>,
    clean: bool)

  datatype State = State(
    ignitionOn: bool,
    owner: Option<string>,
    ownerId: Option<string>,
    generation: nat,
    relock: Option<TimerId>,
    relockSeconds: int,
    relockUser: Option<string>,
    stop: Option<TimerId>,
    maintenanceRequested: bool,
    maintenance: bool,
    unlocked: bool,              // lock_state of the database
    nextTimer: TimerId,
    trace: Trace)
  {
    predicate InMaintenance() {
      maintenanceRequested || maintenance
    }

    predicate HasOwner() {
      owner.Some? && owner.value != ""
    }
  }

  datatype Error = MaintenanceError | ShuttingDown | AuthorizationChanged | UnlockRequired | DeviceLocked
                 | StateUnreadable | AlreadyRunning | TimerFailed | NotDelivered | NotSaved

  function Booted(unlocked: bool): State {
    State(false, None, None, 0, None, 0, None, None, false, false, unlocked, 0, Trace([], None, None, 0, 0, None, [], true))
  }

  // ---- Pieces of a step ----

  function Faulty(a: State): State {
    a.(trace := a.trace.(clean := false))
  }

  /** One attempted command; only a delivered one counts as the last of its kind. */
  function Commanded(a: State, c: Command, delivered: bool): State {
    var t := a.trace.(attempts := a.trace.attempts + [c]);
    a.(trace := if !delivered then t.(clean := false)
                else match c
                     case UNLOCK => t.(lastLock := Some(true))
                     case LOCK => t.(lastLock := Some(false))
                     case START => t.(lastEngine := Some(true))
                     case STOP => t.(lastEngine := Some(false)))
  }

  function MarkedLocked(a: State): State {
    a.(ignitionOn := false, relockSeconds := 0, relockUser := None, owner := None, ownerId := None)
  }

  function TimersCancelled(a: State): State {
    a.(relock := None, stop := None)
  }

  /** STOP and LOCK are always both attempted; the lock row is written only if both went out. */
  function DispatchedLock(a: State, p: LockPlan): (State, bool) {
    var c := Commanded(Commanded(a, STOP, p.stop), LOCK, p.lock);
    if !p.stop || !p.lock then (c, false)
    else if p.write.Stored? then (c.(unlocked := false), true)
    else (Faulty(if p.write.StoredButRaised? then c.(unlocked := false) else c), false)
  }

  function ForcedLock(a: State, p: LockPlan): (State, bool) {
    var (d, ok) := DispatchedLock(a.(generation := a.generation + 1), p);
    if ok then (MarkedLocked(TimersCancelled(d)), true) else (d, false)
  }

  function ConnectionReset(a: State, p: LockPlan): (State, bool) {
    ForcedLock(MarkedLocked(TimersCancelled(a)), p)
  }

  /** Arming the relock records the delay before the timer starts, and keeps it if the start fails. */
  function RelockArmed(a: State, seconds: int, user: Option<string>, starts: bool): (State, bool) {
    if seconds <= 0 then (a.(relock := None, relockSeconds := 0, relockUser := None), true)
    else
      var b := a.(relockSeconds := seconds, relockUser := user);
      if !starts || a.InMaintenance() then (Faulty(b), false)
      else (b.(relock := Some(a.nextTimer), nextTimer := a.nextTimer + 1), true)
  }

  function StopArmed(a: State, seconds: int, starts: bool): (State, bool) {
    if seconds <= 0 then (a.(stop := None), true)
    else if !starts || a.InMaintenance() then (Faulty(a), false)
    else (a.(stop := Some(a.nextTimer), nextTimer := a.nextTimer + 1), true)
  }

  function Delivered(a: State, c: Command, d: Delivery): State {
    match d
    case Sent => Commanded(a, c, true)
    case Acknowledged => Commanded(a, c, true)
    case NotSent => Commanded(a, c, false)
    case Withheld => Faulty(a)
    case Unconfirmed(reset) => Faulty(ConnectionReset(a, reset).0)
    case CallbackRaised => Faulty(a)
  }

  // ---- The steps ----

  datatype UnlockPlan = UnlockPlan(timerStarts: bool, delivery: Delivery, write: Write, compensation: bool)

  /** The unlock state could not be saved: a compensating LOCK is tried without reconnecting, and
      the relock stays armed if that command does not go out. */
  function Compensated(c: State, p: UnlockPlan): State {
    var e := Commanded(Faulty(if p.write.StoredButRaised? then c.(unlocked := true) else c), LOCK, p.compensation);
    e.(relock := if p.compensation then None else e.relock, owner := None, ownerId := None, generation := e.generation + 1)
  }

  function UnlockSaved(c: State, name: string, id: Option<string>, seconds: int): State {
    c.(unlocked := true, owner := Some(name), ownerId := id, generation := c.generation + 1,
       trace := c.trace.(unlocks := c.trace.unlocks + [c.generation], relockSeconds := seconds, relockUser := id))
  }

  /** The checks before the command all pass, so that the command or the callback is tried. */
  predicate UnlockReaches(a: State, seconds: int, expected: nat, timerStarts: bool) {
    !a.InMaintenance() && a.generation == expected && (seconds <= 0 || timerStarts)
  }

  function Unlocked(a: State, name: string, id: Option<string>, seconds: int, expected: nat, p: UnlockPlan)
    : (State, Result<(), Error>)
  {
    if a.InMaintenance() then (a, Failure(MaintenanceError))
    else if a.generation != expected then (a, Failure(AuthorizationChanged))
    else
      var (b, armed) := RelockArmed(a, seconds, id, p.timerStarts);
      if !armed then (b, Failure(TimerFailed))
      else
        var c := Delivered(b, UNLOCK, p.delivery);
        if !p.delivery.Accepted() then (c.(relock := None), Failure(NotDelivered))
        else if p.write.Stored? then (UnlockSaved(c, name, id, seconds), Success(()))
        else (Compensated(c, p), Failure(NotSaved))
  }

  datatype IgnitionPlan = IgnitionPlan(readable: bool, timerStarts: bool, delivery: Delivery)

  /** Restart the relock countdown that the engine paused, if still unlocked. */
  function RelockRestarted(a: State, readable: bool, starts: bool): State {
    if a.relockSeconds <= 0 || a.relock.Some? then a
    else if !readable then Faulty(a)
    else if !a.unlocked then a
    else RelockArmed(a, a.relockSeconds, a.relockUser, starts).0
  }

  function Started(a: State, seconds: int, p: IgnitionPlan): (State, Result<(), Error>) {
    if !a.HasOwner() then (a, Failure(UnlockRequired))
    else if !p.readable then (a, Failure(StateUnreadable))
    else if !a.unlocked then (a, Failure(DeviceLocked))
    else if a.ignitionOn then
      (a, if p.delivery.Sent? || p.delivery.NotSent? then Success(()) else Failure(AlreadyRunning))
    else
      var (b, armed) := StopArmed(a, seconds, p.timerStarts);
      if !armed then (b, Failure(TimerFailed))
      else
        var c := Delivered(b, START, p.delivery);
        if !p.delivery.Accepted() then (c.(stop := None), Failure(NotDelivered))
        else (c.(ignitionOn := true, relock := None, trace := c.trace.(stopSeconds := seconds)), Success(()))
  }

  predicate StartReaches(a: State, seconds: int, expected: Option<nat>, readable: bool, timerStarts: bool) {
    && !a.InMaintenance() && (expected.Some? ==> a.generation == expected.value)
    && a.HasOwner() && readable && a.unlocked && !a.ignitionOn
    && (seconds <= 0 || timerStarts)
  }

  function Stopped(a: State, p: IgnitionPlan): (State, Result<(), Error>) {
    var c := Delivered(a, STOP, p.delivery);
    if !p.delivery.Accepted() then (c, Failure(NotDelivered))
    else (RelockRestarted(c.(ignitionOn := false, stop := None), p.readable, p.timerStarts), Success(()))
  }

  function IgnitionSet(a: State, running: bool, seconds: int, closed: bool, expected: Option<nat>, p: IgnitionPlan)
    : (State, Result<(), Error>)
  {
    if a.InMaintenance() then (a, Failure(MaintenanceError))
    else if closed then (a, Failure(ShuttingDown))
    else if expected.Some? && a.generation != expected.value then (a, Failure(AuthorizationChanged))
    else if running then Started(a, seconds, p)
    else Stopped(a, p)
  }

  function RelockFired(a: State, timer: TimerId, p: LockPlan): State {
    if a.relock != Some(timer) then a
    else if a.InMaintenance() then a.(relock := None)
    else ForcedLock(a.(relock := None), p).0
  }

  function StopFired(a: State, timer: TimerId, p: IgnitionPlan): State {
    if a.stop != Some(timer) then a
    else if a.InMaintenance() then a.(stop := None)
    else IgnitionSet(a.(stop := None), false, 0, false, None, p).0
  }

  function MaintenanceEntered(a: State, p: LockPlan): (State, bool) {
    ForcedLock(TimersCancelled(a.(maintenanceRequested := true, maintenance := true)), p)
  }

  /** Resuming is meant for the end of a maintenance period; elsewhere it forgets a running engine. */
  function Resumed(a: State): State {
    var r := MarkedLocked(TimersCancelled(a)).(generation := a.generation + 1, maintenance := false, maintenanceRequested := false);
    if a.maintenance then r else Faulty(r)
  }

  function ShutDown(a: State, hadHardware: bool, p: LockPlan): State {
    var b := Faulty(TimersCancelled(a.(maintenanceRequested := true, maintenance := true,
                                       generation := a.generation + 1)));
    if !hadHardware then b
    else
      var (d, ok) := DispatchedLock(b, p);
      if ok then MarkedLocked(d) else d
  }

  function Invalidated(a: State, applies: bool): State {
    if applies then a.(owner := None, ownerId := None, generation := a.generation + 1) else a
  }

  datatype Event =
    | Unlock(name: string, id: Option<string>, seconds: int, expected: nat, unlock: UnlockPlan)
    | SetIgnition(running: bool, limit: int, closed: bool, bound: Option<nat>, ignition: IgnitionPlan)
    | ForceLock(plan: LockPlan)
    | ResetConnection(plan: LockPlan)
    | FireRelock(timer: TimerId, plan: LockPlan)
    | FireStop(timer: TimerId, ignition: IgnitionPlan)
    | RequestMaintenance
    | EnterMaintenance(plan: LockPlan)
    | Resume
    | Shutdown(hadHardware: bool, plan: LockPlan)
    | Invalidate(applies: bool)

  function Next(a: State, e: Event): State {
    match e
    case Unlock(name, id, seconds, expected, p) => Unlocked(a, name, id, seconds, expected, p).0
    case SetIgnition(running, limit, closed, bound, p) => IgnitionSet(a, running, limit, closed, bound, p).0
    case ForceLock(p) => if a.InMaintenance() then a else ForcedLock(a, p).0
    case ResetConnection(p) => ConnectionReset(a, p).0
    case FireRelock(timer, p) => RelockFired(a, timer, p)
    case FireStop(timer, p) => StopFired(a, timer, p)
    case RequestMaintenance => a.(maintenanceRequested := true)
    case EnterMaintenance(p) => MaintenanceEntered(a, p).0
    case Resume => Resumed(a)
    case Shutdown(hadHardware, p) => ShutDown(a, hadHardware, p)
    case Invalidate(applies) => Invalidated(a, applies)
  }

  function Run(a: State, events: seq<Event>): State
    decreases |events|
  {
    if events == [] then a else Next(Run(a, events[..|events| - 1]), events[|events| - 1])
  }

  // ---- Engine on implies unlocked ----

  predicate EngineOnlyUnlocked(a: State) {
    a.ignitionOn ==> a.unlocked
  }

  /** The event locks a running engine's car, both commands go out, and the lock row is stored by a
      write that then raises. (ResetConnection clears the flag before it dispatches.) */
  predicate AmbiguousLock(a: State, e: Event) {
    && a.ignitionOn
    && (match e
        case ForceLock(p) => !a.InMaintenance() && Ambiguous(p)
        case FireRelock(timer, p) => a.relock == Some(timer) && !a.InMaintenance() && Ambiguous(p)
        case EnterMaintenance(p) => Ambiguous(p)
        case Shutdown(hadHardware, p) => hadHardware && Ambiguous(p)
        case _ => false)
  }

  predicate Ambiguous(p: LockPlan) {
    p.stop && p.lock && p.write.StoredButRaised?
  }

  /** One event breaks "engine on implies unlocked" exactly when it is an ambiguous lock. */
  lemma EngineOnlyUnlockedExactly(a: State, e: Event)
    requires EngineOnlyUnlocked(a)
    ensures EngineOnlyUnlocked(Next(a, e)) <==> !AmbiguousLock(a, e)
  {
  }

  /** With all-or-nothing database writes the engine flag is never on while the database says
      locked, whatever commands, timers, callbacks and writes fail. */
  lemma {:induction false} EngineNeverOnWhileLocked(unlocked: bool, events: seq<Event>)
    requires forall i :: 0 <= i < |events| ==> !AmbiguousLock(Run(Booted(unlocked), events[..i]), events[i])
    ensures EngineOnlyUnlocked(Run(Booted(unlocked), events))
    decreases |events|
  {
    if events != [] {
      var n := |events| - 1;
      forall i | 0 <= i < n ensures !AmbiguousLock(Run(Booted(unlocked), events[..n][..i]), events[..n][i]) {
        assert events[..n][..i] == events[..i];
      }
      EngineNeverOnWhileLocked(unlocked, events[..n]);
      EngineOnlyUnlockedExactly(Run(Booted(unlocked), events[..n]), events[n]);
    }
  }

  lemma RunPrefix(a: State, events: seq<Event>, n: nat, e: Event)
    requires n < |events| && events[n] == e
    ensures Run(a, events[..n + 1]) == Next(Run(a, events[..n]), e)
  {
    assert events[..n + 1][..n] == events[..n];
  }

  const UNLOCK_SENT := UnlockPlan(true, Sent, Stored, true)
  const START_SENT := IgnitionPlan(true, true, Sent)

  /** Unlock, start, then a forced lock whose row is stored although the write raises. */
  const AMBIGUOUS_RUN: seq<Event> :=
    [Unlock("driver", None, 10, 0, UNLOCK_SENT), SetIgnition(true, 20, false, Some(1), START_SENT),
     ForceLock(LockPlan(true, true, StoredButRaised))]

  lemma UnlockedDriving()
    ensures var a := Run(Booted(false), AMBIGUOUS_RUN[..1]);
            a.unlocked && a.owner == Some("driver") && a.generation == 1 && !a.ignitionOn && !a.InMaintenance() && a.relock == Some(0)
  {
    RunPrefix(Booted(false), AMBIGUOUS_RUN, 0, Unlock("driver", None, 10, 0, UNLOCK_SENT));
    assert Run(Booted(false), AMBIGUOUS_RUN[..1]) == Unlocked(Booted(false), "driver", None, 10, 0, UNLOCK_SENT).0;
  }

  /** The ambiguous lock is reachable: the engine runs in a car the database says is locked. */
  lemma AmbiguousLockIsReachable()
    ensures var a := Run(Booted(false), AMBIGUOUS_RUN); a.ignitionOn && !a.unlocked
  {
    UnlockedDriving();
    var a := Run(Booted(false), AMBIGUOUS_RUN[..1]);
    RunPrefix(Booted(false), AMBIGUOUS_RUN, 1, SetIgnition(true, 20, false, Some(1), START_SENT));
    var b := Run(Booted(false), AMBIGUOUS_RUN[..2]);
    assert b == Started(a, 20, START_SENT).0;
    assert b.ignitionOn && b.unlocked && !b.InMaintenance();
    RunPrefix(Booted(false), AMBIGUOUS_RUN, 2, ForceLock(LockPlan(true, true, StoredButRaised)));
    assert AMBIGUOUS_RUN[..3] == AMBIGUOUS_RUN;
  }

  // ---- Without a fault, state, commands and timers agree ----

  predicate CommandsAgree(a: State) {
    && (a.trace.lastLock.Some? ==> a.unlocked == a.trace.lastLock.value)
    && (a.ignitionOn <==> a.trace.lastEngine == Some(true))
  }

  predicate MaintenanceAgrees(a: State) {
    a.maintenance ==> !a.unlocked && !a.ignitionOn && a.trace.lastLock == Some(false) && a.trace.lastEngine == Some(false)
  }

  /** The delay and user kept for restarting the relock are those the last unlock asked for. */
  predicate DelayAgrees(a: State) {
    a.unlocked ==>
      && a.relockSeconds == (if a.trace.relockSeconds > 0 then a.trace.relockSeconds else 0)
      && (a.trace.relockSeconds > 0 ==> a.relockUser == a.trace.relockUser)
  }

  predicate RelockAgrees(a: State) {
    !a.InMaintenance() && a.unlocked && !a.ignitionOn && a.trace.relockSeconds > 0 ==> a.relock.Some?
  }

  predicate StopAgrees(a: State) {
    !a.InMaintenance() && a.ignitionOn && a.trace.stopSeconds > 0 ==> a.stop.Some?
  }

  /** Lock row and engine flag equal the last delivered commands, and the timers they call for run. */
  predicate Agreement(a: State) {
    CommandsAgree(a) && MaintenanceAgrees(a) && DelayAgrees(a) && RelockAgrees(a) && StopAgrees(a)
  }

  predicate CleanAgreement(a: State) {
    a.trace.clean ==> Agreement(a)
  }

  lemma UndeliveredUnlockAgrees(a: State, name: string, id: Option<string>, seconds: int, expected: nat, p: UnlockPlan)
    requires CleanAgreement(a) && !p.delivery.Accepted()
    ensures CleanAgreement(Unlocked(a, name, id, seconds, expected, p).0)
  {
  }

  lemma DeliveredUnlockAgrees(a: State, name: string, id: Option<string>, seconds: int, expected: nat, p: UnlockPlan)
    requires CleanAgreement(a) && p.delivery.Accepted()
    ensures CleanAgreement(Unlocked(a, name, id, seconds, expected, p).0)
  {
    var b := RelockArmed(a, seconds, id, p.timerStarts).0;
    ArmingExactly(a, seconds, id, p.timerStarts);
    AcceptedCommand(b, p.delivery);
    if UnlockReaches(a, seconds, expected, p.timerStarts) {
      var c := Delivered(b, UNLOCK, p.delivery);
      CompensationIsAFault(c, p);
      SavedUnlockAgrees(a, c, name, id, seconds);
    }
  }

  lemma CompensationIsAFault(c: State, p: UnlockPlan)
    ensures !Compensated(c, p).trace.clean
  {
  }

  lemma SavedUnlockAgrees(a: State, c: State, name: string, id: Option<string>, seconds: int)
    requires CleanAgreement(a) && !a.InMaintenance() && (c.trace.clean ==> a.trace.clean)
    requires c.trace == a.trace.(clean := c.trace.clean, attempts := c.trace.attempts, lastLock := Some(true))
    requires c == a.(relock := c.relock, relockSeconds := c.relockSeconds, relockUser := c.relockUser,
                     nextTimer := c.nextTimer, trace := c.trace)
    requires if seconds > 0 then c.relock.Some? && c.relockSeconds == seconds && c.relockUser == id else c.relockSeconds == 0
    ensures CleanAgreement(UnlockSaved(c, name, id, seconds))
  {
  }

  lemma UnlockAgrees(a: State, name: string, id: Option<string>, seconds: int, expected: nat, p: UnlockPlan)
    requires CleanAgreement(a)
    ensures CleanAgreement(Unlocked(a, name, id, seconds, expected, p).0)
  {
    if p.delivery.Accepted() {
      DeliveredUnlockAgrees(a, name, id, seconds, expected, p);
    } else {
      UndeliveredUnlockAgrees(a, name, id, seconds, expected, p);
    }
  }

  lemma LockAgrees(a: State, p: LockPlan)
    ensures CleanAgreement(ForcedLock(a, p).0)
  {
  }

  lemma StartAgrees(a: State, seconds: int, p: IgnitionPlan)
    requires CleanAgreement(a)
    ensures CleanAgreement(Started(a, seconds, p).0)
  {
  }

  lemma StoppedAgrees(a: State, p: IgnitionPlan)
    requires !a.InMaintenance()
    requires a.trace.clean ==> CommandsAgree(a) && DelayAgrees(a) && RelockAgrees(a)
    ensures CleanAgreement(Stopped(a, p).0)
  {
  }

  lemma NextAgrees(a: State, e: Event)
    requires CleanAgreement(a)
    ensures CleanAgreement(Next(a, e))
  {
    match e
    case Unlock(name, id, seconds, expected, p) => UnlockAgrees(a, name, id, seconds, expected, p);
    case SetIgnition(running, limit, closed, bound, p) =>
      StartAgrees(a, limit, p);
      if !a.InMaintenance() {
        StoppedAgrees(a, p);
      }
    case ForceLock(p) => LockAgrees(a, p);
    case ResetConnection(p) => LockAgrees(MarkedLocked(TimersCancelled(a)), p);
    case FireRelock(timer, p) => LockAgrees(a.(relock := None), p);
    case FireStop(timer, p) =>
      if !a.InMaintenance() {
        StoppedAgrees(a.(stop := None), p);
      }
    case EnterMaintenance(p) => LockAgrees(TimersCancelled(a.(maintenanceRequested := true, maintenance := true)), p);
    case _ =>
  }

  /** In every run without a fault, outside maintenance the database lock state and the engine flag
      are those of the last delivered commands, a car that is unlocked with its engine off has a relock
      armed when the last unlock asked for one, and a running engine with a positive limit has a stop
      armed. */
  lemma {:induction false} FaultFreeRunsAgree(unlocked: bool, events: seq<Event>)
    ensures CleanAgreement(Run(Booted(unlocked), events))
    decreases |events|
  {
    if events != [] {
      FaultFreeRunsAgree(unlocked, events[..|events| - 1]);
      NextAgrees(Run(Booted(unlocked), events[..|events| - 1]), events[|events| - 1]);
    }
  }

  /** The trace's delay is that of the last unlock of the run that succeeded, and none before one. */
  function LastDelay(a: State, events: seq<Event>): (int, Option<string>)
    decreases |events|
  {
    if events == [] then (a.trace.relockSeconds, a.trace.relockUser)
    else
      var n := |events| - 1;
      var e := events[n];
      if e.Unlock? && Unlocked(Run(a, events[..n]), e.name, e.id, e.seconds, e.expected, e.unlock).1.Success?
      then (e.seconds, e.id)
      else LastDelay(a, events[..n])
  }

  predicate SameDelay(a: State, b: State) {
    b.trace.relockSeconds == a.trace.relockSeconds && b.trace.relockUser == a.trace.relockUser
  }

  lemma LockKeepsDelay(a: State, p: LockPlan)
    ensures SameDelay(a, ForcedLock(a, p).0)
  {
  }

  lemma ResetKeepsDelay(a: State, p: LockPlan)
    ensures SameDelay(a, ConnectionReset(a, p).0)
  {
    LockKeepsDelay(MarkedLocked(TimersCancelled(a)), p);
  }

  lemma DeliveryKeepsDelay(a: State, c: Command, d: Delivery)
    ensures SameDelay(a, Delivered(a, c, d))
  {
    if d.Unconfirmed? {
      ResetKeepsDelay(a, d.reset);
    }
  }

  lemma UnlockRecordsDelay(a: State, name: string, id: Option<string>, seconds: int, expected: nat, p: UnlockPlan)
    ensures var (b, r) := Unlocked(a, name, id, seconds, expected, p);
            if r.Success? then b.trace.relockSeconds == seconds && b.trace.relockUser == id else SameDelay(a, b)
  {
    var b := RelockArmed(a, seconds, id, p.timerStarts).0;
    DeliveryKeepsDelay(b, UNLOCK, p.delivery);
    if p.delivery.Accepted() {
      AcceptedKeepsDelay(Delivered(b, UNLOCK, p.delivery), name, id, seconds, p);
    }
  }

  lemma AcceptedKeepsDelay(c: State, name: string, id: Option<string>, seconds: int, p: UnlockPlan)
    ensures SameDelay(c, Compensated(c, p))
    ensures UnlockSaved(c, name, id, seconds).trace.relockSeconds == seconds
    ensures UnlockSaved(c, name, id, seconds).trace.relockUser == id
  {
  }

  lemma StopKeepsDelay(a: State, p: IgnitionPlan)
    ensures SameDelay(a, Stopped(a, p).0)
  {
    DeliveryKeepsDelay(a, STOP, p.delivery);
  }

  lemma IgnitionKeepsDelay(a: State, running: bool, limit: int, closed: bool, bound: Option<nat>, p: IgnitionPlan)
    ensures SameDelay(a, IgnitionSet(a, running, limit, closed, bound, p).0)
  {
    if running {
      DeliveryKeepsDelay(StopArmed(a, limit, p.timerStarts).0, START, p.delivery);
    } else {
      StopKeepsDelay(a, p);
    }
  }

  lemma ShutdownKeepsDelay(a: State, hadHardware: bool, p: LockPlan)
    ensures SameDelay(a, ShutDown(a, hadHardware, p))
  {
  }

  lemma DelayIsRecorded(a: State, e: Event)
    ensures if e.Unlock? && Unlocked(a, e.name, e.id, e.seconds, e.expected, e.unlock).1.Success?
            then Next(a, e).trace.relockSeconds == e.seconds && Next(a, e).trace.relockUser == e.id
            else SameDelay(a, Next(a, e))
  {
    match e
    case Unlock(name, id, seconds, expected, p) => UnlockRecordsDelay(a, name, id, seconds, expected, p);
    case SetIgnition(running, limit, closed, bound, p) => IgnitionKeepsDelay(a, running, limit, closed, bound, p);
    case ForceLock(p) => LockKeepsDelay(a, p);
    case ResetConnection(p) => ResetKeepsDelay(a, p);
    case FireRelock(timer, p) => LockKeepsDelay(a.(relock := None), p);
    case FireStop(timer, p) => IgnitionKeepsDelay(a.(stop := None), false, 0, false, None, p);
    case EnterMaintenance(p) => LockKeepsDelay(TimersCancelled(a.(maintenanceRequested := true, maintenance := true)), p);
    case Shutdown(hadHardware, p) => ShutdownKeepsDelay(a, hadHardware, p);
    case _ =>
  }

  lemma {:induction false} TraceKeepsTheDelay(a: State, events: seq<Event>)
    ensures (Run(a, events).trace.relockSeconds, Run(a, events).trace.relockUser) == LastDelay(a, events)
    decreases |events|
  {
    if events != [] {
      TraceKeepsTheDelay(a, events[..|events| - 1]);
      DelayIsRecorded(Run(a, events[..|events| - 1]), events[|events| - 1]);
    }
  }

  /** A car is not left open: in every run without a fault, outside maintenance, when the last
      successful unlock of the run asked for a relock and the car is unlocked with its engine off, a
      relock is armed, for the delay and the user of that unlock. */
  lemma UnlockedCarsRelock(unlocked: bool, events: seq<Event>)
    ensures var a := Run(Booted(unlocked), events);
            var (seconds, user) := LastDelay(Booted(unlocked), events);
            a.trace.clean && !a.InMaintenance() && a.unlocked && seconds > 0 ==>
              && a.relockSeconds == seconds && a.relockUser == user
              && (!a.ignitionOn ==> a.relock.Some?)
  {
    FaultFreeRunsAgree(unlocked, events);
    TraceKeepsTheDelay(Booted(unlocked), events);
  }

  // ---- What each operation does, in the fields ----

  /** Arming with a positive delay keeps the delay and the user of the request even where the timer
      cannot start; it takes a fresh timer exactly when it can. Without a delay it disarms. */
  lemma ArmingExactly(a: State, seconds: int, user: Option<string>, starts: bool)
    ensures var (b, armed) := RelockArmed(a, seconds, user, starts);
            && (armed <==> seconds <= 0 || (starts && !a.InMaintenance()))
            && b.relockSeconds == (if seconds > 0 then seconds else 0)
            && b.relockUser == (if seconds > 0 then user else None)
            && b.relock == (if seconds <= 0 then None else if armed then Some(a.nextTimer) else a.relock)
            && (b.trace.clean <==> a.trace.clean && armed)
            && b.unlocked == a.unlocked && b.ignitionOn == a.ignitionOn && b.stop == a.stop
            && b.owner == a.owner && b.ownerId == a.ownerId && b.generation == a.generation
            && b.trace.attempts == a.trace.attempts
  {
  }

  lemma AcceptedCommand(a: State, d: Delivery)
    requires d.Accepted()
    ensures Delivered(a, UNLOCK, d) ==
            a.(trace := a.trace.(attempts := a.trace.attempts + [UNLOCK], lastLock := Some(true)))
  {
  }

  lemma CompensationExactly(c: State, p: UnlockPlan)
    ensures var e := Compensated(c, p);
            && e.owner.None? && e.ownerId.None? && e.generation == c.generation + 1
            && (e.unlocked <==> c.unlocked || p.write.StoredButRaised?)
            && e.relock == (if p.compensation then None else c.relock)
  {
  }

  lemma AcceptedUnlock(a: State, name: string, id: Option<string>, seconds: int, expected: nat, p: UnlockPlan)
    requires UnlockReaches(a, seconds, expected, p.timerStarts) && p.delivery.Accepted()
    ensures var (b, r) := Unlocked(a, name, id, seconds, expected, p);
            && (r.Success? <==> p.write.Stored?)
            && b.generation == a.generation + 1
            && (r.Success? ==>
                  && b.unlocked && b.owner == Some(name) && b.ownerId == id
                  && b.trace.attempts == a.trace.attempts + [UNLOCK] && b.trace.lastLock == Some(true)
                  && b.relock == (if seconds > 0 then Some(a.nextTimer) else None)
                  && b.relockSeconds == (if seconds > 0 then seconds else 0)
                  && b.ignitionOn == a.ignitionOn && b.stop == a.stop)
            && (r.Failure? ==> b.owner.None? && b.ownerId.None? && (b.unlocked <==> a.unlocked || p.write.StoredButRaised?)
                               && (b.relock.Some? <==> seconds > 0 && !p.compensation))
  {
    var b := RelockArmed(a, seconds, id, p.timerStarts).0;
    ArmingExactly(a, seconds, id, p.timerStarts);
    AcceptedCommand(b, p.delivery);
    var c := Delivered(b, UNLOCK, p.delivery);
    CompensationExactly(c, p);
    assert Unlocked(a, name, id, seconds, expected, p)
        == if p.write.Stored? then (UnlockSaved(c, name, id, seconds), Success(())) else (Compensated(c, p), Failure(NotSaved));
  }

  lemma RefusedDelivery(a: State, c: Command, d: Delivery)
    requires !d.Accepted()
    ensures var b := Delivered(a, c, d);
            && (b.owner == a.owner || b.owner.None?) && (b.unlocked ==> a.unlocked)
  {
    if d.Unconfirmed? {
      LockExactly(MarkedLocked(TimersCancelled(a)), d.reset);
    }
  }

  /** An unlock succeeds exactly when its checks pass, its command was accepted and its row stored. It
      then unlocks for the named owner with the relock it asked for, and ends the generation. Otherwise
      nobody becomes the owner, and the car is not unlocked but by a row whose write raised. */
  lemma UnlockExactly(a: State, name: string, id: Option<string>, seconds: int, expected: nat, p: UnlockPlan)
    ensures var (b, r) := Unlocked(a, name, id, seconds, expected, p);
            && (r.Success? <==> UnlockReaches(a, seconds, expected, p.timerStarts) && p.delivery.Accepted() && p.write.Stored?)
            && (r.Success? ==>
                  && b.unlocked && b.owner == Some(name) && b.ownerId == id && b.generation == a.generation + 1
                  && b.trace.attempts == a.trace.attempts + [UNLOCK] && b.trace.lastLock == Some(true)
                  && b.relock == (if seconds > 0 then Some(a.nextTimer) else None)
                  && b.relockSeconds == (if seconds > 0 then seconds else 0)
                  && b.ignitionOn == a.ignitionOn && b.stop == a.stop)
            && (r.Failure? ==> b.owner == a.owner || b.owner.None?)
            && (r.Failure? && b.unlocked && !a.unlocked ==> p.write.StoredButRaised? && p.delivery.Accepted())
  {
    var armed := RelockArmed(a, seconds, id, p.timerStarts).0;
    ArmingExactly(a, seconds, id, p.timerStarts);
    if UnlockReaches(a, seconds, expected, p.timerStarts) {
      if p.delivery.Accepted() {
        AcceptedUnlock(a, name, id, seconds, expected, p);
      } else {
        RefusedDelivery(armed, UNLOCK, p.delivery);
      }
    }
  }

  /** A start succeeds exactly when its checks pass and its command was accepted: the engine runs with
      its own limit armed, and the relock is paused. */
  lemma StartExactly(a: State, seconds: int, bound: Option<nat>, p: IgnitionPlan)
    requires !a.ignitionOn
    ensures var (b, r) := IgnitionSet(a, true, seconds, false, bound, p);
            && (r.Success? <==> StartReaches(a, seconds, bound, p.readable, p.timerStarts) && p.delivery.Accepted())
            && (b.ignitionOn <==> r.Success?)
            && (r.Success? ==>
                  && b.relock.None? && b.relockSeconds == a.relockSeconds && b.relockUser == a.relockUser
                  && b.stop == (if seconds > 0 then Some(a.nextTimer) else None)
                  && b.trace.attempts == a.trace.attempts + [START] && b.trace.stopSeconds == seconds
                  && b.unlocked && b.owner == a.owner && b.generation == a.generation)
  {
    if p.delivery.Unconfirmed? {
      ResetStops(StopArmed(a, seconds, p.timerStarts).0, p.delivery.reset);
    }
  }

  /** A stop outside maintenance succeeds exactly when its command was accepted. The engine is off, no
      stop is armed, and the paused relock counts again if the car is unlocked. */
  lemma StopExactly(a: State, bound: Option<nat>, p: IgnitionPlan)
    requires !a.InMaintenance() && (bound.Some? ==> a.generation == bound.value)
    ensures var (b, r) := IgnitionSet(a, false, 0, false, bound, p);
            && (r.Success? <==> p.delivery.Accepted())
            && (r.Success? ==>
                  && !b.ignitionOn && b.stop.None? && b.trace.attempts == a.trace.attempts + [STOP]
                  && b.unlocked == a.unlocked && b.owner == a.owner && b.generation == a.generation
                  && b.relockSeconds == a.relockSeconds && b.relockUser == a.relockUser
                  && (b.relock.Some? <==> a.relock.Some?
                                          || (a.relockSeconds > 0 && p.readable && a.unlocked && p.timerStarts)))
            && (!p.delivery.Accepted() && !p.delivery.Unconfirmed? ==> b.ignitionOn == a.ignitionOn && b.stop == a.stop)
  {
  }

  lemma DispatchExactly(a: State, p: LockPlan)
    ensures var (b, ok) := DispatchedLock(a, p);
            && (ok <==> p.stop && p.lock && p.write.Stored?)
            && b == a.(trace := b.trace, unlocked := b.unlocked)
            && (b.unlocked <==> a.unlocked && !(p.stop && p.lock && !p.write.Lost?))
            && (b.trace.clean <==> a.trace.clean && ok)
  {
  }

  /** A forced lock always attempts both commands. It is done exactly when both went out and the row
      is stored: then nobody owns the car, nothing runs, and no timer is armed. */
  lemma LockExactly(a: State, p: LockPlan)
    ensures var (b, ok) := ForcedLock(a, p);
            && b.trace.attempts == a.trace.attempts + [STOP, LOCK] && b.generation == a.generation + 1
            && (ok <==> p.stop && p.lock && p.write.Stored?)
            && (ok ==> !b.ignitionOn && b.owner.None? && b.ownerId.None?
                       && b.relock.None? && b.stop.None? && b.relockSeconds == 0 && b.relockUser.None?)
            && (!ok ==> !b.trace.clean && b.ignitionOn == a.ignitionOn && b.owner == a.owner && b.ownerId == a.ownerId
                        && b.relock == a.relock && b.stop == a.stop
                        && b.relockSeconds == a.relockSeconds && b.relockUser == a.relockUser)
            && (b.unlocked <==> a.unlocked && !(p.stop && p.lock && !p.write.Lost?))
  {
    DispatchAttempts(a.(generation := a.generation + 1), p);
    DispatchExactly(a.(generation := a.generation + 1), p);
  }

  /** A start of a running engine changes nothing: as a plain request it is answered as done. */
  lemma RunningEngineStays(a: State, seconds: int, bound: Option<nat>, p: IgnitionPlan)
    requires a.ignitionOn
    ensures IgnitionSet(a, true, seconds, false, bound, p).0 == a
    ensures IgnitionSet(a, true, seconds, false, bound, p).1.Success? <==>
              && !a.InMaintenance() && (bound.Some? ==> a.generation == bound.value) && a.HasOwner() && p.readable && a.unlocked
              && (p.delivery.Sent? || p.delivery.NotSent?)
  {
  }

  /** A lost connection leaves no owner, engine, timer or delay, and maintenance no timer, whether or not the
      lock that each attempts goes through. */
  lemma ResetExactly(a: State, p: LockPlan)
    ensures var r := ConnectionReset(a, p).0;
            && !r.ignitionOn && r.owner.None? && r.ownerId.None? && r.relock.None? && r.stop.None? && r.relockSeconds == 0
            && r.trace.attempts == a.trace.attempts + [STOP, LOCK] && r.generation == a.generation + 1
            && (r.unlocked <==> a.unlocked && !(p.stop && p.lock && !p.write.Lost?))
            && (ConnectionReset(a, p).1 <==> p.stop && p.lock && p.write.Stored?)
  {
    LockExactly(MarkedLocked(TimersCancelled(a)), p);
  }

  lemma MaintenanceExactly(a: State, p: LockPlan)
    ensures var (m, ok) := MaintenanceEntered(a, p);
            && m.InMaintenance() && m.relock.None? && m.stop.None? && m.generation == a.generation + 1
            && m.trace.attempts == a.trace.attempts + [STOP, LOCK]
            && (ok <==> p.stop && p.lock && p.write.Stored?)
            && (ok ==> !m.unlocked && !m.ignitionOn && m.owner.None?)
  {
    LockExactly(TimersCancelled(a.(maintenanceRequested := true, maintenance := true)), p);
  }

  /** An invalidated authorization has no owner and a new generation; the car and its timers stay as they are. */
  lemma InvalidateExactly(a: State, applies: bool)
    ensures var b := Invalidated(a, applies);
            && (applies ==> b.owner.None? && b.ownerId.None? && b.generation == a.generation + 1)
            && (!applies ==> b == a)
            && b.unlocked == a.unlocked && b.ignitionOn == a.ignitionOn && b.relock == a.relock && b.stop == a.stop
            && b.relockSeconds == a.relockSeconds && b.trace == a.trace
  {
  }

  /** Ending maintenance leaves no owner, timer, delay or decision. */
  lemma ResumeExactly(a: State)
    ensures var r := Resumed(a);
            && !r.InMaintenance() && r.owner.None? && r.relock.None? && r.stop.None? && r.relockSeconds == 0
            && !r.ignitionOn && r.unlocked == a.unlocked && r.generation == a.generation + 1
            && r.trace.attempts == a.trace.attempts
  {
  }

  /** A shutdown closes the gate for good, and its last lock is dispatched exactly when there is hardware. */
  lemma ShutdownExactly(a: State, hadHardware: bool, p: LockPlan)
    ensures var s := ShutDown(a, hadHardware, p);
            && s.InMaintenance() && s.relock.None? && s.stop.None? && s.generation == a.generation + 1
            && s.trace.attempts == a.trace.attempts + (if hadHardware then [STOP, LOCK] else [])
            && (hadHardware && p.stop && p.lock && p.write.Stored? ==> s.owner.None? && !s.unlocked && !s.ignitionOn)
  {
    var b := Faulty(TimersCancelled(a.(maintenanceRequested := true, maintenance := true, generation := a.generation + 1)));
    DispatchAttempts(b, p);
    DispatchExactly(b, p);
    assert !hadHardware ==> a.trace.attempts + [] == a.trace.attempts;
  }

  /** A relock that fires uses its timer up whatever comes of it, so it leaves the car unlocked with no
      relock armed exactly when it fires in maintenance, one of its commands is not sent, or its row
      is not stored. */
  lemma RelockFiringDropsTimerExactly(a: State, timer: TimerId, p: LockPlan)
    requires a.relock == Some(timer)
    ensures var b := RelockFired(a, timer, p);
            && b.relock.None?
            && (b.unlocked <==> a.unlocked && (a.InMaintenance() || !p.stop || !p.lock || p.write.Lost?))
  {
  }

  /** A stop that fires likewise: the engine flag stays on with no stop armed exactly when it fires in
      maintenance or STOP is not delivered (and nothing reset the connection). */
  lemma StopFiringDropsTimerExactly(a: State, timer: TimerId, p: IgnitionPlan)
    requires a.stop == Some(timer)
    ensures var b := StopFired(a, timer, p);
            && b.stop.None?
            && (b.ignitionOn <==> a.ignitionOn && (a.InMaintenance() || (!p.delivery.Accepted() && !p.delivery.Unconfirmed?)))
  {
    if p.delivery.Unconfirmed? {
      ResetStops(a.(stop := None), p.delivery.reset);
    }
  }

  lemma ResetStops(a: State, p: LockPlan)
    ensures !ConnectionReset(a, p).0.ignitionOn && ConnectionReset(a, p).0.stop.None?
  {
  }

  /** An unlock of an unlocked car that is not delivered drops the relock that was armed before it,
      unless it fails before its own relock is armed. */
  lemma UndeliveredUnlockDropsTimerExactly(a: State, name: string, id: Option<string>, seconds: int, expected: nat, p: UnlockPlan)
    requires !p.delivery.Accepted() && a.relock.Some?
    ensures Unlocked(a, name, id, seconds, expected, p).0.relock.None? <==> UnlockReaches(a, seconds, expected, p.timerStarts)
  {
  }

  /** One of them is reached from boot: an unlock, and a relock whose LOCK is not sent. */
  lemma DroppedRelockIsReachable()
    ensures var a := Run(Booted(false), [AMBIGUOUS_RUN[0], FireRelock(0, LockPlan(true, false, Stored))]);
            a.unlocked && a.relock.None?
  {
    var events := [AMBIGUOUS_RUN[0], FireRelock(0, LockPlan(true, false, Stored))];
    assert events[..1] == AMBIGUOUS_RUN[..1];
    UnlockedDriving();
    RunPrefix(Booted(false), events, 1, FireRelock(0, LockPlan(true, false, Stored)));
    assert events[..2] == events;
    RelockFiringDropsTimerExactly(Run(Booted(false), events[..1]), 0, LockPlan(true, false, Stored));
  }

  // ---- How any step moves timers, generation and unlocks ----

  function CountLocks(commands: seq<Command>): nat {
    if commands == [] then 0
    else CountLocks(commands[..|commands| - 1]) + (if commands[|commands| - 1] == LOCK then 1 else 0)
  }

  lemma CountAppend(commands: seq<Command>, c: Command)
    ensures CountLocks(commands + [c]) == CountLocks(commands) + (if c == LOCK then 1 else 0)
  {
    assert (commands + [c])[..|commands|] == commands;
  }

  /** Nothing that revokes an earlier decision happened between the two states: no unlock
      succeeded, no LOCK was attempted, the owner is the same, and no maintenance ended. */
  predicate SameAuthority(a: State, b: State) {
    && b.trace.unlocks == a.trace.unlocks
    && CountLocks(b.trace.attempts) == CountLocks(a.trace.attempts)
    && b.owner == a.owner && b.ownerId == a.ownerId
    && (a.InMaintenance() ==> b.InMaintenance())
  }

  /** A timer field keeps its timer, is emptied, or takes a fresh one. */
  predicate TimerEvolves(a: Option<TimerId>, next: TimerId, b: Option<TimerId>, nextAfter: TimerId) {
    b == a || b.None? || next <= b.value < nextAfter
  }

  predicate Evolves(a: State, b: State) {
    && a.nextTimer <= b.nextTimer
    && TimerEvolves(a.relock, a.nextTimer, b.relock, b.nextTimer)
    && TimerEvolves(a.stop, a.nextTimer, b.stop, b.nextTimer)
    && a.generation <= b.generation
    && (a.generation == b.generation ==> SameAuthority(a, b))
    && (b.trace.unlocks == a.trace.unlocks
        || (b.trace.unlocks == a.trace.unlocks + [a.generation] && a.generation < b.generation))
  }

  lemma LockEvolves(a: State, p: LockPlan)
    ensures var b := ForcedLock(a, p).0;
            && b.generation == a.generation + 1
            && b.trace.unlocks == a.trace.unlocks
            && b.nextTimer == a.nextTimer
            && (b.relock == a.relock || b.relock.None?) && (b.stop == a.stop || b.stop.None?)
  {
  }

  lemma DeliveryEvolves(a: State, c: Command, d: Delivery)
    requires c != LOCK
    ensures var b := Delivered(a, c, d);
            && b.nextTimer == a.nextTimer
            && (b.relock == a.relock || b.relock.None?) && (b.stop == a.stop || b.stop.None?)
            && a.generation <= b.generation
            && b.trace.unlocks == a.trace.unlocks
            && (a.generation == b.generation ==> SameAuthority(a, b))
  {
    if d.Unconfirmed? {
      LockEvolves(MarkedLocked(TimersCancelled(a)), d.reset);
    } else if d.Sent? || d.Acknowledged? || d.NotSent? {
      CommandEvolves(a, c, !d.NotSent?);
    }
  }

  lemma CommandEvolves(a: State, c: Command, delivered: bool)
    requires c != LOCK
    ensures var b := Commanded(a, c, delivered);
            && b == a.(trace := b.trace) && b.trace.unlocks == a.trace.unlocks
            && CountLocks(b.trace.attempts) == CountLocks(a.trace.attempts)
  {
    CountAppend(a.trace.attempts, c);
  }

  lemma EvolvesThrough(a: State, b: State, c: State)
    requires Evolves(a, b) && Evolves(b, c) && a.generation == b.generation
    ensures Evolves(a, c)
  {
  }

  lemma ArmingEvolves(a: State, seconds: int, user: Option<string>, starts: bool)
    ensures Evolves(a, RelockArmed(a, seconds, user, starts).0)
    ensures RelockArmed(a, seconds, user, starts).0.generation == a.generation
  {
  }

  lemma RefusedDeliveryEvolves(b: State, c: Command, d: Delivery)
    requires c != LOCK
    ensures Evolves(b, Delivered(b, c, d)) && Evolves(b, Delivered(b, c, d).(relock := None))
    ensures d.Accepted() ==> Delivered(b, c, d).generation == b.generation
  {
    DeliveryEvolves(b, c, d);
  }

  lemma UnlockEvolves(a: State, name: string, id: Option<string>, seconds: int, expected: nat, p: UnlockPlan)
    ensures Evolves(a, Unlocked(a, name, id, seconds, expected, p).0)
  {
    var b := RelockArmed(a, seconds, id, p.timerStarts).0;
    var c := Delivered(b, UNLOCK, p.delivery);
    ArmingEvolves(a, seconds, id, p.timerStarts);
    RefusedDeliveryEvolves(b, UNLOCK, p.delivery);
    EvolvesThrough(a, b, c);
    EvolvesThrough(a, b, c.(relock := None));
    if p.delivery.Accepted() {
      RecordingEvolves(c, name, id, seconds, p);
      EvolvesThrough(a, c, UnlockSaved(c, name, id, seconds));
      EvolvesThrough(a, c, Compensated(c, p));
    }
  }

  lemma RecordingEvolves(c: State, name: string, id: Option<string>, seconds: int, p: UnlockPlan)
    ensures Evolves(c, UnlockSaved(c, name, id, seconds)) && Evolves(c, Compensated(c, p))
  {
  }

  lemma StartEvolves(a: State, seconds: int, p: IgnitionPlan)
    ensures Evolves(a, Started(a, seconds, p).0)
  {
    DeliveryEvolves(StopArmed(a, seconds, p.timerStarts).0, START, p.delivery);
  }

  lemma RestartEvolves(c: State, readable: bool, starts: bool)
    ensures Evolves(c, RelockRestarted(c.(ignitionOn := false, stop := None), readable, starts))
  {
  }

  lemma StoppedEvolves(a: State, p: IgnitionPlan)
    ensures Evolves(a, Stopped(a, p).0)
  {
    var c := Delivered(a, STOP, p.delivery);
    RefusedDeliveryEvolves(a, STOP, p.delivery);
    if p.delivery.Accepted() {
      RestartEvolves(c, p.readable, p.timerStarts);
      EvolvesThrough(a, c, RelockRestarted(c.(ignitionOn := false, stop := None), p.readable, p.timerStarts));
    }
  }

  lemma IgnitionEvolves(a: State, running: bool, limit: int, closed: bool, bound: Option<nat>, p: IgnitionPlan)
    ensures Evolves(a, IgnitionSet(a, running, limit, closed, bound, p).0)
  {
    if running {
      StartEvolves(a, limit, p);
    } else {
      StoppedEvolves(a, p);
    }
  }

  lemma ForcedEvolves(a: State, b: State, p: LockPlan)
    requires b.nextTimer == a.nextTimer && b.generation == a.generation && b.trace == a.trace
    requires (b.relock == a.relock || b.relock.None?) && (b.stop == a.stop || b.stop.None?)
    ensures Evolves(a, ForcedLock(b, p).0)
  {
    LockEvolves(b, p);
  }

  lemma StopFiredEvolves(a: State, timer: TimerId, p: IgnitionPlan)
    ensures Evolves(a, StopFired(a, timer, p))
  {
    IgnitionEvolves(a.(stop := None), false, 0, false, None, p);
  }

  lemma NextEvolves(a: State, e: Event)
    ensures Evolves(a, Next(a, e))
  {
    match e
    case Unlock(name, id, seconds, expected, p) => UnlockEvolves(a, name, id, seconds, expected, p);
    case SetIgnition(running, limit, closed, bound, p) => IgnitionEvolves(a, running, limit, closed, bound, p);
    case ForceLock(p) => ForcedEvolves(a, a, p);
    case ResetConnection(p) => ForcedEvolves(a, MarkedLocked(TimersCancelled(a)), p);
    case FireRelock(timer, p) => ForcedEvolves(a, a.(relock := None), p);
    case FireStop(timer, p) => StopFiredEvolves(a, timer, p);
    case EnterMaintenance(p) => ForcedEvolves(a, TimersCancelled(a.(maintenanceRequested := true, maintenance := true)), p);
    case Shutdown(hadHardware, p) => ShutdownEvolves(a, hadHardware, p);
    case _ =>
  }

  lemma ShutdownEvolves(a: State, hadHardware: bool, p: LockPlan)
    ensures Evolves(a, ShutDown(a, hadHardware, p))
  {
  }

  // ---- An authorization that the controller did not acknowledge ----

  lemma AppendTwo(commands: seq<Command>, c: Command, d: Command)
    ensures commands + [c] + [d] == commands + [c, d]
  {
  }

  lemma DispatchAttempts(a: State, p: LockPlan)
    ensures DispatchedLock(a, p).0.trace.attempts == a.trace.attempts + [STOP, LOCK]
    ensures DispatchedLock(a, p).0.trace.unlocks == a.trace.unlocks && DispatchedLock(a, p).0.ignitionOn == a.ignitionOn
  {
    AppendTwo(a.trace.attempts, STOP, LOCK);
  }

  lemma ResetAttempts(a: State, p: LockPlan)
    ensures ConnectionReset(a, p).0.trace.attempts == a.trace.attempts + [STOP, LOCK]
    ensures ConnectionReset(a, p).0.trace.unlocks == a.trace.unlocks && !ConnectionReset(a, p).0.ignitionOn
  {
    var b := MarkedLocked(TimersCancelled(a));
    DispatchAttempts(b.(generation := b.generation + 1), p);
  }

  lemma UnconfirmedDelivery(a: State, c: Command, p: LockPlan)
    ensures Delivered(a, c, Unconfirmed(p)).trace.attempts == a.trace.attempts + [STOP, LOCK]
  {
    ResetAttempts(a, p);
  }

  /** STOP and LOCK are attempted inside the same locked step exactly when the callback was reached, and
      nothing is granted. */
  lemma UnconfirmedUnlock(a: State, name: string, id: Option<string>, seconds: int, expected: nat, p: UnlockPlan)
    requires p.delivery.Unconfirmed?
    ensures var (b, r) := Unlocked(a, name, id, seconds, expected, p);
            && r.Failure?
            && b.trace.attempts == a.trace.attempts + (if UnlockReaches(a, seconds, expected, p.timerStarts) then [STOP, LOCK] else [])
  {
    if UnlockReaches(a, seconds, expected, p.timerStarts) {
      UnconfirmedDelivery(RelockArmed(a, seconds, id, p.timerStarts).0, UNLOCK, p.delivery.reset);
    } else {
      assert a.trace.attempts + [] == a.trace.attempts;
    }
  }

  lemma UnconfirmedStart(a: State, seconds: int, bound: Option<nat>, p: IgnitionPlan)
    requires p.delivery.Unconfirmed?
    ensures var (b, r) := IgnitionSet(a, true, seconds, false, bound, p);
            && r.Failure?
            && b.trace.attempts == a.trace.attempts + (if StartReaches(a, seconds, bound, p.readable, p.timerStarts) then [STOP, LOCK] else [])
  {
    if StartReaches(a, seconds, bound, p.readable, p.timerStarts) {
      UnconfirmedDelivery(StopArmed(a, seconds, p.timerStarts).0, START, p.delivery.reset);
    } else {
      assert a.trace.attempts + [] == a.trace.attempts;
    }
  }

  /** A callback that answers no without an attempt sends nothing and grants nothing. */
  lemma WithheldGrant(a: State, name: string, id: Option<string>, seconds: int, expected: nat, p: UnlockPlan, q: IgnitionPlan)
    requires p.delivery.Withheld? && q.delivery.Withheld?
    ensures var (b, r) := Unlocked(a, name, id, seconds, expected, p); r.Failure? && b.trace.attempts == a.trace.attempts
    ensures var (b, r) := IgnitionSet(a, true, seconds, false, Some(expected), q); r.Failure? && b.trace.attempts == a.trace.attempts
  {
  }

  // ---- Timers that fire late ----

  predicate TimersBelow(a: State) {
    && (a.relock.Some? ==> a.relock.value < a.nextTimer)
    && (a.stop.Some? ==> a.stop.value < a.nextTimer)
  }

  lemma {:induction false} BootedTimersBelow(unlocked: bool, events: seq<Event>)
    ensures TimersBelow(Run(Booted(unlocked), events))
    decreases |events|
  {
    if events != [] {
      BootedTimersBelow(unlocked, events[..|events| - 1]);
      NextEvolves(Run(Booted(unlocked), events[..|events| - 1]), events[|events| - 1]);
    }
  }

  /** A timer number that was given out and is not current never becomes current again. */
  lemma {:induction false} StaleTimerStaysStale(a: State, later: seq<Event>, timer: TimerId)
    requires timer < a.nextTimer
    ensures var b := Run(a, later);
            && timer < b.nextTimer
            && (a.relock != Some(timer) ==> b.relock != Some(timer))
            && (a.stop != Some(timer) ==> b.stop != Some(timer))
    decreases |later|
  {
    if later != [] {
      StaleTimerStaysStale(a, later[..|later| - 1], timer);
      NextEvolves(Run(a, later[..|later| - 1]), later[|later| - 1]);
    }
  }

  lemma SplitLast(events: seq<Event>, later: seq<Event>)
    requires later != []
    ensures var n := |later| - 1;
            later == later[..n] + [later[n]] && events + later == (events + later[..n]) + [later[n]]
  {
  }

  lemma {:induction false} RunAppend(a: State, events: seq<Event>, later: seq<Event>)
    ensures Run(a, events + later) == Run(Run(a, events), later)
    decreases |later|
  {
    if later == [] {
      assert events + later == events;
    } else {
      var n := |later| - 1;
      SplitLast(events, later);
      RunAppend(a, events, later[..n]);
      SameLast(a, events + later[..n], Run(a, events), later[..n], later[n]);
    }
  }

  /** Two runs that have reached the same state. */
  lemma SameLast(a: State, first: seq<Event>, b: State, second: seq<Event>, e: Event)
    requires Run(a, first) == Run(b, second)
    ensures Run(a, first + [e]) == Run(b, second + [e])
  {
    RunLast(a, first, e);
    RunLast(b, second, e);
  }

  lemma RunLast(a: State, events: seq<Event>, e: Event)
    ensures Run(a, events + [e]) == Next(Run(a, events), e)
  {
    assert (events + [e])[..|events|] == events;
  }

  /** In every run from boot: a timer that was armed and was then superseded or cancelled changes nothing
      whenever it fires, whatever happened since. */
  lemma LateTimersAreInert(unlocked: bool, events: seq<Event>, since: seq<Event>, later: seq<Event>, timer: TimerId)
    ensures var armed := Run(Booted(unlocked), events);
            var gone := Run(Booted(unlocked), events + since);
            var b := Run(Booted(unlocked), events + since + later);
            && (armed.relock == Some(timer) && gone.relock != Some(timer) ==> forall p :: Next(b, FireRelock(timer, p)) == b)
            && (armed.stop == Some(timer) && gone.stop != Some(timer) ==> forall p :: Next(b, FireStop(timer, p)) == b)
  {
    var armed := Run(Booted(unlocked), events);
    BootedTimersBelow(unlocked, events);
    if timer < armed.nextTimer {
      RunAppend(Booted(unlocked), events, since);
      StaleTimerStaysStale(armed, since, timer);
      RunAppend(Booted(unlocked), events + since, later);
      StaleTimerStaysStale(Run(Booted(unlocked), events + since), later, timer);
    }
  }

  // ---- What the generation counter protects ----

  /** The events that revoke every earlier decision: an unlock whose command was accepted, an attempted
      LOCK, an invalidated owner (even of a car that has none), a resume and a shutdown. */
  predicate Revokes(a: State, e: Event) {
    match e
    case Unlock(_, _, seconds, expected, p) =>
      UnlockReaches(a, seconds, expected, p.timerStarts) && (p.delivery.Accepted() || p.delivery.Unconfirmed?)
    case SetIgnition(running, limit, closed, bound, p) =>
      && p.delivery.Unconfirmed? && !closed
      && (if running then StartReaches(a, limit, bound, p.readable, p.timerStarts)
          else !a.InMaintenance() && (bound.Some? ==> a.generation == bound.value))
    case ForceLock(_) => !a.InMaintenance()
    case ResetConnection(_) => true
    case FireRelock(timer, _) => a.relock == Some(timer) && !a.InMaintenance()
    case FireStop(timer, p) => a.stop == Some(timer) && !a.InMaintenance() && p.delivery.Unconfirmed?
    case RequestMaintenance => false
    case EnterMaintenance(_) => true
    case Resume => true
    case Shutdown(_, _) => true
    case Invalidate(applies) => applies
  }

  /** A delivery moves the generation only by the reset of an unconfirmed grant. */
  lemma DeliveryMoves(a: State, c: Command, d: Delivery)
    ensures Delivered(a, c, d).generation == a.generation + (if d.Unconfirmed? then 1 else 0)
  {
    if d.Unconfirmed? {
      LockEvolves(MarkedLocked(TimersCancelled(a)), d.reset);
    }
  }

  lemma RecordingMoves(c: State, name: string, id: Option<string>, seconds: int, p: UnlockPlan)
    ensures UnlockSaved(c, name, id, seconds).generation == c.generation + 1 && Compensated(c, p).generation == c.generation + 1
  {
  }

  lemma ArmingMoves(a: State, seconds: int, id: Option<string>, starts: bool)
    ensures RelockArmed(a, seconds, id, starts).0.generation == a.generation
    ensures !a.InMaintenance() ==> (RelockArmed(a, seconds, id, starts).1 <==> seconds <= 0 || starts)
  {
  }

  lemma UnlockMoves(a: State, name: string, id: Option<string>, seconds: int, expected: nat, p: UnlockPlan)
    ensures var moves := UnlockReaches(a, seconds, expected, p.timerStarts) && (p.delivery.Accepted() || p.delivery.Unconfirmed?);
            Unlocked(a, name, id, seconds, expected, p).0.generation == a.generation + (if moves then 1 else 0)
  {
    var b := RelockArmed(a, seconds, id, p.timerStarts).0;
    ArmingMoves(a, seconds, id, p.timerStarts);
    if UnlockReaches(a, seconds, expected, p.timerStarts) {
      var c := Delivered(b, UNLOCK, p.delivery);
      DeliveryMoves(b, UNLOCK, p.delivery);
      RecordingMoves(c, name, id, seconds, p);
      var r := Unlocked(a, name, id, seconds, expected, p).0;
      assert r == if !p.delivery.Accepted() then c.(relock := None) else if p.write.Stored? then UnlockSaved(c, name, id, seconds) else Compensated(c, p);
    }
  }

  lemma StartMoves(a: State, seconds: int, closed: bool, bound: Option<nat>, p: IgnitionPlan)
    ensures var moves := !closed && StartReaches(a, seconds, bound, p.readable, p.timerStarts) && p.delivery.Unconfirmed?;
            IgnitionSet(a, true, seconds, closed, bound, p).0.generation == a.generation + (if moves then 1 else 0)
  {
    DeliveryMoves(StopArmed(a, seconds, p.timerStarts).0, START, p.delivery);
  }

  lemma StopMoves(a: State, seconds: int, closed: bool, bound: Option<nat>, p: IgnitionPlan)
    ensures var moves := !a.InMaintenance() && !closed && (bound.Some? ==> a.generation == bound.value) && p.delivery.Unconfirmed?;
            IgnitionSet(a, false, seconds, closed, bound, p).0.generation == a.generation + (if moves then 1 else 0)
  {
    DeliveryMoves(a, STOP, p.delivery);
  }

  /** The generation moves at exactly the revoking events, and never back. */
  lemma GenerationMovesExactly(a: State, e: Event)
    ensures Next(a, e).generation >= a.generation
    ensures Next(a, e).generation != a.generation <==> Revokes(a, e)
  {
    match e
    case Unlock(name, id, seconds, expected, p) => UnlockMoves(a, name, id, seconds, expected, p);
    case SetIgnition(running, limit, closed, bound, p) =>
      if running {
        StartMoves(a, limit, closed, bound, p);
      } else {
        StopMoves(a, limit, closed, bound, p);
      }
    case ForceLock(p) => LockEvolves(a, p);
    case ResetConnection(p) => LockEvolves(MarkedLocked(TimersCancelled(a)), p);
    case FireRelock(timer, p) => LockEvolves(a.(relock := None), p);
    case FireStop(timer, p) => StopMoves(a.(stop := None), 0, false, None, p);
    case EnterMaintenance(p) => LockEvolves(TimersCancelled(a.(maintenanceRequested := true, maintenance := true)), p);
    case Shutdown(hadHardware, p) => ShutdownMoves(a, hadHardware, p);
    case _ =>
  }

  lemma ShutdownMoves(a: State, hadHardware: bool, p: LockPlan)
    ensures ShutDown(a, hadHardware, p).generation == a.generation + 1
  {
  }

  predicate Unrevoked(a: State, events: seq<Event>) {
    forall i :: 0 <= i < |events| ==> !Revokes(Run(a, events[..i]), events[i])
  }

  lemma UnrevokedExtends(a: State, events: seq<Event>)
    requires events != []
    ensures var n := |events| - 1;
            Unrevoked(a, events) <==> Unrevoked(a, events[..n]) && !Revokes(Run(a, events[..n]), events[n])
  {
    var n := |events| - 1;
    forall i | 0 <= i < n
      ensures Revokes(Run(a, events[..n][..i]), events[..n][i]) == Revokes(Run(a, events[..i]), events[i])
    {
      assert events[..n][..i] == events[..i];
    }
  }

  /** One step and a run before it: what SameGenerationSameAuthority concludes is passed on. */
  lemma AuthorityStep(a: State, b: State, e: Event)
    requires SameAuthority(a, b) && !Revokes(b, e)
    ensures SameAuthority(a, Next(b, e))
  {
    NextEvolves(b, e);
    GenerationMovesExactly(b, e);
  }

  /** A generation that has not moved means exactly that no event in between revoked anything; then no
      unlock succeeded, no LOCK was attempted, the owner is the same and no maintenance ended. */
  lemma {:induction false} SameGenerationSameAuthority(a: State, events: seq<Event>)
    ensures Run(a, events).generation >= a.generation
    ensures Run(a, events).generation == a.generation <==> Unrevoked(a, events)
    ensures Unrevoked(a, events) ==> SameAuthority(a, Run(a, events))
    decreases |events|
  {
    if events != [] {
      var n := |events| - 1;
      SameGenerationSameAuthority(a, events[..n]);
      UnrevokedExtends(a, events);
      GenerationMovesExactly(Run(a, events[..n]), events[n]);
      if Unrevoked(a, events) {
        AuthorityStep(a, Run(a, events[..n]), events[n]);
      }
    }
  }

  /** A scan bound to the generation it started in unlocks, or starts the engine, only if no event
      revoked it meanwhile. */
  lemma ScansBindToTheirGeneration(a: State, events: seq<Event>, name: string, id: Option<string>, seconds: int,
                                   unlock: UnlockPlan, ignition: IgnitionPlan)
    ensures Unlocked(Run(a, events), name, id, seconds, a.generation, unlock).1.Success? ==>
              Unrevoked(a, events) && SameAuthority(a, Run(a, events)) && !Run(a, events).InMaintenance()
    ensures IgnitionSet(Run(a, events), true, seconds, false, Some(a.generation), ignition).1.Success? ==>
              Unrevoked(a, events) && SameAuthority(a, Run(a, events)) && !Run(a, events).InMaintenance()
  {
    SameGenerationSameAuthority(a, events);
  }

  predicate UnlocksIncrease(a: State) {
    && (forall i, j :: 0 <= i < j < |a.trace.unlocks| ==> a.trace.unlocks[i] < a.trace.unlocks[j])
    && (forall i :: 0 <= i < |a.trace.unlocks| ==> a.trace.unlocks[i] < a.generation)
  }

  /** At most one unlock succeeds per generation value. */
  lemma {:induction false} OneUnlockPerGeneration(unlocked: bool, events: seq<Event>)
    ensures UnlocksIncrease(Run(Booted(unlocked), events))
    decreases |events|
  {
    if events != [] {
      OneUnlockPerGeneration(unlocked, events[..|events| - 1]);
      NextEvolves(Run(Booted(unlocked), events[..|events| - 1]), events[|events| - 1]);
    }
  }

  // ---- The runtime ----

  class RuntimeActuation {
    var ignitionOn: bool
    var unlockOwner: Option<string>
    var unlockOwnerId: Option<string>
    var generation: nat
    var autoRelockTimer: Option<TimerId>
    var relockSeconds: int
    var relockUserId: Option<string>
    var ignitionStopTimer: Option<TimerId>
    var maintenanceRequested: bool
    var maintenance: bool
    var dbUnlocked: bool          // lock_state of the database row
    var nextTimer: TimerId
    ghost var trace: Trace

    ghost function View(): State
      reads this
    {
      State(ignitionOn, unlockOwner, unlockOwnerId, generation, autoRelockTimer, relockSeconds, relockUserId,
            ignitionStopTimer, maintenanceRequested, maintenance, dbUnlocked, nextTimer, trace)
    }

    constructor (unlocked: bool)
      ensures View() == Booted(unlocked)
    {
      ignitionOn, unlockOwner, unlockOwnerId, generation := false, None, None, 0;
      autoRelockTimer, relockSeconds, relockUserId, ignitionStopTimer := None, 0, None, None;
      maintenanceRequested, maintenance, dbUnlocked, nextTimer := false, false, unlocked, 0;
      trace := Trace([], None, None, 0, 0, None, [], true);
    }

    predicate WouldUnlock(seconds: int, expected: nat, timerStarts: bool)
      reads this
      ensures WouldUnlock(seconds, expected, timerStarts) == UnlockReaches(View(), seconds, expected, timerStarts)
    {
      !maintenanceRequested && !maintenance && generation == expected && (seconds <= 0 || timerStarts)
    }

    predicate WouldStart(seconds: int, expected: Option<nat>, readable: bool, timerStarts: bool)
      reads this
      ensures WouldStart(seconds, expected, readable, timerStarts) == StartReaches(View(), seconds, expected, readable, timerStarts)
    {
      && !maintenanceRequested && !maintenance && (expected.Some? ==> generation == expected.value)
      && unlockOwner.Some? && unlockOwner.value != "" && readable && dbUnlocked && !ignitionOn
      && (seconds <= 0 || timerStarts)
    }

    method SendCommand(command: Command, delivered: bool) returns (sent: bool)
      modifies this`trace
      ensures View() == Commanded(old(View()), command, delivered) && sent == delivered
    {
      trace := Commanded(View(), command, delivered).trace;
      return delivered;
    }

    ghost method NoteFault()
      modifies this`trace
      ensures View() == Faulty(old(View()))
    {
      trace := trace.(clean := false);
    }

    method MarkLocked()
      modifies this
      ensures View() == MarkedLocked(old(View()))
    {
      ignitionOn := false;
      relockSeconds := 0;
      relockUserId := None;
      ClearOwner();
    }

    method ClearOwner()
      modifies this`unlockOwner, this`unlockOwnerId
      ensures unlockOwner == None && unlockOwnerId == None
    {
      unlockOwner := None;
      unlockOwnerId := None;
    }

    method CancelTimers()
      modifies this`autoRelockTimer, this`ignitionStopTimer
      ensures View() == TimersCancelled(old(View()))
    {
      autoRelockTimer := None;
      ignitionStopTimer := None;
    }

    method DispatchLock(plan: LockPlan) returns (ok: bool)
      modifies this
      ensures (View(), ok) == DispatchedLock(old(View()), plan)
    {
      var stopOk := SendCommand(STOP, plan.stop);
      var lockOk := SendCommand(LOCK, plan.lock);
      if !stopOk || !lockOk {
        return false;
      }
      if !plan.write.Lost? {
        dbUnlocked := false;
      }
      if !plan.write.Stored? {
        NoteFault();
        return false;
      }
      return true;
    }

    method LockNow(plan: LockPlan) returns (ok: bool)
      modifies this
      ensures (View(), ok) == ForcedLock(old(View()), plan)
    {
      generation := generation + 1;
      ok := DispatchLock(plan);
      if ok {
        CancelTimers();
        MarkLocked();
      }
    }

    method ForceLock(plan: LockPlan) returns (r: Result<(), Error>)
      modifies this
      ensures View() == Next(old(View()), Event.ForceLock(plan))
      ensures r == if old(View()).InMaintenance() then Failure(MaintenanceError)
                   else if ForcedLock(old(View()), plan).1 then Success(()) else Failure(NotDelivered)
    {
      if maintenanceRequested || maintenance {
        return Failure(MaintenanceError);
      }
      var ok := LockNow(plan);
      return if ok then Success(()) else Failure(NotDelivered);
    }

    method ResetConnection(plan: LockPlan) returns (ok: bool)
      modifies this
      ensures (View(), ok) == ConnectionReset(old(View()), plan)
    {
      CancelTimers();
      MarkLocked();
      ok := LockNow(plan);
    }

    method ArmAutoRelock(seconds: int, userId: Option<string>, starts: bool) returns (armed: bool)
      modifies this
      ensures (View(), armed) == RelockArmed(old(View()), seconds, userId, starts)
    {
      if seconds <= 0 {
        autoRelockTimer := None;
        relockSeconds := 0;
        relockUserId := None;
        return true;
      }
      relockSeconds := seconds;
      relockUserId := userId;
      if maintenanceRequested || maintenance || !starts {
        NoteFault();
        return false;
      }
      autoRelockTimer := Some(nextTimer);
      nextTimer := nextTimer + 1;
      return true;
    }

    method ArmIgnitionStop(seconds: int, starts: bool) returns (armed: bool)
      modifies this
      ensures (View(), armed) == StopArmed(old(View()), seconds, starts)
    {
      if seconds <= 0 {
        ignitionStopTimer := None;
        return true;
      }
      if maintenanceRequested || maintenance || !starts {
        NoteFault();
        return false;
      }
      ignitionStopTimer := Some(nextTimer);
      nextTimer := nextTimer + 1;
      return true;
    }

    /** Send the command, or run the hardware authorization callback, which may reset the
        connection from inside the same lock. */
    method Deliver(command: Command, delivery: Delivery) returns (sent: bool)
      modifies this
      ensures View() == Delivered(old(View()), command, delivery) && sent == delivery.Accepted()
    {
      match delivery
      case Sent => sent := SendCommand(command, true);
      case Acknowledged => sent := SendCommand(command, true);
      case NotSent => sent := SendCommand(command, false);
      case Withheld => NoteFault(); sent := false;
      case Unconfirmed(reset) =>
        var _ := ResetConnection(reset);
        NoteFault();
        sent := false;
      case CallbackRaised => NoteFault(); sent := false;
    }

    method Unlock(name: string, userId: Option<string>, seconds: int, expected: nat, plan: UnlockPlan)
      returns (r: Result<(), Error>)
      modifies this
      ensures (View(), r) == Unlocked(old(View()), name, userId, seconds, expected, plan)
    {
      if maintenanceRequested || maintenance {
        return Failure(MaintenanceError);
      }
      if generation != expected {
        return Failure(AuthorizationChanged);
      }
      var armed := ArmAutoRelock(seconds, userId, plan.timerStarts);
      if !armed {
        return Failure(TimerFailed);
      }
      var sent := Deliver(UNLOCK, plan.delivery);
      if !sent {
        autoRelockTimer := None;
        return Failure(NotDelivered);
      }
      if !plan.write.Stored? {
        Compensate(plan);
        return Failure(NotSaved);
      }
      RecordUnlock(name, userId, seconds);
      return Success(());
    }

    method RecordUnlock(name: string, userId: Option<string>, ghost seconds: int)
      modifies this
      ensures View() == UnlockSaved(old(View()), name, userId, seconds)
    {
      dbUnlocked := true;
      unlockOwner := Some(name);
      unlockOwnerId := userId;
      trace := trace.(unlocks := trace.unlocks + [generation], relockSeconds := seconds, relockUser := userId);
      generation := generation + 1;
    }

    method Compensate(plan: UnlockPlan)
      modifies this
      ensures View() == Compensated(old(View()), plan)
    {
      if plan.write.StoredButRaised? {
        dbUnlocked := true;
      }
      NoteFault();
      var sent := SendCommand(LOCK, plan.compensation);
      if sent {
        autoRelockTimer := None;
      }
      ClearOwner();
      generation := generation + 1;
    }

    method SetIgnition(running: bool, seconds: int, closed: bool, expected: Option<nat>, plan: IgnitionPlan)
      returns (r: Result<(), Error>)
      modifies this
      ensures (View(), r) == IgnitionSet(old(View()), running, seconds, closed, expected, plan)
    {
      if maintenanceRequested || maintenance {
        return Failure(MaintenanceError);
      }
      if closed {
        return Failure(ShuttingDown);
      }
      if expected.Some? && generation != expected.value {
        return Failure(AuthorizationChanged);
      }
      if running {
        r := StartEngine(seconds, plan);
      } else {
        r := StopEngine(plan);
      }
    }

    method StartEngine(seconds: int, plan: IgnitionPlan) returns (r: Result<(), Error>)
      modifies this
      ensures (View(), r) == Started(old(View()), seconds, plan)
    {
      if unlockOwner.None? || unlockOwner.value == "" {
        return Failure(UnlockRequired);
      }
      if !plan.readable {
        return Failure(StateUnreadable);
      }
      if !dbUnlocked {
        return Failure(DeviceLocked);
      }
      if ignitionOn {
        return if plan.delivery.Sent? || plan.delivery.NotSent? then Success(()) else Failure(AlreadyRunning);
      }
      var armed := ArmIgnitionStop(seconds, plan.timerStarts);
      if !armed {
        return Failure(TimerFailed);
      }
      var sent := Deliver(START, plan.delivery);
      if !sent {
        ignitionStopTimer := None;
        return Failure(NotDelivered);
      }
      ignitionOn := true;
      trace := trace.(stopSeconds := seconds);
      autoRelockTimer := None;
      return Success(());
    }

    method StopEngine(plan: IgnitionPlan) returns (r: Result<(), Error>)
      modifies this
      ensures (View(), r) == Stopped(old(View()), plan)
    {
      var sent := Deliver(STOP, plan.delivery);
      if !sent {
        return Failure(NotDelivered);
      }
      ignitionOn := false;
      ignitionStopTimer := None;
      RestartAutoRelock(plan.readable, plan.timerStarts);
      return Success(());
    }

    method RestartAutoRelock(readable: bool, starts: bool)
      modifies this
      ensures View() == RelockRestarted(old(View()), readable, starts)
    {
      if relockSeconds <= 0 || autoRelockTimer.Some? {
        return;
      }
      if !readable {
        NoteFault();
        return;
      }
      if dbUnlocked {
        var _ := ArmAutoRelock(relockSeconds, relockUserId, starts);
      }
    }

    /** A relock timer's callback: only the current timer acts, and it is spent either way. */
    method RelockIfCurrent(timer: TimerId, plan: LockPlan)
      modifies this
      ensures View() == RelockFired(old(View()), timer, plan)
    {
      if autoRelockTimer != Some(timer) {
        return;
      }
      autoRelockTimer := None;
      if maintenanceRequested || maintenance {
        return;
      }
      var _ := LockNow(plan);
    }

    method StopIfCurrent(timer: TimerId, plan: IgnitionPlan)
      modifies this
      ensures View() == StopFired(old(View()), timer, plan)
    {
      if ignitionStopTimer != Some(timer) {
        return;
      }
      ignitionStopTimer := None;
      if maintenanceRequested || maintenance {
        return;
      }
      var _ := SetIgnition(false, 0, false, None, plan);
    }

    /** quiesce, first half: the request is visible before the actuation lock is obtained. */
    method RequestMaintenance()
      modifies this`maintenanceRequested
      ensures maintenanceRequested
    {
      maintenanceRequested := true;
    }

    /** quiesce, second half, under the lock. */
    method EnterMaintenance(plan: LockPlan) returns (ok: bool)
      modifies this
      ensures (View(), ok) == MaintenanceEntered(old(View()), plan)
    {
      maintenanceRequested := true;
      maintenance := true;
      CancelTimers();
      ok := LockNow(plan);
    }

    method ResumeAfterMaintenance()
      modifies this
      ensures View() == Resumed(old(View()))
    {
      if !maintenance {
        NoteFault();
      }
      CancelTimers();
      MarkLocked();
      generation := generation + 1;
      maintenance := false;
      maintenanceRequested := false;
    }

    /** The gate of a shutdown: no timer and no earlier decision survives it. */
    method CloseGate()
      modifies this
      ensures View() == Faulty(TimersCancelled(old(View()).(maintenanceRequested := true, maintenance := true,
                                                            generation := old(generation) + 1)))
    {
      NoteFault();
      maintenanceRequested := true;
      maintenance := true;
      CancelTimers();
      generation := generation + 1;
    }

    method Shutdown(hadHardware: bool, plan: LockPlan)
      modifies this
      ensures View() == ShutDown(old(View()), hadHardware, plan)
    {
      CloseGate();
      if !hadHardware {
        return;
      }
      var ok := DispatchLock(plan);
      if ok {
        MarkLocked();
      }
    }

    /** `applies` is false when a different user's authorization is the current one. */
    method InvalidateAuthorization(applies: bool) returns (done: bool)
      modifies this
      ensures View() == Invalidated(old(View()), applies) && done == applies
    {
      if applies {
        ClearOwner();
        generation := generation + 1;
      }
      return applies;
    }
  }
}
