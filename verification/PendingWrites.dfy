/** Deferred GATT writes: a write that meets a full buffer waits for room, at most one to a device,
    and every write is answered once. */
module PendingWrites {
  import opened Outcomes

  type Device = string
  type Value = seq<int>

  const CALLBACK_TIMEOUT: real := 10.0

  /** A write as BlueZ asked for it; the object that stands for it in the table is its number. */
  datatype Write = Write(device: Device, value: Value, generation: Option<nat>, deadline: real)

  datatype Error = AnotherPending | GenerationChanged | TimedOut | WriteFailed | Disconnected | Stopping

  datatype Answer = Replied | Failed(error: Error)

  /** How the gateway takes a frame. */
  datatype Taken = Accepted | Backpressure | Raised

  /** `writes`, `answers` and `applied` record the past; `timers` are the attempts still scheduled. */
  datatype State = State(
    pending: map<Device, nat>,
    generations: map<Device, nat>,
    timers: set<nat>,
    writes: seq<Write>,
    answers: map<nat, Answer>,
    applied: seq<nat>,
    poisoned: set<(Device, nat)>)

  const EMPTY := State(map[], map[], {}, [], map[], [], {})

  function GenerationOf(s: State, d: Device): Option<nat> {
    if d in s.generations then Some(s.generations[d]) else None
  }

  predicate Waiting(s: State, n: nat) {
    n < |s.writes| && s.writes[n].device in s.pending && s.pending[s.writes[n].device] == n
  }

  /** Take a waiting write out of the table and answer it. */
  function Settle(s: State, n: nat, a: Answer): State
    requires n < |s.writes|
  {
    s.(pending := s.pending - {s.writes[n].device}, answers := s.answers[n := a])
  }

  /** One attempt. It does nothing once its write is no longer the one pending. */
  function Attempt(s: State, n: nat, taken: Taken, now: real): State {
    if !Waiting(s, n) then s.(timers := s.timers - {n})
    else
      var w := s.writes[n];
      var t := s.(timers := s.timers - {n});
      if w.generation.Some? && GenerationOf(s, w.device) != w.generation then Settle(t, n, Failed(GenerationChanged))
      else
        match taken
        case Accepted => Settle(t.(applied := t.applied + [n]), n, Replied)
        case Raised => Settle(t, n, Failed(WriteFailed))
        case Backpressure =>
          if now < w.deadline then s.(timers := s.timers + {n})
          else Settle(t.(poisoned := if w.generation.Some? then t.poisoned + {(w.device, w.generation.value)} else t.poisoned), n, Failed(TimedOut))
  }

  /** A new write is answered at once if one is pending, and attempted at once otherwise. */
  function Begin(s: State, d: Device, value: Value, now: real): State {
    var n := |s.writes|;
    var w := Write(d, value, GenerationOf(s, d), now + CALLBACK_TIMEOUT);
    if d in s.pending then s.(writes := s.writes + [w], answers := s.answers[n := Failed(AnotherPending)])
    else s.(writes := s.writes + [w], pending := s.pending[d := n], timers := s.timers + {n})
  }

  function Requested(s: State, d: Device, value: Value, taken: Taken, now: real): State {
    var t := Begin(s, d, value, now);
    if d in s.pending then t else Attempt(t, |s.writes|, taken, now)
  }

  function Cancelled(s: State, d: Device, e: Error): State {
    if d in s.pending then s.(pending := s.pending - {d}, answers := s.answers[s.pending[d] := Failed(e)]) else s
  }

  datatype Event =
    | Request(device: Device, value: Value, taken: Taken)
    | Fire(write: nat, taken: Taken)
    | Cancel(device: Device, error: Error)
    | Generation(device: Device, generation: Option<nat>)

  /** A timer fires only while it is scheduled. */
  function Next(s: State, e: Event, now: real): State {
    match e
    case Request(d, value, taken) => Requested(s, d, value, taken, now)
    case Fire(n, taken) => if n in s.timers then Attempt(s, n, taken, now) else s
    case Cancel(d, error) => Cancelled(s, d, error)
    case Generation(d, g) => s.(generations := if g.Some? then s.generations[d := g.value] else s.generations - {d})
  }

  function Run(events: seq<(Event, real)>): State {
    if events == [] then EMPTY
    else Next(Run(events[..|events| - 1]), events[|events| - 1].0, events[|events| - 1].1)
  }

  // ---- Invariant ----

  /** A write is answered or pending, never both, and a pending one has an attempt scheduled. */
  predicate Answered(s: State) {
    && (forall n :: n in s.answers ==> n < |s.writes|)
    && (forall n :: 0 <= n < |s.writes| ==> (n in s.answers <==> !Waiting(s, n)))
    && (forall d :: d in s.pending ==> s.pending[d] < |s.writes| && s.writes[s.pending[d]].device == d && s.pending[d] in s.timers)
  }

  predicate InOrder(s: State) {
    && (forall i :: 0 <= i < |s.applied| ==> s.applied[i] < |s.writes|)
    && (forall i, j :: 0 <= i < j < |s.applied| && s.writes[s.applied[i]].device == s.writes[s.applied[j]].device ==> s.applied[i] < s.applied[j])
  }

  /** The gateway took exactly the writes that were answered as done, each once, and those of a device
      in the order in which they were asked for. */
  predicate AppliedInOrder(s: State) {
    && (forall n :: 0 <= n < |s.writes| ==> (n in s.applied <==> n in s.answers && s.answers[n] == Replied))
    && InOrder(s)
    && (forall i, d :: 0 <= i < |s.applied| && d in s.pending && s.writes[s.applied[i]].device == d ==> s.applied[i] < s.pending[d])
    && (forall i, j :: 0 <= i < j < |s.applied| ==> s.applied[i] != s.applied[j])
  }

  predicate Inv(s: State) {
    Answered(s) && AppliedInOrder(s)
  }

  ghost predicate Safe(s: State) {
    forall t :: t == s ==> Inv(t)
  }

  /** Answers are never taken back or changed. */
  predicate AnswersKept(s: State, t: State) {
    forall n :: n in s.answers ==> n in t.answers && t.answers[n] == s.answers[n]
  }

  lemma SettleKeeps(s: State, n: nat, a: Answer, poisoned: set<(Device, nat)>)
    requires Inv(s) && Waiting(s, n) && a != Replied
    ensures Safe(Settle(s.(timers := s.timers - {n}, poisoned := poisoned), n, a))
    ensures AnswersKept(s, Settle(s.(timers := s.timers - {n}, poisoned := poisoned), n, a))
  {
    var t := Settle(s.(timers := s.timers - {n}, poisoned := poisoned), n, a);
    forall k | 0 <= k < |t.writes| ensures k in t.answers <==> !Waiting(t, k) {
      assert k in s.answers <==> !Waiting(s, k);
    }
    assert Inv(t);
  }

  lemma ReplyKeeps(s: State, n: nat)
    requires Inv(s) && Waiting(s, n)
    ensures var t := Settle(s.(timers := s.timers - {n}, applied := s.applied + [n]), n, Replied);
            Safe(t) && AnswersKept(s, t)
  {
    var t := Settle(s.(timers := s.timers - {n}, applied := s.applied + [n]), n, Replied);
    forall k | 0 <= k < |t.writes| ensures k in t.answers <==> !Waiting(t, k) {
      assert k in s.answers <==> !Waiting(s, k);
    }
    assert n !in s.answers;
    assert n !in s.applied;
    assert forall k :: k in t.applied <==> k in s.applied || k == n;
    assert Inv(t);
  }

  lemma StaleAttemptKeeps(s: State, n: nat)
    requires Inv(s) && !Waiting(s, n)
    ensures Safe(s.(timers := s.timers - {n}))
  {
    assert Inv(s.(timers := s.timers - {n}));
  }

  lemma AttemptKeeps(s: State, n: nat, taken: Taken, now: real)
    requires Safe(s)
    ensures Safe(Attempt(s, n, taken, now)) && AnswersKept(s, Attempt(s, n, taken, now))
  {
    assert Inv(s);
    if !Waiting(s, n) {
      StaleAttemptKeeps(s, n);
    } else if s.writes[n].generation.Some? && GenerationOf(s, s.writes[n].device) != s.writes[n].generation {
      SettleKeeps(s, n, Failed(GenerationChanged), s.poisoned);
    } else if taken.Accepted? {
      ReplyKeeps(s, n);
    } else if taken.Raised? {
      SettleKeeps(s, n, Failed(WriteFailed), s.poisoned);
    } else if now < s.writes[n].deadline {
      assert n in s.timers;
      assert s.timers + {n} == s.timers;
    } else {
      SettleKeeps(s, n, Failed(TimedOut), Attempt(s, n, taken, now).poisoned);
    }
  }

  lemma BeginAnswers(s: State, d: Device, value: Value, now: real)
    requires Answered(s)
    ensures Answered(Begin(s, d, value, now))
  {
    var t := Begin(s, d, value, now);
    forall k | 0 <= k < |t.writes| ensures k in t.answers <==> !Waiting(t, k) {
      if k < |s.writes| {
        assert k in s.answers <==> !Waiting(s, k);
      }
    }
  }

  lemma BeginKeeps(s: State, d: Device, value: Value, now: real)
    requires Safe(s)
    ensures Safe(Begin(s, d, value, now)) && AnswersKept(s, Begin(s, d, value, now))
  {
    assert Inv(s);
    BeginAnswers(s, d, value, now);
    assert AppliedInOrder(Begin(s, d, value, now));
    assert Inv(Begin(s, d, value, now));
  }

  lemma CancelKeeps(s: State, d: Device, e: Error)
    requires Safe(s)
    ensures Safe(Cancelled(s, d, e)) && AnswersKept(s, Cancelled(s, d, e))
  {
    assert Inv(s);
    if d in s.pending {
      var n := s.pending[d];
      assert Waiting(s, n);
      SettleKeeps(s, n, Failed(e), s.poisoned);
      var t := Settle(s.(timers := s.timers - {n}), n, Failed(e));
      assert Inv(t);
      assert Cancelled(s, d, e) == t.(timers := s.timers);
    }
    assert Inv(Cancelled(s, d, e));
  }

  lemma NextKeeps(s: State, e: Event, now: real)
    requires Safe(s)
    ensures Safe(Next(s, e, now)) && AnswersKept(s, Next(s, e, now))
  {
    match e
    case Request(d, value, taken) =>
      BeginKeeps(s, d, value, now);
      AttemptKeeps(Begin(s, d, value, now), |s.writes|, taken, now);
    case Fire(n, taken) => AttemptKeeps(s, n, taken, now);
    case Cancel(d, error) => CancelKeeps(s, d, error);
    case Generation(d, g) =>
      assert Inv(s);
      assert Inv(Next(s, e, now));
  }

  lemma {:induction false} RunKeeps(events: seq<(Event, real)>)
    ensures Safe(Run(events))
  {
    if events == [] {
      assert Inv(EMPTY);
    } else {
      RunKeeps(events[..|events| - 1]);
      NextKeeps(Run(events[..|events| - 1]), events[|events| - 1].0, events[|events| - 1].1);
    }
  }

  /** In every run each write has one final answer or is its device's one pending write with an attempt
      scheduled, and the gateway took just the writes answered as done, once each and, to a device, in
      order. */
  lemma EveryWriteIsAnsweredOnce(events: seq<(Event, real)>, n: nat)
    ensures var s := Run(events);
            n < |s.writes| ==>
              && (n in s.answers <==> !Waiting(s, n))
              && (Waiting(s, n) ==> n in s.timers)
              && (n in s.applied <==> n in s.answers && s.answers[n] == Replied)
              && InOrder(s) && (forall i, j :: 0 <= i < j < |s.applied| ==> s.applied[i] != s.applied[j])
  {
    RunKeeps(events);
    assert Inv(Run(events));
  }

  lemma {:induction false} AnswersAreFinal(events: seq<(Event, real)>, more: seq<(Event, real)>)
    ensures AnswersKept(Run(events), Run(events + more))
    decreases |more|
  {
    if more == [] {
      assert events + more == events;
    } else {
      var init := more[..|more| - 1];
      AnswersAreFinal(events, init);
      assert (events + more)[..|events + more| - 1] == events + init;
      RunKeeps(events + init);
      NextKeeps(Run(events + init), more[|more| - 1].0, more[|more| - 1].1);
    }
  }

  /** A write is never applied to another connection than the one it was asked on. */
  lemma NeverAcrossConnections(s: State, n: nat, taken: Taken, now: real)
    requires Safe(s) && n !in s.applied && n in Attempt(s, n, taken, now).applied
    ensures n < |s.writes| && (s.writes[n].generation.Some? ==> GenerationOf(s, s.writes[n].device) == s.writes[n].generation)
    ensures taken.Accepted? && Attempt(s, n, taken, now).answers[n] == Replied
  {
  }

  // ---- What becomes of a write ----

  /** A write to a device that has one pending is refused at once, and the pending one is left alone.
      Otherwise it is tried on the device's present connection, and may wait for ten seconds. */
  lemma RequestExactly(s: State, d: Device, value: Value, taken: Taken, now: real)
    requires Safe(s)
    ensures var t := Next(s, Request(d, value, taken), now);
            var n := |s.writes|;
            && t.writes == s.writes + [Write(d, value, if d in s.generations then Some(s.generations[d]) else None, now + 10.0)]
            && (n in t.answers <==> d in s.pending || taken != Backpressure)
            && (d in s.pending ==> t.answers[n] == Failed(AnotherPending) && t.pending == s.pending && t.applied == s.applied)
            && (d !in s.pending && taken == Accepted ==> t.answers[n] == Replied && t.applied == s.applied + [n])
            && (d !in s.pending && taken == Raised ==> t.answers[n] == Failed(WriteFailed) && t.applied == s.applied)
            && (d !in s.pending && taken == Backpressure ==>
                  d in t.pending && t.pending[d] == n && n in t.timers && t.applied == s.applied)
            && t.poisoned == s.poisoned && t.generations == s.generations
  {
    assert Inv(s);
    assert forall k :: k in s.answers ==> k < |s.writes|;
  }

  /** Each attempt of a waiting write ends it, unless the buffer is still full before its deadline, when
      another attempt stays scheduled. A write whose connection was replaced fails without being taken; a
      full buffer at the deadline fails it and poisons the connection it was asked on. */
  lemma AttemptExactly(s: State, n: nat, taken: Taken, now: real)
    requires Safe(s) && Waiting(s, n)
    ensures var t := Attempt(s, n, taken, now);
            var w := s.writes[n];
            var replaced := w.generation.Some? && (w.device !in s.generations || s.generations[w.device] != w.generation.value);
            var outcome := if replaced then Failed(GenerationChanged) else if taken == Accepted then Replied
                           else if taken == Raised then Failed(WriteFailed) else Failed(TimedOut);
            && (n in t.answers <==> replaced || taken != Backpressure || now >= w.deadline)
            && (n in t.answers <==> w.device !in t.pending)
            && (n in t.answers ==> t.answers[n] == outcome)
            && (n !in t.answers ==> t == s)
            && t.applied == (if !replaced && taken == Accepted then s.applied + [n] else s.applied)
            && t.poisoned == (if !replaced && taken == Backpressure && now >= w.deadline && w.generation.Some?
                              then s.poisoned + {(w.device, w.generation.value)} else s.poisoned)
  {
    assert Inv(s);
    assert n !in s.answers && n in s.timers;
    assert s.timers - {n} + {n} == s.timers + {n} == s.timers;
  }

  /** An attempt of a write that has been answered does nothing any more. */
  lemma StaleAttemptDoesNothing(s: State, n: nat, taken: Taken, now: real)
    requires Safe(s) && n in s.answers
    ensures Attempt(s, n, taken, now) == s.(timers := s.timers - {n})
  {
    assert Inv(s);
  }

  /** A disconnect or a stop fails exactly the device's pending write. */
  lemma CancelExactly(s: State, d: Device, e: Error)
    requires Safe(s)
    ensures var t := Next(s, Cancel(d, e), 0.0);
            && t.pending == s.pending - {d}
            && (d in s.pending ==> s.pending[d] in t.answers && t.answers[s.pending[d]] == Failed(e))
            && (forall n :: n in t.answers ==> n in s.answers || (d in s.pending && n == s.pending[d]))
            && t.applied == s.applied && t.poisoned == s.poisoned
  {
    assert Inv(s);
  }

  lemma {:induction false} WritesStay(events: seq<(Event, real)>, more: seq<(Event, real)>)
    ensures Run(events).writes <= Run(events + more).writes
    decreases |more|
  {
    if more == [] {
      assert events + more == events;
    } else {
      var init := more[..|more| - 1];
      WritesStay(events, init);
      assert (events + more)[..|events + more| - 1] == events + init;
      NextKeepsWrites(Run(events + init), more[|more| - 1].0, more[|more| - 1].1);
    }
  }

  lemma NextKeepsWrites(s: State, e: Event, now: real)
    ensures s.writes <= Next(s, e, now).writes
  {
  }

  /** Over every run: a write that was asked for at `at` and still waits, on the connection it was asked on,
      is kept by a full buffer at every moment before `at` plus ten seconds, with an attempt scheduled, and
      at any moment from then on is answered as timed out with its connection poisoned. */
  lemma WritesTimeOutExactly(events: seq<(Event, real)>, d: Device, value: Value, taken: Taken, at: real,
                             more: seq<(Event, real)>, now: real)
    ensures var n := |Run(events).writes|;
            var s := Run(events + [(Request(d, value, taken), at)] + more);
            var t := Next(s, Fire(n, Backpressure), now);
            n < |s.writes| && s.writes[n].device == d
            && (Waiting(s, n) && d in s.generations && s.writes[n].generation == Some(s.generations[d]) ==>
                  && (now < at + 10.0 ==> t == s && n in t.timers)
                  && (now >= at + 10.0 ==>
                        && n in t.answers && t.answers[n] == Failed(TimedOut)
                        && t.poisoned == s.poisoned + {(d, s.generations[d])}))
  {
    var n := |Run(events).writes|;
    var asked := events + [(Request(d, value, taken), at)];
    RunKeeps(events);
    assert asked[..|asked| - 1] == events;
    RequestExactly(Run(events), d, value, taken, at);
    WritesStay(asked, more);
    var s := Run(asked + more);
    RunKeeps(asked + more);
    assert s.writes[n] == Run(asked).writes[n];
    if Waiting(s, n) {
      assert n in s.timers by {
        assert Inv(s);
      }
      AttemptExactly(s, n, Backpressure, now);
    }
  }

  // ---- The table as it is kept ----

  class PendingTable {
    var pending: map<Device, nat>
    var generations: map<Device, nat>   // what the gateway reports
    var writes: seq<Write>              // what the callbacks of each write hold on to
    ghost var timers: set<nat>
    ghost var answers: map<nat, Answer>
    ghost var applied: seq<nat>
    ghost var poisoned: set<(Device, nat)>

    ghost function View(): State
      reads this
    {
      State(pending, generations, timers, writes, answers, applied, poisoned)
    }

    constructor ()
      ensures View() == EMPTY
    {
      pending, generations, writes := map[], map[], [];
      timers, answers, applied, poisoned := {}, map[], [], {};
    }

    /** Drop a device's pending write and answer it. */
    method CancelPendingWrite(d: Device, e: Error) returns (answered: Option<nat>)
      modifies this
      ensures View() == Cancelled(old(View()), d, e)
      ensures answered == if d in old(pending) then Some(old(pending)[d]) else None
    {
      if d !in pending {
        return None;
      }
      answered := Some(pending[d]);
      answers := answers[pending[d] := Failed(e)];
      pending := pending - {d};
    }

    method Fail(n: nat, e: Error, poison: bool) returns (a: Answer)
      requires n < |writes| && Waiting(View(), n)
      modifies this
      ensures a == Failed(e)
      ensures View() == Settle(old(View()).(timers := old(timers) - {n},
                                            poisoned := if poison && old(writes)[n].generation.Some?
                                                        then old(poisoned) + {(old(writes)[n].device, old(writes)[n].generation.value)}
                                                        else old(poisoned)), n, Failed(e))
    {
      var w := writes[n];
      pending := pending - {w.device};
      timers := timers - {n};
      if poison && w.generation.Some? {
        poisoned := poisoned + {(w.device, w.generation.value)};
      }
      a := Failed(e);
      answers := answers[n := a];
    }

    /** One attempt at a write; `taken` is how the gateway takes the frame if it is offered. */
    method TryWrite(n: nat, taken: Taken, now: real) returns (answer: Option<Answer>)
      requires n < |writes|
      modifies this
      ensures View() == Attempt(old(View()), n, taken, now)
      ensures answer == if Waiting(old(View()), n) && n in answers then Some(answers[n]) else None
      ensures answer.None? ==> answers == old(answers)
      requires Waiting(View(), n) ==> n !in answers
    {
      var w := writes[n];
      if w.device !in pending || pending[w.device] != n {
        timers := timers - {n};
        return None;
      }
      var a;
      if w.generation.Some? && (w.device !in generations || generations[w.device] != w.generation.value) {
        a := Fail(n, GenerationChanged, false);
        return Some(a);
      }
      match taken {
        case Backpressure =>
          if now < w.deadline {
            timers := timers + {n};
            return None;
          }
          a := Fail(n, TimedOut, true);
        case Raised => a := Fail(n, WriteFailed, false);
        case Accepted =>
          pending := pending - {w.device};
          timers := timers - {n};
          applied := applied + [n];
          a := Replied;
          answers := answers[n := a];
      }
      return Some(a);
    }

    /** Ask for a write: refused at once while another is pending, attempted at once otherwise. */
    method WriteValue(d: Device, value: Value, taken: Taken, now: real) returns (answer: Option<Answer>)
      requires Safe(View())
      modifies this
      ensures View() == Requested(old(View()), d, value, taken, now)
      ensures answer == if |old(writes)| in answers then Some(answers[|old(writes)|]) else None
    {
      var n := |writes|;
      var generation := if d in generations then Some(generations[d]) else None;
      BeginKeeps(View(), d, value, now);
      writes := writes + [Write(d, value, generation, now + CALLBACK_TIMEOUT)];
      if d in pending {
        answers := answers[n := Failed(AnotherPending)];
        return Some(Failed(AnotherPending));
      }
      pending := pending[d := n];
      timers := timers + {n};
      assert View() == Begin(old(View()), d, value, now);
      assert Inv(View());
      answer := TryWrite(n, taken, now);
    }
  }
}
