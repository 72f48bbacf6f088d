/** The persistent PIN lockout counter that login, pairing, session confirmation and operation
    authorization all share. */
module PinPolicy {

  const PIN_MAX_FAILURES: nat := 5
  const PIN_LOCKOUT_SECONDS: nat := 60

  /** failed_attempts and lockout_until of one user's security row. */
  datatype Counter = Counter(failed: nat, lockoutUntil: int)

  datatype Verdict = Matched | Locked(remaining: nat) | Wrong | WrongAndLocked(seconds: nat) {
    predicate Miss() {
      Wrong? || WrongAndLocked?
    }
  }

  /** One PIN check at `now`; while locked, the PIN is not compared at all. */
  function Verify(c: Counter, now: int, correct: bool): (Counter, Verdict) {
    if c.lockoutUntil > now then (c, Locked(c.lockoutUntil - now))
    else if correct then (Counter(0, 0), Matched)
    else if c.failed + 1 >= PIN_MAX_FAILURES then (Counter(0, now + PIN_LOCKOUT_SECONDS), WrongAndLocked(PIN_LOCKOUT_SECONDS))
    else (Counter(c.failed + 1, c.lockoutUntil), Wrong)
  }

  /** A check inside its transaction. A failed check raises only after the commit, so it is always
      durable; a matched one may still be rolled back with the operation that needed it. */
  datatype Attempt = Attempt(now: int, correct: bool, rolledBack: bool)

  function After(c: Counter, a: Attempt): Counter {
    var (d, verdict) := Verify(c, a.now, a.correct);
    if verdict.Matched? && a.rolledBack then c else d
  }

  /** The counter is reset only by a committed match. */
  predicate Resets(c: Counter, a: Attempt) {
    Verify(c, a.now, a.correct).1.Matched? && !a.rolledBack
  }

  /** The counter after a run of attempts. */
  function Final(c: Counter, attempts: seq<Attempt>): Counter
    decreases |attempts|
  {
    if attempts == [] then c else Final(After(c, attempts[0]), attempts[1..])
  }

  lemma {:induction false} FinalAppend(c: Counter, attempts: seq<Attempt>, a: Attempt)
    ensures Final(c, attempts + [a]) == After(Final(c, attempts), a)
    decreases |attempts|
  {
    if attempts == [] {
      assert ([] + [a])[1..] == [];
    } else {
      FinalAppend(After(c, attempts[0]), attempts[1..], a);
      assert (attempts + [a])[1..] == attempts[1..] + [a];
    }
  }

  lemma {:induction false} FinalStaysInRange(c: Counter, attempts: seq<Attempt>)
    requires c.failed < PIN_MAX_FAILURES
    ensures Final(c, attempts).failed < PIN_MAX_FAILURES
    decreases |attempts|
  {
    if attempts != [] {
      FinalStaysInRange(After(c, attempts[0]), attempts[1..]);
    }
  }

  predicate AllWrong(attempts: seq<Attempt>) {
    forall i :: 0 <= i < |attempts| ==> !attempts[i].correct && attempts[i].now >= 0
  }

  lemma {:induction false} WrongPinsCount(attempts: seq<Attempt>)
    requires AllWrong(attempts) && |attempts| < PIN_MAX_FAILURES
    ensures Final(Counter(0, 0), attempts) == Counter(|attempts|, 0)
  {
    if attempts != [] {
      var init := attempts[..|attempts| - 1];
      WrongPinsCount(init);
      FinalAppend(Counter(0, 0), init, attempts[|attempts| - 1]);
      assert attempts == init + [attempts[|attempts| - 1]];
    }
  }

  /** From a fresh counter, up to four wrong PINs leave the right one accepted at once; the fifth
      refuses even the right one for exactly the next sixty seconds. */
  lemma LocksExactly(attempts: seq<Attempt>, now: int)
    requires AllWrong(attempts) && |attempts| <= 5 && now >= 0
    ensures Verify(Final(Counter(0, 0), attempts), now, true).1.Matched?
            <==> |attempts| < 5 || now >= attempts[4].now + 60
    ensures !Verify(Final(Counter(0, 0), attempts), now, false).1.Matched?
  {
    if |attempts| < 5 {
      WrongPinsCount(attempts);
    } else {
      WrongPinsCount(attempts[..4]);
      FinalAppend(Counter(0, 0), attempts[..4], attempts[4]);
      assert attempts == attempts[..4] + [attempts[4]];
    }
  }

  /** The wrong PINs compared at readings in [from, until]. */
  function Misses(c: Counter, attempts: seq<Attempt>, from: int, until: int): nat
    decreases |attempts|
  {
    if attempts == [] then 0
    else
      var a := attempts[0];
      (if from <= a.now <= until && Verify(c, a.now, a.correct).1.Miss() then 1 else 0)
      + Misses(After(c, a), attempts[1..], from, until)
  }

  predicate WithoutReset(c: Counter, attempts: seq<Attempt>)
    decreases |attempts|
  {
    attempts != [] ==> !Resets(c, attempts[0]) && WithoutReset(After(c, attempts[0]), attempts[1..])
  }

  /** The attempts are in the order in which they are served. The clock is read before the lock is taken, so
      a reading may lie behind one that was served earlier, but by at most `skew` seconds. */
  predicate Skewed(attempts: seq<Attempt>, skew: nat) {
    forall i, j :: 0 <= i < j < |attempts| ==> attempts[j].now >= attempts[i].now - skew
  }

  lemma CounterStaysInRange(c: Counter, a: Attempt)
    requires c.failed < PIN_MAX_FAILURES
    ensures After(c, a).failed < PIN_MAX_FAILURES
  {
  }

  function Max(a: int, b: int): int {
    if a < b then b else a
  }

  // ---- How many wrong PINs a span of time holds ----

  /** The most that can be compared in [from, until] when no reading lies before `start`: five for every
      minute, but four for a group of five whose last one, from which the lock runs, lies before `from`. */
  function Cap(from: int, until: int, start: int): int
    requires from <= until
  {
    var inside := (until - from) / PIN_LOCKOUT_SECONDS;
    if start > until then 0
    else if start >= from then PIN_MAX_FAILURES * ((until - start) / PIN_LOCKOUT_SECONDS + 1)
    else PIN_MAX_FAILURES * (inside + 1) + (PIN_MAX_FAILURES - 1) * ((until - start) / PIN_LOCKOUT_SECONDS - inside)
  }

  lemma CapFalls(from: int, until: int, start: int, later: int)
    requires from <= until && start <= later
    ensures Cap(from, until, start) >= Cap(from, until, later)
    ensures start <= until ==> Cap(from, until, start) >= PIN_MAX_FAILURES
  {
  }

  /** A lock at `start` costs a minute of what is left. */
  lemma LockCosts(from: int, until: int, start: int)
    requires from <= until && start <= until
    ensures Cap(from, until, start + PIN_LOCKOUT_SECONDS) + (if start >= from then PIN_MAX_FAILURES else PIN_MAX_FAILURES - 1)
            <= Cap(from, until, start)
  {
  }

  lemma {:induction false} MissesAreBounded(c: Counter, attempts: seq<Attempt>, low: int, from: int, until: int)
    requires c.failed < PIN_MAX_FAILURES && from <= until
    requires (forall i :: 0 <= i < |attempts| ==> attempts[i].now >= low) && WithoutReset(c, attempts)
    ensures var start := Max(low, c.lockoutUntil);
            Misses(c, attempts, from, until) <= if start > until then 0 else Cap(from, until, start) - c.failed
    decreases |attempts|
  {
    var start := Max(low, c.lockoutUntil);
    CapFalls(from, until, start, start);
    if attempts != [] {
      var a := attempts[0];
      MissesAreBounded(After(c, a), attempts[1..], low, from, until);
      if Verify(c, a.now, a.correct).1.WrongAndLocked? && a.now <= until {
        CapFalls(from, until, start, a.now);
        LockCosts(from, until, a.now);
        CapFalls(from, until, a.now + PIN_LOCKOUT_SECONDS, Max(low, a.now + PIN_LOCKOUT_SECONDS));
      }
    }
  }

  lemma SkewedRest(attempts: seq<Attempt>, skew: nat)
    requires Skewed(attempts, skew) && attempts != []
    ensures Skewed(attempts[1..], skew)
    ensures forall i :: 0 <= i < |attempts| ==> attempts[i].now >= attempts[0].now - skew
  {
  }

  /** However the attempts are spread over the four entry points, and however their readings are out of
      order by up to `skew`: without a reset of the counter, in any T seconds at most 5 (T/60 + 1) wrong
      PINs are compared, and 4 more for each further minute that T + skew holds. */
  lemma {:induction false} WrongPinsAreBounded(c: Counter, attempts: seq<Attempt>, from: int, span: nat, skew: nat)
    requires c.failed < PIN_MAX_FAILURES && Skewed(attempts, skew) && WithoutReset(c, attempts)
    ensures Misses(c, attempts, from, from + span) <= Cap(from, from + span, from - skew)
    ensures Cap(from, from + span, from - skew) <= PIN_MAX_FAILURES * ((span + skew) / PIN_LOCKOUT_SECONDS + 1)
    ensures Cap(from, from + span, from) == PIN_MAX_FAILURES * (span / PIN_LOCKOUT_SECONDS + 1)
    decreases |attempts|
  {
    if attempts != [] {
      SkewedRest(attempts, skew);
      if attempts[0].now >= from {
        MissesAreBounded(c, attempts, from - skew, from, from + span);
        CapFalls(from, from + span, from - skew, Max(from - skew, c.lockoutUntil));
      } else {
        WrongPinsAreBounded(After(c, attempts[0]), attempts[1..], from, span, skew);
      }
    }
  }

  // ---- The bound is attained ----

  /** Five wrong PINs of which the last is read at `at`, and the others then or, if that is later, at `from`. */
  function Burst(from: int, at: int): seq<Attempt> {
    var early, last := Attempt(Max(from, at), false, false), Attempt(at, false, false);
    [early, early, early, early, last]
  }

  /** Such a burst every minute. */
  function Bursts(from: int, at: int, rounds: nat): seq<Attempt>
    decreases rounds
  {
    if rounds == 0 then [] else Burst(from, at) + Bursts(from, at + PIN_LOCKOUT_SECONDS, rounds - 1)
  }

  lemma BurstCounts(c: Counter, from: int, until: int, at: int, rest: seq<Attempt>)
    requires c.failed == 0 && c.lockoutUntil <= at <= until && from <= until
    ensures Misses(c, Burst(from, at) + rest, from, until)
            == (if at >= from then 5 else 4) + Misses(Counter(0, at + PIN_LOCKOUT_SECONDS), rest, from, until)
    ensures WithoutReset(c, Burst(from, at) + rest) <==> WithoutReset(Counter(0, at + PIN_LOCKOUT_SECONDS), rest)
  {
    var early, last := Burst(from, at)[0], Burst(from, at)[4];
    var one, two, three, four := Counter(1, c.lockoutUntil), Counter(2, c.lockoutUntil), Counter(3, c.lockoutUntil), Counter(4, c.lockoutUntil);
    OneMore(four, last, rest, from, until);
    OneMore(three, early, [last] + rest, from, until);
    OneMore(two, early, [early] + ([last] + rest), from, until);
    OneMore(one, early, [early] + ([early] + ([last] + rest)), from, until);
    OneMore(c, early, [early] + ([early] + ([early] + ([last] + rest))), from, until);
    assert Burst(from, at) + rest == [early] + ([early] + ([early] + ([early] + ([last] + rest))));
  }

  lemma OneMore(c: Counter, a: Attempt, rest: seq<Attempt>, from: int, until: int)
    requires !a.correct && c.lockoutUntil <= a.now
    ensures Misses(c, [a] + rest, from, until) == (if from <= a.now <= until then 1 else 0) + Misses(After(c, a), rest, from, until)
    ensures WithoutReset(c, [a] + rest) <==> WithoutReset(After(c, a), rest)
  {
    assert ([a] + rest)[1..] == rest;
  }

  /** Bursts reach what Cap allows. */
  lemma {:induction false} BurstsReachCap(c: Counter, from: int, at: int, rounds: nat)
    requires rounds > 0 && c.failed == 0 && c.lockoutUntil <= at
    requires from <= at + PIN_LOCKOUT_SECONDS * (rounds - 1)
    ensures var until := at + PIN_LOCKOUT_SECONDS * (rounds - 1);
            Misses(c, Bursts(from, at, rounds), from, until) == Cap(from, until, at)
    ensures WithoutReset(c, Bursts(from, at, rounds))
    decreases rounds
  {
    var until := at + PIN_LOCKOUT_SECONDS * (rounds - 1);
    var next := at + PIN_LOCKOUT_SECONDS;
    BurstCounts(c, from, until, at, Bursts(from, next, rounds - 1));
    if rounds > 1 {
      BurstsReachCap(Counter(0, next), from, next, rounds - 1);
    }
  }

  lemma {:induction false} BurstsAreSkewed(from: int, at: int, rounds: nat, skew: nat)
    requires at >= from - skew
    ensures Skewed(Bursts(from, at, rounds), skew)
    ensures forall i :: 0 <= i < |Bursts(from, at, rounds)| ==> Bursts(from, at, rounds)[i].now >= at
    decreases rounds
  {
    if rounds > 0 {
      var rest := Bursts(from, at + PIN_LOCKOUT_SECONDS, rounds - 1);
      BurstsAreSkewed(from, at + PIN_LOCKOUT_SECONDS, rounds - 1, skew);
      var all := Burst(from, at) + rest;
      forall i, j | 0 <= i < j < |all| ensures all[j].now >= all[i].now - skew {
        if i >= 5 {
          assert rest[j - 5].now >= rest[i - 5].now - skew;
        }
      }
    }
  }

  /** The attempts that come as many as possible. */
  function Worst(from: int, span: nat, skew: nat): seq<Attempt> {
    var rounds := (span + skew) / PIN_LOCKOUT_SECONDS;
    Bursts(from, from + span - PIN_LOCKOUT_SECONDS * rounds, rounds + 1)
  }

  /** The bound is attained, for every span and every skew. */
  lemma BoundIsAttained(from: int, span: nat, skew: nat, lockoutUntil: int)
    requires lockoutUntil <= from - skew
    ensures var c := Counter(0, lockoutUntil);
            && Skewed(Worst(from, span, skew), skew) && WithoutReset(c, Worst(from, span, skew))
            && Misses(c, Worst(from, span, skew), from, from + span) == Cap(from, from + span, from - skew)
  {
    var rounds := (span + skew) / PIN_LOCKOUT_SECONDS;
    var at := from + span - PIN_LOCKOUT_SECONDS * rounds;
    BurstsReachCap(Counter(0, lockoutUntil), from, at, rounds + 1);
    BurstsAreSkewed(from, at, rounds + 1, skew);
  }

  /** What was meant, at most 5 (T/60 + 1) in any T seconds, holds of all attempts exactly when the skew does
      not carry T into a further minute: so of all spans only without skew. */
  lemma MeantBoundExactly(from: int, span: nat, skew: nat)
    ensures (forall c: Counter, attempts :: c.failed < PIN_MAX_FAILURES && Skewed(attempts, skew) && WithoutReset(c, attempts) ==>
               Misses(c, attempts, from, from + span) <= PIN_MAX_FAILURES * (span / PIN_LOCKOUT_SECONDS + 1))
            <==> (span + skew) / PIN_LOCKOUT_SECONDS == span / PIN_LOCKOUT_SECONDS
  {
    var meant := PIN_MAX_FAILURES * (span / PIN_LOCKOUT_SECONDS + 1);
    if (span + skew) / PIN_LOCKOUT_SECONDS == span / PIN_LOCKOUT_SECONDS {
      forall c: Counter, attempts | c.failed < PIN_MAX_FAILURES && Skewed(attempts, skew) && WithoutReset(c, attempts)
        ensures Misses(c, attempts, from, from + span) <= meant
      {
        WrongPinsAreBounded(c, attempts, from, span, skew);
      }
    } else {
      var c := Counter(0, from - skew);
      BoundIsAttained(from, span, skew, from - skew);
      assert Misses(c, Worst(from, span, skew), from, from + span) > meant;
    }
  }

  /** One case of it: five wrong PINs read at 10, 10, 10, 10 and 9, and five more at 69. Nine lie within 59
      seconds, where five were meant. */
  lemma SkewLetsNineThrough()
    ensures Worst(10, 59, 1) == Burst(10, 9) + Burst(10, 69)
    ensures Skewed(Worst(10, 59, 1), 1) && WithoutReset(Counter(0, 0), Worst(10, 59, 1))
    ensures Misses(Counter(0, 0), Worst(10, 59, 1), 10, 69) == 9
  {
    BoundIsAttained(10, 59, 1, 0);
    assert Bursts(10, 69, 1) == Burst(10, 69) + Bursts(10, 129, 0);
  }
}
