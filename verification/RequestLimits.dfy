/** The sliding-window limiter in front of expensive authenticated requests. */
module RequestLimits {
  import opened Outcomes
  import opened OrderedKeys

  const WINDOW: real := 60.0
  const MAX_KEYS: nat := 256

  datatype Group = Credentials | Scan | Sample | Management

  datatype Key = Key(peer: string, group: Group)

  function Maximum(g: Group): nat {
    match g
    case Credentials => 20
    case Scan => 10
    case Sample => 120
    case Management => 30
  }

  const CREDENTIAL_PATHS := {"/api/pairings", "/api/operation-grants", "/api/session-login",
                             "/local/security/login", "/local/security/initial-admin",
                             "/api/commissioning/claim", "/api/commissioning/recover",
                             "/api/commissioning/transfer/accept", "/api/ownership/transfer"}

  const USERS_PREFIX := "/api/users"

  /** The group a request counts against; None is never limited. */
  function GroupOf(path: string, verb: string): Option<Group> {
    if verb !in {"POST", "PATCH", "DELETE"} then None
    else if path in CREDENTIAL_PATHS then Some(Credentials)
    else if path in {"/api/scan/start", "/api/unlock"} then Some(Scan)
    else if path == "/api/enroll/start" then None
    else if path == "/api/enroll/sample" then Some(Sample)
    else if USERS_PREFIX <= path || path == "/api/settings" then Some(Management)
    else None
  }

  // ---- One window ----

  /** What is left of a window when the times at its front that have expired are popped. Times behind one
      that has not expired stay, whatever they are. */
  function Popped(times: seq<real>, now: real): seq<real> {
    if times != [] && times[0] <= now - WINDOW then Popped(times[1..], now) else times
  }

  /** The expired front is gone, and nothing else. */
  lemma {:induction false} PoppedExactly(times: seq<real>, now: real)
    ensures var left := Popped(times, now);
            && |left| <= |times| && left == times[|times| - |left|..]
            && (forall i :: 0 <= i < |times| - |left| ==> times[i] <= now - WINDOW)
            && (left != [] ==> left[0] > now - WINDOW)
    decreases |times|
  {
    if times != [] && times[0] <= now - WINDOW {
      PoppedExactly(times[1..], now);
    }
  }

  method PopExpired(times: seq<real>, now: real) returns (window: seq<real>)
    ensures window == Popped(times, now)
  {
    window := times;
    while window != [] && window[0] <= now - WINDOW
      invariant Popped(window, now) == Popped(times, now)
    {
      window := window[1..];
    }
  }

  /** The seconds a rejected caller is told to wait. */
  function RetrySeconds(oldest: real, now: real): int {
    var seconds := (WINDOW - (now - oldest)).Floor + 1;
    if seconds < 1 then 1 else seconds
  }

  predicate Sorted(times: seq<real>) {
    forall i, j :: 0 <= i < j < |times| ==> times[i] <= times[j]
  }

  /** Of any `maximum` + 1 times, in the order of their admission, the last lies at least `gap` after the first. */
  predicate Spaced(history: seq<real>, maximum: nat, gap: real) {
    forall i, j :: 0 <= i < j < |history| && j - i >= maximum ==> history[j] - history[i] >= gap
  }

  // ---- One key ----

  /** The window of a key. `admitted`, `latest` and `spread` only record the past, since the key entered the
      table: all admitted times, the latest reading served, and how far a reading lay behind it. */
  datatype Slot = Slot(window: seq<real>, admitted: seq<real>, latest: real, spread: real)

  function Later(a: real, b: real): real {
    if a < b then b else a
  }

  /** One request that reads `now`, which may lie before readings that were served earlier. */
  function Counted(s: Slot, now: real, maximum: nat): Slot {
    var left := Popped(s.window, now);
    var ok := |left| < maximum;
    Slot(if ok then left + [now] else left, if ok then s.admitted + [now] else s.admitted,
         Later(s.latest, now), Later(s.spread, s.latest - now))
  }

  predicate Below(times: seq<real>, n: nat, limit: real)
    requires n <= |times|
  {
    forall i :: 0 <= i < n ==> times[i] <= limit
  }

  /** The window holds the newest admissions; the older ones had expired when the latest reading was served. */
  predicate WindowOk(window: seq<real>, admitted: seq<real>, latest: real, maximum: nat) {
    && IsSuffix(window, admitted) && |window| <= maximum
    && Below(admitted, |admitted|, latest) && Below(admitted, |admitted| - |window|, latest - WINDOW)
  }

  predicate HistoryOk(admitted: seq<real>, spread: real, maximum: nat) {
    && spread >= 0.0
    && Spaced(admitted, maximum, WINDOW - spread)
    && (spread == 0.0 ==> Sorted(admitted))
  }

  predicate SlotOk(s: Slot, maximum: nat) {
    WindowOk(s.window, s.admitted, s.latest, maximum) && HistoryOk(s.admitted, s.spread, maximum)
  }

  predicate IsSuffix(left: seq<real>, window: seq<real>) {
    |left| <= |window| && left == window[|window| - |left|..]
  }

  /** SlotOk, kept folded. */
  ghost predicate Kept(s: Slot, maximum: nat) {
    forall t :: t == s ==> SlotOk(t, maximum)
  }

  function Expired(s: Slot, now: real): Slot {
    s.(window := Popped(s.window, now), latest := Later(s.latest, now), spread := Later(s.spread, s.latest - now))
  }

  lemma SuffixOfSuffix(a: seq<real>, b: seq<real>, c: seq<real>)
    requires IsSuffix(b, a) && IsSuffix(c, b)
    ensures IsSuffix(c, a)
  {
  }

  lemma PoppingKeepsWindow(window: seq<real>, admitted: seq<real>, latest: real, maximum: nat, now: real)
    requires WindowOk(window, admitted, latest, maximum)
    ensures WindowOk(Popped(window, now), admitted, Later(latest, now), maximum)
  {
    var left := Popped(window, now);
    PoppedExactly(window, now);
    SuffixOfSuffix(admitted, window, left);
    var dropped := |admitted| - |window|;
    forall i | 0 <= i < |admitted| - |left| ensures admitted[i] <= Later(latest, now) - WINDOW {
      if i >= dropped {
        assert admitted[i] == window[i - dropped];
      }
    }
  }

  lemma MoreSpread(admitted: seq<real>, spread: real, more: real, maximum: nat)
    requires HistoryOk(admitted, spread, maximum)
    ensures HistoryOk(admitted, Later(spread, more), maximum)
  {
    WiderGaps(admitted, maximum, WINDOW - spread, WINDOW - Later(spread, more));
  }

  lemma PoppingKeeps(s: Slot, now: real, maximum: nat)
    requires SlotOk(s, maximum)
    ensures SlotOk(Expired(s, now), maximum)
  {
    PoppingKeepsWindow(s.window, s.admitted, s.latest, maximum, now);
    MoreSpread(s.admitted, s.spread, s.latest - now, maximum);
  }

  /** Admission when fewer than the maximum are left. */
  lemma AdmissionKeepsSpacing(s: Slot, now: real, maximum: nat)
    requires SlotOk(s, maximum) && |s.window| < maximum && now <= s.latest && s.latest - now <= s.spread
    ensures SlotOk(s.(window := s.window + [now], admitted := s.admitted + [now]), maximum)
  {
    var more := s.admitted + [now];
    forall i, j | 0 <= i < j < |more| && j - i >= maximum ensures more[j] - more[i] >= WINDOW - s.spread {
      if j == |s.admitted| {
        assert i < |s.admitted| - |s.window|;
      }
    }
  }

  lemma CountedKeeps(s: Slot, now: real, maximum: nat)
    requires Kept(s, maximum)
    ensures Kept(Counted(s, now, maximum), maximum)
  {
    assert SlotOk(s, maximum);
    PoppingKeeps(s, now, maximum);
    if |Popped(s.window, now)| < maximum {
      AdmissionKeepsSpacing(Expired(s, now), now, maximum);
    }
    assert SlotOk(Counted(s, now, maximum), maximum);
  }

  lemma NewSlotKept(now: real, maximum: nat)
    ensures Kept(Slot([], [], now, 0.0), maximum)
  {
    assert SlotOk(Slot([], [], now, 0.0), maximum);
  }

  /** While the readings of a key come in order, its popped window is exactly its admitted times of the last
      60 seconds. */
  lemma OrderedWindowIsRecent(s: Slot, now: real, maximum: nat, i: nat)
    requires SlotOk(s, maximum) && s.spread == 0.0 && s.latest <= now && i < |s.admitted|
    ensures s.admitted[i] > now - WINDOW <==> i >= |s.admitted| - |Popped(s.window, now)|
  {
    PoppedExactly(s.window, now);
    var left := Popped(s.window, now);
    var dropped := |s.admitted| - |s.window|;
    if dropped <= i < |s.admitted| - |left| {
      assert s.admitted[i] == s.window[i - dropped];
    } else if i >= |s.admitted| - |left| {
      assert left[0] == s.window[|s.window| - |left|] == s.admitted[|s.admitted| - |left|];
    }
  }

  // ---- The limiter as its callers see it ----

  /** The keys, least recently touched first, and their slots. */
  datatype Table = Table(order: seq<Key>, slots: map<Key, Slot>)

  datatype Request = Request(key: Key, now: real)

  const EMPTY := Table([], map[])

  function SlotIn(slots: map<Key, Slot>, key: Key, now: real): Slot {
    if key in slots then slots[key] else Slot([], [], now, 0.0)
  }

  function WindowOf(t: Table, key: Key): seq<real> {
    if key in t.slots then t.slots[key].window else []
  }

  /** Every time the key was admitted since it entered the table. */
  function TimesOf(t: Table, key: Key): seq<real> {
    if key in t.slots then t.slots[key].admitted else []
  }

  predicate Admits(t: Table, key: Key, now: real) {
    |Popped(WindowOf(t, key), now)| < Maximum(key.group)
  }

  /** The seconds a refused request is told to wait. */
  function WaitOf(t: Table, key: Key, now: real): int {
    var left := Popped(WindowOf(t, key), now);
    if |left| < Maximum(key.group) then 0 else RetrySeconds(left[0], now)
  }

  /** One request: its key moves to the end, and the first key of a table that grew too large is lost. */
  function Charged(t: Table, key: Key, now: real): Table {
    Table(Touched(t.order, key, MAX_KEYS),
          (t.slots - Evicted(t.order, key, MAX_KEYS))[key := Counted(SlotIn(t.slots, key, now), now, Maximum(key.group))])
  }

  /** Requests in the order in which they take the lock. */
  function Served(t: Table, requests: seq<Request>): Table
    decreases |requests|
  {
    if requests == [] then t
    else
      var last := requests[|requests| - 1];
      Charged(Served(t, requests[..|requests| - 1]), last.key, last.now)
  }

  /** The clock is read before the lock is taken, so a request of the key may be served after one with a later
      reading: later by at most `skew`. */
  predicate Skewed(requests: seq<Request>, key: Key, skew: real) {
    forall i, j :: 0 <= i < j < |requests| && requests[i].key == key && requests[j].key == key ==>
      requests[j].now >= requests[i].now - skew
  }

  lemma ChargedSlot(t: Table, r: Request, key: Key)
    ensures var u := Charged(t, r.key, r.now);
            && (key == r.key ==> key in u.slots && u.slots[key] == Counted(SlotIn(t.slots, key, r.now), r.now, Maximum(key.group)))
            && (key != r.key && key in u.slots ==> key in t.slots && u.slots[key] == t.slots[key])
  {
  }

  lemma {:induction false} ServedKeeps(requests: seq<Request>, key: Key)
    ensures var t := Served(EMPTY, requests); key in t.slots ==> Kept(t.slots[key], Maximum(key.group))
    decreases |requests|
  {
    if requests != [] {
      var init, last := requests[..|requests| - 1], requests[|requests| - 1];
      ServedKeeps(init, key);
      ChargedSlot(Served(EMPTY, init), last, key);
      NewSlotKept(last.now, Maximum(key.group));
      if key == last.key {
        CountedKeeps(SlotIn(Served(EMPTY, init).slots, key, last.now), last.now, Maximum(key.group));
      }
    }
  }

  /** The latest reading of a key is one of its requests', and its spread is within the skew of them. */
  lemma {:induction false} ServedSpread(requests: seq<Request>, key: Key, skew: real)
    requires Skewed(requests, key, skew) && skew >= 0.0
    ensures var t := Served(EMPTY, requests);
            key in t.slots ==>
              && (exists i :: 0 <= i < |requests| && requests[i].key == key && requests[i].now == t.slots[key].latest)
              && t.slots[key].spread <= skew
    decreases |requests|
  {
    if requests != [] {
      var n := |requests| - 1;
      var init, last := requests[..n], requests[n];
      ServedSpread(init, key, skew);
      var t, u := Served(EMPTY, init), Served(EMPTY, requests);
      ChargedSlot(t, last, key);
      if key in u.slots && key in t.slots {
        var i :| 0 <= i < n && init[i].key == key && init[i].now == t.slots[key].latest;
        assert requests[i] == init[i];
        assert u.slots[key].latest == (if key == last.key && last.now > requests[i].now then requests[n] else requests[i]).now;
      } else if key in u.slots {
        assert requests[n].now == u.slots[key].latest;
      }
    }
  }

  // ---- How much an interval holds ----

  /** The admitted times in the interval (end - length, end], by index. */
  ghost function Within(history: seq<real>, end: real, length: real): set<nat> {
    set i: nat | i < |history| && end - length < history[i] <= end
  }

  ghost function Range(from: nat, n: nat): set<nat> {
    if n == 0 then {} else Range(from, n - 1) + {from + n - 1}
  }

  lemma {:induction false} RangeCounts(from: nat, n: nat)
    ensures |Range(from, n)| == n && forall i :: i in Range(from, n) <==> from <= i < from + n
  {
    if n > 0 {
      RangeCounts(from, n - 1);
    }
  }

  lemma SubsetCounts(small: set<nat>, large: set<nat>)
    requires small <= large
    ensures |small| <= |large|
  {
    assert large == small + (large - small);
  }

  lemma {:induction false} SpacedIntervals(history: seq<real>, maximum: nat, end: real, length: real, from: nat)
    requires Spaced(history, maximum, length) && maximum > 0
    requires from <= |history| && forall i: nat :: i < from ==> i !in Within(history, end, length)
    ensures |Within(history, end, length)| <= maximum
    decreases |history| - from
  {
    if from == |history| {
      assert Within(history, end, length) == {};
    } else if from !in Within(history, end, length) {
      SpacedIntervals(history, maximum, end, length, from + 1);
    } else {
      RangeCounts(from, maximum);
      SubsetCounts(Within(history, end, length), Range(from, maximum));
    }
  }

  lemma WiderGaps(history: seq<real>, maximum: nat, gap: real, less: real)
    requires Spaced(history, maximum, gap) && less <= gap
    ensures Spaced(history, maximum, less)
  {
  }

  /** Whatever requests arrive, in whatever order they take the lock: no interval of 60 s less the skew of the
      key's readings holds more than the group's maximum of its admitted times. */
  lemma IntervalsAreBounded(requests: seq<Request>, key: Key, skew: real, length: real, end: real)
    requires Skewed(requests, key, skew) && skew >= 0.0 && length <= WINDOW - skew
    ensures |Within(TimesOf(Served(EMPTY, requests), key), end, length)| <= Maximum(key.group)
  {
    var t := Served(EMPTY, requests);
    ServedKeeps(requests, key);
    ServedSpread(requests, key, skew);
    if key in t.slots {
      assert SlotOk(t.slots[key], Maximum(key.group));
      WiderGaps(TimesOf(t, key), Maximum(key.group), WINDOW - t.slots[key].spread, length);
    }
    SpacedIntervals(TimesOf(t, key), Maximum(key.group), end, length, 0);
  }

  lemma OrderedWindowCounts(s: Slot, now: real, maximum: nat)
    requires SlotOk(s, maximum) && s.spread == 0.0 && s.latest <= now
    ensures |Within(s.admitted, now, WINDOW)| == |Popped(s.window, now)|
  {
    PoppedExactly(s.window, now);
    var n, left := |s.admitted|, |Popped(s.window, now)|;
    RangeCounts(n - left, left);
    forall i: nat | i < n ensures i in Within(s.admitted, now, WINDOW) <==> i in Range(n - left, left) {
      OrderedWindowIsRecent(s, now, maximum, i);
    }
    assert Within(s.admitted, now, WINDOW) == Range(n - left, left);
  }

  /** Whatever was requested before: when a key's requests read the clock in the order in which they are served,
      the next is admitted if and only if fewer than its group's maximum were admitted in the last 60 seconds
      (of those since the key entered the table). */
  lemma OrderedRequestsExactly(requests: seq<Request>, key: Key, now: real)
    requires Skewed(requests + [Request(key, now)], key, 0.0)
    ensures var t := Served(EMPTY, requests);
            Admits(t, key, now) <==> |Within(TimesOf(t, key), now, 60.0)| < Maximum(key.group)
  {
    SkewedInit(requests, Request(key, now), 0.0);
    ServedKeeps(requests, key);
    ServedSpread(requests, key, 0.0);
    var t := Served(EMPTY, requests);
    if key in t.slots {
      assert SlotOk(t.slots[key], Maximum(key.group));
      OrderedWindowCounts(t.slots[key], now, Maximum(key.group));
    }
  }

  /** An admitted request is recorded at its reading, a refused one is not; no other key is charged. */
  lemma ChargeRecords(t: Table, key: Key, now: real, other: Key)
    ensures TimesOf(Charged(t, key, now), key) == (if Admits(t, key, now) then TimesOf(t, key) + [now] else TimesOf(t, key))
    ensures other != key && other in Charged(t, key, now).slots ==> TimesOf(Charged(t, key, now), other) == TimesOf(t, other)
  {
  }

  // ---- The bound is exact ----

  /** Requests of a key at time 0. */
  function Burst(key: Key, n: nat): seq<Request> {
    if n == 0 then [] else Burst(key, n - 1) + [Request(key, 0.0)]
  }

  /** A full group at time 0, a request at 60 that clears it, and one that read the clock earlier. */
  function Overtaken(key: Key, skew: real): seq<Request> {
    Burst(key, Maximum(key.group)) + [Request(key, WINDOW)] + [Request(key, Later(0.0, WINDOW - skew))]
  }

  function Zeros(n: nat): (zeros: seq<real>)
    ensures |zeros| == n && forall i :: 0 <= i < n ==> zeros[i] == 0.0
  {
    if n == 0 then [] else Zeros(n - 1) + [0.0]
  }

  lemma ServedLast(t: Table, requests: seq<Request>, last: Request)
    ensures Served(t, requests + [last]) == Charged(Served(t, requests), last.key, last.now)
  {
    assert (requests + [last])[..|requests|] == requests;
  }

  /** A request on a window that does not expire, and that has room. */
  lemma ChargeAdmits(t: Table, key: Key, now: real, left: seq<real>)
    requires Popped(WindowOf(t, key), now) == left && |left| < Maximum(key.group)
    ensures WindowOf(Charged(t, key, now), key) == left + [now] && TimesOf(Charged(t, key, now), key) == TimesOf(t, key) + [now]
  {
    ChargedSlot(t, Request(key, now), key);
  }

  lemma ZeroIsAdmitted(t: Table, key: Key, zeros: seq<real>)
    requires WindowOf(t, key) == zeros && TimesOf(t, key) == zeros && |zeros| < Maximum(key.group)
    requires zeros != [] ==> zeros[0] == 0.0
    ensures WindowOf(Charged(t, key, 0.0), key) == zeros + [0.0] && TimesOf(Charged(t, key, 0.0), key) == zeros + [0.0]
  {
    assert Popped(zeros, 0.0) == zeros;
    ChargeAdmits(t, key, 0.0, zeros);
  }

  lemma {:induction false} BurstFills(t: Table, key: Key, n: nat)
    requires n <= Maximum(key.group) && WindowOf(t, key) == TimesOf(t, key) == []
    ensures WindowOf(Served(t, Burst(key, n)), key) == Zeros(n)
    ensures TimesOf(Served(t, Burst(key, n)), key) == Zeros(n)
  {
    if n > 0 {
      BurstFills(t, key, n - 1);
      ServedLast(t, Burst(key, n - 1), Request(key, 0.0));
      ZeroIsAdmitted(Served(t, Burst(key, n - 1)), key, Zeros(n - 1));
    }
  }

  lemma {:induction false} AllExpired(n: nat)
    ensures Popped(Zeros(n), WINDOW) == []
  {
    PoppedExactly(Zeros(n), WINDOW);
  }

  lemma {:induction false} BurstIsAtZero(key: Key, n: nat)
    ensures |Burst(key, n)| == n && forall i :: 0 <= i < n ==> Burst(key, n)[i] == Request(key, 0.0)
  {
    if n > 0 {
      BurstIsAtZero(key, n - 1);
    }
  }

  lemma OvertakenSkewed(key: Key, skew: real)
    requires skew >= 0.0
    ensures Skewed(Overtaken(key, skew), key, skew)
  {
    BurstIsAtZero(key, Maximum(key.group));
  }

  lemma OvertakeTwice(t: Table, key: Key, times: seq<real>, late: real)
    requires Popped(WindowOf(t, key), WINDOW) == [] && TimesOf(t, key) == times && late <= WINDOW
    ensures TimesOf(Charged(Charged(t, key, WINDOW), key, late), key) == times + [WINDOW] + [late]
  {
    ChargeAdmits(t, key, WINDOW, []);
    assert [] + [WINDOW] == [WINDOW];
    ChargeAdmits(Charged(t, key, WINDOW), key, late, [WINDOW]);
  }

  /** Overtaken by a later reading, one more request than the maximum is admitted. */
  lemma OvertakenIsAdmitted(key: Key, skew: real)
    requires skew >= 0.0
    ensures TimesOf(Served(EMPTY, Overtaken(key, skew)), key)
            == Zeros(Maximum(key.group)) + [WINDOW] + [Later(0.0, WINDOW - skew)]
  {
    var n := Maximum(key.group);
    var late := Later(0.0, WINDOW - skew);
    var burst := Burst(key, n);
    BurstFills(EMPTY, key, n);
    AllExpired(n);
    OvertakeTwice(Served(EMPTY, burst), key, Zeros(n), late);
    ServedLast(EMPTY, burst, Request(key, WINDOW));
    ServedLast(EMPTY, burst + [Request(key, WINDOW)], Request(key, late));
  }

  lemma BothEndsCount(times: seq<real>, n: nat, late: real, length: real)
    requires |times| == n + 2 && (forall i :: 0 <= i < n ==> times[i] == 0.0) && times[n + 1] == late
    requires 0.0 <= late < length
    ensures |Within(times, late, length)| > n
  {
    RangeCounts(0, n);
    var some := Range(0, n) + {n + 1};
    assert n + 1 !in Range(0, n);
    forall i | i in some ensures i in Within(times, late, length) {
      assert i < |times|;
    }
    SubsetCounts(some, Within(times, late, length));
  }

  lemma OvertakenOverflows(key: Key, skew: real, length: real)
    requires skew >= 0.0 && length > 0.0 && length > WINDOW - skew
    ensures |Within(TimesOf(Served(EMPTY, Overtaken(key, skew)), key), Later(0.0, WINDOW - skew), length)| > Maximum(key.group)
  {
    var n, late := Maximum(key.group), Later(0.0, WINDOW - skew);
    OvertakenIsAdmitted(key, skew);
    BothEndsCount(Zeros(n) + [WINDOW] + [late], n, late, length);
  }

  /** So the maximum holds of every interval of a length, over all requests with a skew, exactly when the
      length is at most 60 s less the skew; of 60 s, as was meant, only without skew. */
  lemma IntervalsExactly(key: Key, skew: real, length: real)
    requires skew >= 0.0 && length > 0.0
    ensures (forall requests, end :: Skewed(requests, key, skew) ==>
               |Within(TimesOf(Served(EMPTY, requests), key), end, length)| <= Maximum(key.group))
            <==> length <= WINDOW - skew
  {
    if length <= WINDOW - skew {
      forall requests, end | Skewed(requests, key, skew)
        ensures |Within(TimesOf(Served(EMPTY, requests), key), end, length)| <= Maximum(key.group)
      {
        IntervalsAreBounded(requests, key, skew, length, end);
      }
    } else {
      OvertakenSkewed(key, skew);
      OvertakenOverflows(key, skew, length);
    }
  }

  // ---- Refused requests ----

  /** None of the requests is one of `key` that is admitted. */
  predicate NoneAdmitted(t: Table, requests: seq<Request>, key: Key)
    decreases |requests|
  {
    requests == [] ||
    var init, last := requests[..|requests| - 1], requests[|requests| - 1];
    NoneAdmitted(t, init, key) && (last.key == key ==> !Admits(Served(t, init), key, last.now))
  }

  lemma {:induction false} NoneAdmittedShrinks(t: Table, requests: seq<Request>, key: Key)
    requires NoneAdmitted(t, requests, key)
    ensures IsSuffix(WindowOf(Served(t, requests), key), WindowOf(t, key))
    decreases |requests|
  {
    if requests != [] {
      var init, last := requests[..|requests| - 1], requests[|requests| - 1];
      NoneAdmittedShrinks(t, init, key);
      var u := Served(t, init);
      ChargedSlot(u, last, key);
      PoppedExactly(WindowOf(u, key), last.now);
      SuffixOfSuffix(WindowOf(t, key), WindowOf(u, key), WindowOf(Served(t, requests), key));
    }
  }

  /** Once its oldest time has expired, a full window has room, however its times are ordered. */
  lemma WaitingSuffices(window: seq<real>, left: seq<real>, now: real, later: real)
    requires window != [] && IsSuffix(left, window) && later >= now + RetrySeconds(window[0], now) as real
    ensures |Popped(left, later)| < |window|
  {
    var rest := WINDOW - (now - window[0]);
    assert rest < rest.Floor as real + 1.0;
    PoppedExactly(left, later);
  }

  lemma RetryPositive(oldest: real, now: real)
    ensures RetrySeconds(oldest, now) >= 1
  {
  }

  lemma ServedWindowFits(requests: seq<Request>, key: Key)
    ensures |WindowOf(Served(EMPTY, requests), key)| <= Maximum(key.group)
  {
    ServedKeeps(requests, key);
    var t := Served(EMPTY, requests);
    if key in t.slots {
      assert SlotOk(t.slots[key], Maximum(key.group));
    }
  }

  /** What a refused request leaves of its window. */
  lemma RefusalPops(t: Table, key: Key, now: real)
    requires !Admits(t, key, now)
    ensures var left := Popped(WindowOf(t, key), now);
            && |left| >= Maximum(key.group) && |left| <= |WindowOf(t, key)| && WindowOf(Charged(t, key, now), key) == left
            && WaitOf(t, key, now) == RetrySeconds(left[0], now) >= 1
  {
    PoppedExactly(WindowOf(t, key), now);
    ChargedSlot(t, Request(key, now), key);
    RetryPositive(Popped(WindowOf(t, key), now)[0], now);
  }

  lemma RoomAfterwards(t: Table, key: Key, now: real, between: seq<Request>, later: real)
    requires WindowOf(t, key) != [] && |WindowOf(t, key)| <= Maximum(key.group) && NoneAdmitted(t, between, key)
    requires later >= now + RetrySeconds(WindowOf(t, key)[0], now) as real
    ensures Admits(Served(t, between), key, later)
  {
    NoneAdmittedShrinks(t, between, key);
    WaitingSuffices(WindowOf(t, key), WindowOf(Served(t, between), key), now, later);
  }

  lemma RefusalWaits(t: Table, key: Key, now: real)
    ensures Admits(t, key, now) <==> WaitOf(t, key, now) == 0
    ensures WaitOf(t, key, now) >= 0
  {
    if !Admits(t, key, now) {
      RefusalPops(t, key, now);
    }
  }

  /** A request that is refused after any run, in any order, and repeated when it has waited as told, is
      admitted, whatever was requested in between, unless a request of the same key was. */
  lemma RefusedThenAdmitted(before: seq<Request>, key: Key, now: real, between: seq<Request>, later: real)
    ensures var t := Served(EMPTY, before);
            && WaitOf(t, key, now) >= 0
            && (Admits(t, key, now) <==> WaitOf(t, key, now) == 0)
            && (!Admits(t, key, now) && NoneAdmitted(Charged(t, key, now), between, key)
                && later >= now + WaitOf(t, key, now) as real
                ==> Admits(Served(Charged(t, key, now), between), key, later))
  {
    var t := Served(EMPTY, before);
    RefusalWaits(t, key, now);
    ServedWindowFits(before, key);
    if !Admits(t, key, now) && NoneAdmitted(Charged(t, key, now), between, key) && later >= now + WaitOf(t, key, now) as real {
      RefusalPops(t, key, now);
      RoomAfterwards(Charged(t, key, now), key, now, between, later);
    }
  }

  lemma SkewedInit(before: seq<Request>, last: Request, skew: real)
    requires Skewed(before + [last], last.key, skew)
    ensures Skewed(before, last.key, skew)
    ensures forall i :: 0 <= i < |before| && before[i].key == last.key ==> before[i].now <= last.now + skew
  {
    var all := before + [last];
    assert forall i :: 0 <= i < |before| ==> all[i] == before[i];
    assert all[|before|] == last;
  }

  lemma OldestIsServed(s: Slot, now: real, maximum: nat)
    requires Kept(s, maximum) && Popped(s.window, now) != []
    ensures Popped(s.window, now)[0] <= s.latest
  {
    assert SlotOk(s, maximum);
    PoppedExactly(s.window, now);
    var left := Popped(s.window, now);
    SuffixOfSuffix(s.admitted, s.window, left);
    assert left[0] == s.admitted[|s.admitted| - |left|];
  }

  /** The told wait is at most 61 s and the skew. */
  lemma WaitsAreBounded(before: seq<Request>, key: Key, now: real, skew: real)
    requires Skewed(before + [Request(key, now)], key, skew) && skew >= 0.0
    ensures WaitOf(Served(EMPTY, before), key, now) as real <= WINDOW + 1.0 + skew
  {
    var t := Served(EMPTY, before);
    if !Admits(t, key, now) && key in t.slots {
      SkewedInit(before, Request(key, now), skew);
      ServedKeeps(before, key);
      ServedSpread(before, key, skew);
      OldestIsServed(t.slots[key], now, Maximum(key.group));
    }
  }

  /** Longer than 61 s, which was meant, only when the oldest time lies ahead of the reading: as here. */
  lemma WaitsCanExceed61(key: Key, skew: real)
    requires skew >= 1.0
    ensures var t := Served(EMPTY, Burst(key, Maximum(key.group)));
            !Admits(t, key, -skew) && WaitOf(t, key, -skew) == skew.Floor + 61
  {
    BurstFills(EMPTY, key, Maximum(key.group));
    var window := Zeros(Maximum(key.group));
    assert window[0] == 0.0 && Popped(window, -skew) == window;
    assert (WINDOW + skew).Floor == skew.Floor + 60;
  }

  // ---- The table ----

  ghost predicate WellFormed(order: seq<Key>, windows: map<Key, seq<real>>, slots: map<Key, Slot>) {
    && InStep(order, windows.Keys, MAX_KEYS)
    && slots.Keys == windows.Keys
    && (forall k :: k in windows ==> Kept(slots[k], Maximum(k.group)) && slots[k].window == windows[k])
  }

  /** The whole table, kept folded. */
  ghost predicate Sound(order: seq<Key>, windows: map<Key, seq<real>>, slots: map<Key, Slot>) {
    forall w :: w == windows ==> WellFormed(order, w, slots)
  }

  lemma EntryOk(order: seq<Key>, windows: map<Key, seq<real>>, slots: map<Key, Slot>, key: Key, now: real)
    requires Sound(order, windows, slots)
    ensures key in windows <==> key in slots
    ensures Kept(SlotIn(slots, key, now), Maximum(key.group))
    ensures SlotIn(slots, key, now).window == if key in windows then windows[key] else []
  {
    assert WellFormed(order, windows, slots);
    NewSlotKept(now, Maximum(key.group));
  }

  /** Counting a request keeps the table sound. */
  lemma ChargeKeepsSound(order: seq<Key>, windows: map<Key, seq<real>>, slots: map<Key, Slot>, key: Key, slot: Slot)
    requires Sound(order, windows, slots) && Kept(slot, Maximum(key.group))
    ensures key !in Evicted(order, key, MAX_KEYS) && key in Touched(order, key, MAX_KEYS)
    ensures var gone := Evicted(order, key, MAX_KEYS);
            Sound(Touched(order, key, MAX_KEYS), (windows - gone)[key := slot.window], (slots - gone)[key := slot])
  {
    assert WellFormed(order, windows, slots);
    TouchedKeepsStep(order, windows.Keys, key, MAX_KEYS);
    var gone := Evicted(order, key, MAX_KEYS);
    var next := (windows - gone)[key := slot.window];
    assert next.Keys == windows.Keys + {key} - gone;
    assert WellFormed(Touched(order, key, MAX_KEYS), next, (slots - gone)[key := slot]);
  }

  lemma PutThenDrop(windows: map<Key, seq<real>>, gone: set<Key>, key: Key, first: seq<real>, second: seq<real>)
    requires key !in gone
    ensures (windows[key := first] - gone)[key := second] == (windows - gone)[key := second]
    ensures windows[key := first] - gone == (windows - gone)[key := first]
    ensures gone == {} ==> windows[key := first] == (windows - gone)[key := first]
  {
  }

  class RequestLimits {
    var order: seq<Key>                 // least recently touched first
    var windows: map<Key, seq<real>>
    ghost var slots: map<Key, Slot>

    ghost predicate Valid()
      reads this
    {
      Sound(order, windows, slots)
    }

    ghost function View(): Table
      reads this
    {
      Table(order, slots)
    }

    constructor ()
      ensures Valid() && windows == map[] && View() == EMPTY
    {
      order, windows, slots := [], map[], map[];
      assert WellFormed([], map[], map[]);
    }

    /** No interval of 60 s, less how far its readings were out of order, holds more of a key's admitted times
        than its group allows. */
    lemma AdmittedIsBounded(key: Key, end: real)
      requires Valid() && key in windows
      ensures key in slots && |Within(slots[key].admitted, end, WINDOW - slots[key].spread)| <= Maximum(key.group)
    {
      EntryOk(order, windows, slots, key, 0.0);
      assert SlotOk(slots[key], Maximum(key.group));
      SpacedIntervals(slots[key].admitted, Maximum(key.group), end, WINDOW - slots[key].spread, 0);
    }

    /** Drop the expired front of the key's window, move the key to the end, and evict the first key of a
        table that grew too large. */
    method Refresh(key: Key, now: real) returns (window: seq<real>)
      requires Valid()
      modifies `order, `windows
      ensures order == Touched(old(order), key, MAX_KEYS)
      ensures window == Popped(if key in old(windows) then old(windows)[key] else [], now)
      ensures windows == (old(windows) - old(Evicted(order, key, MAX_KEYS)))[key := window]
    {
      EntryOk(order, windows, slots, key, now);
      ChargeKeepsSound(order, windows, slots, key, SlotIn(slots, key, now));
      window := PopExpired(if key in windows then windows[key] else [], now);
      PutThenDrop(windows, Evicted(order, key, MAX_KEYS), key, window, window);
      order := Without(order, key) + [key];
      windows := windows[key := window];
      if |order| > MAX_KEYS {
        windows := windows - {order[0]};
        order := order[1..];
      }
    }

    /** Count one request against a key. A request is admitted exactly when fewer than the group's maximum of
        times are left; only the evicted key and this one change. Readings may come in any order. */
    method Charge(key: Key, now: real) returns (wait: int)
      requires Valid()
      modifies this
      ensures Valid() && View() == Charged(old(View()), key, now)
      ensures wait == 0 <==> Admits(old(View()), key, now)
      ensures wait == WaitOf(old(View()), key, now)
    {
      ghost var slot := Counted(SlotIn(slots, key, now), now, Maximum(key.group));
      ghost var gone := Evicted(order, key, MAX_KEYS);
      EntryOk(order, windows, slots, key, now);
      CountedKeeps(SlotIn(slots, key, now), now, Maximum(key.group));
      ChargeKeepsSound(order, windows, slots, key, slot);
      var window := Refresh(key, now);
      slots := (slots - gone)[key := slot];
      if |window| >= Maximum(key.group) {
        wait := RetrySeconds(window[0], now);
        RetryPositive(window[0], now);
      } else {
        wait := 0;
        windows := windows[key := window + [now]];
        assert windows == (old(windows) - gone)[key := slot.window];
      }
    }

    /** Returns 0 for a request that may proceed, or the seconds to wait; a request outside the
        limited routes leaves the table alone. */
    method Check(peer: string, path: string, verb: string, now: real) returns (wait: int)
      requires Valid()
      modifies this
      ensures Valid()
      ensures GroupOf(path, verb).None? ==> wait == 0 && View() == old(View()) && windows == old(windows)
      ensures GroupOf(path, verb).Some? ==>
                var key := Key(peer, GroupOf(path, verb).value);
                && View() == Charged(old(View()), key, now) && wait == WaitOf(old(View()), key, now)
                && (wait == 0 <==> Admits(old(View()), key, now))
    {
      var group := GroupOf(path, verb);
      if group.None? {
        return 0;
      }
      wait := Charge(Key(peer, group.value), now);
    }
  }
}
