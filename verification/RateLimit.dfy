/**
 The fixed-window limiter (RATE_LIMIT_SCRIPT and createRedisRateLimiter in src/middlewares/rateLimiters.js)
 on one client key. The script runs atomically; a reply may get lost after it ran.
*/
module RateLimit {
  /** Redis versions differ on whether a key is still there at the very millisecond of its deadline. */
  datatype Expiry = GoneAtDeadline | GoneAfterDeadline

  datatype Limits = Limits(windowMs: nat, max: nat, expiry: Expiry)

  /** The key's counter and, for the record, when each window so far was opened. */
  datatype State = State(hits: nat, starts: seq<int>)

  datatype Arrival = Arrival(at: int, replied: bool)

  /** What happened to an arrival: the window it was counted in, the script's reply, the outcome. */
  datatype Verdict = Verdict(at: int, window: nat, hits: nat, ttl: int, admitted: bool)

  const START := State(0, [])

  predicate Expired(expiry: Expiry, deadline: int, now: int) {
    match expiry
    case GoneAtDeadline => now >= deadline
    case GoneAfterDeadline => now > deadline
  }

  /** No counter is there to be incremented. */
  predicate NoKey(limits: Limits, s: State, now: int) {
    s.starts == [] || Expired(limits.expiry, s.starts[|s.starts| - 1] + limits.windowMs, now)
  }

  /** INCR, and PEXPIRE for a counter that has just come to 1. */
  function Incr(limits: Limits, s: State, now: int): (s': State)
    ensures s'.starts != []
  {
    if NoKey(limits, s, now) then State(1, s.starts + [now]) else s.(hits := s.hits + 1)
  }

  /** PTTL. */
  function Ttl(limits: Limits, s: State, now: int): int
    requires s.starts != []
  {
    s.starts[|s.starts| - 1] + limits.windowMs - now
  }

  function Judge(limits: Limits, s: State, a: Arrival): Verdict {
    var s' := Incr(limits, s, a.at);
    Verdict(a.at, |s'.starts| - 1, s'.hits, Ttl(limits, s', a.at), a.replied && s'.hits <= limits.max)
  }

  /** The key after the first n arrivals. */
  function Serve(limits: Limits, arrivals: seq<Arrival>, n: nat): State
    requires n <= |arrivals|
  {
    if n == 0 then START else Incr(limits, Serve(limits, arrivals, n - 1), arrivals[n - 1].at)
  }

  function VerdictOf(limits: Limits, arrivals: seq<Arrival>, i: nat): Verdict
    requires i < |arrivals|
  {
    Judge(limits, Serve(limits, arrivals, i), arrivals[i])
  }

  predicate InOrder(arrivals: seq<Arrival>) {
    forall i, j :: 0 <= i < j < |arrivals| ==> arrivals[i].at <= arrivals[j].at
  }

  // ---------------------------------------------------------------- verdicts

  predicate StartsFit(limits: Limits, starts: seq<int>) {
    forall m, n :: 0 <= m < n < |starts| ==> Expired(limits.expiry, starts[m] + limits.windowMs, starts[n])
  }

  predicate VerdictFits(limits: Limits, s: State, v: Verdict) {
    && v.window < |s.starts| && 0 < v.hits
    && s.starts[v.window] <= v.at && !Expired(limits.expiry, s.starts[v.window] + limits.windowMs, v.at)
    && (v.hits == 1 ==> v.at == s.starts[v.window])
    && (v.admitted ==> v.hits <= limits.max)
    && (v.window == |s.starts| - 1 ==> v.hits <= s.hits)
    && (v.window + 1 < |s.starts| ==> v.at < s.starts[v.window + 1])
  }

  predicate StateFits(limits: Limits, s: State, now: int) {
    && StartsFit(limits, s.starts) && (s.starts != [] ==> s.hits > 0)
    && (forall m :: 0 <= m < |s.starts| ==> s.starts[m] <= now)
  }

  lemma StepFits(limits: Limits, s: State, a: Arrival)
    requires limits.windowMs > 0 && StateFits(limits, s, a.at)
    ensures StateFits(limits, Incr(limits, s, a.at), a.at)
    ensures VerdictFits(limits, Incr(limits, s, a.at), Judge(limits, s, a))
  {
  }

  /** An older verdict still fits, and the new one differs in its window or in its counter value. */
  lemma OldVerdictFits(limits: Limits, s: State, v: Verdict, a: Arrival)
    requires StartsFit(limits, s.starts) && VerdictFits(limits, s, v)
    ensures VerdictFits(limits, Incr(limits, s, a.at), v)
    ensures (v.window, v.hits) != (Judge(limits, s, a).window, Judge(limits, s, a).hits)
  {
  }

  lemma {:induction false} ServeFits(limits: Limits, arrivals: seq<Arrival>, n: nat)
    requires limits.windowMs > 0 && InOrder(arrivals) && 0 < n <= |arrivals|
    ensures StateFits(limits, Serve(limits, arrivals, n), arrivals[n - 1].at)
  {
    if n > 1 { ServeFits(limits, arrivals, n - 1); }
    StepFits(limits, Serve(limits, arrivals, n - 1), arrivals[n - 1]);
  }

  lemma {:induction false} VerdictsFit(limits: Limits, arrivals: seq<Arrival>, i: nat, n: nat)
    requires limits.windowMs > 0 && InOrder(arrivals) && i < n <= |arrivals|
    ensures VerdictFits(limits, Serve(limits, arrivals, n), VerdictOf(limits, arrivals, i))
    decreases n
  {
    if n > 1 { ServeFits(limits, arrivals, n - 1); }
    if i == n - 1 {
      StepFits(limits, Serve(limits, arrivals, i), arrivals[i]);
    } else {
      VerdictsFit(limits, arrivals, i, n - 1);
      OldVerdictFits(limits, Serve(limits, arrivals, n - 1), VerdictOf(limits, arrivals, i), arrivals[n - 1]);
    }
  }

  function SlotOf(v: Verdict): (nat, nat) {
    (v.window, v.hits)
  }

  lemma CountedOnce(limits: Limits, arrivals: seq<Arrival>, i: nat, j: nat)
    requires limits.windowMs > 0 && InOrder(arrivals) && i < j < |arrivals|
    ensures SlotOf(VerdictOf(limits, arrivals, i)) != SlotOf(VerdictOf(limits, arrivals, j))
  {
    ServeFits(limits, arrivals, j);
    VerdictsFit(limits, arrivals, i, j);
    OldVerdictFits(limits, Serve(limits, arrivals, j), VerdictOf(limits, arrivals, i), arrivals[j]);
  }

  // ---------------------------------------------------------------- how many are admitted

  /** A kind of arrivals: those counted in one window, or those in a range of time. */
  datatype Kind = InWindow(window: nat) | Between(from: int, to: int) {
    predicate Has(v: Verdict) {
      match this
      case InWindow(window) => v.window == window
      case Between(from, to) => from <= v.at <= to
    }
  }

  predicate IsAdmitted(limits: Limits, arrivals: seq<Arrival>, kind: Kind, i: int) {
    0 <= i < |arrivals| && VerdictOf(limits, arrivals, i).admitted && kind.Has(VerdictOf(limits, arrivals, i))
  }

  /** How many of the first n arrivals are of this kind and admitted. */
  function CountAdmitted(limits: Limits, arrivals: seq<Arrival>, kind: Kind, n: nat): nat {
    if n == 0 then 0
    else CountAdmitted(limits, arrivals, kind, n - 1) + if IsAdmitted(limits, arrivals, kind, n - 1) then 1 else 0
  }

  /** Every one of the first n requests of this kind that are admitted takes one of these slots. */
  ghost predicate TakeSlots(limits: Limits, arrivals: seq<Arrival>, kind: Kind, n: nat, slots: set<(nat, nat)>)
    requires n <= |arrivals|
  {
    forall i :: 0 <= i < n && IsAdmitted(limits, arrivals, kind, i) ==> SlotOf(VerdictOf(limits, arrivals, i)) in slots
  }

  /** Distinct requests take distinct slots: there are no more admissions than slots they could take. */
  lemma {:induction false} CountIsCapped(limits: Limits, arrivals: seq<Arrival>, kind: Kind, n: nat,
      slots: set<(nat, nat)>)
    requires limits.windowMs > 0 && InOrder(arrivals) && n <= |arrivals| && TakeSlots(limits, arrivals, kind, n, slots)
    ensures CountAdmitted(limits, arrivals, kind, n) <= |slots|
  {
    if n == 0 {
    } else if IsAdmitted(limits, arrivals, kind, n - 1) {
      var others := OneSlotLess(limits, arrivals, kind, n, slots);
      CountIsCapped(limits, arrivals, kind, n - 1, others);
    } else {
      SameSlots(limits, arrivals, kind, n, slots);
      CountIsCapped(limits, arrivals, kind, n - 1, slots);
    }
  }

  lemma {:induction false} SameSlots(limits: Limits, arrivals: seq<Arrival>, kind: Kind, n: nat, slots: set<(nat, nat)>)
    requires 0 < n <= |arrivals| && TakeSlots(limits, arrivals, kind, n, slots)
    ensures TakeSlots(limits, arrivals, kind, n - 1, slots)
  {
  }

  /** The earlier requests do not take the slot of the last one. */
  lemma {:induction false} OneSlotLess(limits: Limits, arrivals: seq<Arrival>, kind: Kind, n: nat,
      slots: set<(nat, nat)>)
    returns (others: set<(nat, nat)>)
    requires limits.windowMs > 0 && InOrder(arrivals) && 0 < n <= |arrivals|
    requires TakeSlots(limits, arrivals, kind, n, slots) && IsAdmitted(limits, arrivals, kind, n - 1)
    ensures TakeSlots(limits, arrivals, kind, n - 1, others) && |others| == |slots| - 1
  {
    var last := SlotOf(VerdictOf(limits, arrivals, n - 1));
    others := slots - {last};
    forall i | 0 <= i < n - 1 && IsAdmitted(limits, arrivals, kind, i)
      ensures SlotOf(VerdictOf(limits, arrivals, i)) in others
    {
      CountedOnce(limits, arrivals, i, n - 1);
    }
    assert last in slots;
  }

  /** The counter values 1 to max of one window. */
  function Slots(window: nat, max: nat): (slots: set<(nat, nat)>)
    ensures |slots| == max
    ensures forall slot :: slot in slots <==> slot.0 == window && 1 <= slot.1 <= max
  {
    if max == 0 then {} else Slots(window, max - 1) + {(window, max)}
  }

  /** Each window admits at most max requests. */
  lemma WindowBound(limits: Limits, arrivals: seq<Arrival>, window: nat)
    requires limits.windowMs > 0 && InOrder(arrivals)
    ensures CountAdmitted(limits, arrivals, InWindow(window), |arrivals|) <= limits.max
  {
    forall i | 0 <= i < |arrivals| && IsAdmitted(limits, arrivals, InWindow(window), i)
      ensures SlotOf(VerdictOf(limits, arrivals, i)) in Slots(window, limits.max)
    {
      VerdictsFit(limits, arrivals, i, |arrivals|);
    }
    CountIsCapped(limits, arrivals, InWindow(window), |arrivals|, Slots(window, limits.max));
  }

  /** Requests at most one window length apart are counted in the same or in adjacent windows; in adjacent
      ones, after the first of them has opened its window, only if a key set by that one has expired. */
  lemma {:induction false} AtMostAdjacent(limits: Limits, arrivals: seq<Arrival>, i: nat, j: nat)
    requires limits.windowMs > 0 && InOrder(arrivals) && i < |arrivals| && j < |arrivals|
    requires arrivals[j].at <= arrivals[i].at + limits.windowMs
    ensures var u, v := VerdictOf(limits, arrivals, i), VerdictOf(limits, arrivals, j);
            && v.window <= u.window + 1
            && (u.hits == 1 && v.window > u.window ==>
                 Expired(limits.expiry, arrivals[i].at + limits.windowMs, arrivals[j].at))
  {
    ServeFits(limits, arrivals, |arrivals|);
    VerdictsFit(limits, arrivals, i, |arrivals|);
    VerdictsFit(limits, arrivals, j, |arrivals|);
    var starts := Serve(limits, arrivals, |arrivals|).starts;
    var u, v := VerdictOf(limits, arrivals, i), VerdictOf(limits, arrivals, j);
    if v.window > u.window {
      var next := starts[u.window + 1];
      assert Expired(limits.expiry, starts[u.window] + limits.windowMs, next);
      var before := if v.window == u.window + 1 then starts[u.window] else next;
      assert Expired(limits.expiry, before + limits.windowMs, starts[v.window]);
    }
  }

  /** An admitted arrival of this kind in the earliest window that has one. */
  lemma {:induction false} Earliest(limits: Limits, arrivals: seq<Arrival>, kind: Kind, k: nat) returns (first: nat)
    requires IsAdmitted(limits, arrivals, kind, k)
    ensures IsAdmitted(limits, arrivals, kind, first)
    ensures forall i :: IsAdmitted(limits, arrivals, kind, i) ==>
              VerdictOf(limits, arrivals, first).window <= VerdictOf(limits, arrivals, i).window
  {
    first := k;
    for i := 0 to |arrivals|
      invariant IsAdmitted(limits, arrivals, kind, first)
      invariant forall j :: j < i && IsAdmitted(limits, arrivals, kind, j) ==>
                  VerdictOf(limits, arrivals, first).window <= VerdictOf(limits, arrivals, j).window
    {
      if IsAdmitted(limits, arrivals, kind, i)
          && VerdictOf(limits, arrivals, i).window < VerdictOf(limits, arrivals, first).window {
        first := i;
      }
    }
  }

  /** All admitted arrivals of this kind are counted in this window or the next one. */
  ghost predicate TwoWindows(limits: Limits, arrivals: seq<Arrival>, kind: Kind, first: nat) {
    forall i :: IsAdmitted(limits, arrivals, kind, i) ==>
      var v := VerdictOf(limits, arrivals, i); first <= v.window <= first + 1 && 1 <= v.hits <= limits.max
  }

  lemma {:induction false} StretchHasTwoWindows(limits: Limits, arrivals: seq<Arrival>, from: int, to: int)
    returns (first: nat)
    requires limits.windowMs > 0 && InOrder(arrivals) && to <= from + limits.windowMs
    ensures TwoWindows(limits, arrivals, Between(from, to), first)
  {
    var kind := Between(from, to);
    first := 0;
    if k :| IsAdmitted(limits, arrivals, kind, k) {
      var f := Earliest(limits, arrivals, kind, k);
      first := VerdictOf(limits, arrivals, f).window;
      forall i | IsAdmitted(limits, arrivals, kind, i)
        ensures var v := VerdictOf(limits, arrivals, i); first <= v.window <= first + 1 && 1 <= v.hits <= limits.max
      {
        AtMostAdjacent(limits, arrivals, f, i);
        VerdictsFit(limits, arrivals, i, |arrivals|);
      }
    }
  }

  /** Any stretch of time as long as a window, both ends included, admits at most 2 * max requests. */
  lemma {:induction false} StretchBound(limits: Limits, arrivals: seq<Arrival>, from: int)
    requires limits.windowMs > 0 && InOrder(arrivals)
    ensures CountAdmitted(limits, arrivals, Between(from, from + limits.windowMs), |arrivals|) <= 2 * limits.max
  {
    var kind := Between(from, from + limits.windowMs);
    var first := StretchHasTwoWindows(limits, arrivals, from, from + limits.windowMs);
    CountIsCapped(limits, arrivals, kind, |arrivals|, Slots(first, limits.max) + Slots(first + 1, limits.max));
  }

  /** A stretch over whose length a key does not expire admits at most 2 * max - 1: the request that opened
      the older window and those of the younger one are too far apart. */
  lemma {:induction false} ShortStretchBound(limits: Limits, arrivals: seq<Arrival>, from: int, to: int)
    requires limits.windowMs > 0 && InOrder(arrivals) && limits.max > 0
    requires !Expired(limits.expiry, from + limits.windowMs, to)
    ensures CountAdmitted(limits, arrivals, Between(from, to), |arrivals|) <= 2 * limits.max - 1
  {
    var kind := Between(from, to);
    var first := StretchHasTwoWindows(limits, arrivals, from, to);
    if o :| IsAdmitted(limits, arrivals, kind, o) && SlotOf(VerdictOf(limits, arrivals, o)) == (first, 1) {
      forall i | IsAdmitted(limits, arrivals, kind, i) ensures VerdictOf(limits, arrivals, i).window == first {
        AtMostAdjacent(limits, arrivals, o, i);
      }
      CountIsCapped(limits, arrivals, kind, |arrivals|, Slots(first, limits.max));
    } else {
      AllButOneSlot(limits, arrivals, kind, first);
    }
  }

  lemma {:induction false} AllButOneSlot(limits: Limits, arrivals: seq<Arrival>, kind: Kind, first: nat)
    requires limits.windowMs > 0 && InOrder(arrivals) && limits.max > 0 && TwoWindows(limits, arrivals, kind, first)
    requires forall i :: IsAdmitted(limits, arrivals, kind, i) ==> SlotOf(VerdictOf(limits, arrivals, i)) != (first, 1)
    ensures CountAdmitted(limits, arrivals, kind, |arrivals|) <= 2 * limits.max - 1
  {
    var slots := Slots(first, limits.max) + Slots(first + 1, limits.max);
    assert (first, 1) in slots;
    CountIsCapped(limits, arrivals, kind, |arrivals|, slots - {(first, 1)});
  }

  // ---------------------------------------------------------------- the bounds are reached

  /** One request at 0 opens a window, the rest of its quota comes at `late`, a whole quota at `next`. */
  function Bursts(limits: Limits, late: int, next: int): (arrivals: seq<Arrival>)
    ensures |arrivals| == 2 * limits.max
    ensures forall i :: 0 <= i < |arrivals| ==>
              arrivals[i] == Arrival(if i == 0 then 0 else if i < limits.max then late else next, true)
  {
    seq(2 * limits.max, i => Arrival(if i == 0 then 0 else if i < limits.max then late else next, true))
  }

  /** The window opened at 0 is still open at `late` and no longer at `next`. */
  predicate Straddle(limits: Limits, late: int, next: int) {
    && limits.windowMs > 0 && 0 <= late <= next
    && !Expired(limits.expiry, limits.windowMs, late) && Expired(limits.expiry, limits.windowMs, next)
  }

  lemma {:induction false} BurstsState(limits: Limits, late: int, next: int, n: nat)
    requires Straddle(limits, late, next) && n <= 2 * limits.max
    ensures Serve(limits, Bursts(limits, late, next), n) ==
              if n == 0 then START
              else if n <= limits.max then State(n, [0])
              else State(n - limits.max, [0, next])
  {
    if n == 0 {
    } else {
      BurstsState(limits, late, next, n - 1);
    }
  }

  /** All of them are admitted; a stretch that begins after 0 misses the first. */
  lemma {:induction false} BurstAdmitted(limits: Limits, late: int, next: int, from: int, i: nat)
    requires Straddle(limits, late, next) && i < 2 * limits.max && 0 <= from <= late
    ensures IsAdmitted(limits, Bursts(limits, late, next), Between(from, next), i) <==> i > 0 || from == 0
  {
    BurstsState(limits, late, next, i);
  }

  lemma {:induction false} BurstsCount(limits: Limits, late: int, next: int, from: int, n: nat)
    requires Straddle(limits, late, next) && n <= 2 * limits.max && 0 <= from <= late
    ensures CountAdmitted(limits, Bursts(limits, late, next), Between(from, next), n)
              == if n > 0 && from > 0 then n - 1 else n
  {
    if n == 0 {
    } else {
      BurstsCount(limits, late, next, from, n - 1);
      BurstAdmitted(limits, late, next, from, n - 1);
    }
  }

  /** StretchBound cannot be improved where a key is gone at its deadline: a burst as a window opens and
      one as it ends are both admitted. */
  lemma BoundIsReached(limits: Limits) returns (arrivals: seq<Arrival>)
    requires limits.windowMs > 0 && limits.expiry.GoneAtDeadline?
    ensures InOrder(arrivals)
    ensures CountAdmitted(limits, arrivals, Between(0, limits.windowMs), |arrivals|) == 2 * limits.max
  {
    arrivals := Bursts(limits, 0, limits.windowMs);
    BurstsCount(limits, 0, limits.windowMs, 0, 2 * limits.max);
  }

  /** ShortStretchBound cannot be improved either, wherever a key survives an instant after it was set: a
      longest stretch over which it does not expire admits 2 * max - 1. So where a key is still there at
      its deadline, that is the maximum of a stretch as long as a window. */
  lemma ShortBoundIsReached(limits: Limits) returns (arrivals: seq<Arrival>, from: int, to: int)
    requires limits.max > 0 && limits.windowMs > 0 && !Expired(limits.expiry, limits.windowMs, 1)
    ensures InOrder(arrivals)
    ensures !Expired(limits.expiry, from + limits.windowMs, to)
              && Expired(limits.expiry, from + limits.windowMs, to + 1)
    ensures limits.expiry.GoneAfterDeadline? ==> to == from + limits.windowMs
    ensures CountAdmitted(limits, arrivals, Between(from, to), |arrivals|) == 2 * limits.max - 1
  {
    var next := if limits.expiry.GoneAtDeadline? then limits.windowMs else limits.windowMs + 1;
    arrivals, from, to := Bursts(limits, next - 1, next), 1, next;
    BurstsCount(limits, next - 1, next, 1, 2 * limits.max);
  }

  // ---------------------------------------------------------------- the headers

  /** RateLimit-Reset, in seconds. */
  function ResetSeconds(ttl: int): int {
    var seconds := (ttl + 999) / 1000;
    if seconds > 1 then seconds else 1
  }

  /** RateLimit-Remaining. */
  function Remaining(limits: Limits, hits: nat): nat {
    if limits.max > hits then limits.max - hits else 0
  }

  /** A caller alone on its key who waits as long as RateLimit-Reset says never comes too early: it is
      admitted next unless its quota is used up and Redis still keeps the key at the instant of its
      deadline. */
  lemma ResetIsHonest(limits: Limits, arrivals: seq<Arrival>, i: nat)
    requires limits.windowMs > 0 && limits.max > 0 && InOrder(arrivals) && i + 1 < |arrivals| && arrivals[i + 1].replied
    requires arrivals[i + 1].at >= arrivals[i].at + 1000 * ResetSeconds(VerdictOf(limits, arrivals, i).ttl)
    ensures var v := VerdictOf(limits, arrivals, i);
            && arrivals[i + 1].at >= v.at + v.ttl
            && (VerdictOf(limits, arrivals, i + 1).admitted <==>
                  v.hits < limits.max || limits.expiry.GoneAtDeadline? || arrivals[i + 1].at > v.at + v.ttl)
  {
    var v := VerdictOf(limits, arrivals, i);
    assert v.ttl <= 1000 * ResetSeconds(v.ttl);
  }

  /** RateLimit-Reset is the least number of seconds, at least 1, that is not less than what is left of the window. */
  lemma {:induction false} ResetIsTight(ttl: int, seconds: int)
    requires seconds >= 1 && 1000 * seconds >= ttl
    ensures 1 <= ResetSeconds(ttl) <= seconds && 1000 * ResetSeconds(ttl) >= ttl
  {
  }

  lemma {:induction false} SameWindow(limits: Limits, arrivals: seq<Arrival>, i: nat, more: nat)
    requires i + more < |arrivals|
    requires var v := VerdictOf(limits, arrivals, i);
             forall j :: i < j <= i + more ==> !Expired(limits.expiry, v.at + v.ttl, arrivals[j].at)
    ensures Serve(limits, arrivals, i + more + 1) ==
              State(Serve(limits, arrivals, i + 1).hits + more, Serve(limits, arrivals, i + 1).starts)
  {
    if more > 0 { SameWindow(limits, arrivals, i, more - 1); }
  }

  /** RateLimit-Remaining is the number of further requests that this window admits: the k-th one more is
      admitted if and only if k is not above it. */
  lemma RemainingIsHonest(limits: Limits, arrivals: seq<Arrival>, i: nat, k: nat)
    requires 0 < k && i + k < |arrivals| && arrivals[i + k].replied
    requires var v := VerdictOf(limits, arrivals, i);
             forall j :: i < j <= i + k ==> !Expired(limits.expiry, v.at + v.ttl, arrivals[j].at)
    ensures var v, u := VerdictOf(limits, arrivals, i), VerdictOf(limits, arrivals, i + k);
            u.window == v.window && (u.admitted <==> k <= Remaining(limits, v.hits))
  {
    SameWindow(limits, arrivals, i, k);
  }
}
