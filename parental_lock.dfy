/** The parental lock (components/ParentalLock.js): a corner button that calls `onUnlock` on
  * the fifth tap. Every tap short of that bumps a counter and starts a 2.5 s timer that puts
  * the counter back to zero; timers are never cancelled. */
module ParentalLock {
  const TAPS_TO_UNLOCK: nat := 5
  const RESET_AFTER_MS: int := 2500

  /** The counter, how many times `onUnlock` has been called, and the due times of the reset
    * timers still pending. */
  datatype LockState = LockState(count: nat, unlocks: nat, pending: seq<int>)

  /** `handlePress` at time `now`. */
  function Press(s: LockState, now: int): (r: LockState)
    ensures s.count >= TAPS_TO_UNLOCK - 1 ==> r == s.(count := 0, unlocks := s.unlocks + 1)
    ensures s.count < TAPS_TO_UNLOCK - 1 ==>
              r == s.(count := s.count + 1, pending := s.pending + [now + RESET_AFTER_MS])
    ensures r.unlocks <= s.unlocks + 1
  {
    if s.count >= 4 then s.(count := 0, unlocks := s.unlocks + 1)
    else s.(count := s.count + 1, pending := s.pending + [now + 2500])
  }

  /** The pending timers not yet due at `now`, in the order they were started; a due time
    * started twice is kept twice. */
  function NotDue(ts: seq<int>, now: int): (r: seq<int>)
    ensures |r| <= |ts|
    ensures forall t :: t in r <==> t in ts && t > now
    ensures forall t :: multiset(r)[t] == if t > now then multiset(ts)[t] else 0
    decreases |ts|
  {
    if ts == [] then []
    else
      assert ts == ts[..|ts| - 1] + [ts[|ts| - 1]];
      NotDue(ts[..|ts| - 1], now) + if ts[|ts| - 1] > now then [ts[|ts| - 1]] else []
  }

  predicate AnyDue(ts: seq<int>, now: int) {
    exists i :: 0 <= i < |ts| && ts[i] <= now
  }

  /** The timers due by `now` fire: each puts the counter back to zero. */
  function FireDue(s: LockState, now: int): (r: LockState)
    ensures AnyDue(s.pending, now) ==> r.count == 0
    ensures !AnyDue(s.pending, now) ==> r == s
    ensures r.unlocks == s.unlocks
    ensures forall t :: t in r.pending <==> t in s.pending && t > now
  {
    if AnyDue(s.pending, now) then s.(count := 0, pending := NotDue(s.pending, now))
    else
      NoneDue(s.pending, now);
      s
  }

  lemma {:induction false} NoneDue(ts: seq<int>, now: int)
    requires !AnyDue(ts, now)
    ensures NotDue(ts, now) == ts
    decreases |ts|
  {
    if ts != [] {
      var p := ts[..|ts| - 1];
      assert !AnyDue(p, now) by {
        forall i | 0 <= i < |p| ensures p[i] > now {
          assert p[i] == ts[i];
        }
      }
      NoneDue(p, now);
      assert p + [ts[|ts| - 1]] == ts;
    }
  }

  /** A tap at `now`: the timers due by then fire first, then `handlePress` runs. */
  function Tap(s: LockState, now: int): (r: LockState)
    ensures r.unlocks == s.unlocks + 1 <==> !AnyDue(s.pending, now) && s.count >= TAPS_TO_UNLOCK - 1
    ensures r.unlocks <= s.unlocks + 1
    ensures AnyDue(s.pending, now) ==> r.count == 1 && r.unlocks == s.unlocks
  {
    Press(FireDue(s, now), now)
  }

  function Taps(s: LockState, times: seq<int>): LockState
    decreases |times|
  {
    if times == [] then s else Taps(Tap(s, times[0]), times[1..])
  }

  /** The counter never passes 4: the tap that finds 4 unlocks and starts over. */
  predicate Bounded(s: LockState) {
    s.count < TAPS_TO_UNLOCK
  }

  lemma TapKeepsBounded(s: LockState, now: int)
    requires Bounded(s)
    ensures Bounded(Tap(s, now))
  {
  }

  lemma {:induction false} TapsKeepBounded(s: LockState, times: seq<int>)
    requires Bounded(s)
    ensures Bounded(Taps(s, times))
    decreases |times|
  {
    if times != [] {
      TapKeepsBounded(s, times[0]);
      TapsKeepBounded(Tap(s, times[0]), times[1..]);
    }
  }

  /** A tap before every pending timer is due, with the counter below 4, counts it and starts
    * a timer; if all timers were due at `floor` or later, they still are. */
  lemma TapCounts(s: LockState, now: int, floor: int)
    requires s.count < TAPS_TO_UNLOCK - 1
    requires now < floor && forall i :: 0 <= i < |s.pending| ==> s.pending[i] >= floor
    requires now + RESET_AFTER_MS >= floor
    ensures Tap(s, now) == s.(count := s.count + 1, pending := s.pending + [now + RESET_AFTER_MS])
    ensures forall i :: 0 <= i < |Tap(s, now).pending| ==> Tap(s, now).pending[i] >= floor
  {
    assert !AnyDue(s.pending, now);
  }

  /** The k-th tap (1 <= k <= 3) after a fresh start: the counter is at most k, and it is below k
    * unless the timer `x` of the first tap is still pending. */
  lemma TapAfterFirst(s: LockState, now: int, x: int, k: nat)
    requires 1 <= k <= 3 && s.count <= k && (x in s.pending || s.count < k)
    ensures var r := Tap(s, now);
            r.unlocks == s.unlocks && r.count <= k + 1 && (x in r.pending || r.count <= k)
  {
    var f := FireDue(s, now);
    if x in s.pending && x <= now {
      var i :| 0 <= i < |s.pending| && s.pending[i] == x;
      assert AnyDue(s.pending, now);
    }
  }

  lemma TapsFive(s: LockState, t: seq<int>)
    requires |t| == 5
    ensures Taps(s, t) == Tap(Tap(Tap(Tap(Tap(s, t[0]), t[1]), t[2]), t[3]), t[4])
  {
    var s1 := Tap(s, t[0]);
    var s2 := Tap(s1, t[1]);
    var s3 := Tap(s2, t[2]);
    var s4 := Tap(s3, t[3]);
    assert Taps(s, t) == Taps(s1, t[1..]);
    assert Taps(s1, t[1..]) == Taps(s2, t[2..]) by { assert t[1..][1..] == t[2..]; }
    assert Taps(s2, t[2..]) == Taps(s3, t[3..]) by { assert t[2..][1..] == t[3..]; }
    assert Taps(s3, t[3..]) == Taps(s4, t[4..]) by { assert t[3..][1..] == t[4..]; }
    assert Taps(s4, t[4..]) == Taps(Tap(s4, t[4]), []) by { assert t[4..][1..] == []; }
  }

  /** Five taps from a fresh lock, in time order, the fifth less than 2.5 s after the first:
    * `onUnlock` is called exactly once and the counter is back at zero. */
  lemma FiveQuickTapsUnlock(unlocks: nat, t: seq<int>)
    requires |t| == TAPS_TO_UNLOCK
    requires forall i :: 0 < i < |t| ==> t[i - 1] <= t[i]
    requires t[4] < t[0] + RESET_AFTER_MS
    ensures var r := Taps(LockState(0, unlocks, []), t);
            r.count == 0 && r.unlocks == unlocks + 1 && |r.pending| == 4
  {
    var x := t[0] + RESET_AFTER_MS;
    assert t[0] <= t[1] <= t[2] <= t[3] <= t[4];
    var s0 := LockState(0, unlocks, []);
    TapsFive(s0, t);
    TapCounts(s0, t[0], x);
    var s1 := Tap(s0, t[0]);
    TapCounts(s1, t[1], x);
    var s2 := Tap(s1, t[1]);
    TapCounts(s2, t[2], x);
    var s3 := Tap(s2, t[2]);
    TapCounts(s3, t[3], x);
    var s4 := Tap(s3, t[3]);
    assert s4.count == 4 && s4.unlocks == unlocks && |s4.pending| == 4;
    assert !AnyDue(s4.pending, t[4]);
  }

  /** If the fifth tap comes 2.5 s or more after the first, the first tap's timer has reset the
    * counter by then, and `onUnlock` is not called. */
  lemma FiveSlowTapsStayLocked(unlocks: nat, t: seq<int>)
    requires |t| == TAPS_TO_UNLOCK
    requires t[4] >= t[0] + RESET_AFTER_MS
    ensures Taps(LockState(0, unlocks, []), t).unlocks == unlocks
  {
    var x := t[0] + RESET_AFTER_MS;
    var s0 := LockState(0, unlocks, []);
    TapsFive(s0, t);
    FirstTap(unlocks, t[0]);
    SlowTail(Tap(s0, t[0]), t[1], t[2], t[3], t[4], x);
  }

  /** The first tap on a fresh lock counts it and starts one timer. */
  lemma FirstTap(unlocks: nat, now: int)
    ensures Tap(LockState(0, unlocks, []), now) == LockState(1, unlocks, [now + RESET_AFTER_MS])
  {
    assert !AnyDue([], now);
  }

  /** After a first tap whose timer `x` is due by the last of four further taps, none of them
    * unlocks. */
  lemma SlowTail(s1: LockState, a: int, b: int, c: int, d: int, x: int)
    requires s1.count == 1 && x in s1.pending && x <= d
    ensures Tap(Tap(Tap(Tap(s1, a), b), c), d).unlocks == s1.unlocks
  {
    TapAfterFirst(s1, a, x, 1);
    var s2 := Tap(s1, a);
    TapAfterFirst(s2, b, x, 2);
    var s3 := Tap(s2, b);
    TapAfterFirst(s3, c, x, 3);
    var s4 := Tap(s3, c);
    LateTapNoUnlock(s4, d, x);
  }

  /** A tap that finds the counter at 3 or less, or finds a timer already due, does not unlock. */
  lemma LateTapNoUnlock(s: LockState, now: int, x: int)
    requires (x in s.pending && x <= now) || s.count <= 3
    ensures Tap(s, now).unlocks == s.unlocks
  {
    if x in s.pending && x <= now {
      var i :| 0 <= i < |s.pending| && s.pending[i] == x;
      assert AnyDue(s.pending, now);
    }
  }

  /** The lock as a mutable object: `handlePress` updates the counter in place and the timers
    * are queued in `pending`. */
  class Lock {
    var count: nat
    var unlocks: nat
    var pending: seq<int>

    function State(): LockState
      reads this
    {
      LockState(count, unlocks, pending)
    }

    constructor ()
      ensures State() == LockState(0, 0, [])
    {
      count, unlocks, pending := 0, 0, [];
    }

    /** `handlePress` at time `now`. */
    method HandlePress(now: int)
      modifies this
      ensures State() == Press(old(State()), now)
    {
      if count >= 4 {
        count := 0;
        unlocks := unlocks + 1;
      } else {
        count := count + 1;
        pending := pending + [now + RESET_AFTER_MS];
      }
    }

    /** The timers due by `now` fire; each one sets the counter to zero. */
    method TimersDue(now: int)
      modifies this
      ensures State() == FireDue(old(State()), now)
    {
      var rest: seq<int> := [];
      var fired := false;
      var i := 0;
      while i < |pending|
        invariant 0 <= i <= |pending|
        invariant rest == NotDue(pending[..i], now)
        invariant fired <==> AnyDue(pending[..i], now)
      {
        assert pending[..i + 1][..i] == pending[..i];
        if pending[i] > now {
          rest := rest + [pending[i]];
        } else {
          fired := true;
        }
        i := i + 1;
      }
      assert pending[..i] == pending;
      if fired {
        count := 0;
        pending := rest;
      }
    }
  }
}
