/** The combo reward and the sound throttles of the bubble scene (scenes/BubbleScene.js,
  * `registerPop`, `playManualPopSfx`, `playAutoPopSfx` and the landing sound of a shot). */
module BubbleCombo {
  import opened BubbleMath

  const COMBO_WINDOW_MS: int := 1200
  const COMBO_THRESHOLD: int := 3
  const BOOST_MULTIPLIER: real := 1.25
  const BOOST_DURATION_MS: int := 2500

  /** The combo counter and the time (ms) of the last pop. */
  datatype Streak = Streak(combo: int, lastPopAt: int)

  /** The streak after a pop, and whether the pop fired the reward. */
  datatype PopOutcome = PopOutcome(streak: Streak, fires: bool)

  /** `registerPop` at time `now`: a pop within the window of the last one extends the streak
    * and fires the reward when it reaches the threshold; a later pop starts a new streak. */
  function RegisterPop(s: Streak, now: int): (o: PopOutcome)
    ensures o.streak.lastPopAt == now
    ensures o.fires ==> o.streak.combo == COMBO_THRESHOLD
  {
    if now - s.lastPopAt <= COMBO_WINDOW_MS then
      var next := s.combo + 1;
      PopOutcome(Streak(next, now), s.combo < COMBO_THRESHOLD && next >= COMBO_THRESHOLD)
    else
      PopOutcome(Streak(1, now), false)
  }

  /** A sequence of pops at the given times: the final streak and how many rewards fired. */
  function PopAll(s: Streak, times: seq<int>): (r: (Streak, nat))
    decreases |times|
  {
    if times == [] then (s, 0)
    else
      var o := RegisterPop(s, times[0]);
      var rest := PopAll(o.streak, times[1..]);
      (rest.0, rest.1 + if o.fires then 1 else 0)
  }

  /** Every pop of `times` comes within the window of the one before it (the first one of `from`). */
  predicate Chained(from: int, times: seq<int>) {
    && (|times| > 0 ==> times[0] - from <= COMBO_WINDOW_MS)
    && forall i :: 0 < i < |times| ==> times[i] - times[i - 1] <= COMBO_WINDOW_MS
  }

  /** Pops that each come within the window extend the streak one by one, and the reward fires
    * exactly once, when the count crosses the threshold. */
  lemma {:induction false} ChainedPops(s: Streak, times: seq<int>)
    requires 0 <= s.combo
    requires Chained(s.lastPopAt, times)
    ensures PopAll(s, times).0.combo == s.combo + |times|
    ensures PopAll(s, times).1 == if s.combo < COMBO_THRESHOLD <= s.combo + |times| then 1 else 0
    decreases |times|
  {
    if times != [] {
      var o := RegisterPop(s, times[0]);
      assert times[0] - s.lastPopAt <= COMBO_WINDOW_MS;
      assert Chained(o.streak.lastPopAt, times[1..]) by {
        forall i | 0 < i < |times[1..]|
          ensures times[1..][i] - times[1..][i - 1] <= COMBO_WINDOW_MS
        {
          assert times[1..][i] == times[i + 1];
        }
        if |times| > 1 {
          assert times[1] - times[0] <= COMBO_WINDOW_MS;
        }
      }
      ChainedPops(o.streak, times[1..]);
    }
  }

  /** A streak that starts after a pause and keeps within the window fires the reward once
    * when it has at least COMBO_THRESHOLD pops, and never otherwise. */
  lemma StreakReward(s: Streak, times: seq<int>)
    requires 0 <= s.combo
    requires |times| > 0 && times[0] - s.lastPopAt > COMBO_WINDOW_MS
    requires Chained(times[0], times[1..])
    ensures PopAll(s, times).0.combo == |times|
    ensures PopAll(s, times).1 == if |times| >= COMBO_THRESHOLD then 1 else 0
  {
    ChainedPops(Streak(1, times[0]), times[1..]);
  }

  /** The three sound gates of the scene. */
  datatype SfxKind = ManualPop | AutoPop | ShotLanding

  /** Whether the sound plays and the new time of the last play. */
  datatype Throttle = Throttle(play: bool, lastAt: int)

  /** `playManualPopSfx`: play unless the last manual pop sound is 220 ms old or less. */
  function ManualPopSfx(lastAt: int, now: int): (t: Throttle)
    ensures t.play <==> lastAt + 220 < now
    ensures t.lastAt == if t.play then now else lastAt
  {
    if now - lastAt > 220 then Throttle(true, now) else Throttle(false, lastAt)
  }

  /** `playAutoPopSfx`: nothing within 800 ms of the last automatic pop sound, else a one in
    * four chance. */
  function AutoPopSfx(lastAt: int, now: int, u: Unit): (t: Throttle)
    ensures t.play <==> lastAt + 800 <= now && u < 0.25
    ensures t.lastAt == if t.play then now else lastAt
  {
    if now - lastAt < 800 then Throttle(false, lastAt)
    else if u < 0.25 then Throttle(true, now)
    else Throttle(false, lastAt)
  }

  /** Chance that a landing shot makes a sound. */
  const GUN_SFX_PROB: real := 0.15

  /** The landing sound of a shot: a GUN_SFX_PROB chance, and only more than 500 ms after the last one. */
  function ShotSfx(lastAt: int, now: int, u: Unit): (t: Throttle)
    ensures t.play <==> u < GUN_SFX_PROB && lastAt + 500 < now
    ensures t.lastAt == if t.play then now else lastAt
  {
    if u < GUN_SFX_PROB && now - lastAt > 500 then Throttle(true, now) else Throttle(false, lastAt)
  }

  function Gate(k: SfxKind, lastAt: int, now: int, u: Unit): Throttle {
    match k
    case ManualPop => ManualPopSfx(lastAt, now)
    case AutoPop => AutoPopSfx(lastAt, now, u)
    case ShotLanding => ShotSfx(lastAt, now, u)
  }

  /** The least spacing (ms) between two plays of one gate. */
  function MinGap(k: SfxKind): int {
    match k
    case ManualPop => 221
    case AutoPop => 800
    case ShotLanding => 501
  }

  /** One gate: a sound plays only at least MinGap after the last one, and the recorded time
    * moves to `now` exactly when it plays. */
  lemma GateSpacing(k: SfxKind, lastAt: int, now: int, u: Unit)
    ensures Gate(k, lastAt, now, u).play ==> now - lastAt >= MinGap(k)
    ensures Gate(k, lastAt, now, u).lastAt == if Gate(k, lastAt, now, u).play then now else lastAt
  {
  }

  /** One call of a gate: its time and its random draw. */
  datatype Call = Call(at: int, u: Unit)

  /** The times at which the sound plays over a sequence of calls. */
  function Plays(k: SfxKind, lastAt: int, calls: seq<Call>): (ts: seq<int>)
    ensures |ts| <= |calls|
    decreases |calls|
  {
    if calls == [] then []
    else
      var t := Gate(k, lastAt, calls[0].at, calls[0].u);
      (if t.play then [calls[0].at] else []) + Plays(k, t.lastAt, calls[1..])
  }

  /** Successive plays (the first one against `from`) are at least `gap` apart. */
  predicate Spaced(from: int, ts: seq<int>, gap: int) {
    && (|ts| > 0 ==> ts[0] - from >= gap)
    && forall i :: 0 < i < |ts| ==> ts[i] - ts[i - 1] >= gap
  }

  /** However the calls come, a gate never plays its sound twice within its least spacing. */
  lemma {:induction false} PlaysSpaced(k: SfxKind, lastAt: int, calls: seq<Call>)
    ensures Spaced(lastAt, Plays(k, lastAt, calls), MinGap(k))
    decreases |calls|
  {
    if calls != [] {
      var t := Gate(k, lastAt, calls[0].at, calls[0].u);
      GateSpacing(k, lastAt, calls[0].at, calls[0].u);
      var rest := Plays(k, t.lastAt, calls[1..]);
      PlaysSpaced(k, t.lastAt, calls[1..]);
      var ts := Plays(k, lastAt, calls);
      if t.play {
        assert ts == [calls[0].at] + rest;
        forall i | 0 < i < |ts|
          ensures ts[i] - ts[i - 1] >= MinGap(k)
        {
          if i == 1 {
            assert ts[i] == rest[0] && ts[0] == t.lastAt;
          } else if i > 1 {
            assert ts[i] == rest[i - 1] && ts[i - 1] == rest[i - 2];
          }
        }
      } else {
        assert ts == rest;
      }
    }
  }
}
