/** The bubble gun of the bubble scene: while a long press is held, shots are emitted from the
  * finger at a fixed cadence, fly a short arc upwards and fade (scenes/BubbleScene.js,
  * `spawnShot`, `rafLoop`, `startGun`, `moveGun`, `stopGun`). */
module BubbleGun {
  import opened Wrappers
  import opened BubbleMath
  import opened BubbleSteering
  import opened BubbleCombo
  import opened BubbleLifecycle

  const EMIT_EVERY_MS: int := 80
  const MAX_ACTIVE_SHOTS: nat := 28
  const SHOT_STICKER_PROB: real := 0.06
  const SHOT_SPREAD: real := PI / 6.0

  /** A shot on its way: its diameter, start and end of its flight (top-left corner), flight
    * time in ms, tint and sticker. */
  datatype Shot = Shot(
    id: nat,
    size: real,
    fromX: real, fromY: real,
    toX: real, toY: real,
    duration: int,
    tint: string,
    sticker: Option<nat>)

  /** The random draws of one shot. `id` stands for the random text id of the source. */
  datatype ShotDraws = ShotDraws(
    id: nat, size: Unit, tint: Unit, sticker: Unit, stickerPick: Unit,
    heading: Unit, dist: Unit, duration: Unit)

  /** `spawnShot(x, y)`: a shot centred on (x, y) that flies 90 to 170 px within 30 degrees of
    * straight up, its landing spot kept on screen. */
  function MakeShot(x: real, y: real, d: ShotDraws, view: Viewport, trig: Trig): (s: Shot)
    ensures 36.0 <= s.size < 58.0
    ensures s.fromX + s.size / 2.0 == x && s.fromY + s.size / 2.0 == y
    ensures 0.0 <= s.toX <= Room(view.width, s.size) && 0.0 <= s.toY <= Room(view.height, s.size)
    ensures 850 <= s.duration <= 1400
    ensures s.tint in TINTS
    ensures s.sticker.Some? <==> d.sticker < SHOT_STICKER_PROB
    ensures s.sticker.Some? ==> s.sticker.value < STICKER_COUNT
    ensures s.id == d.id
  {
    var size := Rand(d.size, 36.0, 58.0);
    var heading := UP_BIAS + Rand(d.heading, -SHOT_SPREAD, SHOT_SPREAD);
    var dist := Rand(d.dist, 90.0, 170.0);
    Shot(d.id, size,
         x - size / 2.0, y - size / 2.0,
         Clamp(x + trig.cos(heading) * dist - size / 2.0, 0.0, Room(view.width, size)),
         Clamp(y + trig.sin(heading) * dist - size / 2.0, 0.0, Room(view.height, size)),
         RInt(d.duration, 850, 1400),
         TINTS[RInt(d.tint, 0, |TINTS| - 1)],
         if d.sticker < SHOT_STICKER_PROB then Some(RInt(d.stickerPick, 0, STICKER_COUNT - 1)) else None)
  }

  /** The deferred insertion: append, then drop the oldest shots beyond MAX_ACTIVE_SHOTS. */
  function AppendCapped(prev: seq<Shot>, s: Shot): (next: seq<Shot>)
    ensures |next| == if |prev| < MAX_ACTIVE_SHOTS then |prev| + 1 else MAX_ACTIVE_SHOTS
    ensures next[|next| - 1] == s
    ensures |prev| < MAX_ACTIVE_SHOTS ==> next == prev + [s]
  {
    var n := prev + [s];
    if |n| > MAX_ACTIVE_SHOTS then n[|n| - MAX_ACTIVE_SHOTS..] else n
  }

  /** The newest `MAX_ACTIVE_SHOTS` entries of `all`. */
  function Newest(all: seq<Shot>): (r: seq<Shot>)
    ensures |r| <= MAX_ACTIVE_SHOTS
  {
    if |all| > MAX_ACTIVE_SHOTS then all[|all| - MAX_ACTIVE_SHOTS..] else all
  }

  /** Insertions one after another. */
  function AppendAll(prev: seq<Shot>, ss: seq<Shot>): seq<Shot>
    decreases |ss|
  {
    if ss == [] then prev else AppendAll(AppendCapped(prev, ss[0]), ss[1..])
  }

  /** Whatever the insertions, the list holds exactly the newest shots, at most
    * MAX_ACTIVE_SHOTS of them, oldest first. */
  lemma {:induction false} AppendAllKeepsNewest(prev: seq<Shot>, ss: seq<Shot>)
    requires |prev| <= MAX_ACTIVE_SHOTS
    ensures AppendAll(prev, ss) == Newest(prev + ss)
    decreases |ss|
  {
    if ss != [] {
      var next := AppendCapped(prev, ss[0]);
      AppendAllKeepsNewest(next, ss[1..]);
      NewestStep(prev, ss[0], ss[1..]);
      assert prev + ss == (prev + [ss[0]]) + ss[1..];
    }
  }

  lemma NewestStep(prev: seq<Shot>, s: Shot, rest: seq<Shot>)
    requires |prev| <= MAX_ACTIVE_SHOTS
    ensures Newest(AppendCapped(prev, s) + rest) == Newest(prev + [s] + rest)
  {
    if |prev| == MAX_ACTIVE_SHOTS {
      var n := prev + [s];
      DropOldest(n, rest);
    }
  }

  /** Dropping the oldest entry first does not change which are the newest. */
  lemma DropOldest<T>(n: seq<T>, rest: seq<T>)
    requires |n| == MAX_ACTIVE_SHOTS + 1
    ensures var a := n[1..] + rest; var b := n + rest;
            a[|a| - MAX_ACTIVE_SHOTS..] == b[|b| - MAX_ACTIVE_SHOTS..]
  {
    var a := n[1..] + rest;
    var b := n + rest;
    assert a == b[1..];
  }

  /** The deferred removal: every shot but the one with `id`, order kept. */
  function WithoutShot(prev: seq<Shot>, id: nat): (r: seq<Shot>)
    ensures |r| <= |prev|
    ensures forall s :: s in r <==> s in prev && s.id != id
    ensures (forall s :: s in prev ==> s.id != id) ==> r == prev
    decreases |prev|
  {
    if prev == [] then []
    else if prev[0].id == id then WithoutShot(prev[1..], id)
    else [prev[0]] + WithoutShot(prev[1..], id)
  }

  /** The removal is a filter: it works on each part of the list separately and keeps the
    * survivors in their order. With the one-shot case (a shot stays exactly when its id
    * differs), this pins down the whole result. */
  lemma {:induction false} WithoutShotKeepsOrder(a: seq<Shot>, b: seq<Shot>, id: nat)
    ensures WithoutShot(a + b, id) == WithoutShot(a, id) + WithoutShot(b, id)
    decreases |a|
  {
    if a != [] {
      assert (a + b)[1..] == a[1..] + b;
      WithoutShotKeepsOrder(a[1..], b, id);
    } else {
      assert a + b == b;
    }
  }

  /** The speed (px/ms) above which a frame fires a second, jittered shot. */
  const FAST_FINGER: real := 1.2

  /** Whether an armed frame at `now` fires: a shot is forced, or the cadence has elapsed. */
  function Due(force: bool, lastEmitAt: int, now: int): (fire: bool)
    ensures force ==> fire
    ensures !force ==> (fire <==> lastEmitAt + EMIT_EVERY_MS <= now)
  {
    force || now - lastEmitAt >= EMIT_EVERY_MS
  }

  /** The shots one firing frame emits from the finger at (x, y): one, and a second one up to
    * 10 px away (kept on screen) when the finger moves fast. */
  function Volley(x: real, y: real, speed: real, first: ShotDraws, jitterX: Unit, jitterY: Unit, second: ShotDraws,
                  view: Viewport, trig: Trig): (v: seq<Shot>)
    requires 0.0 <= view.width && 0.0 <= view.height
    ensures |v| == if speed > FAST_FINGER then 2 else 1
    ensures v[0] == MakeShot(x, y, first, view, trig)
    ensures |v| == 2 ==>
      var cx := v[1].fromX + v[1].size / 2.0;
      var cy := v[1].fromY + v[1].size / 2.0;
      && 0.0 <= cx <= view.width && 0.0 <= cy <= view.height
      && (0.0 <= x <= view.width ==> -10.0 <= cx - x <= 10.0)
      && (0.0 <= y <= view.height ==> -10.0 <= cy - y <= 10.0)
  {
    var one := MakeShot(x, y, first, view, trig);
    if speed > FAST_FINGER then
      [one, MakeShot(Clamp(x + Rand(jitterX, -10.0, 10.0), 0.0, view.width),
                     Clamp(y + Rand(jitterY, -10.0, 10.0), 0.0, view.height), second, view, trig)]
    else [one]
  }

  /** The firing times of a held gun over the frames at `times`, from the last emission
    * `lastEmitAt` and the force flag. */
  function Firings(force: bool, lastEmitAt: int, times: seq<int>): (fs: seq<int>)
    ensures |fs| <= |times|
    decreases |times|
  {
    if times == [] then []
    else if Due(force, lastEmitAt, times[0]) then [times[0]] + Firings(false, times[0], times[1..])
    else Firings(force, lastEmitAt, times[1..])
  }

  /** After the forced first shot, a held gun fires at most once per EMIT_EVERY_MS: successive
    * firings are at least the cadence apart, and the first one (if not forced) is too. */
  lemma {:induction false} FiringsCadence(force: bool, lastEmitAt: int, times: seq<int>)
    ensures var fs := Firings(force, lastEmitAt, times);
            && (!force && |fs| > 0 ==> fs[0] - lastEmitAt >= EMIT_EVERY_MS)
            && forall i :: 0 < i < |fs| ==> fs[i] - fs[i - 1] >= EMIT_EVERY_MS
    decreases |times|
  {
    if times != [] {
      var fs := Firings(force, lastEmitAt, times);
      if Due(force, lastEmitAt, times[0]) {
        var rest := Firings(false, times[0], times[1..]);
        FiringsCadence(false, times[0], times[1..]);
        assert fs == [times[0]] + rest;
        forall i | 0 < i < |fs|
          ensures fs[i] - fs[i - 1] >= EMIT_EVERY_MS
        {
          if i == 1 {
            assert fs[1] == rest[0] && fs[0] == times[0];
          } else {
            assert fs[i] == rest[i - 1] && fs[i - 1] == rest[i - 2];
          }
        }
      } else {
        FiringsCadence(force, lastEmitAt, times[1..]);
      }
    }
  }

  /** The gun's refs and the shot list. */
  class Gun {
    const view: Viewport
    const trig: Trig
    var active: bool
    var fingerX: real
    var fingerY: real
    var lastEmitAt: int
    var forceImmediate: bool
    var speed: real
    /** Whether an animation frame is pending (`rafRef`). */
    var framePending: bool
    /** Time of the previous move (`moveGun._lastT`). `moveGun` is a new function on every
      * render, so this is 0 before the first move after each render. */
    var lastMoveAt: int
    var lastShotSfxAt: int
    /** Shots whose insertion waits for the next animation frame. */
    var pending: seq<Shot>
    var shots: seq<Shot>
    /** Calls of `playPopSound` made by landing shots. */
    var sounds: nat

    ghost predicate Valid()
      reads this
    {
      0.0 <= view.width && 0.0 <= view.height && |shots| <= MAX_ACTIVE_SHOTS && (active ==> framePending)
    }

    /** The gun at mount: inactive, aiming at the centre, no shot. */
    constructor (view: Viewport, trig: Trig)
      requires 0.0 <= view.width && 0.0 <= view.height
      ensures Valid()
      ensures this.view == view && this.trig == trig
      ensures !active && !forceImmediate && !framePending
      ensures fingerX == view.width / 2.0 && fingerY == view.height / 2.0
      ensures lastEmitAt == 0 && lastMoveAt == 0 && lastShotSfxAt == 0 && speed == 0.0
      ensures shots == [] && pending == [] && sounds == 0
    {
      this.view := view;
      this.trig := trig;
      active := false;
      fingerX, fingerY := view.width / 2.0, view.height / 2.0;
      lastEmitAt := 0;
      forceImmediate := false;
      speed := 0.0;
      framePending := false;
      lastMoveAt := 0;
      lastShotSfxAt := 0;
      pending := [];
      shots := [];
      sounds := 0;
    }

    /** `startGun(x, y)`: arm, aim, and ask for an immediate shot on a fresh frame. */
    method StartGun(x: real, y: real)
      requires Valid()
      modifies this`active, this`fingerX, this`fingerY, this`lastEmitAt, this`forceImmediate, this`framePending
      ensures Valid()
      ensures active && forceImmediate && framePending
      ensures fingerX == x && fingerY == y && lastEmitAt == 0
    {
      active := true;
      fingerX := x;
      fingerY := y;
      lastEmitAt := 0;
      forceImmediate := true;
      framePending := true;
    }

    /** `moveGun(x, y)` at time `now`: the finger's speed in px/ms since the last move (at least
      * one ms apart), and the new aim. */
    method MoveGun(x: real, y: real, now: int)
      requires Valid()
      modifies this`speed, this`lastMoveAt, this`fingerX, this`fingerY
      ensures Valid()
      ensures var dt := if now - old(lastMoveAt) < 1 then 1 else now - old(lastMoveAt);
              speed == trig.hypot(x - old(fingerX), y - old(fingerY)) / dt as real
      ensures lastMoveAt == now && fingerX == x && fingerY == y
    {
      var dt := if now - lastMoveAt < 1 then 1 else now - lastMoveAt;
      speed := trig.hypot(x - fingerX, y - fingerY) / dt as real;
      lastMoveAt := now;
      fingerX := x;
      fingerY := y;
    }

    /** `stopGun`: disarm, forget the speed, cancel the pending frame. */
    method StopGun()
      requires Valid()
      modifies this`active, this`speed, this`framePending
      ensures Valid()
      ensures !active && speed == 0.0 && !framePending
    {
      active := false;
      speed := 0.0;
      framePending := false;
    }

    /** `rafLoop` at time `now`: a disarmed gun lets the frame lapse; an armed one fires a
    * volley when due and asks for the next frame. The volley joins `pending`, to be inserted
    * on a later frame. */
    method RafLoop(now: int, first: ShotDraws, jitterX: Unit, jitterY: Unit, second: ShotDraws)
      requires Valid()
      modifies this`lastEmitAt, this`forceImmediate, this`pending, this`framePending
      ensures Valid()
      ensures framePending == active
      ensures var fire := active && Due(old(forceImmediate), old(lastEmitAt), now);
              && (fire ==> lastEmitAt == now && !forceImmediate
                           && pending == old(pending) + Volley(fingerX, fingerY, speed, first, jitterX, jitterY, second, view, trig))
              && (!fire ==> lastEmitAt == old(lastEmitAt) && forceImmediate == old(forceImmediate) && pending == old(pending))
    {
      if !active {
        framePending := false;
        return;
      }
      if forceImmediate || now - lastEmitAt >= EMIT_EVERY_MS {
        Fire(now, first, jitterX, jitterY, second);
      }
      framePending := true;
    }

    /** The firing half of `rafLoop`: record the emission and spawn the volley. */
    method Fire(now: int, first: ShotDraws, jitterX: Unit, jitterY: Unit, second: ShotDraws)
      requires Valid()
      modifies this`lastEmitAt, this`forceImmediate, this`pending
      ensures Valid()
      ensures lastEmitAt == now && !forceImmediate
      ensures pending == old(pending) + Volley(fingerX, fingerY, speed, first, jitterX, jitterY, second, view, trig)
    {
      lastEmitAt := now;
      forceImmediate := false;
      pending := pending + Volley(fingerX, fingerY, speed, first, jitterX, jitterY, second, view, trig);
    }

    /** The deferred insertion of the oldest pending shot. */
    method InsertPending()
      requires Valid() && pending != []
      modifies this`pending, this`shots, this`lastMoveAt
      ensures Valid()
      ensures shots == AppendCapped(old(shots), old(pending)[0]) && pending == old(pending)[1..]
      ensures lastMoveAt == 0
    {
      shots := AppendCapped(shots, pending[0]);
      pending := pending[1..];
      Rerendered();
    }

    /** A shot reaches its landing spot: its landing sound goes through the shot gate. */
    method ShotLanded(now: int, u: Unit)
      requires Valid()
      modifies this`lastShotSfxAt, this`sounds
      ensures Valid()
      ensures var t := ShotSfx(old(lastShotSfxAt), now, u);
              lastShotSfxAt == t.lastAt && sounds == old(sounds) + (if t.play then 1 else 0)
    {
      var t := ShotSfx(lastShotSfxAt, now, u);
      if t.play {
        lastShotSfxAt := now;
        sounds := sounds + 1;
      }
    }

    /** The deferred removal of a shot that has faded. */
    method RemoveShot(id: nat)
      requires Valid()
      modifies this`shots, this`lastMoveAt
      ensures Valid()
      ensures shots == WithoutShot(old(shots), id)
      ensures lastMoveAt == 0
    {
      shots := WithoutShot(shots, id);
      Rerendered();
    }

    /** The scene renders again (a new shot list, a combo change, the sky colour): the pan
      * gesture gets a fresh `moveGun`, whose `_lastT` is unset, and nothing else changes. */
    method Rerendered()
      modifies this`lastMoveAt
      ensures lastMoveAt == 0
    {
      lastMoveAt := 0;
    }
  }
}
