/** One drifting bubble of the bubble scene and its life cycle: created with random looks and
  * motion, placed, sent on legs, given a time to live, popped and respawned
  * (scenes/BubbleScene.js, the bubble records of `useMemo` and the helpers of the mount effect). */
module BubbleLifecycle {
  import opened Wrappers
  import opened BubbleMath
  import opened BubbleSteering
  import opened BubblePlacement

  const SPEED_MIN_BASE: real := 26.0
  const SPEED_MAX_BASE: real := 48.0
  const LEG_MIN_BASE: real := 40.0
  const LEG_MAX_BASE: real := 120.0
  const MAX_TURN_BASE: real := PI / 10.0

  /** Half-width of the spread of a fresh heading around straight up. */
  const HEADING_SPREAD: real := PI / 14.0

  /** The window the scene fills. */
  datatype Viewport = Viewport(width: real, height: real)

  /** A leg in flight: the waypoint and the duration in ms. */
  datatype Leg = Leg(toX: real, toY: real, duration: real)

  /** A `setTimeout` handle: none pending, or armed with its delay in ms. */
  datatype Timer = Cleared | Armed(delay: int)

  /** The random draws one leg consumes: the random turn and the leg length. */
  datatype LegDraws = LegDraws(turn: Unit, leg: Unit)

  /** The random draws of a bubble's looks: diameter, heading, tint, sticker coin and sticker choice. */
  datatype LookDraws = LookDraws(size: Unit, heading: Unit, tint: Unit, sticker: Unit, stickerPick: Unit)

  /** The random draws of `placeAndRun`: the spawn candidates, the time to live and the first leg. */
  datatype SpawnDraws = SpawnDraws(candidates: nat -> (Unit, Unit), ttl: Unit, firstLeg: LegDraws)

  /** Diameter, heading, tint and sticker (an index into the six animal stickers). */
  datatype Look = Look(size: real, heading: real, tint: string, sticker: Option<nat>)

  /** The looks drawn at creation and again at every respawn. */
  function DrawLook(t: SizeClass, d: LookDraws): (l: Look)
    ensures Spec(t).sizeMin <= l.size < Spec(t).sizeMax
    ensures UP_BIAS - HEADING_SPREAD <= l.heading < UP_BIAS + HEADING_SPREAD
    ensures -PI < l.heading <= PI
    ensures l.tint in TINTS
    ensures l.sticker.Some? <==> d.sticker < STICKER_PROB
    ensures l.sticker.Some? ==> l.sticker.value < STICKER_COUNT
  {
    var s := Spec(t);
    Look(Rand(d.size, s.sizeMin, s.sizeMax),
         UP_BIAS + Rand(d.heading, -HEADING_SPREAD, HEADING_SPREAD),
         TINTS[RInt(d.tint, 0, |TINTS| - 1)],
         if d.sticker < STICKER_PROB then Some(RInt(d.stickerPick, 0, STICKER_COUNT - 1)) else None)
  }

  /** Speed (px/s), largest random turn, leg length range (px) and upward-bias gain. */
  datatype Motion = Motion(speed: real, maxTurn: real, legMin: real, legMax: real, biasGain: real)

  /** How far the diameter sits below the top of its class: near 1 for the smallest, near 0 for the largest. */
  function SizeRatio(t: SizeClass, size: real): (r: real)
    requires Spec(t).sizeMin <= size < Spec(t).sizeMax
    ensures 0.0 < r < 1.0
  {
    var s := Spec(t);
    (s.sizeMax - size) / (s.sizeMax - s.sizeMin + 0.0001)
  }

  /** The motion a bubble draws at creation, scaled by its diameter for a feeling of depth. */
  function MotionFor(t: SizeClass, size: real, speedDraw: Unit): (m: Motion)
    requires Spec(t).sizeMin <= size < Spec(t).sizeMax
    ensures SPEED_MIN_BASE * 0.85 <= m.speed <= SPEED_MAX_BASE * 1.3
    ensures MAX_TURN_BASE * 0.9 <= m.maxTurn <= MAX_TURN_BASE * 1.8
    ensures 0.0 < m.legMin && m.legMax == 3.0 * m.legMin
    ensures 0.05 <= m.biasGain <= 0.07
  {
    ScaledMotion(SizeRatio(t, size), speedDraw)
  }

  /** The motion of a bubble whose size ratio is `r`. */
  function ScaledMotion(r: real, speedDraw: Unit): (m: Motion)
    requires 0.0 < r < 1.0
    ensures SPEED_MIN_BASE * 0.85 <= m.speed <= SPEED_MAX_BASE * 1.3
    ensures MAX_TURN_BASE * 0.9 <= m.maxTurn <= MAX_TURN_BASE * 1.8
    ensures 0.0 < m.legMin && m.legMax == 3.0 * m.legMin
    ensures 0.05 <= m.biasGain <= 0.07
  {
    var base := Rand(speedDraw, SPEED_MIN_BASE, SPEED_MAX_BASE);
    var factor := 0.85 + r * 0.45;
    MulBounds(base, factor, SPEED_MIN_BASE, SPEED_MAX_BASE, 0.85, 1.3);
    var legFactor := 1.1 - 0.4 * r;
    Motion(base * factor,
           MAX_TURN_BASE * (0.9 + 0.9 * r),
           LEG_MIN_BASE * legFactor,
           LEG_MAX_BASE * legFactor,
           0.05 + (1.0 - r) * 0.02)
  }

  lemma MulBounds(a: real, b: real, aLo: real, aHi: real, bLo: real, bHi: real)
    requires 0.0 <= aLo <= a <= aHi && 0.0 <= bLo <= b <= bHi
    ensures aLo * bLo <= a * b <= aHi * bHi
  {
    assert aLo * bLo <= a * bLo <= a * b;
    assert a * b <= aHi * b <= aHi * bHi;
  }

  lemma MulMonotone(a: real, b: real, c: real)
    requires 0.0 <= a && b <= c
    ensures a * b <= a * c
  {
    assert a * c - a * b == a * (c - b);
  }

  /** A larger diameter sits lower in its class. */
  lemma SizeRatioAntitone(t: SizeClass, s1: real, s2: real)
    requires Spec(t).sizeMin <= s1 <= s2 < Spec(t).sizeMax
    ensures SizeRatio(t, s2) <= SizeRatio(t, s1)
  {
    var s := Spec(t);
    var den := s.sizeMax - s.sizeMin + 0.0001;
    var r1, r2 := SizeRatio(t, s1), SizeRatio(t, s2);
    assert (r1 - r2) * den == s2 - s1;
  }

  /** A higher size ratio (a smaller bubble) means a speed, a turn and a bias gain that are
    * respectively no lower, no lower and no higher. */
  lemma ScaledMotionMonotone(r1: real, r2: real, u: Unit)
    requires 0.0 < r2 <= r1 < 1.0
    ensures ScaledMotion(r2, u).speed <= ScaledMotion(r1, u).speed
    ensures ScaledMotion(r2, u).maxTurn <= ScaledMotion(r1, u).maxTurn
    ensures ScaledMotion(r1, u).biasGain <= ScaledMotion(r2, u).biasGain
  {
    var base := Rand(u, SPEED_MIN_BASE, SPEED_MAX_BASE);
    MulMonotone(base, 0.85 + r2 * 0.45, 0.85 + r1 * 0.45);
  }

  /** Within a size class and for the same draw, a smaller bubble is at least as fast, turns at
    * least as sharply and leans up no harder than a larger one. */
  lemma SmallerIsNimbler(t: SizeClass, s1: real, s2: real, u: Unit)
    requires Spec(t).sizeMin <= s1 <= s2 < Spec(t).sizeMax
    ensures MotionFor(t, s2, u).speed <= MotionFor(t, s1, u).speed
    ensures MotionFor(t, s2, u).maxTurn <= MotionFor(t, s1, u).maxTurn
    ensures MotionFor(t, s1, u).biasGain <= MotionFor(t, s2, u).biasGain
  {
    SizeRatioAntitone(t, s1, s2);
    ScaledMotionMonotone(SizeRatio(t, s1), SizeRatio(t, s2), u);
  }

  /** `touchPadding`: a larger hit slop for larger bubbles. */
  function TouchPadding(size: real): (p: real)
    ensures p == 20.0 || p == 28.0 || p == 36.0
    ensures forall t :: Spec(t).sizeMin <= size < Spec(t).sizeMax ==> p == 20.0 + 8.0 * Rank(t) as real
  {
    if size >= 112.0 then 36.0 else if size >= 86.0 then 28.0 else 20.0
  }

  /** A larger bubble never gets a smaller hit slop. */
  lemma TouchPaddingMonotone(a: real, b: real)
    requires a <= b
    ensures TouchPadding(a) <= TouchPadding(b)
  {
  }

  /** `parallax`: the tilt factor, from 0.35 for the smallest diameter up to about 1.2. */
  function Parallax(size: real): (p: real)
    requires Spec(Small).sizeMin <= size < Spec(Large).sizeMax
    ensures 0.35 <= p < 1.2
  {
    0.35 + ((size - Spec(Small).sizeMin) / (Spec(Large).sizeMax - Spec(Small).sizeMin)) * 0.85
  }

  /** `all` with the entry of the bubble at `skip` replaced by its current state. */
  function WithSelf(all: seq<Body>, skip: int, me: Body): (r: seq<Body>)
    ensures |r| == |all|
    ensures forall i :: 0 <= i < |all| && i != skip ==> r[i] == all[i]
    ensures 0 <= skip < |all| ==> r[skip] == me
  {
    if 0 <= skip < |all| then all[skip := me] else all
  }

  /** The outcome of `nextLeg`: the new heading and the leg started along it. */
  datatype Plan = Plan(heading: real, leg: Leg)

  /** What `nextLeg` does for bubble `me`: a new heading (random turn, upward bias, wall nudge
    * and separation), then a leg of random length along it, its waypoint kept on screen and its
    * duration following the boosted speed. */
  function PlanLeg(me: Body, m: Motion, all: seq<Body>, skip: int, d: LegDraws, boost: real, view: Viewport, trig: Trig): (p: Plan)
    requires 0.0 < m.legMin <= m.legMax && 0.0 <= m.maxTurn
    ensures -PI < p.heading <= PI
    ensures exists k: int :: p.heading == me.heading + Rand(d.turn, -m.maxTurn, m.maxTurn)
              + UpwardBias(me.heading, m.biasGain) + SoftWallSteer(me.x, me.y, view.width, view.height)
              + Separation(me, all, skip, trig) + Turns(k)
    ensures 0.0 <= p.leg.toX <= Room(view.width, me.size) && 0.0 <= p.leg.toY <= Room(view.height, me.size)
    ensures LEG_DURATION_MIN <= p.leg.duration <= LEG_DURATION_MAX
  {
    var h := NextHeading(me.heading, Rand(d.turn, -m.maxTurn, m.maxTurn), UpwardBias(me.heading, m.biasGain),
                         SoftWallSteer(me.x, me.y, view.width, view.height), Separation(me, all, skip, trig));
    var leg := Rand(d.leg, m.legMin, m.legMax);
    Plan(h, Leg(LegTarget(me.x, trig.cos(h), leg, view.width, me.size),
                LegTarget(me.y, trig.sin(h), leg, view.height, me.size),
                LegDuration(leg, m.speed, boost)))
  }

  /** The steering half of `nextLeg`: the old heading turned by a random turn, the upward
    * bias, the wall nudge and the separation field. */
  method SteerHeading(me: Body, m: Motion, all: seq<Body>, skip: int, turn: Unit, view: Viewport, trig: Trig)
    returns (h: real)
    ensures h == NextHeading(me.heading, Rand(turn, -m.maxTurn, m.maxTurn), UpwardBias(me.heading, m.biasGain),
                             SoftWallSteer(me.x, me.y, view.width, view.height), Separation(me, all, skip, trig))
  {
    var randTurn := Rand(turn, -m.maxTurn, m.maxTurn);
    var up := WrapAngle(UP_BIAS - me.heading);
    var bias := up * m.biasGain;
    assert bias == UpwardBias(me.heading, m.biasGain);
    var wall := SoftWallSteer(me.x, me.y, view.width, view.height);
    var sep := SeparationDelta(me, all, skip, trig);
    h := WrapAngle(me.heading + randTurn + bias + wall + sep);
    assert h == NextHeading(me.heading, randTurn, bias, wall, sep);
  }

  /** The computation of `nextLeg`: the new heading, then the waypoint and the duration of a
    * leg of random length along it. */
  method ComputeLeg(me: Body, m: Motion, all: seq<Body>, skip: int, d: LegDraws, boost: real, view: Viewport, trig: Trig)
    returns (p: Plan)
    requires 0.0 < m.legMin <= m.legMax && 0.0 <= m.maxTurn
    ensures p == PlanLeg(me, m, all, skip, d, boost, view, trig)
  {
    var turned := SteerHeading(me, m, all, skip, d.turn, view, trig);
    var leg := Rand(d.leg, m.legMin, m.legMax);
    var nx := LegTarget(me.x, trig.cos(turned), leg, view.width, me.size);
    var ny := LegTarget(me.y, trig.sin(turned), leg, view.height, me.size);
    p := Plan(turned, Leg(nx, ny, LegDuration(leg, m.speed, boost)));
  }

  class Bubble {
    const id: nat
    const typeKey: SizeClass
    /** Drawn once, from the diameter at creation; respawns keep it. */
    const motion: Motion
    const touchPadding: real
    const parallax: real

    var size: real
    var currX: real
    var currY: real
    var heading: real
    var tint: string
    var sticker: Option<nat>
    var scale: real
    var opacity: real
    var ringScale: real
    var ringOpacity: real
    /** The leg in flight, if any. */
    var anim: Option<Leg>
    var stopped: bool
    var ttlTimer: Timer

    ghost predicate Valid()
      reads this
    {
      var s := Spec(typeKey);
      && s.sizeMin <= size < s.sizeMax
      && 0.0 < motion.speed && 0.0 <= motion.maxTurn
      && 0.0 < motion.legMin <= motion.legMax && 0.0 <= motion.biasGain
      && -PI < heading <= PI
      && (stopped ==> anim == None)
      && (anim.Some? ==> LEG_DURATION_MIN <= anim.value.duration <= LEG_DURATION_MAX)
      && (ttlTimer.Armed? ==> s.ttlMin <= ttlTimer.delay <= s.ttlMax)
    }

    /** What the steering of the other bubbles reads of this one. */
    function Snapshot(): Body
      reads this
    {
      Body(currX, currY, size, heading)
    }

    /** A new bubble record: a weighted size class, looks and motion from the draws, parked at
      * the origin, running no leg and no timer. */
    constructor (id: nat, typeDraw: Unit, look: LookDraws, speedDraw: Unit)
      ensures Valid()
      ensures this.id == id && typeKey == PickTypeWeighted(typeDraw)
      ensures Look(size, heading, tint, sticker) == DrawLook(typeKey, look)
      ensures motion == MotionFor(typeKey, size, speedDraw)
      ensures touchPadding == TouchPadding(size) && parallax == Parallax(size)
      ensures currX == 0.0 && currY == 0.0
      ensures scale == 1.0 && opacity == 1.0 && ringScale == 0.8 && ringOpacity == 0.0
      ensures anim == None && !stopped && ttlTimer == Cleared
    {
      this.id := id;
      var t := PickTypeWeighted(typeDraw);
      var l := DrawLook(t, look);
      typeKey := t;
      size := l.size;
      heading := l.heading;
      tint := l.tint;
      sticker := l.sticker;
      motion := MotionFor(t, l.size, speedDraw);
      touchPadding := TouchPadding(l.size);
      parallax := Parallax(l.size);
      currX, currY := 0.0, 0.0;
      scale, opacity, ringScale, ringOpacity := 1.0, 1.0, 0.8, 0.0;
      anim := None;
      stopped := false;
      ttlTimer := Cleared;
    }

    /** `nextLeg`: unless stopped, turn and start the leg `PlanLeg` describes. */
    method NextLeg(all: seq<Body>, skip: int, d: LegDraws, boost: real, view: Viewport, trig: Trig)
      requires Valid()
      modifies this`heading, this`anim
      ensures Valid()
      ensures stopped ==> heading == old(heading) && anim == old(anim)
      ensures !stopped ==>
        && anim.Some?
        && Plan(heading, anim.value) == PlanLeg(Body(currX, currY, size, old(heading)), motion, all, skip, d, boost, view, trig)
    {
      if stopped {
        return;
      }
      var p := ComputeLeg(Body(currX, currY, size, heading), motion, all, skip, d, boost, view, trig);
      StartLeg(p.heading, p.leg);
    }

    /** Take the new heading and set the leg's animation running. */
    method StartLeg(h: real, leg: Leg)
      requires Valid() && !stopped
      requires -PI < h <= PI && LEG_DURATION_MIN <= leg.duration <= LEG_DURATION_MAX
      modifies this`heading, this`anim
      ensures Valid()
      ensures heading == h && anim == Some(leg)
    {
      heading := h;
      anim := Some(leg);
    }

    /** The completion callback of a leg that ran to its end: commit the waypoint as the
      * bubble's position and chain the next leg. */
    method LegFinished(all: seq<Body>, skip: int, d: LegDraws, boost: real, view: Viewport, trig: Trig)
      requires Valid() && anim.Some?
      modifies this`currX, this`currY, this`heading, this`anim
      ensures Valid()
      ensures currX == old(anim).value.toX && currY == old(anim).value.toY
      ensures anim.Some?
        && Plan(heading, anim.value) == PlanLeg(Body(currX, currY, size, old(heading)), motion, all, skip, d, boost, view, trig)
    {
      currX, currY := anim.value.toX, anim.value.toY;
      NextLeg(all, skip, d, boost, view, trig);
    }

    /** `scheduleTTL`: replace any pending time-to-live timer by one drawn from the class's range. */
    method ScheduleTTL(u: Unit)
      requires Valid()
      modifies this`ttlTimer
      ensures Valid()
      ensures ttlTimer == Armed(RInt(u, Spec(typeKey).ttlMin, Spec(typeKey).ttlMax))
      ensures Spec(typeKey).ttlMin <= ttlTimer.delay <= Spec(typeKey).ttlMax
    {
      ttlTimer := Armed(RInt(u, Spec(typeKey).ttlMin, Spec(typeKey).ttlMax));
    }

    /** `__stopAll` and the unmount cleanup: stop, cancel the leg, clear the timer. */
    method StopAll()
      requires Valid()
      modifies this`stopped, this`anim, this`ttlTimer
      ensures Valid()
      ensures stopped && anim == None && ttlTimer == Cleared
    {
      stopped := true;
      anim := None;
      ttlTimer := Cleared;
    }

    /** The bubble's part of `autoPop`: a stopped bubble is left alone, a running one stops and
      * cancels its leg; `popping` says whether the pop goes ahead. */
    method AutoPop() returns (popping: bool)
      requires Valid()
      modifies this`stopped, this`anim
      ensures Valid()
      ensures popping <==> !old(stopped)
      ensures stopped && anim == None
    {
      if stopped {
        return false;
      }
      stopped := true;
      anim := None;
      popping := true;
    }

    /** The time-to-live timer fires: its handle is spent and the bubble auto-pops. */
    method TtlFired() returns (popping: bool)
      requires Valid() && ttlTimer.Armed?
      modifies this`stopped, this`anim, this`ttlTimer
      ensures Valid()
      ensures ttlTimer == Cleared
      ensures popping <==> !old(stopped)
      ensures stopped && anim == None
    {
      ttlTimer := Cleared;
      popping := AutoPop();
    }

    /** `placeNonOverlapping`: move to the spot the spawn search picks among `placed`. */
    method PlaceNonOverlapping(placed: seq<Body>, view: Viewport, draws: nat -> (Unit, Unit), hypot: (real, real) -> real)
      returns (ok: bool)
      requires Valid()
      modifies this`currX, this`currY
      ensures Valid()
      ensures var q := Query(placed, old(size), view.width, view.height, draws, hypot);
              Point(currX, currY) == FirstFit(q, 0).point && ok == FirstFit(q, 0).ok
    {
      var q := Query(placed, size, view.width, view.height, draws, hypot);
      var p, found, checks := SpawnSearch(q);
      MoveTo(p);
      ok := found;
    }

    /** Jump to `p`: the committed position and the drawn position both. */
    method MoveTo(p: Point)
      requires Valid()
      modifies this`currX, this`currY
      ensures Valid()
      ensures currX == p.x && currY == p.y
    {
      currX, currY := p.x, p.y;
    }

    /** The second half of `placeAndRun`: resume, arm a fresh time to live, start the first leg. */
    method Resume(spawn: SpawnDraws, all: seq<Body>, skip: int, boost: real, view: Viewport, trig: Trig)
      requires Valid()
      modifies this`stopped, this`ttlTimer, this`heading, this`anim
      ensures Valid()
      ensures !stopped
      ensures ttlTimer == Armed(RInt(spawn.ttl, Spec(typeKey).ttlMin, Spec(typeKey).ttlMax))
      ensures anim.Some?
        && Plan(heading, anim.value) == PlanLeg(Body(currX, currY, size, old(heading)), motion, all, skip, spawn.firstLeg, boost, view, trig)
    {
      stopped := false;
      ScheduleTTL(spawn.ttl);
      NextLeg(all, skip, spawn.firstLeg, boost, view, trig);
    }

    /** `placeAndRun`: place among `placed`, then resume with a fresh time to live and a first leg. */
    method PlaceAndRun(placed: seq<Body>, all: seq<Body>, skip: int, spawn: SpawnDraws, boost: real, view: Viewport, trig: Trig)
      requires Valid()
      modifies this`currX, this`currY, this`stopped, this`ttlTimer, this`heading, this`anim
      ensures Valid()
      ensures Point(currX, currY) == FirstFit(Query(placed, size, view.width, view.height, spawn.candidates, trig.hypot), 0).point
      ensures !stopped
      ensures ttlTimer == Armed(RInt(spawn.ttl, Spec(typeKey).ttlMin, Spec(typeKey).ttlMax))
      ensures anim.Some?
        && Plan(heading, anim.value) == PlanLeg(Body(currX, currY, size, old(heading)), motion, all, skip, spawn.firstLeg, boost, view, trig)
    {
      var _ := PlaceNonOverlapping(placed, view, spawn.candidates, trig.hypot);
      Resume(spawn, all, skip, boost, view, trig);
    }

    /** Put on new looks of the bubble's own class and reset the pop visuals. */
    method TakeLook(l: Look)
      requires Valid()
      requires Spec(typeKey).sizeMin <= l.size < Spec(typeKey).sizeMax && -PI < l.heading <= PI
      modifies this`size, this`heading, this`tint, this`sticker, this`scale, this`opacity, this`ringScale, this`ringOpacity
      ensures Valid()
      ensures Look(size, heading, tint, sticker) == l
      ensures scale == 1.0 && opacity == 1.0 && ringScale == 0.8 && ringOpacity == 0.0
    {
      size := l.size;
      heading := l.heading;
      tint := l.tint;
      sticker := l.sticker;
      ResetVisuals();
    }

    /** Back to the resting look of a bubble: full scale and opacity, the pop ring hidden. */
    method ResetVisuals()
      requires Valid()
      modifies this`scale, this`opacity, this`ringScale, this`ringOpacity
      ensures Valid()
      ensures scale == 1.0 && opacity == 1.0 && ringScale == 0.8 && ringOpacity == 0.0
    {
      scale := 1.0;
      opacity := 1.0;
      ringScale := 0.8;
      ringOpacity := 0.0;
    }

    /** `respawn`: new looks of the same class, visuals reset, then placed against every bubble
      * of the scene (itself included, at its old spot with its new diameter) and run again. */
    method Respawn(look: LookDraws, all: seq<Body>, skip: int, spawn: SpawnDraws, boost: real, view: Viewport, trig: Trig)
      requires Valid()
      modifies this
      ensures Valid()
      ensures size == DrawLook(typeKey, look).size
      ensures tint == DrawLook(typeKey, look).tint && sticker == DrawLook(typeKey, look).sticker
      ensures scale == 1.0 && opacity == 1.0 && ringScale == 0.8 && ringOpacity == 0.0
      ensures var me := Body(old(currX), old(currY), size, DrawLook(typeKey, look).heading);
              var q := Query(WithSelf(all, skip, me), size, view.width, view.height, spawn.candidates, trig.hypot);
              Point(currX, currY) == FirstFit(q, 0).point
      ensures !stopped
      ensures ttlTimer == Armed(RInt(spawn.ttl, Spec(typeKey).ttlMin, Spec(typeKey).ttlMax))
      ensures anim.Some?
        && Plan(heading, anim.value) == PlanLeg(Body(currX, currY, size, DrawLook(typeKey, look).heading), motion, all, skip, spawn.firstLeg, boost, view, trig)
    {
      TakeLook(DrawLook(typeKey, look));
      var placed := WithSelf(all, skip, Snapshot());
      PlaceAndRun(placed, all, skip, spawn, boost, view, trig);
    }
  }
}
