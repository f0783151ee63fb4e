/** The steering unit of a drifting bubble: the separation field, the soft walls and the
  * shape of the next leg (scenes/BubbleScene.js, `separationDelta`, `softWallSteer`, `nextLeg`). */
module BubbleSteering {
  import opened BubbleMath

  /** What one bubble's steering reads of another: position, diameter and heading. */
  datatype Body = Body(x: real, y: real, size: real, heading: real)

  /** `Math.cos`, `Math.sin`, `Math.hypot` and `Math.atan2`, taken as given functions. */
  datatype Trig = Trig(
    cos: real -> real,
    sin: real -> real,
    hypot: (real, real) -> real,
    atan2: (real, real) -> real)

  /** Distance below which two bubbles push apart; the spawn planner reuses it for overlap. */
  function Threshold(sizeA: real, sizeB: real): real {
    (sizeA + sizeB) * 0.5 * SEP_FACTOR
  }

  /** The push that neighbour `n` gives `b`: nothing when they coincide or are not closer
    * than the threshold, else the offset weighted by closeness over squared distance. */
  function Push(b: Body, n: Body, hypot: (real, real) -> real): (p: (real, real))
    ensures var dist := hypot(b.x - n.x, b.y - n.y);
            dist <= 0.0 || Threshold(b.size, n.size) <= dist ==> p == (0.0, 0.0)
    ensures var dist := hypot(b.x - n.x, b.y - n.y);
            0.0 < dist < Threshold(b.size, n.size) ==>
              && (b.x > n.x ==> p.0 > 0.0) && (b.x < n.x ==> p.0 < 0.0)
              && (b.y > n.y ==> p.1 > 0.0) && (b.y < n.y ==> p.1 < 0.0)
  {
    var dx := b.x - n.x;
    var dy := b.y - n.y;
    var dist := hypot(dx, dy);
    var thresh := Threshold(b.size, n.size);
    if dist <= 0.0 || thresh <= dist then (0.0, 0.0)
    else
      var w := (thresh - dist) / thresh;
      (Falloff(dx, dist, w), Falloff(dy, dist, w))
  }

  /** One component of a push: the offset over the squared distance, times the weight. */
  function Falloff(d: real, dist: real, w: real): (r: real)
    requires dist != 0.0
    ensures 0.0 < w ==> (0.0 < d ==> 0.0 < r) && (d < 0.0 ==> r < 0.0)
  {
    FalloffSign(d, dist, w);
    d / (dist * dist) * w
  }

  /** The offset over the squared distance, times a positive weight, keeps the offset's sign. */
  lemma FalloffSign(d: real, dist: real, w: real)
    requires dist != 0.0
    ensures 0.0 < w ==> (0.0 < d ==> 0.0 < d / (dist * dist) * w) && (d < 0.0 ==> d / (dist * dist) * w < 0.0)
  {
    assert 0.0 < dist * dist;
    assert 0.0 < d ==> 0.0 < d / (dist * dist);
    assert d < 0.0 ==> d / (dist * dist) < 0.0;
    if 0.0 < w && 0.0 < d {
      MulPositive(d / (dist * dist), w);
    } else if 0.0 < w && d < 0.0 {
      MulPositive(-(d / (dist * dist)), w);
    }
  }

  lemma MulPositive(a: real, b: real)
    requires 0.0 < a && 0.0 < b
    ensures 0.0 < a * b
  {
  }

  /** Sum of the pushes of `all[..k]` on `me`, leaving out index `skip` (`me` itself). */
  function Repulsion(me: Body, all: seq<Body>, skip: int, k: nat, hypot: (real, real) -> real): (v: (real, real))
    requires k <= |all|
    ensures NoneInRange(me, all[..k], skip, hypot) ==> v == (0.0, 0.0)
  {
    if k == 0 then (0.0, 0.0)
    else
      var v := Repulsion(me, all, skip, k - 1, hypot);
      if k - 1 == skip then v
      else
        var p := Push(me, all[k - 1], hypot);
        (v.0 + p.0, v.1 + p.1)
  }

  /** Largest heading change the separation field can ask for. */
  const SEP_BOUND: real := SEP_MAX_DELTA * SEP_GAIN

  /** The heading change `separationDelta` returns: none for a negligible push, else the
    * signed angle from the heading to the push direction, clamped and scaled by the gain. */
  function Separation(me: Body, all: seq<Body>, skip: int, trig: Trig): (d: real)
    ensures -SEP_BOUND <= d <= SEP_BOUND
    ensures var v := Repulsion(me, all, skip, |all|, trig.hypot);
            trig.hypot(v.0, v.1) < 0.000001 ==> d == 0.0
  {
    var v := Repulsion(me, all, skip, |all|, trig.hypot);
    if trig.hypot(v.0, v.1) < 0.000001 then 0.0
    else Clamp(Wrapped(trig.atan2(v.1, v.0) - me.heading), -SEP_MAX_DELTA, SEP_MAX_DELTA) * SEP_GAIN
  }

  /** Neighbours that are all out of range push nothing. */
  predicate NoneInRange(me: Body, all: seq<Body>, skip: int, hypot: (real, real) -> real) {
    forall i :: 0 <= i < |all| && i != skip ==>
      var dist := hypot(me.x - all[i].x, me.y - all[i].y);
      dist <= 0.0 || Threshold(me.size, all[i].size) <= dist
  }

  /** The bubble's own entry (index `skip`) has no say in the sum, whatever it holds. */
  lemma {:induction false} RepulsionIgnoresSelf(me: Body, all: seq<Body>, skip: int, k: nat, x: Body, hypot: (real, real) -> real)
    requires k <= |all| && 0 <= skip < |all|
    ensures Repulsion(me, all, skip, k, hypot) == Repulsion(me, all[skip := x], skip, k, hypot)
  {
    if k > 0 {
      RepulsionIgnoresSelf(me, all, skip, k - 1, x, hypot);
    }
  }

  /** A bubble with no neighbour within the threshold gets no separation turn (the field is
    * local), given that the distance of the null vector is 0. */
  lemma NoNeighbourNoTurn(me: Body, all: seq<Body>, skip: int, trig: Trig)
    requires trig.hypot(0.0, 0.0) == 0.0
    requires NoneInRange(me, all, skip, trig.hypot)
    ensures Separation(me, all, skip, trig) == 0.0
  {
    assert all[..|all|] == all;
  }

  /** The loop of `separationDelta`: sum the pushes of every neighbour but `me` itself. */
  method SumPushes(me: Body, all: seq<Body>, skip: int, hypot: (real, real) -> real) returns (vx: real, vy: real)
    ensures (vx, vy) == Repulsion(me, all, skip, |all|, hypot)
  {
    vx, vy := 0.0, 0.0;
    for i := 0 to |all|
      invariant (vx, vy) == Repulsion(me, all, skip, i, hypot)
    {
      if i == skip {
        continue;
      }
      var n := all[i];
      var dx := me.x - n.x;
      var dy := me.y - n.y;
      var dist := hypot(dx, dy);
      if dist <= 0.0 {
        continue;
      }
      var thresh := Threshold(me.size, n.size);
      if dist < thresh {
        var w := (thresh - dist) / thresh;
        vx := vx + Falloff(dx, dist, w);
        vy := vy + Falloff(dy, dist, w);
      }
    }
  }

  /** `separationDelta(b, all)`: the summed push turned into a clamped heading change. */
  method SeparationDelta(me: Body, all: seq<Body>, skip: int, trig: Trig) returns (d: real)
    ensures d == Separation(me, all, skip, trig)
    ensures -SEP_BOUND <= d <= SEP_BOUND
  {
    var vx, vy := SumPushes(me, all, skip, trig.hypot);
    var mag := trig.hypot(vx, vy);
    if mag < 0.000001 {
      return 0.0;
    }
    var away := trig.atan2(vy, vx);
    var delta := WrapAngle(away - me.heading);
    d := Clamp(delta, -SEP_MAX_DELTA, SEP_MAX_DELTA) * SEP_GAIN;
  }

  const WALL_TURN_X: real := PI / 12.0
  const WALL_TURN_Y: real := PI / 18.0

  /** `softWallSteer(b)`: a fixed nudge away from each wall the bubble is close to. */
  function SoftWallSteer(x: real, y: real, width: real, height: real): (s: real)
    ensures -(WALL_TURN_X + WALL_TURN_Y) <= s <= WALL_TURN_X + WALL_TURN_Y
    ensures SOFT_WALL <= x <= width - SOFT_WALL && SOFT_WALL <= y <= height - SOFT_WALL ==> s == 0.0
    ensures x < SOFT_WALL ==> s > 0.0
    ensures SOFT_WALL <= x && width - SOFT_WALL < x ==> s < 0.0
  {
    var sx := if x < SOFT_WALL then WALL_TURN_X else if x > width - SOFT_WALL then -WALL_TURN_X else 0.0;
    var sy := if y < SOFT_WALL then WALL_TURN_Y else if y > height - SOFT_WALL then -WALL_TURN_Y else 0.0;
    sx + sy
  }

  /** The pull towards straight up: the wrapped angle to UP_BIAS times the gain. It never
    * exceeds half a turn scaled by the gain, and a bubble heading straight up feels none. */
  function UpwardBias(heading: real, biasGain: real): (r: real)
    ensures 0.0 <= biasGain ==> -PI * biasGain <= r <= PI * biasGain
    ensures heading == UP_BIAS ==> r == 0.0
  {
    var w := Wrapped(UP_BIAS - heading);
    HalfTurnScaled(w, biasGain);
    WrappedZero();
    w * biasGain
  }

  lemma WrappedZero()
    ensures Wrapped(0.0) == 0.0
  {
    WrappedUnique(0.0, 0.0, 0);
  }

  lemma HalfTurnScaled(w: real, g: real)
    requires -PI < w <= PI
    ensures 0.0 <= g ==> -PI * g <= w * g <= PI * g
  {
    if 0.0 <= g {
      MulNonNegative(PI - w, g);
      MulNonNegative(w + PI, g);
    }
  }

  lemma MulNonNegative(a: real, b: real)
    requires 0.0 <= a && 0.0 <= b
    ensures 0.0 <= a * b
  {
  }

  /** The new heading of a leg: the old one turned by the random turn, the upward bias, the
    * wall nudge and the separation turn, brought back into (-PI, PI]. */
  function NextHeading(heading: real, turn: real, bias: real, wall: real, sep: real): (h: real)
    ensures -PI < h <= PI
    ensures exists k: int :: h == heading + turn + bias + wall + sep + Turns(k)
  {
    Wrapped(heading + turn + bias + wall + sep)
  }

  const LEG_DURATION_MIN: real := 900.0
  const LEG_DURATION_MAX: real := 3200.0

  /** Duration of a leg in ms: the leg's length over the boosted speed, kept within
    * [900, 3200]; a zero speed gives JavaScript's `Infinity`, which clamps to the maximum. */
  function LegDuration(leg: real, speed: real, boost: real): (d: real)
    requires leg > 0.0
    ensures LEG_DURATION_MIN <= d <= LEG_DURATION_MAX
    ensures speed * boost != 0.0 && LEG_DURATION_MIN <= leg / (speed * boost) * 1000.0 <= LEG_DURATION_MAX ==>
              d == leg / (speed * boost) * 1000.0
  {
    var denom := speed * boost;
    if denom == 0.0 then LEG_DURATION_MAX
    else Clamp(leg / denom * 1000.0, LEG_DURATION_MIN, LEG_DURATION_MAX)
  }

  lemma DivAntitone(x: real, p: real, q: real)
    requires x > 0.0 && 0.0 < p <= q
    ensures x / q <= x / p
  {
    assert x / q * q == x == x / p * p;
  }

  /** A higher boost never makes a leg last longer. */
  lemma BoostNeverSlows(leg: real, speed: real, b1: real, b2: real)
    requires leg > 0.0 && speed > 0.0 && 0.0 < b1 <= b2
    ensures LegDuration(leg, speed, b2) <= LegDuration(leg, speed, b1)
  {
    assert 0.0 < speed * b1 <= speed * b2;
    DivAntitone(leg, speed * b1, speed * b2);
  }

  /** Largest coordinate a bubble of diameter `size` may take along an axis of length `extent`. */
  function Room(extent: real, size: real): real {
    Max(0.0, extent - size)
  }

  /** One coordinate of the leg's waypoint: the straight-line target kept on screen. */
  function LegTarget(cur: real, dir: real, leg: real, extent: real, size: real): (t: real)
    ensures 0.0 <= t <= Room(extent, size)
    ensures 0.0 <= cur + dir * leg <= Room(extent, size) ==> t == cur + dir * leg
  {
    Clamp(cur + dir * leg, 0.0, Room(extent, size))
  }
}
