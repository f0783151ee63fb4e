/** Tunables and small numeric helpers of the bubble scene (scenes/BubbleScene.js). */
module BubbleMath {

  /** One draw of `Math.random()`: a real in [0, 1). */
  type Unit = r: real | 0.0 <= r < 1.0

  /** `Math.PI`, taken as an exact real. */
  const PI: real := 3.141592653589793

  /** Heading that points straight up the screen. */
  const UP_BIAS: real := -PI / 2.0

  const DENSITY_DIVISOR: real := 65000.0
  const COUNT_MIN: int := 20
  const COUNT_MAX: int := 48

  const MARGIN: real := 10.0
  const SOFT_WALL: real := 32.0
  const SEP_FACTOR: real := 0.6
  const SEP_GAIN: real := 0.12
  const SEP_MAX_DELTA: real := PI / 8.0
  const PLACEMENT_ATTEMPTS: nat := 30

  const STICKER_PROB: real := 0.12
  const STICKER_COUNT: int := 6
  const TINTS: seq<string> := ["#9bd7ff", "#ffd7f2", "#ffe1a6", "#c9ffd2", "#e6ddff"]

  /** The three size classes a bubble is drawn from. */
  datatype SizeClass = Small | Medium | Large

  /** Diameter range (px) and time-to-live range (ms) of one size class. */
  datatype TypeSpec = TypeSpec(sizeMin: real, sizeMax: real, ttlMin: int, ttlMax: int)

  /** The `TYPES` table: larger bubbles live shorter. */
  function Spec(t: SizeClass): (s: TypeSpec)
    ensures 0.0 < s.sizeMin < s.sizeMax
    ensures 0 < s.ttlMin <= s.ttlMax
  {
    match t
    case Small => TypeSpec(60.0, 76.0, 9000, 13000)
    case Medium => TypeSpec(86.0, 106.0, 6000, 9000)
    case Large => TypeSpec(112.0, 136.0, 4200, 6500)
  }

  /** Size classes ordered from small to large. */
  function Rank(t: SizeClass): nat {
    match t
    case Small => 0
    case Medium => 1
    case Large => 2
  }

  function Max(a: real, b: real): real { if a < b then b else a }

  /** `clamp(v, lo, hi) = Math.max(lo, Math.min(hi, v))`; when `hi < lo` the lower bound wins. */
  function Clamp(v: real, lo: real, hi: real): (r: real)
    ensures lo <= r
    ensures lo <= hi ==> r <= hi
    ensures lo <= v <= hi ==> r == v
    ensures v < lo || hi < lo ==> r == lo
    ensures lo <= hi < v ==> r == hi
  {
    Max(lo, if hi < v then hi else v)
  }

  /** `rand(min, max) = Math.random() * (max - min) + min`. */
  function Rand(u: Unit, lo: real, hi: real): (r: real)
    ensures lo <= hi ==> lo <= r <= hi
    ensures lo < hi ==> r < hi
  {
    var w := hi - lo;
    ScaleBelow(u, w);
    u * w + lo
  }

  lemma ScaleBelow(u: Unit, w: real)
    ensures w >= 0.0 ==> 0.0 <= u * w <= w
    ensures w > 0.0 ==> u * w < w
  {
    if w > 0.0 {
      assert u * w < 1.0 * w;
    }
  }

  /** `Math.random() * span`: a point of [0, span) when the span is positive. */
  function Scaled(u: Unit, span: real): (v: real)
    ensures span >= 0.0 ==> 0.0 <= v <= span
    ensures span > 0.0 ==> v < span
  {
    ScaleBelow(u, span);
    u * span
  }

  /** `Math.round` on the numbers it meets here: halves go up. */
  function Round(x: real): (r: int)
    ensures r as real - 0.5 <= x < r as real + 0.5
  {
    (x + 0.5).Floor
  }

  /** `rint(min, max) = Math.floor(rand(min, max + 1))`: an integer of [min, max]. */
  function RInt(u: Unit, lo: int, hi: int): (r: int)
    ensures lo <= hi ==> lo <= r <= hi
  {
    (Rand(u, lo as real, hi as real + 1.0)).Floor
  }

  /** Every integer of [lo, hi] is the outcome of some draw: `rint` covers its whole range. */
  lemma RIntReaches(lo: int, hi: int, k: int)
    requires lo <= k <= hi
    ensures exists u: Unit :: RInt(u, lo, hi) == k
  {
    var w := hi as real + 1.0 - lo as real;
    var u: Unit := (k - lo) as real / w;
    assert u * w == (k - lo) as real;
    assert RInt(u, lo, hi) == k;
  }

  /** `skyColorForHour(h)`: night, morning, day and evening colours. */
  function SkyColorForHour(h: int): (c: string)
    ensures c == NIGHT_SKY <==> IsNight(h)
    ensures c in {NIGHT_SKY, MORNING_SKY, DAY_SKY, EVENING_SKY}
    ensures 6 <= h < 10 ==> c == MORNING_SKY
    ensures 10 <= h < 17 ==> c == DAY_SKY
    ensures 17 <= h < 20 ==> c == EVENING_SKY
  {
    if h >= 20 || h < 6 then NIGHT_SKY
    else if h < 10 then MORNING_SKY
    else if h < 17 then DAY_SKY
    else EVENING_SKY
  }

  const NIGHT_SKY: string := "#172b44"
  const MORNING_SKY: string := "#cfe9ff"
  const DAY_SKY: string := "#bfe4ff"
  const EVENING_SKY: string := "#ffd8b0"

  /** The scene's own night test (dims the clouds), written apart from the sky colour. */
  predicate IsNight(hour: int) {
    hour >= 20 || hour < 6
  }

  /** `pickTypeWeighted()`: small with weight 0.50, medium 0.35, large 0.15. */
  function PickTypeWeighted(u: Unit): (t: SizeClass)
    ensures t == Small <==> u < 0.5
    ensures t == Medium <==> 0.5 <= u < 0.85
    ensures t == Large <==> 0.85 <= u
  {
    if u < 0.5 then Small
    else if u < 0.85 then Medium
    else Large
  }

  /** A larger draw never yields a smaller class. */
  lemma PickTypeMonotone(u: Unit, v: Unit)
    requires u <= v
    ensures Rank(PickTypeWeighted(u)) <= Rank(PickTypeWeighted(v))
  {
  }

  /** The adaptive bubble count of line 331: screen area over the density divisor, kept within [20, 48]. */
  function BubbleCount(width: real, height: real): (n: int)
    ensures COUNT_MIN <= n <= COUNT_MAX
    ensures COUNT_MIN <= Round(width * height / DENSITY_DIVISOR) <= COUNT_MAX ==>
              n == Round(width * height / DENSITY_DIVISOR)
  {
    (Clamp(Round(width * height / DENSITY_DIVISOR) as real, COUNT_MIN as real, COUNT_MAX as real)).Floor
  }

  /** A larger screen never holds fewer bubbles. */
  lemma BubbleCountMonotone(w1: real, h1: real, w2: real, h2: real)
    requires w1 * h1 <= w2 * h2
    ensures BubbleCount(w1, h1) <= BubbleCount(w2, h2)
  {
    var a1 := w1 * h1 / DENSITY_DIVISOR;
    var a2 := w2 * h2 / DENSITY_DIVISOR;
    assert a1 <= a2;
    assert Round(a1) <= Round(a2);
  }

  /** A whole number of full turns. */
  function Turns(k: int): real {
    2.0 * PI * k as real
  }

  /** The angle of (-PI, PI] that differs from `a` by whole turns. */
  function Wrapped(a: real): (r: real)
    ensures -PI < r <= PI
    ensures exists k: int :: r == a + Turns(k)
  {
    var k := ((PI - a) / (2.0 * PI)).Floor;
    assert k as real <= (PI - a) / (2.0 * PI) < k as real + 1.0;
    a + Turns(k)
  }

  /** Two angles of (-PI, PI] that differ by whole turns are equal. */
  lemma {:induction false} WrappedUnique(a: real, r: real, k: int)
    requires -PI < r <= PI
    requires r == a + Turns(k)
    ensures r == Wrapped(a)
  {
    var j := ((PI - a) / (2.0 * PI)).Floor;
    var w := Wrapped(a);
    assert w - r == Turns(j) - Turns(k) == 2.0 * PI * (j - k) as real;
    assert -2.0 * PI < w - r < 2.0 * PI;
    assert j - k == 0;
  }

  /** `wrapAngle`: the two while-loops that bring an angle into (-PI, PI]. */
  method WrapAngle(a0: real) returns (a: real)
    ensures -PI < a <= PI
    ensures a == Wrapped(a0)
  {
    a := a0;
    ghost var k: int := 0;
    while a > PI
      invariant a == a0 + Turns(k)
      decreases a
    {
      a := a - 2.0 * PI;
      k := k - 1;
    }
    while a <= -PI
      invariant a == a0 + Turns(k)
      invariant a <= PI
      decreases -a
    {
      a := a + 2.0 * PI;
      k := k + 1;
    }
    WrappedUnique(a0, a, k);
  }
}
