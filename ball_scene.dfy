/** The ball scene (scenes/BallScene.js): eight balls to start with, and every bounce adds one
  * more until there are fifteen. */
module BallScene {
  import opened BubbleMath

  const BALL_COUNT: nat := 8
  const MAX_BALLS: nat := 15

  /** A ball; `id` is its random key. */
  datatype Ball = Ball(id: real, x: real, y: real)

  /** The random draws for one ball: its key and its position. */
  datatype BallDraw = BallDraw(id: Unit, ux: Unit, uy: Unit)

  /** A ball somewhere above the bottom 220, clear of the right 80. */
  function Placed(id: real, width: real, height: real, d: BallDraw): (b: Ball)
    ensures b.id == id
    ensures width >= 80.0 ==> 0.0 <= b.x <= width - 80.0
    ensures height >= 220.0 ==> 0.0 <= b.y <= height - 220.0
  {
    Ball(id, Scaled(d.ux, width - 80.0), Scaled(d.uy, height - 220.0))
  }

  /** The balls the scene sets up once: ball i has key `i + Math.random()`. */
  function InitialBalls(width: real, height: real, draws: nat -> BallDraw): (bs: seq<Ball>)
    ensures |bs| == BALL_COUNT
    ensures forall i :: 0 <= i < |bs| ==> i as real <= bs[i].id < i as real + 1.0
  {
    var bs := seq(BALL_COUNT, i requires 0 <= i < BALL_COUNT =>
      Placed(i as real + draws(i).id, width, height, draws(i)));
    assert forall i :: 0 <= i < |bs| ==> bs[i].id == i as real + draws(i).id;
    bs
  }

  predicate UniqueIds(bs: seq<Ball>) {
    forall i, j :: 0 <= i < j < |bs| ==> bs[i].id != bs[j].id
  }

  /** The starting keys are all different: key i lies in [i, i + 1). */
  lemma InitialIdsUnique(width: real, height: real, draws: nat -> BallDraw)
    ensures UniqueIds(InitialBalls(width, height, draws))
  {
    var bs := InitialBalls(width, height, draws);
    forall i, j | 0 <= i < j < |bs| ensures bs[i].id != bs[j].id {
      assert bs[i].id < i as real + 1.0 <= j as real <= bs[j].id;
    }
  }

  /** `handleBallBounce`: below fifteen balls one new ball is appended, otherwise nothing changes. */
  function Bounce(prev: seq<Ball>, width: real, height: real, d: BallDraw): (r: seq<Ball>)
    ensures |prev| < MAX_BALLS ==> |r| == |prev| + 1 && r[..|prev|] == prev
    ensures |prev| < MAX_BALLS ==> r[|prev|] == Placed(d.id, width, height, d)
    ensures |prev| >= MAX_BALLS ==> r == prev
  {
    if |prev| < 15 then prev + [Placed(d.id, width, height, d)] else prev
  }

  /** A run of bounces, each with its own draws. */
  function Bounces(prev: seq<Ball>, width: real, height: real, draws: seq<BallDraw>): (r: seq<Ball>)
    ensures prev <= r && |r| <= |prev| + |draws|
    ensures |prev| >= MAX_BALLS ==> r == prev
    decreases |draws|
  {
    if draws == [] then prev
    else Bounces(Bounce(prev, width, height, draws[0]), width, height, draws[1..])
  }

  function Min(a: int, b: int): int {
    if a <= b then a else b
  }

  /** However many bounces come, a list of at most fifteen balls grows by one per bounce until
    * it holds fifteen, never beyond, and the balls already there stay first. */
  lemma {:induction false} BouncesCapped(prev: seq<Ball>, width: real, height: real, draws: seq<BallDraw>)
    requires |prev| <= MAX_BALLS
    ensures var r := Bounces(prev, width, height, draws);
            && |r| == Min(MAX_BALLS, |prev| + |draws|)
            && prev <= r
    decreases |draws|
  {
    if draws != [] {
      var next := Bounce(prev, width, height, draws[0]);
      BouncesCapped(next, width, height, draws[1..]);
      assert prev <= next;
    }
  }

  /** From the starting eight, the count never exceeds fifteen. */
  lemma NeverMoreThanFifteen(width: real, height: real, init: nat -> BallDraw, draws: seq<BallDraw>)
    ensures |Bounces(InitialBalls(width, height, init), width, height, draws)| <= MAX_BALLS
  {
    BouncesCapped(InitialBalls(width, height, init), width, height, draws);
  }
}
