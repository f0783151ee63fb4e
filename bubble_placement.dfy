/** The placement planner: a spawn point that does not overlap the bubbles already placed,
  * searched with a bounded number of random candidates (scenes/BubbleScene.js,
  * `randomOnscreen` and `placeNonOverlapping`). */
module BubblePlacement {
  import opened BubbleMath
  import opened BubbleSteering

  datatype Point = Point(x: real, y: real)

  /** `randomOnscreen(width, height, size)`: a random point kept MARGIN away from the edges
    * when the screen leaves room for that, and always on screen. */
  function RandomOnscreen(u: Unit, v: Unit, width: real, height: real, size: real): (p: Point)
    ensures 0.0 <= p.x <= Room(width, size) && 0.0 <= p.y <= Room(height, size)
    ensures 2.0 * MARGIN <= width - size ==> MARGIN <= p.x <= width - size - MARGIN
    ensures 2.0 * MARGIN <= height - size ==> MARGIN <= p.y <= height - size - MARGIN
  {
    Point(Clamp(Rand(u, MARGIN, width - size - MARGIN), 0.0, Room(width, size)),
          Clamp(Rand(v, MARGIN, height - size - MARGIN), 0.0, Room(height, size)))
  }

  /** One spawn search: the bubbles already placed, the new bubble's diameter, the screen,
    * the successive random candidates and the distance function. */
  datatype SpawnQuery = SpawnQuery(
    placed: seq<Body>,
    size: real,
    width: real,
    height: real,
    candidates: nat -> Point,
    hypot: (real, real) -> real)

  /** The search `placeNonOverlapping` runs: candidate `k` is `randomOnscreen` of the k-th pair
    * of draws. */
  function Query(placed: seq<Body>, size: real, width: real, height: real,
                 draws: nat -> (Unit, Unit), hypot: (real, real) -> real): SpawnQuery
  {
    SpawnQuery(placed, size, width, height,
               (k: nat) => RandomOnscreen(draws(k).0, draws(k).1, width, height, size), hypot)
  }

  /** The k-th random candidate of the search. */
  function Candidate(q: SpawnQuery, k: nat): Point {
    q.candidates(k)
  }

  /** Whether placed bubble `i` is closer to `p` than the separation threshold. */
  predicate TooClose(q: SpawnQuery, p: Point, i: nat)
    requires i < |q.placed|
  {
    q.hypot(p.x - q.placed[i].x, p.y - q.placed[i].y) < Threshold(q.size, q.placed[i].size)
  }

  predicate Overlaps(q: SpawnQuery, p: Point) {
    exists i :: 0 <= i < |q.placed| && TooClose(q, p, i)
  }

  /** Outcome of a search: the chosen point, how many candidates were checked, and whether
    * the chosen point passed its check. */
  datatype Placement = Placement(point: Point, checks: nat, ok: bool)

  /** The search from candidate `k` on: the first candidate that overlaps nothing, or, once
    * PLACEMENT_ATTEMPTS candidates have failed, one more candidate taken unchecked. */
  function FirstFit(q: SpawnQuery, k: nat): (r: Placement)
    requires k <= PLACEMENT_ATTEMPTS
    ensures k <= r.checks <= PLACEMENT_ATTEMPTS
    decreases PLACEMENT_ATTEMPTS - k
  {
    if k == PLACEMENT_ATTEMPTS then Placement(Candidate(q, k), k, false)
    else if !Overlaps(q, Candidate(q, k)) then Placement(Candidate(q, k), k + 1, true)
    else FirstFit(q, k + 1)
  }

  /** The search checks at least the candidate it starts from; a point it keeps is the last
    * candidate checked and overlaps nothing; a search that gives up has checked all
    * PLACEMENT_ATTEMPTS candidates and takes the next one. */
  lemma {:induction false} FirstFitChoice(q: SpawnQuery, k: nat)
    requires k <= PLACEMENT_ATTEMPTS
    ensures var r := FirstFit(q, k);
            && (k < PLACEMENT_ATTEMPTS ==> k < r.checks)
            && (r.ok ==> r.point == Candidate(q, r.checks - 1) && !Overlaps(q, r.point))
            && (!r.ok ==> r.checks == PLACEMENT_ATTEMPTS && r.point == Candidate(q, PLACEMENT_ATTEMPTS))
    decreases PLACEMENT_ATTEMPTS - k
  {
    if k < PLACEMENT_ATTEMPTS && Overlaps(q, Candidate(q, k)) {
      FirstFitChoice(q, k + 1);
    }
  }

  /** Every candidate checked before the chosen one overlapped a placed bubble, and when the
    * search gave up, all PLACEMENT_ATTEMPTS checked candidates did. */
  lemma {:induction false} FirstFitRejected(q: SpawnQuery, k: nat, j: nat)
    requires k <= j < PLACEMENT_ATTEMPTS
    requires var r := FirstFit(q, k); j < r.checks - 1 || (j < r.checks && !r.ok)
    ensures Overlaps(q, Candidate(q, j))
    decreases PLACEMENT_ATTEMPTS - k
  {
    FirstFitChoice(q, k);
    if j > k {
      assert FirstFit(q, k) == FirstFit(q, k + 1);
      FirstFitRejected(q, k + 1, j);
    }
  }

  /** Every candidate checked before the chosen one overlapped a placed bubble. */
  lemma FirstFitEarlierOverlap(q: SpawnQuery)
    ensures forall j :: 0 <= j < FirstFit(q, 0).checks - 1 ==> Overlaps(q, Candidate(q, j))
  {
    forall j | 0 <= j < FirstFit(q, 0).checks - 1
      ensures Overlaps(q, Candidate(q, j))
    {
      FirstFitRejected(q, 0, j);
    }
  }

  /** A search that gives up has seen all PLACEMENT_ATTEMPTS checked candidates overlap. */
  lemma FirstFitExhausted(q: SpawnQuery)
    requires !FirstFit(q, 0).ok
    ensures forall j :: 0 <= j < PLACEMENT_ATTEMPTS ==> Overlaps(q, Candidate(q, j))
  {
    FirstFitChoice(q, 0);
    forall j | 0 <= j < PLACEMENT_ATTEMPTS
      ensures Overlaps(q, Candidate(q, j))
    {
      FirstFitRejected(q, 0, j);
    }
  }

  /** Whatever the search returns lies on screen. */
  lemma FirstFitOnScreen(placed: seq<Body>, size: real, width: real, height: real,
                         draws: nat -> (Unit, Unit), hypot: (real, real) -> real)
    ensures var p := FirstFit(Query(placed, size, width, height, draws, hypot), 0).point;
            0.0 <= p.x <= Room(width, size) && 0.0 <= p.y <= Room(height, size)
  {
    var q := Query(placed, size, width, height, draws, hypot);
    var r := FirstFit(q, 0);
    FirstFitChoice(q, 0);
    var k := if r.ok then r.checks - 1 else PLACEMENT_ATTEMPTS;
    assert r.point == q.candidates(k) == RandomOnscreen(draws(k).0, draws(k).1, width, height, size);
  }

  /** With nothing placed yet the first candidate is kept after a single check. */
  lemma FirstFitEmpty(q: SpawnQuery)
    requires q.placed == []
    ensures FirstFit(q, 0) == Placement(Candidate(q, 0), 1, true)
  {
  }

  /** The inner loop of `placeNonOverlapping`: a candidate passes when no placed bubble is
    * closer than the threshold; the scan stops at the first bubble that is. */
  method Fits(q: SpawnQuery, p: Point) returns (ok: bool)
    ensures ok <==> !Overlaps(q, p)
  {
    ok := true;
    for i := 0 to |q.placed|
      invariant forall m :: 0 <= m < i ==> !TooClose(q, p, m)
    {
      var n := q.placed[i];
      var dist := q.hypot(p.x - n.x, p.y - n.y);
      var thresh := Threshold(q.size, n.size);
      if dist < thresh {
        assert TooClose(q, p, i);
        ok := false;
        break;
      }
    }
  }

  /** One step of the search from candidate `k`: a candidate that overlaps passes the search on. */
  lemma FirstFitStep(q: SpawnQuery, k: nat)
    requires k < PLACEMENT_ATTEMPTS
    ensures Overlaps(q, Candidate(q, k)) ==> FirstFit(q, k) == FirstFit(q, k + 1)
    ensures !Overlaps(q, Candidate(q, k)) ==> FirstFit(q, k) == Placement(Candidate(q, k), k + 1, true)
  {
  }

  /** The retry loop of `placeNonOverlapping`: check candidates, stop at the first one that
    * overlaps nothing, redraw after each failure. */
  method SpawnSearch(q: SpawnQuery) returns (p: Point, ok: bool, ghost checks: nat)
    ensures Placement(p, checks, ok) == FirstFit(q, 0)
  {
    p := Candidate(q, 0);
    ok := false;
    checks := 0;
    var attempt := 0;
    while attempt < PLACEMENT_ATTEMPTS
      invariant attempt <= PLACEMENT_ATTEMPTS
      invariant p == Candidate(q, attempt) && checks == attempt && !ok
      invariant FirstFit(q, attempt) == FirstFit(q, 0)
    {
      ok := Fits(q, p);
      FirstFitStep(q, attempt);
      checks := checks + 1;
      if ok {
        break;
      }
      attempt := attempt + 1;
      p := Candidate(q, attempt);
    }
  }
}
