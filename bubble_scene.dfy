/** The bubble scene as a whole: the bubbles it creates for the screen, the mount effect that
  * places and starts them, manual and automatic pops with their sounds, the combo reward and
  * the unmount cleanup (scenes/BubbleScene.js, `BubbleScene`). */
module BubbleScene {
  import opened Wrappers
  import opened BubbleMath
  import opened BubbleSteering
  import opened BubblePlacement
  import opened BubbleLifecycle
  import opened BubbleCombo

  /** The random draws of one new bubble record: size class, looks and base speed. */
  datatype BirthDraws = BirthDraws(typeDraw: Unit, look: LookDraws, speed: Unit)

  /** What the steering reads of the bubbles, in order. */
  function Bodies(bs: seq<Bubble>): (r: seq<Body>)
    reads set b | b in bs
    ensures |r| == |bs|
    ensures forall i :: 0 <= i < |bs| ==> r[i] == bs[i].Snapshot()
    decreases |bs|
  {
    if bs == [] then [] else Bodies(bs[..|bs| - 1]) + [bs[|bs| - 1].Snapshot()]
  }

  predicate Distinct(bs: seq<Bubble>) {
    forall i, j :: 0 <= i < j < |bs| ==> bs[i] != bs[j]
  }

  /** A fresh bubble record: valid, numbered `i`, of the size class its draw picks, parked
    * with no leg and no timer. */
  ghost predicate Newborn(b: Bubble, i: nat, d: BirthDraws)
    reads b
  {
    && b.Valid() && b.id == i && b.typeKey == PickTypeWeighted(d.typeDraw)
    && !b.stopped && b.anim == None && b.ttlTimer == Cleared
  }

  /** A bubble that drifts: not stopped, a leg in flight and a time to live pending. */
  predicate Running(b: Bubble)
    reads b
  {
    !b.stopped && b.anim.Some? && b.ttlTimer.Armed?
  }

  /** A bubble that is stopped for good: no leg and no timer. */
  predicate Halted(b: Bubble)
    reads b
  {
    b.stopped && b.anim == None && b.ttlTimer == Cleared
  }

  class Scene {
    const view: Viewport
    const trig: Trig
    /** The bubble records, made once for the screen's bubble count. */
    const bubbles: seq<Bubble>
    /** The combo counter (`combo`) and the time of the last pop (`lastPopAtRef`). */
    var streak: Streak
    /** `boostRef`: 1, or BOOST_MULTIPLIER while a reward lasts. */
    var boost: real
    var boostTimer: Timer
    /** Whether the reward badge is showing. */
    var badgeShown: bool
    /** Calls of `playGiggleSound`. */
    var giggles: nat
    var lastManualSfxAt: int
    var lastAutoSfxAt: int
    /** Calls of `playPopSound` made by pops. */
    var popSounds: nat

    ghost predicate Valid()
      reads this, set b | b in bubbles
    {
      && Distinct(bubbles)
      && (forall i :: 0 <= i < |bubbles| ==> bubbles[i].Valid())
      && (boost == 1.0 || boost == BOOST_MULTIPLIER)
      && (boostTimer.Armed? ==> boost == BOOST_MULTIPLIER && boostTimer.delay == BOOST_DURATION_MS)
    }

    /** Bubble `i` sits where the spawn search put it among `placed`, with draws `s`. */
    predicate PlacedAmong(b: Bubble, placed: seq<Body>, s: SpawnDraws)
      reads b
    {
      Point(b.currX, b.currY) == FirstFit(Query(placed, b.size, view.width, view.height, s.candidates, trig.hypot), 0).point
    }

    /** Bubble `b` flies the leg `nextLeg` plans from heading `start` at its current spot,
      * steered away from `all` (itself, entry `k`, left out) with draws `d`. */
    predicate SteeredBy(b: Bubble, all: seq<Body>, k: int, start: real, d: LegDraws)
      reads this, b
    {
      && 0.0 < b.motion.legMin <= b.motion.legMax && 0.0 <= b.motion.maxTurn
      && b.anim.Some? && Plan(b.heading, b.anim.value) == PlanLeg(Body(b.currX, b.currY, b.size, start), b.motion, all, k, d, boost, view, trig)
    }

    /** The first render: one bubble record per draw, as many as the screen's bubble count,
      * and the refs at their initial values. */
    constructor (view: Viewport, trig: Trig, births: nat -> BirthDraws)
      ensures Valid()
      ensures this.view == view && this.trig == trig
      ensures |bubbles| == BubbleCount(view.width, view.height)
      ensures forall i :: 0 <= i < |bubbles| ==> Newborn(bubbles[i], i, births(i))
      ensures streak == Streak(0, 0) && boost == 1.0 && boostTimer == Cleared && !badgeShown
      ensures giggles == 0 && lastManualSfxAt == 0 && lastAutoSfxAt == 0 && popSounds == 0
    {
      var bs: seq<Bubble> := [];
      for k := 0 to BubbleCount(view.width, view.height)
        invariant |bs| == k
        invariant Distinct(bs)
        invariant forall i :: 0 <= i < k ==> fresh(bs[i]) && Newborn(bs[i], i, births(i))
      {
        var d := births(k);
        var b := new Bubble(k, d.typeDraw, d.look, d.speed);
        bs := bs + [b];
      }
      this.view := view;
      this.trig := trig;
      bubbles := bs;
      streak := Streak(0, 0);
      boost := 1.0;
      boostTimer := Cleared;
      badgeShown := false;
      giggles := 0;
      lastManualSfxAt := 0;
      lastAutoSfxAt := 0;
      popSounds := 0;
    }

    /** The mount effect: each bubble in turn is placed against the bubbles placed before it
      * and started, so that afterwards every bubble drifts. */
    method Mount(spawns: nat -> SpawnDraws)
      requires Valid()
      modifies (set b | b in bubbles)`currX, (set b | b in bubbles)`currY, (set b | b in bubbles)`heading
      modifies (set b | b in bubbles)`stopped, (set b | b in bubbles)`anim, (set b | b in bubbles)`ttlTimer
      ensures Valid()
      ensures forall i :: 0 <= i < |bubbles| ==> Running(bubbles[i])
      ensures forall i :: 0 <= i < |bubbles| ==> PlacedAmong(bubbles[i], Bodies(bubbles[..i]), spawns(i))
    {
      for i := 0 to |bubbles|
        invariant Valid()
        invariant Mounted(i, spawns)
      {
        MountNext(i, spawns);
      }
    }

    /** The first `n` bubbles drift, each where FirstFit put it among those before it. */
    ghost predicate Mounted(n: nat, spawns: nat -> SpawnDraws)
      requires n <= |bubbles|
      reads this, set b | b in bubbles
    {
      forall j :: 0 <= j < n ==> Running(bubbles[j]) && PlacedAmong(bubbles[j], Bodies(bubbles[..j]), spawns(j))
    }

    /** One loop step of `Mount`: mounting bubble `i` keeps the bubbles before it mounted. */
    method MountNext(i: nat, spawns: nat -> SpawnDraws)
      requires Valid() && i < |bubbles| && Mounted(i, spawns)
      modifies (bubbles[i] as Bubble)`currX, (bubbles[i] as Bubble)`currY, (bubbles[i] as Bubble)`heading
      modifies (bubbles[i] as Bubble)`stopped, (bubbles[i] as Bubble)`anim, (bubbles[i] as Bubble)`ttlTimer
      ensures Valid() && Mounted(i + 1, spawns)
    {
      MountOne(i, spawns(i));
      forall j | 0 <= j < i
        ensures Running(bubbles[j]) && PlacedAmong(bubbles[j], Bodies(bubbles[..j]), spawns(j))
      {
        assert bubbles[j] != bubbles[i];
      }
    }

    /** One step of the mount effect: `placeAndRun(b, placed)` for bubble `i`, which leaves the
      * bubbles before it where they are. */
    method MountOne(i: nat, s: SpawnDraws)
      requires Valid() && i < |bubbles|
      modifies (bubbles[i] as Bubble)`currX, (bubbles[i] as Bubble)`currY, (bubbles[i] as Bubble)`heading
      modifies (bubbles[i] as Bubble)`stopped, (bubbles[i] as Bubble)`anim, (bubbles[i] as Bubble)`ttlTimer
      ensures Valid()
      ensures Running(bubbles[i]) && PlacedAmong(bubbles[i], Bodies(bubbles[..i]), s)
      ensures SteeredBy(bubbles[i], old(Bodies(bubbles)), i, old(bubbles[i].heading), s.firstLeg)
      ensures forall j :: 0 <= j <= i ==> Bodies(bubbles[..j]) == old(Bodies(bubbles[..j]))
    {
      var b := bubbles[i];
      var placed := Bodies(bubbles[..i]);
      b.PlaceAndRun(placed, Bodies(bubbles), i, s, boost, view, trig);
      assert b !in bubbles[..i];
      forall j | 0 <= j <= i
        ensures Bodies(bubbles[..j]) == old(Bodies(bubbles[..j]))
      {
        assert b !in bubbles[..j];
      }
    }

    /** A leg of bubble `k` runs to its end: commit the waypoint and start the next leg. */
    method LegDone(k: nat, d: LegDraws)
      requires Valid() && k < |bubbles| && bubbles[k].anim.Some?
      modifies (bubbles[k] as Bubble)`currX, (bubbles[k] as Bubble)`currY, (bubbles[k] as Bubble)`heading
      modifies (bubbles[k] as Bubble)`anim
      ensures Valid()
      ensures bubbles[k].currX == old(bubbles[k].anim.value.toX) && bubbles[k].currY == old(bubbles[k].anim.value.toY)
      ensures SteeredBy(bubbles[k], old(Bodies(bubbles)), k, old(bubbles[k].heading), d)
    {
      bubbles[k].LegFinished(Bodies(bubbles), k, d, boost, view, trig);
    }

    /** `handleManualPop(b)` at time `now`: stop the bubble for good (no leg, no time to live),
      * play the throttled pop sound, and count the pop towards the combo. */
    method HandleManualPop(k: nat, now: int)
      requires Valid() && k < |bubbles|
      modifies this`lastManualSfxAt, this`popSounds, this`streak, this`boost, this`boostTimer, this`badgeShown, this`giggles
      modifies (bubbles[k] as Bubble)`stopped, (bubbles[k] as Bubble)`anim, (bubbles[k] as Bubble)`ttlTimer
      ensures Valid()
      ensures Halted(bubbles[k])
      ensures var t := ManualPopSfx(old(lastManualSfxAt), now);
              lastManualSfxAt == t.lastAt && popSounds == old(popSounds) + (if t.play then 1 else 0)
      ensures var o := RegisterPop(old(streak), now);
              && streak == o.streak
              && (o.fires ==> boost == BOOST_MULTIPLIER && boostTimer == Armed(BOOST_DURATION_MS)
                              && badgeShown && giggles == old(giggles) + 1)
              && (!o.fires ==> boost == old(boost) && boostTimer == old(boostTimer)
                               && badgeShown == old(badgeShown) && giggles == old(giggles))
    {
      bubbles[k].StopAll();
      PlayManualPopSfx(now);
      CountPop(now);
    }

    /** `playManualPopSfx` at time `now`. */
    method PlayManualPopSfx(now: int)
      requires Valid()
      modifies this`lastManualSfxAt, this`popSounds
      ensures Valid()
      ensures var t := ManualPopSfx(old(lastManualSfxAt), now);
              lastManualSfxAt == t.lastAt && popSounds == old(popSounds) + (if t.play then 1 else 0)
    {
      var t := ManualPopSfx(lastManualSfxAt, now);
      if t.play {
        lastManualSfxAt := now;
        popSounds := popSounds + 1;
      }
    }

    /** `playAutoPopSfx` at time `now`, with the random draw `u`. */
    method PlayAutoPopSfx(now: int, u: Unit)
      requires Valid()
      modifies this`lastAutoSfxAt, this`popSounds
      ensures Valid()
      ensures var t := AutoPopSfx(old(lastAutoSfxAt), now, u);
              lastAutoSfxAt == t.lastAt && popSounds == old(popSounds) + (if t.play then 1 else 0)
    {
      var t := AutoPopSfx(lastAutoSfxAt, now, u);
      if t.play {
        lastAutoSfxAt := now;
        popSounds := popSounds + 1;
      }
    }

    /** `registerPop` at time `now`: update the streak and trigger the reward when it fires. */
    method CountPop(now: int)
      requires Valid()
      modifies this`streak, this`boost, this`boostTimer, this`badgeShown, this`giggles
      ensures Valid()
      ensures var o := RegisterPop(old(streak), now);
              && streak == o.streak
              && (o.fires ==> boost == BOOST_MULTIPLIER && boostTimer == Armed(BOOST_DURATION_MS)
                              && badgeShown && giggles == old(giggles) + 1)
              && (!o.fires ==> boost == old(boost) && boostTimer == old(boostTimer)
                               && badgeShown == old(badgeShown) && giggles == old(giggles))
    {
      var o := RegisterPop(streak, now);
      streak := o.streak;
      if o.fires {
        TriggerCombo();
      }
    }

    /** `triggerCombo`: boost the drift, show the badge, giggle, and (re)arm the boost timer. */
    method TriggerCombo()
      requires Valid()
      modifies this`boost, this`boostTimer, this`badgeShown, this`giggles
      ensures Valid()
      ensures boost == BOOST_MULTIPLIER && boostTimer == Armed(BOOST_DURATION_MS)
      ensures badgeShown && giggles == old(giggles) + 1
    {
      boost := BOOST_MULTIPLIER;
      badgeShown := true;
      giggles := giggles + 1;
      boostTimer := Armed(BOOST_DURATION_MS);
    }

    /** The boost timer fires: back to normal speed, badge hidden. */
    method BoostExpired()
      requires Valid() && boostTimer.Armed?
      modifies this`boost, this`boostTimer, this`badgeShown
      ensures Valid()
      ensures boost == 1.0 && boostTimer == Cleared && !badgeShown
    {
      boost := 1.0;
      boostTimer := Cleared;
      badgeShown := false;
    }

    /** The time to live of bubble `k` runs out at `now`: `autoPop` stops a running bubble and
      * plays the throttled automatic pop sound; a stopped one is left as it is. */
    method TtlFired(k: nat, now: int, u: Unit) returns (popping: bool)
      requires Valid() && k < |bubbles| && bubbles[k].ttlTimer.Armed?
      modifies this`lastAutoSfxAt, this`popSounds
      modifies (bubbles[k] as Bubble)`stopped, (bubbles[k] as Bubble)`anim, (bubbles[k] as Bubble)`ttlTimer
      ensures Valid()
      ensures popping <==> !old(bubbles[k].stopped)
      ensures Halted(bubbles[k])
      ensures var t := AutoPopSfx(old(lastAutoSfxAt), now, u);
              && (popping ==> lastAutoSfxAt == t.lastAt && popSounds == old(popSounds) + (if t.play then 1 else 0))
              && (!popping ==> lastAutoSfxAt == old(lastAutoSfxAt) && popSounds == old(popSounds))
    {
      popping := bubbles[k].TtlFired();
      if popping {
        PlayAutoPopSfx(now, u);
      }
    }

    /** The pop animation of bubble `k` ends: `respawn` it against the whole scene. */
    method PopDone(k: nat, look: LookDraws, spawn: SpawnDraws)
      requires Valid() && k < |bubbles|
      modifies bubbles[k]
      ensures Valid()
      ensures var l := DrawLook(bubbles[k].typeKey, look);
              && bubbles[k].size == l.size && bubbles[k].tint == l.tint && bubbles[k].sticker == l.sticker
      ensures bubbles[k].scale == 1.0 && bubbles[k].opacity == 1.0 && bubbles[k].ringScale == 0.8 && bubbles[k].ringOpacity == 0.0
      ensures Running(bubbles[k])
      ensures var s := Spec(bubbles[k].typeKey);
              bubbles[k].ttlTimer == Armed(RInt(spawn.ttl, s.ttlMin, s.ttlMax))
      ensures var b := bubbles[k];
              var me := Body(old(b.currX), old(b.currY), b.size, DrawLook(b.typeKey, look).heading);
              PlacedAmong(b, WithSelf(old(Bodies(bubbles)), k, me), spawn)
      ensures SteeredBy(bubbles[k], old(Bodies(bubbles)), k, DrawLook(bubbles[k].typeKey, look).heading, spawn.firstLeg)
    {
      bubbles[k].Respawn(look, Bodies(bubbles), k, spawn, boost, view, trig);
    }

    /** The unmount cleanup: clear the boost timer and stop every bubble for good. */
    method Unmount()
      requires Valid()
      modifies this`boostTimer
      modifies (set b | b in bubbles)`stopped, (set b | b in bubbles)`anim, (set b | b in bubbles)`ttlTimer
      ensures Valid()
      ensures boostTimer == Cleared
      ensures forall i :: 0 <= i < |bubbles| ==> Halted(bubbles[i])
    {
      boostTimer := Cleared;
      for i := 0 to |bubbles|
        invariant Valid()
        invariant boostTimer == Cleared
        invariant forall j :: 0 <= j < i ==> Halted(bubbles[j])
      {
        label step:
        bubbles[i].StopAll();
        forall j | 0 <= j < i
          ensures Halted(bubbles[j])
        {
          assert bubbles[j] != bubbles[i] && old@step(Halted(bubbles[j]));
        }
      }
    }
  }
}
