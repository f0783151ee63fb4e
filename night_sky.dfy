/** The night-sky scene (scenes/NightSkyScene.js): seven fireflies float about; a caught one
  * disappears and, 1.3 s later, a fresh one takes its place in the list. */
module NightSky {
  import opened BubbleMath

  const FIREFLY_COUNT: nat := 7

  /** A firefly; `id` is the random number it was given as its key. */
  datatype Firefly = Firefly(id: real, x: real, y: real, caught: bool)

  /** The three random draws `randomFirefly` makes: its id and its position. */
  datatype FireflyDraw = FireflyDraw(id: Unit, ux: Unit, uy: Unit)

  /** `randomFirefly`: a firefly that is not caught, somewhere in the sky above the bottom 140. */
  function RandomFirefly(width: real, height: real, d: FireflyDraw): (f: Firefly)
    ensures !f.caught && f.id == d.id && 0.0 <= f.id < 1.0
    ensures width >= 40.0 ==> 0.0 <= f.x <= width - 40.0
    ensures height >= 140.0 ==> 0.0 <= f.y <= height - 140.0
  {
    Firefly(d.id, Scaled(d.ux, width - 40.0), Scaled(d.uy, height - 140.0), false)
  }

  /** The population the scene sets up once: FIREFLY_COUNT fresh fireflies. */
  function InitialSky(width: real, height: real, draws: nat -> FireflyDraw): (fs: seq<Firefly>)
    ensures |fs| == FIREFLY_COUNT
    ensures forall i :: 0 <= i < |fs| ==> !fs[i].caught && fs[i].id == draws(i).id
  {
    var fs := seq(FIREFLY_COUNT, i requires 0 <= i < FIREFLY_COUNT => RandomFirefly(width, height, draws(i)));
    assert forall i :: 0 <= i < |fs| ==> fs[i] == RandomFirefly(width, height, draws(i));
    fs
  }

  /** `handleCatch(id)`, first step: the firefly with that id is marked caught. */
  function Catch(prev: seq<Firefly>, id: real): (r: seq<Firefly>)
    ensures |r| == |prev|
    ensures forall i :: 0 <= i < |prev| && prev[i].id == id ==> r[i] == prev[i].(caught := true)
    ensures forall i :: 0 <= i < |prev| && prev[i].id != id ==> r[i] == prev[i]
  {
    seq(|prev|, i requires 0 <= i < |prev| => if prev[i].id == id then prev[i].(caught := true) else prev[i])
  }

  /** `handleCatch(id)`, 1.3 s later: the firefly with that id is swapped for a fresh one (each
    * match makes its own draws). */
  function Replace(prev: seq<Firefly>, id: real, width: real, height: real, draws: nat -> FireflyDraw): (r: seq<Firefly>)
    ensures |r| == |prev|
    ensures forall i :: 0 <= i < |prev| && prev[i].id == id ==> r[i] == RandomFirefly(width, height, draws(i))
    ensures forall i :: 0 <= i < |prev| && prev[i].id != id ==> r[i] == prev[i]
  {
    seq(|prev|, i requires 0 <= i < |prev| =>
      if prev[i].id == id then RandomFirefly(width, height, draws(i)) else prev[i])
  }

  /** The fireflies drawn on screen: the ones not caught, in list order. */
  function Visible(fs: seq<Firefly>): (r: seq<Firefly>)
    ensures |r| <= |fs|
    ensures forall i :: 0 <= i < |r| ==> !r[i].caught && r[i] in fs
    decreases |fs|
  {
    if fs == [] then [] else (if fs[0].caught then [] else [fs[0]]) + Visible(fs[1..])
  }

  predicate UniqueIds(fs: seq<Firefly>) {
    forall i, j :: 0 <= i < j < |fs| ==> fs[i].id != fs[j].id
  }

  /** A firefly is drawn exactly when it is in the list and not caught. */
  lemma {:induction false} VisibleIffNotCaught(fs: seq<Firefly>, f: Firefly)
    ensures f in Visible(fs) <==> f in fs && !f.caught
    decreases |fs|
  {
    if fs != [] {
      VisibleIffNotCaught(fs[1..], f);
      assert fs == [fs[0]] + fs[1..];
    }
  }

  /** Two lists that differ only at index j, where a firefly has been caught: one fewer is drawn. */
  lemma {:induction false} OneFewerVisible(a: seq<Firefly>, b: seq<Firefly>, j: nat)
    requires |a| == |b| && j < |a|
    requires forall i :: 0 <= i < |a| && i != j ==> a[i] == b[i]
    requires !a[j].caught && b[j].caught
    ensures |Visible(b)| + 1 == |Visible(a)|
    decreases |a|
  {
    if j > 0 {
      OneFewerVisible(a[1..], b[1..], j - 1);
      assert a[0] == b[0];
    } else {
      assert a[1..] == b[1..];
    }
  }

  /** Catching a visible firefly hides exactly that one: one fewer is drawn, the list keeps its
    * length and ids, and the caught one is no longer on screen. */
  lemma CatchHidesOne(prev: seq<Firefly>, j: nat)
    requires UniqueIds(prev) && j < |prev| && !prev[j].caught
    ensures var r := Catch(prev, prev[j].id);
            && |Visible(r)| + 1 == |Visible(prev)|
            && (forall f :: f in Visible(r) ==> f.id != prev[j].id)
            && UniqueIds(r)
  {
    var r := Catch(prev, prev[j].id);
    forall i | 0 <= i < |prev| && i != j ensures prev[i] == r[i] {
      assert prev[i].id != prev[j].id;
    }
    OneFewerVisible(prev, r, j);
    forall f | f in Visible(r) ensures f.id != prev[j].id {
      VisibleIffNotCaught(r, f);
      var i :| 0 <= i < |r| && r[i] == f;
      if i != j {
        assert prev[i].id != prev[j].id;
      }
    }
  }

  /** A catch followed by its replacement, with no other change in between, leaves every other
    * firefly as it was and puts an uncaught fresh one in the caught one's place. */
  lemma CatchThenReplace(prev: seq<Firefly>, j: nat, width: real, height: real, draws: nat -> FireflyDraw)
    requires UniqueIds(prev) && j < |prev|
    ensures var r := Replace(Catch(prev, prev[j].id), prev[j].id, width, height, draws);
            && |r| == |prev|
            && r[j] == RandomFirefly(width, height, draws(j)) && !r[j].caught
            && (forall i :: 0 <= i < |prev| && i != j ==> r[i] == prev[i])
  {
    var c := Catch(prev, prev[j].id);
    forall i | 0 <= i < |prev| && i != j ensures c[i].id != prev[j].id {
      assert prev[i].id != prev[j].id;
    }
  }

  /** If no firefly is caught, all of them are drawn. */
  lemma {:induction false} AllVisible(fs: seq<Firefly>)
    requires forall i :: 0 <= i < |fs| ==> !fs[i].caught
    ensures Visible(fs) == fs
    decreases |fs|
  {
    if fs != [] {
      AllVisible(fs[1..]);
      assert [fs[0]] + fs[1..] == fs;
    }
  }

  /** At the start all seven fireflies are on screen. */
  lemma InitialAllVisible(width: real, height: real, draws: nat -> FireflyDraw)
    ensures |Visible(InitialSky(width, height, draws))| == FIREFLY_COUNT
  {
    AllVisible(InitialSky(width, height, draws));
  }
}
