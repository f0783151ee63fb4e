/** The block-stacking scene (scenes/StackingScene.js): six blocks lie on the floor; tapping
  * one puts it on the tower, and the reset button scatters them all again. The block list is
  * React state that every operation replaces with a new list. */
module Stacking {
  import opened BubbleMath

  const BLOCK_COUNT: nat := 6
  const BLOCK_WIDTH: real := 90.0
  const BLOCK_HEIGHT: real := 38.0
  const COLORS: seq<string> := ["#F87171", "#60A5FA", "#34D399", "#FBBF24", "#A78BFA", "#F472B6"]
  const LABELS: seq<string> := ["RED", "BLUE", "GREEN", "YELLOW", "PURPLE", "PINK"]

  /** The tower's left edge and the floor line, from the window size. */
  function TowerX(width: real): real {
    width / 2.0 - BLOCK_WIDTH / 2.0
  }

  function BottomY(height: real): real {
    height - 80.0
  }

  /** One block; `img` is the index of its picture in the scene's image list and `caption`
    * its `label` text. */
  datatype Block = Block(id: int, img: nat, color: string, caption: string, stacked: bool, x: real, y: real)

  /** A spot on the floor from two random draws: anywhere across the width, up to 60 above the floor. */
  function FloorX(width: real, u: Unit): (x: real)
    ensures width > BLOCK_WIDTH ==> 0.0 <= x < width - BLOCK_WIDTH
  {
    Scaled(u, width - BLOCK_WIDTH)
  }

  function FloorY(height: real, u: Unit): (y: real)
    ensures BottomY(height) - 60.0 < y <= BottomY(height)
  {
    BottomY(height) - u * 60.0
  }

  /** The initial list: block i has id i, the i-th picture, colour and label, is not stacked
    * and lies on the floor at the spot drawn for it. */
  function InitialBlocks(width: real, height: real, draws: nat -> (Unit, Unit)): (bs: seq<Block>)
    ensures |bs| == BLOCK_COUNT
    ensures forall i :: 0 <= i < |bs| ==>
              && bs[i].id == i && bs[i].img == i && bs[i].color == COLORS[i] && bs[i].caption == LABELS[i]
              && !bs[i].stacked
              && BottomY(height) - 60.0 < bs[i].y <= BottomY(height)
              && (width > BLOCK_WIDTH ==> 0.0 <= bs[i].x < width - BLOCK_WIDTH)
  {
    var bs := seq(BLOCK_COUNT, i requires 0 <= i < BLOCK_COUNT => FloorBlock(i, width, height, draws(i)));
    assert forall i :: 0 <= i < |bs| ==> bs[i] == FloorBlock(i, width, height, draws(i));
    bs
  }

  function FloorBlock(i: nat, width: real, height: real, draw: (Unit, Unit)): (b: Block)
    requires i < BLOCK_COUNT
    ensures b.id == i && b.img == i && b.color == COLORS[i] && b.caption == LABELS[i] && !b.stacked
    ensures BottomY(height) - 60.0 < b.y <= BottomY(height)
    ensures width > BLOCK_WIDTH ==> 0.0 <= b.x < width - BLOCK_WIDTH
  {
    Block(i, i, COLORS[i], LABELS[i], false, FloorX(width, draw.0), FloorY(height, draw.1))
  }

  /** `blocks.filter(b => b.stacked)` and `blocks.filter(b => !b.stacked)`. */
  function Stacked(bs: seq<Block>): (r: seq<Block>)
    ensures |r| <= |bs|
    ensures forall i :: 0 <= i < |r| ==> r[i].stacked
    decreases |bs|
  {
    if bs == [] then [] else (if bs[0].stacked then [bs[0]] else []) + Stacked(bs[1..])
  }

  function Unstacked(bs: seq<Block>): (r: seq<Block>)
    ensures |r| <= |bs|
    ensures forall i :: 0 <= i < |r| ==> !r[i].stacked
    decreases |bs|
  {
    if bs == [] then [] else (if bs[0].stacked then [] else [bs[0]]) + Unstacked(bs[1..])
  }

  /** The two filters split the list: together they hold every block exactly as often as the list. */
  lemma {:induction false} SplitIsPartition(bs: seq<Block>)
    ensures multiset(Stacked(bs)) + multiset(Unstacked(bs)) == multiset(bs)
    ensures |Stacked(bs)| + |Unstacked(bs)| == |bs|
    decreases |bs|
  {
    if bs != [] {
      SplitIsPartition(bs[1..]);
      assert bs == [bs[0]] + bs[1..];
    }
  }

  /** The block `handleStack` puts on the tower at height slot `k`. */
  function OnTower(b: Block, towerX: real, bottomY: real, k: nat): Block {
    b.(x := towerX, y := bottomY - BLOCK_HEIGHT * (k as real + 1.0), stacked := true)
  }

  /** `handleStack(id)`: the block with that id goes onto the tower, one slot above the
    * `stackedCount` blocks stacked when the scene was last drawn; every other block is kept. */
  function HandleStack(prev: seq<Block>, id: int, stackedCount: nat, towerX: real, bottomY: real): (r: seq<Block>)
    ensures |r| == |prev|
    ensures forall i :: 0 <= i < |prev| ==> r[i].id == prev[i].id
    ensures forall i :: 0 <= i < |prev| && prev[i].id != id ==> r[i] == prev[i]
    ensures forall i :: 0 <= i < |prev| && prev[i].id == id ==>
              && r[i] == prev[i].(stacked := true, x := towerX, y := bottomY - BLOCK_HEIGHT * (stackedCount as real + 1.0))
              && r[i].img == prev[i].img && r[i].color == prev[i].color && r[i].caption == prev[i].caption
  {
    seq(|prev|, i requires 0 <= i < |prev| =>
      if prev[i].id == id then OnTower(prev[i], towerX, bottomY, stackedCount) else prev[i])
  }

  predicate UniqueIds(bs: seq<Block>) {
    forall i, j :: 0 <= i < j < |bs| ==> bs[i].id != bs[j].id
  }

  /** Two lists that differ only at index j, where a block that was not stacked now is. */
  lemma {:induction false} OneMoreStacked(a: seq<Block>, b: seq<Block>, j: nat)
    requires |a| == |b| && j < |a|
    requires forall i :: 0 <= i < |a| && i != j ==> a[i] == b[i]
    requires !a[j].stacked && b[j].stacked
    ensures |Stacked(b)| == |Stacked(a)| + 1
    decreases |a|
  {
    if j > 0 {
      OneMoreStacked(a[1..], b[1..], j - 1);
      assert a[0] == b[0];
    } else {
      assert a[1..] == b[1..];
    }
  }

  /** Tapping a floor block of the list as drawn adds exactly one block to the tower, at the
    * slot just above the current top. */
  lemma StackGrowsTower(blocks: seq<Block>, j: nat, towerX: real, bottomY: real)
    requires UniqueIds(blocks) && j < |blocks| && !blocks[j].stacked
    ensures var r := HandleStack(blocks, blocks[j].id, |Stacked(blocks)|, towerX, bottomY);
            && |Stacked(r)| == |Stacked(blocks)| + 1
            && r[j].stacked && r[j].y == bottomY - BLOCK_HEIGHT * (|Stacked(blocks)| as real + 1.0)
            && UniqueIds(r)
  {
    var r := HandleStack(blocks, blocks[j].id, |Stacked(blocks)|, towerX, bottomY);
    forall i | 0 <= i < |blocks| && i != j ensures blocks[i] == r[i] {
      assert blocks[i].id != blocks[j].id;
    }
    OneMoreStacked(blocks, r, j);
  }

  /** `resetStack`: every block goes back to the floor at a new random spot; its id, picture,
    * colour and label stay. */
  function ResetStack(blocks: seq<Block>, width: real, height: real, draws: nat -> (Unit, Unit)): (r: seq<Block>)
    ensures |r| == |blocks|
    ensures forall i :: 0 <= i < |r| ==>
              && !r[i].stacked
              && r[i].id == blocks[i].id && r[i].img == blocks[i].img
              && r[i].color == blocks[i].color && r[i].caption == blocks[i].caption
              && BottomY(height) - 60.0 < r[i].y <= BottomY(height)
              && (width > BLOCK_WIDTH ==> 0.0 <= r[i].x < width - BLOCK_WIDTH)
  {
    var r := seq(|blocks|, i requires 0 <= i < |blocks| => Scattered(blocks[i], width, height, draws(i)));
    assert forall i :: 0 <= i < |r| ==> r[i] == Scattered(blocks[i], width, height, draws(i));
    r
  }

  function Scattered(b: Block, width: real, height: real, draw: (Unit, Unit)): (r: Block)
    ensures !r.stacked && r.id == b.id && r.img == b.img && r.color == b.color && r.caption == b.caption
    ensures BottomY(height) - 60.0 < r.y <= BottomY(height)
    ensures width > BLOCK_WIDTH ==> 0.0 <= r.x < width - BLOCK_WIDTH
  {
    b.(x := FloorX(width, draw.0), y := FloorY(height, draw.1), stacked := false)
  }

  /** After a reset the tower is empty and every block is on the floor. */
  lemma {:induction false} ResetEmptiesTower(blocks: seq<Block>, width: real, height: real, draws: nat -> (Unit, Unit))
    ensures var r := ResetStack(blocks, width, height, draws);
            Stacked(r) == [] && Unstacked(r) == r
  {
    NoneStacked(ResetStack(blocks, width, height, draws));
  }

  lemma {:induction false} NoneStacked(bs: seq<Block>)
    requires forall i :: 0 <= i < |bs| ==> !bs[i].stacked
    ensures Stacked(bs) == [] && Unstacked(bs) == bs
    decreases |bs|
  {
    if bs != [] {
      NoneStacked(bs[1..]);
      assert [bs[0]] + bs[1..] == bs;
    }
  }

  // ---------- the tower as drawn ----------

  predicate SortedById(s: seq<Block>) {
    forall i, j :: 0 <= i < j < |s| ==> s[i].id <= s[j].id
  }

  /** Insert into an id-ordered list after every block with a smaller id. */
  function InsertById(b: Block, s: seq<Block>): (r: seq<Block>)
    ensures multiset(r) == multiset(s) + multiset{b}
    ensures |r| == |s| + 1
    decreases |s|
  {
    if s == [] then [b]
    else if b.id <= s[0].id then [b] + s
    else
      assert s == [s[0]] + s[1..];
      [s[0]] + InsertById(b, s[1..])
  }

  lemma {:induction false} InsertKeepsSorted(b: Block, s: seq<Block>)
    requires SortedById(s)
    ensures SortedById(InsertById(b, s))
    decreases |s|
  {
    if s != [] && b.id > s[0].id {
      InsertKeepsSorted(b, s[1..]);
      var r := InsertById(b, s);
      forall k | 0 < k < |r| ensures s[0].id <= r[k].id {
        assert r[k] in multiset(InsertById(b, s[1..]));
        assert r[k] in multiset(s[1..]) + multiset{b};
        if r[k] != b {
          var m :| 0 <= m < |s[1..]| && s[1..][m] == r[k];
          assert s[m + 1] == r[k];
        }
      }
    }
  }

  /** `stackedBlocks.sort((a, b) => a.id - b.id)`: the stacked blocks in id order. */
  function SortById(s: seq<Block>): (r: seq<Block>)
    ensures multiset(r) == multiset(s) && |r| == |s|
    decreases |s|
  {
    if s == [] then []
    else
      assert s == [s[0]] + s[1..];
      InsertById(s[0], SortById(s[1..]))
  }

  lemma {:induction false} SortByIdSorted(s: seq<Block>)
    ensures SortedById(SortById(s))
    decreases |s|
  {
    if s != [] {
      SortByIdSorted(s[1..]);
      InsertKeepsSorted(s[0], SortById(s[1..]));
    }
  }

  /** A block as the tower draws it. */
  datatype Drawn = Drawn(block: Block, x: real, y: real)

  /** The tower: the stacked blocks in id order, the i-th at `bottomY - BLOCK_HEIGHT * (i + 1)`. */
  function Tower(blocks: seq<Block>, towerX: real, bottomY: real): (t: seq<Drawn>)
    ensures |t| == |Stacked(blocks)|
  {
    var s := SortById(Stacked(blocks));
    seq(|s|, i requires 0 <= i < |s| => Drawn(s[i], towerX, bottomY - BLOCK_HEIGHT * (i as real + 1.0)))
  }

  /** The blocks the tower draws, bottom first. */
  function TowerBlocks(t: seq<Drawn>): (bs: seq<Block>)
    ensures |bs| == |t| && forall i :: 0 <= i < |t| ==> bs[i] == t[i].block
  {
    seq(|t|, i requires 0 <= i < |t| => t[i].block)
  }

  /** The tower holds exactly the stacked blocks, each once, in id order. */
  lemma TowerOrder(blocks: seq<Block>, towerX: real, bottomY: real)
    ensures var bs := TowerBlocks(Tower(blocks, towerX, bottomY));
            multiset(bs) == multiset(Stacked(blocks)) && SortedById(bs)
  {
    var s := SortById(Stacked(blocks));
    SortByIdSorted(Stacked(blocks));
    assert TowerBlocks(Tower(blocks, towerX, bottomY)) == s;
  }

  /** Every tower block is drawn at the tower's x; the lowest sits one block above the floor and
    * each next one exactly one block higher, so no two share a slot and there is no gap. */
  lemma TowerSlots(blocks: seq<Block>, towerX: real, bottomY: real)
    ensures var t := Tower(blocks, towerX, bottomY);
            && (forall i :: 0 <= i < |t| ==> t[i].x == towerX && t[i].block.stacked)
            && (|t| > 0 ==> t[0].y == bottomY - BLOCK_HEIGHT)
            && (forall i :: 0 < i < |t| ==> t[i - 1].y - t[i].y == BLOCK_HEIGHT)
  {
    var s := SortById(Stacked(blocks));
    var t := Tower(blocks, towerX, bottomY);
    forall i | 0 <= i < |t| ensures t[i].block.stacked {
      assert t[i].block == s[i];
      assert s[i] in multiset(Stacked(blocks));
    }
  }
}
