/**
 * The chain reaction, one call at a time: what a bomb together with every bomb it sets off
 * adds to an explosion, and how the pieces of the recursion fit together
 * (src/games/bomberman/bomberman.logic.ts, detonate).
 */
module BombermanChain {
  import opened Wrappers
  import opened BombermanArena
  import opened BombermanBlast

  // ---- bombs that have finished exploding ----

  /** Every bomb that went off since `done` has reached everything it must. */
  ghost predicate NewComplete(done: seq<Bomb>, f: Fire)
    requires GridOk(f.a.cols, f.a.rows, f.a.grid) && GridOk(f.a.cols, f.a.rows, f.start)
  {
    forall b :: b in f.detonated ==> b in done || Complete(f, b)
  }

  lemma NewCompleteGrows(done: seq<Bomb>, f: Fire, g: Fire)
    requires Burning(f) && Grown(f, g) && NewComplete(done, f) && NewComplete(f.detonated, g)
    ensures NewComplete(done, g)
  {
    BurningErodes(f);
    assert GridOk(g.a.cols, g.a.rows, g.a.grid) && GridOk(g.a.cols, g.a.rows, g.start);
    hide Complete, Grown, Burning, Covers, Placed, Erodes;
    forall b | b in g.detonated && b !in done ensures Complete(g, b) {
      if b in f.detonated {
        CompleteGrows(f, g, b);
      }
    }
  }

  lemma BurningErodes(f: Fire)
    requires Burning(f)
    ensures GridOk(f.a.cols, f.a.rows, f.a.grid) && Erodes(f.a.cols, f.a.rows, f.start, f.a.grid)
  {
  }

  lemma ClearStops(f: Fire, b: Bomb, d: int, s: int, k: int)
    requires GridOk(f.a.cols, f.a.rows, f.start) && 1 <= s && TileOn(f.a, f.start, b, d, s) != Empty
    requires Clear(f.a, f.start, b, d, k - 1)
    ensures k <= s
  {
  }

  lemma StopCovers(f: Fire, b: Bomb, d: int, s: int, n: int)
    requires Burning(f) && 1 <= s && Covers(f, b, d, s - 1) && Covered(f, b, d, s)
    ensures Covers(f, b, d, s)
    ensures TileOn(f.a, f.start, b, d, s) != Empty ==> Covers(f, b, d, n)
  {
    if TileOn(f.a, f.start, b, d, s) != Empty {
      forall k | 1 <= k <= n && Clear(f.a, f.start, b, d, k - 1) ensures Covered(f, b, d, k) {
        ClearStops(f, b, d, s, k);
      }
    }
  }

  /** The tile is as it was, unless a brick went. */
  lemma StartTile(f: Fire, b: Bomb, d: int, s: int)
    requires Burning(f)
    ensures TileOn(f.a, f.a.grid, b, d, s) != Empty ==>
      TileOn(f.a, f.start, b, d, s) == TileOn(f.a, f.a.grid, b, d, s)
  {
    assert Erodes(f.a.cols, f.a.rows, f.start, f.a.grid);
    hide Burning;
  }

  lemma BurningPlayers(f: Fire)
    requires Burning(f)
    ensures SeatsOk(f.a.players)
  {
  }

  lemma RayReaches(f: Fire, b: Bomb, d: int, s: int)
    requires Burning(f) && 0 <= d < DIRECTIONS && 1 <= s <= b.flame && Clear(f.a, f.a.grid, b, d, s - 1)
    ensures Hits(f.a, b, StepCol(b, d, s), StepRow(b, d, s))
    ensures TileOn(f.a, f.a.grid, b, d, s) == Empty ==> Reaches(f.a, b, StepCol(b, d, s), StepRow(b, d, s))
    ensures TileOn(f.a, f.a.grid, b, d, s) == Empty ==> Clear(f.a, f.a.grid, b, d, s)
  {
    BurningErodes(f);
    hide Burning, TileIn;
    var c, r := StepCol(b, d, s), StepRow(b, d, s);
    assert OnRay(f.a, f.a.grid, b, c, r, d, s);
    if TileOn(f.a, f.a.grid, b, d, s) == Empty {
      assert Clear(f.a, f.a.grid, b, d, s);
    }
  }

  lemma CenterReaches(f: Fire, b: Bomb)
    requires Burning(f) && b in f.a.bombs
    ensures Reaches(f.a, b, b.col, b.row) && TileAt(f.a, b.col, b.row) == Empty
  {
  }

  /** What one bomb (with the bombs it sets off) leaves behind. */
  ghost predicate Blasted(f: Fire, g: Fire) {
    && Burning(g) && Grown(f, g)
    && Closed(g.rays, g.a.bombs, g.detonated)
    && NewComplete(f.detonated, g)
  }

  lemma BlastedTransitive(f: Fire, g: Fire, h: Fire)
    requires Burning(f) && Burning(g) && Grown(f, g) && NewComplete(f.detonated, g) && Blasted(g, h)
    ensures Blasted(f, h)
  {
    hide Burning, Grown, Closed, Complete;
    BurningErodes(g);
    BurningErodes(h);
    GrownTransitive(f, g, h);
    NewCompleteGrows(f.detonated, g, h);
  }

  lemma ClosedByChain(rays: seq<Lit>, bombs: seq<Bomb>, gone: seq<Bomb>, b: Bomb, col: int, row: int, chained: Option<Bomb>)
    requires Closed(rays, bombs, gone) && b in gone && DistinctCells(bombs)
    requires chained.Some? ==> chained.value in bombs && chained.value.col == col && chained.value.row == row
    requires chained.None? ==> forall x :: x in bombs && x != b && x.col == col && x.row == row ==> x in gone
    ensures Closed(rays + [Lit(col, row, b)], bombs, if chained.Some? then gone + [chained.value] else gone)
  {
    var rays' := rays + [Lit(col, row, b)];
    forall l, x | l in rays' && x in bombs && l.col == x.col && l.row == x.row && x !in gone
      ensures chained.Some? && x == chained.value
    {
      assert l in rays ==> x in gone;
      if chained.Some? {
        var i :| 0 <= i < |bombs| && bombs[i] == x;
        var j :| 0 <= j < |bombs| && bombs[j] == chained.value;
      }
    }
  }

  /** The bomb's own cell and its first `d` directions are covered. */
  ghost predicate BranchesDone(f: Fire, b: Bomb, d: int)
    requires GridOk(f.a.cols, f.a.rows, f.a.grid) && GridOk(f.a.cols, f.a.rows, f.start)
  {
    LitBy(f.rays, b, b.col, b.row) && forall k :: 0 <= k < d ==> Covers(f, b, k, b.flame)
  }

  lemma AlreadyBlasted(f: Fire, b: Bomb)
    requires Burning(f) && Closed(f.rays, f.a.bombs, f.detonated + [b]) && b in f.detonated
    ensures Blasted(f, f)
  {
    hide Placed, SeatsOk, Accounted, Complete;
  }

  lemma MarkedStarts(f: Fire, b: Bomb)
    requires Burning(f) && b in f.a.bombs && b !in f.detonated
    requires b in f.seeds || LitByOther(f.rays, b)
    ensures Burning(Marked(f, b)) && Grown(f, Marked(f, b)) && b in Marked(f, b).detonated
    ensures b in Marked(f, b).a.bombs
    ensures |Unburnt(Marked(f, b))| < |Unburnt(f)|
  {
    MarkKeeps(f, b);
    UnburntShrinks(f, Marked(f, b));
    hide Burning, Grown;
    assert b in Unburnt(f);
  }

  lemma FirstBranch(f: Fire, g: Fire, b: Bomb)
    requires Blasted(f, g) && LitBy(g.rays, b, b.col, b.row)
    ensures GridOk(g.a.cols, g.a.rows, g.a.grid) && GridOk(g.a.cols, g.a.rows, g.start)
    ensures BranchesDone(g, b, 0) && |Unburnt(g)| <= |Unburnt(f)|
  {
    BurningErodes(g);
    UnburntShrinks(f, g);
  }

  lemma StillIn(f: Fire, g: Fire, b: Bomb)
    requires Blasted(f, g) && b in f.detonated
    ensures b in g.detonated && Burning(g) && Closed(g.rays, g.a.bombs, g.detonated)
    ensures GridOk(g.a.cols, g.a.rows, g.a.grid) && GridOk(g.a.cols, g.a.rows, g.start)
  {
    BurningErodes(g);
    hide Burning;
    assert f.detonated <= g.detonated;
  }

  lemma NextBranch(f: Fire, g: Fire, h: Fire, b: Bomb, d: int)
    requires Burning(f) && Burning(g) && Grown(f, g) && Blasted(f, g) && Blasted(g, h)
    requires GridOk(g.a.cols, g.a.rows, g.a.grid) && GridOk(g.a.cols, g.a.rows, g.start)
    requires GridOk(h.a.cols, h.a.rows, h.a.grid) && GridOk(h.a.cols, h.a.rows, h.start)
    requires BranchesDone(g, b, d) && Covers(h, b, d, b.flame)
    ensures Blasted(f, h)
    ensures BranchesDone(h, b, d + 1) && |Unburnt(h)| <= |Unburnt(g)|
  {
    hide *;
    BlastedFacts(f, g);
    BlastedFacts(g, h);
    BlastedTransitive(f, g, h);
    UnburntShrinks(g, h);
    NextBranchCovers(g, h, b, d);
  }

  lemma BlastedFacts(f: Fire, g: Fire)
    requires Blasted(f, g)
    ensures Burning(g) && Grown(f, g) && Erodes(g.a.cols, g.a.rows, g.start, g.a.grid)
    ensures GridOk(g.a.cols, g.a.rows, g.a.grid) && GridOk(g.a.cols, g.a.rows, g.start)
    ensures NewComplete(f.detonated, g)
  {
    BurningErodes(g);
    hide Burning, Grown, Complete;
  }

  lemma NextBranchCovers(g: Fire, h: Fire, b: Bomb, d: int)
    requires Grown(g, h) && Erodes(g.a.cols, g.a.rows, g.start, g.a.grid)
    requires GridOk(h.a.cols, h.a.rows, h.a.grid) && GridOk(h.a.cols, h.a.rows, h.start)
    requires BranchesDone(g, b, d) && Covers(h, b, d, b.flame)
    ensures BranchesDone(h, b, d + 1)
  {
    hide Covers, Erodes;
    forall k | 0 <= k < d ensures Covers(h, b, k, b.flame) {
      CoversGrows(g, h, b, k, b.flame);
    }
    assert g.rays <= h.rays;
  }

  lemma AllBranchesDone(f: Fire, g: Fire, b: Bomb)
    requires Burning(f) && b !in f.detonated && Grown(f, Marked(f, b)) && Blasted(Marked(f, b), g)
    requires GridOk(g.a.cols, g.a.rows, g.a.grid) && GridOk(g.a.cols, g.a.rows, g.start)
    requires BranchesDone(g, b, DIRECTIONS)
    ensures Blasted(f, g) && b in g.detonated
  {
    GrownTransitive(f, Marked(f, b), g);
    assert Complete(g, b);
    hide Burning, Covers, Complete, Closed, Erodes, BombReturned;
    assert Marked(f, b).detonated <= g.detonated;
    forall x | x in g.detonated && x !in f.detonated ensures Complete(g, x) {
      if x in Marked(f, b).detonated {
        assert x == b;
      }
    }
  }

  // ---- one lit cell ----

  lemma LitStarts(f: Fire, b: Bomb, col: int, row: int, chained: Option<Bomb>)
    requires Burning(f) && Closed(f.rays, f.a.bombs, f.detonated)
    requires b in f.detonated && Reaches(f.a, b, col, row) && TileAt(f.a, col, row) == Empty
    requires chained.Some? ==>
      chained.value in f.a.bombs && chained.value !in f.detonated && chained.value != b
      && chained.value.col == col && chained.value.row == row
    requires chained.None? ==>
      forall x :: x in f.a.bombs && x != b && x.col == col && x.row == row ==> x in f.detonated
    ensures var g := Lighted(f, col, row, b);
      && Burning(g) && Grown(f, g) && LitBy(g.rays, b, col, row)
      && (chained.Some? ==> Closed(g.rays, g.a.bombs, g.detonated + [chained.value]) && LitByOther(g.rays, chained.value))
      && (chained.None? ==> Blasted(f, g))
  {
    var g := Lighted(f, col, row, b);
    LightKeeps(f, col, row, b);
    ClosedByChain(f.rays, f.a.bombs, f.detonated, b, col, row, chained);
    BurningErodes(g);
    hide Burning, Grown, Closed, Reaches, TileIn, Complete;
    assert Lit(col, row, b) in g.rays;
  }

  lemma LitEnds(f: Fire, g: Fire, h: Fire, b: Bomb, col: int, row: int)
    requires Burning(f) && Burning(g) && Grown(f, g) && g.detonated == f.detonated && LitBy(g.rays, b, col, row)
    requires Blasted(g, h)
    ensures Blasted(f, h) && LitBy(h.rays, b, col, row)
  {
    BurningErodes(g);
    BlastedTransitive(f, g, h);
    hide Burning, Closed, Complete, Erodes;
    assert g.rays <= h.rays;
  }

  // ---- one step along a ray ----

  /** The ray of `b` in direction `d` has been followed for `n` cells since `f`. */
  ghost predicate Along(f: Fire, g: Fire, b: Bomb, d: int, n: int) {
    Blasted(f, g) && Clear(g.a, g.a.grid, b, d, n) && Covers(g, b, d, n)
  }

  lemma AlongStarts(f: Fire, b: Bomb, d: int)
    requires Burning(f) && Closed(f.rays, f.a.bombs, f.detonated)
    ensures Along(f, f, b, d, 0)
  {
    hide Placed, SeatsOk, Accounted, Complete;
  }

  lemma AlongCanStep(f: Fire, g: Fire, b: Bomb, d: int, s: int)
    requires Along(f, g, b, d, s - 1) && b in f.detonated && 0 <= d < DIRECTIONS && 1 <= s <= b.flame
    ensures Burning(g) && Closed(g.rays, g.a.bombs, g.detonated) && b in g.detonated
    ensures Hits(g.a, b, StepCol(b, d, s), StepRow(b, d, s))
    ensures TileAt(g.a, StepCol(b, d, s), StepRow(b, d, s)) == Empty ==> Reaches(g.a, b, StepCol(b, d, s), StepRow(b, d, s))
  {
    StillIn(f, g, b);
    RayReaches(g, b, d, s);
  }

  lemma AlongSteps(f: Fire, g: Fire, h: Fire, b: Bomb, d: int, s: int)
    requires Burning(f) && Along(f, g, b, d, s - 1) && b in f.detonated && 0 <= d < DIRECTIONS && 1 <= s <= b.flame
    requires TileOn(g.a, g.a.grid, b, d, s) == Empty
    requires Blasted(g, h) && LitBy(h.rays, b, StepCol(b, d, s), StepRow(b, d, s))
    ensures Along(f, h, b, d, s) && |Unburnt(h)| <= |Unburnt(g)|
  {
    BurningErodes(g);
    BurningErodes(h);
    RayReaches(g, b, d, s);
    ClearGrows(g, h, b, d, s);
    CoversGrows(g, h, b, d, s - 1);
    BlastedTransitive(f, g, h);
    UnburntShrinks(g, h);
    assert TileOn(h.a, h.a.grid, b, d, s) == Empty;
    assert Covered(h, b, d, s);
    StopCovers(h, b, d, s, s);
  }

  lemma AlongFacts(f: Fire, g: Fire, b: Bomb, d: int, n: int)
    requires Along(f, g, b, d, n)
    ensures Blasted(f, g) && GridOk(g.a.cols, g.a.rows, g.a.grid) && GridOk(g.a.cols, g.a.rows, g.start)
    ensures Covers(g, b, d, n)
  {
  }

  lemma AlongWall(f: Fire, g: Fire, b: Bomb, d: int, s: int)
    requires Along(f, g, b, d, s - 1) && 1 <= s && TileOn(g.a, g.a.grid, b, d, s) == Wall
    ensures Covers(g, b, d, b.flame)
  {
    BurningErodes(g);
    StartTile(g, b, d, s);
    StopCovers(g, b, d, s, b.flame);
  }

  lemma BrickInside(f: Fire, col: int, row: int)
    requires GridOk(f.a.cols, f.a.rows, f.a.grid) && TileAt(f.a, col, row) == Brick
    ensures Inside(f.a.cols, f.a.rows, col, row)
  {
  }

  lemma AlongBrick(f: Fire, g: Fire, b: Bomb, d: int, s: int, drop: Option<PowerType>)
    requires Burning(f) && Along(f, g, b, d, s - 1) && b in f.detonated && 0 <= d < DIRECTIONS && 1 <= s <= b.flame
    requires TileOn(g.a, g.a.grid, b, d, s) == Brick
    ensures Inside(g.a.cols, g.a.rows, StepCol(b, d, s), StepRow(b, d, s))
    ensures GridOk(g.a.cols, g.a.rows, g.a.grid)
    ensures var h := Broken(g, StepCol(b, d, s), StepRow(b, d, s), drop);
      Blasted(f, h) && Covers(h, b, d, b.flame) && |Unburnt(h)| <= |Unburnt(g)|
  {
    BurningErodes(g);
    AlongCanStep(f, g, b, d, s);
    var h := Broken(g, StepCol(b, d, s), StepRow(b, d, s), drop);
    BreakKeeps(g, StepCol(b, d, s), StepRow(b, d, s), drop, b);
    BreakErodes(g, StepCol(b, d, s), StepRow(b, d, s), drop);
    BurningErodes(h);
    UnburntShrinks(g, h);
    assert Blasted(g, h) by { hide Burning, Grown, Complete; }
    BlastedTransitive(f, g, h);
    CoversGrows(g, h, b, d, s - 1);
    StartTile(g, b, d, s);
    hide Burning, Grown, Blasted, Erodes, Complete;
    assert TileOn(h.a, h.a.grid, b, d, s) == Empty;
    assert Covered(h, b, d, s);
    StopCovers(h, b, d, s, b.flame);
  }
}
