/**
 * An explosion in progress (src/games/bomberman/bomberman.logic.ts, detonate): what holds
 * between any two of its effects, however bombs set each other off. The world is changed in
 * the middle of the recursion, so everything is stated about the world as it is, next to the
 * grid the explosion started from.
 */
module BombermanBlast {
  import opened Wrappers
  import opened Sorting
  import opened BombermanArena

  /** A cell set on fire, and the bomb whose ray did it. */
  datatype Lit = Lit(col: int, row: int, cause: Bomb)

  datatype Destroyed = Destroyed(col: int, row: int, drop: Option<PowerType>)

  /**
   * The world `a` during an explosion that started at `now` on grid `start` with flames
   * `flames0` and power-ups `powerups0`, and was set off by the bombs `seeds`.
   */
  datatype Fire = Fire(
    a: Arena, start: seq<Tile>, flames0: seq<Flame>, powerups0: seq<PowerUp>, now: int, seeds: set<Bomb>,
    detonated: seq<Bomb>, rays: seq<Lit>, destroyed: seq<Destroyed>)

  // ---- rays ----

  const DIRECTIONS := 4

  function StepCol(b: Bomb, d: int, s: int): int { if d == 0 then b.col + s else if d == 1 then b.col - s else b.col }

  function StepRow(b: Bomb, d: int, s: int): int { if d == 2 then b.row + s else if d == 3 then b.row - s else b.row }

  function TileOn(a: Arena, grid: seq<Tile>, b: Bomb, d: int, s: int): Tile
    requires GridOk(a.cols, a.rows, grid)
  {
    TileIn(a.cols, a.rows, grid, StepCol(b, d, s), StepRow(b, d, s))
  }

  /** The first `n` cells from the bomb in direction `d` are empty. */
  ghost predicate Clear(a: Arena, grid: seq<Tile>, b: Bomb, d: int, n: int)
    requires GridOk(a.cols, a.rows, grid)
  {
    forall j :: 1 <= j <= n ==> TileOn(a, grid, b, d, j) == Empty
  }

  ghost predicate OnRay(a: Arena, grid: seq<Tile>, b: Bomb, col: int, row: int, d: int, s: int)
    requires GridOk(a.cols, a.rows, grid)
  {
    0 <= d < DIRECTIONS && 1 <= s <= b.flame && col == StepCol(b, d, s) && row == StepRow(b, d, s)
  }

  /** The cell is the bomb's own, or within its range with nothing in between. */
  ghost predicate Reaches(a: Arena, b: Bomb, col: int, row: int)
    requires GridOk(a.cols, a.rows, a.grid)
  {
    || (col == b.col && row == b.row)
    || exists d, s :: OnRay(a, a.grid, b, col, row, d, s) && Clear(a, a.grid, b, d, s)
  }

  /** The cell held a brick at the end of one of the bomb's rays. */
  ghost predicate Hits(a: Arena, b: Bomb, col: int, row: int)
    requires GridOk(a.cols, a.rows, a.grid)
  {
    exists d, s :: OnRay(a, a.grid, b, col, row, d, s) && Clear(a, a.grid, b, d, s - 1)
  }

  predicate LitBy(rays: seq<Lit>, b: Bomb, col: int, row: int) { Lit(col, row, b) in rays }

  // ---- the invariant ----

  ghost predicate DetonatedOk(f: Fire) {
    Distinct(f.detonated) && forall b :: b in f.detonated ==> b in f.a.bombs
  }

  /** Every cell on fire was reached by a bomb that went off. */
  ghost predicate RaysOk(f: Fire)
    requires GridOk(f.a.cols, f.a.rows, f.a.grid)
  {
    forall l :: l in f.rays ==> l.cause in f.detonated && Reaches(f.a, l.cause, l.col, l.row)
  }

  ghost predicate LitByOther(rays: seq<Lit>, b: Bomb) {
    exists l :: l in rays && l.col == b.col && l.row == b.row && l.cause != b
  }

  /** The bomb stood on a cell lit by one of `gone`. */
  ghost predicate SetOff(rays: seq<Lit>, gone: seq<Bomb>, b: Bomb) {
    exists l :: l in rays && l.col == b.col && l.row == b.row && l.cause in gone
  }

  /** Every bomb that went off was due or stood on a cell lit by one that went off before it. */
  ghost predicate ChainOk(f: Fire) {
    forall i :: 0 <= i < |f.detonated| ==>
      f.detonated[i] in f.seeds || SetOff(f.rays, f.detonated[..i], f.detonated[i])
  }

  ghost predicate IsDestroyed(destroyed: seq<Destroyed>, col: int, row: int) {
    exists k :: 0 <= k < |destroyed| && destroyed[k].col == col && destroyed[k].row == row
  }

  /** The reported bricks are exactly the ones that vanished, each reported once and hit by a bomb that went off. */
  ghost predicate DestroyedOk(f: Fire)
    requires GridOk(f.a.cols, f.a.rows, f.a.grid) && GridOk(f.a.cols, f.a.rows, f.start)
  {
    && (forall i, j :: 0 <= i < j < |f.destroyed| ==>
         f.destroyed[i].col != f.destroyed[j].col || f.destroyed[i].row != f.destroyed[j].row)
    && (forall c, r :: IsDestroyed(f.destroyed, c, r) <==>
         TileIn(f.a.cols, f.a.rows, f.start, c, r) == Brick && TileAt(f.a, c, r) == Empty)
    && forall x :: x in f.destroyed ==> HitBySome(f, x)
  }

  ghost predicate HitBySome(f: Fire, x: Destroyed)
    requires GridOk(f.a.cols, f.a.rows, f.a.grid)
  {
    exists b :: b in f.detonated && Hits(f.a, b, x.col, x.row)
  }

  function RayFlames(rays: seq<Lit>, until: int): (r: seq<Flame>)
    ensures |r| == |rays|
    ensures forall i :: 0 <= i < |rays| ==> r[i] == Flame(rays[i].col, rays[i].row, until)
  {
    seq(|rays|, i requires 0 <= i < |rays| => Flame(rays[i].col, rays[i].row, until))
  }

  function Drops(destroyed: seq<Destroyed>): seq<PowerUp> {
    if destroyed == [] then []
    else
      var last := destroyed[|destroyed| - 1];
      Drops(destroyed[..|destroyed| - 1]) + if last.drop.Some? then [PowerUp(last.col, last.row, last.drop.value)] else []
  }

  /** Flames and power-ups only get added: one flame for every lit cell, the drops of broken bricks. */
  ghost predicate AddedOk(f: Fire) {
    && f.a.flames == f.flames0 + RayFlames(f.rays, f.now + FLAME_MS)
    && f.a.powerups == f.powerups0 + Drops(f.destroyed)
  }

  ghost predicate Burning(f: Fire) {
    && Placed(f.a) && SeatsOk(f.a.players) && Accounted(f.a.players, f.a.bombs, f.detonated)
    && Erodes(f.a.cols, f.a.rows, f.start, f.a.grid)
    && DetonatedOk(f) && RaysOk(f) && ChainOk(f) && DestroyedOk(f) && AddedOk(f)
  }

  /** No bomb but those that went off stands on a lit cell. */
  ghost predicate Closed(rays: seq<Lit>, bombs: seq<Bomb>, gone: seq<Bomb>) {
    forall l, b :: l in rays && b in bombs && l.col == b.col && l.row == b.row ==> b in gone
  }

  // ---- what a bomb's explosion must cover ----

  /**
   * Up to distance `n` in direction `d`: as far as the grid was clear at the start, its empty
   * cells are lit by this bomb and its first brick is gone.
   */
  ghost predicate Covers(f: Fire, b: Bomb, d: int, n: int)
    requires GridOk(f.a.cols, f.a.rows, f.a.grid) && GridOk(f.a.cols, f.a.rows, f.start)
  {
    forall s :: 1 <= s <= n && Clear(f.a, f.start, b, d, s - 1) ==> Covered(f, b, d, s)
  }

  ghost predicate Covered(f: Fire, b: Bomb, d: int, s: int)
    requires GridOk(f.a.cols, f.a.rows, f.a.grid) && GridOk(f.a.cols, f.a.rows, f.start)
  {
    && (TileOn(f.a, f.start, b, d, s) == Empty ==> LitBy(f.rays, b, StepCol(b, d, s), StepRow(b, d, s)))
    && (TileOn(f.a, f.start, b, d, s) == Brick ==> TileOn(f.a, f.a.grid, b, d, s) == Empty)
  }

  ghost predicate Complete(f: Fire, b: Bomb)
    requires GridOk(f.a.cols, f.a.rows, f.a.grid) && GridOk(f.a.cols, f.a.rows, f.start)
  {
    LitBy(f.rays, b, b.col, b.row) && forall d :: 0 <= d < DIRECTIONS ==> Covers(f, b, d, b.flame)
  }

  // ---- how an explosion proceeds ----

  ghost predicate SamePlayers(a: seq<Player>, b: seq<Player>) {
    |a| == |b| && forall i :: 0 <= i < |a| ==> b[i] == a[i].(bombsOut := b[i].bombsOut)
  }

  ghost predicate Grown(f: Fire, g: Fire) {
    && g.a.cols == f.a.cols && g.a.rows == f.a.rows && g.a.bombs == f.a.bombs && g.a.deathOrder == f.a.deathOrder
    && g.start == f.start && g.flames0 == f.flames0 && g.powerups0 == f.powerups0 && g.now == f.now && g.seeds == f.seeds
    && f.detonated <= g.detonated && f.rays <= g.rays
    && SamePlayers(f.a.players, g.a.players)
    && Erodes(f.a.cols, f.a.rows, f.a.grid, g.a.grid)
  }

  lemma GrownTransitive(f: Fire, g: Fire, h: Fire)
    requires Grown(f, g) && Grown(g, h)
    ensures Grown(f, h)
  {
    ErodesTransitive(f.a.cols, f.a.rows, f.a.grid, g.a.grid, h.a.grid);
    hide Erodes;
  }

  lemma CoversGrows(f: Fire, g: Fire, b: Bomb, d: int, n: int)
    requires Grown(f, g) && Erodes(f.a.cols, f.a.rows, f.start, f.a.grid) && Covers(f, b, d, n)
    ensures Covers(g, b, d, n)
  {
    forall s | 1 <= s <= n && Clear(g.a, g.start, b, d, s - 1) ensures Covered(g, b, d, s) {
      forall j | 1 <= j <= s - 1 ensures TileOn(f.a, f.start, b, d, j) == Empty {
        assert TileOn(g.a, g.start, b, d, j) == Empty;
      }
      assert Covered(f, b, d, s);
      assert TileOn(f.a, f.a.grid, b, d, s) == Empty ==> TileOn(g.a, g.a.grid, b, d, s) == Empty;
    }
  }

  lemma CompleteGrows(f: Fire, g: Fire, b: Bomb)
    requires Grown(f, g) && Erodes(f.a.cols, f.a.rows, f.start, f.a.grid) && Complete(f, b)
    ensures Complete(g, b)
  {
    forall d | 0 <= d < DIRECTIONS ensures Covers(g, b, d, b.flame) {
      CoversGrows(f, g, b, d, b.flame);
    }
  }

  lemma ClearGrows(f: Fire, g: Fire, b: Bomb, d: int, n: int)
    requires Grown(f, g) && Clear(f.a, f.a.grid, b, d, n)
    ensures Clear(g.a, g.a.grid, b, d, n)
  {
    forall j | 1 <= j <= n ensures TileOn(g.a, g.a.grid, b, d, j) == Empty {
      assert TileOn(f.a, f.a.grid, b, d, j) == Empty;
    }
  }

  /** Bombs of this explosion that have not gone off. */
  ghost function Unburnt(f: Fire): set<Bomb> { set b | b in f.a.bombs && b !in f.detonated }

  lemma UnburntShrinks(f: Fire, g: Fire)
    requires Grown(f, g)
    ensures |Unburnt(g)| <= |Unburnt(f)|
    ensures forall b :: b in Unburnt(f) && b in g.detonated ==> |Unburnt(g)| < |Unburnt(f)|
  {
    assert Unburnt(g) <= Unburnt(f);
    SubsetSize(Unburnt(g), Unburnt(f));
    forall b | b in Unburnt(f) && b in g.detonated ensures |Unburnt(g)| < |Unburnt(f)| {
      SubsetSize(Unburnt(g), Unburnt(f) - {b});
    }
  }

  // ---- effect 1: a bomb goes off ----

  function BombReturned(players: seq<Player>, owner: nat): (r: seq<Player>)
    ensures |r| == |players|
    ensures forall i :: 0 <= i < |players| ==>
      r[i] == if players[i].user == owner && players[i].bombsOut > 0
              then players[i].(bombsOut := players[i].bombsOut - 1) else players[i]
  {
    seq(|players|, i requires 0 <= i < |players| =>
      if players[i].user == owner && players[i].bombsOut > 0
      then players[i].(bombsOut := players[i].bombsOut - 1) else players[i])
  }

  function Marked(f: Fire, b: Bomb): Fire {
    f.(a := f.a.(players := BombReturned(f.a.players, b.owner)), detonated := f.detonated + [b])
  }

  lemma {:induction false} LiveNonZero(bombs: seq<Bomb>, gone: seq<Bomb>, b: Bomb)
    requires b in bombs && b !in gone
    ensures Live(bombs, gone, b.owner) > 0
  {
    if bombs[0] != b {
      LiveNonZero(bombs[1..], gone, b);
    }
  }

  lemma MarkKeepsAccounts(f: Fire, b: Bomb)
    requires DistinctCells(f.a.bombs) && Accounted(f.a.players, f.a.bombs, f.detonated)
    requires b in f.a.bombs && b !in f.detonated
    ensures Accounted(Marked(f, b).a.players, f.a.bombs, f.detonated + [b])
  {
    LiveNonZero(f.a.bombs, f.detonated, b);
    forall i | 0 <= i < |f.a.players| ensures
      Marked(f, b).a.players[i].bombsOut == Live(f.a.bombs, f.detonated + [b], f.a.players[i].user) <= f.a.players[i].maxBombs
    {
      LiveMarked(f.a.bombs, f.detonated, b, f.a.players[i].user);
    }
  }

  lemma MarkKeepsPlaced(f: Fire, b: Bomb)
    requires Placed(f.a) && SeatsOk(f.a.players)
    ensures Placed(Marked(f, b).a) && SeatsOk(Marked(f, b).a.players)
  {
    var players := BombReturned(f.a.players, b.owner);
    forall x | x in f.a.bombs ensures Owned(players, x.owner) {
      var i :| 0 <= i < |f.a.players| && f.a.players[i].user == x.owner;
      assert players[i].user == x.owner;
    }
  }

  lemma MarkKeepsReports(f: Fire, b: Bomb)
    requires GridOk(f.a.cols, f.a.rows, f.a.grid) && GridOk(f.a.cols, f.a.rows, f.start)
    requires RaysOk(f) && DestroyedOk(f)
    ensures RaysOk(Marked(f, b)) && DestroyedOk(Marked(f, b))
  {
    var g := Marked(f, b);
    hide GridOk, Reaches, Hits, TileIn;
    forall x | x in g.destroyed ensures HitBySome(g, x) {
      assert HitBySome(f, x);
      var o :| o in f.detonated && Hits(f.a, o, x.col, x.row);
      SameReach(f.a, g.a, o, x.col, x.row);
      assert o in g.detonated;
    }
    forall l | l in g.rays ensures l.cause in g.detonated && Reaches(g.a, l.cause, l.col, l.row) {
      SameReach(f.a, g.a, l.cause, l.col, l.row);
    }
  }

  /** A bomb goes off: it is counted once and its owner may place another. */
  lemma MarkKeeps(f: Fire, b: Bomb)
    requires Burning(f) && b in f.a.bombs && b !in f.detonated
    requires b in f.seeds || LitByOther(f.rays, b)
    ensures Burning(Marked(f, b)) && Grown(f, Marked(f, b))
  {
    MarkKeepsAccounts(f, b);
    MarkKeepsPlaced(f, b);
    MarkKeepsReports(f, b);
    MarkKeepsChain(f, b);
    MarkGrows(f, b);
    hide Placed, SeatsOk, Accounted, RaysOk, DestroyedOk, DetonatedOk, ChainOk, AddedOk, Grown;
    hide Erodes, RayFlames, Drops, LitByOther, GridOk, BombReturned;
  }

  lemma MarkKeepsChain(f: Fire, b: Bomb)
    requires DetonatedOk(f) && ChainOk(f) && AddedOk(f) && b in f.a.bombs && b !in f.detonated
    requires b in f.seeds || LitByOther(f.rays, b)
    requires forall l :: l in f.rays ==> l.cause in f.detonated
    ensures DetonatedOk(Marked(f, b)) && ChainOk(Marked(f, b)) && AddedOk(Marked(f, b))
  {
    hide RayFlames, Drops, BombReturned;
    var g := Marked(f, b);
    assert b !in f.seeds ==> SetOff(f.rays, f.detonated, b);
    hide SetOff, LitByOther;
    forall i | 0 <= i < |g.detonated| ensures g.detonated[i] in g.seeds || SetOff(g.rays, g.detonated[..i], g.detonated[i]) {
      assert g.detonated[..i] == f.detonated[..i];
      assert f.detonated[..|f.detonated|] == f.detonated;
    }
  }

  lemma MarkGrows(f: Fire, b: Bomb)
    requires GridOk(f.a.cols, f.a.rows, f.a.grid)
    ensures Grown(f, Marked(f, b))
  {
    hide GridOk, TileIn;
  }

  lemma SameReach(a: Arena, a': Arena, b: Bomb, col: int, row: int)
    requires a'.cols == a.cols && a'.rows == a.rows && a'.grid == a.grid && GridOk(a.cols, a.rows, a.grid)
    ensures Reaches(a', b, col, row) == Reaches(a, b, col, row)
    ensures Hits(a', b, col, row) == Hits(a, b, col, row)
  {
    forall d, n ensures Clear(a', a'.grid, b, d, n) == Clear(a, a.grid, b, d, n) {
      assert forall j :: TileOn(a', a'.grid, b, d, j) == TileOn(a, a.grid, b, d, j);
    }
    assert forall d, s :: OnRay(a', a'.grid, b, col, row, d, s) == OnRay(a, a.grid, b, col, row, d, s);
  }

  // ---- effect 2: a cell catches fire ----

  function Lighted(f: Fire, col: int, row: int, cause: Bomb): Fire {
    f.(a := f.a.(flames := f.a.flames + [Flame(col, row, f.now + FLAME_MS)]), rays := f.rays + [Lit(col, row, cause)])
  }

  lemma LightedUnburnt(f: Fire, col: int, row: int, cause: Bomb)
    ensures Unburnt(Lighted(f, col, row, cause)) == Unburnt(f)
  {
  }

  lemma LightKeeps(f: Fire, col: int, row: int, cause: Bomb)
    requires Burning(f) && cause in f.detonated && Reaches(f.a, cause, col, row) && TileAt(f.a, col, row) == Empty
    ensures Burning(Lighted(f, col, row, cause)) && Grown(f, Lighted(f, col, row, cause))
  {
    var g := Lighted(f, col, row, cause);
    assert GridOk(f.a.cols, f.a.rows, f.a.grid);
    assert RayFlames(g.rays, g.now + FLAME_MS) == RayFlames(f.rays, f.now + FLAME_MS) + [Flame(col, row, f.now + FLAME_MS)];
    assert f.rays <= g.rays;
    LightKeepsChain(f, col, row, cause);
    hide SeatsOk, Accounted, GridOk, Reaches, Hits, TileIn, ChainOk;
    forall x | x in g.destroyed ensures HitBySome(g, x) {
      assert HitBySome(f, x);
      var o :| o in f.detonated && Hits(f.a, o, x.col, x.row);
      SameReach(f.a, g.a, o, x.col, x.row);
    }
    forall l | l in g.rays ensures l.cause in g.detonated && Reaches(g.a, l.cause, l.col, l.row) {
      SameReach(f.a, g.a, l.cause, l.col, l.row);
    }
  }

  lemma LightKeepsChain(f: Fire, col: int, row: int, cause: Bomb)
    requires ChainOk(f)
    ensures ChainOk(Lighted(f, col, row, cause))
  {
    var g := Lighted(f, col, row, cause);
    forall i | 0 <= i < |g.detonated| && SetOff(f.rays, f.detonated[..i], f.detonated[i])
      ensures SetOff(g.rays, g.detonated[..i], g.detonated[i])
    {
      var l :| l in f.rays && l.col == f.detonated[i].col && l.row == f.detonated[i].row && l.cause in f.detonated[..i];
      assert l in g.rays;
    }
  }

  // ---- effect 3: a brick breaks ----

  function Broken(f: Fire, col: int, row: int, drop: Option<PowerType>): Fire
    requires Inside(f.a.cols, f.a.rows, col, row) && GridOk(f.a.cols, f.a.rows, f.a.grid)
  {
    f.(a := f.a.(grid := f.a.grid[Index(f.a.cols, f.a.rows, col, row) := Empty],
                 powerups := f.a.powerups + if drop.Some? then [PowerUp(col, row, drop.value)] else []),
       destroyed := f.destroyed + [Destroyed(col, row, drop)])
  }

  lemma BreakErodes(f: Fire, col: int, row: int, drop: Option<PowerType>)
    requires Inside(f.a.cols, f.a.rows, col, row) && GridOk(f.a.cols, f.a.rows, f.a.grid)
    requires TileAt(f.a, col, row) == Brick
    ensures var g := Broken(f, col, row, drop);
      && GridOk(g.a.cols, g.a.rows, g.a.grid)
      && Erodes(f.a.cols, f.a.rows, f.a.grid, g.a.grid)
      && forall c, r :: TileAt(g.a, c, r) == if c == col && r == row then Empty else TileAt(f.a, c, r)
  {
    SetTile(f.a.cols, f.a.rows, f.a.grid, col, row, Empty);
  }

  lemma BreakKeepsPlaced(f: Fire, col: int, row: int, drop: Option<PowerType>)
    requires Placed(f.a) && Inside(f.a.cols, f.a.rows, col, row) && TileAt(f.a, col, row) == Brick
    ensures Placed(Broken(f, col, row, drop).a)
  {
    BreakErodes(f, col, row, drop);
    var a, a' := f.a, Broken(f, col, row, drop).a;
    hide TileIn, GridOk;
    forall u | u in a'.powerups ensures TileAt(a', u.col, u.row) == Empty {
      assert u in a.powerups || (u.col == col && u.row == row);
    }
    forall i, j | 0 <= i < j < |a'.powerups|
      ensures a'.powerups[i].col != a'.powerups[j].col || a'.powerups[i].row != a'.powerups[j].row
    {
      var x := a'.powerups[i];
      assert x == a.powerups[i] && x in a.powerups;
    }
  }

  lemma ReachGrows(f: Fire, g: Fire, b: Bomb, col: int, row: int)
    requires Grown(f, g)
    ensures Reaches(f.a, b, col, row) ==> Reaches(g.a, b, col, row)
    ensures Hits(f.a, b, col, row) ==> Hits(g.a, b, col, row)
  {
    forall d, n | Clear(f.a, f.a.grid, b, d, n) ensures Clear(g.a, g.a.grid, b, d, n) {
      ClearGrows(f, g, b, d, n);
    }
    hide Clear, Grown;
    if Hits(f.a, b, col, row) {
      var d, s :| OnRay(f.a, f.a.grid, b, col, row, d, s) && Clear(f.a, f.a.grid, b, d, s - 1);
      assert OnRay(g.a, g.a.grid, b, col, row, d, s) && Clear(g.a, g.a.grid, b, d, s - 1);
    }
    if Reaches(f.a, b, col, row) && !(col == b.col && row == b.row) {
      var d, s :| OnRay(f.a, f.a.grid, b, col, row, d, s) && Clear(f.a, f.a.grid, b, d, s);
      assert OnRay(g.a, g.a.grid, b, col, row, d, s) && Clear(g.a, g.a.grid, b, d, s);
    }
  }

  lemma BreakKeepsDestroyed(f: Fire, col: int, row: int, drop: Option<PowerType>, cause: Bomb)
    requires Placed(f.a) && Erodes(f.a.cols, f.a.rows, f.start, f.a.grid) && DestroyedOk(f)
    requires Inside(f.a.cols, f.a.rows, col, row) && TileAt(f.a, col, row) == Brick
    requires cause in f.detonated && Hits(f.a, cause, col, row)
    requires Grown(f, Broken(f, col, row, drop))
    ensures DestroyedOk(Broken(f, col, row, drop))
  {
    var g := Broken(f, col, row, drop);
    BreakErodes(f, col, row, drop);
    assert !IsDestroyed(f.destroyed, col, row);
    hide Placed, Hits, GridOk;
    forall c, r ensures IsDestroyed(g.destroyed, c, r) <==>
      TileIn(g.a.cols, g.a.rows, g.start, c, r) == Brick && TileAt(g.a, c, r) == Empty
    {
      assert IsDestroyed(g.destroyed, c, r) <==> IsDestroyed(f.destroyed, c, r) || (c == col && r == row) by {
        if c == col && r == row {
          assert g.destroyed[|f.destroyed|].col == c;
        }
        if IsDestroyed(f.destroyed, c, r) {
          var k :| 0 <= k < |f.destroyed| && f.destroyed[k].col == c && f.destroyed[k].row == r;
          assert g.destroyed[k] == f.destroyed[k];
        }
      }
    }
    forall x | x in g.destroyed ensures HitBySome(g, x) {
      if x in f.destroyed {
        assert HitBySome(f, x);
        var o :| o in f.detonated && Hits(f.a, o, x.col, x.row);
        ReachGrows(f, g, o, x.col, x.row);
      } else {
        ReachGrows(f, g, cause, x.col, x.row);
      }
    }
  }

  /** A brick breaks: its cell opens and may hold a power-up. */
  lemma BreakKeeps(f: Fire, col: int, row: int, drop: Option<PowerType>, cause: Bomb)
    requires Burning(f) && Inside(f.a.cols, f.a.rows, col, row) && TileAt(f.a, col, row) == Brick
    requires cause in f.detonated && Hits(f.a, cause, col, row)
    ensures Burning(Broken(f, col, row, drop)) && Grown(f, Broken(f, col, row, drop))
  {
    var g := Broken(f, col, row, drop);
    BreakErodes(f, col, row, drop);
    assert Grown(f, g) by { hide Erodes; }
    BreakKeepsPlaced(f, col, row, drop);
    BreakKeepsDestroyed(f, col, row, drop, cause);
    ErodesTransitive(f.a.cols, f.a.rows, f.start, f.a.grid, g.a.grid);
    assert g.destroyed[..|f.destroyed|] == f.destroyed;
    hide Placed, SeatsOk, Accounted, Erodes, DestroyedOk, GridOk, Reaches, Hits, TileIn;
    forall l | l in g.rays ensures l.cause in g.detonated && Reaches(g.a, l.cause, l.col, l.row) {
      ReachGrows(f, g, l.cause, l.col, l.row);
    }
  }
}
