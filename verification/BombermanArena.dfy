/**
 * The Bomberman world as a value (src/games/bomberman/bomberman.logic.ts): what it is made
 * of and what is true of it after every operation.
 *
 * Positions are exact reals in tile coordinates; tile `c` spans [c - 0.5, c + 0.5).
 */
module BombermanArena {
  import opened Wrappers
  import opened Sorting
  import opened Rounding

  datatype Tile = Empty | Wall | Brick

  datatype PowerType = MoreBombs | MoreFlame | MoreSpeed

  datatype Player = Player(
    user: nat, seat: nat, x: real, y: real, alive: bool,
    maxBombs: nat, flame: nat, speed: real, bombsOut: nat,
    dx: int, dy: int, standing: Option<(int, int)>)

  datatype Bomb = Bomb(owner: nat, col: int, row: int, flame: nat, fuseAt: int)

  datatype Flame = Flame(col: int, row: int, until: int)

  datatype PowerUp = PowerUp(col: int, row: int, kind: PowerType)

  datatype Arena = Arena(
    cols: nat, rows: nat, grid: seq<Tile>,
    players: seq<Player>, bombs: seq<Bomb>, flames: seq<Flame>, powerups: seq<PowerUp>,
    deathOrder: seq<nat>)

  const FUSE_MS := 2200
  const FLAME_MS := 600
  const PLAYER_RADIUS := 0.34
  const BASE_SPEED := 4.2
  const SPEED_STEP := 0.9
  const MAX_SPEED := 8.0
  const START_BOMBS := 1
  const START_FLAME := 2
  const MAX_BOMBS := 8
  const MAX_FLAME := 9

  // ---- tiles ----

  predicate Inside(cols: nat, rows: nat, col: int, row: int) {
    0 <= col < cols && 0 <= row < rows
  }

  function Index(cols: nat, rows: nat, col: int, row: int): (i: nat)
    requires Inside(cols, rows, col, row)
    ensures i < cols * rows
  {
    IndexBound(cols, rows, col, row);
    row * cols + col
  }

  lemma IndexBound(cols: nat, rows: nat, col: int, row: int)
    requires Inside(cols, rows, col, row)
    ensures 0 <= row * cols + col < cols * rows
  {
    assert row * cols + col < (row + 1) * cols;
    assert (row + 1) * cols <= rows * cols;
  }

  lemma RowsApart(n: nat, k: int)
    requires k >= 1
    ensures k * n >= n
  {
  }

  lemma SameIndex(cols: nat, col: int, row: int, col': int, row': int)
    requires 0 <= col < cols && 0 <= col' < cols && row * cols + col == row' * cols + col'
    ensures row == row' && col == col'
  {
    assert (row - row') * cols == row * cols - row' * cols;
    assert (row' - row) * cols == row' * cols - row * cols;
    if row > row' {
      RowsApart(cols, row - row');
    } else if row < row' {
      RowsApart(cols, row' - row);
    }
  }

  lemma IndexInjective(cols: nat, rows: nat, col: int, row: int, col': int, row': int)
    requires Inside(cols, rows, col, row) && Inside(cols, rows, col', row')
    requires Index(cols, rows, col, row) == Index(cols, rows, col', row')
    ensures col == col' && row == row'
  {
    SameIndex(cols, col, row, col', row');
  }

  predicate GridOk(cols: nat, rows: nat, grid: seq<Tile>) { |grid| == cols * rows }

  /** Everything outside the map is wall. */
  function TileIn(cols: nat, rows: nat, grid: seq<Tile>, col: int, row: int): Tile
    requires GridOk(cols, rows, grid)
  {
    if Inside(cols, rows, col, row) then grid[Index(cols, rows, col, row)] else Wall
  }

  function TileAt(a: Arena, col: int, row: int): Tile
    requires GridOk(a.cols, a.rows, a.grid)
  {
    TileIn(a.cols, a.rows, a.grid, col, row)
  }

  lemma SetTile(cols: nat, rows: nat, grid: seq<Tile>, col: int, row: int, t: Tile)
    requires GridOk(cols, rows, grid) && Inside(cols, rows, col, row)
    ensures var grid' := grid[Index(cols, rows, col, row) := t];
      && GridOk(cols, rows, grid')
      && forall c, r :: TileIn(cols, rows, grid', c, r) == if c == col && r == row then t else TileIn(cols, rows, grid, c, r)
  {
    var grid' := grid[Index(cols, rows, col, row) := t];
    forall c, r ensures TileIn(cols, rows, grid', c, r) == if c == col && r == row then t else TileIn(cols, rows, grid, c, r) {
      if Inside(cols, rows, c, r) && Index(cols, rows, c, r) == Index(cols, rows, col, row) {
        IndexInjective(cols, rows, c, r, col, row);
      }
    }
  }

  /** Walls never change and bricks only vanish. */
  ghost predicate Erodes(cols: nat, rows: nat, before: seq<Tile>, after: seq<Tile>) {
    && GridOk(cols, rows, before) && GridOk(cols, rows, after)
    && forall c, r ::
         TileIn(cols, rows, after, c, r) == TileIn(cols, rows, before, c, r)
         || (TileIn(cols, rows, before, c, r) == Brick && TileIn(cols, rows, after, c, r) == Empty)
  }

  lemma ErodesTransitive(cols: nat, rows: nat, a: seq<Tile>, b: seq<Tile>, c: seq<Tile>)
    requires Erodes(cols, rows, a, b) && Erodes(cols, rows, b, c)
    ensures Erodes(cols, rows, a, c)
  {
    forall x, y
      ensures TileIn(cols, rows, c, x, y) == TileIn(cols, rows, a, x, y)
        || (TileIn(cols, rows, a, x, y) == Brick && TileIn(cols, rows, c, x, y) == Empty)
    {
      assert TileIn(cols, rows, b, x, y) == TileIn(cols, rows, b, x, y);
    }
  }

  // ---- bodies ----

  /** The tiles a player's box covers. */
  predicate InBox(x: real, y: real, col: int, row: int) {
    && RoundJs(x - PLAYER_RADIUS) <= col <= RoundJs(x + PLAYER_RADIUS)
    && RoundJs(y - PLAYER_RADIUS) <= row <= RoundJs(y + PLAYER_RADIUS)
  }

  /** No wall, brick or outside of the map under the box. */
  ghost predicate BoxClear(cols: nat, rows: nat, grid: seq<Tile>, x: real, y: real)
    requires GridOk(cols, rows, grid)
  {
    forall c, r :: InBox(x, y, c, r) ==> TileIn(cols, rows, grid, c, r) == Empty
  }

  lemma ErosionKeepsClear(cols: nat, rows: nat, before: seq<Tile>, after: seq<Tile>, x: real, y: real)
    requires Erodes(cols, rows, before, after) && BoxClear(cols, rows, before, x, y)
    ensures BoxClear(cols, rows, after, x, y)
  {
    forall c, r | InBox(x, y, c, r) ensures TileIn(cols, rows, after, c, r) == Empty {
      assert TileIn(cols, rows, before, c, r) == Empty;
    }
  }

  lemma CentreInBox(x: real, y: real)
    ensures InBox(x, y, RoundJs(x), RoundJs(y))
  {
  }

  // ---- bombs and their owners ----

  /** Bombs of `owner` that have not gone off yet. */
  function Live(bombs: seq<Bomb>, gone: seq<Bomb>, owner: nat): nat {
    if bombs == [] then 0
    else (if bombs[0].owner == owner && bombs[0] !in gone then 1 else 0) + Live(bombs[1..], gone, owner)
  }

  predicate IsBombAt(bombs: seq<Bomb>, col: int, row: int) {
    exists i :: 0 <= i < |bombs| && bombs[i].col == col && bombs[i].row == row
  }

  ghost predicate DistinctCells(bombs: seq<Bomb>) {
    forall i, j :: 0 <= i < j < |bombs| ==> bombs[i].col != bombs[j].col || bombs[i].row != bombs[j].row
  }

  lemma {:induction false} LiveMarked(bombs: seq<Bomb>, gone: seq<Bomb>, b: Bomb, owner: nat)
    requires DistinctCells(bombs) && b !in gone
    ensures Live(bombs, gone + [b], owner) == Live(bombs, gone, owner) - if b in bombs && b.owner == owner then 1 else 0
  {
    if bombs != [] {
      LiveMarked(bombs[1..], gone, b, owner);
      if bombs[0] == b {
        forall i | 0 <= i < |bombs[1..]| ensures bombs[1..][i] != b {
          assert bombs[1..][i] == bombs[i + 1];
        }
      }
    }
  }

  lemma {:induction false} LiveAppended(bombs: seq<Bomb>, b: Bomb, owner: nat)
    ensures Live(bombs + [b], [], owner) == Live(bombs, [], owner) + if b.owner == owner then 1 else 0
  {
    if bombs != [] {
      assert (bombs + [b])[1..] == bombs[1..] + [b];
      LiveAppended(bombs[1..], b, owner);
    }
  }

  /** The bombs that are not among `gone`, in order. */
  function Remaining(bombs: seq<Bomb>, gone: seq<Bomb>): (r: seq<Bomb>)
    ensures forall b :: b in r <==> b in bombs && b !in gone
  {
    if bombs == [] then []
    else (if bombs[0] in gone then [] else [bombs[0]]) + Remaining(bombs[1..], gone)
  }

  lemma {:induction false} RemainingLive(bombs: seq<Bomb>, gone: seq<Bomb>, owner: nat)
    ensures Live(Remaining(bombs, gone), [], owner) == Live(bombs, gone, owner)
  {
    if bombs != [] {
      RemainingLive(bombs[1..], gone, owner);
      if bombs[0] !in gone {
        assert Remaining(bombs, gone)[1..] == Remaining(bombs[1..], gone);
      } else {
        assert Remaining(bombs, gone) == Remaining(bombs[1..], gone);
      }
    }
  }

  lemma {:induction false} RemainingDistinct(bombs: seq<Bomb>, gone: seq<Bomb>)
    requires DistinctCells(bombs)
    ensures DistinctCells(Remaining(bombs, gone))
  {
    if bombs != [] {
      var rest := Remaining(bombs[1..], gone);
      RemainingDistinct(bombs[1..], gone);
      forall i | 0 <= i < |rest| ensures rest[i].col != bombs[0].col || rest[i].row != bombs[0].row {
        var x := rest[i];
        assert x in bombs[1..];
        var k :| 0 <= k < |bombs[1..]| && bombs[1..][k] == x;
        assert bombs[k + 1] == x;
      }
    }
  }

  // ---- the invariant of the world ----

  /** The world apart from bomb ownership and deaths. */
  ghost predicate Placed(a: Arena) {
    && GridOk(a.cols, a.rows, a.grid)
    && DistinctCells(a.bombs)
    && (forall b :: b in a.bombs ==> TileAt(a, b.col, b.row) == Empty && Owned(a.players, b.owner))
    && (forall f :: f in a.flames ==> TileAt(a, f.col, f.row) == Empty)
    && PowerupsOk(a)
  }

  ghost predicate PowerupsOk(a: Arena)
    requires GridOk(a.cols, a.rows, a.grid)
  {
    && (forall u :: u in a.powerups ==> TileAt(a, u.col, u.row) == Empty)
    && forall i, j :: 0 <= i < j < |a.powerups| ==>
         a.powerups[i].col != a.powerups[j].col || a.powerups[i].row != a.powerups[j].row
  }

  predicate Owned(players: seq<Player>, owner: nat) {
    exists i :: 0 <= i < |players| && players[i].user == owner
  }

  ghost predicate Fit(p: Player) {
    && START_BOMBS <= p.maxBombs <= MAX_BOMBS
    && START_FLAME <= p.flame <= MAX_FLAME
    && BASE_SPEED <= p.speed <= MAX_SPEED
    && -1 <= p.dx <= 1 && -1 <= p.dy <= 1
  }

  /** Two to four different players, seated in order. */
  ghost predicate SeatsOk(players: seq<Player>) {
    && 2 <= |players| <= 4
    && (forall i :: 0 <= i < |players| ==> players[i].seat == i && Fit(players[i]))
    && forall i, j :: 0 <= i < j < |players| ==> players[i].user != players[j].user
  }

  /** Every player's `bombsOut` is the number of live bombs they own, and within their limit. */
  ghost predicate Accounted(players: seq<Player>, bombs: seq<Bomb>, gone: seq<Bomb>) {
    forall i :: 0 <= i < |players| ==>
      players[i].bombsOut == Live(bombs, gone, players[i].user) <= players[i].maxBombs
  }

  ghost predicate BodiesClear(a: Arena)
    requires GridOk(a.cols, a.rows, a.grid)
  {
    forall i :: 0 <= i < |a.players| ==> BoxClear(a.cols, a.rows, a.grid, a.players[i].x, a.players[i].y)
  }

  /** The death order names exactly the dead, once each. */
  ghost predicate DeathsOk(players: seq<Player>, deathOrder: seq<nat>) {
    && Distinct(deathOrder)
    && forall s: nat :: s in deathOrder <==> s < |players| && !players[s].alive
  }

  ghost predicate Sane(a: Arena) {
    && Placed(a)
    && SeatsOk(a.players)
    && Accounted(a.players, a.bombs, [])
    && BodiesClear(a)
    && DeathsOk(a.players, a.deathOrder)
  }

  // ---- small changes that keep the world sane ----

  lemma OwnersStay(players: seq<Player>, players': seq<Player>, owner: nat)
    requires |players| == |players'| && forall i :: 0 <= i < |players| ==> players'[i].user == players[i].user
    ensures Owned(players, owner) ==> Owned(players', owner)
  {
    if Owned(players, owner) {
      var i :| 0 <= i < |players| && players[i].user == owner;
      assert players'[i].user == owner;
    }
  }

  /** A player may move, turn or get stronger without anything else being affected. */
  lemma PlayerReplaced(a: Arena, i: nat, q: Player)
    requires Sane(a) && i < |a.players| && Fit(q)
    requires q.user == a.players[i].user && q.seat == a.players[i].seat && q.alive == a.players[i].alive
    requires q.bombsOut == a.players[i].bombsOut && q.maxBombs >= a.players[i].maxBombs
    requires BoxClear(a.cols, a.rows, a.grid, q.x, q.y)
    ensures Sane(a.(players := a.players[i := q]))
  {
    var a' := a.(players := a.players[i := q]);
    hide BoxClear, TileIn, GridOk, Live, Distinct, Owned, Fit;
    forall x | x in a.bombs ensures Owned(a'.players, x.owner) {
      OwnersStay(a.players, a'.players, x.owner);
    }
  }
}
