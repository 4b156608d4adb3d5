/**
 * The maps and how a match starts on one (src/games/bomberman/bomberman.logic.ts, createState).
 */
module BombermanMaps {
  import opened Wrappers
  import opened Sorting
  import opened BombermanArena
  import opened BombermanWorld

  /** `layout` is None for the procedural map. */
  datatype MapDef = MapDef(id: string, cols: nat, rows: nat, layout: Option<seq<string>>)

  const CROSS := [
    "#############",
    "#...........#",
    "#.#.#.#.#.#.#",
    "#...........#",
    "#.#.#.###.#.#",
    "#.....#.....#",
    "#.#.#.###.#.#",
    "#...........#",
    "#.#.#.#.#.#.#",
    "#...........#",
    "#############"]

  const MAZE := [
    "###############",
    "#.....#.#.....#",
    "#.###.#.#.###.#",
    "#.#.......#.#.#",
    "#.#.##.##.#.#.#",
    "#.....#.#.....#",
    "##.##.#.#.##.##",
    "#.....#.#.....#",
    "#.#.##.##.#.#.#",
    "#.#.......#.#.#",
    "#.###.#.#.###.#",
    "#.....#.#.....#",
    "###############"]

  const MAPS := [
    MapDef("classic", 13, 11, None),
    MapDef("arena", 15, 13, None),
    MapDef("cross", 13, 11, Some(CROSS)),
    MapDef("maze", 15, 13, Some(MAZE))]

  /** The map of that name, or the first map. */
  function GetMap(id: string): (d: MapDef)
    ensures d in MAPS
  {
    if id == MAPS[1].id then MAPS[1] else if id == MAPS[2].id then MAPS[2] else if id == MAPS[3].id then MAPS[3] else MAPS[0]
  }

  // ---- the fixed part of a map ----

  /** The walls a map prescribes. */
  predicate Solid(d: MapDef, col: nat, row: nat)
  {
    match d.layout
    case Some(lines) =>
      row >= |lines| || col >= |lines[row]| || lines[row][col] == '#'
    case None =>
      col == 0 || row == 0 || col == d.cols - 1 || row == d.rows - 1 || (col % 2 == 0 && row % 2 == 0)
  }

  function Corner(d: MapDef, k: nat): (int, int) {
    match k % 4
    case 0 => (1, 1)
    case 1 => (d.cols - 2, d.rows - 2)
    case 2 => (d.cols - 2, 1)
    case _ => (1, d.rows - 2)
  }

  /** The four corners are different, and far from each other. */
  lemma CornersApart(d: MapDef, i: nat, j: nat)
    requires d in MAPS && i < j < 4
    ensures var ((c, r), (c', r')) := (Corner(d, i), Corner(d, j));
      (c != c' ==> AbsInt(c - c') >= 10) && (r != r' ==> AbsInt(r - r') >= 8) && (c != c' || r != r')
  {
    assert d == MAPS[0] || d == MAPS[1] || d == MAPS[2] || d == MAPS[3];
  }

  function AbsInt(v: int): nat { if v < 0 then -v else v }

  /** A spawn corner or one of its neighbours: kept free of bricks. */
  predicate SpawnSafe(d: MapDef, col: int, row: int) {
    exists k: nat :: k < 4 && AbsInt(Corner(d, k).0 - col) + AbsInt(Corner(d, k).1 - row) <= 1
  }

  lemma CornersOpen(d: MapDef, k: nat)
    requires d in MAPS
    ensures var (c, r) := Corner(d, k); Inside(d.cols, d.rows, c, r) && !Solid(d, c, r) && SpawnSafe(d, c, r)
  {
    var (c, r) := Corner(d, k);
    assert Corner(d, k % 4) == (c, r);
    CornersOpenIn(d, c, r);
  }

  lemma CornersOpenIn(d: MapDef, c: nat, r: nat)
    requires d in MAPS && (c == 1 || c == d.cols - 2) && (r == 1 || r == d.rows - 2)
    ensures Inside(d.cols, d.rows, c, r) && !Solid(d, c, r)
  {
    assert d == MAPS[0] || d == MAPS[1] || d == MAPS[2] || d == MAPS[3];
    assert CROSS[1][1] == '.' && CROSS[1][11] == '.' && CROSS[9][1] == '.' && CROSS[9][11] == '.';
    assert MAZE[1][1] == '.' && MAZE[1][13] == '.' && MAZE[11][1] == '.' && MAZE[11][13] == '.';
    assert |CROSS[1]| == 13 && |CROSS[9]| == 13 && |MAZE[1]| == 15 && |MAZE[11]| == 15;
  }

  // ---- building a grid ----

  /** A finished cell: wall where the map says so, otherwise open or, away from the corners, possibly a brick. */
  predicate CellOk(d: MapDef, t: Tile, col: nat, row: nat) {
    if Solid(d, col, row) then t == Wall else t == Empty || (t == Brick && !SpawnSafe(d, col, row))
  }

  ghost predicate Built(d: MapDef, grid: seq<Tile>) {
    && GridOk(d.cols, d.rows, grid)
    && forall c: nat, r: nat :: c < d.cols && r < d.rows ==> CellOk(d, TileIn(d.cols, d.rows, grid, c, r), c, r)
  }

  /** A player has room at the start: no brick lies on a corner or beside it. */
  lemma CornersHaveRoom(d: MapDef, grid: seq<Tile>, k: nat, col: nat, row: nat)
    requires Built(d, grid) && k < 4 && col < d.cols && row < d.rows
    requires AbsInt(Corner(d, k).0 - col) + AbsInt(Corner(d, k).1 - row) <= 1
    ensures TileIn(d.cols, d.rows, grid, col, row) != Brick
  {
    assert SpawnSafe(d, col, row);
    assert CellOk(d, TileIn(d.cols, d.rows, grid, col, row), col, row);
    hide TileIn;
  }

  /** Cells before (col, row) in reading order. */
  predicate Before(c: nat, r: nat, col: nat, row: nat) { r < row || (r == row && c < col) }

  ghost predicate BuiltBefore(d: MapDef, grid: seq<Tile>, col: nat, row: nat) {
    && GridOk(d.cols, d.rows, grid)
    && forall c: nat, r: nat :: c < d.cols && r < d.rows && Before(c, r, col, row) ==>
         CellOk(d, TileIn(d.cols, d.rows, grid, c, r), c, r)
  }

  lemma CellBuilt(d: MapDef, grid: seq<Tile>, col: nat, row: nat, t: Tile)
    requires col < d.cols && row < d.rows && BuiltBefore(d, grid, col, row) && CellOk(d, t, col, row)
    ensures BuiltBefore(d, grid[Index(d.cols, d.rows, col, row) := t], col + 1, row)
  {
    SetTile(d.cols, d.rows, grid, col, row, t);
    hide CellOk, TileIn;
  }

  lemma RowBuilt(d: MapDef, grid: seq<Tile>, row: nat)
    requires BuiltBefore(d, grid, d.cols, row)
    ensures BuiltBefore(d, grid, 0, row + 1)
  {
    hide CellOk, TileIn;
  }

  lemma AllBuilt(d: MapDef, grid: seq<Tile>)
    requires BuiltBefore(d, grid, 0, d.rows)
    ensures Built(d, grid)
  {
    hide CellOk, TileIn;
  }

  /** Any open cell away from the corners may become a brick. */
  method BuildGrid(d: MapDef) returns (grid: array<Tile>)
    ensures fresh(grid) && Built(d, grid[..])
  {
    grid := new Tile[d.cols * d.rows];
    hide CellOk, TileIn, SpawnSafe, Solid;
    var row := 0;
    while row < d.rows
      invariant row <= d.rows && BuiltBefore(d, grid[..], 0, row)
    {
      var col := 0;
      while col < d.cols
        invariant col <= d.cols && BuiltBefore(d, grid[..], col, row)
      {
        var t := BuildCell(d, col, row);
        CellBuilt(d, grid[..], col, row, t);
        ghost var before := grid[..];
        grid[Index(d.cols, d.rows, col, row)] := t;
        assert grid[..] == before[Index(d.cols, d.rows, col, row) := t];
        col := col + 1;
      }
      RowBuilt(d, grid[..], row);
      row := row + 1;
    }
    AllBuilt(d, grid[..]);
  }

  method BuildCell(d: MapDef, col: nat, row: nat) returns (t: Tile)
    ensures CellOk(d, t, col, row)
  {
    hide SpawnSafe, Solid;
    var lucky: bool := *;
    if Solid(d, col, row) {
      t := Wall;
    } else if !SpawnSafe(d, col, row) && lucky {
      t := Brick;
    } else {
      t := Empty;
    }
  }

  // ---- starting a match ----

  function Spawned(d: MapDef, users: seq<nat>): (r: seq<Player>)
    ensures |r| == |users|
    ensures forall i :: 0 <= i < |users| ==> r[i] == SpawnedAt(d, users[i], i)
  {
    seq(|users|, i requires 0 <= i < |users| => SpawnedAt(d, users[i], i))
  }

  function SpawnedAt(d: MapDef, user: nat, seat: nat): Player {
    Player(user, seat, Corner(d, seat).0 as real, Corner(d, seat).1 as real, true,
      START_BOMBS, START_FLAME, BASE_SPEED, 0, 0, 0, None)
  }

  lemma SpawnClear(d: MapDef, grid: seq<Tile>, k: nat)
    requires d in MAPS && Built(d, grid)
    ensures BoxClear(d.cols, d.rows, grid, Corner(d, k).0 as real, Corner(d, k).1 as real)
  {
    CornersOpen(d, k);
    var (c, r) := Corner(d, k);
    hide Solid, SpawnSafe, MAPS;
    forall x, y | InBox(c as real, r as real, x, y) ensures TileIn(d.cols, d.rows, grid, x, y) == Empty {
      assert x == c && y == r;
    }
  }

  lemma StartIsSane(d: MapDef, grid: seq<Tile>, users: seq<nat>)
    requires d in MAPS && Built(d, grid) && 2 <= |users| <= 4 && Distinct(users)
    ensures Sane(Arena(d.cols, d.rows, grid, Spawned(d, users), [], [], [], []))
  {
    var players := Spawned(d, users);
    forall i | 0 <= i < |players| ensures BoxClear(d.cols, d.rows, grid, players[i].x, players[i].y) {
      SpawnClear(d, grid, i);
    }
    hide BoxClear, Built, MAPS, TileIn, Corner;
  }

  /** A new match: any map, any placing of bricks, players in the corners. */
  method CreateState(mapId: string, users: seq<nat>) returns (w: World)
    requires 2 <= |users| <= 4 && Distinct(users)
    ensures fresh(w) && fresh(w.grid) && w.Valid()
    ensures var d := GetMap(mapId);
      w.cols == d.cols && w.rows == d.rows && Built(d, w.grid[..]) && w.players == Spawned(d, users)
    ensures forall i, j :: 0 <= i < j < |users| ==>
      w.players[i].x != w.players[j].x || w.players[i].y != w.players[j].y
    ensures w.bombs == [] && w.flames == [] && w.powerups == [] && w.deathOrder == []
  {
    var d := GetMap(mapId);
    var grid := BuildGrid(d);
    StartIsSane(d, grid[..], users);
    hide Built, Sane;
    w := new World(d.cols, d.rows, grid, Spawned(d, users));
    forall i, j | 0 <= i < j < |users| ensures w.players[i].x != w.players[j].x || w.players[i].y != w.players[j].y {
      CornersApart(d, i, j);
    }
  }
}
