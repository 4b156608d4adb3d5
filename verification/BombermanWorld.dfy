/**
 * The Bomberman world changed in place (src/games/bomberman/bomberman.logic.ts): bombs that
 * set each other off, and the tick that runs them.
 */
module BombermanWorld {
  import opened Wrappers
  import opened Rounding
  import opened BombermanArena
  import opened BombermanBlast
  import opened BombermanChain
  import opened BombermanRays
  import opened BombermanMovement
  import opened BombermanTick

  class Explosion {
    const now: int
    var detonated: seq<Bomb>
    var destroyed: seq<Destroyed>
    ghost const start: seq<Tile>
    ghost const flames0: seq<Flame>
    ghost const powerups0: seq<PowerUp>
    ghost const seeds: set<Bomb>
    ghost var rays: seq<Lit>
    ghost var log: seq<Hit>

    /** The log says what was lit and broken, no more and no less. */
    ghost predicate Told()
      reads this
    {
      Logged(rays, destroyed, log, detonated)
    }

    constructor (now: int, ghost a: Arena, ghost seeds: set<Bomb>)
      ensures this.now == now && detonated == [] && destroyed == [] && rays == [] && log == []
      ensures start == a.grid && flames0 == a.flames && powerups0 == a.powerups && this.seeds == seeds
    {
      this.now, detonated, destroyed := now, [], [];
      start, flames0, powerups0, this.seeds, rays, log := a.grid, a.flames, a.powerups, seeds, [], [];
    }
  }

  /** The log of a finished explosion: what every bomb's four arms did, to their ends. */
  ghost predicate ToldOf(e: Explosion, g: Fire)
    reads e
  {
    && e.Told() && e.rays == g.rays && e.start == g.start
    && GridOk(g.a.cols, g.a.rows, e.start) && NewOver(g.a.cols, g.a.rows, e.start, e.log, [], e.detonated)
  }

  /** Every arm of every bomb of the explosion lit the cells up to where it stopped and none behind. */
  lemma EveryArmIsExact(e: Explosion, g: Fire, b: Bomb, d: int)
    requires ToldOf(e, g) && e.detonated == g.detonated && e.destroyed == g.destroyed
    requires b in g.detonated && 0 <= d < DIRECTIONS
    ensures GridOk(g.a.cols, g.a.rows, g.start)
    ensures exists n: nat :: LitExactly(g.a.cols, g.a.rows, g.start, g.rays, g.destroyed, b, d, n)
  {
    hide Logged, ArmOver, GridOk, LitExactly;
    assert ArmsOver(g.a.cols, g.a.rows, e.start, e.log, b, DIRECTIONS);
    ArmIsExact(g.a.cols, g.a.rows, g.start, g.rays, g.destroyed, e.log, g.detonated, b, d);
  }

  /** Every brick that went was the end of the arm that broke it. */
  lemma EveryBrickEndsAnArm(e: Explosion, g: Fire, x: Destroyed)
    requires ToldOf(e, g) && e.detonated == g.detonated && e.destroyed == g.destroyed && x in g.destroyed
    ensures GridOk(g.a.cols, g.a.rows, g.start)
    ensures exists b, d, n: nat :: b in g.detonated && EndsWith(g.a.cols, g.a.rows, g.start, g.rays, g.destroyed, b, d, n, x)
  {
    BrickHasArm(g.a.cols, g.a.rows, g.start, g.rays, g.destroyed, e.log, g.detonated, x);
    hide EndsWith, GridOk;
  }

  class World {
    const cols: nat
    const rows: nat
    const grid: array<Tile>
    var players: seq<Player>
    var bombs: seq<Bomb>
    var flames: seq<Flame>
    var powerups: seq<PowerUp>
    var deathOrder: seq<nat>

    ghost function View(): Arena
      reads this, grid
    {
      Arena(cols, rows, grid[..], players, bombs, flames, powerups, deathOrder)
    }

    ghost predicate Valid()
      reads this, grid
    {
      Sane(View())
    }

    ghost function FireOf(e: Explosion): Fire
      reads this, grid, e
    {
      Fire(View(), e.start, e.flames0, e.powerups0, e.now, e.seeds, e.detonated, e.rays, e.destroyed)
    }

    /** A world on a freshly built grid, with nothing in it but its players. */
    constructor (cols: nat, rows: nat, grid: array<Tile>, players: seq<Player>)
      ensures this.grid == grid
      ensures View() == Arena(cols, rows, grid[..], players, [], [], [], [])
    {
      this.cols, this.rows, this.grid, this.players := cols, rows, grid, players;
      bombs, flames, powerups, deathOrder := [], [], [], [];
    }

    // ---- explosions ----

    method TileNow(col: int, row: int) returns (t: Tile)
      requires GridOk(cols, rows, grid[..])
      ensures t == TileAt(View(), col, row)
    {
      if col < 0 || row < 0 || col >= cols || row >= rows {
        return Wall;
      }
      t := grid[Index(cols, rows, col, row)];
    }

    method ReturnBomb(owner: nat)
      requires SeatsOk(players)
      modifies `players
      ensures players == BombReturned(old(players), owner)
    {
      var i := 0;
      while i < |players| && players[i].user != owner
        invariant i <= |players| && players == old(players)
        invariant forall k :: 0 <= k < i ==> players[k].user != owner
      {
        i := i + 1;
      }
      if i < |players| && players[i].bombsOut > 0 {
        players := players[i := players[i].(bombsOut := players[i].bombsOut - 1)];
      }
      assert players == BombReturned(old(players), owner);
    }

    method FindChained(b: Bomb, col: int, row: int, e: Explosion) returns (chained: Option<Bomb>)
      ensures chained.Some? ==>
        chained.value in bombs && chained.value !in e.detonated && chained.value != b
        && chained.value.col == col && chained.value.row == row
      ensures chained.None? ==>
        forall x :: x in bombs && x != b && x.col == col && x.row == row ==> x in e.detonated
    {
      for i := 0 to |bombs|
        invariant forall k :: 0 <= k < i ==>
          bombs[k] == b || bombs[k].col != col || bombs[k].row != row || bombs[k] in e.detonated
      {
        if bombs[i] != b && bombs[i].col == col && bombs[i].row == row && bombs[i] !in e.detonated {
          return Some(bombs[i]);
        }
      }
      chained := None;
    }

    /** A bomb goes off, and with it every bomb its flames reach. */
    method Detonate(b: Bomb, e: Explosion)
      requires Burning(FireOf(e)) && Closed(e.rays, bombs, e.detonated + [b])
      requires b in bombs && (b !in e.detonated ==> b in e.seeds || LitByOther(e.rays, b))
      requires e.Told()
      modifies this, grid, e
      ensures Blasted(old(FireOf(e)), FireOf(e)) && b in e.detonated
      ensures e.Told() && Spread(cols, rows, e.start, old(e.log), e.log, old(e.detonated), e.detonated)
      decreases |Unburnt(FireOf(e))|, 0
    {
      hide Burning, Closed, Blasted, Grown, Complete, Covers, LitByOther, Unburnt, Live, Truthful, WholeTruth;
      hide Logged, Spread, ArmStep, ArmOver, BombState, GridOk, BranchesDone, HitFor, WithHit, BurntTo, Reaches, TileIn;
      ghost var f, log0 := FireOf(e), e.log;
      NothingSpreads(f, e.log);
      if b in e.detonated {
        AlreadyBlasted(f, b);
        return;
      }
      MarkedStarts(f, b);
      LoggedMark(e.rays, e.destroyed, e.log, e.detonated, b);
      assert SeatsOk(players) by { BurningPlayers(f); }
      e.detonated := e.detonated + [b];
      ReturnBomb(b.owner);
      ghost var marked := FireOf(e);
      assert marked == Marked(f, b);
      CenterReaches(marked, b);
      CentreHit(log0, b);
      AddFlame(b, b.col, b.row, e, None);
      FirstBranch(marked, FireOf(e), b);
      BombStarts(cols, rows, e.start, log0, e.log, f.detonated, b, e.detonated);
      FourArms(b, e, marked, log0, f.detonated);
      AllBranchesDone(f, FireOf(e), b);
      BombEnds(cols, rows, e.start, log0, e.log, f.detonated, b, e.detonated);
    }

    /** The four arms of a bomb that has gone off. */
    method FourArms(b: Bomb, e: Explosion, ghost marked: Fire, ghost log0: seq<Hit>, ghost gone: seq<Bomb>)
      requires Burning(marked) && b in marked.detonated && Blasted(marked, FireOf(e))
      requires GridOk(cols, rows, grid[..]) && GridOk(cols, rows, e.start) && BranchesDone(FireOf(e), b, 0)
      requires e.Told() && BombState(cols, rows, e.start, log0, e.log, gone, b, e.detonated, 0)
      modifies this, grid, e
      ensures Blasted(marked, FireOf(e)) && GridOk(cols, rows, grid[..]) && GridOk(cols, rows, e.start)
      ensures BranchesDone(FireOf(e), b, DIRECTIONS)
      ensures e.Told() && BombState(cols, rows, e.start, log0, e.log, gone, b, e.detonated, DIRECTIONS)
      decreases |Unburnt(FireOf(e))|, 4
    {
      hide Burning, Closed, Blasted, Grown, Complete, Covers, LitByOther, Unburnt, Live, Truthful, WholeTruth;
      hide Logged, Spread, ArmStep, ArmOver, BombState, GridOk, BranchesDone, HitFor, WithHit, BurntTo, Reaches, TileIn;
      ghost var f := FireOf(e);
      for d := 0 to DIRECTIONS
        invariant Blasted(marked, FireOf(e))
        invariant GridOk(cols, rows, grid[..]) && GridOk(cols, rows, e.start)
        invariant BranchesDone(FireOf(e), b, d)
        invariant |Unburnt(FireOf(e))| <= |Unburnt(f)|
        invariant e.Told() && BombState(cols, rows, e.start, log0, e.log, gone, b, e.detonated, d)
      {
        ghost var before, log := FireOf(e), e.log;
        StillIn(marked, before, b);
        BombFreshArm(cols, rows, e.start, log0, log, gone, b, e.detonated, d);
        Ray(b, d, e);
        BlastedFacts(marked, before);
        BlastedFacts(before, FireOf(e));
        NextBranch(marked, before, FireOf(e), b, d);
        BombArmDone(cols, rows, e.start, log0, log, e.log, gone, b, before.detonated, e.detonated, d);
      }
    }

    /** A cell catches fire; a bomb standing there goes off. */
    method AddFlame(b: Bomb, col: int, row: int, e: Explosion, ghost h: Option<Hit>)
      requires Burning(FireOf(e)) && Closed(e.rays, bombs, e.detonated)
      requires b in e.detonated && Reaches(View(), b, col, row) && TileAt(View(), col, row) == Empty
      requires e.Told() && HitFor(h, b, col, row)
      modifies this, grid, e
      ensures Blasted(old(FireOf(e)), FireOf(e)) && LitBy(e.rays, b, col, row)
      ensures e.Told() && Spread(cols, rows, e.start, WithHit(old(e.log), h), e.log, old(e.detonated), e.detonated)
      decreases |Unburnt(FireOf(e))|, 1
    {
      hide Burning, Closed, Blasted, Grown, Complete, Reaches, LitByOther, TileIn, Unburnt, GridOk;
      hide Logged, Spread, HitFor, WithHit;
      ghost var f := FireOf(e);
      NothingSpreads(f, WithHit(e.log, h));
      LoggedLit(e.rays, e.destroyed, e.log, e.detonated, b, col, row, h);
      var chained := FindChained(b, col, row, e);
      LitStarts(f, b, col, row, chained);
      flames := flames + [Flame(col, row, e.now + FLAME_MS)];
      e.rays := e.rays + [Lit(col, row, b)];
      e.log := WithHit(e.log, h);
      ghost var g := FireOf(e);
      assert g == Lighted(f, col, row, b);
      if chained.Some? {
        LightedUnburnt(f, col, row, b);
        Detonate(chained.value, e);
        LitEnds(f, g, FireOf(e), b, col, row);
      }
    }

    /** A brick goes; it may leave a power-up. */
    method Break(col: int, row: int, e: Explosion) returns (drop: Option<PowerType>)
      requires Inside(cols, rows, col, row) && GridOk(cols, rows, grid[..])
      modifies this`powerups, grid, e
      ensures FireOf(e) == Broken(old(FireOf(e)), col, row, drop) && e.log == old(e.log)
    {
      drop := *;
      grid[Index(cols, rows, col, row)] := Empty;
      if drop.Some? {
        powerups := powerups + [PowerUp(col, row, drop.value)];
      }
      e.destroyed := e.destroyed + [Destroyed(col, row, drop)];
      assert FireOf(e) == Broken(old(FireOf(e)), col, row, drop);
    }

    /** The cell `s` steps away: a wall stops the arm, a brick breaks and stops it, anything else burns. */
    method RayStep(ghost f: Fire, b: Bomb, d: int, s: int, e: Explosion) returns (more: bool)
      requires Burning(f) && b in f.detonated && 0 <= d < DIRECTIONS && 1 <= s <= b.flame
      requires Along(f, FireOf(e), b, d, s - 1)
      requires e.Told() && b in e.detonated && BurntTo(e.log, b, d, s - 1)
      modifies this, grid, e
      ensures Blasted(f, FireOf(e)) && |Unburnt(FireOf(e))| <= |Unburnt(old(FireOf(e)))|
      ensures more ==> Along(f, FireOf(e), b, d, s)
      ensures !more ==> Covers(FireOf(e), b, d, b.flame)
      ensures e.Told() && ArmStep(cols, rows, e.start, old(e.log), e.log, old(e.detonated), e.detonated, b, d)
      ensures GridOk(cols, rows, e.start)
      ensures if more then BurntTo(e.log, b, d, s) else ArmOver(cols, rows, e.start, e.log, b, d)
      decreases |Unburnt(FireOf(e))|, 2
    {
      ghost var g := FireOf(e);
      hide Logged, Spread, ArmStep, BurntTo, ArmOver, HitFor, WithHit;
      AlongCanStep(f, g, b, d, s);
      AlongFacts(f, g, b, d, s - 1);
      hide Burning, Closed, Blasted, Grown, Complete, Along, Covers, Reaches, Hits, Clear, LitBy, Broken, Unburnt;
      hide TileIn, GridOk, Inside, StepCol, StepRow;
      var c, r := StepCol(b, d, s), StepRow(b, d, s);
      var t := TileNow(c, r);
      match t
      case Wall =>
        AlongWall(f, g, b, d, s);
        WallEnds(g, e.log, b, d, s);
        NoArmStep(g, e.log, b, d);
        more := false;
      case Brick =>
        BrickInside(g, c, r);
        var drop := Break(c, r, e);
        AlongBrick(f, g, b, d, s, drop);
        LoggedBrick(g.rays, g.destroyed, e.log, g.detonated, b, d, s, drop);
        BrickEnds(g, e.log, b, d, s);
        BreakStep(g, e.log, b, d, s);
        e.log := e.log + [Hit(b, d, s, true)];
        more := false;
      case Empty =>
        ghost var log := e.log;
        ArmHit(b, d, s);
        AddFlame(b, c, r, e, Some(Hit(b, d, s, false)));
        AlongSteps(f, g, FireOf(e), b, d, s);
        BurnStep(cols, rows, e.start, log, e.log, g.detonated, e.detonated, b, d, s);
        more := true;
    }

    /** One arm of the cross: up to the range, a wall, or the first brick. */
    method Ray(b: Bomb, d: int, e: Explosion)
      requires Burning(FireOf(e)) && Closed(e.rays, bombs, e.detonated)
      requires b in e.detonated && 0 <= d < DIRECTIONS
      requires e.Told() && BurntTo(e.log, b, d, 0)
      modifies this, grid, e
      ensures Blasted(old(FireOf(e)), FireOf(e)) && Covers(FireOf(e), b, d, b.flame)
      ensures e.Told() && ArmStep(cols, rows, e.start, old(e.log), e.log, old(e.detonated), e.detonated, b, d)
      ensures GridOk(cols, rows, e.start) && ArmOver(cols, rows, e.start, e.log, b, d)
      decreases |Unburnt(FireOf(e))|, 3
    {
      ghost var f := FireOf(e);
      AlongStarts(f, b, d);
      StartGrid(f);
      ghost var log0 := e.log;
      NoArmStep(f, log0, b, d);
      hide Burning, Closed, Blasted, Grown, Complete, Along, Covers, Unburnt, GridOk;
      hide Logged, ArmStep, BurntTo, ArmOver;
      var s := 1;
      while s <= b.flame
        invariant 1 <= s <= b.flame + 1
        invariant Along(f, FireOf(e), b, d, s - 1)
        invariant |Unburnt(FireOf(e))| <= |Unburnt(f)|
        invariant GridOk(cols, rows, e.start) && b in e.detonated
        invariant e.Told() && BurntTo(e.log, b, d, s - 1)
        invariant ArmStep(cols, rows, e.start, log0, e.log, f.detonated, e.detonated, b, d)
      {
        ghost var log, gone := e.log, e.detonated;
        var more := RayStep(f, b, d, s, e);
        ArmStepOn(cols, rows, e.start, log0, log, e.log, f.detonated, gone, e.detonated, b, d);
        if !more {
          return;
        }
        s := s + 1;
      }
      AlongFacts(f, FireOf(e), b, d, b.flame);
      RangeEnds(cols, rows, e.start, e.log, b, d);
    }

    // ---- movement ----

    method IsBlocked(p: Player, col: int, row: int) returns (b: bool)
      requires GridOk(cols, rows, grid[..])
      ensures b == Blocked(View(), p, col, row)
    {
      var t := TileNow(col, row);
      if t == Wall || t == Brick {
        return true;
      }
      b := IsBombAt(bombs, col, row) && p.standing != Some((col, row));
    }

    /** Where a move to (nx, ny) ends: there, or where it started if the box would touch anything solid. */
    method CollideAxis(p: Player, nx: real, ny: real) returns (moved: Player)
      requires GridOk(cols, rows, grid[..])
      ensures moved == Slide(View(), p, nx, ny)
    {
      var minC, maxC := RoundJs(nx - PLAYER_RADIUS), RoundJs(nx + PLAYER_RADIUS);
      var minR, maxR := RoundJs(ny - PLAYER_RADIUS), RoundJs(ny + PLAYER_RADIUS);
      hide Blocked, GridOk, RoundJs;
      var c := minC;
      while c <= maxC
        invariant minC <= c
        invariant forall x, y :: minC <= x < c && x <= maxC && minR <= y <= maxR ==> !Blocked(View(), p, x, y)
      {
        var r := minR;
        while r <= maxR
          invariant minR <= r
          invariant forall x, y :: minC <= x < c && x <= maxC && minR <= y <= maxR ==> !Blocked(View(), p, x, y)
          invariant forall y :: minR <= y < r && y <= maxR ==> !Blocked(View(), p, c, y)
        {
          var solid := IsBlocked(p, c, r);
          if solid {
            assert InBox(nx, ny, c, r);
            return p;
          }
          r := r + 1;
        }
        c := c + 1;
      }
      assert forall x, y :: InBox(nx, ny, x, y) ==> !Blocked(View(), p, x, y);
      moved := p.(x := nx, y := ny);
    }

    method Travel(start: Player, dist: real) returns (p: Player)
      requires GridOk(cols, rows, grid[..])
      ensures p == Stops(View(), start, dist)[4]
    {
      StopsAre(View(), start, dist);
      hide Slide, GridOk, Stops, SteppedOff, CenterStep, Towards;
      p := SteppedOff(start);
      if p.dx != 0 {
        p := CollideAxis(p, Towards(p.x, p.dx, dist), p.y);
        p := CollideAxis(p, p.x, p.y + CenterStep(p.y, dist));
      }
      if p.dy != 0 {
        p := CollideAxis(p, p.x, Towards(p.y, p.dy, dist));
        p := CollideAxis(p, p.x + CenterStep(p.x, dist), p.y);
      }
    }

    /** Moves player `i` for `dt` seconds. */
    method MovePlayer(i: nat, dt: real)
      requires Valid() && i < |players| && 0.0 <= dt <= MAX_DT
      modifies `players
      ensures players == old(players)[i := Moved(old(View()), old(players[i]), dt)]
      ensures Valid()
    {
      MoveKeeps(View(), i, dt);
      assert GridOk(cols, rows, grid[..]);
      hide Sane, Stops, GridOk, Distance;
      var p := players[i];
      if p.alive && (p.dx != 0 || p.dy != 0) {
        p := Travel(p, Distance(p, dt));
      }
      players := players[i := p];
    }

    // ---- bombs ----

    /** Player `i` puts down a bomb, if they may. */
    method PlaceBomb(i: nat, now: int) returns (placed: Option<Bomb>)
      requires Valid() && i < |players|
      modifies `bombs, `players
      ensures Valid()
      ensures placed == TryPlace(old(View()), i, now)
      ensures placed.Some? <==> old(players[i].alive && players[i].bombsOut < players[i].maxBombs
        && !IsBombAt(bombs, RoundJs(players[i].x), RoundJs(players[i].y)))
      ensures View() == if placed.Some? then WithBomb(old(View()), i, placed.value) else old(View())
    {
      PlacedUnlessOccupied(View(), i, now);
      assert GridOk(cols, rows, grid[..]);
      if TryPlace(View(), i, now).Some? {
        PlaceKeeps(View(), i, now);
      }
      hide Sane, TileIn, GridOk, IsBombAt;
      var p := players[i];
      if !p.alive || p.bombsOut >= p.maxBombs {
        return None;
      }
      var col, row := RoundJs(p.x), RoundJs(p.y);
      var t := TileNow(col, row);
      if t != Empty || IsBombAt(bombs, col, row) {
        return None;
      }
      var b := NewBomb(p, now);
      bombs := bombs + [b];
      players := players[i := p.(bombsOut := p.bombsOut + 1, standing := Some((col, row)))];
      placed := Some(b);
    }

    // ---- the tick ----

    /** Every due bomb goes off, with all it sets off, and the bombs that went off are removed. */
    method ExplodeDue(now: int) returns (e: Explosion?, ghost g: Fire)
      requires Valid()
      modifies this, grid
      ensures Valid()
      ensures e == null <==> Due(old(bombs), now) == []
      ensures e == null ==> View() == old(View())
      ensures e != null ==> fresh(e) && Exploded(old(View()), g, now) && View() == Cleared(g)
      ensures e != null ==> e.detonated == g.detonated && e.destroyed == g.destroyed && ToldOf(e, g)
    {
      ghost var a := View();
      g := Fire(a, a.grid, a.flames, a.powerups, now, {}, [], [], []);
      var due := Due(bombs, now);
      if due == [] {
        return null, g;
      }
      e := new Explosion(now, a, set b | b in due);
      FireStarts(a, now, FireOf(e));
      NothingTold();
      NothingNewOver(cols, rows, e.start, [], []);
      hide Logged, NewOver;
      hide Sane, Burning, Grown, Closed, Complete, NewComplete, GridOk, Due, Exploded, Remaining;
      ghost var f := FireOf(e);
      RunDue(due, e);
      g := FireOf(e);
      ExplosionEnds(a, f, g, now);
      ClearedIsSane(a, g, now);
      bombs := Remaining(bombs, e.detonated);
    }

    method RunDue(due: seq<Bomb>, e: Explosion)
      requires Burning(FireOf(e)) && Grown(FireOf(e), FireOf(e)) && Closed(e.rays, bombs, e.detonated)
      requires NewComplete([], FireOf(e))
      requires forall b :: b in due ==> b in bombs && b in e.seeds
      requires e.Told() && GridOk(cols, rows, e.start) && NewOver(cols, rows, e.start, e.log, [], e.detonated)
      modifies this, grid, e
      ensures Burning(FireOf(e)) && Grown(old(FireOf(e)), FireOf(e)) && Closed(e.rays, bombs, e.detonated)
      ensures GridOk(cols, rows, grid[..]) && GridOk(cols, rows, e.start)
      ensures NewComplete([], FireOf(e))
      ensures forall b :: b in due ==> b in e.detonated
      ensures e.Told() && NewOver(cols, rows, e.start, e.log, [], e.detonated)
    {
      ghost var f := FireOf(e);
      BurningErodes(f);
      hide Burning, Grown, Closed, Complete, NewComplete, GridOk, Blasted, Logged, NewOver, Spread;
      for i := 0 to |due|
        invariant Burning(FireOf(e)) && Grown(f, FireOf(e)) && Closed(e.rays, bombs, e.detonated)
        invariant GridOk(cols, rows, grid[..]) && GridOk(cols, rows, e.start)
        invariant NewComplete([], FireOf(e))
        invariant forall b :: b in due[..i] ==> b in e.detonated
        invariant e.Told() && NewOver(cols, rows, e.start, e.log, [], e.detonated)
      {
        ghost var before, log := FireOf(e), e.log;
        assert due[i] in due;
        DueMayGo(f, before, due[i]);
        Detonate(due[i], e);
        DueGone(f, before, FireOf(e), due, i);
        AfterAnother(cols, rows, e.start, log, e.log, before.detonated, e.detonated);
      }
      assert due[..|due|] == due;
    }

    /** Living players pick up what they stand on. */
    method Collect()
      modifies `players, `powerups
      ensures View() == PickUps(old(View()), |old(players)|)
    {
      for i := 0 to |players|
        invariant |players| == |old(players)| && View() == PickUps(old(View()), i)
      {
        var p := players[i];
        if p.alive {
          var found := FindPowerup(powerups, RoundJs(p.x), RoundJs(p.y), 0);
          if found.Some? {
            var k := found.value;
            players := players[i := Powered(p, powerups[k].kind)];
            powerups := powerups[..k] + powerups[k + 1..];
          }
        }
      }
    }

    /** Living players on a burning tile die. */
    method Burn() returns (deaths: seq<nat>)
      modifies `players, `deathOrder
      ensures View() == ScorchAll(old(View()), |old(players)|)
    {
      deaths := [];
      for i := 0 to |players|
        invariant |players| == |old(players)| && View() == ScorchAll(old(View()), i)
      {
        var p := players[i];
        if p.alive && OnFire(flames, p) {
          players := players[i := p.(alive := false)];
          deaths := deaths + [p.seat];
          if p.seat !in deathOrder {
            deathOrder := deathOrder + [p.seat];
          }
        }
      }
    }

    /** One tick of the world: explosions, old flames, pick-ups, deaths. */
    method TickWorld(now: int) returns (e: Explosion?, deaths: seq<nat>, ghost g: Fire)
      requires Valid()
      modifies this, grid
      ensures Valid()
      ensures e == null <==> Due(old(bombs), now) == []
      ensures e == null ==> View() == Settle(old(View()), now)
      ensures e != null ==> Exploded(old(View()), g, now) && View() == Settle(Cleared(g), now)
      ensures e != null ==> e.detonated == g.detonated && e.destroyed == g.destroyed && ToldOf(e, g)
    {
      hide Sane, Exploded, PickUps, ScorchAll, Due, Cleared, Unexpired, Logged, NewOver, GridOk;
      e, g := ExplodeDue(now);
      SettleKeeps(View(), now);
      flames := Unexpired(flames, now);
      Collect();
      deaths := Burn();
    }

    /** A player who leaves counts as dead from now on. */
    method KillPlayer(i: nat)
      requires Valid() && i < |players|
      modifies `players, `deathOrder
      ensures Valid()
      ensures View() == if old(players[i].alive) then Killed(old(View()), i) else old(View())
    {
      if players[i].alive {
        KilledKeeps(View(), i);
        hide Sane;
        var p := players[i];
        players := players[i := p.(alive := false)];
        if p.seat !in deathOrder {
          deathOrder := deathOrder + [p.seat];
        }
      }
    }
  }
}
