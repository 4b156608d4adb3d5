/**
 * Movement (src/games/bomberman/bomberman.logic.ts, movePlayer): one axis at a time, refused
 * when the box would touch anything solid, with a pull towards the middle of the corridor.
 */
module BombermanMovement {
  import opened Wrappers
  import opened Rounding
  import opened BombermanArena

  const MAX_DT := 0.1
  const CENTER_SLACK := 0.001

  /** Solid for this player: a wall, a brick, or a bomb other than the one they stand on. */
  ghost predicate Blocked(a: Arena, p: Player, col: int, row: int)
    requires GridOk(a.cols, a.rows, a.grid)
  {
    TileAt(a, col, row) != Empty || (IsBombAt(a.bombs, col, row) && p.standing != Some((col, row)))
  }

  ghost predicate Collides(a: Arena, p: Player, x: real, y: real)
    requires GridOk(a.cols, a.rows, a.grid)
  {
    exists c, r :: InBox(x, y, c, r) && Blocked(a, p, c, r)
  }

  ghost function Slide(a: Arena, p: Player, x: real, y: real): (q: Player)
    requires GridOk(a.cols, a.rows, a.grid)
    ensures q == p.(x := q.x, y := q.y)
  {
    if Collides(a, p, x, y) then p else p.(x := x, y := y)
  }

  function Abs(v: real): real { if v < 0.0 then -v else v }

  /** How far to move `v` towards the middle of its tile, at most `dist`. */
  function CenterStep(v: real, dist: real): real {
    var diff := RoundJs(v) as real - v;
    if Abs(diff) < CENTER_SLACK then 0.0
    else
      var reach := if dist < Abs(diff) then dist else Abs(diff);
      if diff < 0.0 then -reach else reach
  }

  function Towards(v: real, d: int, dist: real): real { v + d as real * dist }

  function Distance(p: Player, dt: real): real { p.speed * dt }

  ghost function GoX(a: Arena, p: Player, dist: real): (q: Player)
    requires GridOk(a.cols, a.rows, a.grid)
    ensures q == p.(x := q.x)
  {
    if p.dx != 0 then Slide(a, p, Towards(p.x, p.dx, dist), p.y) else p
  }

  ghost function GoY(a: Arena, p: Player, dist: real): (q: Player)
    requires GridOk(a.cols, a.rows, a.grid)
    ensures q == p.(y := q.y)
  {
    if p.dy != 0 then Slide(a, p, p.x, Towards(p.y, p.dy, dist)) else p
  }

  ghost function CenterX(a: Arena, p: Player, dist: real): (q: Player)
    requires GridOk(a.cols, a.rows, a.grid)
    ensures q == p.(x := q.x)
  {
    if p.dy != 0 then Slide(a, p, p.x + CenterStep(p.x, dist), p.y) else p
  }

  ghost function CenterY(a: Arena, p: Player, dist: real): (q: Player)
    requires GridOk(a.cols, a.rows, a.grid)
    ensures q == p.(y := q.y)
  {
    if p.dx != 0 then Slide(a, p, p.x, p.y + CenterStep(p.y, dist)) else p
  }

  /** The right to stand on a bomb ends when the box has left its tile. */
  function SteppedOff(p: Player): Player {
    if p.standing.Some? && !InBox(p.x, p.y, p.standing.value.0, p.standing.value.1) then p.(standing := None) else p
  }

  /** The positions a move goes through: along x, towards the middle in y, along y, towards the middle in x. */
  ghost function Stops(a: Arena, p: Player, dist: real): (r: seq<Player>)
    requires GridOk(a.cols, a.rows, a.grid)
    ensures |r| == 5
  {
    var p0 := SteppedOff(p);
    var p1 := GoX(a, p0, dist);
    var p2 := CenterY(a, p1, dist);
    var p3 := GoY(a, p2, dist);
    [p0, p1, p2, p3, CenterX(a, p3, dist)]
  }

  ghost function Moved(a: Arena, p: Player, dt: real): Player
    requires GridOk(a.cols, a.rows, a.grid)
  {
    if !p.alive || (p.dx == 0 && p.dy == 0) then p else Stops(a, p, Distance(p, dt))[4]
  }

  // ---- no clipping, no tunnelling ----

  predicate Between(a: real, b: real, v: real) { a <= v <= b || b <= v <= a }

  /** Going straight from `p` to `q`, the box never touches a wall, a brick or the outside. */
  ghost predicate Unobstructed(a: Arena, p: Player, q: Player)
    requires GridOk(a.cols, a.rows, a.grid)
  {
    && (p.x == q.x || p.y == q.y)
    && forall x, y :: Between(p.x, q.x, x) && Between(p.y, q.y, y) ==> BoxClear(a.cols, a.rows, a.grid, x, y)
  }

  /** A box 0.68 wide that moves at most 0.8 at once covers every tile it passes before or after. */
  lemma NothingSkipped(from: real, to: real, v: real, tile: int)
    requires Abs(to - from) <= MAX_SPEED * MAX_DT && Between(from, to, v)
    requires RoundJs(v - PLAYER_RADIUS) <= tile <= RoundJs(v + PLAYER_RADIUS)
    ensures RoundJs(from - PLAYER_RADIUS) <= tile <= RoundJs(from + PLAYER_RADIUS)
      || RoundJs(to - PLAYER_RADIUS) <= tile <= RoundJs(to + PLAYER_RADIUS)
  {
    if from <= to {
      assert to - PLAYER_RADIUS <= from + PLAYER_RADIUS + 1.0;
    } else {
      assert from - PLAYER_RADIUS <= to + PLAYER_RADIUS + 1.0;
    }
  }

  lemma SlideUnobstructed(a: Arena, p: Player, x: real, y: real)
    requires GridOk(a.cols, a.rows, a.grid) && BoxClear(a.cols, a.rows, a.grid, p.x, p.y)
    requires x == p.x || y == p.y
    requires Abs(x - p.x) <= MAX_SPEED * MAX_DT && Abs(y - p.y) <= MAX_SPEED * MAX_DT
    ensures Unobstructed(a, p, Slide(a, p, x, y))
    ensures BoxClear(a.cols, a.rows, a.grid, Slide(a, p, x, y).x, Slide(a, p, x, y).y)
  {
    var q := Slide(a, p, x, y);
    hide TileIn, GridOk, RoundJs;
    forall c, r | InBox(q.x, q.y, c, r) ensures TileAt(a, c, r) == Empty {
      if !Collides(a, p, x, y) {
        assert !Blocked(a, p, c, r);
      }
    }
    forall u, v | Between(p.x, q.x, u) && Between(p.y, q.y, v)
      ensures BoxClear(a.cols, a.rows, a.grid, u, v)
    {
      forall c, r | InBox(u, v, c, r) ensures TileAt(a, c, r) == Empty {
        NothingSkipped(p.x, q.x, u, c);
        NothingSkipped(p.y, q.y, v, r);
        assert InBox(p.x, p.y, c, r) || InBox(q.x, q.y, c, r);
      }
    }
  }

  lemma StepBounded(p: Player, dt: real)
    requires 0.0 <= p.speed <= MAX_SPEED && 0.0 <= dt <= MAX_DT
    ensures 0.0 <= Distance(p, dt) <= MAX_SPEED * MAX_DT
  {
    Product(p.speed, dt);
    Product(MAX_SPEED - p.speed, dt);
    assert (MAX_SPEED - p.speed) * dt == MAX_SPEED * dt - p.speed * dt;
  }

  lemma Product(a: real, b: real)
    requires a >= 0.0 && b >= 0.0
    ensures a * b >= 0.0
  {
  }

  lemma TowardsBounded(v: real, d: int, dist: real)
    requires -1 <= d <= 1 && 0.0 <= dist
    ensures Abs(Towards(v, d, dist) - v) <= dist
  {
    assert d == -1 || d == 0 || d == 1;
  }

  lemma CenterBounded(v: real, dist: real)
    requires 0.0 <= dist
    ensures Abs(CenterStep(v, dist)) <= dist
  {
  }

  lemma StaysPut(a: Arena, p: Player)
    requires GridOk(a.cols, a.rows, a.grid) && BoxClear(a.cols, a.rows, a.grid, p.x, p.y)
    ensures Unobstructed(a, p, p)
  {
  }

  /** A leg of a move: straight, clear all the way, and ending clear. */
  ghost predicate Leg(a: Arena, p: Player, q: Player)
    requires GridOk(a.cols, a.rows, a.grid)
  {
    Unobstructed(a, p, q) && BoxClear(a.cols, a.rows, a.grid, q.x, q.y)
  }

  ghost predicate Ready(a: Arena, p: Player, dist: real)
    requires GridOk(a.cols, a.rows, a.grid)
  {
    BoxClear(a.cols, a.rows, a.grid, p.x, p.y) && -1 <= p.dx <= 1 && -1 <= p.dy <= 1 && 0.0 <= dist <= MAX_SPEED * MAX_DT
  }

  lemma EachLeg(a: Arena, p: Player, dist: real)
    requires GridOk(a.cols, a.rows, a.grid) && Ready(a, p, dist)
    ensures Leg(a, p, GoX(a, p, dist)) && Leg(a, p, GoY(a, p, dist))
    ensures Leg(a, p, CenterX(a, p, dist)) && Leg(a, p, CenterY(a, p, dist))
  {
    hide Slide, Unobstructed, BoxClear, CenterStep, TileIn, Towards;
    TowardsBounded(p.x, p.dx, dist);
    TowardsBounded(p.y, p.dy, dist);
    CenterBounded(p.x, dist);
    CenterBounded(p.y, dist);
    SlideUnobstructed(a, p, Towards(p.x, p.dx, dist), p.y);
    SlideUnobstructed(a, p, p.x, Towards(p.y, p.dy, dist));
    SlideUnobstructed(a, p, p.x + CenterStep(p.x, dist), p.y);
    SlideUnobstructed(a, p, p.x, p.y + CenterStep(p.y, dist));
    StaysPut(a, p);
  }

  /**
   * However long the tick and wherever the player heads, each leg of the move is straight and
   * clear of walls, bricks and the outside from end to end.
   */
  lemma MoveUnobstructed(a: Arena, p: Player, dist: real)
    requires GridOk(a.cols, a.rows, a.grid) && BoxClear(a.cols, a.rows, a.grid, p.x, p.y)
    requires Fit(p) && 0.0 <= dist <= MAX_SPEED * MAX_DT
    ensures Stops(a, p, dist)[0] == SteppedOff(p)
    ensures forall i :: 0 <= i < 4 ==> Leg(a, Stops(a, p, dist)[i], Stops(a, p, dist)[i + 1])
  {
    var s := Stops(a, p, dist);
    assert Ready(a, s[0], dist) by { hide BoxClear, GridOk, InBox; }
    StopsAre(a, p, dist);
    hide *;
    NextReady(a, s[0], s[1], dist);
    NextReady(a, s[1], s[2], dist);
    NextReady(a, s[2], s[3], dist);
    EachLeg(a, s[3], dist);
  }

  lemma StopsAre(a: Arena, p: Player, dist: real)
    requires GridOk(a.cols, a.rows, a.grid)
    ensures var s := Stops(a, p, dist);
      && s[0] == SteppedOff(p)
      && s[1] == GoX(a, s[0], dist) && s[2] == CenterY(a, s[1], dist)
      && s[3] == GoY(a, s[2], dist) && s[4] == CenterX(a, s[3], dist)
  {
    hide Slide, SteppedOff, GridOk, CenterStep, Towards;
  }

  lemma NextReady(a: Arena, p: Player, q: Player, dist: real)
    requires GridOk(a.cols, a.rows, a.grid) && Ready(a, p, dist)
    requires q == GoX(a, p, dist) || q == GoY(a, p, dist) || q == CenterY(a, p, dist)
    ensures Leg(a, p, q) && Ready(a, q, dist)
  {
    EachLeg(a, p, dist);
    hide Slide, Unobstructed, BoxClear, CenterStep, TileIn;
  }

  /** A move changes nothing but the position and the right to stand on a bomb. */
  lemma MoveChangesPosition(a: Arena, p: Player, dt: real)
    requires GridOk(a.cols, a.rows, a.grid)
    ensures var q := Moved(a, p, dt); q == p.(x := q.x, y := q.y, standing := q.standing)
  {
    hide Collides;
  }

  /** Moving never leaves the world in a bad state. */
  lemma MoveKeeps(a: Arena, i: nat, dt: real)
    requires Sane(a) && i < |a.players| && 0.0 <= dt <= MAX_DT
    ensures Sane(a.(players := a.players[i := Moved(a, a.players[i], dt)]))
  {
    var p, q := a.players[i], Moved(a, a.players[i], dt);
    StepBounded(p, dt);
    MoveUnobstructed(a, p, Distance(p, dt));
    MoveChangesPosition(a, p, dt);
    hide Sane, Stops, BoxClear, Unobstructed, Distance;
    assert Leg(a, Stops(a, p, Distance(p, dt))[3], Stops(a, p, Distance(p, dt))[4]);
    PlayerReplaced(a, i, q);
  }

  /** The tile under a player's centre is always empty. */
  lemma TileUnderfoot(a: Arena, i: nat)
    requires Sane(a) && i < |a.players|
    ensures TileAt(a, RoundJs(a.players[i].x), RoundJs(a.players[i].y)) == Empty
  {
    CentreInBox(a.players[i].x, a.players[i].y);
    assert BoxClear(a.cols, a.rows, a.grid, a.players[i].x, a.players[i].y);
  }

  // ---- where a move leads ----

  /** The box around (x, y) touches the tile, a square of side one around (col, row). */
  predicate Touches(x: real, y: real, col: int, row: int) {
    && x - PLAYER_RADIUS < col as real + 0.5 && col as real - 0.5 <= x + PLAYER_RADIUS
    && y - PLAYER_RADIUS < row as real + 0.5 && row as real - 0.5 <= y + PLAYER_RADIUS
  }

  lemma InBoxIsTouching(x: real, y: real, col: int, row: int)
    ensures InBox(x, y, col, row) <==> Touches(x, y, col, row)
  {
  }

  /** Something the player cannot walk into touches the box at (x, y): a wall, a brick, or a bomb they are not standing on. */
  ghost predicate Hindered(a: Arena, p: Player, x: real, y: real)
    requires GridOk(a.cols, a.rows, a.grid)
  {
    exists c, r :: Touches(x, y, c, r)
      && (TileAt(a, c, r) != Empty
          || (p.standing != Some((c, r)) && exists b :: b in a.bombs && b.col == c && b.row == r))
  }

  lemma CollidesIsHindered(a: Arena, p: Player, x: real, y: real)
    requires GridOk(a.cols, a.rows, a.grid)
    ensures Collides(a, p, x, y) <==> Hindered(a, p, x, y)
  {
    hide TileIn, GridOk, InBox;
    forall c, r ensures InBox(x, y, c, r) <==> Touches(x, y, c, r) {
      InBoxIsTouching(x, y, c, r);
    }
    forall c, r ensures IsBombAt(a.bombs, c, r) <==> exists b :: b in a.bombs && b.col == c && b.row == r {
      BombAtMeans(a.bombs, c, r);
    }
    hide Touches, IsBombAt;
    if Hindered(a, p, x, y) {
      var c, r :| Touches(x, y, c, r)
        && (TileAt(a, c, r) != Empty || (p.standing != Some((c, r)) && exists b :: b in a.bombs && b.col == c && b.row == r));
      assert InBox(x, y, c, r) && Blocked(a, p, c, r);
    }
    if Collides(a, p, x, y) {
      var c, r :| InBox(x, y, c, r) && Blocked(a, p, c, r);
      assert Touches(x, y, c, r);
    }
  }

  lemma BombAtMeans(bombs: seq<Bomb>, col: int, row: int)
    ensures IsBombAt(bombs, col, row) <==> exists b :: b in bombs && b.col == col && b.row == row
  {
  }

  /** `q` is where `p` gets by going straight to (x, y): there, or nowhere when something hinders them. */
  ghost predicate WalksTo(a: Arena, p: Player, q: Player, x: real, y: real)
    requires GridOk(a.cols, a.rows, a.grid)
  {
    q == if Hindered(a, p, x, y) then p else p.(x := x, y := y)
  }

  /** From `v` to `w`: closer to the middle of the tile or not moved, by `dist` or by all that was missing. */
  predicate PulledIn(v: real, w: real, dist: real) {
    var middle := RoundJs(v) as real;
    && Abs(w - middle) <= Abs(v - middle)
    && (w == v || Abs(w - v) == if dist < Abs(v - middle) then dist else Abs(v - middle))
  }

  /** `v` moved towards the middle of its tile by `dist`, and not beyond. */
  function Pulled(v: real, dist: real): real {
    var middle := RoundJs(v) as real;
    if v < middle then (if v + dist < middle then v + dist else middle)
    else if v - dist > middle then v - dist else middle
  }

  predicate OffMiddle(v: real) { Abs(v - RoundJs(v) as real) >= CENTER_SLACK }

  lemma SlideWalks(a: Arena, p: Player, x: real, y: real)
    requires GridOk(a.cols, a.rows, a.grid)
    ensures WalksTo(a, p, Slide(a, p, x, y), x, y)
  {
    CollidesIsHindered(a, p, x, y);
    hide Collides, Hindered;
  }

  lemma CenterPulls(v: real, dist: real)
    requires dist >= 0.0
    ensures PulledIn(v, v + CenterStep(v, dist), dist) && PulledIn(v, v, dist)
    ensures v + CenterStep(v, dist) == if OffMiddle(v) then Pulled(v, dist) else v
  {
    hide RoundJs;
  }

  lemma GoXLaw(a: Arena, p: Player, dist: real)
    requires GridOk(a.cols, a.rows, a.grid) && -1 <= p.dx <= 1
    ensures p.dx == 0 ==> GoX(a, p, dist) == p
    ensures p.dx > 0 ==> WalksTo(a, p, GoX(a, p, dist), p.x + dist, p.y)
    ensures p.dx < 0 ==> WalksTo(a, p, GoX(a, p, dist), p.x - dist, p.y)
  {
    hide Slide, Hindered;
    SlideWalks(a, p, Towards(p.x, p.dx, dist), p.y);
    assert p.dx == 1 || p.dx == 0 || p.dx == -1;
  }

  lemma GoYLaw(a: Arena, p: Player, dist: real)
    requires GridOk(a.cols, a.rows, a.grid) && -1 <= p.dy <= 1
    ensures p.dy == 0 ==> GoY(a, p, dist) == p
    ensures p.dy > 0 ==> WalksTo(a, p, GoY(a, p, dist), p.x, p.y + dist)
    ensures p.dy < 0 ==> WalksTo(a, p, GoY(a, p, dist), p.x, p.y - dist)
  {
    hide Slide, Hindered;
    SlideWalks(a, p, p.x, Towards(p.y, p.dy, dist));
    assert p.dy == 1 || p.dy == 0 || p.dy == -1;
  }

  lemma CenterXLaw(a: Arena, p: Player, dist: real)
    requires GridOk(a.cols, a.rows, a.grid) && dist >= 0.0
    ensures CenterX(a, p, dist) == p.(x := CenterX(a, p, dist).x) && PulledIn(p.x, CenterX(a, p, dist).x, dist)
    ensures p.dy == 0 ==> CenterX(a, p, dist) == p
    ensures p.dy != 0 ==>
      if OffMiddle(p.x) then WalksTo(a, p, CenterX(a, p, dist), Pulled(p.x, dist), p.y) else CenterX(a, p, dist) == p
  {
    hide Slide, Hindered, GridOk, PulledIn, CenterStep, OffMiddle, Pulled;
    CenterPulls(p.x, dist);
    SlideWalks(a, p, p.x + CenterStep(p.x, dist), p.y);
  }

  lemma CenterYLaw(a: Arena, p: Player, dist: real)
    requires GridOk(a.cols, a.rows, a.grid) && dist >= 0.0
    ensures CenterY(a, p, dist) == p.(y := CenterY(a, p, dist).y) && PulledIn(p.y, CenterY(a, p, dist).y, dist)
    ensures p.dx == 0 ==> CenterY(a, p, dist) == p
    ensures p.dx != 0 ==>
      if OffMiddle(p.y) then WalksTo(a, p, CenterY(a, p, dist), p.x, Pulled(p.y, dist)) else CenterY(a, p, dist) == p
  {
    hide Slide, Hindered, GridOk, PulledIn, CenterStep, OffMiddle, Pulled;
    CenterPulls(p.y, dist);
    SlideWalks(a, p, p.x, p.y + CenterStep(p.y, dist));
  }

  lemma SteppedOffLaw(p: Player)
    ensures SteppedOff(p) == p.(standing := SteppedOff(p).standing)
    ensures SteppedOff(p).standing ==
      if p.standing.Some? && !Touches(p.x, p.y, p.standing.value.0, p.standing.value.1) then None else p.standing
  {
    if p.standing.Some? {
      InBoxIsTouching(p.x, p.y, p.standing.value.0, p.standing.value.1);
    }
    hide InBox, Touches;
  }

  /**
   * A player goes where they head: along x by speed times time in the direction asked for, or
   * not at all when that would touch a wall, a brick or another bomb; then towards the middle
   * of the corridor; then the same along y. Who is dead or asks for nothing stays.
   */
  lemma MovesAsAsked(a: Arena, p: Player, dt: real)
    requires GridOk(a.cols, a.rows, a.grid) && Fit(p) && 0.0 <= dt <= MAX_DT
    ensures !p.alive || (p.dx == 0 && p.dy == 0) ==> Moved(a, p, dt) == p
    ensures p.alive && (p.dx != 0 || p.dy != 0) ==>
      var dist, s := p.speed * dt, Stops(a, p, p.speed * dt);
      && Moved(a, p, dt) == s[4]
      && s[0] == p.(standing := s[0].standing)
      && (p.dx > 0 ==> WalksTo(a, s[0], s[1], p.x + dist, p.y))
      && (p.dx < 0 ==> WalksTo(a, s[0], s[1], p.x - dist, p.y))
      && (p.dx == 0 ==> s[1] == s[0] && s[2] == s[1])
      && (p.dx != 0 ==> if OffMiddle(s[1].y) then WalksTo(a, s[1], s[2], s[1].x, Pulled(s[1].y, dist)) else s[2] == s[1])
      && s[2] == s[1].(y := s[2].y) && PulledIn(s[1].y, s[2].y, dist)
      && (p.dy > 0 ==> WalksTo(a, s[2], s[3], s[2].x, s[2].y + dist))
      && (p.dy < 0 ==> WalksTo(a, s[2], s[3], s[2].x, s[2].y - dist))
      && (p.dy == 0 ==> s[3] == s[2] && s[4] == s[3])
      && (p.dy != 0 ==> if OffMiddle(s[3].x) then WalksTo(a, s[3], s[4], Pulled(s[3].x, dist), s[3].y) else s[4] == s[3])
      && s[4] == s[3].(x := s[4].x) && PulledIn(s[3].x, s[4].x, dist)
  {
    StepBounded(p, dt);
    DistanceIs(p, dt);
    var dist := Distance(p, dt);
    var s := Stops(a, p, dist);
    StopsAre(a, p, dist);
    MovedIs(a, p, dt);
    assert -1 <= p.dx <= 1 && -1 <= p.dy <= 1;
    hide *;
    SteppedOffLaw(p);
    GoXLaw(a, s[0], dist);
    CenterYLaw(a, s[1], dist);
    GoYLaw(a, s[2], dist);
    CenterXLaw(a, s[3], dist);
    HeadingStays(a, s[0], s[1], p.x + dist, p.y);
    HeadingStays(a, s[0], s[1], p.x - dist, p.y);
    HeadingStays(a, s[2], s[3], s[2].x, s[2].y + dist);
    HeadingStays(a, s[2], s[3], s[2].x, s[2].y - dist);
  }

  lemma HeadingStays(a: Arena, p: Player, q: Player, x: real, y: real)
    requires GridOk(a.cols, a.rows, a.grid)
    ensures WalksTo(a, p, q, x, y) ==> q.dx == p.dx && q.dy == p.dy
  {
    hide Hindered;
  }

  lemma DistanceIs(p: Player, dt: real)
    ensures Distance(p, dt) == p.speed * dt
  {
  }

  lemma MovedIs(a: Arena, p: Player, dt: real)
    requires GridOk(a.cols, a.rows, a.grid)
    ensures Moved(a, p, dt) == if p.alive && (p.dx != 0 || p.dy != 0) then Stops(a, p, Distance(p, dt))[4] else p
  {
    hide Stops, Distance;
  }
}
