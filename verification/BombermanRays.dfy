/**
 * How far each arm of an explosion gets (src/games/bomberman/bomberman.logic.ts, detonate):
 * a log of what every arm did, step by step, which shows that it burns cell after cell and
 * stops at its range, at a wall, or at the first brick it breaks, and never goes on behind it.
 */
module BombermanRays {
  import opened Wrappers
  import opened BombermanArena
  import opened BombermanBlast
  import opened BombermanChain

  /** The arm of `bomb` in direction `d` has set its cell `s` on fire, or broken the brick there. */
  datatype Hit = Hit(bomb: Bomb, d: int, s: int, broke: bool)

  function CellOf(h: Hit): (int, int) { (StepCol(h.bomb, h.d, h.s), StepRow(h.bomb, h.d, h.s)) }

  predicate Of(h: Hit, b: Bomb, d: int) { h.bomb == b && h.d == d }

  // ---- one arm ----

  /** The arm has burnt its first `n` cells and done nothing else. */
  ghost predicate BurntTo(log: seq<Hit>, b: Bomb, d: int, n: int) {
    && (forall h :: h in log && Of(h, b, d) ==> 1 <= h.s <= n && !h.broke)
    && (forall s :: 1 <= s <= n ==> Hit(b, d, s, false) in log)
  }

  /** The arm has burnt its first `n` cells, broken a brick behind them, and done nothing else. */
  ghost predicate BrokeAt(log: seq<Hit>, b: Bomb, d: int, n: int) {
    && (forall h :: h in log && Of(h, b, d) ==> (1 <= h.s <= n && !h.broke) || (h.s == n + 1 && h.broke))
    && (forall s :: 1 <= s <= n ==> Hit(b, d, s, false) in log)
    && Hit(b, d, n + 1, true) in log
  }

  /** The arm is over after `n` burning cells: at its range or a wall, or with the brick it broke. */
  ghost predicate OverAt(cols: nat, rows: nat, start: seq<Tile>, log: seq<Hit>, b: Bomb, d: int, n: int)
    requires GridOk(cols, rows, start)
  {
    || (BurntTo(log, b, d, n) && n == b.flame)
    || (BurntTo(log, b, d, n) && n < b.flame && TileIn(cols, rows, start, StepCol(b, d, n + 1), StepRow(b, d, n + 1)) == Wall)
    || (BrokeAt(log, b, d, n) && n < b.flame && TileIn(cols, rows, start, StepCol(b, d, n + 1), StepRow(b, d, n + 1)) == Brick)
  }

  ghost predicate ArmOver(cols: nat, rows: nat, start: seq<Tile>, log: seq<Hit>, b: Bomb, d: int)
    requires GridOk(cols, rows, start)
  {
    exists n: nat :: OverAt(cols, rows, start, log, b, d, n)
  }

  ghost predicate ArmsOver(cols: nat, rows: nat, start: seq<Tile>, log: seq<Hit>, b: Bomb, d: int)
    requires GridOk(cols, rows, start)
  {
    forall k :: 0 <= k < d ==> ArmOver(cols, rows, start, log, b, k)
  }

  /** Every bomb that went off since `done` has all its arms over. */
  ghost predicate NewOver(cols: nat, rows: nat, start: seq<Tile>, log: seq<Hit>, done: seq<Bomb>, gone: seq<Bomb>)
    requires GridOk(cols, rows, start)
  {
    forall b :: b in gone && b !in done ==> ArmsOver(cols, rows, start, log, b, DIRECTIONS)
  }

  // ---- how the log grows ----

  /** Of the bombs in `gone`, only arms for which `mine` holds did anything more. */
  ghost predicate Adds(log: seq<Hit>, more: seq<Hit>, gone: seq<Bomb>, b: Bomb, d: int) {
    log <= more && forall h :: h in more && h.bomb in gone && !Of(h, b, d) ==> h in log
  }

  /** No bomb in `gone` did anything more. */
  ghost predicate AddsNew(log: seq<Hit>, more: seq<Hit>, gone: seq<Bomb>) {
    log <= more && forall h :: h in more && h.bomb in gone ==> h in log
  }

  lemma OverStays(cols: nat, rows: nat, start: seq<Tile>, log: seq<Hit>, more: seq<Hit>, b: Bomb, d: int)
    requires GridOk(cols, rows, start) && ArmOver(cols, rows, start, log, b, d)
    requires log <= more && forall h :: h in more && Of(h, b, d) ==> h in log
    ensures ArmOver(cols, rows, start, more, b, d)
  {
    hide TileIn, GridOk;
    var n: nat :| OverAt(cols, rows, start, log, b, d, n);
    assert OverAt(cols, rows, start, more, b, d, n);
  }

  lemma ArmsOverStay(cols: nat, rows: nat, start: seq<Tile>, log: seq<Hit>, more: seq<Hit>, b: Bomb, d: int)
    requires GridOk(cols, rows, start) && ArmsOver(cols, rows, start, log, b, d)
    requires log <= more && forall h :: h in more && h.bomb == b && 0 <= h.d < d ==> h in log
    ensures ArmsOver(cols, rows, start, more, b, d)
  {
    hide GridOk, ArmOver;
    forall k | 0 <= k < d ensures ArmOver(cols, rows, start, more, b, k) {
      OverStays(cols, rows, start, log, more, b, k);
    }
  }

  /** What was over stays over while only newer bombs act. */
  lemma NewOverJoins(cols: nat, rows: nat, start: seq<Tile>, log: seq<Hit>, more: seq<Hit>, done: seq<Bomb>, mid: seq<Bomb>, gone: seq<Bomb>)
    requires GridOk(cols, rows, start) && mid <= gone
    requires NewOver(cols, rows, start, log, done, mid) && NewOver(cols, rows, start, more, mid, gone)
    requires log <= more && forall h :: h in more && h.bomb in mid && h.bomb !in done ==> h in log
    ensures NewOver(cols, rows, start, more, done, gone)
  {
    hide GridOk, ArmsOver;
    forall b | b in gone && b !in done ensures ArmsOver(cols, rows, start, more, b, DIRECTIONS) {
      if b in mid {
        ArmsOverStay(cols, rows, start, log, more, b, DIRECTIONS);
      }
    }
  }

  lemma NothingNewOver(cols: nat, rows: nat, start: seq<Tile>, log: seq<Hit>, gone: seq<Bomb>)
    requires GridOk(cols, rows, start)
    ensures NewOver(cols, rows, start, log, gone, gone)
  {
  }

  // ---- the log tells what happened ----

  /** Every hit was made by a bomb that went off, within its range, and lit or broke its cell. */
  ghost predicate Truthful(rays: seq<Lit>, destroyed: seq<Destroyed>, log: seq<Hit>, gone: seq<Bomb>) {
    forall h :: h in log ==>
      && h.bomb in gone && 0 <= h.d < DIRECTIONS && 1 <= h.s <= h.bomb.flame
      && if h.broke then IsDestroyed(destroyed, CellOf(h).0, CellOf(h).1) else LitBy(rays, h.bomb, CellOf(h).0, CellOf(h).1)
  }

  ghost predicate LitInLog(log: seq<Hit>, l: Lit) {
    (l.col == l.cause.col && l.row == l.cause.row)
    || exists d, s :: Hit(l.cause, d, s, false) in log && l.col == StepCol(l.cause, d, s) && l.row == StepRow(l.cause, d, s)
  }

  ghost predicate BrokenInLog(log: seq<Hit>, col: int, row: int) {
    exists h :: h in log && h.broke && CellOf(h) == (col, row)
  }

  /** Nothing was lit, except under the bombs themselves, and nothing broken without a hit. */
  ghost predicate WholeTruth(rays: seq<Lit>, destroyed: seq<Destroyed>, log: seq<Hit>) {
    && (forall l :: l in rays ==> LitInLog(log, l))
    && (forall x :: x in destroyed ==> BrokenInLog(log, x.col, x.row))
  }

  ghost predicate Logged(rays: seq<Lit>, destroyed: seq<Destroyed>, log: seq<Hit>, gone: seq<Bomb>) {
    Truthful(rays, destroyed, log, gone) && WholeTruth(rays, destroyed, log)
  }

  lemma LoggedMark(rays: seq<Lit>, destroyed: seq<Destroyed>, log: seq<Hit>, gone: seq<Bomb>, b: Bomb)
    requires Logged(rays, destroyed, log, gone) && b !in gone
    ensures Logged(rays, destroyed, log, gone + [b])
    ensures forall h :: h in log ==> h.bomb != b
  {
    hide IsDestroyed, LitBy, LitInLog, BrokenInLog;
  }

  lemma LitStaysInLog(log: seq<Hit>, h: Hit, l: Lit)
    requires LitInLog(log, l)
    ensures LitInLog(log + [h], l)
  {
    if !(l.col == l.cause.col && l.row == l.cause.row) {
      var d, s :| Hit(l.cause, d, s, false) in log && l.col == StepCol(l.cause, d, s) && l.row == StepRow(l.cause, d, s);
      assert Hit(l.cause, d, s, false) in log + [h];
    }
  }

  lemma BrokenStaysInLog(log: seq<Hit>, h: Hit, col: int, row: int)
    requires BrokenInLog(log, col, row)
    ensures BrokenInLog(log + [h], col, row)
  {
    var x :| x in log && x.broke && CellOf(x) == (col, row);
    assert x in log + [h];
  }

  /** A cell is lit under the bomb itself: no arm is involved. */
  lemma LoggedCentre(rays: seq<Lit>, destroyed: seq<Destroyed>, log: seq<Hit>, gone: seq<Bomb>, b: Bomb)
    requires Logged(rays, destroyed, log, gone)
    ensures Logged(rays + [Lit(b.col, b.row, b)], destroyed, log, gone)
  {
    hide IsDestroyed, LitInLog, BrokenInLog;
    assert LitInLog(log, Lit(b.col, b.row, b)) by {
      CentreInLog(log, b);
    }
  }

  lemma CentreInLog(log: seq<Hit>, b: Bomb)
    ensures LitInLog(log, Lit(b.col, b.row, b))
  {
  }

  lemma LoggedBurn(rays: seq<Lit>, destroyed: seq<Destroyed>, log: seq<Hit>, gone: seq<Bomb>, h: Hit)
    requires Logged(rays, destroyed, log, gone)
    requires h.bomb in gone && 0 <= h.d < DIRECTIONS && 1 <= h.s <= h.bomb.flame && !h.broke
    ensures Logged(rays + [Lit(CellOf(h).0, CellOf(h).1, h.bomb)], destroyed, log + [h], gone)
  {
    hide IsDestroyed, LitInLog, BrokenInLog, CellOf;
    var l := Lit(CellOf(h).0, CellOf(h).1, h.bomb);
    BurnInLog(log, h);
    forall x | x in rays + [l] ensures LitInLog(log + [h], x) {
      if x in rays {
        LitStaysInLog(log, h, x);
      }
    }
    forall x | x in destroyed ensures BrokenInLog(log + [h], x.col, x.row) {
      BrokenStaysInLog(log, h, x.col, x.row);
    }
  }

  lemma BurnInLog(log: seq<Hit>, h: Hit)
    requires !h.broke
    ensures LitInLog(log + [h], Lit(CellOf(h).0, CellOf(h).1, h.bomb))
  {
    assert Hit(h.bomb, h.d, h.s, false) == h && h in log + [h];
  }

  lemma LoggedBreak(rays: seq<Lit>, destroyed: seq<Destroyed>, log: seq<Hit>, gone: seq<Bomb>, h: Hit, x: Destroyed)
    requires Logged(rays, destroyed, log, gone)
    requires h.bomb in gone && 0 <= h.d < DIRECTIONS && 1 <= h.s <= h.bomb.flame && h.broke && CellOf(h) == (x.col, x.row)
    ensures Logged(rays, destroyed + [x], log + [h], gone)
  {
    hide LitInLog, BrokenInLog, CellOf, LitBy, IsDestroyed;
    forall c, r | IsDestroyed(destroyed, c, r) ensures IsDestroyed(destroyed + [x], c, r) {
      DestroyedStays(destroyed, x, c, r);
    }
    DestroyedStays(destroyed, x, x.col, x.row);
    forall l | l in rays ensures LitInLog(log + [h], l) {
      LitStaysInLog(log, h, l);
    }
    forall y | y in destroyed + [x] ensures BrokenInLog(log + [h], y.col, y.row) {
      if y in destroyed {
        BrokenStaysInLog(log, h, y.col, y.row);
      } else {
        BreakInLog(log, h);
      }
    }
  }

  lemma DestroyedStays(destroyed: seq<Destroyed>, x: Destroyed, col: int, row: int)
    ensures IsDestroyed(destroyed, col, row) ==> IsDestroyed(destroyed + [x], col, row)
    ensures IsDestroyed(destroyed + [x], x.col, x.row)
  {
    if IsDestroyed(destroyed, col, row) {
      var k :| 0 <= k < |destroyed| && destroyed[k].col == col && destroyed[k].row == row;
      assert (destroyed + [x])[k] == destroyed[k];
    }
    assert (destroyed + [x])[|destroyed|] == x;
  }

  lemma BreakInLog(log: seq<Hit>, h: Hit)
    requires h.broke
    ensures BrokenInLog(log + [h], CellOf(h).0, CellOf(h).1)
  {
    assert h in log + [h];
  }

  // ---- one step of an arm ----

  lemma NothingBurnt(log: seq<Hit>, b: Bomb, d: int)
    requires forall h :: h in log ==> !Of(h, b, d)
    ensures BurntTo(log, b, d, 0)
  {
  }

  /** The next cell burns, and whatever that sets off leaves this arm alone. */
  lemma BurntOn(log: seq<Hit>, more: seq<Hit>, gone: seq<Bomb>, b: Bomb, d: int, s: int)
    requires BurntTo(log, b, d, s - 1) && 1 <= s && b in gone && AddsNew(log + [Hit(b, d, s, false)], more, gone)
    ensures BurntTo(more, b, d, s)
  {
    assert Hit(b, d, s, false) in log + [Hit(b, d, s, false)];
    forall k | 1 <= k <= s ensures Hit(b, d, k, false) in more {
      assert Hit(b, d, k, false) in log + [Hit(b, d, s, false)];
    }
  }

  lemma BrokeNext(log: seq<Hit>, b: Bomb, d: int, s: int)
    requires BurntTo(log, b, d, s - 1) && 1 <= s
    ensures BrokeAt(log + [Hit(b, d, s, true)], b, d, s - 1)
  {
    assert Hit(b, d, s, true) in log + [Hit(b, d, s, true)];
    assert forall h :: h in log ==> h in log + [Hit(b, d, s, true)];
  }

  // ---- what an arm comes to ----

  /** The four arms go right, left, down and up. */
  lemma FourDirections(b: Bomb, s: int)
    ensures (StepCol(b, 0, s), StepRow(b, 0, s)) == (b.col + s, b.row)
    ensures (StepCol(b, 1, s), StepRow(b, 1, s)) == (b.col - s, b.row)
    ensures (StepCol(b, 2, s), StepRow(b, 2, s)) == (b.col, b.row + s)
    ensures (StepCol(b, 3, s), StepRow(b, 3, s)) == (b.col, b.row - s)
  {
  }

  lemma CellsDiffer(b: Bomb, d: int, s: int, d': int, s': int)
    requires 0 <= d < DIRECTIONS && 0 <= d' < DIRECTIONS && s >= 1 && s' >= 1
    requires StepCol(b, d, s) == StepCol(b, d', s') && StepRow(b, d, s) == StepRow(b, d', s')
    ensures d == d' && s == s'
  {
  }

  ghost predicate LitExactly(cols: nat, rows: nat, start: seq<Tile>, rays: seq<Lit>, destroyed: seq<Destroyed>, b: Bomb, d: int, n: nat)
    requires GridOk(cols, rows, start)
  {
    && n <= b.flame
    && (forall s :: 1 <= s <= b.flame ==> (LitBy(rays, b, StepCol(b, d, s), StepRow(b, d, s)) <==> s <= n))
    && (n < b.flame ==> Stopped(cols, rows, start, destroyed, StepCol(b, d, n + 1), StepRow(b, d, n + 1)))
  }

  /** A wall, or a brick that is gone now. */
  ghost predicate Stopped(cols: nat, rows: nat, start: seq<Tile>, destroyed: seq<Destroyed>, col: int, row: int)
    requires GridOk(cols, rows, start)
  {
    var t := TileIn(cols, rows, start, col, row);
    t == Wall || (t == Brick && IsDestroyed(destroyed, col, row))
  }

  /**
   * Which cells an arm lit, of all in its range: the first `n` in a row and no other, where
   * `n` is its range, or the next cell is a wall, or the next cell is a brick that is gone.
   */
  lemma ArmIsExact(cols: nat, rows: nat, start: seq<Tile>, rays: seq<Lit>, destroyed: seq<Destroyed>, log: seq<Hit>, gone: seq<Bomb>, b: Bomb, d: int)
    requires GridOk(cols, rows, start) && Logged(rays, destroyed, log, gone) && b in gone && 0 <= d < DIRECTIONS
    requires ArmOver(cols, rows, start, log, b, d)
    ensures exists n: nat :: LitExactly(cols, rows, start, rays, destroyed, b, d, n)
  {
    var n: nat :| OverAt(cols, rows, start, log, b, d, n);
    OverIsExact(cols, rows, start, rays, destroyed, log, gone, b, d, n);
  }

  lemma OverIsExact(cols: nat, rows: nat, start: seq<Tile>, rays: seq<Lit>, destroyed: seq<Destroyed>, log: seq<Hit>, gone: seq<Bomb>, b: Bomb, d: int, n: nat)
    requires GridOk(cols, rows, start) && Logged(rays, destroyed, log, gone) && 0 <= d < DIRECTIONS
    requires OverAt(cols, rows, start, log, b, d, n)
    ensures LitExactly(cols, rows, start, rays, destroyed, b, d, n)
  {
    hide TileIn, IsDestroyed, GridOk;
    forall s | 1 <= s <= b.flame ensures LitBy(rays, b, StepCol(b, d, s), StepRow(b, d, s)) <==> s <= n {
      if s <= n {
        assert Hit(b, d, s, false) in log;
      }
      if LitBy(rays, b, StepCol(b, d, s), StepRow(b, d, s)) {
        LitFromHit(rays, destroyed, log, gone, b, d, s);
      }
    }
    if BrokeAt(log, b, d, n) {
      assert CellOf(Hit(b, d, n + 1, true)) == (StepCol(b, d, n + 1), StepRow(b, d, n + 1));
    }
  }

  /** The arm lit exactly `n` cells and the brick was the next. */
  ghost predicate EndsWith(cols: nat, rows: nat, start: seq<Tile>, rays: seq<Lit>, destroyed: seq<Destroyed>, b: Bomb, d: int, n: nat, x: Destroyed)
    requires GridOk(cols, rows, start)
  {
    0 <= d < DIRECTIONS && x.col == StepCol(b, d, n + 1) && x.row == StepRow(b, d, n + 1)
    && LitExactly(cols, rows, start, rays, destroyed, b, d, n)
  }

  /** A brick is broken by an arm that has lit every cell up to it, and lights nothing behind it. */
  lemma BrickHasArm(cols: nat, rows: nat, start: seq<Tile>, rays: seq<Lit>, destroyed: seq<Destroyed>, log: seq<Hit>, gone: seq<Bomb>, x: Destroyed)
    requires GridOk(cols, rows, start) && Logged(rays, destroyed, log, gone) && NewOver(cols, rows, start, log, [], gone)
    requires x in destroyed
    ensures exists b, d, n: nat :: b in gone && EndsWith(cols, rows, start, rays, destroyed, b, d, n, x)
  {
    assert BrokenInLog(log, x.col, x.row);
    var h :| h in log && h.broke && CellOf(h) == (x.col, x.row);
    assert h.bomb in gone && 0 <= h.d < DIRECTIONS && 1 <= h.s;
    assert ArmsOver(cols, rows, start, log, h.bomb, DIRECTIONS);
    assert ArmOver(cols, rows, start, log, h.bomb, h.d);
    ArmBroke(cols, rows, start, rays, destroyed, log, gone, h);
    assert EndsWith(cols, rows, start, rays, destroyed, h.bomb, h.d, h.s - 1, x);
  }

  lemma ArmBroke(cols: nat, rows: nat, start: seq<Tile>, rays: seq<Lit>, destroyed: seq<Destroyed>, log: seq<Hit>, gone: seq<Bomb>, h: Hit)
    requires GridOk(cols, rows, start) && Logged(rays, destroyed, log, gone) && h in log && h.broke && h.bomb in gone
    requires 0 <= h.d < DIRECTIONS && 1 <= h.s && ArmOver(cols, rows, start, log, h.bomb, h.d)
    ensures LitExactly(cols, rows, start, rays, destroyed, h.bomb, h.d, h.s - 1)
  {
    var n: nat :| OverAt(cols, rows, start, log, h.bomb, h.d, n);
    assert Of(h, h.bomb, h.d);
    assert n == h.s - 1;
    OverIsExact(cols, rows, start, rays, destroyed, log, gone, h.bomb, h.d, n);
  }

  lemma LitFromHit(rays: seq<Lit>, destroyed: seq<Destroyed>, log: seq<Hit>, gone: seq<Bomb>, b: Bomb, d: int, s: int)
    requires Logged(rays, destroyed, log, gone) && 0 <= d < DIRECTIONS && s >= 1
    requires LitBy(rays, b, StepCol(b, d, s), StepRow(b, d, s))
    ensures Hit(b, d, s, false) in log
  {
    var l := Lit(StepCol(b, d, s), StepRow(b, d, s), b);
    assert LitInLog(log, l);
    var d', s' :| Hit(b, d', s', false) in log && l.col == StepCol(b, d', s') && l.row == StepRow(b, d', s');
    CellsDiffer(b, d, s, d', s');
  }

  // ---- the pieces of the recursion ----

  lemma AddsOn(log: seq<Hit>, mid: seq<Hit>, more: seq<Hit>, gone: seq<Bomb>, later: seq<Bomb>, b: Bomb, d: int)
    requires Adds(log, mid, gone, b, d) && Adds(mid, more, later, b, d) && gone <= later
    ensures Adds(log, more, gone, b, d)
  {
  }

  lemma AddsNothing(log: seq<Hit>, gone: seq<Bomb>, b: Bomb, d: int)
    ensures Adds(log, log, gone, b, d) && AddsNew(log, log, gone)
  {
  }

  /** Only bombs that were not yet in `gone` acted, and all they set off is over. */
  ghost predicate Spread(cols: nat, rows: nat, start: seq<Tile>, log: seq<Hit>, more: seq<Hit>, gone: seq<Bomb>, later: seq<Bomb>) {
    GridOk(cols, rows, start) && gone <= later && AddsNew(log, more, gone) && NewOver(cols, rows, start, more, gone, later)
  }

  /** The arm acted, and otherwise only bombs that were not yet in `gone`, and all they set off is over. */
  ghost predicate ArmStep(cols: nat, rows: nat, start: seq<Tile>, log: seq<Hit>, more: seq<Hit>, gone: seq<Bomb>, later: seq<Bomb>, b: Bomb, d: int) {
    GridOk(cols, rows, start) && gone <= later && Adds(log, more, gone, b, d) && NewOver(cols, rows, start, more, gone, later)
  }

  lemma ArmStepOn(cols: nat, rows: nat, start: seq<Tile>, log: seq<Hit>, mid: seq<Hit>, more: seq<Hit>, gone: seq<Bomb>, later: seq<Bomb>, last: seq<Bomb>, b: Bomb, d: int)
    requires b in gone
    requires ArmStep(cols, rows, start, log, mid, gone, later, b, d) && ArmStep(cols, rows, start, mid, more, later, last, b, d)
    ensures ArmStep(cols, rows, start, log, more, gone, last, b, d) && b in last
  {
    hide NewOver, GridOk;
    AddsOn(log, mid, more, gone, later, b, d);
    NewOverJoins(cols, rows, start, mid, more, gone, later, last);
  }

  /** What the arms of `b` that come before direction `d` have done is all that `b` has done. */
  ghost predicate OnlyBefore(log: seq<Hit>, b: Bomb, d: int) { forall h :: h in log && h.bomb == b ==> h.d < d }

  /** The bomb `b` has gone off after those in `gone`, and its arms before direction `d` are over. */
  ghost predicate BombState(cols: nat, rows: nat, start: seq<Tile>, log: seq<Hit>, more: seq<Hit>, gone: seq<Bomb>, b: Bomb, later: seq<Bomb>, d: int) {
    && GridOk(cols, rows, start) && gone + [b] <= later && b !in gone
    && AddsNew(log, more, gone) && NewOver(cols, rows, start, more, gone + [b], later)
    && OnlyBefore(more, b, d) && ArmsOver(cols, rows, start, more, b, d)
  }

  lemma BombStarts(cols: nat, rows: nat, start: seq<Tile>, log: seq<Hit>, more: seq<Hit>, gone: seq<Bomb>, b: Bomb, later: seq<Bomb>)
    requires (forall h :: h in log ==> h.bomb != b) && b !in gone && Spread(cols, rows, start, log, more, gone + [b], later)
    ensures BombState(cols, rows, start, log, more, gone, b, later, 0)
  {
    hide NewOver, GridOk, ArmOver;
    assert b in gone + [b];
  }

  lemma BombFreshArm(cols: nat, rows: nat, start: seq<Tile>, log: seq<Hit>, more: seq<Hit>, gone: seq<Bomb>, b: Bomb, later: seq<Bomb>, d: int)
    requires BombState(cols, rows, start, log, more, gone, b, later, d)
    ensures BurntTo(more, b, d, 0) && b in later
  {
    assert b in gone + [b];
    hide NewOver, GridOk, ArmOver;
  }

  lemma BombArmDone(cols: nat, rows: nat, start: seq<Tile>, log: seq<Hit>, mid: seq<Hit>, more: seq<Hit>, gone: seq<Bomb>, b: Bomb, later: seq<Bomb>, last: seq<Bomb>, d: int)
    requires d >= 0 && BombState(cols, rows, start, log, mid, gone, b, later, d) && GridOk(cols, rows, start)
    requires ArmStep(cols, rows, start, mid, more, later, last, b, d) && ArmOver(cols, rows, start, more, b, d)
    ensures BombState(cols, rows, start, log, more, gone, b, last, d + 1)
  {
    hide NewOver, GridOk, ArmOver;
    assert b in gone + [b];
    ArmsOverStay(cols, rows, start, mid, more, b, d);
    NewOverJoins(cols, rows, start, mid, more, gone + [b], later, last);
  }

  /** All four arms of `b` are over, and so are those of every bomb it set off. */
  lemma BombEnds(cols: nat, rows: nat, start: seq<Tile>, log: seq<Hit>, more: seq<Hit>, gone: seq<Bomb>, b: Bomb, later: seq<Bomb>)
    requires BombState(cols, rows, start, log, more, gone, b, later, DIRECTIONS)
    ensures Spread(cols, rows, start, log, more, gone, later)
  {
    hide ArmsOver, GridOk;
    assert gone <= gone + [b];
  }

  lemma AfterAnother(cols: nat, rows: nat, start: seq<Tile>, log: seq<Hit>, more: seq<Hit>, mid: seq<Bomb>, gone: seq<Bomb>)
    requires GridOk(cols, rows, start)
    requires NewOver(cols, rows, start, log, [], mid) && Spread(cols, rows, start, log, more, mid, gone)
    ensures NewOver(cols, rows, start, more, [], gone)
  {
    hide NewOver;
    NewOverJoins(cols, rows, start, log, more, [], mid, gone);
  }

  // ---- where the recursion meets the log ----

  /** The hit to be logged with a lit cell: none under the bomb itself, else the arm's step to that cell. */
  ghost predicate HitFor(h: Option<Hit>, b: Bomb, col: int, row: int) {
    match h
    case None => col == b.col && row == b.row
    case Some(x) =>
      x.bomb == b && CellOf(x) == (col, row) && 0 <= x.d < DIRECTIONS && 1 <= x.s <= b.flame && !x.broke
  }

  ghost function WithHit(log: seq<Hit>, h: Option<Hit>): seq<Hit> {
    match h
    case None => log
    case Some(x) => log + [x]
  }

  lemma LoggedLit(rays: seq<Lit>, destroyed: seq<Destroyed>, log: seq<Hit>, gone: seq<Bomb>, b: Bomb, col: int, row: int, h: Option<Hit>)
    requires Logged(rays, destroyed, log, gone) && b in gone && HitFor(h, b, col, row)
    ensures Logged(rays + [Lit(col, row, b)], destroyed, WithHit(log, h), gone)
  {
    hide Logged;
    match h
    case None => LoggedCentre(rays, destroyed, log, gone, b);
    case Some(x) => LoggedBurn(rays, destroyed, log, gone, x);
  }

  lemma ArmHit(b: Bomb, d: int, s: int)
    requires 0 <= d < DIRECTIONS && 1 <= s <= b.flame
    ensures HitFor(Some(Hit(b, d, s, false)), b, StepCol(b, d, s), StepRow(b, d, s))
    ensures forall log :: WithHit(log, Some(Hit(b, d, s, false))) == log + [Hit(b, d, s, false)]
  {
  }

  lemma LoggedBrick(rays: seq<Lit>, destroyed: seq<Destroyed>, log: seq<Hit>, gone: seq<Bomb>, b: Bomb, d: int, s: int, drop: Option<PowerType>)
    requires Logged(rays, destroyed, log, gone) && b in gone && 0 <= d < DIRECTIONS && 1 <= s <= b.flame
    ensures Logged(rays, destroyed + [Destroyed(StepCol(b, d, s), StepRow(b, d, s), drop)], log + [Hit(b, d, s, true)], gone)
  {
    hide Logged;
    LoggedBreak(rays, destroyed, log, gone, Hit(b, d, s, true), Destroyed(StepCol(b, d, s), StepRow(b, d, s), drop));
  }

  lemma StartGrid(f: Fire)
    requires Burning(f)
    ensures GridOk(f.a.cols, f.a.rows, f.start)
  {
    BurningErodes(f);
  }

  lemma WallEnds(f: Fire, log: seq<Hit>, b: Bomb, d: int, s: int)
    requires Burning(f) && GridOk(f.a.cols, f.a.rows, f.a.grid) && GridOk(f.a.cols, f.a.rows, f.start)
    requires BurntTo(log, b, d, s - 1) && 1 <= s <= b.flame && TileOn(f.a, f.a.grid, b, d, s) == Wall
    ensures ArmOver(f.a.cols, f.a.rows, f.start, log, b, d)
  {
    hide Burning, BurntTo, TileIn, GridOk;
    StartTile(f, b, d, s);
    assert OverAt(f.a.cols, f.a.rows, f.start, log, b, d, s - 1);
  }

  lemma BrickEnds(f: Fire, log: seq<Hit>, b: Bomb, d: int, s: int)
    requires Burning(f) && GridOk(f.a.cols, f.a.rows, f.a.grid) && GridOk(f.a.cols, f.a.rows, f.start)
    requires BurntTo(log, b, d, s - 1) && 1 <= s <= b.flame && TileOn(f.a, f.a.grid, b, d, s) == Brick
    ensures ArmOver(f.a.cols, f.a.rows, f.start, log + [Hit(b, d, s, true)], b, d)
  {
    hide Burning, TileIn, GridOk;
    StartTile(f, b, d, s);
    BrokeNext(log, b, d, s);
    hide BurntTo, BrokeAt;
    assert OverAt(f.a.cols, f.a.rows, f.start, log + [Hit(b, d, s, true)], b, d, s - 1);
  }

  lemma RangeEnds(cols: nat, rows: nat, start: seq<Tile>, log: seq<Hit>, b: Bomb, d: int)
    requires GridOk(cols, rows, start) && BurntTo(log, b, d, b.flame)
    ensures ArmOver(cols, rows, start, log, b, d)
  {
    assert OverAt(cols, rows, start, log, b, d, b.flame);
  }

  lemma NothingSpreads(f: Fire, log: seq<Hit>)
    requires Burning(f)
    ensures Spread(f.a.cols, f.a.rows, f.start, log, log, f.detonated, f.detonated)
  {
    StartGrid(f);
    AddsNothing(log, f.detonated, Bomb(0, 0, 0, 0, 0), 0);
    NothingNewOver(f.a.cols, f.a.rows, f.start, log, f.detonated);
    hide Burning, NewOver, GridOk;
  }

  lemma NoArmStep(f: Fire, log: seq<Hit>, b: Bomb, d: int)
    requires Burning(f)
    ensures ArmStep(f.a.cols, f.a.rows, f.start, log, log, f.detonated, f.detonated, b, d)
  {
    StartGrid(f);
    AddsNothing(log, f.detonated, b, d);
    NothingNewOver(f.a.cols, f.a.rows, f.start, log, f.detonated);
    hide Burning, NewOver, GridOk;
  }

  lemma BreakStep(f: Fire, log: seq<Hit>, b: Bomb, d: int, s: int)
    requires Burning(f)
    ensures ArmStep(f.a.cols, f.a.rows, f.start, log, log + [Hit(b, d, s, true)], f.detonated, f.detonated, b, d)
  {
    StartGrid(f);
    NothingNewOver(f.a.cols, f.a.rows, f.start, log + [Hit(b, d, s, true)], f.detonated);
    hide Burning, NewOver, GridOk;
  }

  lemma BurnStep(cols: nat, rows: nat, start: seq<Tile>, log: seq<Hit>, more: seq<Hit>, gone: seq<Bomb>, later: seq<Bomb>, b: Bomb, d: int, s: int)
    requires BurntTo(log, b, d, s - 1) && 1 <= s && b in gone
    requires Spread(cols, rows, start, WithHit(log, Some(Hit(b, d, s, false))), more, gone, later)
    ensures BurntTo(more, b, d, s) && ArmStep(cols, rows, start, log, more, gone, later, b, d) && GridOk(cols, rows, start)
  {
    hide NewOver, GridOk;
    BurntOn(log, more, gone, b, d, s);
    assert log <= log + [Hit(b, d, s, false)];
  }

  /** The bomb's own cell is lit without a hit. */
  lemma CentreHit(log: seq<Hit>, b: Bomb)
    ensures HitFor(None, b, b.col, b.row) && WithHit(log, None) == log
  {
  }

  lemma NothingTold()
    ensures Logged([], [], [], [])
  {
  }
}
