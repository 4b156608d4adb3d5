/**
 * The rest of a Bomberman tick as functions on values (src/games/bomberman/bomberman.logic.ts):
 * placing bombs, clearing away what exploded, flames, power-ups and deaths, each keeping the
 * world sane.
 */
module BombermanTick {
  import opened Wrappers
  import opened Sorting
  import opened Rounding
  import opened BombermanArena
  import opened BombermanBlast
  import opened BombermanChain
  import opened BombermanMovement

  // ---- placing a bomb ----

  function NewBomb(p: Player, now: int): Bomb { Bomb(p.user, RoundJs(p.x), RoundJs(p.y), p.flame, now + FUSE_MS) }

  function TryPlace(a: Arena, i: nat, now: int): Option<Bomb>
    requires i < |a.players| && GridOk(a.cols, a.rows, a.grid)
  {
    var p := a.players[i];
    if !p.alive || p.bombsOut >= p.maxBombs then None
    else if TileAt(a, RoundJs(p.x), RoundJs(p.y)) != Empty then None
    else if IsBombAt(a.bombs, RoundJs(p.x), RoundJs(p.y)) then None
    else Some(NewBomb(p, now))
  }

  function WithBomb(a: Arena, i: nat, b: Bomb): Arena
    requires i < |a.players|
  {
    a.(bombs := a.bombs + [b],
       players := a.players[i := a.players[i].(bombsOut := a.players[i].bombsOut + 1, standing := Some((b.col, b.row)))])
  }

  /** A living player with bombs left is refused only by a bomb already under their feet. */
  lemma PlacedUnlessOccupied(a: Arena, i: nat, now: int)
    requires Sane(a) && i < |a.players|
    ensures TryPlace(a, i, now).Some? <==>
      var p := a.players[i]; p.alive && p.bombsOut < p.maxBombs && !IsBombAt(a.bombs, RoundJs(p.x), RoundJs(p.y))
  {
    TileUnderfoot(a, i);
  }

  lemma PlaceKeeps(a: Arena, i: nat, now: int)
    requires Sane(a) && i < |a.players| && TryPlace(a, i, now).Some?
    ensures Sane(WithBomb(a, i, TryPlace(a, i, now).value))
  {
    var b := TryPlace(a, i, now).value;
    var a' := WithBomb(a, i, b);
    forall k | 0 <= k < |a'.players|
      ensures a'.players[k].bombsOut == Live(a'.bombs, [], a'.players[k].user) <= a'.players[k].maxBombs
    {
      LiveAppended(a.bombs, b, a.players[k].user);
    }
    forall x | x in a'.bombs ensures TileAt(a', x.col, x.row) == Empty && Owned(a'.players, x.owner) {
      if x in a.bombs {
        OwnersStay(a.players, a'.players, x.owner);
      } else {
        assert a'.players[i].user == x.owner;
      }
    }
    hide Live, TileIn, GridOk;
  }

  // ---- what an explosion leaves ----

  /** The bombs due at `now`, in order. */
  function Due(bombs: seq<Bomb>, now: int): (r: seq<Bomb>)
    ensures forall b :: b in r <==> b in bombs && b.fuseAt <= now
  {
    if bombs == [] then [] else (if bombs[0].fuseAt <= now then [bombs[0]] else []) + Due(bombs[1..], now)
  }

  /**
   * `g` is the finished explosion of every bomb of `a` due at `now`, with all they set off:
   * it is sound (Burning), leaves no bomb standing on a lit cell, and every bomb of it has
   * reached all it must.
   */
  ghost predicate Exploded(a: Arena, g: Fire, now: int) {
    && Burning(g) && Closed(g.rays, g.a.bombs, g.detonated) && NewComplete([], g)
    && g.start == a.grid && g.flames0 == a.flames && g.powerups0 == a.powerups && g.now == now
    && g.a.cols == a.cols && g.a.rows == a.rows && g.a.bombs == a.bombs && g.a.deathOrder == a.deathOrder
    && SamePlayers(a.players, g.a.players)
    && g.seeds == (set b | b in Due(a.bombs, now))
    && forall b :: b in Due(a.bombs, now) ==> b in g.detonated
  }

  /** An explosion that has not begun. */
  lemma FireStarts(a: Arena, now: int, f: Fire)
    requires Sane(a) && f == Fire(a, a.grid, a.flames, a.powerups, now, set b | b in Due(a.bombs, now), [], [], [])
    ensures Burning(f) && Grown(f, f) && Closed(f.rays, a.bombs, f.detonated) && NewComplete([], f)
    ensures GridOk(a.cols, a.rows, a.grid)
  {
    hide Live, TileIn, Complete, Owned, BoxClear;
  }

  lemma DueMayGo(f: Fire, g: Fire, b: Bomb)
    requires Grown(f, g) && Closed(g.rays, g.a.bombs, g.detonated) && b in f.seeds && b in f.a.bombs
    ensures b in g.a.bombs && b in g.seeds && Closed(g.rays, g.a.bombs, g.detonated + [b])
  {
    hide Erodes;
  }

  lemma DueGone(f: Fire, g: Fire, h: Fire, due: seq<Bomb>, i: nat)
    requires Burning(g) && Grown(f, g) && Blasted(g, h) && i < |due| && due[i] in h.detonated
    requires GridOk(g.a.cols, g.a.rows, g.a.grid) && GridOk(g.a.cols, g.a.rows, g.start)
    requires NewComplete([], g)
    requires forall b :: b in due[..i] ==> b in g.detonated
    ensures Burning(h) && Grown(f, h) && Closed(h.rays, h.a.bombs, h.detonated)
    ensures GridOk(h.a.cols, h.a.rows, h.a.grid) && GridOk(h.a.cols, h.a.rows, h.start)
    ensures NewComplete([], h)
    ensures forall b :: b in due[..i + 1] ==> b in h.detonated
  {
    BlastedFacts(g, h);
    GrownTransitive(f, g, h);
    NewCompleteGrows([], g, h);
    assert g.detonated <= h.detonated;
    hide Burning, Complete, NewComplete, Closed, Erodes, GridOk;
    assert due[..i + 1] == due[..i] + [due[i]];
  }

  lemma ExplosionEnds(a: Arena, f: Fire, g: Fire, now: int)
    requires f == Fire(a, a.grid, a.flames, a.powerups, now, set b | b in Due(a.bombs, now), [], [], [])
    requires Burning(g) && Grown(f, g) && Closed(g.rays, g.a.bombs, g.detonated)
    requires GridOk(g.a.cols, g.a.rows, g.a.grid) && GridOk(g.a.cols, g.a.rows, g.start)
    requires NewComplete([], g)
    requires forall b :: b in Due(a.bombs, now) ==> b in g.detonated
    ensures Exploded(a, g, now)
  {
    hide Burning, Complete, NewComplete, Closed, Erodes, GridOk;
  }

  /** Bomb `x` lit the cell on which bomb `y` stood. */
  ghost predicate SetsOff(g: Fire, x: Bomb, y: Bomb) { Lit(y.col, y.row, x) in g.rays }

  /** Bombs that went off one because of the other: the first was due, each lit the next one's cell, the last is `b`. */
  ghost predicate LeadsTo(a: Arena, g: Fire, now: int, chain: seq<Bomb>, b: Bomb) {
    && chain != [] && chain[0] in a.bombs && chain[0].fuseAt <= now && chain[|chain| - 1] == b
    && (forall k :: 0 <= k < |chain| ==> chain[k] in g.detonated)
    && forall k :: 0 <= k < |chain| - 1 ==> SetsOff(g, chain[k], chain[k + 1])
  }

  lemma {:induction false} EveryBombTracesBack(a: Arena, g: Fire, now: int, i: nat)
    requires ChainOk(g) && g.seeds == (set b | b in Due(a.bombs, now)) && i < |g.detonated|
    ensures exists chain :: LeadsTo(a, g, now, chain, g.detonated[i])
    decreases i
  {
    hide LeadsTo;
    var b := g.detonated[i];
    if b in g.seeds {
      LeadsFromDue(a, g, now, b);
    } else {
      var l :| l in g.rays && l.col == b.col && l.row == b.row && l.cause in g.detonated[..i];
      var j :| 0 <= j < i && g.detonated[..i][j] == l.cause;
      EveryBombTracesBack(a, g, now, j);
      var chain :| LeadsTo(a, g, now, chain, g.detonated[j]);
      LeadsOn(a, g, now, chain, g.detonated[j], b);
    }
  }

  lemma LeadsFromDue(a: Arena, g: Fire, now: int, b: Bomb)
    requires b in Due(a.bombs, now) && b in g.detonated
    ensures LeadsTo(a, g, now, [b], b)
  {
  }

  lemma LeadsOn(a: Arena, g: Fire, now: int, chain: seq<Bomb>, x: Bomb, b: Bomb)
    requires LeadsTo(a, g, now, chain, x) && SetsOff(g, x, b) && b in g.detonated
    ensures LeadsTo(a, g, now, chain + [b], b)
  {
  }

  /**
   * What a finished explosion comes to, whatever the order its bombs went off in: each bomb went
   * off once; those due did; every other was set off by a chain of bombs, each on a cell the one
   * before it lit, that begins with one that was due; every cell lit was reached by a bomb that
   * went off, with nothing in between; no bomb left stands on a lit cell; and every ray lit its
   * clear cells and broke its first brick.
   */
  lemma ExplosionIsExact(a: Arena, g: Fire, now: int)
    requires Exploded(a, g, now)
    ensures Distinct(g.detonated) && forall b :: b in g.detonated ==> b in a.bombs
    ensures forall b :: b in a.bombs && b.fuseAt <= now ==> b in g.detonated
    ensures forall b :: b in g.detonated ==> exists chain :: LeadsTo(a, g, now, chain, b)
    ensures forall l :: l in g.rays ==> l.cause in g.detonated
    ensures GridOk(g.a.cols, g.a.rows, g.a.grid) && GridOk(g.a.cols, g.a.rows, a.grid)
    ensures forall l :: l in g.rays ==> Reaches(g.a, l.cause, l.col, l.row)
    ensures forall l, b :: l in g.rays && b in a.bombs && b !in g.detonated ==> l.col != b.col || l.row != b.row
    ensures Erodes(a.cols, a.rows, a.grid, g.a.grid)
    ensures forall b, d :: b in g.detonated && 0 <= d < DIRECTIONS ==> LitBy(g.rays, b, b.col, b.row) && Covers(g, b, d, b.flame)
  {
    hide Placed, SeatsOk, Accounted, DestroyedOk, AddedOk, SetOff, Reaches, Covers, Erodes, GridOk, SamePlayers, Distinct, LeadsTo;
    BurningErodes(g);
    forall b | b in g.detonated ensures exists chain :: LeadsTo(a, g, now, chain, b) {
      var i :| 0 <= i < |g.detonated| && g.detonated[i] == b;
      EveryBombTracesBack(a, g, now, i);
    }
  }

  function Cleared(g: Fire): Arena { g.a.(bombs := Remaining(g.a.bombs, g.detonated)) }

  /** The world once the detonated bombs are gone; no bomb left stands on a cell that was lit. */
  lemma ClearedIsSane(a: Arena, g: Fire, now: int)
    requires Sane(a) && Exploded(a, g, now)
    ensures Sane(Cleared(g))
    ensures forall b, l :: b in Cleared(g).bombs && l in g.rays ==> l.col != b.col || l.row != b.row
  {
    var c := Cleared(g);
    ClearedBombs(g);
    assert Erodes(g.a.cols, g.a.rows, a.grid, c.grid) && SeatsOk(c.players);
    hide Burning, Erodes, TileIn, GridOk, Live, Placed, BoxClear;
    forall i | 0 <= i < |c.players| ensures BoxClear(c.cols, c.rows, c.grid, c.players[i].x, c.players[i].y) {
      assert c.players[i].x == a.players[i].x && c.players[i].y == a.players[i].y;
      ErosionKeepsClear(c.cols, c.rows, a.grid, c.grid, a.players[i].x, a.players[i].y);
    }
    assert DeathsOk(c.players, c.deathOrder) by {
      assert forall s: nat :: s < |c.players| ==> c.players[s].alive == a.players[s].alive;
    }
  }

  lemma ClearedBombs(g: Fire)
    requires Burning(g)
    ensures Placed(Cleared(g)) && Accounted(Cleared(g).players, Cleared(g).bombs, [])
    ensures GridOk(g.a.cols, g.a.rows, g.a.grid)
  {
    var c := Cleared(g);
    RemainingDistinct(g.a.bombs, g.detonated);
    forall i | 0 <= i < |c.players|
      ensures c.players[i].bombsOut == Live(c.bombs, [], c.players[i].user) <= c.players[i].maxBombs
    {
      RemainingLive(g.a.bombs, g.detonated, c.players[i].user);
    }
  }

  // ---- flames ----

  function Unexpired(flames: seq<Flame>, now: int): (r: seq<Flame>)
    ensures forall f :: f in r <==> f in flames && f.until > now
  {
    if flames == [] then [] else (if flames[0].until > now then [flames[0]] else []) + Unexpired(flames[1..], now)
  }

  lemma ExpiryKeeps(a: Arena, now: int)
    requires Sane(a)
    ensures Sane(a.(flames := Unexpired(a.flames, now)))
  {
    hide BoxClear, Live, TileIn, GridOk, Owned;
  }

  // ---- power-ups ----

  function Powered(p: Player, kind: PowerType): Player {
    match kind
    case MoreBombs => p.(maxBombs := if p.maxBombs + 1 < MAX_BOMBS then p.maxBombs + 1 else MAX_BOMBS)
    case MoreFlame => p.(flame := if p.flame + 1 < MAX_FLAME then p.flame + 1 else MAX_FLAME)
    case MoreSpeed => p.(speed := if p.speed + SPEED_STEP < MAX_SPEED then p.speed + SPEED_STEP else MAX_SPEED)
  }

  function FindPowerup(powerups: seq<PowerUp>, col: int, row: int, from: nat): (r: Option<nat>)
    requires from <= |powerups|
    ensures r.Some? ==> from <= r.value < |powerups| && powerups[r.value].col == col && powerups[r.value].row == row
    ensures r.None? ==> forall k :: from <= k < |powerups| ==> powerups[k].col != col || powerups[k].row != row
    decreases |powerups| - from
  {
    if from == |powerups| then None
    else if powerups[from].col == col && powerups[from].row == row then Some(from)
    else FindPowerup(powerups, col, row, from + 1)
  }

  /** Player `i` picks up what lies on their tile. */
  function PickUp(a: Arena, i: nat): Arena
    requires i < |a.players|
  {
    var p := a.players[i];
    if !p.alive then a
    else
      match FindPowerup(a.powerups, RoundJs(p.x), RoundJs(p.y), 0)
      case None => a
      case Some(k) =>
        a.(players := a.players[i := Powered(p, a.powerups[k].kind)],
           powerups := a.powerups[..k] + a.powerups[k + 1..])
  }

  function PickUps(a: Arena, i: nat): (r: Arena)
    requires i <= |a.players|
    ensures |r.players| == |a.players|
    decreases i
  {
    if i == 0 then a else PickUp(PickUps(a, i - 1), i - 1)
  }

  lemma PowerupRemoved(a: Arena, k: nat)
    requires Sane(a) && k < |a.powerups|
    ensures Sane(a.(powerups := a.powerups[..k] + a.powerups[k + 1..]))
  {
    var a' := a.(powerups := a.powerups[..k] + a.powerups[k + 1..]);
    hide BoxClear, Live, TileIn, GridOk, Owned;
    assert PowerupsOk(a') by {
      forall x, y | 0 <= x < y < |a'.powerups|
        ensures a'.powerups[x].col != a'.powerups[y].col || a'.powerups[x].row != a'.powerups[y].row
      {
        assert a'.powerups[x] == a.powerups[if x < k then x else x + 1];
        assert a'.powerups[y] == a.powerups[if y < k then y else y + 1];
      }
    }
    hide PowerupsOk;
  }

  lemma PlayerIsFit(a: Arena, i: nat)
    requires Sane(a) && i < |a.players|
    ensures GridOk(a.cols, a.rows, a.grid)
    ensures Fit(a.players[i]) && BoxClear(a.cols, a.rows, a.grid, a.players[i].x, a.players[i].y)
  {
  }

  lemma SaneGrid(a: Arena)
    requires Sane(a)
    ensures GridOk(a.cols, a.rows, a.grid) && SeatsOk(a.players)
  {
  }

  lemma PickUpKeeps(a: Arena, i: nat)
    requires Sane(a) && i < |a.players|
    ensures Sane(PickUp(a, i))
  {
    var p := a.players[i];
    var found := FindPowerup(a.powerups, RoundJs(p.x), RoundJs(p.y), 0);
    PlayerIsFit(a, i);
    hide Sane, BoxClear, FindPowerup, GridOk;
    if p.alive && found.Some? {
      PlayerReplaced(a, i, Powered(p, a.powerups[found.value].kind));
      PowerupRemoved(a.(players := a.players[i := Powered(p, a.powerups[found.value].kind)]), found.value);
    }
  }

  lemma {:induction false} PickUpsKeep(a: Arena, i: nat)
    requires Sane(a) && i <= |a.players|
    ensures Sane(PickUps(a, i))
  {
    hide Sane, PickUp;
    if i > 0 {
      PickUpsKeep(a, i - 1);
      PickUpKeeps(PickUps(a, i - 1), i - 1);
    }
  }

  /** A living player takes the one power-up on their tile, and every other stays. */
  lemma PickUpTakesOne(a: Arena, i: nat)
    requires Sane(a) && i < |a.players| && a.players[i].alive
    ensures var p, a' := a.players[i], PickUp(a, i);
      forall u :: u in a'.powerups <==> u in a.powerups && !(u.col == RoundJs(p.x) && u.row == RoundJs(p.y))
  {
    var p, a' := a.players[i], PickUp(a, i);
    assert PowerupsOk(a);
    var found := FindPowerup(a.powerups, RoundJs(p.x), RoundJs(p.y), 0);
    hide Sane, TileIn, GridOk;
    forall u ensures u in a'.powerups <==> u in a.powerups && !(u.col == RoundJs(p.x) && u.row == RoundJs(p.y)) {
      if u in a.powerups {
        var x :| 0 <= x < |a.powerups| && a.powerups[x] == u;
        if found.Some? && x != found.value {
          assert a'.powerups[if x < found.value then x else x - 1] == u;
        }
      }
      if u in a'.powerups && found.Some? {
        var x :| 0 <= x < |a'.powerups| && a'.powerups[x] == u;
        assert u == a.powerups[if x < found.value then x else x + 1];
      }
    }
  }

  // ---- deaths ----

  predicate OnFire(flames: seq<Flame>, p: Player) {
    exists k :: 0 <= k < |flames| && flames[k].col == RoundJs(p.x) && flames[k].row == RoundJs(p.y)
  }

  function Killed(a: Arena, i: nat): Arena
    requires i < |a.players|
  {
    a.(players := a.players[i := a.players[i].(alive := false)],
       deathOrder := if a.players[i].seat in a.deathOrder then a.deathOrder else a.deathOrder + [a.players[i].seat])
  }

  function Scorch(a: Arena, i: nat): Arena
    requires i < |a.players|
  {
    if a.players[i].alive && OnFire(a.flames, a.players[i]) then Killed(a, i) else a
  }

  function ScorchAll(a: Arena, i: nat): (r: Arena)
    requires i <= |a.players|
    ensures |r.players| == |a.players| && r.flames == a.flames
    ensures forall k :: 0 <= k < |a.players| ==>
      r.players[k] == a.players[k].(alive := a.players[k].alive && !(k < i && OnFire(a.flames, a.players[k])))
    decreases i
  {
    if i == 0 then a else Scorch(ScorchAll(a, i - 1), i - 1)
  }

  lemma KilledKeeps(a: Arena, i: nat)
    requires Sane(a) && i < |a.players| && a.players[i].alive
    ensures Sane(Killed(a, i)) && Killed(a, i).deathOrder == a.deathOrder + [i]
  {
    var a' := Killed(a, i);
    assert i !in a.deathOrder;
    assert DeathsOk(a'.players, a'.deathOrder) by {
      hide BoxClear, Live, TileIn, GridOk, Owned;
      forall s: nat ensures s in a'.deathOrder <==> s < |a'.players| && !a'.players[s].alive {
      }
    }
    forall x | x in a.bombs ensures Owned(a'.players, x.owner) {
      OwnersStay(a.players, a'.players, x.owner);
    }
    hide BoxClear, Live, TileIn, GridOk, Owned, DeathsOk;
  }

  lemma {:induction false} ScorchAllKeeps(a: Arena, i: nat)
    requires Sane(a) && i <= |a.players|
    ensures Sane(ScorchAll(a, i))
  {
    hide Sane, Killed, OnFire;
    if i > 0 {
      ScorchAllKeeps(a, i - 1);
      var b := ScorchAll(a, i - 1);
      if b.players[i - 1].alive && OnFire(b.flames, b.players[i - 1]) {
        KilledKeeps(b, i - 1);
      }
    }
  }

  /** The world after a tick in which nothing was due, or whose explosion has been cleared away. */
  function Settle(a: Arena, now: int): (r: Arena)
    ensures |r.players| == |a.players|
  {
    var picked := PickUps(a.(flames := Unexpired(a.flames, now)), |a.players|);
    ScorchAll(picked, |picked.players|)
  }

  lemma SettleKeeps(a: Arena, now: int)
    requires Sane(a)
    ensures Sane(Settle(a, now))
  {
    ExpiryKeeps(a, now);
    var burning := a.(flames := Unexpired(a.flames, now));
    PickUpsKeep(burning, |a.players|);
    var picked := PickUps(burning, |a.players|);
    ScorchAllKeeps(picked, |picked.players|);
  }

  /** After a tick nobody alive stands on fire. */
  lemma NobodyLivesInFlames(a: Arena, now: int, k: nat)
    requires k < |Settle(a, now).players| && Settle(a, now).players[k].alive
    ensures var t := Settle(a, now);
      forall f :: f in t.flames ==> f.col != RoundJs(t.players[k].x) || f.row != RoundJs(t.players[k].y)
  {
    var burning := a.(flames := Unexpired(a.flames, now));
    var picked := PickUps(burning, |a.players|);
    hide PickUps, Unexpired;
    assert Settle(a, now) == ScorchAll(picked, |picked.players|);
    assert !OnFire(picked.flames, picked.players[k]);
  }

  // ---- what a tick does to players, power-ups and flames ----

  /** The power-up lies on the player's tile. */
  predicate Under(p: Player, u: PowerUp) { u.col == RoundJs(p.x) && u.row == RoundJs(p.y) }

  /** Player `k` lives, stands on the power-up, and nobody seated before them does. */
  ghost predicate Takes(players: seq<Player>, k: nat, u: PowerUp)
    requires k < |players|
  {
    players[k].alive && Under(players[k], u) && forall j :: 0 <= j < k && players[j].alive ==> !Under(players[j], u)
  }

  ghost predicate Taken(players: seq<Player>, n: nat, u: PowerUp)
    requires n <= |players|
  {
    exists j :: 0 <= j < n && players[j].alive && Under(players[j], u)
  }

  /** One strength grows by its step unless it is at its limit, and nothing else changes. */
  ghost predicate Strengthened(p: Player, kind: PowerType, q: Player) {
    match kind
    case MoreBombs => q == p.(maxBombs := q.maxBombs) && Grows(p.maxBombs as real, q.maxBombs as real, 1.0, MAX_BOMBS as real)
    case MoreFlame => q == p.(flame := q.flame) && Grows(p.flame as real, q.flame as real, 1.0, MAX_FLAME as real)
    case MoreSpeed => q == p.(speed := q.speed) && Grows(p.speed, q.speed, SPEED_STEP, MAX_SPEED)
  }

  /** From `v` to `w`, a step further or up to the limit. */
  predicate Grows(v: real, w: real, step: real, limit: real) {
    w == v + step <= limit || v + step > limit == w
  }

  /** What player `p` is after the pick-ups, when the power-ups they take are those of `taken`. */
  ghost predicate Collected(a: Arena, k: nat, q: Player)
    requires k < |a.players|
  {
    && (forall u :: u in a.powerups && Takes(a.players, k, u) ==> Strengthened(a.players[k], u.kind, q))
    && ((forall u :: u in a.powerups ==> !Takes(a.players, k, u)) ==> q == a.players[k])
  }

  lemma {:induction false} PickUpsCollect(a: Arena, i: nat)
    requires Sane(a) && i <= |a.players|
    ensures var r := PickUps(a, i);
      && r == a.(players := r.players, powerups := r.powerups)
      && (forall u :: u in r.powerups <==> u in a.powerups && !Taken(a.players, i, u))
      && (forall k :: i <= k < |a.players| ==> r.players[k] == a.players[k])
      && (forall k :: 0 <= k < i ==> Collected(a, k, r.players[k]))
  {
    hide Sane, PickUp, Strengthened, Under;
    if i > 0 {
      PickUpsCollect(a, i - 1);
      PickUpsKeep(a, i - 1);
      PickUpIs(a, PickUps(a, i - 1), i - 1);
    }
  }

  /** One more player picks up: `b` is the world after those before them. */
  lemma PickUpIs(a: Arena, b: Arena, i: nat)
    requires Sane(b) && i < |a.players| == |b.players| && b.players[i] == a.players[i]
    requires forall u :: u in b.powerups <==> u in a.powerups && !Taken(a.players, i, u)
    ensures var r := PickUp(b, i);
      && r == b.(players := b.players[i := r.players[i]], powerups := r.powerups)
      && (forall u :: u in r.powerups <==> u in a.powerups && !Taken(a.players, i + 1, u))
      && Collected(a, i, r.players[i])
  {
    hide Sane, FindPowerup, RoundJs, Taken, Takes, Under, Strengthened, PickUp;
    var p, r := b.players[i], PickUp(b, i);
    forall u ensures Taken(a.players, i + 1, u) <==> Taken(a.players, i, u) || (p.alive && Under(p, u)) {
      TakenNext(a.players, i, u);
    }
    PickUpEffect(b, i);
    forall u ensures Takes(a.players, i, u) <==> p.alive && Under(p, u) && !Taken(a.players, i, u) {
      TakesIff(a.players, i, u);
    }
  }

  lemma TakenNext(players: seq<Player>, i: nat, u: PowerUp)
    requires i < |players|
    ensures Taken(players, i + 1, u) <==> Taken(players, i, u) || (players[i].alive && Under(players[i], u))
  {
    hide Under;
  }

  lemma TakesIff(players: seq<Player>, i: nat, u: PowerUp)
    requires i < |players|
    ensures Takes(players, i, u) <==> players[i].alive && Under(players[i], u) && !Taken(players, i, u)
  {
    hide Under;
  }

  /** One pick-up on its own: a living player takes what lies under them, and that strengthens them. */
  lemma PickUpEffect(b: Arena, i: nat)
    requires Sane(b) && i < |b.players|
    ensures var p, r := b.players[i], PickUp(b, i);
      && |r.players| == |b.players| && r == b.(players := b.players[i := r.players[i]], powerups := r.powerups)
      && (forall u :: u in r.powerups <==> u in b.powerups && !(p.alive && Under(p, u)))
      && (forall u :: u in b.powerups && p.alive && Under(p, u) ==> Strengthened(p, u.kind, r.players[i]))
      && ((forall u :: u in b.powerups ==> !(p.alive && Under(p, u))) ==> r.players[i] == p)
  {
    hide Sane, FindPowerup, RoundJs, Strengthened, Powered;
    var p := b.players[i];
    var found := FindPowerup(b.powerups, RoundJs(p.x), RoundJs(p.y), 0);
    if p.alive {
      PickUpTakesOne(b, i);
      OnePerTile(b);
      if found.Some? {
        var u := b.powerups[found.value];
        assert u in b.powerups && Under(p, u);
        PoweredIs(p, u.kind);
      }
    }
  }

  lemma PoweredIs(p: Player, kind: PowerType)
    ensures Strengthened(p, kind, Powered(p, kind))
  {
  }

  lemma OnePerTile(a: Arena)
    requires Sane(a)
    ensures forall u, v :: u in a.powerups && v in a.powerups && u.col == v.col && u.row == v.row ==> u == v
  {
    assert PowerupsOk(a);
  }

  /** A flame that still burns at `now` covers the player's tile. */
  ghost predicate Burns(a: Arena, now: int, p: Player) {
    exists f :: f in a.flames && f.until > now && f.col == RoundJs(p.x) && f.row == RoundJs(p.y)
  }

  /** What lies where after a tick: flames that still burn, and power-ups under nobody who was alive. */
  lemma SettleLeaves(a: Arena, now: int)
    requires Sane(a)
    ensures var t := Settle(a, now);
      && (forall f :: f in t.flames <==> f in a.flames && f.until > now)
      && (forall u :: u in t.powerups <==> u in a.powerups && !Taken(a.players, |a.players|, u))
      && t.bombs == a.bombs && t.grid == a.grid
  {
    ExpiryKeeps(a, now);
    var burning := a.(flames := Unexpired(a.flames, now));
    PickUpsCollect(burning, |a.players|);
    hide Sane, PickUps, Taken, Collected;
    ScorchKeepsRest(PickUps(burning, |a.players|), |a.players|);
  }

  lemma {:induction false} ScorchKeepsRest(a: Arena, i: nat)
    requires i <= |a.players|
    ensures var t := ScorchAll(a, i); t == a.(players := t.players, deathOrder := t.deathOrder)
  {
    hide OnFire;
    if i > 0 {
      ScorchKeepsRest(a, i - 1);
    }
  }

  /**
   * What each player is after a tick: stronger by the power-up they took, if any, and alive
   * exactly if they were and no flame that still burns covers their tile.
   */
  lemma SettlePlayers(a: Arena, now: int, k: nat)
    requires Sane(a) && k < |a.players|
    ensures var q := Settle(a, now).players[k];
      && Collected(a, k, q.(alive := a.players[k].alive))
      && (q.alive <==> a.players[k].alive && !Burns(a, now, a.players[k]))
  {
    ExpiryKeeps(a, now);
    var burning := a.(flames := Unexpired(a.flames, now));
    PickUpsCollect(burning, |a.players|);
    var picked := PickUps(burning, |a.players|);
    CollectedKeepsPlace(burning, k, picked.players[k]);
    BurnsIsOnFire(a, now, a.players[k]);
    hide Sane, PickUps, Takes, OnFire, Burns, Strengthened;
    OnFireWhere(picked.flames, picked.players[k], a.players[k]);
    assert picked.players[k].(alive := a.players[k].alive) == picked.players[k];
  }

  lemma CollectedKeepsPlace(a: Arena, k: nat, q: Player)
    requires k < |a.players| && Collected(a, k, q)
    ensures q.x == a.players[k].x && q.y == a.players[k].y && q.alive == a.players[k].alive && q.user == a.players[k].user
  {
  }

  lemma OnFireWhere(flames: seq<Flame>, p: Player, q: Player)
    requires p.x == q.x && p.y == q.y
    ensures OnFire(flames, p) <==> OnFire(flames, q)
  {
  }

  lemma BurnsIsOnFire(a: Arena, now: int, p: Player)
    ensures OnFire(Unexpired(a.flames, now), p) <==> Burns(a, now, p)
  {
    var left := Unexpired(a.flames, now);
    if Burns(a, now, p) {
      var f :| f in a.flames && f.until > now && f.col == RoundJs(p.x) && f.row == RoundJs(p.y);
      assert f in left;
      var k :| 0 <= k < |left| && left[k] == f;
    }
    if OnFire(left, p) {
      var k :| 0 <= k < |left| && left[k].col == RoundJs(p.x) && left[k].row == RoundJs(p.y);
      assert left[k] in left;
    }
  }

  /** Those below seat `i` who were alive on a burning tile come after the earlier dead, in seat order. */
  ghost predicate DiedInOrder(a: Arena, order: seq<int>, i: nat)
    requires i <= |a.players|
  {
    && a.deathOrder <= order
    && (forall x :: |a.deathOrder| <= x < |order| ==>
         0 <= order[x] < i && a.players[order[x]].alive && OnFire(a.flames, a.players[order[x]]))
    && (forall x, y :: |a.deathOrder| <= x < y < |order| ==> order[x] < order[y])
  }

  lemma OneMoreDeath(a: Arena, order: seq<int>, i: nat)
    requires i < |a.players| && DiedInOrder(a, order, i)
    ensures DiedInOrder(a, order, i + 1)
    ensures a.players[i].alive && OnFire(a.flames, a.players[i]) ==> DiedInOrder(a, order + [i], i + 1)
  {
    hide OnFire;
  }

  /** Who dies in a tick is added to the death order, in seat order. */
  lemma {:induction false} ScorchOrder(a: Arena, i: nat)
    requires Sane(a) && i <= |a.players|
    ensures DiedInOrder(a, ScorchAll(a, i).deathOrder, i)
  {
    hide Sane, OnFire, Killed, DiedInOrder;
    if i > 0 {
      ScorchOrder(a, i - 1);
      ScorchAllKeeps(a, i - 1);
      var b := ScorchAll(a, i - 1);
      OneMoreDeath(a, b.deathOrder, i - 1);
      if b.players[i - 1].alive && OnFire(b.flames, b.players[i - 1]) {
        KilledKeeps(b, i - 1);
        OnFireWhere(a.flames, a.players[i - 1], b.players[i - 1]);
      }
    } else {
      NobodyDied(a);
    }
  }

  /** Those who die in a tick come after everybody who died before, in seat order. */
  lemma SettleDeaths(a: Arena, now: int)
    requires Sane(a)
    ensures var dead, order := a.deathOrder, Settle(a, now).deathOrder;
      && dead <= order
      && (forall x :: |dead| <= x < |order| ==>
           0 <= order[x] < |a.players| && a.players[order[x]].alive && Burns(a, now, a.players[order[x]]))
      && forall x, y :: |dead| <= x < y < |order| ==> order[x] < order[y]
  {
    ExpiryKeeps(a, now);
    var burning := a.(flames := Unexpired(a.flames, now));
    var n := |a.players|;
    var picked := PickUps(burning, n);
    PickUpsCollect(burning, n);
    PickUpsKeep(burning, n);
    ScorchOrder(picked, n);
    hide Sane, PickUps, Collected, OnFire, Burns, Taken, ScorchAll;
    var order := Settle(a, now).deathOrder;
    forall x | |a.deathOrder| <= x < |order| ensures 0 <= order[x] < n && a.players[order[x]].alive && Burns(a, now, a.players[order[x]]) {
      var k := order[x];
      CollectedKeepsPlace(burning, k, picked.players[k]);
      BurnsIsOnFire(a, now, a.players[k]);
      OnFireWhere(picked.flames, picked.players[k], a.players[k]);
    }
  }

  lemma NobodyDied(a: Arena)
    ensures DiedInOrder(a, a.deathOrder, 0)
  {
  }

  /** A placed bomb lies on the tile under the player's centre, reaches as far as they do, and is due from its time on. */
  lemma PlacedBombIs(a: Arena, i: nat, now: int)
    requires GridOk(a.cols, a.rows, a.grid) && i < |a.players| && TryPlace(a, i, now).Some?
    ensures var p, b := a.players[i], TryPlace(a, i, now).value;
      && b.owner == p.user && b.flame == p.flame
      && b.col as real - 0.5 <= p.x < b.col as real + 0.5 && b.row as real - 0.5 <= p.y < b.row as real + 0.5
      && (forall t :: b in Due([b], t) <==> t >= now + FUSE_MS)
      && WithBomb(a, i, b).bombs == a.bombs + [b] && WithBomb(a, i, b).players[i].standing == Some((b.col, b.row))
      && forall k :: 0 <= k < |a.players| && k != i ==> WithBomb(a, i, b).players[k] == a.players[k]
  {
  }
}
