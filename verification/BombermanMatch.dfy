/**
 * A live Bomberman match (src/games/bomberman/bomberman.service.ts): inputs, bombs, players
 * leaving, the tick, and the final ranking.
 */
module BombermanMatch {
  import opened Wrappers
  import opened Sorting
  import opened Sums
  import opened Ranking
  import opened RankPoints
  import opened Rounding
  import opened BombermanArena
  import opened BombermanBlast
  import opened BombermanMovement
  import opened BombermanTick
  import opened BombermanWorld
  import opened BombermanMaps

  const ROUND_LIMIT_MS := 180000
  const RP_SPREAD := 28

  // ---- the final ranking ----

  function Survivors(players: seq<Player>, k: nat): (r: seq<int>)
    requires k <= |players|
    ensures forall s :: s in r <==> 0 <= s < k && players[s].alive
  {
    if k == 0 then []
    else Survivors(players, k - 1) + if players[k - 1].alive then [k - 1] else []
  }

  lemma {:induction false} SurvivorsDistinct(players: seq<Player>, k: nat)
    requires k <= |players|
    ensures Distinct(Survivors(players, k))
  {
    if k > 0 {
      SurvivorsDistinct(players, k - 1);
      DistinctConcat(Survivors(players, k - 1), [k - 1]);
    }
  }

  /** Survivors first, then the dead, the last to die first. */
  function BestFirst(a: Arena): seq<int> { Survivors(a.players, |a.players|) + Reverse(a.deathOrder) }

  /** The ranking places every player exactly once. */
  lemma RankingPlacesAll(a: Arena)
    requires SeatsOk(a.players) && DeathsOk(a.players, a.deathOrder)
    ensures Distinct(BestFirst(a)) && |BestFirst(a)| == |a.players|
    ensures forall s :: s in BestFirst(a) <==> 0 <= s < |a.players|
  {
    SurvivorsDistinct(a.players, |a.players|);
    ReverseKeeps(a.deathOrder);
    hide Survivors, Reverse, SeatsOk;
    DistinctConcat(Survivors(a.players, |a.players|), Reverse(a.deathOrder));
    forall s ensures s in BestFirst(a) <==> 0 <= s < |a.players| {
      if 0 <= s < |a.players| && !a.players[s].alive {
        assert s in a.deathOrder;
      }
    }
    PlacesCovered(BestFirst(a), |a.players|);
  }

  function PlaceOf(a: Arena, seat: nat): int { IndexOf(BestFirst(a), seat) + 1 }

  /** A survivor is placed ahead of everybody who died; of two who died, the later one is ahead. */
  lemma LaterDeathsPlaceBetter(a: Arena, better: nat, worse: nat)
    requires SeatsOk(a.players) && DeathsOk(a.players, a.deathOrder)
    requires worse in a.deathOrder && better < |a.players|
    requires better !in a.deathOrder || IndexOf(a.deathOrder, better) > IndexOf(a.deathOrder, worse)
    ensures 1 <= PlaceOf(a, better) < PlaceOf(a, worse) <= |a.players|
  {
    RankingPlacesAll(a);
    var alive := Survivors(a.players, |a.players|);
    hide Survivors, SeatsOk, Reverse, IndexOf, Distinct;
    FromTheBack(alive, a.deathOrder, worse);
    if better in a.deathOrder {
      FromTheBack(alive, a.deathOrder, better);
    } else {
      FromTheFront(alive, Reverse(a.deathOrder), better);
    }
  }

  /** Survivors are placed in seat order. */
  lemma SurvivorsBySeat(a: Arena, better: nat, worse: nat)
    requires SeatsOk(a.players) && DeathsOk(a.players, a.deathOrder)
    requires better < worse < |a.players| && a.players[better].alive && a.players[worse].alive
    ensures PlaceOf(a, better) < PlaceOf(a, worse)
  {
    RankingPlacesAll(a);
    SurvivorsAscend(a.players, |a.players|);
    var alive := Survivors(a.players, |a.players|);
    hide Survivors, SeatsOk, DeathsOk, Reverse, IndexOf, Distinct;
    WherePlaced(alive, Reverse(a.deathOrder), better);
    WherePlaced(alive, Reverse(a.deathOrder), worse);
    var i, j := IndexOf(BestFirst(a), better), IndexOf(BestFirst(a), worse);
    assert alive[i] == better && alive[j] == worse;
    AscendingAt(alive, i, j);
  }

  lemma AscendingAt(s: seq<int>, i: nat, j: nat)
    requires Increasing(s) && i < |s| && j < |s|
    ensures s[i] < s[j] <==> i < j
  {
  }

  lemma {:induction false} SurvivorsAscend(players: seq<Player>, k: nat)
    requires k <= |players|
    ensures Increasing(Survivors(players, k))
  {
    if k > 0 {
      SurvivorsAscend(players, k - 1);
      var front, s := Survivors(players, k - 1), Survivors(players, k);
      forall i | 0 <= i < |front| ensures front[i] < k - 1 {
        assert front[i] in front;
      }
      assert s == front || s == front + [k - 1];
    }
  }

  lemma WherePlaced(front: seq<int>, back: seq<int>, x: int)
    requires Distinct(front + back) && x in front
    ensures 0 <= IndexOf(front + back, x) < |front| && front[IndexOf(front + back, x)] == x
  {
    FromTheFront(front, back, x);
  }

  lemma FromTheBack(front: seq<int>, dead: seq<int>, x: int)
    requires Distinct(front + Reverse(dead)) && x in dead
    ensures IndexOf(front + Reverse(dead), x) == |front| + |dead| - 1 - IndexOf(dead, x)
    ensures 0 <= IndexOf(dead, x) < |dead|
  {
    hide Reverse, IndexOf, Distinct;
    var w := IndexOf(dead, x);
    assert Reverse(dead)[|dead| - 1 - w] == x;
    IndexOfAt(front + Reverse(dead), |front| + |dead| - 1 - w);
  }

  lemma FromTheFront(front: seq<int>, back: seq<int>, x: int)
    requires Distinct(front + back) && x in front
    ensures 0 <= IndexOf(front + back, x) < |front|
  {
    hide IndexOf, Distinct;
    var i :| 0 <= i < |front| && front[i] == x;
    IndexOfAt(front + back, i);
  }

  /** Places one by one, as `placements` fills its map. */
  function PlacesUpTo(order: seq<int>, k: nat): map<int, int>
    requires k <= |order|
  {
    if k == 0 then map[] else PlacesUpTo(order, k - 1)[order[k - 1] := k]
  }

  lemma {:induction false} PlacesUpToValues(order: seq<int>, k: nat)
    requires Distinct(order) && k <= |order|
    ensures forall i :: 0 <= i < k ==> order[i] in PlacesUpTo(order, k) && PlacesUpTo(order, k)[order[i]] == i + 1
    ensures forall s :: s in PlacesUpTo(order, k) ==> s in order[..k]
  {
    if k > 0 {
      PlacesUpToValues(order, k - 1);
      forall s | s in PlacesUpTo(order, k) ensures s in order[..k] {
        if s == order[k - 1] {
          assert order[..k][k - 1] == s;
        } else {
          assert s in order[..k - 1];
          var i :| 0 <= i < k - 1 && order[i] == s;
          assert order[..k][i] == s;
        }
      }
    }
  }

  /** The places: every seat has one, no two share one, and the fallback for a missing seat is never needed. */
  lemma PlacesAreBijective(a: Arena)
    requires SeatsOk(a.players) && DeathsOk(a.players, a.deathOrder)
    ensures var places := PlacesUpTo(BestFirst(a), |BestFirst(a)|);
      && (forall s :: s in places <==> 0 <= s < |a.players|)
      && (forall s :: 0 <= s < |a.players| ==> places[s] == PlaceOf(a, s) && 1 <= places[s] <= |a.players|)
      && (forall s, t :: 0 <= s < t < |a.players| ==> places[s] != places[t])
      && |BestFirst(a)| == |a.players|
      && (forall i :: 0 <= i < |BestFirst(a)| ==> BestFirst(a)[i] in places && places[BestFirst(a)[i]] == i + 1)
  {
    hide *;
    RankingPlacesAll(a);
    var order := BestFirst(a);
    forall s | 0 <= s < |a.players|
      ensures var places := PlacesUpTo(order, |order|);
        s in places && places[s] == PlaceOf(a, s) && 1 <= places[s] <= |a.players| && order[places[s] - 1] == s
    {
      PlaceOfSeat(a, s);
    }
    PlacesUpToValues(order, |order|);
    WholeList(order);
  }

  lemma WholeList(order: seq<int>)
    ensures order[..|order|] == order
  {
  }

  lemma PlaceOfSeat(a: Arena, s: nat)
    requires Distinct(BestFirst(a)) && s in BestFirst(a)
    ensures var order, places := BestFirst(a), PlacesUpTo(BestFirst(a), |BestFirst(a)|);
      s in places && places[s] == PlaceOf(a, s) && 1 <= places[s] <= |order| && order[places[s] - 1] == s
  {
    hide BestFirst, PlacesUpTo, IndexOf;
    PlacesUpToValues(BestFirst(a), |BestFirst(a)|);
  }

  /** The players, best first. */
  function RankedUsers(a: Arena): (r: seq<nat>)
    requires forall s :: s in BestFirst(a) ==> 0 <= s < |a.players|
    ensures |r| == |BestFirst(a)|
    ensures forall i :: 0 <= i < |r| ==> 0 <= BestFirst(a)[i] < |a.players| && r[i] == a.players[BestFirst(a)[i]].user
  {
    assert forall i :: 0 <= i < |BestFirst(a)| ==> BestFirst(a)[i] in BestFirst(a);
    seq(|BestFirst(a)|, i requires 0 <= i < |BestFirst(a)| => a.players[BestFirst(a)[i]].user)
  }

  function RpUpTo(users: seq<nat>, k: nat): map<nat, int>
    requires k <= |users|
  {
    if k == 0 then map[] else RpUpTo(users, k - 1)[users[k - 1] := PlaceDelta(RP_SPREAD, |users|, k)]
  }

  lemma {:induction false} RpUpToValues(users: seq<nat>, k: nat)
    requires Distinct(users) && k <= |users|
    ensures var m := RpUpTo(users, k);
      && (forall i :: 0 <= i < k ==> users[i] in m && m[users[i]] == PlaceDelta(RP_SPREAD, |users|, i + 1))
      && forall u :: u in m ==> u in users
  {
    hide PlaceDelta;
    if k > 0 {
      RpUpToValues(users, k - 1);
    }
  }

  /** The rank points a finished match reports cancel out, and the first place's are the most. */
  lemma MatchPointsCancel(a: Arena)
    requires SeatsOk(a.players) && DeathsOk(a.players, a.deathOrder)
    ensures forall s :: s in BestFirst(a) ==> 0 <= s < |a.players|
    ensures var users := RankedUsers(a);
      var rp := RpUpTo(users, |users|);
      && |users| == |a.players|
      && Sum(rp) == 0
      && users[0] in rp && rp[users[0]] == RP_SPREAD
      && (forall u :: u in rp && u != users[0] ==> rp[u] < RP_SPREAD)
  {
    assert 2 <= |a.players| <= 4;
    hide Sum, PlaceDelta, BestFirst, RpUpTo, IndexOf, SeatsOk, DeathsOk, Distinct;
    RankingPlacesAll(a);
    RankedUsersDistinct(a);
    var users := RankedUsers(a);
    RpKeys(users);
    PlacesCancel(RpUpTo(users, |users|), users, RP_SPREAD, 0);
  }

  /** Stored points of a match's players never shrink, and grow exactly when somebody loses more than they have. */
  lemma MatchPointsStored(a: Arena, p: Points)
    requires SeatsOk(a.players) && DeathsOk(a.players, a.deathOrder)
    requires Stored(p) && forall s :: 0 <= s < |a.players| ==> a.players[s].user in p
    ensures forall s :: s in BestFirst(a) ==> 0 <= s < |a.players|
    ensures var users := RankedUsers(a);
      var rp := RpUpTo(users, |users|);
      && (forall u :: u in users ==> u in rp && u in p)
      && Stored(AddAll(p, rp, users))
      && Sum(AddAll(p, rp, users)) >= Sum(p)
      && (Sum(AddAll(p, rp, users)) == Sum(p) <==> !Clamped(p, rp, users))
  {
    hide Sum, PlaceDelta, BestFirst, RpUpTo, IndexOf, SeatsOk, DeathsOk, Distinct, AddAll, Clamped;
    RankingPlacesAll(a);
    RankedUsersDistinct(a);
    var users := RankedUsers(a);
    RpKeys(users);
    MatchPointsCancel(a);
    AddAllTotal(p, RpUpTo(users, |users|), users);
  }

  /** Every player's points are those of their place. */
  lemma MatchPointsByPlace(a: Arena)
    requires SeatsOk(a.players) && DeathsOk(a.players, a.deathOrder)
    ensures forall s :: s in BestFirst(a) ==> 0 <= s < |a.players|
    ensures var users := RankedUsers(a);
      forall s :: 0 <= s < |a.players| ==>
        a.players[s].user in RpUpTo(users, |users|)
        && RpUpTo(users, |users|)[a.players[s].user] == PlaceDelta(RP_SPREAD, |a.players|, PlaceOf(a, s))
  {
    hide *;
    RankingPlacesAll(a);
    RankedUsersDistinct(a);
    var users := RankedUsers(a);
    forall s | 0 <= s < |a.players|
      ensures a.players[s].user in RpUpTo(users, |users|)
      ensures RpUpTo(users, |users|)[a.players[s].user] == PlaceDelta(RP_SPREAD, |a.players|, PlaceOf(a, s))
    {
      PointsOfSeat(a, users, s);
    }
  }

  lemma PointsOfSeat(a: Arena, users: seq<nat>, s: nat)
    requires Distinct(users) && Distinct(BestFirst(a)) && |BestFirst(a)| == |a.players| == |users| && s < |a.players|
    requires forall s :: s in BestFirst(a) <==> 0 <= s < |a.players|
    requires forall i :: 0 <= i < |users| ==> 0 <= BestFirst(a)[i] < |a.players| && users[i] == a.players[BestFirst(a)[i]].user
    ensures a.players[s].user in RpUpTo(users, |users|)
    ensures RpUpTo(users, |users|)[a.players[s].user] == PlaceDelta(RP_SPREAD, |users|, PlaceOf(a, s))
  {
    assert s in BestFirst(a);
    var i := PlaceOf(a, s) - 1;
    assert users[i] == a.players[s].user;
    hide PlaceDelta, IndexOf, RpUpTo, BestFirst;
    RpUpToValues(users, |users|);
  }

  lemma RpKeys(users: seq<nat>)
    requires Distinct(users)
    ensures RpUpTo(users, |users|).Keys == (set u | u in users)
    ensures forall i :: 0 <= i < |users| ==> RpUpTo(users, |users|)[users[i]] == PlaceDelta(RP_SPREAD, |users|, i + 1)
  {
    RpUpToValues(users, |users|);
    hide PlaceDelta, RpUpTo;
    assert forall i :: 0 <= i < |users| ==> users[i] in RpUpTo(users, |users|);
  }

  lemma RankedUsersDistinct(a: Arena)
    requires SeatsOk(a.players) && Distinct(BestFirst(a))
    requires forall s :: s in BestFirst(a) ==> 0 <= s < |a.players|
    ensures Distinct(RankedUsers(a))
  {
    var users, order := RankedUsers(a), BestFirst(a);
    hide BestFirst;
    forall i, j | 0 <= i < j < |users| ensures users[i] != users[j] {
      assert order[i] != order[j];
    }
  }

  // ---- the match ----

  function Alive(players: seq<Player>): nat {
    if players == [] then 0 else (if players[0].alive then 1 else 0) + Alive(players[1..])
  }

  /** The sign of a direction. */
  function Clamp(v: int): (r: int)
    ensures -1 <= r <= 1 && (r > 0 <==> v > 0) && (r < 0 <==> v < 0)
  {
    if v < -1 then -1 else if v > 1 then 1 else v
  }

  /** Everybody moves in turn; nobody's move depends on another player. */
  ghost function MoveAll(a: Arena, dt: real, k: nat): (r: Arena)
    requires GridOk(a.cols, a.rows, a.grid) && k <= |a.players|
    ensures |r.players| == |a.players| && r.grid == a.grid && r.cols == a.cols && r.rows == a.rows && r.bombs == a.bombs
    decreases k
  {
    if k == 0 then a
    else
      var b := MoveAll(a, dt, k - 1);
      b.(players := b.players[k - 1 := Moved(b, b.players[k - 1], dt)])
  }

  lemma OthersDoNotHinder(a: Arena, players: seq<Player>, p: Player, dt: real)
    requires GridOk(a.cols, a.rows, a.grid)
    ensures Moved(a.(players := players), p, dt) == Moved(a, p, dt)
  {
    forall x, y, q ensures Collides(a.(players := players), q, x, y) == Collides(a, q, x, y) {
      assert forall c, r :: Blocked(a.(players := players), q, c, r) == Blocked(a, q, c, r);
    }
    hide Collides, CenterStep, Towards, SteppedOff, GridOk;
  }

  /** Every player moves as if they were alone. */
  lemma {:induction false} EveryoneMoves(a: Arena, dt: real, k: nat)
    requires GridOk(a.cols, a.rows, a.grid) && k <= |a.players|
    ensures var r := MoveAll(a, dt, k);
      && r == a.(players := r.players)
      && (forall i :: 0 <= i < k ==> r.players[i] == Moved(a, a.players[i], dt))
      && (forall i :: k <= i < |a.players| ==> r.players[i] == a.players[i])
    decreases k
  {
    hide Moved, GridOk;
    if k > 0 {
      EveryoneMoves(a, dt, k - 1);
      OthersDoNotHinder(a, MoveAll(a, dt, k - 1).players, a.players[k - 1], dt);
    }
  }

  ghost predicate MayPlace(a: Arena, user: nat, now: int) {
    && GridOk(a.cols, a.rows, a.grid)
    && exists i :: 0 <= i < |a.players| && a.players[i].user == user && TryPlace(a, i, now).Some?
  }

  /** What a seat without a place would get. */
  function OrLast(places: map<int, int>, seat: int, n: int): map<int, int> {
    if seat in places then places else places[seat := n]
  }

  class Match {
    const world: World
    const startedAt: int
    var lastTick: int
    var finished: bool

    ghost predicate Valid()
      reads this, world, world.grid
    {
      world.Valid()
    }

    constructor (mapId: string, users: seq<nat>, now: int)
      requires 2 <= |users| <= 4 && Distinct(users)
      ensures Valid() && !finished && lastTick == startedAt == now
      ensures fresh(world) && fresh(world.grid)
      ensures Built(GetMap(mapId), world.grid[..]) && world.players == Spawned(GetMap(mapId), users)
    {
      var w := CreateState(mapId, users);
      world, startedAt, lastTick, finished := w, now, now, false;
    }

    method FindPlayer(user: nat) returns (found: Option<nat>)
      ensures found.Some? ==> found.value < |world.players| && world.players[found.value].user == user
      ensures found.None? ==> forall k :: 0 <= k < |world.players| ==> world.players[k].user != user
    {
      for i := 0 to |world.players|
        invariant forall k :: 0 <= k < i ==> world.players[k].user != user
      {
        if world.players[i].user == user {
          return Some(i);
        }
      }
      found := None;
    }

    /** The direction a living player heads in, each axis cut down to -1, 0 or 1. */
    method SetInput(user: nat, dx: real, dy: real)
      requires Valid()
      modifies world`players
      ensures Valid()
      ensures |world.players| == |old(world.players)|
      ensures forall k :: 0 <= k < |world.players| ==>
        world.players[k] == if !finished && old(world.players[k]).user == user && old(world.players[k]).alive
          then old(world.players[k]).(dx := Clamp(RoundJs(dx)), dy := Clamp(RoundJs(dy))) else old(world.players[k])
    {
      if finished {
        return;
      }
      var found := FindPlayer(user);
      assert SeatsOk(world.players);
      if found.Some? && world.players[found.value].alive {
        var i := found.value;
        InputKeeps(world.View(), i, Clamp(RoundJs(dx)), Clamp(RoundJs(dy)));
        hide Sane, Clamp, RoundJs;
        world.players := world.players[i := world.players[i].(dx := Clamp(RoundJs(dx)), dy := Clamp(RoundJs(dy)))];
      }
    }

    /** A player asks for a bomb; it is placed if the match runs and the player may. */
    method PlaceBomb(user: nat, now: int) returns (placed: Option<Bomb>)
      requires Valid()
      modifies world`bombs, world`players
      ensures Valid()
      ensures placed.Some? <==> !finished && MayPlace(old(world.View()), user, now)
      ensures placed.None? ==> world.View() == old(world.View())
      ensures placed.Some? ==> world.bombs == old(world.bombs) + [placed.value] && placed.value.owner == user
    {
      assert SeatsOk(world.players) && GridOk(world.cols, world.rows, world.grid[..]);
      if finished {
        return None;
      }
      var found := FindPlayer(user);
      if found.None? {
        return None;
      }
      hide Sane, GridOk;
      placed := world.PlaceBomb(found.value, now);
    }

    /** A player who leaves a running match dies, after everybody who died before; nothing else changes. */
    method KillPlayer(user: nat)
      requires Valid()
      modifies world`players, world`deathOrder
      ensures Valid()
      ensures |world.players| == |old(world.players)|
      ensures forall k :: 0 <= k < |world.players| ==>
        world.players[k] == if !finished && old(world.players[k]).user == user
          then old(world.players[k]).(alive := false) else old(world.players[k])
      ensures forall k :: 0 <= k < |world.players| && !finished && old(world.players[k]).user == user && old(world.players[k]).alive ==>
        world.deathOrder == old(world.deathOrder) + [k]
      ensures (finished || forall k :: 0 <= k < |world.players| && old(world.players[k]).user == user ==> !old(world.players[k]).alive) ==>
        world.deathOrder == old(world.deathOrder)
    {
      if finished {
        return;
      }
      var found := FindPlayer(user);
      if found.None? {
        return;
      }
      assert SeatsOk(world.players);
      hide Sane;
      world.KillPlayer(found.value);
    }

    method MoveEverybody(dt: real)
      requires Valid() && 0.0 <= dt <= MAX_DT
      modifies world`players
      ensures Valid()
      ensures GridOk(world.cols, world.rows, world.grid[..])
      ensures world.View() == MoveAll(old(world.View()), dt, |old(world.players)|)
    {
      hide Sane, GridOk, Moved, Stops, Slide, Collides;
      SaneGrid(world.View());
      for i := 0 to |world.players|
        invariant |world.players| == |old(world.players)| && Valid()
        invariant world.View() == MoveAll(old(world.View()), dt, i)
      {
        world.MovePlayer(i, dt);
      }
    }

    method CountAlive() returns (n: nat)
      ensures n == Alive(world.players)
    {
      n := 0;
      for i := 0 to |world.players|
        invariant n + Alive(world.players[i..]) == Alive(world.players)
      {
        if world.players[i].alive {
          n := n + 1;
        }
      }
    }

    /** Everybody moves for `dt` seconds, then the world goes on. */
    method Advance(dt: real, now: int) returns (ghost moved: Arena, ghost g: Fire)
      requires Valid() && 0.0 <= dt <= MAX_DT
      modifies world, world.grid
      ensures Valid() && Sane(moved)
      ensures GridOk(world.cols, world.rows, old(world.grid[..]))
      ensures moved == MoveAll(old(world.View()), dt, |old(world.players)|)
      ensures Due(moved.bombs, now) == [] ==> world.View() == Settle(moved, now)
      ensures Due(moved.bombs, now) != [] ==> Exploded(moved, g, now) && world.View() == Settle(Cleared(g), now)
    {
      hide Sane, Exploded, Settle, MoveAll, Due, Cleared;
      MoveEverybody(dt);
      moved := world.View();
      var e, deaths;
      e, deaths, g := world.TickWorld(now);
    }

    /**
     * One tick: everybody moves, the world goes on, and the match ends when at most one player
     * is left or the time is up.
     */
    method Tick(now: int) returns (ghost moved: Arena, ghost g: Fire)
      requires Valid() && now >= lastTick
      modifies this, world, world.grid
      ensures Valid()
      ensures old(finished) ==> finished && world.View() == old(world.View())
      ensures !old(finished) ==> lastTick == now
      ensures !old(finished) ==> (finished <==> Alive(world.players) <= 1 || now - startedAt > ROUND_LIMIT_MS)
      ensures GridOk(world.cols, world.rows, old(world.grid[..]))
      ensures !old(finished) ==> Sane(moved)
      ensures !old(finished) ==>
        moved == MoveAll(old(world.View()), StepTime(now - old(lastTick)), |old(world.players)|)
      ensures !old(finished) && Due(moved.bombs, now) == [] ==> world.View() == Settle(moved, now)
      ensures !old(finished) && Due(moved.bombs, now) != [] ==>
        Exploded(moved, g, now) && world.View() == Settle(Cleared(g), now)
    {
      assert GridOk(world.cols, world.rows, world.grid[..]);
      hide Sane, GridOk, Exploded, Settle, MoveAll, Due, Alive, Cleared;
      if finished {
        moved := world.View();
        g := Fire(moved, [], [], [], now, {}, [], [], []);
        return;
      }
      var dt := StepTime(now - lastTick);
      lastTick := now;
      moved, g := Advance(dt, now);
      var alive := CountAlive();
      if alive <= 1 || now - startedAt > ROUND_LIMIT_MS {
        finished := true;
      }
    }

    /** The place of every seat, as `finish` records it. */
    method Placements() returns (places: map<int, int>)
      requires Valid()
      ensures places == PlacesUpTo(BestFirst(world.View()), |BestFirst(world.View())|)
      ensures forall s :: 0 <= s < |world.players| ==> s in places && places[s] == PlaceOf(world.View(), s)
      ensures forall s, t :: 0 <= s < t < |world.players| ==> places[s] != places[t]
    {
      hide Sane, SeatsOk, DeathsOk, IndexOf, Survivors, Reverse, PlacesUpTo, PlaceOf;
      SaneSeats(world.View());
      PlacesAreBijective(world.View());
      var order := Survivors(world.players, |world.players|) + Reverse(world.deathOrder);
      places := FillPlaces(order, |world.players|);
    }
  }

  lemma SaneSeats(a: Arena)
    requires Sane(a)
    ensures SeatsOk(a.players) && DeathsOk(a.players, a.deathOrder)
  {
  }

  method FillPlaces(order: seq<int>, n: nat) returns (places: map<int, int>)
    requires forall s :: 0 <= s < n ==> s in PlacesUpTo(order, |order|)
    ensures places == PlacesUpTo(order, |order|)
  {
    places := map[];
    for i := 0 to |order|
      invariant places == PlacesUpTo(order, i)
    {
      places := places[order[i] := i + 1];
    }
    for i := 0 to n
      invariant places == PlacesUpTo(order, |order|)
    {
      places := OrLast(places, i, n);
    }
  }

  /** Seconds a tick simulates: the time since the last one, at most a tenth of a second. */
  function StepTime(elapsed: int): (dt: real)
    ensures elapsed >= 0 ==> 0.0 <= dt <= MAX_DT
    ensures dt <= elapsed as real / 1000.0 && (dt == elapsed as real / 1000.0 || dt == MAX_DT)
  {
    if elapsed as real / 1000.0 < MAX_DT then elapsed as real / 1000.0 else MAX_DT
  }

  lemma InputKeeps(a: Arena, i: nat, dx: int, dy: int)
    requires Sane(a) && i < |a.players| && -1 <= dx <= 1 && -1 <= dy <= 1
    ensures Sane(a.(players := a.players[i := a.players[i].(dx := dx, dy := dy)]))
  {
    PlayerIsFit(a, i);
    hide Sane, BoxClear;
    PlayerReplaced(a, i, a.players[i].(dx := dx, dy := dy));
  }
}
