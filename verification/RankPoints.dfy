/**
 * Rank points as they are stored (addRankPoints in src/leveling/leveling.service.ts): a loss
 * never takes a player below zero, so what one player loses can be less than what another
 * gains, although the changes a game reports cancel out.
 */
module RankPoints {
  import opened Wrappers
  import opened Sorting
  import opened Sums

  type Points = map<nat, int>

  function Floored(points: int): (r: int)
    ensures r >= 0 && r >= points && (r == points <==> points >= 0)
  {
    if points < 0 then 0 else points
  }

  function AddRankPoints(p: Points, user: nat, delta: int): (r: Points)
    ensures r.Keys == p.Keys
  {
    if delta == 0 || user !in p then p else p[user := Floored(p[user] + delta)]
  }

  /** The changes of a finished game, one player after another. */
  function AddAll(p: Points, change: map<nat, int>, users: seq<nat>): (r: Points)
    requires forall u :: u in users ==> u in change
    ensures r.Keys == p.Keys
    decreases |users|
  {
    if users == [] then p
    else
      assert users[0] in users && forall u :: u in users[1..] ==> u in users;
      AddAll(AddRankPoints(p, users[0], change[users[0]]), change, users[1..])
  }

  ghost predicate Stored(p: Points) { forall u :: u in p ==> p[u] >= 0 }

  /** Some loss is larger than what its player has. */
  ghost predicate Clamped(p: Points, change: map<nat, int>, users: seq<nat>)
    requires forall u :: u in users ==> u in change && u in p
  {
    exists u :: u in users && p[u] + change[u] < 0
  }

  lemma AddedTotal(p: Points, user: nat, delta: int)
    requires Stored(p) && user in p
    ensures var r := AddRankPoints(p, user, delta);
      && Stored(r) && r[user] == Floored(p[user] + delta)
      && (forall u :: u in p && u != user ==> r[u] == p[u])
      && Sum(r) == Sum(p) + Floored(p[user] + delta) - p[user]
  {
    SumUpdate(p, user, Floored(p[user] + delta));
    hide Sum;
  }

  /** Each player's new points, in whatever order the changes are applied. */
  lemma {:induction false} AddAllValues(p: Points, change: map<nat, int>, users: seq<nat>)
    requires Stored(p) && Distinct(users) && forall u :: u in users ==> u in change && u in p
    ensures var r := AddAll(p, change, users);
      Stored(r) && forall u :: u in p ==> r[u] == if u in users then Floored(p[u] + change[u]) else p[u]
    decreases |users|
  {
    if users != [] {
      var first, rest := users[0], users[1..];
      AddedTotal(p, first, change[first]);
      forall u ensures u in users <==> u == first || u in rest {
        assert users == [first] + rest;
      }
      assert forall i :: 0 <= i < |rest| ==> rest[i] == users[i + 1];
      assert first !in rest;
      AddAllValues(AddRankPoints(p, first, change[first]), change, rest);
    }
  }

  lemma OrderDoesNotMatter(p: Points, change: map<nat, int>, a: seq<nat>, b: seq<nat>)
    requires Stored(p) && Distinct(a) && Distinct(b) && forall u :: u in a ==> u in change && u in p
    requires forall u :: u in a <==> u in b
    ensures AddAll(p, change, a) == AddAll(p, change, b)
  {
    AddAllValues(p, change, a);
    AddAllValues(p, change, b);
  }

  /** What is stored grows by at least the sum of the changes, and by more exactly when a loss is clamped. */
  lemma {:induction false} AddAllAlong(p: Points, change: map<nat, int>, users: seq<nat>)
    requires Stored(p) && Distinct(users) && forall u :: u in users ==> u in change && u in p
    ensures Sum(AddAll(p, change, users)) >= Sum(p) + SumAlong(change, users)
    ensures Sum(AddAll(p, change, users)) > Sum(p) + SumAlong(change, users) <==> Clamped(p, change, users)
    decreases |users|
  {
    if users != [] {
      var first, rest := users[0], users[1..];
      AddedTotal(p, first, change[first]);
      forall u ensures u in users <==> u == first || u in rest {
        assert users == [first] + rest;
      }
      assert forall i :: 0 <= i < |rest| ==> rest[i] == users[i + 1];
      assert first !in rest;
      var next := AddRankPoints(p, first, change[first]);
      hide Sum, SumAlong;
      AddAllAlong(next, change, rest);
      assert Clamped(p, change, users) <==> p[first] + change[first] < 0 || Clamped(next, change, rest);
      SumAlongFront(change, users);
    }
  }

  /** All the changes of a game: stored points are conserved up to the sum of the changes, unless a loss is clamped. */
  lemma AddAllTotal(p: Points, change: map<nat, int>, users: seq<nat>)
    requires Stored(p) && Distinct(users) && change.Keys == (set u | u in users) && forall u :: u in users ==> u in p
    ensures Stored(AddAll(p, change, users))
    ensures Sum(AddAll(p, change, users)) >= Sum(p) + Sum(change)
    ensures Sum(AddAll(p, change, users)) > Sum(p) + Sum(change) <==> Clamped(p, change, users)
  {
    hide Sum, SumAlong, Clamped;
    AddAllValues(p, change, users);
    AddAllAlong(p, change, users);
    SumByKeys(change, users);
  }

  /** Points taken from one player for another: conserved exactly when the first has them. */
  lemma TakenTotal(p: Points, winner: nat, loser: nat, amount: int)
    requires Stored(p) && winner in p && loser in p && winner != loser && amount >= 0
    ensures var r := AddRankPoints(AddRankPoints(p, winner, amount), loser, -amount);
      && Stored(r) && r.Keys == p.Keys
      && Sum(r) >= Sum(p) && (Sum(r) == Sum(p) <==> p[loser] >= amount)
  {
    AddedTotal(p, winner, amount);
    AddedTotal(AddRankPoints(p, winner, amount), loser, -amount);
    hide Sum;
  }

  /** When nobody has points yet, changes that cancel out create points, unless there are none. */
  lemma NothingToTake(p: Points, change: map<nat, int>, users: seq<nat>, winner: nat)
    requires Distinct(users) && change.Keys == (set u | u in users) && forall u :: u in users ==> u in p
    requires (forall u :: u in p ==> p[u] == 0) && Sum(change) == 0 && winner in change && change[winner] > 0
    ensures Clamped(p, change, users)
    ensures Sum(AddAll(p, change, users)) > Sum(p)
  {
    hide Sum;
    AddAllTotal(p, change, users);
    if !Clamped(p, change, users) {
      forall u | u in change ensures change[u] >= 0 {
        assert u in users;
        assert p[u] + change[u] >= 0;
      }
      SumAtLeast(change, winner);
      assert false;
    }
  }

  class LevelingService {
    var points: Points

    constructor (start: Points)
      ensures points == start
    {
      points := start;
    }

    /** None for no change and for unknown users, else the new points. */
    method DoAddRankPoints(user: nat, delta: int) returns (r: Option<int>)
      modifies this
      ensures points == AddRankPoints(old(points), user, delta)
      ensures r == if delta == 0 || user !in points then None else Some(points[user])
    {
      if delta == 0 || user !in points {
        return None;
      }
      points := points[user := Floored(points[user] + delta)];
      r := Some(points[user]);
    }

    /** The changes of a finished game. */
    method DoAddAll(change: map<nat, int>, users: seq<nat>)
      requires forall u :: u in users ==> u in change
      modifies this
      ensures points == AddAll(old(points), change, users)
    {
      for i := 0 to |users|
        invariant forall u :: u in users[i..] ==> u in change
        invariant AddAll(points, change, users[i..]) == AddAll(old(points), change, users)
      {
        assert users[i] in users[i..] && users[i..][1..] == users[i + 1..];
        var _ := DoAddRankPoints(users[i], change[users[i]]);
      }
    }
  }
}
