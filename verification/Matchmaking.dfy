/**
 * Matchmaking queues shared by many server instances
 * (src/games/caro/caro-matchmaking.service.ts, src/games/bomberman/bomberman-matchmaking.service.ts).
 *
 * An instance reads a listing of a queue, chooses players from it, and later claims them in
 * one atomic step; anything may happen in between. Every entry put into a queue carries a
 * ticket of its own, so that consuming an entry twice would be visible.
 */
module Matchmaking {
  import opened Wrappers
  import opened Sorting

  type UserId = nat

  datatype Listed = Listed(user: UserId, rp: int)

  function Distance(rp: int, mine: int): nat { if rp < mine then mine - rp else rp - mine }

  // ---- Caro: the nearest opponent in a listing ----

  /** The first of the candidates nearest to `mine`. */
  ghost predicate Nearest(all: seq<Listed>, me: UserId, mine: int, i: nat) {
    && i < |all| && all[i].user != me
    && (forall k :: 0 <= k < |all| && all[k].user != me ==> Distance(all[i].rp, mine) <= Distance(all[k].rp, mine))
    && (forall k :: 0 <= k < i && all[k].user != me ==> Distance(all[i].rp, mine) < Distance(all[k].rp, mine))
  }

  method PickNearest(all: seq<Listed>, me: UserId, mine: int) returns (best: Option<Listed>)
    ensures best.None? <==> forall k :: 0 <= k < |all| ==> all[k].user == me
    ensures best.Some? ==> exists i: nat :: Nearest(all, me, mine, i) && all[i] == best.value
  {
    best := None;
    ghost var at := 0;
    for i := 0 to |all|
      invariant best.None? ==> forall k :: 0 <= k < i ==> all[k].user == me
      invariant best.Some? ==> Nearest(all[..i], me, mine, at) && all[at] == best.value
    {
      if all[i].user != me && (best.None? || Distance(all[i].rp, mine) < Distance(best.value.rp, mine)) {
        best := Some(all[i]);
        at := i;
      }
    }
    assert all[..|all|] == all;
  }

  // ---- Bomberman: the closest group in a listing ----

  /** A stable insertion: behind everybody who is not farther away. */
  function Insert(x: Listed, s: seq<Listed>, mine: int): (r: seq<Listed>)
    ensures multiset(r) == multiset(s) + multiset{x}
    ensures |r| == |s| + 1
  {
    if s == [] then [x]
    else if Distance(x.rp, mine) < Distance(s[0].rp, mine) then [x] + s
    else
      assert s == [s[0]] + s[1..];
      [s[0]] + Insert(x, s[1..], mine)
  }

  /** The pool sorted by distance; players at the same distance keep their order. */
  function ByDistance(pool: seq<Listed>, mine: int): (r: seq<Listed>)
    ensures multiset(r) == multiset(pool)
    ensures |r| == |pool|
  {
    if pool == [] then []
    else
      assert pool == pool[..|pool| - 1] + [pool[|pool| - 1]];
      Insert(pool[|pool| - 1], ByDistance(pool[..|pool| - 1], mine), mine)
  }

  ghost predicate Ascending(s: seq<Listed>, mine: int) {
    forall i, j :: 0 <= i < j < |s| ==> Distance(s[i].rp, mine) <= Distance(s[j].rp, mine)
  }

  lemma {:induction false} InsertAscending(x: Listed, s: seq<Listed>, mine: int)
    requires Ascending(s, mine)
    ensures Ascending(Insert(x, s, mine), mine)
  {
    if s != [] && Distance(x.rp, mine) >= Distance(s[0].rp, mine) {
      var rest := Insert(x, s[1..], mine);
      InsertAscending(x, s[1..], mine);
      forall k | 0 <= k < |rest| ensures Distance(s[0].rp, mine) <= Distance(rest[k].rp, mine) {
        assert rest[k] in multiset(rest);
        assert rest[k] in multiset(s[1..]) || rest[k] == x;
      }
    }
  }

  lemma {:induction false} ByDistanceAscending(pool: seq<Listed>, mine: int)
    ensures Ascending(ByDistance(pool, mine), mine)
  {
    if pool != [] {
      ByDistanceAscending(pool[..|pool| - 1], mine);
      InsertAscending(pool[|pool| - 1], ByDistance(pool[..|pool| - 1], mine), mine);
    }
  }

  function FindMe(pool: seq<Listed>, me: UserId): (i: Option<nat>)
    ensures i.Some? ==> i.value < |pool| && pool[i.value].user == me
    ensures i.None? ==> forall k :: 0 <= k < |pool| ==> pool[k].user != me
  {
    if pool == [] then None
    else if pool[0].user == me then Some(0)
    else
      match FindMe(pool[1..], me)
      case None => None
      case Some(i) => Some(i + 1)
  }

  function UsersOf(s: seq<Listed>): (r: seq<UserId>)
    ensures |r| == |s| && forall i :: 0 <= i < |s| ==> r[i] == s[i].user
  {
    seq(|s|, i requires 0 <= i < |s| => s[i].user)
  }

  /** The players an instance decides to claim from a listing. */
  function Choose(all: seq<Listed>, me: UserId, size: nat): Option<seq<UserId>> {
    if |all| < size then None
    else
      match FindMe(all, me)
      case None => None
      case Some(i) => Some(UsersOf(ByDistance(all, all[i].rp)[..size]))
  }

  /** A listing names every user once. */
  ghost predicate Listing(all: seq<Listed>) { Distinct(UsersOf(all)) }

  lemma {:induction false} ListedOnce(all: seq<Listed>)
    requires Listing(all)
    ensures forall x :: multiset(all)[x] <= 1
  {
    if all != [] {
      var front, last := all[..|all| - 1], all[|all| - 1];
      forall i, j | 0 <= i < j < |front| ensures UsersOf(front)[i] != UsersOf(front)[j] {
        assert UsersOf(all)[i] != UsersOf(all)[j];
      }
      ListedOnce(front);
      assert all == front + [last];
      forall i | 0 <= i < |front| ensures front[i] != last {
        assert UsersOf(all)[i] != UsersOf(all)[|all| - 1];
      }
    }
  }

  lemma {:induction false} OnceIsDistinct(s: seq<Listed>)
    requires forall x :: multiset(s)[x] <= 1
    ensures Distinct(s)
  {
    if s != [] {
      var front, last := s[..|s| - 1], s[|s| - 1];
      assert s == front + [last];
      forall x ensures multiset(front)[x] <= 1 && (x in front ==> x != last) {
        assert multiset(s)[x] == multiset(front)[x] + if x == last then 1 else 0;
      }
      OnceIsDistinct(front);
      forall i, j | 0 <= i < j < |s| ensures s[i] != s[j] {
        assert s[i] in front;
      }
    }
  }

  lemma BeyondPrefix(s: seq<UserId>, n: nat, b: nat)
    requires n <= |s| && b < |s| && s[b] !in s[..n]
    ensures b >= n
  {
  }

  /** The chosen group: `size` different players of the pool, nobody outside it closer than anybody in it. */
  lemma ChosenAreClosest(all: seq<Listed>, me: UserId, size: nat)
    requires Listing(all) && Choose(all, me, size).Some?
    ensures var chosen := Choose(all, me, size).value;
      && |chosen| == size && Distinct(chosen)
      && (forall u :: u in chosen ==> u in UsersOf(all))
      && FindMe(all, me).Some?
      && forall i, k :: 0 <= i < |all| && 0 <= k < |all| && all[i].user in chosen && all[k].user !in chosen ==>
           Distance(all[i].rp, all[FindMe(all, me).value].rp) <= Distance(all[k].rp, all[FindMe(all, me).value].rp)
  {
    var mine := all[FindMe(all, me).value].rp;
    var sorted := ByDistance(all, mine);
    ByDistanceAscending(all, mine);
    ListedOnce(all);
    OnceIsDistinct(sorted);
    SortedUsersDistinct(all, sorted);
    var chosen := Choose(all, me, size).value;
    hide ByDistance, FindMe, Listing;
    assert chosen == UsersOf(sorted)[..size];
    forall i, k | 0 <= i < |all| && 0 <= k < |all| && all[i].user in chosen && all[k].user !in chosen
      ensures Distance(all[i].rp, mine) <= Distance(all[k].rp, mine)
    {
      var a := WhereSorted(all, sorted, i);
      var b := WhereSorted(all, sorted, k);
      assert UsersOf(sorted)[a] == all[i].user && UsersOf(sorted)[b] == all[k].user;
      var c :| 0 <= c < size && chosen[c] == all[i].user;
      assert UsersOf(sorted)[c] == all[i].user;
      assert a == c;
      BeyondPrefix(UsersOf(sorted), size, b);
    }
    forall u | u in chosen ensures u in UsersOf(all) {
      var c :| 0 <= c < size && chosen[c] == u;
      assert sorted[c] in multiset(sorted);
      assert sorted[c] in all;
      var i :| 0 <= i < |all| && all[i] == sorted[c];
      assert UsersOf(all)[i] == u;
    }
  }

  lemma WhereSorted(all: seq<Listed>, sorted: seq<Listed>, i: nat) returns (a: nat)
    requires multiset(sorted) == multiset(all) && i < |all|
    ensures a < |sorted| && sorted[a] == all[i]
  {
    assert all[i] in multiset(all);
    assert all[i] in sorted;
    a :| 0 <= a < |sorted| && sorted[a] == all[i];
  }

  lemma SortedUsersDistinct(all: seq<Listed>, sorted: seq<Listed>)
    requires Listing(all) && multiset(sorted) == multiset(all) && Distinct(sorted)
    ensures Distinct(UsersOf(sorted))
  {
    forall i, j | 0 <= i < j < |sorted| ensures UsersOf(sorted)[i] != UsersOf(sorted)[j] {
      assert sorted[i] in multiset(sorted) && sorted[j] in multiset(sorted);
      assert sorted[i] in all && sorted[j] in all;
      var a :| 0 <= a < |all| && all[a] == sorted[i];
      var b :| 0 <= b < |all| && all[b] == sorted[j];
      assert UsersOf(all)[a] != UsersOf(all)[b];
    }
  }

  // ---- is the caller in the group they asked for? ----

  /** How many of the first `k` listed have exactly this rank. */
  function SameRank(all: seq<Listed>, rp: int, k: nat): nat
    requires k <= |all|
  {
    if k == 0 then 0 else SameRank(all, rp, k - 1) + if all[k - 1].rp == rp then 1 else 0
  }

  /** Sorting by distance puts those of the caller's own rank first, in listing order. */
  lemma {:induction false} EqualsComeFirst(all: seq<Listed>, mine: int, i: nat)
    requires i < |all| && all[i].rp == mine
    ensures SameRank(all, mine, i) < |all| && ByDistance(all, mine)[SameRank(all, mine, i)] == all[i]
    decreases |all|
  {
    var front, last := all[..|all| - 1], all[|all| - 1];
    var sorted := ByDistance(front, mine);
    RankPrefix(all, mine, i);
    if i < |front| {
      EqualsComeFirst(front, mine, i);
      ByDistanceAscending(front, mine);
      InsertBehind(last, sorted, mine, SameRank(front, mine, i));
    } else {
      EqualsLead(front, mine);
      InsertAfterEquals(last, sorted, mine, SameRank(front, mine, |front|));
    }
  }

  lemma {:induction false} RankPrefix(all: seq<Listed>, mine: int, i: nat)
    requires i < |all|
    ensures SameRank(all, mine, i) == SameRank(all[..|all| - 1], mine, i) <= i
  {
    if i > 0 {
      RankPrefix(all, mine, i - 1);
    }
  }

  /** Everybody of exactly the caller's rank, and nobody else, is at the front of the sorted pool. */
  lemma {:induction false} EqualsLead(all: seq<Listed>, mine: int)
    ensures SameRank(all, mine, |all|) <= |all|
    ensures var n := SameRank(all, mine, |all|);
      && (forall k :: 0 <= k < n ==> ByDistance(all, mine)[k].rp == mine)
      && (forall k :: n <= k < |all| ==> ByDistance(all, mine)[k].rp != mine)
    decreases |all|
  {
    if all != [] {
      var front, last := all[..|all| - 1], all[|all| - 1];
      EqualsLead(front, mine);
      RankPrefix(all, mine, |front|);
      InsertShape(last, ByDistance(front, mine), mine, SameRank(front, mine, |front|));
    }
  }

  lemma {:induction false} InsertShape(x: Listed, s: seq<Listed>, mine: int, n: nat)
    requires n <= |s|
    requires forall k :: 0 <= k < n ==> s[k].rp == mine
    requires forall k :: n <= k < |s| ==> s[k].rp != mine
    ensures var m := if x.rp == mine then n + 1 else n;
      && (forall k :: 0 <= k < m ==> Insert(x, s, mine)[k].rp == mine)
      && (forall k :: m <= k <= |s| ==> Insert(x, s, mine)[k].rp != mine)
    decreases |s|
  {
    if s != [] && !(Distance(x.rp, mine) < Distance(s[0].rp, mine)) {
      InsertShape(x, s[1..], mine, if n > 0 then n - 1 else 0);
    }
  }

  lemma {:induction false} InsertBehind(x: Listed, s: seq<Listed>, mine: int, k: nat)
    requires k < |s| && s[k].rp == mine
    requires Ascending(s, mine)
    ensures Insert(x, s, mine)[k] == s[k]
    decreases |s|
  {
    if k > 0 {
      assert Distance(s[0].rp, mine) <= Distance(s[k].rp, mine);
      InsertBehind(x, s[1..], mine, k - 1);
    }
  }

  lemma {:induction false} InsertAfterEquals(x: Listed, s: seq<Listed>, mine: int, n: nat)
    requires n <= |s| && x.rp == mine
    requires forall k :: 0 <= k < n ==> s[k].rp == mine
    requires forall k :: n <= k < |s| ==> s[k].rp != mine
    ensures Insert(x, s, mine)[n] == x
    decreases |s|
  {
    if n > 0 {
      InsertAfterEquals(x, s[1..], mine, n - 1);
    }
  }

  /**
   * The caller is in the group chosen for them exactly when fewer than `size` players of
   * exactly their rank are listed before them.
   */
  lemma CallerChosenIff(all: seq<Listed>, me: UserId, size: nat)
    requires Listing(all) && Choose(all, me, size).Some?
    ensures FindMe(all, me).Some?
    ensures var i := FindMe(all, me).value;
      me in Choose(all, me, size).value <==> SameRank(all, all[i].rp, i) < size
  {
    var i := FindMe(all, me).value;
    var mine := all[i].rp;
    var sorted, k := ByDistance(all, mine), SameRank(all, mine, i);
    EqualsComeFirst(all, mine, i);
    ListedOnce(all);
    OnceIsDistinct(sorted);
    SortedUsersDistinct(all, sorted);
    var chosen := Choose(all, me, size).value;
    hide ByDistance, FindMe, Listing, SameRank;
    assert chosen == UsersOf(sorted)[..size];
    assert UsersOf(sorted)[k] == me;
    if k < size {
      assert chosen[k] == me;
    } else {
      NotInPrefix(UsersOf(sorted), size, k);
    }
  }

  lemma NotInPrefix(s: seq<UserId>, n: nat, k: nat)
    requires Distinct(s) && n <= k < |s|
    ensures s[k] !in s[..n]
  {
    forall c | 0 <= c < n ensures s[..n][c] != s[k] {
      assert s[c] != s[k];
    }
  }

  /** Three players of one rank and a table of two: the last of them calls a match they are not part of. */
  lemma CallerLeftOut()
    ensures var all := [Listed(1, 100), Listed(2, 100), Listed(3, 100)];
      Listing(all) && Choose(all, 3, 2).Some? && 3 !in Choose(all, 3, 2).value
  {
    var all := [Listed(1, 100), Listed(2, 100), Listed(3, 100)];
    assert UsersOf(all) == [1, 2, 3];
    assert FindMe(all, 3) == Some(2) by {
      assert all[1..] == [Listed(2, 100), Listed(3, 100)] && all[1..][1..] == [Listed(3, 100)];
    }
    CallerChosenIff(all, 3, 2);
    assert SameRank(all, 100, 1) == 1;
    assert SameRank(all, 100, 2) == 2;
  }
}
