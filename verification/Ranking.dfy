/**
 * Places and the rank points they earn: shared by the games that rank two to four players
 * (finish in src/games/tienlen/tienlen.service.ts and src/games/bomberman/bomberman.service.ts).
 */
module Ranking {
  import opened Sorting
  import opened Sums
  import opened Rounding

  // ---- lists of places ----

  function Reverse(s: seq<int>): (r: seq<int>)
    ensures |r| == |s|
    ensures forall i :: 0 <= i < |s| ==> r[i] == s[|s| - 1 - i]
  {
    if s == [] then [] else Reverse(s[1..]) + [s[0]]
  }

  function IndexOf(s: seq<int>, x: int): (i: int)
    ensures if x in s then 0 <= i < |s| && s[i] == x && x !in s[..i] else i == -1
  {
    if s == [] then -1
    else if s[0] == x then 0
    else
      var i := IndexOf(s[1..], x);
      if i == -1 then -1
      else
        assert s[..i + 1] == [s[0]] + s[1..][..i];
        i + 1
  }

  lemma DistinctConcat(a: seq<int>, b: seq<int>)
    requires Distinct(a) && Distinct(b) && forall x :: x in b ==> x !in a
    ensures Distinct(a + b)
  {
    forall i, j | 0 <= i < j < |a + b| ensures (a + b)[i] != (a + b)[j] {
      if i < |a| <= j {
        assert b[j - |a|] in b;
      }
    }
  }

  lemma ReverseKeeps(s: seq<int>)
    ensures forall x :: x in Reverse(s) <==> x in s
    ensures Distinct(s) ==> Distinct(Reverse(s))
  {
    forall x ensures x in Reverse(s) <==> x in s {
      if x in s {
        var i :| 0 <= i < |s| && s[i] == x;
        assert Reverse(s)[|s| - 1 - i] == x;
      }
      if x in Reverse(s) {
        var i :| 0 <= i < |s| && Reverse(s)[i] == x;
        assert s[|s| - 1 - i] == x;
      }
    }
  }

  lemma IndexOfAt(s: seq<int>, i: nat)
    requires Distinct(s) && i < |s|
    ensures IndexOf(s, s[i]) == i
  {
    assert s[i] in s;
    var k := IndexOf(s, s[i]);
    assert s[k] == s[i];
  }

  lemma EmptyIfNothingIn(order: seq<int>)
    ensures (forall x :: x !in order) ==> order == []
  {
    if order != [] {
      var y := order[0];
      assert y in order;
    }
  }

  /** A list without repeats of exactly the numbers below `n` has length `n`. */
  lemma {:induction false} PlacesCovered(order: seq<int>, n: nat)
    requires Distinct(order) && forall x :: x in order <==> 0 <= x < n
    ensures |order| == n
    decreases n
  {
    if n > 0 {
      assert (n - 1) in order;
      var k :| 0 <= k < |order| && order[k] == n - 1;
      var rest := order[..k] + order[k + 1..];
      forall i, j | 0 <= i < j < |rest| ensures rest[i] != rest[j] {
        assert rest[i] == order[if i < k then i else i + 1];
        assert rest[j] == order[if j < k then j else j + 1];
      }
      forall x ensures x in rest <==> 0 <= x < n - 1 {
        if x in rest {
          var i :| 0 <= i < |rest| && rest[i] == x;
          assert rest[i] == order[if i < k then i else i + 1];
          assert x in order;
        }
        if 0 <= x < n - 1 {
          assert x in order;
          var i :| 0 <= i < |order| && order[i] == x;
          assert rest[if i < k then i else i - 1] == x;
        }
      }
      PlacesCovered(rest, n - 1);
    } else {
      EmptyIfNothingIn(order);
    }
  }

  // ---- rank points ----

  /** From +spread for the first place down to -spread for the last, linearly. */
  function PlaceDelta(spread: int, n: nat, place: int): int {
    if n > 1 then RoundJs(spread as real * ((n - 2 * place + 1) as real / (n - 1) as real)) else 0
  }

  lemma {:induction false} Thirds(spread: int)
    ensures RoundJs(spread as real * (1.0 / 3.0)) == -RoundJs(spread as real * (-1.0 / 3.0))
    ensures spread > 0 ==> -spread <= RoundJs(spread as real * (1.0 / 3.0)) < spread
  {
    var k, rest := spread / 3, spread % 3;
    assert spread as real == 3.0 * k as real + rest as real;
    if rest == 0 {
      assert RoundJs(spread as real * (1.0 / 3.0)) == k;
    } else if rest == 1 {
      assert RoundJs(spread as real * (1.0 / 3.0)) == k;
    } else {
      assert RoundJs(spread as real * (1.0 / 3.0)) == k + 1;
    }
  }

  /** Rounding is symmetric for two to four players: opposite places cancel out, and the first place earns the most. */
  lemma PlaceDeltas(spread: int, n: nat)
    requires spread > 0 && 2 <= n <= 4
    ensures PlaceDelta(spread, n, 1) == spread && PlaceDelta(spread, n, n) == -spread
    ensures n == 3 ==> PlaceDelta(spread, n, 2) == 0
    ensures n == 4 ==> PlaceDelta(spread, n, 2) == -PlaceDelta(spread, n, 3)
    ensures forall p :: 2 <= p <= n ==> PlaceDelta(spread, n, p) < spread
  {
    Thirds(spread);
    assert (n - 2 * 1 + 1) as real / (n - 1) as real == 1.0;
    assert (n - 2 * n + 1) as real / (n - 1) as real == -1.0;
    hide RoundJs;
  }

  lemma {:induction false} ThirdsOrdered(spread: int)
    requires spread > 0
    ensures RoundJs(spread as real * (1.0 / 3.0)) >= 0
    ensures spread > 1 ==> RoundJs(spread as real * (1.0 / 3.0)) > 0
  {
    var third := spread as real * (1.0 / 3.0);
    assert third > 0.0;
    assert spread > 1 ==> third > 0.5;
  }

  /** A better place never earns less; with a spread of two or more it earns more. */
  lemma BetterPlaceEarnsMore(spread: int, n: nat, better: nat, worse: nat)
    requires spread > 0 && 2 <= n <= 4 && 1 <= better < worse <= n
    ensures PlaceDelta(spread, n, better) >= PlaceDelta(spread, n, worse)
    ensures spread > 1 ==> PlaceDelta(spread, n, better) > PlaceDelta(spread, n, worse)
  {
    PlaceDeltas(spread, n);
    Thirds(spread);
    ThirdsOrdered(spread);
    if n == 4 {
      assert (4 - 2 * 2 + 1) as real / (4 - 1) as real == 1.0 / 3.0;
      assert PlaceDelta(spread, 4, 2) == RoundJs(spread as real * (1.0 / 3.0));
    }
    hide RoundJs;
  }

  /** The points of a place are the linear score times the spread, to the nearest whole number. */
  lemma NearestScore(spread: int, n: nat, place: int)
    requires 2 <= n <= 4 && 1 <= place <= n
    ensures var score, points := spread * (n - 2 * place + 1), (n - 1) * PlaceDelta(spread, n, place);
      -(n - 1) <= 2 * (points - score) <= n - 1
  {
    var q := (n - 2 * place + 1) as real / (n - 1) as real;
    ScoreExact(spread, n, place);
    var x, d := spread as real * q, PlaceDelta(spread, n, place);
    assert d as real - 0.5 <= x < d as real + 0.5;
    hide RoundJs;
    if n == 2 {
      assert d as real - 0.5 <= (spread * (3 - 2 * place)) as real <= d as real + 0.5;
    } else if n == 3 {
      assert 2.0 * (d as real - 0.5) <= 2.0 * x <= 2.0 * (d as real + 0.5);
    } else {
      assert 3.0 * (d as real - 0.5) <= 3.0 * x <= 3.0 * (d as real + 0.5);
    }
  }

  lemma ScoreExact(spread: int, n: nat, place: int)
    requires 2 <= n <= 4 && 1 <= place <= n
    ensures (n - 1) as real * (spread as real * ((n - 2 * place + 1) as real / (n - 1) as real)) == (spread * (n - 2 * place + 1)) as real
  {
    var q := (n - 2 * place + 1) as real / (n - 1) as real;
    assert (n - 1) as real * q == (n - 2 * place + 1) as real;
    assert spread as real * (n - 2 * place + 1) as real == (spread * (n - 2 * place + 1)) as real;
    assert (n - 1) as real * (spread as real * q) == spread as real * ((n - 1) as real * q);
  }

  lemma AddUp(m: map<nat, int>, keys: seq<nat>)
    requires 2 <= |keys| <= 4 && forall k :: k in keys ==> k in m
    ensures SumAlong(m, keys) == m[keys[0]] + m[keys[1]]
      + (if |keys| > 2 then m[keys[2]] else 0) + if |keys| > 3 then m[keys[3]] else 0
  {
    assert |keys| > 3 ==> keys[..3][..2] == keys[..2];
    assert keys[..2][..1] == [keys[0]];
    assert [keys[0]][..0] == [];
    SumAlongOne(m, keys[0]);
    assert SumAlong(m, keys[..2]) == m[keys[0]] + m[keys[1]];
    if |keys| > 2 {
      assert SumAlong(m, keys[..3]) == SumAlong(m, keys[..3][..2]) + m[keys[2]];
      assert keys[..3][..2] == keys[..2];
    }
    assert |keys| == 2 ==> keys[..2] == keys;
    assert |keys| == 3 ==> keys[..3] == keys;
  }

  lemma SumAlongOne(m: map<nat, int>, k: nat)
    requires k in m
    ensures SumAlong(m, [k]) == m[k]
  {
    assert [k][..0] == [];
  }

  /** The points of all places add up to the bonus of the first, who gains the most. */
  lemma PlacesCancel(m: map<nat, int>, order: seq<nat>, spread: int, bonus: int)
    requires spread > 0 && bonus >= 0 && 2 <= |order| <= 4 && Distinct(order)
    requires m.Keys == (set u | u in order)
    requires forall i :: 0 <= i < |order| ==>
      m[order[i]] == PlaceDelta(spread, |order|, i + 1) + if i == 0 then bonus else 0
    ensures Sum(m) == bonus
    ensures m[order[0]] == spread + bonus
    ensures forall u :: u in m && u != order[0] ==> m[u] < spread
  {
    PlaceDeltas(spread, |order|);
    hide PlaceDelta, Sum, SumAlong;
    SumByKeys(m, order);
    AddUp(m, order);
  }
}
