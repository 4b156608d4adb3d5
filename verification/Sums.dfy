/** Sums of the values of a finite map: what "all the coins" means. */
module Sums {
  import opened Sorting

  ghost function Sum(m: map<nat, int>): int
    decreases |m|
  {
    if m == map[] then 0
    else
      NonEmptyKeys(m);
      var k := Minimum(m.Keys);
      m[k] + Sum(m - {k})
  }

  lemma NonEmptyKeys(m: map<nat, int>)
    requires m != map[]
    ensures m.Keys != {}
    ensures forall k :: k in m ==> |m - {k}| < |m|
  {
    assert m.Keys == {} ==> m == map[];
    forall k | k in m ensures |m - {k}| < |m| {
      assert (m - {k}).Keys == m.Keys - {k};
    }
  }

  lemma SumFirst(m: map<nat, int>) returns (first: nat)
    requires m != map[]
    ensures first in m && |m - {first}| < |m| && Sum(m) == m[first] + Sum(m - {first})
  {
    NonEmptyKeys(m);
    first := Minimum(m.Keys);
  }

  /** Any key can be taken out first. */
  lemma {:induction false} SumWithout(m: map<nat, int>, k: nat)
    requires k in m
    ensures Sum(m) == m[k] + Sum(m - {k})
    decreases |m|
  {
    var first := SumFirst(m);
    hide Sum;
    if first != k {
      var rest, without := m - {first}, m - {k};
      WithoutIsSmaller(m, k);
      RemovalsCommute(m, first, k);
      SumWithout(rest, k);
      SumWithout(without, first);
    }
  }

  lemma WithoutIsSmaller(m: map<nat, int>, k: nat)
    requires k in m
    ensures |m - {k}| < |m|
  {
    assert (m - {k}).Keys == m.Keys - {k};
  }

  lemma RemovalsCommute(m: map<nat, int>, a: nat, b: nat)
    ensures m - {a} - {b} == m - {b} - {a}
  {
  }

  lemma SumUpdate(m: map<nat, int>, k: nat, v: int)
    ensures Sum(m[k := v]) == Sum(m) + v - if k in m then m[k] else 0
  {
    SumWithout(m[k := v], k);
    assert m[k := v] - {k} == m - {k};
    if k in m {
      SumWithout(m, k);
    } else {
      assert m - {k} == m;
    }
  }

  lemma SumRemove(m: map<nat, int>, k: nat)
    ensures Sum(m - {k}) == Sum(m) - if k in m then m[k] else 0
  {
    if k in m {
      SumWithout(m, k);
    } else {
      assert m - {k} == m;
    }
  }

  /** The sum along a list that names every key once. */
  ghost function SumAlong(m: map<nat, int>, keys: seq<nat>): int
    requires forall k :: k in keys ==> k in m
  {
    if keys == [] then 0 else SumAlong(m, keys[..|keys| - 1]) + m[keys[|keys| - 1]]
  }

  lemma {:induction false} SumByKeys(m: map<nat, int>, keys: seq<nat>)
    requires Distinct(keys) && m.Keys == (set k | k in keys)
    ensures Sum(m) == SumAlong(m, keys)
    decreases |keys|
  {
    if keys != [] {
      var front, last := keys[..|keys| - 1], keys[|keys| - 1];
      assert last in keys;
      SumWithout(m, last);
      var rest := m - {last};
      forall k ensures k in front <==> k in rest {
        if k in rest {
          var i :| 0 <= i < |keys| && keys[i] == k;
          assert front[i] == k;
        }
      }
      SumByKeys(rest, front);
      SumAlongSame(m, rest, front);
    } else {
      assert m == map[];
    }
  }

  lemma {:induction false} SumAlongSame(a: map<nat, int>, b: map<nat, int>, keys: seq<nat>)
    requires forall k :: k in keys ==> k in a && k in b && a[k] == b[k]
    ensures SumAlong(a, keys) == SumAlong(b, keys)
  {
    if keys != [] {
      var last := keys[|keys| - 1];
      assert last in keys;
      SumAlongSame(a, b, keys[..|keys| - 1]);
    }
  }

  lemma {:induction false} SumAlongFront(m: map<nat, int>, keys: seq<nat>)
    requires keys != [] && forall k :: k in keys ==> k in m
    ensures forall k :: k in keys[1..] ==> k in keys
    ensures SumAlong(m, keys) == m[keys[0]] + SumAlong(m, keys[1..])
  {
    if |keys| > 1 {
      SumAlongFront(m, keys[..|keys| - 1]);
      assert keys[..|keys| - 1][1..] == keys[1..][..|keys| - 2];
      assert keys[1..][|keys| - 2] == keys[|keys| - 1];
    }
  }

  lemma {:induction false} SumNonNegative(m: map<nat, int>)
    requires forall k :: k in m ==> m[k] >= 0
    ensures Sum(m) >= 0
    decreases |m|
  {
    if m != map[] {
      var first := SumFirst(m);
      SumNonNegative(m - {first});
    }
  }

  lemma SumAtLeast(m: map<nat, int>, k: nat)
    requires k in m && forall u :: u in m ==> m[u] >= 0
    ensures Sum(m) >= m[k]
  {
    SumWithout(m, k);
    SumNonNegative(m - {k});
  }
}
