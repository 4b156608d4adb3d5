/**
 * What a finished Tien Len game is worth to each player: rank points and coins, the penalty
 * for twos still in hand, chops, and games decided by the deal
 * (src/games/tienlen/tienlen.service.ts, finish, applyRottenHeoCoins, applyChopPenalty and
 * finishInstantWin).
 */
module TienLenSettlement {
  import opened Wrappers
  import opened Sorting
  import opened Ranking
  import opened Sums
  import opened Rounding
  import opened Wallet
  import opened Rooms
  import opened TienLenLogic
  import opened TienLenTable
  import opened TienLenInvariant
  import opened TienLenFinish

  const RP_SPREAD := 24

  /** The delta of a place when the first place earns `bonus` on top. */
  function Delta(n: nat, place: int, bonus: int): int {
    PlaceDelta(RP_SPREAD, n, place) + if place == 1 then bonus else 0
  }

  function PlaceOf(t: Table, seat: nat): int { IndexOf(t.finishOrder, seat) + 1 }

  predicate HasWinner(t: Table) {
    t.finishOrder != [] && 0 <= t.finishOrder[0] < |t.seats|
  }

  function Winner(t: Table): UserId
    requires HasWinner(t)
  {
    t.seats[t.finishOrder[0]].user
  }

  /** A settled game: every seat placed once, different users, two to four of them. */
  ghost predicate Settled(t: Table) {
    && 2 <= |t.seats| <= 4
    && (forall i, j :: 0 <= i < j < |t.seats| ==> t.seats[i].user != t.seats[j].user)
    && Distinct(t.finishOrder)
    && (forall x :: x in t.finishOrder <==> 0 <= x < |t.seats|)
  }

  lemma OverIsSettled(t: Table)
    requires Over(t) && |t.seats| <= 4
    ensures Settled(t)
  {
  }

  lemma SettledHasWinner(t: Table)
    requires Settled(t)
    ensures HasWinner(t) && |t.finishOrder| == |t.seats|
  {
    assert 0 in t.finishOrder;
    var first := t.finishOrder[0];
    assert first in t.finishOrder;
    PlacesCovered(t.finishOrder, |t.seats|);
  }

  // ---- a value for every player ----

  /** Rank points by place for the players of the first `k` seats. */
  function ByPlace(t: Table, bonus: int, k: nat): map<UserId, int>
    requires k <= |t.seats|
  {
    if k == 0 then map[]
    else ByPlace(t, bonus, k - 1)[t.seats[k - 1].user := Delta(|t.seats|, PlaceOf(t, k - 1), bonus)]
  }

  ghost predicate Seated(t: Table, k: nat, u: UserId)
    requires k <= |t.seats|
  {
    exists i :: 0 <= i < k && t.seats[i].user == u
  }

  lemma {:induction false} ByPlaceValues(t: Table, bonus: int, k: nat)
    requires Settled(t) && k <= |t.seats|
    ensures var m := ByPlace(t, bonus, k);
      && (forall i :: 0 <= i < k ==> t.seats[i].user in m && m[t.seats[i].user] == Delta(|t.seats|, PlaceOf(t, i), bonus))
      && (forall u :: u in m ==> Seated(t, k, u))
  {
    hide Delta, PlaceOf;
    if k > 0 {
      ByPlaceValues(t, bonus, k - 1);
      var m, before := ByPlace(t, bonus, k), ByPlace(t, bonus, k - 1);
      forall u | u in m ensures Seated(t, k, u) {
        if u == t.seats[k - 1].user {
        } else {
          assert Seated(t, k - 1, u);
        }
      }
    }
  }

  /** The players, winner first. */
  function InOrder(t: Table): (r: seq<UserId>)
    requires forall x :: x in t.finishOrder ==> 0 <= x < |t.seats|
    ensures |r| == |t.finishOrder|
    ensures forall i :: 0 <= i < |r| ==> 0 <= t.finishOrder[i] < |t.seats| && r[i] == t.seats[t.finishOrder[i]].user
  {
    assert forall i :: 0 <= i < |t.finishOrder| ==> t.finishOrder[i] in t.finishOrder;
    seq(|t.finishOrder|, i requires 0 <= i < |t.finishOrder| => t.seats[t.finishOrder[i]].user)
  }

  lemma InOrderNamesAll(t: Table)
    requires Settled(t)
    ensures Distinct(InOrder(t))
    ensures forall u :: u in InOrder(t) <==> Seated(t, |t.seats|, u)
  {
    var order := InOrder(t);
    forall i, j | 0 <= i < j < |order| ensures order[i] != order[j] {
      assert t.finishOrder[i] != t.finishOrder[j];
    }
    forall u ensures u in order <==> Seated(t, |t.seats|, u) {
      if Seated(t, |t.seats|, u) {
        var i :| 0 <= i < |t.seats| && t.seats[i].user == u;
        assert i in t.finishOrder;
        var k :| 0 <= k < |t.finishOrder| && t.finishOrder[k] == i;
        assert order[k] == u;
      }
    }
  }

  lemma ByPlaceAt(t: Table, bonus: int, i: nat)
    requires Settled(t) && i < |InOrder(t)|
    ensures var m, u := ByPlace(t, bonus, |t.seats|), InOrder(t)[i];
      u in m && m[u] == Delta(|t.seats|, i + 1, bonus)
  {
    ByPlaceValues(t, bonus, |t.seats|);
    IndexOfAt(t.finishOrder, i);
    hide IndexOf, ByPlace, Delta;
    assert PlaceOf(t, t.finishOrder[i]) == i + 1;
  }

  /** Everybody has an entry. */
  lemma ByPlaceKeys(t: Table, bonus: int)
    requires Settled(t)
    ensures ByPlace(t, bonus, |t.seats|).Keys == (set u | u in InOrder(t))
  {
    hide *;
    ByPlaceValues(t, bonus, |t.seats|);
    SettledHasWinner(t);
    InOrderNamesAll(t);
    SeatedHaveEntries(t, ByPlace(t, bonus, |t.seats|));
  }

  lemma SeatedHaveEntries(t: Table, m: map<UserId, int>)
    requires forall i :: 0 <= i < |t.seats| ==> t.seats[i].user in m
    ensures forall u :: Seated(t, |t.seats|, u) ==> u in m
  {
  }

  // ---- twos still in hand ----

  datatype Rotten = Rotten(user: UserId, units: nat)

  /** Everyone but the winner who still holds twos among the first `k` seats. */
  function RottenAmong(t: Table, winner: UserId, k: nat): seq<Rotten>
    requires k <= |t.seats|
  {
    if k == 0 then []
    else
      var seat := t.seats[k - 1];
      var heo := RottenHeoCards(seat.hand);
      RottenAmong(t, winner, k - 1) + if seat.user == winner || heo == [] then [] else [Rotten(seat.user, HeoUnits(heo))]
  }

  function RottenOf(t: Table): seq<Rotten>
    requires HasWinner(t)
  {
    RottenAmong(t, Winner(t), |t.seats|)
  }

  lemma {:induction false} RottenAreSeated(t: Table, winner: UserId, k: nat)
    requires k <= |t.seats|
    ensures forall x :: x in RottenAmong(t, winner, k) ==> x.user != winner && Seated(t, k, x.user)
  {
    hide RottenHeoCards, HeoUnits;
    if k > 0 {
      RottenAreSeated(t, winner, k - 1);
      forall x | x in RottenAmong(t, winner, k) ensures x.user != winner && Seated(t, k, x.user) {
        if x in RottenAmong(t, winner, k - 1) {
          assert Seated(t, k - 1, x.user);
        } else {
          assert t.seats[k - 1].user == x.user;
        }
      }
    }
  }

  lemma NoTwosInNothing(hand: seq<Card>)
    ensures hand == [] ==> RottenHeoCards(hand) == []
  {
  }

  lemma {:induction false} OnlyTheHolderRots(t: Table, winner: UserId, holder: nat, k: nat)
    requires k <= |t.seats| && holder < |t.seats|
    requires forall i :: 0 <= i < |t.seats| && i != holder ==> t.seats[i].hand == []
    ensures RottenAmong(t, winner, k) ==
      if holder < k && t.seats[holder].user != winner && RottenHeoCards(t.seats[holder].hand) != []
      then [Rotten(t.seats[holder].user, HeoUnits(RottenHeoCards(t.seats[holder].hand)))] else []
  {
    hide RottenHeoCards, HeoUnits;
    if k > 0 {
      OnlyTheHolderRots(t, winner, holder, k - 1);
      NoTwosInNothing(t.seats[k - 1].hand);
      var before := RottenAmong(t, winner, k - 1);
      assert before + [] == before;
      if holder < k - 1 {
        assert t.seats[k - 1].hand == [];
        assert RottenAmong(t, winner, k) == before;
      } else {
        assert before == [];
      }
    }
  }

  /**
   * At most one player pays for twos: the one still holding cards, and only if somebody else
   * won and there are twos in that hand.
   */
  lemma AtMostOneRotten(t: Table)
    requires Over(t) && t.instant == None && HasWinner(t)
    ensures |RottenOf(t)| <= 1
    ensures var last := LastHolder(t);
      && last < |t.seats|
      && (RottenOf(t) != [] <==> t.finishOrder[0] != last && RottenHeoCards(t.seats[last].hand) != [])
      && (RottenOf(t) != [] ==>
           RottenOf(t)[0] == Rotten(t.seats[last].user, HeoUnits(RottenHeoCards(t.seats[last].hand))))
  {
    SingletonActive(t);
    var last := LastHolder(t);
    assert last in ActiveSet(t.seats);
    forall i | 0 <= i < |t.seats| && i != last ensures t.seats[i].hand == [] {
      assert i !in ActiveSet(t.seats);
      assert GoodHand(t.seats[i]);
    }
    OnlyTheHolderRots(t, Winner(t), last, |t.seats|);
  }

  // ---- rank points ----

  function TotalUnits(rotten: seq<Rotten>): nat {
    if rotten == [] then 0 else TotalUnits(rotten[..|rotten| - 1]) + rotten[|rotten| - 1].units
  }

  function Charged(m: map<UserId, int>, rotten: seq<Rotten>, rp: int): map<UserId, int>
    requires forall r :: r in rotten ==> r.user in m
  {
    if rotten == [] then m
    else
      var r := rotten[|rotten| - 1];
      var before := Charged(m, rotten[..|rotten| - 1], rp);
      if r.user in before then before[r.user := before[r.user] - rp * r.units] else before
  }

  /** The price of twos moved from their holders to the winner. */
  function Awarded(byPlace: map<UserId, int>, rotten: seq<Rotten>, rp: int, winner: UserId): map<UserId, int>
    requires forall r :: r in rotten ==> r.user in byPlace
  {
    if TotalUnits(rotten) == 0 then byPlace
    else
      var charged := Charged(byPlace, rotten, rp);
      charged[winner := (if winner in charged then charged[winner] else 0) + rp * TotalUnits(rotten)]
  }

  /** Rank points of a ranked game: by place, then the price of twos moved to the winner. */
  function RpChange(t: Table, rp: int): map<UserId, int>
    requires HasWinner(t)
    requires forall r :: r in RottenOf(t) ==> r.user in ByPlace(t, 0, |t.seats|)
  {
    Awarded(ByPlace(t, 0, |t.seats|), RottenOf(t), rp, Winner(t))
  }

  lemma {:induction false} ChargedEffect(m: map<UserId, int>, rotten: seq<Rotten>, rp: int, winner: UserId)
    requires rp >= 0 && winner in m && forall r :: r in rotten ==> r.user in m && r.user != winner
    ensures var c := Charged(m, rotten, rp);
      && c.Keys == m.Keys && c[winner] == m[winner]
      && (forall u :: u in m ==> c[u] <= m[u])
      && Sum(c) == Sum(m) - rp * TotalUnits(rotten)
    decreases |rotten|
  {
    hide Sum;
    if rotten != [] {
      var front, r := rotten[..|rotten| - 1], rotten[|rotten| - 1];
      assert r in rotten && forall x :: x in front ==> x in rotten;
      ChargedEffect(m, front, rp, winner);
      var before := Charged(m, front, rp);
      var price := rp * r.units;
      ChargeOne(m, before, r.user, price, winner);
      assert Charged(m, rotten, rp) == before[r.user := before[r.user] - price];
      assert TotalUnits(rotten) == TotalUnits(front) + r.units;
      assert rp * (TotalUnits(front) + r.units) == rp * TotalUnits(front) + price;
    }
  }

  lemma ChargeOne(m: map<UserId, int>, before: map<UserId, int>, user: UserId, price: int, winner: UserId)
    requires before.Keys == m.Keys && user in m && user != winner && winner in m && price >= 0
    requires before[winner] == m[winner] && forall u :: u in m ==> before[u] <= m[u]
    ensures var c := before[user := before[user] - price];
      && c.Keys == m.Keys && c[winner] == m[winner] && (forall u :: u in m ==> c[u] <= m[u])
      && Sum(c) == Sum(before) - price
  {
    SumUpdate(before, user, before[user] - price);
    hide Sum;
  }

  lemma RottenPlayersAreSeated(t: Table, bonus: int)
    requires Settled(t) && HasWinner(t)
    ensures forall r :: r in RottenOf(t) ==> r.user in ByPlace(t, bonus, |t.seats|) && r.user != Winner(t)
    ensures Winner(t) in ByPlace(t, bonus, |t.seats|)
  {
    hide RottenAmong, ByPlace;
    RottenAreSeated(t, Winner(t), |t.seats|);
    ByPlaceValues(t, bonus, |t.seats|);
    SeatedHaveEntries(t, ByPlace(t, bonus, |t.seats|));
    assert Seated(t, |t.seats|, Winner(t));
  }

  /** By place alone the deltas cancel out, except for the bonus, and the winner's is the largest. */
  lemma PlacesBalance(t: Table, bonus: int)
    requires Settled(t) && bonus >= 0
    ensures HasWinner(t)
    ensures var m := ByPlace(t, bonus, |t.seats|);
      && Sum(m) == bonus
      && Winner(t) in m && m[Winner(t)] == RP_SPREAD + bonus
      && forall u :: u in m && u != Winner(t) ==> m[u] < RP_SPREAD
  {
    SettledHasWinner(t);
    var m, order := ByPlace(t, bonus, |t.seats|), InOrder(t);
    ByPlaceKeys(t, bonus);
    InOrderNamesAll(t);
    forall i | 0 <= i < |order| ensures order[i] in m && m[order[i]] == Delta(|t.seats|, i + 1, bonus) {
      ByPlaceAt(t, bonus, i);
    }
    hide SumAlong, ByPlace, IndexOf, Sum, PlaceDelta;
    assert order[0] == Winner(t);
    PlacesCancel(m, order, RP_SPREAD, bonus);
  }

  /** The changes cancel out and `winner` gains `top`, more than anybody else. */
  ghost predicate ZeroSum(change: map<UserId, int>, winner: UserId, top: int) {
    && Sum(change) == 0
    && winner in change && change[winner] == top
    && forall u :: u in change && u != winner ==> change[u] < top
  }

  /** The rank points a ranked game reports cancel out, and the winner's are the most. */
  lemma RankedSettlement(t: Table, rp: int)
    requires Settled(t) && rp >= 0
    ensures HasWinner(t)
    ensures forall r :: r in RottenOf(t) ==> r.user in ByPlace(t, 0, |t.seats|)
    ensures forall i :: 0 <= i < |t.seats| ==> t.seats[i].user in RpChange(t, rp)
    ensures ZeroSum(RpChange(t, rp), Winner(t), RP_SPREAD + rp * TotalUnits(RottenOf(t)))
  {
    hide *;
    PlacesBalance(t, 0);
    RottenPlayersAreSeated(t, 0);
    SeatsCovered(t);
    AwardedIsZeroSum(ByPlace(t, 0, |t.seats|), RottenOf(t), rp, Winner(t));
    RpChangeIs(t, rp);
  }

  lemma SeatsCovered(t: Table)
    requires Settled(t)
    ensures forall i :: 0 <= i < |t.seats| ==> t.seats[i].user in ByPlace(t, 0, |t.seats|)
  {
    ByPlaceValues(t, 0, |t.seats|);
  }

  lemma RpChangeIs(t: Table, rp: int)
    requires HasWinner(t)
    requires forall r :: r in RottenOf(t) ==> r.user in ByPlace(t, 0, |t.seats|)
    ensures RpChange(t, rp) == Awarded(ByPlace(t, 0, |t.seats|), RottenOf(t), rp, Winner(t))
  {
  }

  lemma AwardedIsZeroSum(byPlace: map<UserId, int>, rotten: seq<Rotten>, rp: int, winner: UserId)
    requires rp >= 0 && winner in byPlace && byPlace[winner] == RP_SPREAD && Sum(byPlace) == 0
    requires forall u :: u in byPlace && u != winner ==> byPlace[u] < RP_SPREAD
    requires forall r :: r in rotten ==> r.user in byPlace && r.user != winner
    ensures var change := Awarded(byPlace, rotten, rp, winner);
      change.Keys == byPlace.Keys && ZeroSum(change, winner, RP_SPREAD + rp * TotalUnits(rotten))
  {
    hide Sum, Charged, TotalUnits;
    ChargedEffect(byPlace, rotten, rp, winner);
    var charged, gain := Charged(byPlace, rotten, rp), rp * TotalUnits(rotten);
    assert gain >= 0;
    SumUpdate(charged, winner, charged[winner] + gain);
  }

  // ---- player by player ----

  /** The units the last card holder pays for: all the twos in their hand, unless they won. */
  ghost function UnitsOwed(t: Table): nat
    requires |ActiveSet(t.seats)| == 1 && HasWinner(t) && LastHolder(t) < |t.seats|
  {
    if t.finishOrder[0] == LastHolder(t) then 0 else HeoUnits(RottenHeoCards(t.seats[LastHolder(t)].hand))
  }

  lemma RottenIs(t: Table)
    requires Over(t) && t.instant == None && HasWinner(t)
    ensures |ActiveSet(t.seats)| == 1 && LastHolder(t) < |t.seats|
    ensures TotalUnits(RottenOf(t)) == UnitsOwed(t)
    ensures RottenOf(t) == if UnitsOwed(t) > 0 then [Rotten(t.seats[LastHolder(t)].user, UnitsOwed(t))] else []
    ensures UnitsOwed(t) > 0 ==> t.finishOrder[0] != LastHolder(t)
  {
    AtMostOneRotten(t);
    TwosCount(t.seats[LastHolder(t)].hand);
    hide RottenAmong, RottenHeoCards, HeoUnits, Over;
    if RottenOf(t) != [] {
      assert RottenOf(t) == [RottenOf(t)[0]];
      assert RottenOf(t)[..0] == [];
    }
  }

  lemma TwosCount(hand: seq<Card>)
    ensures HeoUnits(RottenHeoCards(hand)) > 0 <==> RottenHeoCards(hand) != []
  {
  }

  /** The part of a payment from the last card holder to the winner that falls to seat `i`. */
  ghost function Flowing(t: Table, i: nat, amount: int): int
    requires |ActiveSet(t.seats)| == 1 && HasWinner(t)
  {
    if i == t.finishOrder[0] then amount else if i == LastHolder(t) then -amount else 0
  }

  /** Every player of a ranked game: the points of their place, and what the twos move from the last holder to the winner. */
  lemma RankedByPlayer(t: Table, rp: int, i: nat)
    requires Over(t) && t.instant == None && |t.seats| <= 4 && rp >= 0 && i < |t.seats|
    ensures Settled(t) && HasWinner(t) && |ActiveSet(t.seats)| == 1 && LastHolder(t) < |t.seats|
    ensures forall r :: r in RottenOf(t) ==> r.user in ByPlace(t, 0, |t.seats|)
    ensures t.seats[i].user in RpChange(t, rp)
    ensures RpChange(t, rp)[t.seats[i].user] ==
      PlaceDelta(RP_SPREAD, |t.seats|, PlaceOf(t, i)) + Flowing(t, i, rp * UnitsOwed(t))
  {
    hide PlaceDelta, PlaceOf, ByPlace, RottenAmong, Sum, Over, Settled, ActiveSet, RpChange, LastHolder, UnitsOwed, ZeroSum, HasWinner;
    hide Charged;
    OverIsSettled(t);
    SettledHasWinner(t);
    RankedSettlement(t, rp);
    RottenPlayersAreSeated(t, 0);
    RottenIs(t);
    PlacePoints(t, i);
    PlacePoints(t, t.finishOrder[0]);
    UsersDiffer(t, i);
    RpChangeIs(t, rp);
    var rotten, byPlace := RottenOf(t), ByPlace(t, 0, |t.seats|);
    if UnitsOwed(t) > 0 {
      ChargedSingle(byPlace, rotten[0], rp);
    }
  }

  lemma PlacePoints(t: Table, i: nat)
    requires Settled(t) && i < |t.seats|
    ensures t.seats[i].user in ByPlace(t, 0, |t.seats|)
    ensures ByPlace(t, 0, |t.seats|)[t.seats[i].user] == PlaceDelta(RP_SPREAD, |t.seats|, PlaceOf(t, i))
  {
    ByPlaceValues(t, 0, |t.seats|);
    hide PlaceDelta, PlaceOf;
  }

  lemma ChargedSingle(m: map<UserId, int>, r: Rotten, rp: int)
    requires r.user in m
    ensures Charged(m, [r], rp) == m[r.user := m[r.user] - rp * r.units]
  {
    assert [r][..0] == [];
  }

  lemma UsersDiffer(t: Table, i: nat)
    requires Settled(t) && i < |t.seats|
    ensures forall j :: 0 <= j < |t.seats| ==> (t.seats[j].user == t.seats[i].user <==> j == i)
  {
  }

  // ---- games decided by the deal ----

  /**
   * A dealt win pays its bonus on top of the first place. The others do not share the last
   * place: they are placed in seat order, so with more than two players their points differ.
   */
  lemma InstantSettlement(t: Table, bonus: int)
    requires Settled(t) && bonus >= 0
    ensures HasWinner(t)
    ensures var change := ByPlace(t, bonus, |t.seats|);
      && Sum(change) == bonus
      && Winner(t) in change && change[Winner(t)] == RP_SPREAD + bonus
      && ((forall u, v :: u in change && v in change && u != Winner(t) && v != Winner(t) ==> change[u] == change[v])
           <==> |t.seats| == 2)
  {
    PlacesBalance(t, bonus);
    InOrderNamesAll(t);
    SettledHasWinner(t);
    ByPlaceAt(t, bonus, 1);
    PlaceDeltas(RP_SPREAD, |t.seats|);
    assert PlaceDelta(24, 4, 2) == RoundJs(24.0 * (1.0 / 3.0)) == 8;
    var change, order := ByPlace(t, bonus, |t.seats|), InOrder(t);
    if |t.seats| > 2 {
      ByPlaceAt(t, bonus, 2);
      assert order[0] == Winner(t) && order[1] != order[0] && order[2] != order[0];
      assert change[order[1]] != change[order[2]];
    } else {
      OnlyTwo(t, bonus);
    }
  }

  lemma OnlyTwo(t: Table, bonus: int)
    requires Settled(t) && |t.seats| == 2 && HasWinner(t) && |InOrder(t)| == 2
    ensures forall u :: u in ByPlace(t, bonus, 2) && u != Winner(t) ==> u == InOrder(t)[1]
  {
    ByPlaceKeys(t, bonus);
    SettledHasWinner(t);
    hide Settled, ByPlace, IndexOf;
    var order := InOrder(t);
    assert order == [order[0], order[1]];
  }

  // ---- coins ----

  /** The books and the coin changes shown to the players, side by side. */
  datatype Purse = Purse(book: Book, change: map<UserId, int>)

  function StakesLost(t: Table, bet: int, k: nat): map<UserId, int>
    requires k <= |t.seats|
  {
    if k == 0 then map[] else StakesLost(t, bet, k - 1)[t.seats[k - 1].user := -bet]
  }

  function Bump(m: map<UserId, int>, u: UserId, amount: int): map<UserId, int> {
    m[u := (if u in m then m[u] else 0) + amount]
  }

  /** One holder of twos pays the winner, or nothing happens when they cannot. */
  function RottenTransfer(p: Purse, r: Rotten, price: int, winner: UserId): Purse {
    var amount := price * r.units;
    match Stake(p.book, r.user, amount)
    case Failure(_) => p
    case Success(b) =>
      Purse(OrKeep(Pay(b, winner, amount, GamePayout), b), Bump(Bump(p.change, r.user, -amount), winner, amount))
  }

  function RottenTransfers(p: Purse, rotten: seq<Rotten>, price: int, winner: UserId): Purse
    decreases |rotten|
  {
    if rotten == [] then p else RottenTransfers(RottenTransfer(p, rotten[0], price, winner), rotten[1..], price, winner)
  }

  /** The winner takes the pot, and then the twos are paid for. */
  function TakePot(b: Book, t: Table, bet: int, pot: int): Purse
    requires HasWinner(t)
  {
    Purse(OrKeep(Pay(b, Winner(t), pot, GamePayout), b), StakesLost(t, bet, |t.seats|)[Winner(t) := pot - bet])
  }

  function WagerSettle(b: Book, t: Table, bet: int, pot: int, price: int): Purse
    requires HasWinner(t)
  {
    RottenTransfers(TakePot(b, t, bet, pot), RottenOf(t), price, Winner(t))
  }

  /** The price of one black two: a share of the bet, at least one coin. */
  function UnitPrice(bet: int, ratio: real): (price: int)
    ensures price >= 1
    ensures bet as real * ratio < price as real + 0.5 && (price > 1 ==> price as real - 0.5 <= bet as real * ratio)
  {
    var p := RoundJs(bet as real * ratio);
    if p > 1 then p else 1
  }

  /** What each player is told they gained is what their balance gained by the settlement, less the stake they had put in. */
  ghost predicate Honest(before: Book, p: Purse, bet: int) {
    && p.book.balances.Keys == before.balances.Keys
    && (forall u :: u in p.change ==>
         u in before.balances && p.book.balances[u] == before.balances[u] + p.change[u] + bet)
    && (forall u :: u in before.balances && u !in p.change ==> p.book.balances[u] == before.balances[u])
  }

  lemma {:induction false} StakesLostValues(t: Table, bet: int, k: nat)
    requires Settled(t) && k <= |t.seats|
    ensures var m := StakesLost(t, bet, k);
      && (forall u :: u in m ==> m[u] == -bet && Seated(t, k, u))
      && (forall i :: 0 <= i < k ==> t.seats[i].user in m)
      && Sum(m) == -bet * k
  {
    hide Sum;
    if k > 0 {
      StakesLostValues(t, bet, k - 1);
      var m, before, last := StakesLost(t, bet, k), StakesLost(t, bet, k - 1), t.seats[k - 1].user;
      SumUpdate(before, last, -bet);
      assert -bet * k == -bet * (k - 1) - bet;
      forall u | u in m ensures Seated(t, k, u) {
        if u == last {
          assert t.seats[k - 1].user == u;
        } else {
          assert Seated(t, k - 1, u);
        }
      }
    } else {
      EmptySum();
    }
  }

  lemma EmptySum()
    ensures Sum(map[]) == 0
  {
  }

  lemma TakePotHonest(b: Book, t: Table, bet: int, pot: int)
    requires Settled(t) && HasWinner(t) && bet > 0 && pot == bet * |t.seats|
    requires forall i :: 0 <= i < |t.seats| ==> t.seats[i].user in b.balances
    ensures var p := TakePot(b, t, bet, pot);
      Honest(b, p, bet) && Sum(p.change) == 0 && Winner(t) in p.change
      && (forall u :: u in p.change ==> Seated(t, |t.seats|, u))
      && forall i :: 0 <= i < |t.seats| ==> t.seats[i].user in p.change
  {
    hide Sum;
    StakesLostValues(t, bet, |t.seats|);
    SumUpdate(StakesLost(t, bet, |t.seats|), Winner(t), pot - bet);
    assert pot > 0;
  }

  lemma TransferHonest(before: Book, p: Purse, bet: int, r: Rotten, price: int, winner: UserId)
    requires Honest(before, p, bet) && r.user in p.change && winner in p.change && r.user != winner
    ensures var q := RottenTransfer(p, r, price, winner);
      Honest(before, q, bet) && Sum(q.change) == Sum(p.change) && q.change.Keys == p.change.Keys
  {
    hide Sum, Honest, Stake, Pay;
    if Stake(p.book, r.user, price * r.units).Success? {
      MoveHonest(before, p, bet, r.user, price * r.units, winner);
      BumpSum(p.change, r.user, -(price * r.units));
      BumpSum(Bump(p.change, r.user, -(price * r.units)), winner, price * r.units);
    }
  }

  lemma BumpSum(m: map<UserId, int>, u: UserId, amount: int)
    ensures Sum(Bump(m, u, amount)) == Sum(m) + amount && Bump(m, u, amount).Keys == m.Keys + {u}
  {
    hide Sum;
    SumUpdate(m, u, (if u in m then m[u] else 0) + amount);
  }

  lemma MoveHonest(before: Book, p: Purse, bet: int, from: UserId, amount: int, winner: UserId)
    requires Honest(before, p, bet) && from in p.change && winner in p.change && from != winner
    requires Stake(p.book, from, amount).Success?
    ensures var b := Stake(p.book, from, amount).value;
      Honest(before, Purse(OrKeep(Pay(b, winner, amount, GamePayout), b), Bump(Bump(p.change, from, -amount), winner, amount)), bet)
  {
  }

  lemma {:induction false} TransfersHonest(before: Book, p: Purse, bet: int, rotten: seq<Rotten>, price: int, winner: UserId)
    requires Honest(before, p, bet) && winner in p.change
    requires forall r :: r in rotten ==> r.user in p.change && r.user != winner
    ensures var q := RottenTransfers(p, rotten, price, winner);
      Honest(before, q, bet) && Sum(q.change) == Sum(p.change) && q.change.Keys == p.change.Keys
    decreases |rotten|
  {
    hide Sum, Honest, RottenTransfer;
    if rotten != [] {
      var r := rotten[0];
      assert r in rotten && forall x :: x in rotten[1..] ==> x in rotten;
      TransferHonest(before, p, bet, r, price, winner);
      TransfersHonest(before, RottenTransfer(p, r, price, winner), bet, rotten[1..], price, winner);
    }
  }

  /**
   * The settlement of a wager game moves coins only between its players: the reported changes
   * cancel out, and each is exactly what the player's balance gained by it, less the stake.
   */
  lemma WagerSettlement(b: Book, t: Table, bet: int, pot: int, price: int)
    requires Settled(t) && bet > 0 && pot == bet * |t.seats|
    requires forall i :: 0 <= i < |t.seats| ==> t.seats[i].user in b.balances
    ensures HasWinner(t)
    ensures var p := WagerSettle(b, t, bet, pot, price);
      && Sum(p.change) == 0 && Honest(b, p, bet)
      && (forall i :: 0 <= i < |t.seats| ==> t.seats[i].user in p.change)
      && (forall u :: u in p.change ==> Seated(t, |t.seats|, u))
  {
    hide Sum, Honest, Settled, HasWinner, TakePot, RottenTransfers, RottenAmong;
    SettledHasWinner(t);
    TakePotHonest(b, t, bet, pot);
    var p := TakePot(b, t, bet, pot);
    RottenAreSeated(t, Winner(t), |t.seats|);
    SeatedHaveEntries(t, p.change);
    TransfersHonest(b, p, bet, RottenOf(t), price, Winner(t));
  }

  /**
   * Every player of a wager game: the winner takes the pot, everybody has lost their bet, and
   * the last card holder pays the winner for all their twos if they have the coins.
   */
  lemma WagerByPlayer(b: Book, t: Table, bet: int, pot: int, price: int, i: nat)
    requires Over(t) && t.instant == None && |t.seats| <= 4 && bet > 0 && pot == bet * |t.seats| && price > 0
    requires i < |t.seats| && forall k :: 0 <= k < |t.seats| ==> t.seats[k].user in b.balances
    ensures Settled(t) && HasWinner(t) && |ActiveSet(t.seats)| == 1 && LastHolder(t) < |t.seats|
    ensures var p, owed := WagerSettle(b, t, bet, pot, price), price * UnitsOwed(t);
      var paid := if b.balances[t.seats[LastHolder(t)].user] >= owed then owed else 0;
      && t.seats[i].user in p.change
      && p.change[t.seats[i].user] == (if i == t.finishOrder[0] then pot - bet else -bet) + Flowing(t, i, paid)
  {
    hide RottenAmong, Sum, Over, Settled, ActiveSet, StakesLost, LastHolder, TakePot, RottenTransfer, UnitsOwed, Seated;
    OverIsSettled(t);
    SettledHasWinner(t);
    RottenIs(t);
    PotTaken(b, t, bet, pot, i);
    PotTaken(b, t, bet, pot, LastHolder(t));
    PotTaken(b, t, bet, pot, t.finishOrder[0]);
    UsersDiffer(t, i);
    PricePositive(price, UnitsOwed(t));
    var p := TakePot(b, t, bet, pot);
    if UnitsOwed(t) > 0 {
      OneTransfer(p, RottenOf(t)[0], price, Winner(t));
      TransferEffect(p, RottenOf(t)[0], price, Winner(t));
    }
  }

  /** The pot moves from the game to the winner and to nobody else. */
  lemma PotTaken(b: Book, t: Table, bet: int, pot: int, i: nat)
    requires Settled(t) && HasWinner(t) && bet > 0 && pot == bet * |t.seats| && i < |t.seats|
    requires Winner(t) in b.balances
    ensures var p, u := TakePot(b, t, bet, pot), t.seats[i].user;
      && u in p.change && p.change[u] == (if i == t.finishOrder[0] then pot - bet else -bet)
      && p.book.balances == b.balances[Winner(t) := b.balances[Winner(t)] + pot]
  {
    StakesLostValues(t, bet, |t.seats|);
    UsersDiffer(t, i);
    PotPositive(bet, |t.seats|);
    hide Settled, Sum, StakesLost;
  }

  lemma TransferEffect(p: Purse, r: Rotten, price: int, winner: UserId)
    requires price * r.units > 0 && r.user in p.change && winner in p.change && r.user != winner && r.user in p.book.balances
    ensures var amount := price * r.units;
      RottenTransfer(p, r, price, winner).change == if p.book.balances[r.user] < amount then p.change
        else p.change[r.user := p.change[r.user] - amount][winner := p.change[winner] + amount]
  {
  }

  lemma PotPositive(bet: int, n: nat)
    requires bet > 0 && n > 0
    ensures bet * n > 0
  {
  }

  lemma PricePositive(price: int, units: nat)
    requires price > 0
    ensures price * units >= 0 && (units > 0 ==> price * units > 0)
  {
  }

  lemma OneTransfer(p: Purse, r: Rotten, price: int, winner: UserId)
    ensures RottenTransfers(p, [r], price, winner) == RottenTransfer(p, r, price, winner)
  {
    assert [r][1..] == [];
  }

  /** A game decided by the deal settles the same way, with nobody paying for twos. */
  lemma InstantWagerSettlement(b: Book, t: Table, bet: int, pot: int)
    requires Settled(t) && bet > 0 && pot == bet * |t.seats|
    requires forall i :: 0 <= i < |t.seats| ==> t.seats[i].user in b.balances
    ensures HasWinner(t)
    ensures var p := TakePot(b, t, bet, pot);
      && Sum(p.change) == 0 && Honest(b, p, bet)
      && p.change[Winner(t)] == bet * (|t.seats| - 1)
      && forall u :: u in p.change && u != Winner(t) ==> p.change[u] == -bet
  {
    SettledHasWinner(t);
    TakePotHonest(b, t, bet, pot);
    StakesLostValues(t, bet, |t.seats|);
    hide Sum;
    assert bet * (|t.seats| - 1) == pot - bet;
  }

  /** The book side of the settlement is the one the escrow accounts for. */
  lemma {:induction false} TransfersAreSidePayments(p: Purse, rotten: seq<Rotten>, price: int, winner: UserId)
    ensures RottenTransfers(p, rotten, price, winner).book ==
      SidePayments(p.book, seq(|rotten|, i requires 0 <= i < |rotten| => (rotten[i].user, price * rotten[i].units)), winner)
    decreases |rotten|
  {
    var payments := seq(|rotten|, i requires 0 <= i < |rotten| => (rotten[i].user, price * rotten[i].units));
    if rotten != [] {
      var rest := rotten[1..];
      TransfersAreSidePayments(RottenTransfer(p, rotten[0], price, winner), rest, price, winner);
      assert payments[1..] == seq(|rest|, i requires 0 <= i < |rest| => (rest[i].user, price * rest[i].units));
    }
  }

  // ---- chops ----

  /** A chop moves the full price from victim to chopper, or nothing at all. */
  lemma ChopMovesExactly(b: Book, victim: UserId, chopper: UserId, bet: int, ratio: real, units: nat)
    requires victim != chopper && chopper in b.balances && units > 0
    ensures var amount, after := UnitPrice(bet, ratio) * units, SidePayment(b, victim, chopper, UnitPrice(bet, ratio) * units);
      && amount > 0
      && after.balances == if victim in b.balances && b.balances[victim] >= amount
         then b.balances[victim := b.balances[victim] - amount][chopper := b.balances[chopper] + amount]
         else b.balances
  {
    assert UnitPrice(bet, ratio) * units > 0;
  }

  // ---- the settlement as the service performs it ----

  lemma OneMoreRotten(rotten: seq<Rotten>, r: Rotten)
    ensures TotalUnits(rotten + [r]) == TotalUnits(rotten) + r.units
  {
    assert (rotten + [r])[..|rotten|] == rotten;
  }

  method CollectRotten(t: Table) returns (rotten: seq<Rotten>, total: nat)
    requires HasWinner(t)
    ensures rotten == RottenOf(t) && total == TotalUnits(rotten)
  {
    rotten, total := [], 0;
    hide RottenHeoCards, HeoUnits, Winner;
    for i := 0 to |t.seats|
      invariant rotten == RottenAmong(t, Winner(t), i) && total == TotalUnits(rotten)
    {
      var seat := t.seats[i];
      if seat.user != Winner(t) {
        var heo := RottenHeoCards(seat.hand);
        if |heo| > 0 {
          var _, _, units := ChopHeoBreakdown(heo);
          OneMoreRotten(rotten, Rotten(seat.user, units));
          rotten := rotten + [Rotten(seat.user, units)];
          total := total + units;
        }
      }
    }
  }

  method PlaceChanges(t: Table, bonus: int) returns (change: map<UserId, int>)
    ensures change == ByPlace(t, bonus, |t.seats|)
  {
    change := map[];
    for i := 0 to |t.seats|
      invariant change == ByPlace(t, bonus, i)
    {
      change := change[t.seats[i].user := Delta(|t.seats|, PlaceOf(t, i), bonus)];
    }
  }

  method ChargeRotten(base: map<UserId, int>, rotten: seq<Rotten>, rp: int) returns (change: map<UserId, int>)
    requires forall r :: r in rotten ==> r.user in base
    ensures change == Charged(base, rotten, rp)
  {
    change := base;
    for i := 0 to |rotten|
      invariant forall r :: r in rotten[..i] ==> r.user in base
      invariant change == Charged(base, rotten[..i], rp)
    {
      assert rotten[..i + 1][..i] == rotten[..i];
      assert rotten[i] in rotten;
      if rotten[i].user in change {
        change := change[rotten[i].user := change[rotten[i].user] - rp * rotten[i].units];
      }
    }
    assert rotten[..|rotten|] == rotten;
  }

  /** The rank points of a ranked game, as `finish` works them out. */
  method RankedChanges(t: Table, rp: int) returns (change: map<UserId, int>)
    requires Settled(t) && HasWinner(t) && rp >= 0
    ensures ZeroSum(change, Winner(t), RP_SPREAD + rp * TotalUnits(RottenOf(t)))
    ensures (forall r :: r in RottenOf(t) ==> r.user in ByPlace(t, 0, |t.seats|)) && change == RpChange(t, rp)
  {
    RankedSettlement(t, rp);
    hide *;
    var rotten, total := CollectRotten(t);
    change := PlaceChanges(t, 0);
    RpChangeIs(t, rp);
    AwardedWhen(change, rotten, rp, Winner(t));
    if total > 0 {
      change := ChargeRotten(change, rotten, rp);
      change := Bump(change, Winner(t), rp * total);
    }
  }

  lemma AwardedWhen(base: map<UserId, int>, rotten: seq<Rotten>, rp: int, winner: UserId)
    requires forall r :: r in rotten ==> r.user in base
    ensures TotalUnits(rotten) == 0 ==> Awarded(base, rotten, rp, winner) == base
    ensures TotalUnits(rotten) > 0 ==>
      Awarded(base, rotten, rp, winner) == Bump(Charged(base, rotten, rp), winner, rp * TotalUnits(rotten))
  {
  }

  /** The coins of a wager game, as `finish` and `applyRottenHeoCoins` move them. */
  method WagerChanges(wager: WagerService, t: Table, bet: int, pot: int, price: int) returns (change: map<UserId, int>)
    requires HasWinner(t)
    modifies wager.wallet
    ensures Purse(wager.wallet.Contents(), change) == WagerSettle(old(wager.wallet.Contents()), t, bet, pot, price)
  {
    change := map[];
    for i := 0 to |t.seats|
      invariant change == StakesLost(t, bet, i)
    {
      change := change[t.seats[i].user := -bet];
    }
    change := change[Winner(t) := pot - bet];
    var _ := wager.PayTo(Winner(t), pot, GamePayout);
    ghost var start := Purse(wager.wallet.Contents(), change);
    var rotten, _ := CollectRotten(t);
    for i := 0 to |rotten|
      invariant RottenTransfers(Purse(wager.wallet.Contents(), change), rotten[i..], price, Winner(t))
        == RottenTransfers(start, rotten, price, Winner(t))
    {
      var amount := price * rotten[i].units;
      ghost var before := Purse(wager.wallet.Contents(), change);
      assert rotten[i..][1..] == rotten[i + 1..];
      var debited := wager.CollectStake(rotten[i].user, amount);
      if debited {
        var _ := wager.PayTo(Winner(t), amount, GamePayout);
        change := Bump(Bump(change, rotten[i].user, -amount), Winner(t), amount);
      }
      assert Purse(wager.wallet.Contents(), change) == RottenTransfer(before, rotten[i], price, Winner(t));
    }
  }
}
