/**
 * Rank points over a whole ranked Tien Len game: chops take points at once, the places give
 * them at the end, and no player's stored points go below zero (applyChopPenalty and finish in
 * src/games/tienlen/tienlen.service.ts). The reported changes cancel out; this module says
 * exactly when the stored points do.
 */
module TienLenPoints {
  import opened Wrappers
  import opened Sorting
  import opened Sums
  import opened Ranking
  import opened RankPoints
  import opened TienLenTable
  import opened TienLenFinish
  import opened TienLenRuns
  import opened TienLenSettlement
  import opened TienLenStakes

  // ---- the changes of one game ----

  ghost predicate Ranks(p: Points, t: Table) {
    Stored(p) && forall u :: Seated(t, |t.seats|, u) ==> u in p
  }

  lemma SettledUsers(t: Table)
    requires Settled(t)
    ensures Distinct(SeatUsers(t)) && forall u :: u in SeatUsers(t) <==> Seated(t, |t.seats|, u)
  {
    SeatUsersAreSeated(t);
  }

  lemma PlacesNameAll(t: Table, bonus: int)
    requires Settled(t)
    ensures ByPlace(t, bonus, |t.seats|).Keys == (set u | u in SeatUsers(t))
  {
    hide ByPlace;
    SettledUsers(t);
    ByPlaceKeys(t, bonus);
    SettledHasWinner(t);
    InOrderNamesAll(t);
  }

  lemma ChangesNameAll(t: Table, rp: int)
    requires Settled(t) && rp >= 0
    ensures HasWinner(t) && forall r :: r in RottenOf(t) ==> r.user in ByPlace(t, 0, |t.seats|)
    ensures RpChange(t, rp).Keys == (set u | u in SeatUsers(t))
  {
    hide *;
    RankedSettlement(t, rp);
    PlacesBalance(t, 0);
    RottenPlayersAreSeated(t, 0);
    AwardedIsZeroSum(ByPlace(t, 0, |t.seats|), RottenOf(t), rp, Winner(t));
    RpChangeIs(t, rp);
    PlacesNameAll(t, 0);
  }

  /**
   * The end of a ranked game never takes points out of the world, and adds some exactly when
   * somebody loses more than they have.
   */
  lemma RankedPointsStored(p: Points, t: Table, rp: int)
    requires Settled(t) && rp >= 0 && Ranks(p, t)
    ensures HasWinner(t) && forall r :: r in RottenOf(t) ==> r.user in ByPlace(t, 0, |t.seats|)
    ensures var change, users := RpChange(t, rp), SeatUsers(t);
      && (forall u :: u in users ==> u in change && u in p)
      && Stored(AddAll(p, change, users))
      && Sum(AddAll(p, change, users)) >= Sum(p)
      && (Sum(AddAll(p, change, users)) == Sum(p) <==> !Clamped(p, change, users))
  {
    hide Sum, Settled, RpChange, AddAll, Clamped, HasWinner, RottenAmong;
    ChangesNameAll(t, rp);
    SettledUsers(t);
    RankedSettlement(t, rp);
    AddAllTotal(p, RpChange(t, rp), SeatUsers(t));
  }

  /** A dealt win adds its bonus, and more exactly when somebody loses more than they have. */
  lemma InstantPointsStored(p: Points, t: Table, bonus: int)
    requires Settled(t) && bonus >= 0 && Ranks(p, t)
    ensures var change, users := ByPlace(t, bonus, |t.seats|), SeatUsers(t);
      && (forall u :: u in users ==> u in change && u in p)
      && Stored(AddAll(p, change, users))
      && Sum(AddAll(p, change, users)) >= Sum(p) + bonus
      && (Sum(AddAll(p, change, users)) == Sum(p) + bonus <==> !Clamped(p, change, users))
  {
    hide Sum, Settled, ByPlace, AddAll, Clamped;
    PlacesNameAll(t, bonus);
    SettledUsers(t);
    InstantSettlement(t, bonus);
    AddAllTotal(p, ByPlace(t, bonus, |t.seats|), SeatUsers(t));
  }

  /** Among players without points every ranked game makes points: the winner gains and nobody can lose. */
  lemma NewcomersMakePoints(p: Points, t: Table, rp: int)
    requires Settled(t) && rp >= 0 && Ranks(p, t) && forall u :: u in p ==> p[u] == 0
    ensures HasWinner(t) && (forall r :: r in RottenOf(t) ==> r.user in ByPlace(t, 0, |t.seats|))
    ensures forall u :: u in SeatUsers(t) ==> u in RpChange(t, rp)
    ensures Sum(RpChange(t, rp)) == 0 && Sum(AddAll(p, RpChange(t, rp), SeatUsers(t))) > Sum(p)
  {
    hide Sum, Settled, RpChange, AddAll, Clamped, HasWinner, RottenAmong;
    ChangesNameAll(t, rp);
    SettledUsers(t);
    RankedSettlement(t, rp);
    assert RP_SPREAD + rp * TotalUnits(RottenOf(t)) > 0;
    NothingToTake(p, RpChange(t, rp), SeatUsers(t), Winner(t));
  }

  // ---- a whole game ----

  datatype RankedGame = RankedGame(table: Table, points: Points)

  /** What one black two costs, in points, when it is chopped and when it is kept to the end. */
  datatype RankPrices = RankPrices(chop: nat, rotten: nat)

  function ChopAmount(c: Chop, prices: RankPrices): (amount: int)
    ensures amount >= 0
  {
    prices.chop * Units(c)
  }

  function ChopPoints(p: Points, chop: Option<Chop>, prices: RankPrices): (r: Points)
    ensures r.Keys == p.Keys
  {
    match chop
    case None => p
    case Some(c) => AddRankPoints(AddRankPoints(p, c.chopper, ChopAmount(c, prices)), c.victim, -ChopAmount(c, prices))
  }

  ghost predicate Ready(g: RankedGame) {
    Reachable(g.table) && |g.table.seats| <= 4 && Ranks(g.points, g.table)
  }

  ghost predicate Ends(t: Table, t': Table) { t.status == Active && t'.status == Finished }

  /** One step: the table moves on, a new chop takes its points, and the places count if the game has just ended. */
  ghost function RankedNext(g: RankedGame, e: Event, prices: RankPrices): RankedGame
    requires Ready(g)
  {
    StepGoesOn(g.table, e);
    var t' := Step(g.table, e);
    var paid := ChopPoints(g.points, NewChop(g.table, t'), prices);
    if Ends(g.table, t') then
      ChangesNameAll(t', prices.rotten);
      RankedGame(t', AddAll(paid, RpChange(t', prices.rotten), SeatUsers(t')))
    else RankedGame(t', paid)
  }

  /** In this step somebody loses more than they have. */
  ghost predicate Clamps(g: RankedGame, e: Event, prices: RankPrices)
    requires Ready(g)
  {
    StepGoesOn(g.table, e);
    ChopsOfStep(g.table, e);
    var t' := Step(g.table, e);
    var chop := NewChop(g.table, t');
    || (chop.Some? && PointsOf(g.points, chop.value.victim) < ChopAmount(chop.value, prices))
    || (Ends(g.table, t') && EndClamps(ChopPoints(g.points, chop, prices), t', prices.rotten))
  }

  ghost function PointsOf(p: Points, u: UserId): int { if u in p then p[u] else 0 }

  ghost predicate EndClamps(p: Points, t: Table, rp: nat)
    requires Settled(t)
  {
    ChangesNameAll(t, rp);
    exists u :: u in SeatUsers(t) && PointsOf(p, u) + RpChange(t, rp)[u] < 0
  }

  lemma EndTotal(p: Points, t: Table, rp: nat)
    requires Settled(t) && Ranks(p, t)
    ensures HasWinner(t) && (forall r :: r in RottenOf(t) ==> r.user in ByPlace(t, 0, |t.seats|))
    ensures forall u :: u in SeatUsers(t) ==> u in RpChange(t, rp)
    ensures var r := AddAll(p, RpChange(t, rp), SeatUsers(t));
      Stored(r) && Sum(r) >= Sum(p) && (Sum(r) == Sum(p) <==> !EndClamps(p, t, rp))
  {
    hide Sum, Settled, RpChange, AddAll, HasWinner, RottenAmong;
    RankedPointsStored(p, t, rp);
    SettledUsers(t);
  }

  lemma ChopTotal(p: Points, t: Table, c: Chop, prices: RankPrices)
    requires Ranks(p, t) && Between(t, c)
    ensures var r := ChopPoints(p, Some(c), prices);
      Ranks(r, t) && Sum(r) >= Sum(p) && (Sum(r) == Sum(p) <==> PointsOf(p, c.victim) >= ChopAmount(c, prices))
  {
    hide Sum, Seated, AddRankPoints, ChopAmount;
    TakenTotal(p, c.chopper, c.victim, ChopAmount(c, prices));
  }

  /** A chop, player by player: the chopper has the price more, the victim less, down to nothing, and nobody else is touched. */
  lemma ChopByPlayer(p: Points, t: Table, c: Chop, prices: RankPrices, u: UserId)
    requires Ranks(p, t) && Between(t, c) && u in p
    ensures c.chopper in p && c.victim in p
    ensures var r, price := ChopPoints(p, Some(c), prices), prices.chop * (c.black + 2 * c.red);
      && u in r
      && r[u] == if u == c.chopper then p[u] + price else if u == c.victim then (if p[u] < price then 0 else p[u] - price) else p[u]
  {
    AddedTotal(p, c.chopper, ChopAmount(c, prices));
    AddedTotal(AddRankPoints(p, c.chopper, ChopAmount(c, prices)), c.victim, -ChopAmount(c, prices));
    hide Sum, Seated, AddRankPoints;
  }

  /** The end of a ranked game, player by player: the points of their place and of the twos, never below nothing. */
  lemma EndByPlayer(p: Points, t: Table, rp: nat, i: nat)
    requires Over(t) && t.instant == None && |t.seats| <= 4 && Ranks(p, t) && i < |t.seats|
    ensures Settled(t) && HasWinner(t) && |ActiveSet(t.seats)| == 1 && LastHolder(t) < |t.seats|
    ensures forall r :: r in RottenOf(t) ==> r.user in ByPlace(t, 0, |t.seats|)
    ensures forall u :: u in SeatUsers(t) ==> u in RpChange(t, rp)
    ensures var u, r := t.seats[i].user, AddAll(p, RpChange(t, rp), SeatUsers(t));
      && u in p && u in r
      && r[u] == Floored(p[u] + PlaceDelta(RP_SPREAD, |t.seats|, PlaceOf(t, i)) + Flowing(t, i, rp * UnitsOwed(t)))
  {
    OverIsSettled(t);
    SettledUsers(t);
    ChangesNameAll(t, rp);
    RankedByPlayer(t, rp, i);
    SeatHere(t, i);
    hide Sum, Settled, RpChange, HasWinner, RottenAmong, Over, LastHolder, PlaceDelta, PlaceOf, Seated, UnitsOwed;
    AddAllValues(p, RpChange(t, rp), SeatUsers(t));
  }

  lemma SeatHere(t: Table, i: nat)
    requires i < |t.seats|
    ensures Seated(t, |t.seats|, t.seats[i].user)
  {
  }

  /** One step never takes points out of the world, and adds some exactly when a loss is clamped. */
  lemma RankedStepTotal(g: RankedGame, e: Event, prices: RankPrices)
    requires Ready(g)
    ensures var g' := RankedNext(g, e, prices);
      Ready(g') && Sum(g'.points) >= Sum(g.points) && (Sum(g'.points) == Sum(g.points) <==> !Clamps(g, e, prices))
  {
    hide Sum, Reachable, CountsMatch, Step, Settled, HasWinner, Seated, Between, ChopPoints, EndClamps, RpChange, AddAll, PointsOf;
    StepGoesOn(g.table, e);
    ChopsOfStep(g.table, e);
    var t' := Step(g.table, e);
    var chop := NewChop(g.table, t');
    if chop.Some? {
      ChopTotal(g.points, g.table, chop.value, prices);
    } else {
      assert ChopPoints(g.points, None, prices) == g.points by {
        NoChopNoPoints(g.points, prices);
      }
    }
    var paid := ChopPoints(g.points, chop, prices);
    assert Ranks(paid, t');
    if Ends(g.table, t') {
      EndTotal(paid, t', prices.rotten);
    }
  }

  lemma NoChopNoPoints(p: Points, prices: RankPrices)
    ensures ChopPoints(p, None, prices) == p
  {
  }

  ghost predicate RankedRun(gs: seq<RankedGame>, es: seq<Event>, prices: RankPrices) {
    && |gs| == |es| + 1
    && forall i :: 0 <= i < |es| ==> Ready(gs[i]) && gs[i + 1] == RankedNext(gs[i], es[i], prices)
  }

  ghost predicate NeverClamps(gs: seq<RankedGame>, es: seq<Event>, n: nat, prices: RankPrices)
    requires RankedRun(gs, es, prices) && n <= |es|
  {
    forall i :: 0 <= i < n ==> !Clamps(gs[i], es[i], prices)
  }

  /**
   * Over every ranked game the points of all players together never shrink, and stay the same
   * exactly when no chop and no result ever cost anybody more than they had.
   */
  lemma {:induction false} PointsConservedIff(gs: seq<RankedGame>, es: seq<Event>, prices: RankPrices)
    requires RankedRun(gs, es, prices) && Ready(gs[0])
    ensures Ready(gs[|es|]) && Sum(gs[|es|].points) >= Sum(gs[0].points)
    ensures Sum(gs[|es|].points) == Sum(gs[0].points) <==> NeverClamps(gs, es, |es|, prices)
    decreases |es|
  {
    hide Sum, Ready, RankedNext, Clamps;
    if es != [] {
      var last := |es| - 1;
      var front, before := gs[..|es|], es[..last];
      PointsConservedIff(front, before, prices);
      RankedStepTotal(gs[last], es[last], prices);
      assert forall i :: 0 <= i < last ==> front[i] == gs[i] && before[i] == es[i];
      assert NeverClamps(front, before, last, prices) <==> NeverClamps(gs, es, last, prices);
      assert NeverClamps(gs, es, last + 1, prices) <==> NeverClamps(gs, es, last, prices) && !Clamps(gs[last], es[last], prices);
    }
  }
}
