/**
 * Coins over a whole Tien Len game: chops are paid at once, everything else
 * when the game ends (applyChopPenalty and finish in src/games/tienlen/tienlen.service.ts).
 * The changes reported at the end leave the chops out; this module says exactly when the
 * reports are nevertheless true.
 */
module TienLenStakes {
  import opened Wrappers
  import opened Sorting
  import opened Sums
  import opened Wallet
  import opened Rooms
  import opened TienLenLogic
  import opened TienLenTable
  import opened TienLenInvariant
  import opened TienLenMoves
  import opened TienLenFinish
  import opened TienLenRuns
  import opened TienLenRules
  import opened TienLenSettlement

  // ---- chops along a game ----

  function Units(c: Chop): nat { c.black + 2 * c.red }

  /** The chop recorded between one table and the next, if any. */
  function NewChop(t: Table, t': Table): Option<Chop> {
    if |t'.chops| > |t.chops| then Some(t'.chops[|t'.chops| - 1]) else None
  }

  /** Nothing is recorded but that chop. */
  ghost predicate ChopsGrow(t: Table, t': Table) {
    t'.chops == match NewChop(t, t') case Some(c) => t.chops + [c] case None => t.chops
  }

  /** A chop between two different players of the table, for at least one unit. */
  ghost predicate Between(t: Table, c: Chop) {
    && c.victim != c.chopper && Units(c) > 0
    && Seated(t, |t.seats|, c.victim) && Seated(t, |t.seats|, c.chopper)
  }

  lemma PlayChops(t: Table, user: UserId, cards: seq<Card>)
    requires Playing(t) && Play(t, user, cards).Success?
    ensures ChopsGrow(t, Play(t, user, cards).value)
    ensures var c := NewChop(t, Play(t, user, cards).value); c.Some? ==> Between(t, c.value)
  {
    hide Play, IdentifyCombo, Playing, Chops, ChopOf, Between;
    PlayAcceptedIffLegal(t, user, cards);
    ChopRecordedExactly(t, user, cards);
    var combo := IdentifyCombo(cards).value;
    NoChopOnEmpty(t, combo);
    if Chops(t, combo) {
      ChopBetween(t);
    }
  }

  lemma ChopBetween(t: Table)
    requires Playing(t) && t.combo != [] && t.lead != t.turn
    ensures Between(t, ChopOf(t, t.combo))
  {
    hide Retired, TrickOk, ActiveSet, RedCount;
    PlayingFacts(t);
    var c := ChopOf(t, t.combo);
    assert t.seats[t.lead].user == c.victim && t.seats[t.turn].user == c.chopper;
  }

  lemma PassChops(t: Table, s: nat)
    requires InRange(t) && s < |t.seats|
    ensures ApplyPass(t, s).chops == t.chops && AutoSkip(t, s).chops == t.chops
  {
    AdvanceFrame(MarkPassed(t, s), s);
  }

  lemma LeaveChops(t: Table, s: nat)
    requires InRange(t) && s < |t.seats|
    ensures AfterLeaving(ForceFinishLast(t, s), s).chops == t.chops
  {
    hide FinalOrder, NextActiveSeat, ActiveSet;
  }

  lemma DropChops(t: Table, user: UserId)
    requires InRange(t)
    ensures Disconnect(t, user).chops == t.chops
  {
    if s: nat :| FindSeat(t.seats, user) == Some(s) {
      PassChops(Offline(t, s), s);
    }
    hide AutoSkip, FindSeat;
  }

  lemma ClockChops(t: Table)
    requires Playing(t) && CountsMatch(t)
    ensures ChopsGrow(t, OnTimeout(t))
    ensures var c := NewChop(t, OnTimeout(t)); c.Some? ==> Between(t, c.value)
  {
    PassChops(t, t.turn);
    TimeoutMove(t);
    var seat := t.seats[t.turn];
    hide Play, Pass, AutoSkip, ApplyPass, Between;
    if t.combo == [] {
      PlayChops(t, seat.user, [seat.hand[0]]);
    }
  }

  /** Whatever happens, at most one chop is recorded, and it is between two players of the table. */
  lemma ChopsOfStep(t: Table, e: Event)
    requires Reachable(t) && CountsMatch(t)
    ensures ChopsGrow(t, Step(t, e))
    ensures var c := NewChop(t, Step(t, e)); c.Some? ==> Between(t, c.value)
  {
    hide Play, Playing, Over, OnTimeout, Disconnect, Between, AfterLeaving, ForceFinishLast, ApplyPass, CountsMatch, FindSeat;
    PlayingOrOver(t);
    match e
    case PlayCards(user, cards) =>
      if Play(t, user, cards).Success? {
        PlayNeedsActive(t, user, cards);
        PlayChops(t, user, cards);
      }
    case PassTurn(user) => PassChops(t, t.turn);
    case ClockOut =>
      if Playing(t) {
        ClockChops(t);
      } else {
        NothingAfterEnd(t, e);
      }
    case Drop(user) => DropChops(t, user);
    case Return(user) =>
    case _ =>
      if s: nat :| FindSeat(t.seats, e.user) == Some(s) {
        LeaveChops(t, s);
      }
  }

  lemma SameUsersSeated(t: Table, t': Table)
    requires |t'.seats| == |t.seats| && forall i :: 0 <= i < |t.seats| ==> t'.seats[i].user == t.seats[i].user
    ensures forall u :: Seated(t', |t'.seats|, u) <==> Seated(t, |t.seats|, u)
  {
  }

  lemma FinishedIsSettled(t: Table)
    requires Reachable(t) && t.status == Finished && |t.seats| <= 4
    ensures Settled(t) && HasWinner(t) && Seated(t, |t.seats|, Winner(t))
  {
    OverIsSettled(t);
    SettledHasWinner(t);
  }

  lemma AfterTheEnd(t: Table, e: Event)
    requires t.status == Finished && CountsMatch(t)
    ensures Step(t, e).status == Finished && Step(t, e).chops == t.chops
  {
    hide AfterLeaving, ApplyPass, FinishIfOver, ApplyPlay, AutoSkip;
  }

  /** The table stays reachable and its players the same; once it is finished everybody is placed and it stays so. */
  lemma StepGoesOn(t: Table, e: Event)
    requires Reachable(t) && |t.seats| <= 4
    ensures CountsMatch(t)
    ensures var t' := Step(t, e);
      && Reachable(t') && |t'.seats| == |t.seats|
      && (forall i :: 0 <= i < |t.seats| ==> t'.seats[i].user == t.seats[i].user)
      && (forall u :: Seated(t', |t'.seats|, u) <==> Seated(t, |t.seats|, u))
      && (t'.status == Finished ==> Settled(t') && HasWinner(t') && Seated(t', |t'.seats|, Winner(t')))
      && (t.status == Finished ==> t'.status == Finished && NewChop(t, t') == None)
  {
    hide Reachable, CountsMatch, Step, Settled, HasWinner, Seated;
    StepEffect(t, e);
    SeatsFixed(t, e);
    SameUsersSeated(t, Step(t, e));
    if Step(t, e).status == Finished {
      FinishedIsSettled(Step(t, e));
    }
    if t.status == Finished {
      AfterTheEnd(t, e);
    }
  }

  // ---- a wager game ----

  /** The bet, and what one black two costs when it is chopped and when it is kept to the end. */
  datatype Prices = Prices(bet: int, chop: int, rotten: int)

  datatype Flow = Flow(user: UserId, amount: int)

  function Net(flows: seq<Flow>, user: UserId): int {
    if flows == [] then 0
    else
      var last := flows[|flows| - 1];
      Net(flows[..|flows| - 1], user) + if last.user == user then last.amount else 0
  }

  function Total(flows: seq<Flow>): int {
    if flows == [] then 0 else Total(flows[..|flows| - 1]) + flows[|flows| - 1].amount
  }

  lemma FlowAppended(flows: seq<Flow>, f: Flow)
    ensures forall u :: Net(flows + [f], u) == Net(flows, u) + if f.user == u then f.amount else 0
    ensures Total(flows + [f]) == Total(flows) + f.amount
  {
    assert (flows + [f])[..|flows|] == flows;
  }

  /**
   * A wager game in progress: the table, the wallet, the chops paid so far, what else changed
   * balances meanwhile, and the changes reported once it is finished.
   */
  datatype Wagered = Wagered(
    table: Table, book: Book, chopped: seq<Flow>, elsewhere: seq<Flow>, change: map<UserId, int>)

  datatype GameEvent = Turn(e: Event) | Elsewhere(user: UserId, amount: int)

  function PayChop(g: Wagered, c: Chop, price: int): Wagered {
    var amount := price * Units(c);
    if Stake(g.book, c.victim, amount).Failure? then g
    else
      g.(book := SidePayment(g.book, c.victim, c.chopper, amount),
         chopped := g.chopped + [Flow(c.victim, -amount)] + [Flow(c.chopper, amount)])
  }

  function SettleWager(g: Wagered, prices: Prices): Wagered {
    if HasWinner(g.table)
    then
      var p := WagerSettle(g.book, g.table, prices.bet, prices.bet * |g.table.seats|, prices.rotten);
      g.(book := p.book, change := p.change)
    else g.(change := StakesLost(g.table, prices.bet, |g.table.seats|))
  }

  /** One step: the table moves on, a new chop is paid, and the game is settled if it has just ended. */
  function TakeTurn(g: Wagered, e: Event, prices: Prices): Wagered
    requires CountsMatch(g.table)
  {
    var t' := Step(g.table, e);
    var paid := match NewChop(g.table, t') case Some(c) => PayChop(g, c, prices.chop) case None => g;
    var moved := paid.(table := t');
    if g.table.status == Active && t'.status == Finished then SettleWager(moved, prices) else moved
  }

  /** Balances also change for reasons outside the game, but never below zero. */
  function ChangeElsewhere(g: Wagered, user: UserId, amount: int): Wagered {
    if user in g.book.balances && g.book.balances[user] + amount >= 0
    then g.(book := Post(g.book, user, amount, Topup), elsewhere := g.elsewhere + [Flow(user, amount)])
    else g
  }

  function Next(g: Wagered, e: GameEvent, prices: Prices): Wagered
    requires CountsMatch(g.table)
  {
    match e
    case Turn(move) => TakeTurn(g, move, prices)
    case Elsewhere(user, amount) => ChangeElsewhere(g, user, amount)
  }

  ghost predicate GoodPrices(prices: Prices) { prices.bet > 0 && prices.chop > 0 && prices.rotten > 0 }

  /** What the game itself owes or has paid a player, chops aside. */
  ghost function Share(g: Wagered, user: UserId, bet: int): int {
    if user in g.change then g.change[user]
    else if g.table.status == Active && Seated(g.table, |g.table.seats|, user) then -bet
    else 0
  }

  /** Every balance is what it was before the stakes, changed by the game, its chops and the rest of the world. */
  ghost predicate Accounts(before: Book, g: Wagered, bet: int) {
    && g.book.balances.Keys == before.balances.Keys
    && forall u :: u in before.balances ==>
         g.book.balances[u] == before.balances[u] + Share(g, u, bet) + Net(g.chopped, u) + Net(g.elsewhere, u)
  }

  ghost predicate Reported(g: Wagered) {
    if g.table.status == Active then g.change == map[]
    else Sum(g.change) == 0 && forall u :: u in g.change <==> Seated(g.table, |g.table.seats|, u)
  }

  ghost predicate InWallet(t: Table, b: Book) { forall u :: Seated(t, |t.seats|, u) ==> u in b.balances }

  ghost predicate Sound(before: Book, g: Wagered, bet: int) {
    && Reachable(g.table) && |g.table.seats| <= 4 && InWallet(g.table, before)
    && Total(g.chopped) == 0 && Reported(g) && Accounts(before, g, bet)
  }

  // ---- each part of a step ----

  lemma PaidChop(before: Book, g: Wagered, c: Chop, prices: Prices)
    requires GoodPrices(prices) && Accounts(before, g, prices.bet) && Total(g.chopped) == 0
    requires InWallet(g.table, before) && Between(g.table, c)
    ensures var p := PayChop(g, c, prices.chop);
      && Accounts(before, p, prices.bet) && Total(p.chopped) == 0
      && p == g.(book := p.book, chopped := p.chopped)
  {
    hide Net, Total, Units, Seated, Stake, SidePayment;
    var p, amount := PayChop(g, c, prices.chop), prices.chop * Units(c);
    if p != g {
      FlowAppended(g.chopped, Flow(c.victim, -amount));
      FlowAppended(g.chopped + [Flow(c.victim, -amount)], Flow(c.chopper, amount));
      ChopMoves(g.book, c.victim, c.chopper, amount);
      assert forall u :: Share(p, u, prices.bet) == Share(g, u, prices.bet);
    }
  }

  lemma ChopMoves(b: Book, victim: UserId, chopper: UserId, amount: int)
    requires Stake(b, victim, amount).Success? && chopper in b.balances && victim != chopper
    ensures victim in b.balances
    ensures SidePayment(b, victim, chopper, amount).balances ==
      b.balances[victim := b.balances[victim] - amount][chopper := b.balances[chopper] + amount]
  {
  }

  lemma SettledWager(before: Book, g: Wagered, prices: Prices)
    requires GoodPrices(prices) && Settled(g.table) && HasWinner(g.table) && InWallet(g.table, before)
    requires g.change == map[] && g.table.status == Finished && Accounts(before, g.(table := g.table.(status := Active)), prices.bet)
    ensures var s := SettleWager(g, prices);
      && s == g.(book := s.book, change := s.change)
      && Accounts(before, s, prices.bet) && Reported(s)
  {
    hide WagerSettle, Settled, Sum, Net;
    var bet, t := prices.bet, g.table;
    var running := g.(table := t.(status := Active));
    forall i | 0 <= i < |t.seats| ensures t.seats[i].user in g.book.balances {
      assert Seated(t, |t.seats|, t.seats[i].user);
    }
    WagerSettlement(g.book, t, bet, bet * |t.seats|, prices.rotten);
    SeatedHaveEntries(t, SettleWager(g, prices).change);
    assert forall u :: Seated(t, |t.seats|, u) <==> Seated(running.table, |t.seats|, u);
    hide Seated;
  }

  lemma ElsewhereKeeps(before: Book, g: Wagered, user: UserId, amount: int, bet: int)
    requires Sound(before, g, bet)
    ensures Sound(before, ChangeElsewhere(g, user, amount), bet)
  {
    FlowAppended(g.elsewhere, Flow(user, amount));
    hide Net, Seated, Reachable, Total, Sum;
    var h := ChangeElsewhere(g, user, amount);
    assert forall u :: Share(h, u, bet) == Share(g, u, bet);
  }

  lemma TurnKeeps(before: Book, g: Wagered, e: Event, prices: Prices)
    requires GoodPrices(prices) && Sound(before, g, prices.bet)
    ensures CountsMatch(g.table) && Sound(before, TakeTurn(g, e, prices), prices.bet)
  {
    hide Reachable, CountsMatch, Step, Settled, HasWinner, Seated, Between, PayChop, SettleWager, Net, Total, Sum;
    StepGoesOn(g.table, e);
    ChopsOfStep(g.table, e);
    var t' := Step(g.table, e);
    var c := NewChop(g.table, t');
    var paid := if c.Some? then PayChop(g, c.value, prices.chop) else g;
    if c.Some? {
      PaidChop(before, g, c.value, prices);
    }
    var moved := paid.(table := t');
    assert InWallet(t', before);
    if g.table.status == Active && t'.status == Finished {
      var running := moved.(table := t'.(status := Active));
      SameUsersSeated(t', running.table);
      assert forall u :: Share(running, u, prices.bet) == Share(paid, u, prices.bet);
      SettledWager(before, moved, prices);
    } else {
      assert forall u :: Share(moved, u, prices.bet) == Share(paid, u, prices.bet);
    }
  }

  // ---- from the stakes on ----

  function SeatUsers(t: Table): (r: seq<UserId>)
    ensures |r| == |t.seats| && forall i :: 0 <= i < |r| ==> r[i] == t.seats[i].user
  {
    seq(|t.seats|, i requires 0 <= i < |t.seats| => t.seats[i].user)
  }

  lemma SeatUsersAreSeated(t: Table)
    requires forall i, j :: 0 <= i < j < |t.seats| ==> t.seats[i].user != t.seats[j].user
    ensures Distinct(SeatUsers(t)) && forall u :: u in SeatUsers(t) <==> Seated(t, |t.seats|, u)
  {
    forall u | Seated(t, |t.seats|, u) ensures u in SeatUsers(t) {
      var i :| 0 <= i < |t.seats| && t.seats[i].user == u;
      assert SeatUsers(t)[i] == u;
    }
  }

  /** Every player's stake, one after another. */
  function StakeAll(b: Book, users: seq<UserId>, bet: int): Result<Book, WalletError> {
    if users == [] then Success(b)
    else
      match StakeAll(b, users[..|users| - 1], bet)
      case Failure(e) => Failure(e)
      case Success(b') => Stake(b', users[|users| - 1], bet)
  }

  lemma {:induction false} StakeAllTakes(b: Book, users: seq<UserId>, bet: int)
    requires Distinct(users) && StakeAll(b, users, bet).Success?
    ensures var b' := StakeAll(b, users, bet).value;
      && b'.balances.Keys == b.balances.Keys
      && (forall u :: u in users ==> u in b.balances)
      && forall u :: u in b.balances ==> b'.balances[u] == b.balances[u] - if u in users then bet else 0
  {
    if users != [] {
      var front, last := users[..|users| - 1], users[|users| - 1];
      StakeAllTakes(b, front, bet);
      assert forall i :: 0 <= i < |front| ==> front[i] == users[i];
      assert users == front + [last];
      assert last !in front;
    }
  }

  /** A game just launched: everybody's stake has been taken and nothing else has happened. */
  ghost predicate Launched(before: Book, g: Wagered, bet: int) {
    && Playing(g.table) && |g.table.seats| <= 4
    && StakeAll(before, SeatUsers(g.table), bet) == Success(g.book)
    && g.chopped == [] && g.elsewhere == [] && g.change == map[]
  }

  lemma LaunchedIsSound(before: Book, g: Wagered, bet: int)
    requires Launched(before, g, bet)
    ensures Sound(before, g, bet)
  {
    SeatUsersAreSeated(g.table);
    StakeAllTakes(before, SeatUsers(g.table), bet);
    hide StakeAll, Seated;
  }

  ghost predicate GameRun(gs: seq<Wagered>, es: seq<GameEvent>, prices: Prices) {
    && |gs| == |es| + 1
    && forall i :: 0 <= i < |es| ==> CountsMatch(gs[i].table) && gs[i + 1] == Next(gs[i], es[i], prices)
  }

  lemma {:induction false} RunIsSound(before: Book, gs: seq<Wagered>, es: seq<GameEvent>, prices: Prices)
    requires GoodPrices(prices) && GameRun(gs, es, prices) && Launched(before, gs[0], prices.bet)
    ensures Sound(before, gs[|es|], prices.bet)
    decreases |es|
  {
    hide Sound, CountsMatch, TakeTurn, ChangeElsewhere;
    if es == [] {
      LaunchedIsSound(before, gs[0], prices.bet);
    } else {
      var last := |es| - 1;
      RunIsSound(before, gs[..|es|], es[..last], prices);
      match es[last]
      case Turn(move) => TurnKeeps(before, gs[last], move, prices);
      case Elsewhere(user, amount) => ElsewhereKeeps(before, gs[last], user, amount, prices.bet);
    }
  }

  /**
   * Over every wager game, from before its stakes to after its settlement, a player's balance
   * changed by what was reported to them, plus what they won and lost by chops, plus what
   * happened outside the game. So the report is the player's true gain exactly when their
   * chops cancel out. Reports and chops each add up to nothing.
   */
  lemma ReportIsTrueIff(before: Book, gs: seq<Wagered>, es: seq<GameEvent>, prices: Prices, user: UserId)
    requires GoodPrices(prices) && GameRun(gs, es, prices) && Launched(before, gs[0], prices.bet)
    requires gs[|es|].table.status == Finished && Seated(gs[|es|].table, |gs[|es|].table.seats|, user)
    ensures var g := gs[|es|];
      && user in before.balances && user in g.book.balances && user in g.change
      && Sum(g.change) == 0 && Total(g.chopped) == 0
      && g.book.balances[user] - before.balances[user] - Net(g.elsewhere, user) == g.change[user] + Net(g.chopped, user)
      && (g.book.balances[user] - before.balances[user] - Net(g.elsewhere, user) == g.change[user] <==> Net(g.chopped, user) == 0)
  {
    RunIsSound(before, gs, es, prices);
    hide GameRun, Launched, Reachable, Seated, Sum, Net, Total;
  }

  /** The penalty as the service performs it: the victim pays the chopper, or nobody pays anything. */
  method ApplyChopPenalty(wager: WagerService, ghost g: Wagered, c: Chop, price: int) returns (paid: bool)
    requires wager.wallet.Contents() == g.book
    modifies wager.wallet
    ensures wager.wallet.Contents() == PayChop(g, c, price).book
    ensures paid <==> Stake(g.book, c.victim, price * Units(c)).Success?
  {
    var amount := price * (c.black + 2 * c.red);
    paid := wager.CollectStake(c.victim, amount);
    if paid {
      var _ := wager.PayTo(c.chopper, amount, GamePayout);
    }
  }
}
