/**
 * A wager game in which a single chop makes the reported coin changes wrong: the smallest case
 * of TienLenStakes.ReportIsTrueIff, from a dealt table to the end.
 */
module TienLenOneChop {
  import opened Wrappers
  import opened Sorting
  import opened Wallet
  import opened TienLenLogic
  import opened TienLenDeck
  import opened TienLenTable
  import opened TienLenInvariant
  import opened TienLenMoves
  import opened TienLenFinish
  import opened TienLenRuns
  import opened TienLenRules
  import opened TienLenGame
  import opened TienLenSettlement
  import opened TienLenStakes

  /** A player puts down a single two, the other chops it with a four, and the first resigns. */
  ghost function OneChop(t: Table, two: Card, four: seq<Card>): seq<GameEvent>
    requires |t.seats| == 2
  {
    [Turn(PlayCards(t.seats[0].user, [two])), Turn(PlayCards(t.seats[1].user, four)), Turn(Quit(t.seats[0].user))]
  }

  /** Two players on a free lead, the first with a two, the second with a four, both with cards to spare. */
  ghost predicate ReadyToChop(t: Table, two: Card, four: seq<Card>) {
    && Playing(t) && |t.seats| == 2 && t.turn == 0 && t.combo == []
    && two in t.seats[0].hand && RankOf(two) == TWO && |t.seats[0].hand| > 1
    && IdentifyCombo(four).Some? && IdentifyCombo(four).value.kind == Four && Distinct(four)
    && multiset(four) <= multiset(t.seats[1].hand) && |t.seats[1].hand| > 4
  }

  lemma TwoSeats(seats: seq<Seat>)
    requires |seats| == 2
    ensures |ActiveSet(seats)| >= 2 <==> seats[0].handCount > 0 && seats[1].handCount > 0
  {
    if |ActiveSet(seats)| >= 2 {
      BothActive(ActiveSet(seats));
      assert 0 in ActiveSet(seats) && 1 in ActiveSet(seats);
    }
    if seats[0].handCount > 0 && seats[1].handCount > 0 {
      SubsetSize({0, 1}, ActiveSet(seats));
    }
  }

  lemma BothStillHold(t: Table, cards: seq<Card>, combo: Combo, newHand: seq<Card>)
    requires Playing(t) && |t.seats| == 2 && Playable(t, t.turn, cards, combo, newHand) && |cards| < |t.seats[t.turn].hand|
    ensures |ActiveSet(PutDown(t, t.turn, combo, newHand).seats)| >= 2
  {
    hide IdentifyCombo, RemoveCards, PutDown, TrickOk, Retired, Shape, ActiveSet;
    PlayingFacts(t);
    NewHandIsGood(t, t.turn, cards, combo, newHand);
    IdentifyIsIdempotent(cards);
    PutDownSeats(t, t.turn, combo, newHand);
    TwoSeats(t.seats);
    TwoSeats(PutDown(t, t.turn, combo, newHand).seats);
  }

  /** After a play that leaves cards in the hand of one of two players, the other is on turn and nothing else moves. */
  lemma OtherIsOnTurn(t: Table, cards: seq<Card>, combo: Combo, newHand: seq<Card>)
    requires Playing(t) && |t.seats| == 2 && Playable(t, t.turn, cards, combo, newHand) && |cards| < |t.seats[t.turn].hand|
    ensures var p, t' := PutDown(t, t.turn, combo, newHand), ApplyPlay(t, t.turn, combo, newHand);
      |p.seats| == 2 && t'.turn == 1 - t.turn && t' == p.(turn := t'.turn) && FinishIfOver(t') == t'
  {
    hide IdentifyCombo, RemoveCards, PutDown, ApplyPlay, TrickOk, Retired, Shape, ActiveSet, Playing, Playable;
    BothStillHold(t, cards, combo, newHand);
    PlayHandsOn(t, cards, combo, newHand);
  }

  lemma PlayOfTwo(t: Table, cards: seq<Card>)
    requires Playing(t) && |t.seats| == 2 && Legal(t, t.seats[t.turn].user, cards) && |cards| < |t.seats[t.turn].hand|
    ensures var r := Play(t, t.seats[t.turn].user, cards);
      && r.Success?
      && var t' := r.value;
      && Playing(t') && |t'.seats| == 2 && t'.turn == 1 - t.turn && t'.lead == t.turn
      && IdentifyCombo(cards).Some? && t'.combo == IdentifyCombo(cards).value.cards
      && t'.seats[1 - t.turn].hand == t.seats[1 - t.turn].hand
      && (forall i :: 0 <= i < 2 ==> t'.seats[i].user == t.seats[i].user)
  {
    hide *;
    PlayingFacts(t);
    var user := t.seats[t.turn].user;
    LegalPlayIs(t, user, cards);
    var combo, newHand := AcceptedPlay(t, user, cards);
    var chops := RecordChop(t, user, combo).chops;
    AcceptedPlayIs(t, user, cards, combo, newHand, chops);
    ChopsKeepPlaying(t, chops);
    OtherIsOnTurn(t.(chops := chops), cards, combo, newHand);
    PutDownSeats(t.(chops := chops), t.turn, combo, newHand);
    PutDownRest(t.(chops := chops), t.turn, combo, newHand);
    PlayEffect(t, user, cards);
    EffectGoesOn(t, Play(t, user, cards).value);
  }

  lemma LegalPlayIs(t: Table, user: UserId, cards: seq<Card>)
    requires Playing(t) && Legal(t, user, cards)
    ensures InRange(t) && Play(t, user, cards).Success? && IdentifyCombo(cards).Some?
  {
    hide Playing;
    PlayAcceptedIffLegal(t, user, cards);
    PlayingFacts(t);
  }

  lemma PutDownRest(t: Table, s: nat, combo: Combo, newHand: seq<Card>)
    requires InRange(t) && s < |t.seats|
    ensures var p := PutDown(t, s, combo, newHand); p.status == t.status && p.lead == s && p.combo == combo.cards
  {
  }

  lemma EffectGoesOn(t: Table, t': Table)
    requires Effect(t, t', multiset{}, true) && t'.status == Active
    ensures Playing(t')
  {
  }

  lemma BothActive(s: set<nat>)
    requires s <= {0, 1} && |s| >= 2
    ensures s == {0, 1}
  {
    if 0 !in s {
      SubsetSize(s, {1});
    }
    if 1 !in s {
      SubsetSize(s, {0});
    }
  }

  lemma FirstPlaysTwo(t: Table, two: Card, four: seq<Card>)
    requires ReadyToChop(t, two, four)
    ensures var e := PlayCards(t.seats[0].user, [two]);
      && CountsMatch(t)
      && var t' := Step(t, e);
      && Playing(t') && |t'.seats| == 2 && t'.turn == 1 && t'.lead == 0 && t'.combo == [two]
      && t'.seats[1].hand == t.seats[1].hand && (forall i :: 0 <= i < 2 ==> t'.seats[i].user == t.seats[i].user)
      && NewChop(t, t') == None
  {
    SingleIsRecognised(two);
    var user := t.seats[0].user;
    hide IdentifyCombo, Play, Shape, Retired, TrickOk, ActiveSet;
    PlayingFacts(t);
    assert two in multiset(t.seats[0].hand);
    PlayOfTwo(t, [two]);
    ChopRecordedExactly(t, user, [two]);
    ReachableCounts(t);
  }

  lemma SecondChops(t: Table, two: Card, four: seq<Card>)
    requires Playing(t) && |t.seats| == 2 && t.turn == 1 && t.lead == 0 && t.combo == [two] && RankOf(two) == TWO
    requires IdentifyCombo(four).Some? && IdentifyCombo(four).value.kind == Four && Distinct(four)
    requires multiset(four) <= multiset(t.seats[1].hand) && |t.seats[1].hand| > 4
    ensures var e := PlayCards(t.seats[1].user, four);
      && CountsMatch(t)
      && var t' := Step(t, e);
      && Playing(t') && |t'.seats| == 2 && (forall i :: 0 <= i < 2 ==> t'.seats[i].user == t.seats[i].user)
      && NewChop(t, t').Some?
      && var c := NewChop(t, t').value;
      && c.victim == t.seats[0].user && c.chopper == t.seats[1].user && Units(c) == HeoUnits([two]) > 0
  {
    hide IdentifyCombo, Play, Playing, Legal, RedCount, Chops, CountsMatch;
    var user := t.seats[1].user;
    FourIsLegal(t, two, four);
    PlayingFacts(t);
    PlayOfTwo(t, four);
    ChopRecordedExactly(t, user, four);
    PlayingIsReachable(t);
    ReachableCounts(t);
  }

  lemma FourIsLegal(t: Table, two: Card, four: seq<Card>)
    requires Playing(t) && |t.seats| == 2 && t.turn == 1 && t.lead == 0 && t.combo == [two] && RankOf(two) == TWO
    requires IdentifyCombo(four).Some? && IdentifyCombo(four).value.kind == Four && Distinct(four)
    requires multiset(four) <= multiset(t.seats[1].hand)
    ensures Legal(t, t.seats[1].user, four) && |four| == 4 && Chops(t, IdentifyCombo(four).value)
  {
    SingleIsRecognised(two);
    IdentifyIsIdempotent(four);
    RecognisedShape(IdentifyCombo(four).value);
    hide IdentifyCombo, Playing;
    PlayingFacts(t);
  }

  lemma FirstQuits(t: Table)
    requires Playing(t) && |t.seats| == 2
    ensures var e := Quit(t.seats[0].user);
      && CountsMatch(t) && Step(t, e).status == Finished && NewChop(t, Step(t, e)) == None
  {
    PlayingFacts(t);
    SeatOfUser(t, 0);
    ReachableCounts(t);
    LeaveChops(t, 0);
    TwoSeats(t.seats);
    TwoSeats(ForceFinishLast(t, 0).seats);
    hide Shape, Retired, TrickOk, ActiveSet, FinalOrder, FindSeat;
  }

  lemma NetOfChop(victim: UserId, chopper: UserId, amount: int)
    requires victim != chopper
    ensures var flows := [Flow(victim, -amount), Flow(chopper, amount)];
      Net(flows, victim) == -amount && Net(flows, chopper) == amount
  {
    var first, second := Flow(victim, -amount), Flow(chopper, amount);
    FlowAppended([], first);
    FlowAppended([first], second);
    assert [] + [first] == [first] && [first] + [second] == [first, second];
    assert Net([], victim) == Net([], chopper) == 0;
    hide Net;
  }

  /** In such a game both reports are wrong, by the price of the two. */
  lemma OneChopMisleads(before: Book, g: Wagered, two: Card, four: seq<Card>, prices: Prices) returns (gs: seq<Wagered>)
    requires GoodPrices(prices) && Launched(before, g, prices.bet) && ReadyToChop(g.table, two, four)
    requires var u := g.table.seats[0].user; u in g.book.balances && g.book.balances[u] >= prices.chop * HeoUnits([two])
    ensures GameRun(gs, OneChop(g.table, two, four), prices) && gs[0] == g && gs[3].table.status == Finished
    ensures var victim, chopper, price := g.table.seats[0].user, g.table.seats[1].user, prices.chop * HeoUnits([two]);
      && victim in before.balances && victim in gs[3].change && victim in gs[3].book.balances
      && chopper in before.balances && chopper in gs[3].change && chopper in gs[3].book.balances
      && price > 0
      && gs[3].book.balances[victim] - before.balances[victim] == gs[3].change[victim] - price
      && gs[3].book.balances[chopper] - before.balances[chopper] == gs[3].change[chopper] + price
  {
    hide *;
    ReadyMeans(g.table, two, four);
    OneChopIs(g.table, two, four);
    var es := OneChop(g.table, two, four);
    TwoUsers(before, g, prices.bet);
    gs := OneChopRun(before, g, two, four, prices);
    SeatedAt(gs[3].table, 0);
    SeatedAt(gs[3].table, 1);
    ReportIsTrueIff(before, gs, es, prices, g.table.seats[0].user);
    ReportIsTrueIff(before, gs, es, prices, g.table.seats[1].user);
    NetOfChop(g.table.seats[0].user, g.table.seats[1].user, prices.chop * HeoUnits([two]));
    NetOfNothing();
  }

  lemma SeatedAt(t: Table, i: nat)
    requires i < |t.seats|
    ensures Seated(t, |t.seats|, t.seats[i].user)
  {
  }

  /** Two hands of 13: the first with the lowest card and one two, the second with the four fours. */
  ghost function ChopHands(): (r: seq<seq<Card>>)
    ensures |r| == 2 && |r[0]| == 13 && |r[1]| == 13
    ensures forall k :: 0 <= k < 13 ==> r[0][k] == if k < 2 then k else 4 * k + 1
    ensures forall k :: 0 <= k < 13 ==> r[1][k] == if k < 4 then 4 + k else 4 * k - 6
  {
    [seq(13, k => if k < 2 then k else 4 * k + 1), seq(13, k => if k < 4 then 4 + k else 4 * k - 6)]
  }

  ghost function ChopDeal(): Table { NewTable([1, 2], ChopHands(), 0) }

  lemma ChopDealIsGood()
    ensures GoodDeal(ChopHands())
  {
    hide ChopHands;
    var a, b := ChopHands()[0], ChopHands()[1];
    forall i, j | 0 <= i < 13 && 0 <= j < 13 ensures a[i] != b[j] {
    }
    assert forall k :: 0 <= k < 2 ==> ChopHands()[k] == a || ChopHands()[k] == b;
  }

  lemma {:induction false} CopiesOfOne(s: seq<int>, r: int)
    requires forall k :: 0 <= k < |s| ==> s[k] == r
    ensures multiset(s)[r] == |s|
  {
    if s != [] {
      CopiesOfOne(s[1..], r);
      assert s == [s[0]] + s[1..];
    }
  }

  /** A rank found exactly at the places from `lo` up to `hi` is there that often. */
  lemma CopiesBetween(hand: seq<Card>, r: int, lo: nat, hi: nat)
    requires lo <= hi <= |hand| && forall k :: 0 <= k < |hand| ==> (RankOf(hand[k]) == r <==> lo <= k < hi)
    ensures Copies(hand, r) == hi - lo
  {
    hide RankList;
    var ranks := RankList(hand);
    RankListAt(hand);
    assert ranks == ranks[..lo] + ranks[lo..hi] + ranks[hi..];
    CopiesOfOne(ranks[lo..hi], r);
    assert r !in ranks[..lo] && r !in ranks[hi..];
  }

  lemma RankListAt(hand: seq<Card>)
    ensures forall k :: 0 <= k < |hand| ==> RankList(hand)[k] == RankOf(hand[k])
  {
  }

  /** The first hand has one pair and no fours, the second four fours and no pair: neither wins at once. */
  ghost function RankCount(i: nat, r: nat): nat {
    if i == 0 then (if r == 0 then 2 else if r == 1 then 0 else 1)
    else if r == 1 then 4 else if 2 <= r <= 10 then 1 else 0
  }

  lemma RanksCounted(i: nat, r: nat)
    requires i < 2 && r < 13
    ensures Copies(ChopHands()[i], r) == RankCount(i, r)
  {
    hide ChopHands, Copies;
    var hand := ChopHands()[i];
    if i == 0 {
      CopiesBetween(hand, r, if r == 0 then 0 else if r == 1 then 2 else r, if r <= 1 then 2 else r + 1);
    } else {
      CopiesBetween(hand, r, if r <= 1 then 0 else if r <= 10 then r + 2 else 13,
        if r == 0 then 0 else if r == 1 then 4 else if r <= 10 then r + 3 else 13);
    }
  }

  lemma {:induction false} FewPairs(i: nat, n: nat)
    requires i < 2 && n <= 13
    ensures PairsBelow(ChopHands()[i], n) <= 2 && (n <= 1 && i == 1 ==> PairsBelow(ChopHands()[i], n) == 0)
    ensures n > 0 && i == 0 ==> PairsBelow(ChopHands()[i], n) <= 1
  {
    hide ChopHands, Copies;
    if n > 0 {
      FewPairs(i, n - 1);
      RanksCounted(i, n - 1);
    }
  }

  lemma NoInstantWin(i: nat)
    requires i < 2
    ensures InstantWinOf(ChopHands()[i]) == None
  {
    hide Copies, ChopHands, PairsBelow;
    var hand := ChopHands()[i];
    FewPairs(i, 13);
    RanksCounted(i, 12);
    RanksCounted(i, 1 - i);
    RanksCounted(i, 11);
    forall start: nat | start <= 7 ensures !PairRunAt(hand, start) {
      RanksCounted(i, start + 2);
      assert Copies(hand, start + 2) < 2;
    }
  }

  lemma ChopDealIsFair()
    ensures FairStart(ChopDeal(), [1, 2]) && ChopDeal().status == Active
  {
    hide ChopHands, InstantWinOf, GoodDeal, FairStart;
    ChopDealIsGood();
    NoInstantWin(0);
    NoInstantWin(1);
    LowestFirst();
    OpenDealIsFair([1, 2], ChopHands(), 0);
  }

  lemma LowestFirst()
    ensures forall k, c :: 0 <= k < 2 && c in ChopHands()[k] ==> ChopHands()[0][0] <= c
  {
    hide ChopHands;
  }

  function Fours(): (r: seq<Card>)
    ensures |r| == 4 && forall k :: 0 <= k < 4 ==> r[k] == 4 + k
  {
    [4, 5, 6, 7]
  }

  lemma FoursSorted()
    ensures Sort(Fours()) == Fours() && AllSameRank(Fours())
  {
    hide Sort, Fours;
    SortOfSorted(Fours());
  }

  lemma FoursAreFour()
    ensures IdentifyCombo(Fours()).Some? && IdentifyCombo(Fours()).value.kind == Four && Distinct(Fours())
  {
    hide Sort, AllSameRank, IsStraight, IsPairStraight, NoTwo, NonDecreasing;
    FoursSorted();
  }

  lemma ChopDealPlays()
    ensures Playing(ChopDeal()) && ChopDeal().turn == 0 && ChopDeal().combo == [] && |ChopDeal().seats| == 2
    ensures forall i :: 0 <= i < 2 ==> ChopDeal().seats[i].user == i + 1 && ChopDeal().seats[i].hand == ChopHands()[i]
  {
    hide ChopHands, GoodDeal, Playing;
    ChopDealIsGood();
    NewTablePlaying([1, 2], ChopHands(), 0);
  }

  lemma FoursHeld()
    ensures multiset(Fours()) <= multiset(ChopHands()[1])
  {
    var hand := ChopHands()[1];
    assert hand[..4] == Fours();
    assert hand == hand[..4] + hand[4..];
  }

  lemma ChopDealIsReady()
    ensures ReadyToChop(ChopDeal(), 49, Fours())
  {
    hide ChopHands, IdentifyCombo, Playing, ChopDeal, Fours, Distinct;
    ChopDealPlays();
    FoursAreFour();
    FoursHeld();
    assert ChopHands()[0][12] == 49;
  }

  /** A dealt game of two players with a hundred coins each, in which the report to the victim is five coins too high. */
  lemma WrongReport() returns (before: Book, gs: seq<Wagered>, es: seq<GameEvent>)
    ensures GameRun(gs, es, Prices(10, 5, 5)) && Launched(before, gs[0], 10) && |es| == 3
    ensures gs[0].table == ChopDeal() && FairStart(ChopDeal(), [1, 2]) && gs[3].table.status == Finished
    ensures 1 in before.balances && 1 in gs[3].change && 1 in gs[3].book.balances
    ensures gs[3].book.balances[1] - before.balances[1] == gs[3].change[1] - 5
  {
    hide ReadyToChop, ChopDeal, ChopHands, IdentifyCombo, HeoUnits, StakeAll, GameRun, Legal, OneChop, Playing, Fours, Stake, FairStart;
    before := Book(map[1 := 100, 2 := 100], []);
    var book := StakesOfTwo(before);
    var g := Wagered(ChopDeal(), book, [], [], map[]);
    ChopDealPlays();
    ChopDealIsFair();
    ChopDealIsReady();
    OneBlackTwo();
    assert SeatUsers(g.table) == [1, 2];
    gs := OneChopMisleads(before, g, 49, Fours(), Prices(10, 5, 5));
    es := OneChop(g.table, 49, Fours());
    OneChopIs(g.table, 49, Fours());
  }

  lemma OneBlackTwo()
    ensures HeoUnits([49]) == 1
  {
    assert [49][..0] == [];
  }

  lemma StakesOfTwo(before: Book) returns (book: Book)
    requires before == Book(map[1 := 100, 2 := 100], [])
    ensures StakeAll(before, [1, 2], 10) == Success(book) && book.balances == map[1 := 90, 2 := 90]
  {
    assert [1, 2][..1] == [1] && [1][..0] == [];
    book := StakeAll(before, [1, 2], 10).value;
  }

  lemma TwoUsers(before: Book, g: Wagered, bet: int)
    requires Launched(before, g, bet) && |g.table.seats| == 2
    ensures g.table.seats[0].user != g.table.seats[1].user
  {
  }

  lemma NetOfNothing()
    ensures forall u :: Net([], u) == 0
  {
  }

  lemma OneChopRun(before: Book, g: Wagered, two: Card, four: seq<Card>, prices: Prices) returns (gs: seq<Wagered>)
    requires GoodPrices(prices) && Launched(before, g, prices.bet) && ReadyToChop(g.table, two, four)
    requires var u := g.table.seats[0].user; u in g.book.balances && g.book.balances[u] >= prices.chop * HeoUnits([two])
    ensures |g.table.seats| == 2 && |gs| == 4
    ensures GameRun(gs, OneChop(g.table, two, four), prices) && gs[0] == g && gs[3].table.status == Finished
    ensures |gs[3].table.seats| == 2 && forall i :: 0 <= i < 2 ==> gs[3].table.seats[i].user == g.table.seats[i].user
    ensures gs[3].elsewhere == [] && prices.chop * HeoUnits([two]) > 0
    ensures var price := prices.chop * HeoUnits([two]);
      gs[3].chopped == [Flow(g.table.seats[0].user, -price), Flow(g.table.seats[1].user, price)]
  {
    hide *;
    var t := g.table;
    ReadyMeans(t, two, four);
    LaunchedMeans(before, g, prices.bet);
    FirstPlaysTwo(t, two, four);
    var t1 := Step(t, PlayCards(t.seats[0].user, [two]));
    QuietTurn(g, PlayCards(t.seats[0].user, [two]), prices);
    SecondChops(t1, two, four);
    var g1 := g.(table := t1);
    var e := PlayCards(t1.seats[1].user, four);
    ChopTurn(g1, e, prices);
    var g2 := TakeTurn(g1, e, prices);
    FirstQuits(g2.table);
    SeatsFixed(g2.table, Quit(t.seats[0].user));
    LastTurn(g2, Quit(t.seats[0].user), prices);
    gs := [g, g1, g2, TakeTurn(g2, Quit(t.seats[0].user), prices)];
    ThreeTurns(gs, PlayCards(t.seats[0].user, [two]), e, Quit(t.seats[0].user), prices);
    OneChopIs(t, two, four);
  }

  lemma ReadyMeans(t: Table, two: Card, four: seq<Card>)
    requires ReadyToChop(t, two, four)
    ensures |t.seats| == 2 && t.turn == 0 && Playing(t) && t.status == Active && RankOf(two) == TWO && |t.seats[1].hand| > 4
    ensures IdentifyCombo(four).Some? && IdentifyCombo(four).value.kind == Four && Distinct(four)
    ensures multiset(four) <= multiset(t.seats[1].hand)
  {
    hide IdentifyCombo;
  }

  lemma LaunchedMeans(before: Book, g: Wagered, bet: int)
    requires Launched(before, g, bet)
    ensures g.chopped == [] && g.elsewhere == []
  {
  }

  lemma OneChopIs(t: Table, two: Card, four: seq<Card>)
    requires |t.seats| == 2
    ensures var u := t.seats[0].user;
      OneChop(t, two, four) == [Turn(PlayCards(u, [two])), Turn(PlayCards(t.seats[1].user, four)), Turn(Quit(u))]
  {
  }

  lemma ThreeTurns(gs: seq<Wagered>, a: Event, b: Event, c: Event, prices: Prices)
    requires |gs| == 4 && CountsMatch(gs[0].table) && CountsMatch(gs[1].table) && CountsMatch(gs[2].table)
    requires gs[1] == TakeTurn(gs[0], a, prices) && gs[2] == TakeTurn(gs[1], b, prices) && gs[3] == TakeTurn(gs[2], c, prices)
    ensures GameRun(gs, [Turn(a), Turn(b), Turn(c)], prices)
  {
    hide CountsMatch, TakeTurn;
  }

  lemma QuietTurn(g: Wagered, e: Event, prices: Prices)
    requires CountsMatch(g.table) && NewChop(g.table, Step(g.table, e)) == None && Playing(Step(g.table, e))
    ensures TakeTurn(g, e, prices) == g.(table := Step(g.table, e))
  {
    PlayingFacts(Step(g.table, e));
    hide Step, CountsMatch, Playing;
  }

  lemma ChopTurn(g: Wagered, e: Event, prices: Prices)
    requires CountsMatch(g.table) && Playing(Step(g.table, e)) && g.chopped == [] && GoodPrices(prices)
    requires var c := NewChop(g.table, Step(g.table, e));
      c.Some? && c.value.victim in g.book.balances && g.book.balances[c.value.victim] >= prices.chop * Units(c.value)
      && Units(c.value) > 0
    ensures var g', c := TakeTurn(g, e, prices), NewChop(g.table, Step(g.table, e)).value;
      && g'.table == Step(g.table, e) && g'.elsewhere == g.elsewhere
      && prices.chop * Units(c) > 0
      && g'.chopped == [Flow(c.victim, -(prices.chop * Units(c))), Flow(c.chopper, prices.chop * Units(c))]
  {
    hide Step, CountsMatch, Playing, Units, PayChop, SettleWager;
    PlayingFacts(Step(g.table, e));
    ChopPaid(g, NewChop(g.table, Step(g.table, e)).value, prices.chop);
  }

  lemma ChopPaid(g: Wagered, c: Chop, price: int)
    requires g.chopped == [] && price > 0 && Units(c) > 0
    requires c.victim in g.book.balances && g.book.balances[c.victim] >= price * Units(c)
    ensures var p := PayChop(g, c, price);
      && p.table == g.table && p.elsewhere == g.elsewhere && price * Units(c) > 0
      && p.chopped == [Flow(c.victim, -(price * Units(c))), Flow(c.chopper, price * Units(c))]
  {
    hide Units;
    assert price * Units(c) > 0;
  }

  lemma LastTurn(g: Wagered, e: Event, prices: Prices)
    requires CountsMatch(g.table) && NewChop(g.table, Step(g.table, e)) == None
    ensures var g' := TakeTurn(g, e, prices);
      g'.table == Step(g.table, e) && g'.chopped == g.chopped && g'.elsewhere == g.elsewhere
  {
    hide Step, CountsMatch, HasWinner, WagerSettle, StakesLost;
  }
}
