/**
 * Whole runs of a Tien Len game: what every sequence of operations keeps, that progress is
 * bounded, that the turn clock alone ends the game, and that no card is created or lost.
 */
module TienLenRuns {
  import opened Wrappers
  import opened Sorting
  import opened Ranking
  import opened TienLenLogic
  import opened TienLenTable
  import opened TienLenInvariant
  import opened TienLenMoves
  import opened TienLenFinish

  datatype Event =
    | PlayCards(user: UserId, cards: seq<Card>)
    | PassTurn(user: UserId)
    | Quit(user: UserId)
    | GraceOver(user: UserId)
    | ClockOut
    | Drop(user: UserId)
    | Return(user: UserId)

  function Step(t: Table, e: Event): Table
    requires CountsMatch(t)
  {
    match e
    case PlayCards(user, cards) => OrElse(Play(t, user, cards), t)
    case PassTurn(user) => OrElse(Pass(t, user), t)
    case Quit(user) => OrElse(Resign(t, user), t)
    case GraceOver(user) => Forfeit(t, user)
    case ClockOut => OnTimeout(t)
    case Drop(user) => Disconnect(t, user)
    case Return(user) => Reconnect(t, user)
  }

  lemma ReachableCounts(t: Table)
    requires Reachable(t)
    ensures CountsMatch(t)
  {
    assert GoodHand(t.seats[t.turn]);
  }

  /** The seat that leaves the game in this step, if any. */
  ghost function Leaver(t: Table, e: Event): Option<nat>
    requires InRange(t)
    ensures Leaver(t, e).Some? ==> Leaver(t, e).value < |t.seats|
  {
    if (e.Quit? || e.GraceOver?) && Resign(t, e.user).Success? then FindSeat(t.seats, e.user) else None
  }

  /** A disconnected player on turn is about to be skipped by this step. */
  ghost predicate Skips(t: Table, e: Event)
    requires InRange(t)
  {
    && t.status == Active
    && match e
       case ClockOut => t.seats[t.turn].handCount > 0 && !t.seats[t.turn].connected
       case Drop(user) => FindSeat(t.seats, user) == Some(t.turn) && t.seats[t.turn].handCount > 0
       case _ => false
  }

  /** A step that must bring the end closer: an accepted play, pass, resignation or forfeit, or a skip on a live trick. */
  ghost predicate Progress(t: Table, e: Event)
    requires CountsMatch(t)
  {
    match e
    case PlayCards(user, cards) => Play(t, user, cards).Success?
    case PassTurn(user) => Pass(t, user).Success?
    case Quit(user) => Resign(t, user).Success?
    case GraceOver(user) => Resign(t, user).Success?
    case ClockOut => t.status == Active && t.seats[t.turn].handCount > 0 && (Skips(t, e) ==> t.combo != [])
    case Drop(_) => Skips(t, e) && t.combo != []
    case Return(_) => false
  }

  // ---- cards in play ----

  ghost function PlayedCards(history: seq<Move>): multiset<Card> {
    if history == [] then multiset{}
    else PlayedCards(history[..|history| - 1]) + multiset(history[|history| - 1].cards)
  }

  lemma PlayedCardsAppend(history: seq<Move>, m: Move)
    ensures PlayedCards(history + [m]) == PlayedCards(history) + multiset(m.cards)
  {
    assert (history + [m])[..|history|] == history;
  }

  /** Every card in a hand or on the pile of plays. */
  ghost function InPlay(t: Table): multiset<Card> {
    HandCards(t.seats) + PlayedCards(t.history)
  }

  /** The cards that leave the game in this step with a resigned player. */
  ghost function Dropped(t: Table, e: Event): multiset<Card>
    requires InRange(t)
  {
    match Leaver(t, e)
    case Some(s) => multiset(t.seats[s].hand)
    case None => multiset{}
  }

  // ---- what one step does ----

  /** The four ways in which a step can change the table. */
  ghost predicate Effect(t: Table, t': Table, dropped: multiset<Card>, progress: bool) {
    && Reachable(t')
    && InPlay(t') + dropped == InPlay(t)
    && (if progress then Closer(t', t) else CardsHeld(t') == CardsHeld(t) && TrickMeasure(t') == TrickMeasure(t))
  }

  lemma PlayEffect(t: Table, user: UserId, cards: seq<Card>)
    requires Playing(t) && Play(t, user, cards).Success?
    ensures Effect(t, Play(t, user, cards).value, multiset{}, true)
  {
    hide Play, IdentifyCombo, RecordChop;
    var t' := Play(t, user, cards).value;
    var combo := PlayStep(t, user, cards);
    PlayedCardsAppend(t.history, Move(t.turn, user, combo.cards));
    assert Recognised(combo);
    hide Recognised, Reachable;
    assert |HandCards(t'.seats) + multiset(combo.cards)| == |HandCards(t.seats)|;
    MultisetShift(HandCards(t'.seats), multiset(combo.cards), PlayedCards(t.history));
  }

  lemma MultisetShift(a: multiset<Card>, b: multiset<Card>, c: multiset<Card>)
    ensures a + (c + b) == (a + b) + c
  {
  }

  lemma PassEffect(t: Table, s: nat)
    requires Playing(t) && t.turn == s && t.combo != []
    ensures Effect(t, ApplyPass(t, s), multiset{}, true)
  {
    PassKeeps(t, s);
    PassCloser(t, s);
    PassHistory(t, s);
    hide ApplyPass, Playing;
  }

  lemma PassHistory(t: Table, s: nat)
    requires InRange(t) && s < |t.seats|
    ensures PlayedCards(ApplyPass(t, s).history) == PlayedCards(t.history)
  {
    PlayedCardsAppend(t.history, Move(s, t.seats[s].user, []));
    AdvanceFrame(MarkPassed(t, s), s);
  }

  lemma LeaveEffect(t: Table, s: nat)
    requires Playing(t) && s < |t.seats| && Holds(t.seats, s)
    ensures Effect(t, AfterLeaving(ForceFinishLast(t, s), s), multiset(t.seats[s].hand), true)
  {
    LeaveStep(t, s);
    assert GoodHand(t.seats[s]);
    var t' := AfterLeaving(ForceFinishLast(t, s), s);
    hide AfterLeaving, ForceFinishLast, Reachable, Playing;
    assert |HandCards(t'.seats) + multiset(t.seats[s].hand)| == |HandCards(t.seats)|;
    assert |t.seats[s].hand| > 0;
    assert InPlay(t') + multiset(t.seats[s].hand) == InPlay(t);
  }

  lemma SkipEffect(t: Table)
    requires Playing(t)
    ensures Effect(t, AutoSkip(t, t.turn), multiset{}, t.combo != [])
  {
    if t.combo == [] {
      FreeSkipKeeps(t);
    } else {
      PassEffect(t, t.turn);
    }
  }

  lemma ConnectionEffect(t: Table, s: nat, online: bool)
    requires Reachable(t) && s < |t.seats|
    ensures var t' := t.(seats := t.seats[s := t.seats[s].(connected := online)]);
      Effect(t, t', multiset{}, false) && (Playing(t) ==> Playing(t'))
  {
    if Playing(t) {
      ConnectionKeeps(t, s, online);
    } else {
      ConnectionAfterEnd(t, s, online);
    }
  }

  lemma ConnectionAfterEnd(t: Table, s: nat, online: bool)
    requires Over(t) && s < |t.seats|
    ensures var t' := t.(seats := t.seats[s := t.seats[s].(connected := online)]);
      Over(t') && HandCards(t'.seats) == HandCards(t.seats) && EligibleSet(t') == EligibleSet(t)
  {
    hide Over, Shape, Retired, HandCards, ActiveSet, EligibleSet, Distinct, IndexOf;
    OverFacts(t);
    var t' := t.(seats := t.seats[s := t.seats[s].(connected := online)]);
    MarksDoNotMatter(t, t');
    ConnectionEligible(t, s, online);
    OverAgain(t, t');
  }

  lemma OverFacts(t: Table)
    requires Over(t)
    ensures Shape(t) && InRange(t)
  {
  }

  /** Nothing about a finished table depends on its marks. */
  lemma OverAgain(t: Table, t': Table)
    requires Over(t) && Shape(t') && t' == t.(seats := t'.seats) && |t'.seats| == |t.seats|
    requires ActiveSet(t'.seats) == ActiveSet(t.seats)
    requires forall i :: 0 <= i < |t.seats| ==> t'.seats[i].finishedRank == t.seats[i].finishedRank
    ensures Over(t')
  {
    hide Shape, ActiveSet, Distinct, IndexOf;
  }

  lemma ConnectionEligible(t: Table, s: nat, online: bool)
    requires s < |t.seats|
    ensures EligibleSet(t.(seats := t.seats[s := t.seats[s].(connected := online)])) == EligibleSet(t)
  {
    var t' := t.(seats := t.seats[s := t.seats[s].(connected := online)]);
    assert forall i :: 0 <= i < |t.seats| ==> (Eligible(t', i) <==> Eligible(t, i));
  }

  lemma NoEffect(t: Table)
    requires Reachable(t)
    ensures Effect(t, t, multiset{}, false)
  {
  }

  lemma NoEffectPlaying(t: Table)
    requires Playing(t)
    ensures Effect(t, t, multiset{}, false)
  {
    NoEffect(t);
  }

  lemma TimeoutMove(t: Table)
    requires Playing(t)
    ensures var seat := t.seats[t.turn];
      t.combo == [] ==> |seat.hand| > 0 && Play(t, seat.user, [seat.hand[0]]).Success?
    ensures t.combo != [] ==> Pass(t, t.seats[t.turn].user) == Success(ApplyPass(t, t.turn))
  {
    SeatOfUser(t, t.turn);
    assert GoodHand(t.seats[t.turn]);
    if t.combo == [] {
      SingleIsRecognised(t.seats[t.turn].hand[0]);
      hide FinishIfOver, ApplyPlay, RecordChop, Finish, Reachable;
    }
  }

  /** The move the turn clock makes for a connected player is never refused. */
  lemma TimeoutIsAccepted(t: Table)
    requires Playing(t) && t.seats[t.turn].connected
    ensures var seat := t.seats[t.turn];
      |seat.hand| > 0 && OnTimeout(t) ==
        (if t.combo == [] then Play(t, seat.user, [seat.hand[0]]) else Pass(t, seat.user)).value
    ensures (if t.combo == [] then Play(t, t.seats[t.turn].user, [t.seats[t.turn].hand[0]])
             else Pass(t, t.seats[t.turn].user)).Success?
  {
    TimeoutMove(t);
    assert GoodHand(t.seats[t.turn]);
    hide Play, Pass;
  }

  // ---- every step ----

  lemma QuitEffect(t: Table, user: UserId)
    requires Reachable(t)
    ensures Resign(t, user).Success? ==>
      && FindSeat(t.seats, user).Some?
      && Effect(t, Resign(t, user).value, multiset(t.seats[FindSeat(t.seats, user).value].hand), true)
  {
    if Resign(t, user).Success? {
      var s := FindSeat(t.seats, user).value;
      assert Playing(t) && Holds(t.seats, s);
      LeaveEffect(t, s);
      hide AfterLeaving, ForceFinishLast;
    }
  }

  lemma PassTurnEffect(t: Table, user: UserId)
    requires Reachable(t) && Pass(t, user).Success?
    ensures Effect(t, Pass(t, user).value, multiset{}, true)
  {
    assert Playing(t) && t.combo != [];
    PassEffect(t, t.turn);
    hide ApplyPass;
  }

  lemma ClockEffect(t: Table)
    requires Playing(t)
    ensures CountsMatch(t)
    ensures Effect(t, OnTimeout(t), multiset{}, Progress(t, ClockOut))
  {
    hide Play, Pass, AutoSkip, Effect, Playing, Reachable, Shape, Retired, TrickOk, ActiveSet, Holds;
    PlayingFacts(t);
    PlayingIsReachable(t);
    ReachableCounts(t);
    TurnHolds(t);
    if !t.seats[t.turn].connected {
      SkipEffect(t);
    } else {
      TimeoutIsAccepted(t);
      var seat := t.seats[t.turn];
      if t.combo == [] {
        PlayEffect(t, seat.user, [seat.hand[0]]);
      } else {
        PassTurnEffect(t, seat.user);
      }
    }
  }

  lemma TurnHolds(t: Table)
    requires Playing(t)
    ensures InRange(t) && t.seats[t.turn].handCount > 0
  {
  }

  lemma EffectAfterMark(t: Table, marked: Table, t': Table, progress: bool)
    requires Effect(t, marked, multiset{}, false) && Effect(marked, t', multiset{}, progress)
    ensures Effect(t, t', multiset{}, progress)
  {
    hide Reachable, InPlay, CardsHeld, TrickMeasure;
    assert InPlay(marked) + multiset{} == InPlay(marked) && InPlay(t') + multiset{} == InPlay(t');
  }

  function Offline(t: Table, s: nat): Table
    requires s < |t.seats|
  {
    t.(seats := t.seats[s := t.seats[s].(connected := false)])
  }

  lemma DropOnTurn(t: Table)
    requires Playing(t)
    ensures Effect(t, AutoSkip(Offline(t, t.turn), t.turn), multiset{}, t.combo != [])
  {
    var gone := Offline(t, t.turn);
    ConnectionEffect(t, t.turn, false);
    SkipEffect(gone);
    hide AutoSkip, Playing;
    EffectAfterMark(t, gone, AutoSkip(gone, t.turn), t.combo != []);
  }

  lemma DropOffTurn(t: Table, s: nat)
    requires Playing(t) && s < |t.seats|
    ensures Effect(t, Offline(t, s), multiset{}, false)
  {
    ConnectionEffect(t, s, false);
  }

  lemma DropEffect(t: Table, user: UserId)
    requires Playing(t)
    ensures Effect(t, Disconnect(t, user), multiset{}, Skips(t, Drop(user)) && t.combo != [])
  {
    hide AutoSkip, Effect, Playing, FindSeat, Shape, Retired, TrickOk, ActiveSet;
    PlayingFacts(t);
    NoEffectPlaying(t);
    if s: nat :| FindSeat(t.seats, user) == Some(s) {
      DropOffTurn(t, s);
      DropOnTurn(t);
      assert Offline(t, s).turn == t.turn;
    }
  }

  /**
   * Every operation, accepted or refused, takes a reachable table to a reachable table, drops
   * no card except a leaver's hand, and brings the end strictly closer whenever it is a
   * progress step; a skipped free lead, a connection mark or a refusal leaves the measure as it is.
   */
  lemma StepEffect(t: Table, e: Event)
    requires Reachable(t)
    ensures CountsMatch(t)
    ensures Effect(t, Step(t, e), Dropped(t, e), Progress(t, e))
  {
    hide Play, Pass, Resign, OnTimeout, Disconnect, Reachable, Playing, Over, CountsMatch, Effect, FindSeat;
    ReachableCounts(t);
    NoEffect(t);
    PlayingOrOver(t);
    match e
    case PlayCards(user, cards) =>
      if Play(t, user, cards).Success? {
        PlayNeedsActive(t, user, cards);
        PlayEffect(t, user, cards);
      }
    case PassTurn(user) =>
      if Pass(t, user).Success? {
        PassTurnEffect(t, user);
      }
    case Quit(user) =>
      QuitEffect(t, user);
    case GraceOver(user) =>
      QuitEffect(t, user);
    case ClockOut =>
      if Playing(t) {
        ClockEffect(t);
      } else {
        NothingAfterEnd(t, e);
      }
    case Drop(user) =>
      if Playing(t) {
        DropEffect(t, user);
      } else {
        NothingAfterEnd(t, e);
      }
    case Return(user) =>
      if s: nat :| FindSeat(t.seats, user) == Some(s) {
        ConnectionEffect(t, s, true);
      }
  }

  lemma PlayNeedsActive(t: Table, user: UserId, cards: seq<Card>)
    requires Reachable(t) && Play(t, user, cards).Success?
    ensures Playing(t)
  {
  }

  lemma PlayingOrOver(t: Table)
    requires Reachable(t)
    ensures Playing(t) || Over(t)
    ensures InRange(t)
  {
  }

  lemma NothingAfterEnd(t: Table, e: Event)
    requires Over(t) && CountsMatch(t) && (e.ClockOut? || e.Drop?)
    ensures Step(t, e) == t && !Progress(t, e)
  {
  }

  // ---- seats keep their players ----

  ghost predicate SamePlayers(a: seq<Seat>, b: seq<Seat>) {
    |a| == |b| && forall i :: 0 <= i < |a| ==> a[i].user == b[i].user && a[i].connected == b[i].connected
  }

  lemma AdvanceKeepsPlayers(t: Table, from: nat)
    requires InRange(t) && from < |t.seats|
    ensures SamePlayers(t.seats, AdvanceTurn(t, from).seats)
  {
  }

  lemma PlayKeepsPlayers(t: Table, user: UserId, cards: seq<Card>)
    requires InRange(t) && Play(t, user, cards).Success?
    ensures SamePlayers(t.seats, Play(t, user, cards).value.seats)
  {
    hide IdentifyCombo, RemoveCards, Play, RecordChop, ApplyPlay, FinishIfOver;
    var combo, newHand := AcceptedPlay(t, user, cards);
    ChopsDoNotMatter(t, user, combo);
    var c := RecordChop(t, user, combo);
    ApplyPlayKeepsPlayers(c, t.turn, combo, newHand);
    FinishKeepsPlayers(ApplyPlay(c, t.turn, combo, newHand));
  }

  lemma FinishKeepsPlayers(t: Table)
    ensures SamePlayers(t.seats, FinishIfOver(t).seats)
  {
    hide FinalOrder;
  }

  lemma ApplyPlayKeepsPlayers(t: Table, s: nat, combo: Combo, newHand: seq<Card>)
    requires InRange(t) && s < |t.seats|
    ensures SamePlayers(t.seats, ApplyPlay(t, s, combo, newHand).seats)
  {
    var p := PutDown(t, s, combo, newHand);
    assert SamePlayers(t.seats, p.seats);
    AdvanceKeepsPlayers(p, s);
    hide AdvanceTurn, PutDown;
  }

  lemma PassKeepsPlayers(t: Table, s: nat)
    requires InRange(t) && s < |t.seats|
    ensures SamePlayers(t.seats, ApplyPass(t, s).seats)
  {
    AdvanceKeepsPlayers(MarkPassed(t, s), s);
    hide AdvanceTurn;
  }

  lemma LeaveKeepsPlayers(t: Table, s: nat)
    requires InRange(t) && s < |t.seats|
    ensures SamePlayers(t.seats, AfterLeaving(ForceFinishLast(t, s), s).seats)
  {
    var f := ForceFinishLast(t, s);
    FinishKeepsPlayers(f);
    hide FinalOrder, NextActiveSeat, IndexOf;
  }

  lemma TimeoutKeepsPlayers(t: Table)
    requires CountsMatch(t)
    ensures SamePlayers(t.seats, OnTimeout(t).seats)
  {
    var seat := t.seats[t.turn];
    PassKeepsPlayers(t, t.turn);
    hide ApplyPass, Play;
    if seat.handCount > 0 && Play(t, seat.user, [seat.hand[0]]).Success? {
      PlayKeepsPlayers(t, seat.user, [seat.hand[0]]);
    }
  }

  /** Nobody changes seats. */
  lemma SeatsFixed(t: Table, e: Event)
    requires CountsMatch(t)
    ensures |Step(t, e).seats| == |t.seats|
    ensures forall i :: 0 <= i < |t.seats| ==> Step(t, e).seats[i].user == t.seats[i].user
  {
    hide Play, ApplyPass, AfterLeaving, ForceFinishLast, OnTimeout;
    match e
    case PlayCards(user, cards) =>
      if Play(t, user, cards).Success? {
        PlayKeepsPlayers(t, user, cards);
      }
    case PassTurn(user) =>
      PassKeepsPlayers(t, t.turn);
    case ClockOut =>
      TimeoutKeepsPlayers(t);
    case Drop(user) =>
      if s: nat :| FindSeat(t.seats, user) == Some(s) {
        PassKeepsPlayers(Offline(t, s), s);
      }
    case Return(user) =>
    case _ =>
      if s: nat :| FindSeat(t.seats, e.user) == Some(s) {
        LeaveKeepsPlayers(t, s);
      }
  }

  // ---- runs ----

  function Run(t: Table, events: seq<Event>): Table
    requires Reachable(t)
    decreases |events|
  {
    if events == [] then t
    else
      StepEffect(t, events[0]);
      Run(Step(t, events[0]), events[1..])
  }

  ghost function ProgressSteps(t: Table, events: seq<Event>): nat
    requires Reachable(t)
    decreases |events|
  {
    if events == [] then 0
    else
      StepEffect(t, events[0]);
      (if Progress(t, events[0]) then 1 else 0) + ProgressSteps(Step(t, events[0]), events[1..])
  }

  ghost function DroppedAlong(t: Table, events: seq<Event>): multiset<Card>
    requires Reachable(t)
    decreases |events|
  {
    if events == [] then multiset{}
    else
      StepEffect(t, events[0]);
      Dropped(t, events[0]) + DroppedAlong(Step(t, events[0]), events[1..])
  }

  /** How many progress steps a game can still take, at most. */
  ghost function Potential(t: Table): nat { Weighted(CardsHeld(t), |t.seats|, TrickMeasure(t)) }

  function Weighted(cards: nat, seats: nat, trick: nat): nat { cards * (seats + 1) + trick }

  lemma TrickMeasureBound(t: Table)
    requires InRange(t)
    ensures TrickMeasure(t) <= |t.seats|
  {
    assert EligibleSet(t) <= Below(|t.seats|);
    SubsetSize(EligibleSet(t), Below(|t.seats|) - {t.lead});
  }

  ghost function Below(n: nat): (s: set<nat>)
    ensures |s| == n && forall i: nat :: i in s <==> i < n
  {
    if n == 0 then {} else Below(n - 1) + {n - 1}
  }

  lemma FewerCards(cards: nat, cards': nat, m: nat, trick': nat)
    requires cards' < cards && trick' < m
    ensures cards' * m + trick' < cards * m
  {
    assert (cards' + 1) * m <= cards * m;
  }

  lemma CloserLowersPotential(t: Table, t': Table)
    requires InRange(t') && |t'.seats| == |t.seats| && Closer(t', t)
    ensures Potential(t') < Potential(t)
  {
    TrickMeasureBound(t');
    hide CardsHeld, TrickMeasure;
    if CardsHeld(t') < CardsHeld(t) {
      FewerCards(CardsHeld(t), CardsHeld(t'), |t.seats| + 1, TrickMeasure(t'));
    }
  }

  /** No run, however long, holds more progress steps than the potential it started with. */
  lemma {:induction false} ProgressIsBounded(t: Table, events: seq<Event>)
    requires Reachable(t)
    ensures Reachable(Run(t, events))
    ensures ProgressSteps(t, events) + Potential(Run(t, events)) <= Potential(t)
    decreases |events|
  {
    if events != [] {
      var e := events[0];
      StepEffect(t, e);
      SeatsFixed(t, e);
      var t' := Step(t, e);
      ProgressIsBounded(t', events[1..]);
      if Progress(t, e) {
        CloserLowersPotential(t, t');
      }
    }
  }

  /** Cards are conserved over every run: in a hand, on the pile, or gone with a leaver. */
  lemma {:induction false} RunConservesCards(t: Table, events: seq<Event>)
    requires Reachable(t)
    ensures InPlay(Run(t, events)) + DroppedAlong(t, events) == InPlay(t)
    decreases |events|
  {
    if events != [] {
      var e := events[0];
      StepEffect(t, e);
      var t' := Step(t, e);
      RunConservesCards(t', events[1..]);
      var left := InPlay(Run(t, events));
      MultisetShift(left, Dropped(t, e), DroppedAlong(t', events[1..]));
    }
  }

  /**
   * If no card was dealt twice then at every point of every run no two hands, plays or leavers'
   * hands share a card.
   */
  lemma CardsStayDisjoint(t: Table, events: seq<Event>)
    requires Reachable(t) && forall c :: InPlay(t)[c] <= 1
    ensures Reachable(Run(t, events))
    ensures var end := Run(t, events);
      forall c :: HandCards(end.seats)[c] + PlayedCards(end.history)[c] + DroppedAlong(t, events)[c] == InPlay(t)[c] <= 1
  {
    ProgressIsBounded(t, events);
    RunConservesCards(t, events);
    var end := Run(t, events);
    forall c ensures
      HandCards(end.seats)[c] + PlayedCards(end.history)[c] + DroppedAlong(t, events)[c] == InPlay(t)[c]
    {
      assert (InPlay(end) + DroppedAlong(t, events))[c] == InPlay(t)[c];
    }
  }

  // ---- the turn clock alone ends the game ----

  function Timeouts(t: Table, k: nat): Table
    requires Reachable(t)
    decreases k
  {
    if k == 0 then t
    else
      StepEffect(t, ClockOut);
      Timeouts(OnTimeout(t), k - 1)
  }

  ghost predicate AllConnected(t: Table) {
    forall i :: 0 <= i < |t.seats| ==> t.seats[i].connected
  }

  /** From any running game with everyone connected, `Potential` clock-outs are enough to finish it. */
  lemma {:induction false} TimeoutsFinishGame(t: Table, k: nat)
    requires Reachable(t) && AllConnected(t) && k >= Potential(t)
    ensures Over(Timeouts(t, k))
    decreases k
  {
    hide *;
    if Playing(t) {
      TimeoutLowersPotential(t);
      TimeoutsUnfold(t, k);
      TimeoutsFinishGame(OnTimeout(t), k - 1);
    } else {
      NotPlayingIsOver(t);
      ClockAfterEnd(t, k);
    }
  }

  lemma NotPlayingIsOver(t: Table)
    requires Reachable(t) && !Playing(t)
    ensures Over(t)
  {
  }

  lemma TimeoutsUnfold(t: Table, k: nat)
    requires Reachable(t) && k > 0
    ensures CountsMatch(t) && Reachable(OnTimeout(t))
    ensures Timeouts(t, k) == Timeouts(OnTimeout(t), k - 1)
  {
    StepEffect(t, ClockOut);
    hide OnTimeout, Reachable;
  }

  lemma {:induction false} ClockAfterEnd(t: Table, k: nat)
    requires Over(t)
    ensures Timeouts(t, k) == t
    decreases k
  {
    if k > 0 {
      StepEffect(t, ClockOut);
      NothingAfterEnd(t, ClockOut);
      ClockAfterEnd(t, k - 1);
    }
  }

  lemma PlayingIsReachable(t: Table)
    requires Playing(t)
    ensures Reachable(t)
  {
  }

  lemma ClockProgresses(t: Table)
    requires Playing(t) && AllConnected(t)
    ensures CountsMatch(t) && Progress(t, ClockOut)
  {
    ReachableCounts(t);
  }

  lemma TimeoutLowersPotential(t: Table)
    requires Playing(t) && AllConnected(t)
    ensures CountsMatch(t)
    ensures Reachable(OnTimeout(t)) && AllConnected(OnTimeout(t)) && Potential(OnTimeout(t)) < Potential(t)
  {
    hide OnTimeout, Potential, Reachable, Playing, CountsMatch, Closer, InPlay, Shape;
    PlayingIsReachable(t);
    StepEffect(t, ClockOut);
    SeatsFixed(t, ClockOut);
    TimeoutKeepsPlayers(t);
    ClockProgresses(t);
    PlayingOrOver(OnTimeout(t));
    CloserLowersPotential(t, OnTimeout(t));
  }
}
