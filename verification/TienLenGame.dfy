/**
 * The Tien Len service: a game whose fields are changed in place by each operation
 * (src/games/tienlen/tienlen.service.ts). `View` is the game as a value; every method is
 * proved to change it exactly as TienLenTable says, and to keep it reachable.
 */
module TienLenGame {
  import opened Wrappers
  import opened Sorting
  import opened Ranking
  import opened TienLenLogic
  import opened TienLenDeck
  import opened TienLenTable
  import opened TienLenInvariant
  import opened TienLenMoves
  import opened TienLenFinish
  import opened TienLenRuns
  import opened TienLenRules

  /**
   * How a game may start: 13 cards each and none dealt twice; either nobody was dealt an
   * instant win and the holder of the lowest card is on turn with a free lead, or the first
   * seat dealt one has won.
   */
  ghost predicate FairStart(t: Table, users: seq<UserId>) {
    && (forall c :: InPlay(t)[c] <= 1)
    && |t.seats| == |users|
    && (forall i :: 0 <= i < |users| ==>
      t.seats[i].user == users[i] && |t.seats[i].hand| == 13 && t.seats[i].connected)
    && (if t.status == Active then OpenStart(t) else InstantStart(t))
  }

  ghost predicate OpenStart(t: Table) {
    && (forall i :: 0 <= i < |t.seats| ==> InstantWinOf(t.seats[i].hand) == None)
    && t.turn == t.lead < |t.seats| && t.combo == [] && t.history == []
    && t.seats[t.turn].hand != []
    && forall i, c :: 0 <= i < |t.seats| && c in t.seats[i].hand ==> t.seats[t.turn].hand[0] <= c
  }

  ghost predicate InstantStart(t: Table) {
    && t.finishOrder != [] && 0 <= t.finishOrder[0] < |t.seats|
    && t.instant.Some? && t.instant == InstantWinOf(t.seats[t.finishOrder[0]].hand)
    && forall i :: 0 <= i < t.finishOrder[0] ==> InstantWinOf(t.seats[i].hand) == None
  }

  lemma OpenDealIsFair(users: seq<UserId>, hands: seq<seq<Card>>, starter: nat)
    requires |users| == |hands| && 2 <= |users| <= 4 && Distinct(users) && GoodDeal(hands)
    requires starter < |users|
    requires forall k, c :: 0 <= k < |hands| && c in hands[k] ==> hands[starter][0] <= c
    requires forall i :: 0 <= i < |hands| ==> InstantWinOf(hands[i]) == None
    ensures Reachable(NewTable(users, hands, starter)) && FairStart(NewTable(users, hands, starter), users)
  {
    hide InstantWinOf;
    NewTablePlaying(users, hands, starter);
    NewTableCards(users, hands, starter);
    hide Playing, Increasing, InPlay, Over;
  }

  lemma InstantDealIsFair(users: seq<UserId>, hands: seq<seq<Card>>, starter: nat, winner: nat)
    requires |users| == |hands| && 2 <= |users| <= 4 && Distinct(users) && GoodDeal(hands)
    requires starter < |users| && winner < |users| && InstantWinOf(hands[winner]).Some?
    requires forall i :: 0 <= i < winner ==> InstantWinOf(hands[i]) == None
    ensures var t := FinishInstantWin(NewTable(users, hands, starter), winner, InstantWinOf(hands[winner]).value);
      Reachable(t) && FairStart(t, users)
  {
    InstantWinIsOver(users, hands, starter, winner, InstantWinOf(hands[winner]).value);
    InstantDealCards(users, hands, starter, winner, InstantWinOf(hands[winner]).value);
    hide InstantWinOf, InPlay, Over, IndexOf, Increasing, Playing;
    var t := FinishInstantWin(NewTable(users, hands, starter), winner, InstantWinOf(hands[winner]).value);
    assert t.finishOrder[0] == winner;
    assert InstantStart(t);
  }

  lemma InstantDealCards(users: seq<UserId>, hands: seq<seq<Card>>, starter: nat, winner: nat, kind: InstantWin)
    requires |users| == |hands| && GoodDeal(hands)
    ensures forall c :: InPlay(FinishInstantWin(NewTable(users, hands, starter), winner, kind))[c] <= 1
  {
    var start := NewTable(users, hands, starter);
    NewTableCards(users, hands, starter);
    var t := FinishInstantWin(start, winner, kind);
    HandCardsSame(t.seats, start.seats);
    hide IndexOf, InstantOrder;
    assert InPlay(t) == InPlay(start);
  }

  /** The hands are those the shuffle with these draws deals, round the table, whatever the deal decides. */
  ghost predicate DealtBy(t: Table, pick: nat -> nat)
    requires Draws(pick)
  {
    2 <= |t.seats| <= 4
    && forall k :: 0 <= k < |t.seats| ==>
         t.seats[k].hand == Sort(DealtTo(Shuffle(Ordered(), pick, DECK_SIZE - 1), k, |t.seats|, 13))
  }

  lemma DealtStays(users: seq<UserId>, hands: seq<seq<Card>>, starter: nat, winner: nat, kind: InstantWin, pick: nat -> nat)
    requires |users| == |hands| && 2 <= |hands| <= 4 && Draws(pick)
    requires forall k :: 0 <= k < |hands| ==> hands[k] == Sort(DealtTo(Shuffle(Ordered(), pick, DECK_SIZE - 1), k, |hands|, 13))
    ensures DealtBy(NewTable(users, hands, starter), pick)
    ensures DealtBy(FinishInstantWin(NewTable(users, hands, starter), winner, kind), pick)
  {
    hide Sort, DealtTo, Shuffle, InstantOrder, IndexOf;
  }

  method StartTable(users: seq<UserId>, pick: nat -> nat) returns (t: Table)
    requires 2 <= |users| <= 4 && Distinct(users) && Draws(pick)
    ensures Reachable(t) && FairStart(t, users) && DealtBy(t, pick)
  {
    var deck := ShuffledDeck(pick);
    var hands := Deal(deck, |users|);
    DealIsGood(deck, hands);
    hide FullDeck, DealtTo, Sort, InstantWinOf, FairStart, Reachable, FinishInstantWin, NewTable, DealtBy, Shuffle;
    var starter := HolderOfLowest(hands);
    assert hands[0] != [];
    var winner, kind := FindInstantWin(hands);
    t := NewTable(users, hands, starter);
    DealtStays(users, hands, starter, winner, if kind.Some? then kind.value else Dragon, pick);
    if kind.Some? {
      InstantDealIsFair(users, hands, starter, winner);
      t := FinishInstantWin(t, winner, kind.value);
    } else {
      OpenDealIsFair(users, hands, starter);
    }
  }

  /** The first seat dealt an instant win, if any. */
  method FindInstantWin(hands: seq<seq<Card>>) returns (winner: nat, kind: Option<InstantWin>)
    requires GoodDeal(hands)
    ensures kind.Some? ==> winner < |hands| && InstantWinOf(hands[winner]) == kind
    ensures forall i :: 0 <= i < (if kind.Some? then winner else |hands|) ==> InstantWinOf(hands[i]) == None
  {
    winner := 0;
    kind := None;
    while winner < |hands|
      invariant winner <= |hands| && kind.None?
      invariant forall i :: 0 <= i < winner ==> InstantWinOf(hands[i]) == None
    {
      kind := DetectInstantWin(hands[winner]);
      if kind.Some? {
        return;
      }
      winner := winner + 1;
    }
  }

  class Game {
    var status: Status
    var seats: seq<Seat>
    var turn: nat
    var leadSeat: nat
    var currentCombo: seq<Card>
    var history: seq<Move>
    var finishOrder: seq<int>
    var resignedSeats: seq<int>
    var chops: seq<Chop>
    var instantWin: Option<InstantWin>

    function View(): Table
      reads this
    {
      Table(status, seats, turn, leadSeat, currentCombo, history, finishOrder, resignedSeats, chops, instantWin)
    }

    ghost predicate Valid()
      reads this
    {
      Reachable(View())
    }

    /** Deals and seats `users`; the holder of the lowest card leads, unless a dealt hand wins at once. */
    constructor (users: seq<UserId>, pick: nat -> nat)
      requires 2 <= |users| <= 4 && Distinct(users) && Draws(pick)
      ensures Valid() && fresh(this)
      ensures FairStart(View(), users) && DealtBy(View(), pick)
    {
      var t := StartTable(users, pick);
      status, seats, turn, leadSeat := t.status, t.seats, t.turn, t.lead;
      currentCombo, history, finishOrder, resignedSeats := t.combo, t.history, t.finishOrder, t.resigned;
      chops, instantWin := t.chops, t.instant;
      new;
      assert View() == t;
    }

    /** Starts a game, or refuses when the number of players is not 2 to 4. */
    static method CreateGame(users: seq<UserId>, pick: nat -> nat) returns (game: Game?)
      requires Distinct(users) && Draws(pick)
      ensures game != null <==> 2 <= |users| <= 4
      ensures game != null ==> fresh(game) && game.Valid() && FairStart(game.View(), users) && DealtBy(game.View(), pick)
    {
      if |users| < 2 || |users| > 4 {
        return null;
      }
      game := new Game(users, pick);
    }

    // ---- trick mechanics ----

    method NextActive(from: nat) returns (c: nat)
      requires from < |seats|
      ensures c == NextActiveSeat(seats, from)
    {
      var n := |seats|;
      for i := 1 to n + 1
        invariant NextActiveSeat(seats, from) == NextActiveFrom(seats, from, i)
      {
        var cand := (from + i) % n;
        if seats[cand].handCount > 0 {
          return cand;
        }
      }
      c := from;
    }

    method EndTrick()
      requires InRange(View())
      modifies this`currentCombo, this`seats, this`turn
      ensures View() == ResetTrick(old(View()))
    {
      currentCombo := [];
      seats := ClearPasses(seats);
      if seats[leadSeat].handCount > 0 {
        turn := leadSeat;
      } else {
        turn := NextActive(leadSeat);
      }
    }

    method Advance(from: nat)
      requires InRange(View()) && from < |seats|
      modifies this`currentCombo, this`seats, this`turn
      ensures View() == AdvanceTurn(old(View()), from)
    {
      var n := |seats|;
      for i := 1 to n + 1
        invariant View() == old(View())
        invariant Responder(seats, leadSeat, from, 1) == Responder(seats, leadSeat, from, i)
      {
        var cand := (from + i) % n;
        if seats[cand].handCount > 0 {
          if cand == leadSeat {
            EndTrick();
            return;
          }
          if !seats[cand].passed {
            turn := cand;
            return;
          }
        }
      }
      EndTrick();
    }

    method DoPlay(s: nat, combo: Combo, newHand: seq<Card>)
      requires InRange(View()) && s < |seats|
      modifies this
      ensures View() == ApplyPlay(old(View()), s, combo, newHand)
    {
      seats := seats[s := seats[s].(hand := newHand, handCount := |newHand|)];
      currentCombo := combo.cards;
      leadSeat := s;
      seats := ClearActivePasses(seats);
      history := history + [Move(s, seats[s].user, combo.cards)];
      if seats[s].handCount == 0 {
        seats := seats[s := seats[s].(finishedRank := |finishOrder| + 1)];
        finishOrder := finishOrder + [s];
      }
      assert View() == PutDown(old(View()), s, combo, newHand);
      Advance(s);
    }

    method DoPass(s: nat)
      requires InRange(View()) && s < |seats|
      modifies this
      ensures View() == ApplyPass(old(View()), s)
    {
      seats := seats[s := seats[s].(passed := true)];
      history := history + [Move(s, seats[s].user, [])];
      Advance(s);
    }

    // ---- the end of the game ----

    method CountActive() returns (active: seq<int>)
      ensures active == ActiveSeats(seats)
    {
      active := [];
      for i := 0 to |seats|
        invariant Increasing(active)
        invariant Elements(active) == set j | 0 <= j < i && seats[j].handCount > 0
      {
        if seats[i].handCount > 0 {
          forall k | 0 <= k < |active| ensures active[k] < i {
            assert active[k] in Elements(active);
          }
          ghost var before := active;
          active := active + [i];
          assert Elements(active) == Elements(before) + {i};
        }
      }
      assert Elements(active) == ActiveSet(seats);
      IncreasingUnique(active, ActiveSeats(seats));
    }

    static method Extend(order: seq<int>, more: seq<int>) returns (r: seq<int>)
      ensures r == AppendNew(order, more)
    {
      r := order;
      for i := 0 to |more|
        invariant AppendNew(order, more) == AppendNew(r, more[i..])
      {
        if more[i] !in r {
          r := r + [more[i]];
        }
      }
    }

    method EndGame()
      modifies this`status, this`finishOrder, this`seats
      ensures View() == TienLenTable.Finish(old(View()))
    {
      var remaining := CountActive();
      var order := Extend([], finishOrder);
      order := Extend(order, remaining);
      order := Extend(order, Reverse(resignedSeats));
      order := Extend(order, SeatNumbers(|seats|));
      finishOrder := order;
      var ranked := seats;
      for i := 0 to |seats|
        invariant |ranked| == |seats|
        invariant forall k :: 0 <= k < |seats| ==>
          ranked[k] == if k < i then seats[k].(finishedRank := IndexOf(order, k) + 1) else seats[k]
      {
        ranked := ranked[i := ranked[i].(finishedRank := IndexOf(order, i) + 1)];
      }
      seats := ranked;
      status := Finished;
    }

    method EndIfOver() returns (over: bool)
      modifies this`status, this`finishOrder, this`seats
      ensures over == MaybeFinish(old(View()))
      ensures View() == FinishIfOver(old(View()))
    {
      var active := CountActive();
      over := |active| <= 1;
      if over {
        EndGame();
      }
    }

    // ---- operations ----

    method Play(user: UserId, cards: seq<Card>) returns (r: Result<(), Error>)
      requires Valid()
      modifies this
      ensures Valid()
      ensures match TienLenTable.Play(old(View()), user, cards)
        case Success(t) => r == Success(()) && View() == t
        case Failure(e) => r == Failure(e) && View() == old(View())
      ensures r.Success? <==> old(Legal(View(), user, cards))
    {
      hide Legal, Reachable, Playing, Over, IdentifyCombo, CanBeat, RemoveCards, CurrentCombo;
      hide RecordChop, ApplyPlay, FinishIfOver;
      ReachableInRange(View());
      PlayAcceptedIffLegal(View(), user, cards);
      if TienLenTable.Play(View(), user, cards).Success? {
        PlayNeedsActive(View(), user, cards);
        var _ := PlayStep(View(), user, cards);
      }
      if status != Active {
        return Failure(NotActive);
      }
      var found := FindSeat(seats, user);
      if found.None? {
        return Failure(NotAPlayer);
      }
      var s := found.value;
      if turn != s {
        return Failure(NotYourTurn);
      }
      if cards == [] {
        return Failure(NoCards);
      }
      var combo := IdentifyCombo(cards);
      if combo.None? {
        return Failure(InvalidCombination);
      }
      var current := CurrentCombo(View());
      if history != [] && current.Some? && !CanBeat(combo.value, current.value) {
        return Failure(DoesNotBeat);
      }
      var newHand := TakeCards(seats[s].hand, cards);
      if newHand.None? {
        return Failure(MissingCards);
      }
      ghost var before := View();
      NoteChop(user, combo.value);
      assert InRange(View());
      DoPlay(s, combo.value, newHand.value);
      var over := EndIfOver();
      r := Success(());
    }

    method NoteChop(user: UserId, combo: Combo)
      requires InRange(View())
      modifies this`chops
      ensures View() == RecordChop(old(View()), user, combo)
    {
      hide CurrentCombo, ChoppedHeoCards;
      var heo := ChoppedHeoCards(combo, CurrentCombo(View()));
      var black, red, units := ChopHeoBreakdown(heo);
      if |heo| > 0 {
        var victim := seats[leadSeat].user;
        if victim != user {
          chops := chops + [Chop(user, victim, |heo|, black, red)];
        }
      }
    }

    method Pass(user: UserId) returns (r: Result<(), Error>)
      requires Valid()
      modifies this
      ensures Valid()
      ensures match TienLenTable.Pass(old(View()), user)
        case Success(t) => r == Success(()) && View() == t
        case Failure(e) => r == Failure(e) && View() == old(View())
    {
      if TienLenTable.Pass(View(), user).Success? {
        PassTurnEffect(View(), user);
      }
      if status != Active {
        return Failure(NotActive);
      }
      var found := FindSeat(seats, user);
      if found.None? {
        return Failure(NotAPlayer);
      }
      if turn != found.value {
        return Failure(NotYourTurn);
      }
      if currentCombo == [] {
        return Failure(MustLead);
      }
      DoPass(found.value);
      r := Success(());
    }

    method LeaveTable(s: nat)
      requires InRange(View()) && s < |seats|
      modifies this
      ensures View() == AfterLeaving(ForceFinishLast(old(View()), s), s)
    {
      seats := seats[s := seats[s].(handCount := 0, hand := [], finishedRank := 0)];
      if s !in resignedSeats {
        resignedSeats := resignedSeats + [s];
      }
      ghost var left := View();
      assert left == ForceFinishLast(old(View()), s);
      var over := EndIfOver();
      if !over {
        if leadSeat == s {
          leadSeat := NextActive(s);
          EndTrick();
        } else if turn == s {
          turn := NextActive(s);
        }
      }
    }

    method Resign(user: UserId) returns (r: Result<(), Error>)
      requires Valid()
      modifies this
      ensures Valid()
      ensures match TienLenTable.Resign(old(View()), user)
        case Success(t) => r == Success(()) && View() == t
        case Failure(e) => r == Failure(e) && View() == old(View())
    {
      QuitEffect(View(), user);
      if status != Active {
        return Failure(NotActive);
      }
      var found := FindSeat(seats, user);
      if found.None? {
        return Failure(NotAPlayer);
      }
      if seats[found.value].handCount == 0 {
        return Failure(AlreadyFinished);
      }
      LeaveTable(found.value);
      r := Success(());
    }

    method ForfeitDisconnected(user: UserId)
      requires Valid()
      modifies this
      ensures Valid() && View() == Forfeit(old(View()), user)
    {
      var _ := Resign(user);
    }

    method Skip(s: nat)
      requires InRange(View()) && s < |seats|
      modifies this
      ensures View() == AutoSkip(old(View()), s)
    {
      if status == Active && turn == s {
        if currentCombo == [] {
          leadSeat := NextActive(s);
          turn := leadSeat;
        } else {
          DoPass(s);
        }
      }
    }

    method OnDisconnect(user: UserId)
      requires Valid()
      modifies this
      ensures Valid() && View() == Disconnect(old(View()), user)
    {
      StepEffect(View(), Drop(user));
      var found := FindSeat(seats, user);
      if status == Active && found.Some? && seats[found.value].handCount > 0 {
        var s := found.value;
        seats := seats[s := seats[s].(connected := false)];
        if turn == s {
          Skip(s);
        }
      }
    }

    method OnReconnect(user: UserId)
      requires Valid()
      modifies this
      ensures Valid() && View() == Reconnect(old(View()), user)
    {
      StepEffect(View(), Return(user));
      var found := FindSeat(seats, user);
      if found.Some? && !seats[found.value].connected {
        seats := seats[found.value := seats[found.value].(connected := true)];
      }
      assert seats == Reconnect(old(View()), user).seats;
    }

    method OnTimeout()
      requires Valid()
      modifies this
      ensures old(CountsMatch(View()))
      ensures Valid() && View() == TienLenTable.OnTimeout(old(View()))
    {
      StepEffect(View(), ClockOut);
      if status != Active || seats[turn].handCount == 0 {
        return;
      }
      var seat := seats[turn];
      if !seat.connected {
        Skip(turn);
      } else if currentCombo == [] {
        var _ := Play(seat.user, [seat.hand[0]]);
      } else {
        var _ := Pass(seat.user);
      }
    }
  }
}
