/**
 * What each turn of Tien Len does to the table, told without the mechanisms that do it: who
 * may respond next and who is on turn, what the history says, whose cards went, and who has
 * finished. Plays, passes, skips of absent players, the clock and departures.
 */
module TienLenTurns {
  import opened Wrappers
  import opened Sorting
  import opened Ranking
  import opened TienLenLogic
  import opened TienLenTable
  import opened TienLenInvariant
  import opened TienLenMoves
  import opened TienLenFinish
  import opened TienLenRuns
  import opened TienLenRules

  // ---- passing, by choice, by the clock or by absence ----

  ghost predicate AnotherMayRespond(t: Table)
    requires InRange(t)
  {
    exists i :: 0 <= i < |t.seats| && i != t.turn && Eligible(t, i)
  }

  /** Seats that differ in nothing but who has passed. */
  ghost predicate SameButPasses(a: seq<Seat>, b: seq<Seat>) {
    |a| == |b| && forall i :: 0 <= i < |a| ==> a[i].(passed := b[i].passed) == b[i]
  }

  /**
   * The seat on turn has passed: the history says so, everybody else who could respond still
   * can and the nearest of them is on turn; or, if that leaves nobody, the trick is over and
   * its owner leads the next, or the nearest seat with cards if the owner has none.
   */
  ghost predicate PassedOn(t: Table, t': Table)
    requires InRange(t)
  {
    && t' == t.(history := t'.history, seats := t'.seats, turn := t'.turn, combo := t'.combo)
    && t'.history == t.history + [Move(t.turn, t.seats[t.turn].user, [])]
    && SameButPasses(t.seats, t'.seats)
    && t'.turn < |t'.seats|
    && if AnotherMayRespond(t) then
         && t'.combo == t.combo
         && (forall i :: 0 <= i < |t.seats| ==> (Eligible(t', i) <==> Eligible(t, i) && i != t.turn))
         && NearestResponder(t', t.turn, t'.turn)
       else
         && t'.combo == []
         && (forall i :: 0 <= i < |t.seats| ==> !t'.seats[i].passed)
         && if Holds(t.seats, t.lead) then t'.turn == t.lead else NearestHolder(t.seats, t.lead, t'.turn)
  }

  lemma PassGoesOn(t: Table)
    requires Playing(t) && t.combo != []
    ensures InRange(t) && PassedOn(t, ApplyPass(t, t.turn))
  {
    hide Playing, ApplyPass, Shape, Retired, TrickOk, ActiveSet, ComboOnTable, Arc;
    PlayingFacts(t);
    PassHandsOn(t);
    var p, t' := MarkPassed(t, t.turn), ApplyPass(t, t.turn);
    assert forall i :: 0 <= i < |t.seats| ==> (Eligible(p, i) <==> Eligible(t, i) && i != t.turn);
    assert NobodyEligible(p) <==> !AnotherMayRespond(t);
    if !NobodyEligible(p) {
      TurnIsNotAsked(p, t'.turn, t.turn);
    }
  }

  /** Who may respond, and who of them is nearest, does not depend on who is on turn. */
  lemma TurnIsNotAsked(t: Table, turn: nat, from: nat)
    requires from < |t.seats|
    ensures var t' := t.(turn := turn);
      && (forall i :: 0 <= i < |t.seats| ==> (Eligible(t', i) <==> Eligible(t, i)))
      && (forall c :: NearestResponder(t', from, c) <==> NearestResponder(t, from, c))
  {
    var t' := t.(turn := turn);
    assert forall i :: 0 <= i < |t.seats| ==> (Eligible(t', i) <==> Eligible(t, i));
  }

  /** A pass is accepted exactly from the player on turn with something to beat. */
  lemma PassLaw(t: Table, user: UserId)
    requires Reachable(t)
    ensures InRange(t)
    ensures Pass(t, user).Success? <==> Playing(t) && user == t.seats[t.turn].user && t.combo != []
    ensures Pass(t, user).Success? ==> PassedOn(t, Pass(t, user).value)
  {
    ReachableInRange(t);
    hide Playing, Reachable, ApplyPass, FindSeat, PassedOn;
    if Playing(t) {
      TurnIsUsers(t, user);
      if t.combo != [] {
        PassGoesOn(t);
      }
    }
  }

  /** An absent player's turn in a live trick passes on exactly as if they had passed. */
  lemma SkipLaw(t: Table)
    requires Playing(t) && t.combo != []
    ensures InRange(t) && PassedOn(t, AutoSkip(t, t.turn))
  {
    PassGoesOn(t);
    hide PassedOn, ApplyPass;
  }

  /**
   * The clock: in a live trick the seat on turn passes, present or not; on a free lead a
   * present player puts down their lowest card alone and an absent one is passed over.
   */
  lemma ClockLaw(t: Table)
    requires Playing(t)
    ensures CountsMatch(t) && t.seats[t.turn].hand != []
    ensures var seat, t' := t.seats[t.turn], OnTimeout(t);
      if t.combo != [] then PassedOn(t, t')
      else if seat.connected then
        && Play(t, seat.user, [seat.hand[0]]) == Success(t')
        && forall c :: c in seat.hand ==> seat.hand[0] <= c
      else t' == t.(lead := t'.turn, turn := t'.turn) && t'.turn != t.turn && NearestHolder(t.seats, t.turn, t'.turn)
  {
    PlayingIsReachable(t);
    ReachableCounts(t);
    hide Play, PassedOn, ApplyPass;
    LowestFirst(t);
    TimeoutMove(t);
    if t.combo != [] {
      PassGoesOn(t);
    } else {
      FreeSkipKeeps(t);
      SkippedLead(t);
    }
  }

  lemma LowestFirst(t: Table)
    requires Playing(t)
    ensures InRange(t) && t.seats[t.turn].hand != [] && forall c :: c in t.seats[t.turn].hand ==> t.seats[t.turn].hand[0] <= c
  {
    assert GoodHand(t.seats[t.turn]);
  }

  lemma SkippedLead(t: Table)
    requires InRange(t) && t.combo == [] && t.status == Active
    ensures var t' := AutoSkip(t, t.turn); t' == t.(lead := t'.turn, turn := t'.turn)
  {
  }

  /** Losing the connection marks exactly that player, and passes on a turn that was theirs. */
  lemma DropLaw(t: Table, s: nat)
    requires Playing(t) && s < |t.seats| && Holds(t.seats, s)
    ensures InRange(t)
    ensures var gone, t' := Offline(t, s), Disconnect(t, t.seats[s].user);
      && (s != t.turn ==> t' == gone)
      && (s == t.turn && t.combo != [] ==> PassedOn(gone, t'))
      && (s == t.turn && t.combo == [] ==>
           t' == gone.(lead := t'.turn, turn := t'.turn) && t'.turn != t.turn && NearestHolder(t.seats, t.turn, t'.turn))
  {
    PlayingFacts(t);
    hide PassedOn, AutoSkip, Playing, Shape, Retired, TrickOk, ActiveSet, ComboOnTable, HandCards, EligibleSet, FindSeat;
    SeatOfUser(t, s);
    var gone := Offline(t, s);
    ConnectionKeeps(t, s, false);
    if s == t.turn {
      if t.combo != [] {
        SkipLaw(gone);
      } else {
        FreeSkipKeeps(gone);
        SkippedLead(gone);
        NearestInSame(t.seats, gone.seats, t.turn, AutoSkip(gone, s).turn);
      }
    }
  }

  lemma NearestInSame(a: seq<Seat>, b: seq<Seat>, from: nat, c: nat)
    requires |a| == |b| && from < |a| && forall i :: 0 <= i < |a| ==> a[i].handCount == b[i].handCount
    ensures NearestHolder(b, from, c) ==> NearestHolder(a, from, c)
  {
    assert forall i :: 0 <= i < |a| ==> (Holds(a, i) <==> Holds(b, i));
  }

  /** Coming back marks exactly that player as present. */
  lemma ReturnLaw(t: Table, s: nat)
    requires Reachable(t) && s < |t.seats|
    ensures var t' := Reconnect(t, t.seats[s].user);
      && t' == t.(seats := t'.seats) && |t'.seats| == |t.seats|
      && t'.seats[s] == t.seats[s].(connected := true) && forall i :: 0 <= i < |t.seats| && i != s ==> t'.seats[i] == t.seats[i]
  {
    ReachableInRange(t);
    ReachableShape(t);
    SeatOfUser(t, s);
    hide FindSeat, Reachable, Shape;
  }

  lemma ReachableShape(t: Table)
    requires Reachable(t)
    ensures Shape(t)
  {
  }

  // ---- playing ----

  /** Seat `s` alone is left with fewer cards: exactly `cards` are gone from its hand. */
  ghost predicate GaveUp(a: seq<Seat>, b: seq<Seat>, s: nat, cards: seq<Card>)
    requires s < |a|
  {
    && |a| == |b|
    && multiset(b[s].hand) + multiset(cards) == multiset(a[s].hand) && b[s].handCount == |b[s].hand|
    && (forall i :: 0 <= i < |a| ==> b[i].user == a[i].user)
    && forall i :: 0 <= i < |a| && i != s ==> b[i].hand == a[i].hand && b[i].handCount == a[i].handCount
  }

  /**
   * The seat on turn has put down `cards` and the game goes on: they lie on the table as theirs,
   * everybody else with cards may respond, whatever they did before, and the nearest is on turn;
   * a hand that is empty now has finished next.
   */
  ghost predicate PlayedOn(t: Table, cards: seq<Card>, t': Table)
    requires InRange(t)
  {
    var s := t.turn;
    && GaveUp(t.seats, t'.seats, s, cards)
    && t'.history == t.history + [Move(s, t.seats[s].user, t'.combo)] && multiset(t'.combo) == multiset(cards)
    && t'.lead == s
    && (forall i :: 0 <= i < |t'.seats| ==> (Eligible(t', i) <==> Holds(t'.seats, i) && i != s))
    && NearestResponder(t', s, t'.turn)
    && t'.resigned == t.resigned
    && t'.finishOrder == t.finishOrder + (if t'.seats[s].hand == [] then [s as int] else [])
    && (t'.seats[s].hand == [] ==> t'.seats[s].finishedRank == |t'.finishOrder|)
  }

  /** The seat on turn has put down its last cards, only `last` still holds any, and everybody is placed. */
  ghost predicate PlayedOut(t: Table, cards: seq<Card>, t': Table, last: nat)
    requires InRange(t)
  {
    var s := t.turn;
    && GaveUp(t.seats, t'.seats, s, cards) && t'.seats[s].hand == []
    && |t'.history| == |t.history| + 1 && t'.history[..|t.history|] == t.history
    && last < |t'.seats| && last != s
    && (forall i :: 0 <= i < |t'.seats| ==> (t'.seats[i].hand != [] <==> i == last))
    && t'.finishOrder == t.finishOrder + [s as int] + [last as int] + Reverse(t.resigned)
  }

  /** The table between putting cards down and moving the turn on. */
  lemma PutDownLaw(t: Table, cards: seq<Card>, combo: Combo, newHand: seq<Card>)
    requires Playing(t) && Playable(t, t.turn, cards, combo, newHand)
    ensures var p := PutDown(t, t.turn, combo, newHand);
      && GaveUp(t.seats, p.seats, t.turn, cards) && p.combo == combo.cards && multiset(p.combo) == multiset(cards)
      && p.history == t.history + [Move(t.turn, t.seats[t.turn].user, combo.cards)]
      && p.lead == t.turn && p.resigned == t.resigned && p.status == Active && p.instant == None
      && p.finishOrder == t.finishOrder + (if newHand == [] then [t.turn as int] else [])
      && p.seats[t.turn].hand == newHand
      && (newHand == [] ==> p.seats[t.turn].finishedRank == |p.finishOrder|)
      && Shape(p) && Retired(p) && InRange(p)
  {
    hide IdentifyCombo, RemoveCards, Sort, SortSet, TrickOk, ActiveSet, ClassifySorted, Recognised;
    PlayingFacts(t);
    NewHandIsGood(t, t.turn, cards, combo, newHand);
    PutDownSeats(t, t.turn, combo, newHand);
    PutDownShape(t, t.turn, cards, combo, newHand);
    ShapeInRange(PutDown(t, t.turn, combo, newHand));
    PutDownRetires(t, t.turn, cards, combo, newHand);
    IdentifyIsIdempotent(cards);
    hide Shape, Retired;
  }

  lemma PlayLaw(t: Table, user: UserId, cards: seq<Card>)
    requires Playing(t) && Play(t, user, cards).Success?
    ensures InRange(t)
    ensures var t' := Play(t, user, cards).value;
      if t'.status == Active then PlayedOn(t, cards, t') else exists last :: PlayedOut(t, cards, t', last)
  {
    hide *;
    PlayingFacts(t);
    var combo, newHand := AcceptedPlay(t, user, cards);
    var chops := RecordChop(t, user, combo).chops;
    AcceptedPlayIs(t, user, cards, combo, newHand, chops);
    ChopsKeepPlaying(t, chops);
    var c := t.(chops := chops);
    PlayingFacts(c);
    if |ActiveSet(PutDown(c, t.turn, combo, newHand).seats)| >= 2 {
      PlayGoesOn(c, cards, combo, newHand);
      ChopsNotAsked(t, chops, cards, Play(t, user, cards).value);
    } else {
      var last := PlayEnds(c, cards, combo, newHand);
      ChopsNotAskedAtEnd(t, chops, cards, Play(t, user, cards).value, last);
    }
  }

  lemma ChopsNotAsked(t: Table, chops: seq<Chop>, cards: seq<Card>, t': Table)
    requires InRange(t) && PlayedOn(t.(chops := chops), cards, t')
    ensures PlayedOn(t, cards, t')
  {
    hide GaveUp, Eligible, NearestResponder, Holds;
  }

  lemma ChopsNotAskedAtEnd(t: Table, chops: seq<Chop>, cards: seq<Card>, t': Table, last: nat)
    requires InRange(t) && PlayedOut(t.(chops := chops), cards, t', last)
    ensures PlayedOut(t, cards, t', last)
  {
    hide GaveUp, Reverse;
  }

  lemma PlayGoesOn(t: Table, cards: seq<Card>, combo: Combo, newHand: seq<Card>)
    requires Playing(t) && Playable(t, t.turn, cards, combo, newHand)
    requires |ActiveSet(PutDown(t, t.turn, combo, newHand).seats)| >= 2
    ensures var t' := FinishIfOver(ApplyPlay(t, t.turn, combo, newHand));
      t'.status == Active && PlayedOn(t, cards, t')
  {
    hide Playing, Playable, PutDown, ApplyPlay, ActiveSet, Shape, Retired, IdentifyCombo;
    PlayingFacts(t);
    PutDownLaw(t, cards, combo, newHand);
    PlayHandsOn(t, cards, combo, newHand);
    var p, t' := PutDown(t, t.turn, combo, newHand), ApplyPlay(t, t.turn, combo, newHand);
    TurnIsNotAsked(p, t'.turn, t.turn);
  }

  lemma PlayEnds(t: Table, cards: seq<Card>, combo: Combo, newHand: seq<Card>) returns (last: nat)
    requires Playing(t) && Playable(t, t.turn, cards, combo, newHand)
    requires |ActiveSet(PutDown(t, t.turn, combo, newHand).seats)| <= 1
    ensures var t' := FinishIfOver(ApplyPlay(t, t.turn, combo, newHand));
      t'.status == Finished && PlayedOut(t, cards, t', last)
  {
    hide Playing, Playable, PutDown, Shape, Retired, IdentifyCombo, ActiveSet, AdvanceTurn, FinalOrder, Standing, Finish, Reverse;
    hide HandCards, Recognised;
    PlayingFacts(t);
    PutDownLaw(t, cards, combo, newHand);
    var p, a := PutDown(t, t.turn, combo, newHand), ApplyPlay(t, t.turn, combo, newHand);
    AdvanceFrame(p, t.turn);
    MarksDoNotMatter(p, a);
    last := OnlyOneLeft(t, p, t.turn);
    SingleActiveIs(a, last);
    FinalOrderIs(a);
    FinishPlaces(a, last);
  }

  /** Of two seats with cards or more, one has just emptied its hand, and one at most is left: then exactly one is. */
  lemma OnlyOneLeft(t: Table, p: Table, s: nat) returns (last: nat)
    requires Shape(t) && Shape(p) && s < |t.seats| && |ActiveSet(t.seats)| >= 2 && |ActiveSet(p.seats)| <= 1
    requires |p.seats| == |t.seats| && forall i :: 0 <= i < |t.seats| && i != s ==> p.seats[i].handCount == t.seats[i].handCount
    ensures last < |p.seats| && last != s && ActiveSet(p.seats) == {last}
    ensures forall i :: 0 <= i < |p.seats| ==> (p.seats[i].hand != [] <==> i == last)
  {
    OthersHold(t, s);
    last :| 0 <= last < |t.seats| && Holds(t.seats, last) && last != s;
    assert last in ActiveSet(p.seats);
    var rest := ActiveSet(p.seats) - {last};
    assert |rest| == 0;
    assert ActiveSet(p.seats) == rest + {last};
    forall i | 0 <= i < |p.seats| ensures p.seats[i].hand != [] <==> i == last {
      assert GoodHand(p.seats[i]);
      assert i in ActiveSet(p.seats) <==> p.seats[i].handCount > 0;
    }
  }

  lemma SingleActiveIs(t: Table, last: nat)
    requires ActiveSet(t.seats) == {last}
    ensures |ActiveSet(t.seats)| == 1 && LastHolder(t) == last && MaybeFinish(t)
  {
    SingletonActive(t);
    assert LastHolder(t) in ActiveSet(t.seats);
  }

  lemma FinishPlaces(t: Table, last: nat)
    requires |ActiveSet(t.seats)| == 1 && LastHolder(t) == last && FinalOrder(t) == Standing(t)
    ensures Finish(t).finishOrder == t.finishOrder + [last as int] + Reverse(t.resigned)
    ensures Finish(t).status == Finished && Finish(t).resigned == t.resigned
    ensures Finish(t).history == t.history && |Finish(t).seats| == |t.seats|
    ensures forall i :: 0 <= i < |t.seats| ==>
      Finish(t).seats[i] == t.seats[i].(finishedRank := Finish(t).seats[i].finishedRank)
  {
    hide FinalOrder, IndexOf;
  }

  // ---- leaving ----

  /** Seat `s` has left: nobody else's cards moved, and of those who resigned they are the latest. */
  ghost predicate Left(t: Table, s: nat, t': Table)
    requires s < |t.seats|
  {
    && |t'.seats| == |t.seats| && t'.seats[s].hand == [] && t'.seats[s].handCount == 0
    && (forall i :: 0 <= i < |t.seats| ==> t'.seats[i].user == t.seats[i].user)
    && (forall i :: 0 <= i < |t.seats| && i != s ==>
         t'.seats[i].hand == t.seats[i].hand && t'.seats[i].handCount == t.seats[i].handCount)
    && t'.history == t.history && t'.resigned == t.resigned + [s as int]
  }

  /** The table goes on without seat `s`: a trick they owned is dead, a turn that was theirs goes to the nearest seat. */
  ghost predicate LeftOn(t: Table, s: nat, t': Table)
    requires InRange(t) && s < |t.seats|
  {
    && Left(t, s, t') && t'.finishOrder == t.finishOrder
    && (forall i :: 0 <= i < |t.seats| ==>
         && t'.seats[i].connected == t.seats[i].connected
         && t'.seats[i].finishedRank == if i == s then 0 else t.seats[i].finishedRank)
    && (t.lead == s ==>
         && t'.combo == [] && t'.turn == t'.lead && NearestHolder(t'.seats, s, t'.lead)
         && forall i :: 0 <= i < |t'.seats| ==> !t'.seats[i].passed)
    && (t.lead != s ==>
         && t'.combo == t.combo && t'.lead == t.lead
         && (forall i :: 0 <= i < |t'.seats| ==> t'.seats[i].passed == t.seats[i].passed)
         && if t.turn == s then NearestHolder(t'.seats, s, t'.turn) else t'.turn == t.turn)
  }

  /** Only `last` still holds cards: they come next, and those who resigned last of all, the first of them at the very end. */
  ghost predicate LeftOut(t: Table, s: nat, t': Table, last: nat)
    requires s < |t.seats|
  {
    && Left(t, s, t') && last < |t.seats| && last != s
    && (forall i :: 0 <= i < |t'.seats| ==> (t'.seats[i].hand != [] <==> i == last))
    && t'.finishOrder == t.finishOrder + [last as int] + Reverse(t.resigned + [s as int])
  }

  /** A resignation is accepted exactly from a player of a running game who still holds cards. */
  lemma ResignAcceptedIff(t: Table, user: UserId)
    requires Reachable(t)
    ensures InRange(t)
    ensures Resign(t, user).Success? <==>
      Playing(t) && exists i :: 0 <= i < |t.seats| && t.seats[i].user == user && t.seats[i].hand != []
  {
    ReachableInRange(t);
    ReachableShape(t);
    hide Reachable, Playing, AfterLeaving, ForceFinishLast;
    if FindSeat(t.seats, user).Some? {
      assert GoodHand(t.seats[FindSeat(t.seats, user).value]);
    }
  }

  lemma LeaveLaw(t: Table, s: nat)
    requires Playing(t) && s < |t.seats| && Holds(t.seats, s)
    ensures InRange(t)
    ensures var r := Resign(t, t.seats[s].user);
      && r.Success? && Forfeit(t, t.seats[s].user) == r.value
      && if r.value.status == Active then LeftOn(t, s, r.value) else exists last :: LeftOut(t, s, r.value, last)
  {
    hide *;
    PlayingFacts(t);
    ResignIs(t, s);
    if MaybeFinish(ForceFinishLast(t, s)) {
      var last := LeaveEnds(t, s);
    } else {
      LeaveGoesOn(t, s);
    }
  }

  lemma ResignIs(t: Table, s: nat)
    requires Playing(t) && s < |t.seats| && Holds(t.seats, s)
    ensures InRange(t)
    ensures Resign(t, t.seats[s].user) == Success(AfterLeaving(ForceFinishLast(t, s), s))
    ensures Forfeit(t, t.seats[s].user) == AfterLeaving(ForceFinishLast(t, s), s)
  {
    hide AfterLeaving, ForceFinishLast, FindSeat, Playing;
    PlayingFacts(t);
    SeatOfUser(t, s);
  }

  lemma LeaveEnds(t: Table, s: nat) returns (last: nat)
    requires Playing(t) && s < |t.seats| && Holds(t.seats, s) && MaybeFinish(ForceFinishLast(t, s))
    ensures InRange(t)
    ensures var t' := AfterLeaving(ForceFinishLast(t, s), s); t'.status == Finished && LeftOut(t, s, t', last)
  {
    hide Playing, Shape, Retired, TrickOk, ActiveSet, FinalOrder, Standing, ComboOnTable, ForceFinishLast, Finish, Reverse, HandCards;
    PlayingFacts(t);
    var f := ForceFinishLast(t, s);
    LeavingFrame(t, s);
    Forced(t, s);
    last := OnlyOneLeft(t, f, s);
    SingleActiveIs(f, last);
    FinalOrderIs(f);
    FinishPlaces(f, last);
  }

  lemma Forced(t: Table, s: nat)
    requires Playing(t) && s < |t.seats| && Holds(t.seats, s)
    ensures Left(t, s, ForceFinishLast(t, s)) && ForceFinishLast(t, s).finishOrder == t.finishOrder
  {
    hide Playing, Shape, Retired;
    PlayingFacts(t);
    NotResignedYet(t, s);
  }

  lemma LeaveGoesOn(t: Table, s: nat)
    requires Playing(t) && s < |t.seats| && Holds(t.seats, s) && !MaybeFinish(ForceFinishLast(t, s))
    ensures InRange(t)
    ensures var t' := AfterLeaving(ForceFinishLast(t, s), s); t'.status == Active && LeftOn(t, s, t')
  {
    hide Playing, Shape, Retired, TrickOk, NearestHolder, AfterLeaving, MaybeFinish;
    PlayingFacts(t);
    NotResignedYet(t, s);
    LeavingHandsOn(t, s);
    LeftSeats(t, s);
  }

  lemma NotResignedYet(t: Table, s: nat)
    requires Retired(t) && s < |t.seats| && Holds(t.seats, s)
    ensures s !in t.resigned
  {
  }

  lemma LeftSeats(t: Table, s: nat)
    requires InRange(t) && s < |t.seats| && !MaybeFinish(ForceFinishLast(t, s))
    ensures var f, t' := ForceFinishLast(t, s), AfterLeaving(ForceFinishLast(t, s), s);
      && t'.status == t.status && t'.history == t.history && t'.resigned == f.resigned && t'.finishOrder == t.finishOrder
      && |t'.seats| == |t.seats|
      && (forall i :: 0 <= i < |t.seats| ==> t'.seats[i] == f.seats[i].(passed := if t.lead == s then false else t.seats[i].passed))
      && (forall from: nat, c: nat :: from < |t.seats| && NearestHolder(f.seats, from, c) ==> NearestHolder(t'.seats, from, c))
  {
    var f, t' := ForceFinishLast(t, s), AfterLeaving(ForceFinishLast(t, s), s);
    hide NextActiveSeat, MaybeFinish;
    assert forall i :: 0 <= i < |f.seats| ==> (Holds(t'.seats, i) <==> Holds(f.seats, i));
  }
}
