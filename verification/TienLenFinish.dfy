/**
 * The end of a Tien Len game: the final order and what every reachable table satisfies,
 * running or finished.
 */
module TienLenFinish {
  import opened Wrappers
  import opened Sorting
  import opened Ranking
  import opened TienLenLogic
  import opened TienLenTable
  import opened TienLenInvariant
  import opened TienLenMoves

  // ---- lists without repeats ----

  lemma {:induction false} AppendFresh(order: seq<int>, more: seq<int>)
    requires Distinct(more) && forall x :: x in more ==> x !in order
    ensures AppendNew(order, more) == order + more
    decreases |more|
  {
    if more == [] {
      assert order + more == order;
    } else {
      assert order + more == (order + [more[0]]) + more[1..];
      AppendFresh(order + [more[0]], more[1..]);
    }
  }

  lemma {:induction false} AppendKnown(order: seq<int>, more: seq<int>)
    requires forall x :: x in more ==> x in order
    ensures AppendNew(order, more) == order
    decreases |more|
  {
    if more != [] {
      var x := more[0];
      assert x in more;
      AppendKnown(order, more[1..]);
    }
  }

  // ---- the final order ----

  /** A finished table: one player still held cards unless the deal decided it, and the final order places every seat once. */
  ghost predicate Over(t: Table) {
    && t.status == Finished
    && Shape(t)
    && (t.instant == None ==> |ActiveSet(t.seats)| == 1)
    && Distinct(t.finishOrder)
    && (forall x :: x in t.finishOrder <==> 0 <= x < |t.seats|)
    && (forall i :: 0 <= i < |t.seats| ==> t.seats[i].finishedRank == IndexOf(t.finishOrder, i) + 1)
  }

  /** The seat that still held cards when the game ended. */
  ghost function LastHolder(t: Table): nat
    requires |ActiveSet(t.seats)| == 1
  {
    LastHolderExists(t);
    var x :| x in ActiveSet(t.seats); x
  }

  lemma LastHolderExists(t: Table)
    requires |ActiveSet(t.seats)| == 1
    ensures exists x :: x in ActiveSet(t.seats)
  {
    var s := ActiveSet(t.seats);
    assert (forall x :: x !in s) ==> s == {};
  }

  lemma SingletonActive(t: Table)
    requires |ActiveSet(t.seats)| == 1
    ensures ActiveSet(t.seats) == {LastHolder(t)}
    ensures ActiveSeats(t.seats) == [LastHolder(t)]
  {
    var s, x := ActiveSet(t.seats), LastHolder(t);
    assert |s - {x}| == 0;
    assert s == (s - {x}) + {x};
    IncreasingUnique(ActiveSeats(t.seats), [x]);
  }

  ghost function Standing(t: Table): seq<int>
    requires |ActiveSet(t.seats)| == 1
  {
    t.finishOrder + [LastHolder(t)] + Reverse(t.resigned)
  }

  lemma StandingPlacesAll(t: Table)
    requires Retired(t) && |ActiveSet(t.seats)| == 1
    ensures Distinct(Standing(t))
    ensures forall x :: x in Standing(t) <==> 0 <= x < |t.seats|
  {
    var last := LastHolder(t);
    SingletonActive(t);
    ReverseKeeps(t.resigned);
    assert last in ActiveSet(t.seats);
    hide SortSet, Reverse;
    DistinctConcat(t.finishOrder, [last]);
    DistinctConcat(t.finishOrder + [last], Reverse(t.resigned));
    forall x ensures x in Standing(t) <==> 0 <= x < |t.seats| {
      if 0 <= x < |t.seats| && t.seats[x].handCount > 0 {
        assert x in ActiveSet(t.seats);
      }
    }
  }

  /**
   * The final standing: those who emptied their hands in the order they did, then the last
   * player holding cards, then the resigned players with the earliest resigner last.
   */
  lemma FinalOrderIs(t: Table)
    requires Retired(t) && |ActiveSet(t.seats)| == 1
    ensures FinalOrder(t) == Standing(t)
  {
    var last := LastHolder(t);
    SingletonActive(t);
    ReverseKeeps(t.resigned);
    assert last in ActiveSet(t.seats);
    StandingPlacesAll(t);
    hide SortSet, Reverse, AppendNew, ActiveSet;
    AppendFresh([], t.finishOrder);
    assert [] + t.finishOrder == t.finishOrder;
    AppendFresh(t.finishOrder, [last]);
    AppendFresh(t.finishOrder + [last], Reverse(t.resigned));
    AppendKnown(Standing(t), SeatNumbers(|t.seats|));
  }

  lemma FinishIsOver(t: Table)
    requires Shape(t) && Retired(t) && |ActiveSet(t.seats)| == 1
    ensures Over(Finish(t))
    ensures Finish(t).finishOrder == Standing(t)
    ensures HandCards(Finish(t).seats) == HandCards(t.seats)
  {
    FinalOrderIs(t);
    StandingPlacesAll(t);
    FinishShape(t);
    hide FinalOrder, Standing, Shape, Retired, ActiveSet, IndexOf, Distinct, HandCards;
  }

  lemma FinishShape(t: Table)
    requires Shape(t)
    ensures Shape(Finish(t)) && ActiveSet(Finish(t).seats) == ActiveSet(t.seats)
    ensures HandCards(Finish(t).seats) == HandCards(t.seats)
  {
    var f := Finish(t);
    hide FinalOrder, IndexOf, HandCards;
    HandCardsSame(f.seats, t.seats);
    forall i | 0 <= i < |f.seats| ensures GoodHand(f.seats[i]) {
      assert GoodHand(t.seats[i]);
    }
  }

  /** Every reachable table. */
  ghost predicate Reachable(t: Table) {
    Playing(t) || Over(t)
  }

  // ---- operations, from start to finish ----

  lemma ChopsDoNotMatter(t: Table, user: UserId, combo: Combo)
    requires InRange(t)
    ensures var c := RecordChop(t, user, combo); c == t.(chops := c.chops)
  {
  }

  lemma SeatOfUser(t: Table, s: nat)
    requires Shape(t) && s < |t.seats|
    ensures FindSeat(t.seats, t.seats[s].user) == Some(s)
  {
  }

  /** An accepted play, taken apart. */
  ghost predicate Accepted(t: Table, s: nat, cards: seq<Card>, combo: Combo, newHand: seq<Card>)
    requires InRange(t)
  {
    && t.status == Active && s == t.turn
    && Playable(t, s, cards, combo, newHand)
    && Play(t, t.seats[s].user, cards)
       == Success(FinishIfOver(ApplyPlay(RecordChop(t, t.seats[s].user, combo), s, combo, newHand)))
  }

  lemma AcceptedPlay(t: Table, user: UserId, cards: seq<Card>) returns (combo: Combo, newHand: seq<Card>)
    requires InRange(t) && Play(t, user, cards).Success?
    ensures user == t.seats[t.turn].user && Accepted(t, t.turn, cards, combo, newHand)
  {
    hide IdentifyCombo, RemoveCards, ApplyPlay, RecordChop, FinishIfOver, CanBeat, CurrentCombo;
    combo := IdentifyCombo(cards).value;
    newHand := RemoveCards(t.seats[t.turn].hand, cards).value;
  }

  lemma AcceptedPlayIs(t: Table, user: UserId, cards: seq<Card>, combo: Combo, newHand: seq<Card>, chops: seq<Chop>)
    requires InRange(t) && user == t.seats[t.turn].user && Accepted(t, t.turn, cards, combo, newHand)
    requires chops == RecordChop(t, user, combo).chops
    ensures IdentifyCombo(cards) == Some(combo) && Playable(t.(chops := chops), t.turn, cards, combo, newHand)
    ensures Play(t, user, cards) == Success(FinishIfOver(ApplyPlay(t.(chops := chops), t.turn, combo, newHand)))
  {
    ChopsDoNotMatter(t, user, combo);
    hide Play, FinishIfOver, ApplyPlay, IdentifyCombo, RemoveCards, RecordChop;
  }

  lemma EndOrGoOn(p: Table)
    requires p.status == Active && p.instant == None && Shape(p) && Retired(p) && |ActiveSet(p.seats)| >= 1
    requires |ActiveSet(p.seats)| >= 2 ==> Playing(p)
    ensures var t' := FinishIfOver(p);
      && Reachable(t')
      && HandCards(t'.seats) == HandCards(p.seats)
      && t'.history == p.history
  {
    if MaybeFinish(p) {
      FinishIsOver(p);
    }
  }

  lemma PlayStep(t: Table, user: UserId, cards: seq<Card>) returns (combo: Combo)
    requires Playing(t) && Play(t, user, cards).Success?
    ensures var t' := Play(t, user, cards).value;
      && Reachable(t')
      && IdentifyCombo(cards) == Some(combo)
      && HandCards(t'.seats) + multiset(combo.cards) == HandCards(t.seats)
      && t'.history == t.history + [Move(t.turn, user, combo.cards)]
  {
    var newHand;
    combo, newHand := AcceptedPlay(t, user, cards);
    ChopsDoNotMatter(t, user, combo);
    hide IdentifyCombo, RemoveCards, Play, ClassifySorted, RecordChop, ApplyPlay, FinishIfOver;
    var c := RecordChop(t, user, combo);
    ChopsKeepPlaying(t, c.chops);
    ApplyPlayKeeps(c, t.turn, cards, combo, newHand);
    EndOrGoOn(ApplyPlay(c, t.turn, combo, newHand));
  }

  lemma ChopsKeepPlaying(t: Table, chops: seq<Chop>)
    requires Playing(t)
    ensures Playing(t.(chops := chops))
  {
    var t' := t.(chops := chops);
    if t.combo != [] {
      if NobodyEligible(t) {
        assert forall i :: 0 <= i < |t.seats| ==> (Eligible(t', i) <==> Eligible(t, i));
      } else {
        assert Arc(t');
      }
    }
  }

  lemma LeaveStep(t: Table, s: nat)
    requires Playing(t) && s < |t.seats| && Holds(t.seats, s)
    ensures var t' := AfterLeaving(ForceFinishLast(t, s), s);
      && Reachable(t')
      && HandCards(t'.seats) + multiset(t.seats[s].hand) == HandCards(t.seats)
      && t'.history == t.history
  {
    var f := ForceFinishLast(t, s);
    LeavingFrame(t, s);
    if MaybeFinish(f) {
      hide Shape, Retired;
      FinishIsOver(f);
    } else {
      LeavingKeeps(t, s);
    }
  }
}
