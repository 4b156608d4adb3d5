/**
 * Every operation of the Tien Len service keeps the invariant and, when it goes through,
 * brings the game closer to its end.
 */
module TienLenMoves {
  import opened Wrappers
  import opened Sorting
  import opened TienLenLogic
  import opened TienLenTable
  import opened TienLenInvariant

  // ---- the cards in the hands ----

  ghost function HandCards(seats: seq<Seat>): multiset<Card> {
    if seats == [] then multiset{}
    else HandCards(seats[..|seats| - 1]) + multiset(seats[|seats| - 1].hand)
  }

  ghost predicate SameHands(a: seq<Seat>, b: seq<Seat>) {
    |a| == |b| && forall i :: 0 <= i < |a| ==> a[i].hand == b[i].hand
  }

  lemma {:induction false} HandCardsSame(a: seq<Seat>, b: seq<Seat>)
    requires SameHands(a, b)
    ensures HandCards(a) == HandCards(b)
  {
    if a != [] {
      HandCardsSame(a[..|a| - 1], b[..|b| - 1]);
    }
  }

  lemma {:induction false} HandCardsUpdate(seats: seq<Seat>, i: nat, s: Seat)
    requires i < |seats|
    ensures HandCards(seats[i := s]) + multiset(seats[i].hand) == HandCards(seats) + multiset(s.hand)
  {
    var last := |seats| - 1;
    if i < last {
      assert seats[i := s][..last] == seats[..last][i := s];
      HandCardsUpdate(seats[..last], i, s);
      assert seats[..last][i] == seats[i] && seats[i := s][last] == seats[last];
      var rest, rest', end := HandCards(seats[..last]), HandCards(seats[i := s][..last]), multiset(seats[last].hand);
      assert rest' + end + multiset(seats[i].hand) == rest' + multiset(seats[i].hand) + end;
      assert rest + end + multiset(s.hand) == rest + multiset(s.hand) + end;
    } else {
      assert seats[i := s][..last] == seats[..last];
    }
  }

  // ---- the measure ----

  ghost function EligibleSet(t: Table): set<nat> {
    set i | 0 <= i < |t.seats| && Eligible(t, i)
  }

  /** 0 on an empty table, else one more than the seats that may still respond. */
  ghost function TrickMeasure(t: Table): nat {
    if t.combo == [] then 0 else 1 + |EligibleSet(t)|
  }

  ghost function CardsHeld(t: Table): nat { |HandCards(t.seats)| }

  /** Fewer cards, or as many cards and less of the trick left. */
  ghost predicate Closer(t': Table, t: Table) {
    CardsHeld(t') < CardsHeld(t) || (CardsHeld(t') == CardsHeld(t) && TrickMeasure(t') < TrickMeasure(t))
  }

  // ---- frames ----

  /** Seats that agree on everything but the pass and connection marks. */
  ghost predicate SameButMarks(a: seq<Seat>, b: seq<Seat>) {
    && |a| == |b|
    && forall i :: 0 <= i < |a| ==> a[i].(passed := false, connected := false) == b[i].(passed := false, connected := false)
  }

  lemma MarksDoNotMatter(t: Table, t': Table)
    requires SameButMarks(t.seats, t'.seats) && InRange(t')
    requires t'.finishOrder == t.finishOrder && t'.resigned == t.resigned
    ensures Shape(t) ==> Shape(t')
    ensures Retired(t) ==> Retired(t')
    ensures ActiveSet(t'.seats) == ActiveSet(t.seats)
    ensures HandCards(t'.seats) == HandCards(t.seats)
  {
    assert forall i :: 0 <= i < |t.seats| ==>
      t.seats[i].hand == t'.seats[i].hand && t.seats[i].handCount == t'.seats[i].handCount
      && t.seats[i].user == t'.seats[i].user;
    HandCardsSame(t'.seats, t.seats);
  }

  /** Moving the turn on touches only the turn, the pass marks and the combo on the table. */
  lemma AdvanceFrame(t: Table, from: nat)
    requires InRange(t) && from < |t.seats|
    ensures var t' := AdvanceTurn(t, from);
      && SameButMarks(t.seats, t'.seats) && InRange(t')
      && t' == t.(turn := t'.turn, seats := t'.seats, combo := t'.combo)
  {
  }

  // ---- passing ----

  lemma {:induction false} PassIsNoPlay(history: seq<Move>, m: Move)
    requires m.cards == []
    ensures LastPlay(history + [m]) == LastPlay(history)
  {
    assert (history + [m])[..|history|] == history;
  }

  lemma MarkPassedFrame(t: Table, s: nat)
    requires Playing(t) && t.turn == s && t.combo != []
    ensures var p := MarkPassed(t, s);
      && p.status == Active && p.instant == None && Shape(p) && Retired(p) && ActiveSet(p.seats) == ActiveSet(t.seats)
      && HandCards(p.seats) == HandCards(t.seats)
      && ComboOnTable(p)
  {
    MarksDoNotMatter(t, MarkPassed(t, s));
    PassIsNoPlay(t.history, Move(s, t.seats[s].user, []));
  }

  lemma MarkPassedEligible(t: Table, s: nat)
    requires Shape(t) && t.turn == s && Holds(t.seats, s) && (NobodyEligible(t) || Arc(t))
    ensures var p := MarkPassed(t, s);
      && (NobodyEligible(p) || ArcFrom(p, s))
      && EligibleSet(p) == EligibleSet(t) - {s}
      && (NobodyEligible(t) || s in EligibleSet(t))
  {
    var p := MarkPassed(t, s);
    forall i | 0 <= i < |t.seats| ensures Eligible(p, i) <==> Eligible(t, i) && i != s {
    }
    if !NobodyEligible(t) {
      var k :| 0 <= k < |t.seats| && Eligible(t, k);
      assert Gap(s, k, |t.seats|) < Gap(s, t.lead, |t.seats|);
      assert Eligible(t, s);
      forall j | 0 <= j < |t.seats| && Holds(p.seats, j) && j != t.lead
        ensures !p.seats[j].passed <==> Off(s, j, |t.seats|) < Off(s, t.lead, |t.seats|)
      {
        assert Holds(t.seats, j);
      }
    }
  }

  lemma NobodyMeansEmpty(t: Table)
    ensures NobodyEligible(t) <==> EligibleSet(t) == {}
  {
    assert forall i :: 0 <= i < |t.seats| ==> (Eligible(t, i) <==> i in EligibleSet(t));
  }

  /** A pass on a live trick keeps the invariant, and ends the trick exactly when nobody else may respond. */
  lemma PassKeeps(t: Table, s: nat)
    requires Playing(t) && t.turn == s && t.combo != []
    ensures Playing(ApplyPass(t, s))
    ensures HandCards(ApplyPass(t, s).seats) == HandCards(t.seats)
    ensures ApplyPass(t, s).combo == [] <==> EligibleSet(t) - {s} == {}
    ensures ApplyPass(t, s).combo != [] ==> EligibleSet(ApplyPass(t, s)) == EligibleSet(t) - {s}
  {
    hide Playing, Shape, Retired, TrickOk, ComboOnTable, Arc, ArcFrom, NobodyEligible, MarkPassed, AdvanceTurn;
    hide ActiveSet, HandCards, SameButMarks;
    PlayingFacts(t);
    MarkPassedRange(t, s);
    var p := MarkPassed(t, s);
    MarkPassedFrame(t, s);
    MarkPassedEligible(t, s);
    NobodyMeansEmpty(p);
    AdvanceKeeps(p, s);
    AdvanceFrame(p, s);
    MarksDoNotMatter(p, ApplyPass(t, s));
    SameSeatsSameEligible(p, ApplyPass(t, s));
  }

  lemma MarkPassedRange(t: Table, s: nat)
    requires InRange(t) && s < |t.seats|
    ensures var p := MarkPassed(t, s); InRange(p) && |p.seats| == |t.seats| && p.combo == t.combo
  {
  }

  lemma SameSeatsSameEligible(t: Table, t': Table)
    ensures t' == t.(turn := t'.turn) ==> EligibleSet(t') == EligibleSet(t)
  {
    if t' == t.(turn := t'.turn) {
      assert forall i :: 0 <= i < |t.seats| ==> (Eligible(t', i) <==> Eligible(t, i));
    }
  }

  lemma PassCloser(t: Table, s: nat)
    requires Playing(t) && t.turn == s && t.combo != []
    ensures Closer(ApplyPass(t, s), t)
  {
    hide Playing, Shape, Retired, TrickOk, ComboOnTable, Arc, NobodyEligible, ApplyPass, EligibleSet, HandCards;
    PlayingFacts(t);
    PassKeeps(t, s);
    if ApplyPass(t, s).combo != [] {
      MarkPassedEligible(t, s);
      NobodyMeansEmpty(t);
    }
  }

  // ---- playing ----

  /** `cards`, recognised as `combo`, leave the hand of seat `s` as `newHand`. */
  ghost predicate Playable(t: Table, s: nat, cards: seq<Card>, combo: Combo, newHand: seq<Card>) {
    && s < |t.seats|
    && IdentifyCombo(cards) == Some(combo)
    && RemoveCards(t.seats[s].hand, cards) == Some(newHand)
  }

  lemma NewHandIsGood(t: Table, s: nat, cards: seq<Card>, combo: Combo, newHand: seq<Card>)
    requires Shape(t) && Playable(t, s, cards, combo, newHand)
    ensures GoodHand(t.seats[s].(hand := newHand, handCount := |newHand|))
    ensures multiset(newHand) + multiset(combo.cards) == multiset(t.seats[s].hand)
    ensures |newHand| + |combo.cards| == |t.seats[s].hand|
    ensures Recognised(combo) && IdentifyCombo(combo.cards) == Some(combo)
  {
    hide IdentifyCombo, ClassifySorted, Sort, SortSet;
    var hand := t.seats[s].hand;
    assert GoodHand(t.seats[s]);
    RemovalSplitsHand(hand, cards);
    IdentifyIsIdempotent(cards);
    RecognisedIsIdentified(combo);
    forall c | c in newHand ensures 0 <= c < DECK_SIZE {
      assert c in multiset(newHand);
      assert c in multiset(hand);
      assert c in hand;
    }
  }

  /** What putting down a combo does to each seat. */
  lemma PutDownSeats(t: Table, s: nat, combo: Combo, newHand: seq<Card>)
    requires InRange(t) && s < |t.seats|
    ensures var seats := PutDown(t, s, combo, newHand).seats;
      && |seats| == |t.seats|
      && (forall i :: 0 <= i < |seats| ==> seats[i].user == t.seats[i].user)
      && (forall i :: 0 <= i < |seats| && seats[i].handCount > 0 ==> !seats[i].passed)
      && seats[s].hand == newHand && seats[s].handCount == |newHand|
      && (forall i :: 0 <= i < |seats| && i != s ==>
           seats[i].hand == t.seats[i].hand && seats[i].handCount == t.seats[i].handCount)
  {
  }

  lemma PutDownShape(t: Table, s: nat, cards: seq<Card>, combo: Combo, newHand: seq<Card>)
    requires Shape(t) && Playable(t, s, cards, combo, newHand)
    ensures Shape(PutDown(t, s, combo, newHand))
  {
    hide IdentifyCombo, ClassifySorted, Sort, SortSet;
    NewHandIsGood(t, s, cards, combo, newHand);
    PutDownSeats(t, s, combo, newHand);
    var p := PutDown(t, s, combo, newHand);
    hide PutDown;
    forall i | 0 <= i < |p.seats| ensures GoodHand(p.seats[i]) {
      assert GoodHand(t.seats[i]);
    }
  }

  lemma PutDownCombo(t: Table, s: nat, cards: seq<Card>, combo: Combo, newHand: seq<Card>)
    requires Shape(t) && Playable(t, s, cards, combo, newHand)
    ensures ComboOnTable(PutDown(t, s, combo, newHand))
  {
    NewHandIsGood(t, s, cards, combo, newHand);
    hide IdentifyCombo, ClassifySorted, Sort, SortSet, RemoveCards;
  }

  lemma PutDownOpensTrick(t: Table, s: nat, combo: Combo, newHand: seq<Card>)
    requires InRange(t) && s < |t.seats| && Holds(t.seats, s)
    ensures var p := PutDown(t, s, combo, newHand);
      && InRange(p) && ArcFrom(p, s)
      && ActiveSet(p.seats) == (if newHand == [] then ActiveSet(t.seats) - {s} else ActiveSet(t.seats))
  {
    PutDownSeats(t, s, combo, newHand);
    var p := PutDown(t, s, combo, newHand);
    assert p.lead == s && InRange(p);
    hide PutDown;
    forall j | 0 <= j < |t.seats| && Holds(p.seats, j) && j != p.lead
      ensures !p.seats[j].passed && Off(s, j, |t.seats|) < Off(s, s, |t.seats|)
    {
    }
  }

  lemma PutDownRetires(t: Table, s: nat, cards: seq<Card>, combo: Combo, newHand: seq<Card>)
    requires Playing(t) && t.turn == s && Playable(t, s, cards, combo, newHand)
    ensures Retired(PutDown(t, s, combo, newHand))
  {
    PutDownSeats(t, s, combo, newHand);
    hide Shape, TrickOk, Playable, Retired;
    RetiredAfter(t, PutDown(t, s, combo, newHand), s, newHand == []);
  }

  /** Only seat `s` may have emptied its hand, and then it is next in the finishing order. */
  lemma RetiredAfter(t: Table, p: Table, s: nat, emptied: bool)
    requires Retired(t) && s < |t.seats| == |p.seats| && t.seats[s].handCount > 0 && p.resigned == t.resigned
    requires p.finishOrder == if emptied then t.finishOrder + [s] else t.finishOrder
    requires forall x :: 0 <= x < |t.seats| ==>
      (p.seats[x].handCount == 0 <==> t.seats[x].handCount == 0 || (x == s && emptied))
    ensures Retired(p)
  {
    assert s !in t.finishOrder && s !in t.resigned;
  }

  lemma PutDownCards(t: Table, s: nat, cards: seq<Card>, combo: Combo, newHand: seq<Card>)
    requires Playing(t) && t.turn == s && Playable(t, s, cards, combo, newHand)
    ensures HandCards(PutDown(t, s, combo, newHand).seats) + multiset(combo.cards) == HandCards(t.seats)
  {
    hide Playing, Playable, HandCards, PutDown, Shape, Retired, TrickOk, IdentifyCombo;
    PlayingFacts(t);
    NewHandIsGood(t, s, cards, combo, newHand);
    PutDownSeats(t, s, combo, newHand);
    var seats := PutDown(t, s, combo, newHand).seats;
    var seat := t.seats[s].(hand := newHand);
    HandCardsUpdate(t.seats, s, seat);
    HandCardsSame(seats, t.seats[s := seat]);
    MultisetSwap(HandCards(seats), multiset(t.seats[s].hand), HandCards(t.seats), multiset(newHand), multiset(combo.cards));
  }

  lemma MultisetSwap(a: multiset<Card>, b: multiset<Card>, c: multiset<Card>, d: multiset<Card>, e: multiset<Card>)
    requires a + b == c + d && d + e == b
    ensures a + e == c
  {
    forall x ensures (a + e)[x] == c[x] {
      assert (a + b)[x] == (c + d)[x] && (d + e)[x] == b[x];
    }
  }

  /** An accepted play lowers the cards held by the cards played, and keeps the invariant while two hold cards. */
  lemma ApplyPlayKeeps(t: Table, s: nat, cards: seq<Card>, combo: Combo, newHand: seq<Card>)
    requires Playing(t) && t.turn == s && Playable(t, s, cards, combo, newHand)
    ensures var t' := ApplyPlay(t, s, combo, newHand);
      && t'.status == Active && t'.instant == None && Shape(t') && Retired(t')
      && |ActiveSet(t'.seats)| >= 1
      && HandCards(t'.seats) + multiset(combo.cards) == HandCards(t.seats)
      && t'.history == t.history + [Move(s, t.seats[s].user, combo.cards)]
      && (|ActiveSet(t'.seats)| >= 2 ==> Playing(t'))
  {
    var p := PutDown(t, s, combo, newHand);
    hide IdentifyCombo, ClassifySorted, Sort, SortSet, RemoveCards;
    PutDownShape(t, s, cards, combo, newHand);
    PutDownCombo(t, s, cards, combo, newHand);
    PutDownOpensTrick(t, s, combo, newHand);
    PutDownRetires(t, s, cards, combo, newHand);
    PutDownCards(t, s, cards, combo, newHand);
    AdvanceFrame(p, s);
    MarksDoNotMatter(p, AdvanceTurn(p, s));
    if |ActiveSet(p.seats)| >= 2 {
      AdvanceKeeps(p, s);
    }
  }

  // ---- leaving ----

  lemma LeavingFrame(t: Table, s: nat)
    requires Playing(t) && s < |t.seats| && Holds(t.seats, s)
    ensures var f := ForceFinishLast(t, s);
      && f.status == Active && f.instant == None && Shape(f) && Retired(f)
      && ActiveSet(f.seats) == ActiveSet(t.seats) - {s}
      && HandCards(f.seats) + multiset(t.seats[s].hand) == HandCards(t.seats)
      && (t.combo != [] ==> ComboOnTable(f))
  {
    LeavingShape(t, s);
    LeavingRetires(t, s);
    hide Shape, Retired, ActiveSet, IdentifyCombo, TrickOk;
    HandCardsUpdate(t.seats, s, ForceFinishLast(t, s).seats[s]);
    hide HandCards;
  }

  lemma LeavingShape(t: Table, s: nat)
    requires Shape(t) && s < |t.seats|
    ensures Shape(ForceFinishLast(t, s))
  {
    var f := ForceFinishLast(t, s);
    forall i | 0 <= i < |f.seats| ensures GoodHand(f.seats[i]) {
      assert GoodHand(t.seats[i]);
    }
    hide GoodHand;
  }

  lemma LeavingRetires(t: Table, s: nat)
    requires Retired(t) && s < |t.seats| && Holds(t.seats, s)
    ensures var f := ForceFinishLast(t, s); Retired(f) && ActiveSet(f.seats) == ActiveSet(t.seats) - {s}
  {
    assert s !in t.finishOrder && s !in t.resigned;
  }

  lemma LeavingKeepsOthersEligible(t: Table, s: nat)
    requires Shape(t) && s < |t.seats| && s != t.turn && s != t.lead
    requires NobodyEligible(t) || Arc(t)
    ensures NobodyEligible(ForceFinishLast(t, s)) || Arc(ForceFinishLast(t, s))
  {
    var f := ForceFinishLast(t, s);
    if NobodyEligible(t) {
      forall i | 0 <= i < |f.seats| ensures !Eligible(f, i) {
        assert !Eligible(t, i);
      }
    } else {
      forall j | 0 <= j < |f.seats| && Holds(f.seats, j) && j != f.lead
        ensures !f.seats[j].passed <==> Gap(f.turn, j, |f.seats|) < Gap(f.turn, f.lead, |f.seats|)
      {
        assert Holds(t.seats, j);
      }
    }
  }

  lemma LeavingLeavesNobody(t: Table, s: nat, c: nat)
    requires InRange(t) && s < |t.seats| && c < |t.seats| && NobodyEligible(t)
    ensures NobodyEligible(ForceFinishLast(t, s).(turn := c))
  {
    forall i | 0 <= i < |t.seats| ensures !Eligible(ForceFinishLast(t, s).(turn := c), i) {
      assert !Eligible(t, i);
    }
  }

  /** The seat on turn leaves: the turn lands on a seat from which the arc is right again, or nobody is left to respond. */
  lemma LeavingTurnPassesOn(t: Table, s: nat)
    requires Shape(t) && s == t.turn && s != t.lead && Holds(t.seats, s)
    requires NobodyEligible(t) || Arc(t)
    requires ActiveSet(ForceFinishLast(t, s).seats) != {}
    ensures var f := ForceFinishLast(t, s);
      var f' := f.(turn := NextActiveSeat(f.seats, s));
      Holds(f'.seats, f'.turn) && (NobodyEligible(f') || Arc(f'))
  {
    var f := ForceFinishLast(t, s);
    NextActiveIsNearest(f.seats, s);
    var c := NextActiveSeat(f.seats, s);
    hide NextActiveSeat, Shape;
    if NobodyEligible(t) {
      LeavingLeavesNobody(t, s, c);
    } else {
      LeavingMovesArc(t, f, s, c);
    }
  }

  lemma LeavingMovesArc(t: Table, f: Table, s: nat, c: nat)
    requires InRange(t) && s == t.turn && s != t.lead && c < |t.seats|
    requires f == ForceFinishLast(t, s) && Arc(t)
    requires forall j :: 0 <= j < |t.seats| && Holds(f.seats, j) ==> Off(s, c, |t.seats|) <= Off(s, j, |t.seats|)
    ensures NobodyEligible(f.(turn := c)) || Arc(f.(turn := c))
  {
    var n := |t.seats|;
    assert forall j :: 0 <= j < n && Holds(f.seats, j) ==> j != s && Holds(t.seats, j) && f.seats[j] == t.seats[j];
    if Off(s, c, n) >= Off(s, t.lead, n) {
      assert forall j :: 0 <= j < n ==> !Eligible(f, j);
      assert NobodyEligible(f.(turn := c));
    } else {
      GapFromOffsets(s, c, t.lead, n);
      forall j | 0 <= j < n && Holds(f.seats, j) && j != t.lead
        ensures !f.seats[j].passed <==> Gap(c, j, n) < Gap(c, t.lead, n)
      {
        GapFromOffsets(s, c, j, n);
      }
    }
  }

  /** Resigning or forfeiting keeps the invariant while two players remain. */
  lemma LeavingKeeps(t: Table, s: nat)
    requires Playing(t) && s < |t.seats| && Holds(t.seats, s)
    requires !MaybeFinish(ForceFinishLast(t, s))
    ensures var t' := AfterLeaving(ForceFinishLast(t, s), s);
      && Playing(t')
      && HandCards(t'.seats) + multiset(t.seats[s].hand) == HandCards(t.seats)
      && t'.history == t.history
      && (t'.combo == t.combo || t'.combo == [])
  {
    LeavingFrame(t, s);
    var f := ForceFinishLast(t, s);
    if t.lead == s {
      LeadLeaves(f, s);
    } else {
      SomebodyLeaves(t, s);
    }
  }

  lemma SomebodyLeaves(t: Table, s: nat)
    requires Playing(t) && s < |t.seats| && Holds(t.seats, s) && s != t.lead
    requires !MaybeFinish(ForceFinishLast(t, s))
    ensures var f := ForceFinishLast(t, s);
      var f' := if t.turn == s then f.(turn := NextActiveSeat(f.seats, s)) else f;
      Playing(f')
  {
    hide Playing, Shape, Retired, TrickOk, ComboOnTable, NextActiveSeat, HandCards, Holds;
    PlayingFacts(t);
    LeavingFrame(t, s);
    TurnStays(t, s);
    LeaverRange(t, s);
    var f := ForceFinishLast(t, s);
    assert ActiveSet(f.seats) != {};
    NextActiveIsNearest(f.seats, s);
    LeavingTrickOk(t, s);
    TurnDoesNotMatter(f, NextActiveSeat(f.seats, s));
    PlayingAgain(if t.turn == s then f.(turn := NextActiveSeat(f.seats, s)) else f);
  }

  lemma TurnDoesNotMatter(t: Table, c: nat)
    requires Shape(t) && Retired(t) && c < |t.seats|
    ensures Shape(t.(turn := c)) && Retired(t.(turn := c)) && InRange(t.(turn := c))
  {
  }

  lemma LeaverRange(t: Table, s: nat)
    requires InRange(t) && s < |t.seats|
    ensures var f := ForceFinishLast(t, s); InRange(f) && f.turn == t.turn && |f.seats| == |t.seats|
  {
  }

  lemma TurnStays(t: Table, s: nat)
    requires s < |t.seats| && t.turn < |t.seats| && Holds(t.seats, t.turn)
    ensures t.turn != s ==> Holds(ForceFinishLast(t, s).seats, t.turn)
  {
  }

  lemma LeavingTrickOk(t: Table, s: nat)
    requires Playing(t) && s < |t.seats| && Holds(t.seats, s) && s != t.lead
    requires ActiveSet(ForceFinishLast(t, s).seats) != {}
    ensures var f := ForceFinishLast(t, s);
      TrickOk(if t.turn == s then f.(turn := NextActiveSeat(f.seats, s)) else f)
  {
    var f := ForceFinishLast(t, s);
    if t.combo != [] {
      assert ComboOnTable(f);
      hide ComboOnTable, NextActiveSeat, Retired;
      if t.turn == s {
        LeavingTurnPassesOn(t, s);
      } else {
        LeavingKeepsOthersEligible(t, s);
      }
    }
  }

  lemma LeadLeaves(f: Table, s: nat)
    requires f.status == Active && f.instant == None && Shape(f) && Retired(f) && |ActiveSet(f.seats)| >= 2 && s < |f.seats|
    ensures var t' := ResetTrick(f.(lead := NextActiveSeat(f.seats, s)));
      Playing(t') && HandCards(t'.seats) == HandCards(f.seats) && t'.history == f.history && t'.combo == []
  {
    hide IdentifyCombo, ClassifySorted, Sort, SortSet;
    var g := f.(lead := NextActiveSeat(f.seats, s));
    ResetKeeps(g);
    MarksDoNotMatter(g, ResetTrick(g));
  }

  // ---- skipping and connection marks ----

  lemma FreeSkipKeeps(t: Table)
    requires Playing(t) && t.combo == []
    ensures var t' := AutoSkip(t, t.turn);
      && Playing(t') && t'.seats == t.seats && t'.history == t.history && t'.combo == []
      && t'.turn != t.turn && t'.lead == t'.turn && NearestHolder(t.seats, t.turn, t'.turn)
  {
    NextActiveIsNearest(t.seats, t.turn);
    assert ActiveSet(t.seats) != {t.turn};
    var others := ActiveSet(t.seats) - {t.turn};
    assert (forall x :: x !in others) ==> others == {};
    var k :| k in others;
    assert Holds(t.seats, k) && Off(t.turn, k, |t.seats|) < |t.seats|;
  }

  lemma ConnectionKeeps(t: Table, s: nat, online: bool)
    requires Playing(t) && s < |t.seats|
    ensures var t' := t.(seats := t.seats[s := t.seats[s].(connected := online)]);
      Playing(t') && HandCards(t'.seats) == HandCards(t.seats) && EligibleSet(t') == EligibleSet(t)
  {
    hide Playing, Shape, Retired, ComboOnTable, ActiveSet, HandCards, IdentifyCombo;
    PlayingFacts(t);
    var t' := t.(seats := t.seats[s := t.seats[s].(connected := online)]);
    MarksDoNotMatter(t, t');
    ConnectionTrickOk(t, s, online);
    PlayingAgain(t');
  }

  lemma ConnectionTrickOk(t: Table, s: nat, online: bool)
    requires InRange(t) && TrickOk(t) && s < |t.seats|
    ensures var t' := t.(seats := t.seats[s := t.seats[s].(connected := online)]);
      TrickOk(t') && EligibleSet(t') == EligibleSet(t)
  {
    hide IdentifyCombo, Gap;
    var t' := t.(seats := t.seats[s := t.seats[s].(connected := online)]);
    forall i | 0 <= i < |t.seats| ensures Eligible(t', i) <==> Eligible(t, i) {
    }
    assert t.combo != [] ==> (ComboOnTable(t') <==> ComboOnTable(t));
    if t.combo != [] && Arc(t) {
      assert Arc(t');
    }
  }
}
