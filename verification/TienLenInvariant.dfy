/**
 * What every reachable Tien Len table satisfies, and the lemmas that each trick mechanism
 * keeps it.
 */
module TienLenInvariant {
  import opened Wrappers
  import opened Sorting
  import opened TienLenLogic
  import opened TienLenTable

  // ---- clockwise distances ----

  /** Clockwise steps from seat `a` to seat `b`. */
  ghost function Gap(a: nat, b: nat, n: nat): nat
    requires a < n && b < n
  {
    if a <= b then b - a else b - a + n
  }

  /** The position, 1 to n, at which a scan starting after `from` reaches seat `j`. */
  ghost function Off(from: nat, j: nat, n: nat): nat
    requires from < n && j < n
  {
    if j == from then n else Gap(from, j, n)
  }

  lemma AtPosition(from: nat, i: nat, n: nat)
    requires from < n && 1 <= i <= n
    ensures At(from, i, n) < n
    ensures Off(from, At(from, i, n), n) == i
  {
    if from + i >= n {
      WrapsOnce(from + i, n);
    }
  }

  lemma WrapsOnce(x: nat, n: nat)
    requires 0 < n <= x < 2 * n
    ensures x % n == x - n
  {
    var q, r := x / n, x % n;
    assert x == n * q + r && r < n;
    assert q >= 2 ==> n * q >= n * 2;
    assert q <= 0 ==> n * q <= 0;
  }

  lemma GapFromOffsets(from: nat, c: nat, j: nat, n: nat)
    requires from < n && c < n && j < n && Off(from, c, n) <= Off(from, j, n)
    ensures Gap(c, j, n) == Off(from, j, n) - Off(from, c, n)
  {
  }

  // ---- who may still respond ----

  /** A seat that holds cards, has not passed and does not own the combo on the table. */
  ghost predicate Eligible(t: Table, i: nat)
    requires i < |t.seats|
  {
    Holds(t.seats, i) && !t.seats[i].passed && i != t.lead
  }

  ghost predicate NobodyEligible(t: Table) {
    forall i :: 0 <= i < |t.seats| ==> !Eligible(t, i)
  }

  /** Among the other seats with cards, exactly those on the arc from `turn` up to `lead` have not passed. */
  ghost predicate Arc(t: Table)
    requires InRange(t)
  {
    var n := |t.seats|;
    forall j :: 0 <= j < n && Holds(t.seats, j) && j != t.lead ==>
      (!t.seats[j].passed <==> Gap(t.turn, j, n) < Gap(t.turn, t.lead, n))
  }

  /** The same, as a scan starting after seat `from` sees it. */
  ghost predicate ArcFrom(t: Table, from: nat)
    requires InRange(t) && from < |t.seats|
  {
    var n := |t.seats|;
    forall j :: 0 <= j < n && Holds(t.seats, j) && j != t.lead ==>
      (!t.seats[j].passed <==> Off(from, j, n) < Off(from, t.lead, n))
  }

  // ---- the invariant ----

  ghost predicate Shape(t: Table) {
    && |t.seats| >= 2
    && InRange(t)
    && (forall i :: 0 <= i < |t.seats| ==> GoodHand(t.seats[i]))
    && (forall i, j :: 0 <= i < j < |t.seats| ==> t.seats[i].user != t.seats[j].user)
  }

  ghost predicate GoodHand(s: Seat) {
    && s.handCount == |s.hand|
    && Increasing(s.hand)
    && forall c :: c in s.hand ==> 0 <= c < DECK_SIZE
  }

  /** The empty-handed seats are split between `finishOrder` and `resigned`, each once. */
  ghost predicate Retired(t: Table) {
    && Distinct(t.finishOrder)
    && Distinct(t.resigned)
    && (forall x :: x in t.finishOrder ==> x !in t.resigned)
    && (forall x :: x in t.finishOrder || x in t.resigned <==> 0 <= x < |t.seats| && t.seats[x].handCount == 0)
  }

  /** The latest play of the history, passes aside. */
  ghost function LastPlay(history: seq<Move>): Option<Move> {
    if history == [] then None
    else if history[|history| - 1].cards != [] then Some(history[|history| - 1])
    else LastPlay(history[..|history| - 1])
  }

  /** The combo on the table is recognised and is the latest play, made by `lead`. */
  ghost predicate ComboOnTable(t: Table) {
    && IdentifyCombo(t.combo).Some?
    && IdentifyCombo(t.combo).value.cards == t.combo
    && LastPlay(t.history).Some?
    && LastPlay(t.history).value.seat == t.lead
    && LastPlay(t.history).value.cards == t.combo
  }

  ghost predicate TrickOk(t: Table)
    requires InRange(t)
  {
    if t.combo == [] then forall i :: 0 <= i < |t.seats| ==> !t.seats[i].passed
    else ComboOnTable(t) && (NobodyEligible(t) || Arc(t))
  }

  ghost predicate Playing(t: Table) {
    && t.status == Active
    && t.instant == None
    && Shape(t)
    && Retired(t)
    && |ActiveSet(t.seats)| >= 2
    && Holds(t.seats, t.turn)
    && TrickOk(t)
  }

  lemma PlayingFacts(t: Table)
    requires Playing(t)
    ensures t.status == Active && t.instant == None && Shape(t) && Retired(t) && |ActiveSet(t.seats)| >= 2
    ensures InRange(t) && Holds(t.seats, t.turn) && TrickOk(t)
    ensures t.combo != [] ==> ComboOnTable(t) && (NobodyEligible(t) || Arc(t))
  {
  }

  lemma PlayingAgain(t: Table)
    requires t.status == Active && t.instant == None && Shape(t) && Retired(t) && |ActiveSet(t.seats)| >= 2
    requires InRange(t) && Holds(t.seats, t.turn) && TrickOk(t)
    ensures Playing(t)
  {
  }

  // ---- scans ----

  lemma {:induction false} NextActiveSpec(seats: seq<Seat>, from: nat, i: nat)
    requires from < |seats| && 1 <= i <= |seats| + 1
    ensures var n := |seats|; var c := NextActiveFrom(seats, from, i);
      (exists j :: 0 <= j < n && Holds(seats, j) && Off(from, j, n) >= i) ==>
        && Holds(seats, c)
        && forall j :: 0 <= j < n && Holds(seats, j) && Off(from, j, n) >= i ==> Off(from, c, n) <= Off(from, j, n)
    decreases |seats| + 1 - i
  {
    if i <= |seats| {
      AtPosition(from, i, |seats|);
      NextActiveSpec(seats, from, i + 1);
      forall j | 0 <= j < |seats| && Off(from, j, |seats|) == i ensures j == At(from, i, |seats|) {
      }
    }
  }

  /** Seat `c` holds cards and no other seat after `from`, clockwise, that does is nearer. */
  ghost predicate NearestHolder(seats: seq<Seat>, from: nat, c: nat)
    requires from < |seats|
  {
    && c < |seats| && Holds(seats, c)
    && forall j :: 0 <= j < |seats| && Holds(seats, j) ==> Off(from, c, |seats|) <= Off(from, j, |seats|)
  }

  /** The next seat with cards is the nearest one clockwise. */
  lemma NextActiveIsNearest(seats: seq<Seat>, from: nat)
    requires from < |seats| && ActiveSet(seats) != {}
    ensures NearestHolder(seats, from, NextActiveSeat(seats, from))
  {
    NextActiveSpec(seats, from, 1);
    assert (forall x :: x !in ActiveSet(seats)) ==> ActiveSet(seats) == {};
    var k :| k in ActiveSet(seats);
    assert Holds(seats, k) && Off(from, k, |seats|) >= 1;
  }

  lemma {:induction false} ResponderSpec(t: Table, from: nat, i: nat)
    requires InRange(t) && from < |t.seats| && 1 <= i <= |t.seats| + 1
    ensures var n := |t.seats|;
      match Responder(t.seats, t.lead, from, i)
      case Some(c) =>
        && Eligible(t, c)
        && forall j :: 0 <= j < n && Eligible(t, j) && Off(from, j, n) >= i ==> Off(from, c, n) <= Off(from, j, n)
      case None =>
        forall j :: 0 <= j < n && Eligible(t, j) && Off(from, j, n) >= i ==>
          Holds(t.seats, t.lead) && i <= Off(from, t.lead, n) < Off(from, j, n)
    decreases |t.seats| + 1 - i
  {
    if i <= |t.seats| {
      AtPosition(from, i, |t.seats|);
      forall j | 0 <= j < |t.seats| && Off(from, j, |t.seats|) == i ensures j == At(from, i, |t.seats|) {
      }
      var cand := At(from, i, |t.seats|);
      if !(Holds(t.seats, cand) && (cand == t.lead || !t.seats[cand].passed)) {
        ResponderSpec(t, from, i + 1);
      }
    }
  }

  // ---- ending a trick ----

  lemma ResetKeeps(t: Table)
    requires t.status == Active && t.instant == None && Shape(t) && Retired(t) && |ActiveSet(t.seats)| >= 2
    ensures Playing(ResetTrick(t))
    ensures ResetTrick(t).combo == []
  {
    var seats := ClearPasses(t.seats);
    assert ActiveSet(seats) == ActiveSet(t.seats);
    NextActiveIsNearest(seats, t.lead);
  }

  lemma ArcMovesOn(t: Table, from: nat, c: nat)
    requires InRange(t) && from < |t.seats| && c < |t.seats|
    requires ArcFrom(t, from) && Eligible(t, c)
    requires forall j :: 0 <= j < |t.seats| && Eligible(t, j) ==> Off(from, c, |t.seats|) <= Off(from, j, |t.seats|)
    ensures Arc(t.(turn := c))
  {
    var n := |t.seats|;
    GapFromOffsets(from, c, t.lead, n);
    forall j | 0 <= j < n && Holds(t.seats, j) && j != t.lead
      ensures !t.seats[j].passed <==> Gap(c, j, n) < Gap(c, t.lead, n)
    {
      if !t.seats[j].passed {
        assert Eligible(t, j);
      }
      GapFromOffsets(from, c, j, n);
    }
  }

  lemma ArcSurvivesTurn(t: Table, c: nat)
    requires InRange(t) && c < |t.seats| && t.combo != [] && ComboOnTable(t) && Eligible(t, c)
    requires Arc(t.(turn := c))
    ensures TrickOk(t.(turn := c))
  {
  }

  /** Moving the turn on keeps the invariant, and ends the trick exactly when nobody may respond. */
  lemma AdvanceKeeps(t: Table, from: nat)
    requires t.status == Active && t.instant == None && Shape(t) && Retired(t) && |ActiveSet(t.seats)| >= 2
    requires from < |t.seats| && t.combo != [] && ComboOnTable(t)
    requires NobodyEligible(t) || ArcFrom(t, from)
    ensures Playing(AdvanceTurn(t, from))
    ensures AdvanceTurn(t, from).combo == [] <==> NobodyEligible(t)
    ensures !NobodyEligible(t) ==>
      && AdvanceTurn(t, from) == t.(turn := AdvanceTurn(t, from).turn)
      && Eligible(t, AdvanceTurn(t, from).turn)
  {
    ResponderSpec(t, from, 1);
    match Responder(t.seats, t.lead, from, 1)
    case None =>
      assert NobodyEligible(t);
      ResetKeeps(t);
    case Some(c) =>
      ArcMovesOn(t, from, c);
      ArcSurvivesTurn(t, c);
  }

  /** Seat `c` may respond and no seat after `from`, clockwise, that may is nearer. */
  ghost predicate NearestResponder(t: Table, from: nat, c: nat)
    requires from < |t.seats|
  {
    && c < |t.seats| && Eligible(t, c)
    && forall j :: 0 <= j < |t.seats| && Eligible(t, j) ==> Off(from, c, |t.seats|) <= Off(from, j, |t.seats|)
  }

  /**
   * Who moves next: while somebody may respond, the nearest of them and nothing else changes;
   * else the trick is cleared, every pass forgotten, and the lead leads, or if their hand is
   * empty the nearest seat after them that holds cards.
   */
  lemma NextToMove(t: Table, from: nat)
    requires Shape(t) && |ActiveSet(t.seats)| >= 2 && from < |t.seats| && t.combo != []
    requires NobodyEligible(t) || ArcFrom(t, from)
    ensures !NobodyEligible(t) ==>
      && NearestResponder(t, from, AdvanceTurn(t, from).turn)
      && AdvanceTurn(t, from) == t.(turn := AdvanceTurn(t, from).turn)
    ensures NobodyEligible(t) ==>
      var t' := AdvanceTurn(t, from);
      && t' == t.(combo := [], seats := ClearPasses(t.seats), turn := t'.turn)
      && if Holds(t.seats, t.lead) then t'.turn == t.lead else NearestHolder(t.seats, t.lead, t'.turn)
  {
    hide NobodyEligible, ArcFrom, AdvanceTurn, ActiveSet, Off;
    if NobodyEligible(t) {
      TrickEnds(t, from);
    } else {
      NextResponds(t, from);
    }
  }

  lemma NextResponds(t: Table, from: nat)
    requires Shape(t) && from < |t.seats| && ArcFrom(t, from) && !NobodyEligible(t)
    ensures NearestResponder(t, from, AdvanceTurn(t, from).turn)
    ensures AdvanceTurn(t, from) == t.(turn := AdvanceTurn(t, from).turn)
  {
    ResponderSpec(t, from, 1);
    var k :| 0 <= k < |t.seats| && Eligible(t, k);
    assert Responder(t.seats, t.lead, from, 1).Some?;
  }

  lemma TrickEnds(t: Table, from: nat)
    requires Shape(t) && |ActiveSet(t.seats)| >= 2 && from < |t.seats| && NobodyEligible(t)
    ensures var t' := AdvanceTurn(t, from);
      && t' == t.(combo := [], seats := ClearPasses(t.seats), turn := t'.turn)
      && if Holds(t.seats, t.lead) then t'.turn == t.lead else NearestHolder(t.seats, t.lead, t'.turn)
  {
    ResponderSpec(t, from, 1);
    assert Responder(t.seats, t.lead, from, 1) == None;
    var seats := ClearPasses(t.seats);
    assert forall i :: 0 <= i < |seats| ==> Holds(seats, i) == Holds(t.seats, i);
    assert ActiveSet(seats) == ActiveSet(t.seats);
    NextActiveIsNearest(seats, t.lead);
  }
}
