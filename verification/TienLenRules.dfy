/**
 * What the rules of Tien Len come to on every reachable table: exactly which plays are
 * accepted, that a trick only climbs, which chops are recorded, and that a fresh deal starts
 * a reachable game.
 */
module TienLenRules {
  import opened Wrappers
  import opened Sorting
  import opened Ranking
  import opened TienLenLogic
  import opened TienLenDeck
  import opened TienLenTable
  import opened TienLenInvariant
  import opened TienLenMoves
  import opened TienLenFinish
  import opened TienLenRuns

  /** The combo on the table, as recognised. */
  ghost function TableCombo(t: Table): Combo
    requires Playing(t) && t.combo != []
  {
    IdentifyCombo(t.combo).value
  }

  /** A legal play, with no exception for the opening. */
  ghost predicate Legal(t: Table, user: UserId, cards: seq<Card>) {
    && Playing(t)
    && user == t.seats[t.turn].user
    && IdentifyCombo(cards).Some?
    && Distinct(cards)
    && multiset(cards) <= multiset(t.seats[t.turn].hand)
    && (t.combo == [] || Beats(IdentifyCombo(cards).value, TableCombo(t)))
  }

  lemma OpeningTableIsEmpty(t: Table)
    requires Playing(t) && t.history == []
    ensures t.combo == []
  {
  }

  /** What `Play` checks, in one line. */
  lemma PlayChecks(t: Table, user: UserId, cards: seq<Card>)
    requires InRange(t)
    ensures Play(t, user, cards).Success? <==>
      t.status == Active && FindSeat(t.seats, user) == Some(t.turn)
      && cards != [] && IdentifyCombo(cards).Some?
      && (t.history == [] || CurrentCombo(t).None? || CanBeat(IdentifyCombo(cards).value, CurrentCombo(t).value))
      && RemoveCards(t.seats[t.turn].hand, cards).Some?
  {
    hide IdentifyCombo, RemoveCards, CanBeat, RecordChop, ApplyPlay, FinishIfOver, CurrentCombo, FindSeat;
  }

  lemma TurnIsUsers(t: Table, user: UserId)
    requires Playing(t)
    ensures FindSeat(t.seats, user) == Some(t.turn) <==> user == t.seats[t.turn].user
  {
    SeatOfUser(t, t.turn);
  }

  lemma TableComboIs(t: Table)
    requires Playing(t)
    ensures t.combo != [] ==> CurrentCombo(t) == Some(TableCombo(t))
    ensures t.combo == [] ==> CurrentCombo(t) == None
  {
  }

  lemma NothingIsNoCombo()
    ensures IdentifyCombo([]).None?
  {
  }

  lemma ReachableInRange(t: Table)
    requires Reachable(t)
    ensures InRange(t) && (Playing(t) <==> t.status == Active)
  {
    hide Shape, Retired, TrickOk, ActiveSet;
    assert Shape(t);
    ShapeInRange(t);
  }

  lemma ShapeInRange(t: Table)
    requires Shape(t)
    ensures InRange(t)
  {
  }

  /** On a reachable table the service accepts exactly the legal plays; its waiver for the opening play decides nothing. */
  lemma PlayAcceptedIffLegal(t: Table, user: UserId, cards: seq<Card>)
    requires Reachable(t)
    ensures Play(t, user, cards).Success? <==> Legal(t, user, cards)
  {
    ReachableInRange(t);
    PlayChecks(t, user, cards);
    hide *;
    if Playing(t) {
      LegalMeans(t, user, cards);
    } else {
      OnlyPlayingIsLegal(t, user, cards);
    }
  }

  lemma OnlyPlayingIsLegal(t: Table, user: UserId, cards: seq<Card>)
    ensures Legal(t, user, cards) ==> Playing(t)
  {
  }

  lemma LegalMeans(t: Table, user: UserId, cards: seq<Card>)
    requires Playing(t) && InRange(t) && t.status == Active
    ensures Legal(t, user, cards) <==>
      t.status == Active && FindSeat(t.seats, user) == Some(t.turn)
      && cards != [] && IdentifyCombo(cards).Some?
      && (t.history == [] || CurrentCombo(t).None? || CanBeat(IdentifyCombo(cards).value, CurrentCombo(t).value))
      && RemoveCards(t.seats[t.turn].hand, cards).Some?
  {
    hide IdentifyCombo, RemoveCards, CanBeat, Beats, Playing, Distinct, FindSeat, CurrentCombo, TableCombo, Recognised;
    TurnIsUsers(t, user);
    TableComboIs(t);
    NothingIsNoCombo();
    RemovalRefusesRepeats(t.seats[t.turn].hand, cards);
    if t.history == [] {
      OpeningTableIsEmpty(t);
    }
    if t.combo != [] && IdentifyCombo(cards).Some? {
      TableBeaten(t, cards);
    }
  }

  lemma TableBeaten(t: Table, cards: seq<Card>)
    requires Playing(t) && t.combo != [] && IdentifyCombo(cards).Some?
    ensures CurrentCombo(t) == Some(TableCombo(t))
    ensures CanBeat(IdentifyCombo(cards).value, TableCombo(t)) <==> Beats(IdentifyCombo(cards).value, TableCombo(t))
  {
    TableComboIs(t);
    CanBeatIff(IdentifyCombo(cards).value, TableCombo(t));
    hide CanBeat, Beats, Playing, Sort;
  }

  /** An accepted play naming a card twice does not exist. */
  lemma RepeatedCardRefused(t: Table, user: UserId, cards: seq<Card>, i: nat, j: nat)
    requires Reachable(t) && i < j < |cards| && cards[i] == cards[j]
    ensures Play(t, user, cards).Failure?
  {
    PlayAcceptedIffLegal(t, user, cards);
  }

  /** Within a trick every accepted play outranks the one before it. */
  lemma TrickClimbs(t: Table, user: UserId, cards: seq<Card>)
    requires Playing(t) && t.combo != [] && Play(t, user, cards).Success?
    ensures Outranks(IdentifyCombo(cards).value, TableCombo(t))
  {
    hide *;
    PlayBeats(t, user, cards);
    TableRecognised(t);
    BeatRaisesRank(IdentifyCombo(cards).value, TableCombo(t));
  }

  lemma TableRecognised(t: Table)
    requires Playing(t) && t.combo != []
    ensures Recognised(TableCombo(t))
  {
    hide IdentifyCombo, Recognised, Shape, Retired;
  }

  /** In every run, at any point: the combo on the table is the latest play, a combo, and its maker owns the trick. */
  lemma LeadOwnsCombo(t: Table, events: seq<Event>)
    requires Reachable(t)
    ensures var end := Run(t, events);
      end.status == Active && end.combo != [] ==>
        && LastPlay(end.history).Some? && LastPlay(end.history).value.cards == end.combo
        && LastPlay(end.history).value.seat == end.lead
        && IdentifyCombo(end.combo).Some? && IdentifyCombo(end.combo).value.cards == end.combo
  {
    hide *;
    ProgressIsBounded(t, events);
    var end := Run(t, events);
    ReachableInRange(end);
    if Playing(end) && end.combo != [] {
      ComboIsLastPlay(end);
    }
  }

  lemma ComboIsLastPlay(t: Table)
    requires Playing(t) && t.combo != []
    ensures LastPlay(t.history).Some? && LastPlay(t.history).value.seat == t.lead
    ensures LastPlay(t.history).value.cards == t.combo
    ensures IdentifyCombo(t.combo).Some? && IdentifyCombo(t.combo).value.cards == t.combo
  {
  }

  /** After an accepted play everybody else with cards may respond, and the nearest of them is on turn. */
  lemma PlayHandsOn(t: Table, cards: seq<Card>, combo: Combo, newHand: seq<Card>)
    requires Playing(t) && Playable(t, t.turn, cards, combo, newHand)
    requires |ActiveSet(PutDown(t, t.turn, combo, newHand).seats)| >= 2
    ensures var p, t' := PutDown(t, t.turn, combo, newHand), ApplyPlay(t, t.turn, combo, newHand);
      && InRange(p) && p.lead == t.turn && |p.seats| == |t.seats|
      && (forall i :: 0 <= i < |p.seats| ==> (Eligible(p, i) <==> Holds(p.seats, i) && i != t.turn))
      && NearestResponder(p, t.turn, t'.turn)
      && t' == p.(turn := t'.turn)
  {
    var p := PutDown(t, t.turn, combo, newHand);
    PlayingFacts(t);
    PutDownSeats(t, t.turn, combo, newHand);
    PutDownShape(t, t.turn, cards, combo, newHand);
    PutDownOpensTrick(t, t.turn, combo, newHand);
    RecognisedNotEmpty(t, t.turn, cards, combo, newHand);
    OthersHold(p, t.turn);
    hide Shape, Retired, TrickOk, PutDown, ActiveSet, IdentifyCombo, AdvanceTurn;
    NextToMove(p, t.turn);
  }

  lemma RecognisedNotEmpty(t: Table, s: nat, cards: seq<Card>, combo: Combo, newHand: seq<Card>)
    requires Playing(t) && Playable(t, s, cards, combo, newHand)
    ensures combo.cards != []
  {
    NewHandIsGood(t, s, cards, combo, newHand);
  }

  lemma OthersHold(t: Table, s: nat)
    requires |ActiveSet(t.seats)| >= 2
    ensures exists i :: 0 <= i < |t.seats| && Holds(t.seats, i) && i != s
  {
    var others := ActiveSet(t.seats) - {s};
    assert |others| >= 1;
    assert (forall x :: x !in others) ==> others == {};
    var k :| k in others;
    assert Holds(t.seats, k) && k != s;
  }

  /** Who moves after a pass: the nearest seat that may still respond, else the winner of the trick. */
  lemma PassHandsOn(t: Table)
    requires Playing(t) && t.combo != []
    ensures var p, t' := MarkPassed(t, t.turn), ApplyPass(t, t.turn);
      && |p.seats| == |t.seats| && p.lead == t.lead
      && (forall i :: 0 <= i < |p.seats| ==> (Eligible(p, i) <==> Eligible(t, i) && i != t.turn))
      && (!NobodyEligible(p) ==> NearestResponder(p, t.turn, t'.turn) && t' == p.(turn := t'.turn))
      && (NobodyEligible(p) ==>
           && t' == p.(combo := [], seats := ClearPasses(p.seats), turn := t'.turn)
           && if Holds(t.seats, t.lead) then t'.turn == t.lead else NearestHolder(t.seats, t.lead, t'.turn))
  {
    hide Shape, Retired, TrickOk, ActiveSet, AdvanceTurn, NobodyEligible, Arc, ArcFrom, ComboOnTable;
    PlayingFacts(t);
    MarkPassedRange(t, t.turn);
    MarkPassedFrame(t, t.turn);
    MarkPassedEligible(t, t.turn);
    NextToMove(MarkPassed(t, t.turn), t.turn);
  }

  /**
   * Who moves after somebody left: the trick is dead if they owned its combo and the nearest
   * seat leads; if they were only on turn it goes to the nearest seat; otherwise nothing moves.
   */
  lemma LeavingHandsOn(t: Table, s: nat)
    requires Playing(t) && s < |t.seats| && Holds(t.seats, s)
    requires !MaybeFinish(ForceFinishLast(t, s))
    ensures var f, t' := ForceFinishLast(t, s), AfterLeaving(ForceFinishLast(t, s), s);
      && (t.lead == s ==> t'.combo == [] && t'.turn == t'.lead && NearestHolder(f.seats, s, t'.lead))
      && (t.lead != s && t.turn == s ==> t' == f.(turn := t'.turn) && NearestHolder(f.seats, s, t'.turn))
      && (t.lead != s && t.turn != s ==> t' == f)
  {
    hide Playing, Shape, Retired, TrickOk, ComboOnTable, HandCards;
    PlayingFacts(t);
    LeavingFrame(t, s);
    var f := ForceFinishLast(t, s);
    assert ActiveSet(f.seats) != {};
    NextActiveIsNearest(f.seats, s);
  }

  /** The combo answers another player's twos with a combo of a different kind. */
  ghost predicate Chops(t: Table, combo: Combo)
    requires Playing(t)
  {
    && t.combo != []
    && (IsSingleTwo(TableCombo(t)) || IsPairTwo(TableCombo(t)))
    && combo.kind != TableCombo(t).kind
    && t.lead != t.turn
  }

  lemma HeoUnderBomb(t: Table, combo: Combo)
    requires Playing(t) && Recognised(combo)
    requires t.combo != [] ==> CanBeat(combo, TableCombo(t))
    ensures t.lead != t.turn ==>
      ChoppedHeoCards(combo, CurrentCombo(t)) == if Chops(t, combo) then t.combo else []
  {
    if t.combo != [] {
      var table := TableCombo(t);
      if IsSingleTwo(table) || IsPairTwo(table) {
        ChopsAllTwosOrNone(combo, table);
      }
    }
    hide IdentifyCombo, CanBeat, Recognised, Shape, Retired, Twos, IsBomb;
  }

  lemma VictimIsAnother(t: Table)
    requires Playing(t)
    ensures t.seats[t.lead].user != t.seats[t.turn].user <==> t.lead != t.turn
  {
  }

  ghost function ChopOf(t: Table, heo: seq<Card>): Chop
    requires InRange(t)
  {
    Chop(t.seats[t.turn].user, t.seats[t.lead].user, |heo|, |heo| - RedCount(heo), RedCount(heo))
  }

  lemma RecordChopOf(t: Table, combo: Combo)
    requires InRange(t)
    ensures var heo := ChoppedHeoCards(combo, CurrentCombo(t));
      RecordChop(t, t.seats[t.turn].user, combo).chops ==
        if heo != [] && t.seats[t.lead].user != t.seats[t.turn].user then t.chops + [ChopOf(t, heo)] else t.chops
  {
    hide ChoppedHeoCards, CurrentCombo;
  }

  lemma RecordChopExactly(t: Table, combo: Combo)
    requires Playing(t) && Recognised(combo)
    requires t.combo != [] ==> CanBeat(combo, TableCombo(t))
    ensures RecordChop(t, t.seats[t.turn].user, combo).chops ==
      if Chops(t, combo) then t.chops + [ChopOf(t, t.combo)] else t.chops
  {
    HeoUnderBomb(t, combo);
    VictimIsAnother(t);
    RecordChopOf(t, combo);
    NoChopOnEmpty(t, combo);
    assert InRange(t);
    hide *;
  }

  lemma NoChopOnEmpty(t: Table, combo: Combo)
    requires Playing(t)
    ensures Chops(t, combo) ==> t.combo != [] && t.lead != t.turn
  {
  }

  /**
   * A chop is recorded exactly when the play answers another player's twos with a combo of a
   * different kind, and then it counts every two on the table.
   */
  lemma ChopRecordedExactly(t: Table, user: UserId, cards: seq<Card>)
    requires Playing(t) && Play(t, user, cards).Success?
    ensures Play(t, user, cards).value.chops ==
      if Chops(t, IdentifyCombo(cards).value) then t.chops + [ChopOf(t, t.combo)] else t.chops
  {
    hide Play, IdentifyCombo, RemoveCards, RecordChop, CanBeat, Shape, TrickOk, Retired, ApplyPlay, FinishIfOver, Chops, Recognised;
    PlayingFacts(t);
    var combo, newHand := AcceptedPlay(t, user, cards);
    PlayBeats(t, user, cards);
    RecordChopExactly(t, combo);
    ChopsDoNotMatter(t, user, combo);
    ChopsKept(RecordChop(t, user, combo), t.turn, combo, newHand);
  }

  lemma PlayBeats(t: Table, user: UserId, cards: seq<Card>)
    requires Playing(t) && Play(t, user, cards).Success?
    ensures IdentifyCombo(cards).Some? && Recognised(IdentifyCombo(cards).value)
    ensures t.combo != [] ==> CanBeat(IdentifyCombo(cards).value, TableCombo(t))
  {
    PlayAcceptedIffLegal(t, user, cards);
    hide Play, Playing, Beats, CanBeat;
    if t.combo != [] {
      TableBeaten(t, cards);
    }
  }

  lemma ChopsKept(t: Table, s: nat, combo: Combo, newHand: seq<Card>)
    requires InRange(t) && s < |t.seats|
    ensures FinishIfOver(ApplyPlay(t, s, combo, newHand)).chops == t.chops
  {
    AdvanceFrame(PutDown(t, s, combo, newHand), s);
    hide AdvanceTurn, FinalOrder;
  }

  // ---- the start ----

  lemma NewTablePlaying(users: seq<UserId>, hands: seq<seq<Card>>, starter: nat)
    requires |users| == |hands| && 2 <= |users| <= 4 && Distinct(users) && GoodDeal(hands) && starter < |users|
    ensures Playing(NewTable(users, hands, starter))
  {
    var t := NewTable(users, hands, starter);
    assert forall i :: 0 <= i < |t.seats| ==> GoodHand(t.seats[i]);
    assert 0 in ActiveSet(t.seats) && 1 in ActiveSet(t.seats);
    SubsetSize({0, 1}, ActiveSet(t.seats));
  }

  /** On a fresh deal the starter may put down any combo they hold. */
  lemma OpeningTakesAnyCombo(users: seq<UserId>, hands: seq<seq<Card>>, starter: nat, cards: seq<Card>)
    requires |users| == |hands| && 2 <= |users| <= 4 && Distinct(users) && GoodDeal(hands) && starter < |users|
    ensures Play(NewTable(users, hands, starter), users[starter], cards).Success? <==>
      IdentifyCombo(cards).Some? && Distinct(cards) && multiset(cards) <= multiset(hands[starter])
  {
    var t := NewTable(users, hands, starter);
    NewTablePlaying(users, hands, starter);
    hide Playing, IdentifyCombo, GoodDeal;
    PlayAcceptedIffLegal(t, users[starter], cards);
  }

  /** In particular one without the lowest card dealt: their highest card alone is accepted. */
  lemma OpeningWithoutLowestCard(users: seq<UserId>, hands: seq<seq<Card>>, starter: nat)
    requires |users| == |hands| && 2 <= |users| <= 4 && Distinct(users) && GoodDeal(hands) && starter < |users|
    ensures |hands[starter]| == 13 && hands[starter][0] !in [hands[starter][12]]
    ensures Play(NewTable(users, hands, starter), users[starter], [hands[starter][12]]).Success?
  {
    var c := hands[starter][12];
    SingleIsRecognised(c);
    OpeningTakesAnyCombo(users, hands, starter, [c]);
    hide IdentifyCombo, NewTable, Play;
    assert c in multiset(hands[starter]);
  }

  lemma HandOnce(hand: seq<Card>, c: Card)
    requires Increasing(hand)
    ensures multiset(hand)[c] == if c in hand then 1 else 0
  {
    IncreasingIsDistinct(hand);
    DistinctMultiset(hand);
  }

  /** The deal puts each of its cards into play once and no other card. */
  lemma {:induction false} DealtOnce(seats: seq<Seat>, c: Card)
    requires forall k :: 0 <= k < |seats| ==> Increasing(seats[k].hand)
    requires forall k, l :: 0 <= k < l < |seats| && c in seats[k].hand ==> c !in seats[l].hand
    ensures HandCards(seats)[c] == if exists k :: 0 <= k < |seats| && c in seats[k].hand then 1 else 0
  {
    hide Increasing;
    if seats != [] {
      var last := |seats| - 1;
      HandOnce(seats[last].hand, c);
      DealtOnce(seats[..last], c);
      if k :| 0 <= k < last && c in seats[..last][k].hand {
        assert c in seats[k].hand;
      }
    }
  }

  lemma NewTableCards(users: seq<UserId>, hands: seq<seq<Card>>, starter: nat)
    requires |users| == |hands| && GoodDeal(hands)
    ensures forall c :: InPlay(NewTable(users, hands, starter))[c] <= 1
  {
    var t := NewTable(users, hands, starter);
    forall c ensures InPlay(t)[c] <= 1 {
      DealtOnce(t.seats, c);
    }
  }

  lemma InstantOrderPlacesAll(n: nat, winner: nat)
    requires winner < n
    ensures Distinct(InstantOrder(n, winner))
    ensures forall x :: x in InstantOrder(n, winner) <==> 0 <= x < n
    ensures |InstantOrder(n, winner)| == n && InstantOrder(n, winner)[0] == winner
    ensures forall i, j :: 1 <= i < j < n ==> InstantOrder(n, winner)[i] < InstantOrder(n, winner)[j]
  {
    var order := InstantOrder(n, winner);
    assert forall i :: 0 <= i < n ==> order[i] == if i == 0 then winner else if i <= winner then i - 1 else i;
    forall x ensures x in order <==> 0 <= x < n {
      if 0 <= x < n {
        assert order[if x == winner then 0 else if x < winner then x + 1 else x] == x;
      }
    }
  }

  /** A deal decided at once leaves a finished table that places the winner first and the others in seat order. */
  lemma InstantWinIsOver(users: seq<UserId>, hands: seq<seq<Card>>, starter: nat, winner: nat, kind: InstantWin)
    requires |users| == |hands| && 2 <= |users| <= 4 && Distinct(users) && GoodDeal(hands) && starter < |users|
    requires winner < |users|
    ensures var f := FinishInstantWin(NewTable(users, hands, starter), winner, kind);
      && Over(f) && f.instant == Some(kind)
      && |f.finishOrder| == |users| && f.finishOrder[0] == winner
      && (forall i, j :: 1 <= i < j < |users| ==> f.finishOrder[i] < f.finishOrder[j])
      && forall i :: 0 <= i < |users| ==> f.seats[i].user == users[i] && f.seats[i].hand == hands[i]
  {
    InstantOrderPlacesAll(|users|, winner);
    var f := FinishInstantWin(NewTable(users, hands, starter), winner, kind);
    hide InstantOrder, IndexOf;
    assert forall i :: 0 <= i < |f.seats| ==> GoodHand(f.seats[i]);
  }
}
