/**
 * The Tien Len table as a value, and what each service operation does to it
 * (src/games/tienlen/tienlen.service.ts). The class TienLenGame performs these operations
 * in place; the functions here are what its methods are proved to compute.
 */
module TienLenTable {
  import opened Wrappers
  import opened Sorting
  import opened Ranking
  import opened TienLenLogic
  import opened TienLenDeck

  type UserId = nat

  datatype Seat = Seat(
    user: UserId,
    hand: seq<Card>,
    handCount: nat,
    finishedRank: int,
    passed: bool,
    connected: bool)

  /** An entry of the history: a play, or a pass when `cards` is empty. */
  datatype Move = Move(seat: nat, user: UserId, cards: seq<Card>)

  datatype Chop = Chop(chopper: UserId, victim: UserId, heoCount: nat, black: nat, red: nat)

  datatype Status = Active | Finished

  datatype Table = Table(
    status: Status,
    seats: seq<Seat>,
    turn: nat,
    lead: nat,
    combo: seq<Card>,
    history: seq<Move>,
    finishOrder: seq<int>,
    resigned: seq<int>,
    chops: seq<Chop>,
    instant: Option<InstantWin>)

  datatype Error =
    | NotActive | NotAPlayer | NotYourTurn | NoCards | InvalidCombination
    | DoesNotBeat | MissingCards | MustLead | AlreadyFinished

  /** Every stored seat number is a seat of the table. */
  predicate InRange(t: Table) {
    |t.seats| > 0 && t.turn < |t.seats| && t.lead < |t.seats|
  }

  // ---- seats and circular scans ----

  predicate Holds(seats: seq<Seat>, i: nat)
    requires i < |seats|
  {
    seats[i].handCount > 0
  }

  function ActiveSet(seats: seq<Seat>): set<nat> {
    set i | 0 <= i < |seats| && seats[i].handCount > 0
  }

  /** The seats still holding cards, in seat order. */
  function ActiveSeats(seats: seq<Seat>): seq<int> { SortSet(ActiveSet(seats)) }

  function FindSeat(seats: seq<Seat>, user: UserId): (r: Option<nat>)
    ensures r.Some? ==> r.value < |seats| && seats[r.value].user == user
    ensures r.None? ==> forall i :: 0 <= i < |seats| ==> seats[i].user != user
  {
    FindSeatFrom(seats, user, 0)
  }

  function FindSeatFrom(seats: seq<Seat>, user: UserId, i: nat): (r: Option<nat>)
    requires i <= |seats|
    ensures r.Some? ==> i <= r.value < |seats| && seats[r.value].user == user
    ensures r.None? ==> forall k :: i <= k < |seats| ==> seats[k].user != user
    decreases |seats| - i
  {
    if i == |seats| then None
    else if seats[i].user == user then Some(i)
    else FindSeatFrom(seats, user, i + 1)
  }

  /** The seat `i` places after `from`, clockwise. */
  function At(from: nat, i: nat, n: nat): nat
    requires n > 0
  {
    (from + i) % n
  }

  function NextActiveFrom(seats: seq<Seat>, from: nat, i: nat): (c: nat)
    requires from < |seats| && i <= |seats| + 1
    ensures c < |seats|
    decreases |seats| + 1 - i
  {
    if i > |seats| then from
    else if Holds(seats, At(from, i, |seats|)) then At(from, i, |seats|)
    else NextActiveFrom(seats, from, i + 1)
  }

  function NextActiveSeat(seats: seq<Seat>, from: nat): (c: nat)
    requires from < |seats|
    ensures c < |seats|
  {
    NextActiveFrom(seats, from, 1)
  }

  /** The next seat that may respond, or None when the trick is over. */
  function Responder(seats: seq<Seat>, lead: nat, from: nat, i: nat): (c: Option<nat>)
    requires from < |seats| && i <= |seats| + 1
    ensures c.Some? ==> c.value < |seats|
    decreases |seats| + 1 - i
  {
    if i > |seats| then None
    else
      var cand := At(from, i, |seats|);
      if !Holds(seats, cand) then Responder(seats, lead, from, i + 1)
      else if cand == lead then None
      else if seats[cand].passed then Responder(seats, lead, from, i + 1)
      else Some(cand)
  }

  // ---- trick mechanics ----

  function ClearPasses(seats: seq<Seat>): (r: seq<Seat>)
    ensures |r| == |seats|
    ensures forall i :: 0 <= i < |seats| ==> r[i] == seats[i].(passed := false)
  {
    seq(|seats|, i requires 0 <= i < |seats| => seats[i].(passed := false))
  }

  function ClearActivePasses(seats: seq<Seat>): (r: seq<Seat>)
    ensures |r| == |seats|
    ensures forall i :: 0 <= i < |seats| ==>
      r[i] == if seats[i].handCount > 0 then seats[i].(passed := false) else seats[i]
  {
    seq(|seats|, i requires 0 <= i < |seats| =>
      if seats[i].handCount > 0 then seats[i].(passed := false) else seats[i])
  }

  function ResetTrick(t: Table): Table
    requires InRange(t)
  {
    var seats := ClearPasses(t.seats);
    t.(combo := [],
       seats := seats,
       turn := if Holds(seats, t.lead) then t.lead else NextActiveSeat(seats, t.lead))
  }

  function AdvanceTurn(t: Table, from: nat): Table
    requires InRange(t) && from < |t.seats|
  {
    match Responder(t.seats, t.lead, from, 1)
    case Some(c) => t.(turn := c)
    case None => ResetTrick(t)
  }

  /** The table once seat `s` has put down `combo` and before the turn moves on. */
  function PutDown(t: Table, s: nat, combo: Combo, newHand: seq<Card>): Table
    requires InRange(t) && s < |t.seats|
  {
    var emptied := newHand == [];
    var seat := t.seats[s].(hand := newHand, handCount := |newHand|);
    var seats := ClearActivePasses(t.seats[s := seat]);
    t.(seats := if emptied then seats[s := seats[s].(finishedRank := |t.finishOrder| + 1)] else seats,
       combo := combo.cards,
       lead := s,
       history := t.history + [Move(s, t.seats[s].user, combo.cards)],
       finishOrder := if emptied then t.finishOrder + [s] else t.finishOrder)
  }

  function ApplyPlay(t: Table, s: nat, combo: Combo, newHand: seq<Card>): Table
    requires InRange(t) && s < |t.seats|
  {
    AdvanceTurn(PutDown(t, s, combo, newHand), s)
  }

  function MarkPassed(t: Table, s: nat): Table
    requires InRange(t) && s < |t.seats|
  {
    t.(seats := t.seats[s := t.seats[s].(passed := true)],
       history := t.history + [Move(s, t.seats[s].user, [])])
  }

  function ApplyPass(t: Table, s: nat): Table
    requires InRange(t) && s < |t.seats|
  {
    AdvanceTurn(MarkPassed(t, s), s)
  }

  function CurrentCombo(t: Table): (r: Option<Combo>)
    ensures r.Some? ==> Recognised(r.value)
  {
    if t.combo == [] then None else IdentifyCombo(t.combo)
  }

  /** Notes the chop, unless the twos under the bomb are the player's own. */
  function RecordChop(t: Table, user: UserId, combo: Combo): Table
    requires InRange(t)
  {
    var heo := ChoppedHeoCards(combo, CurrentCombo(t));
    var victim := t.seats[t.lead].user;
    if heo != [] && victim != user then
      t.(chops := t.chops + [Chop(user, victim, |heo|, |heo| - RedCount(heo), RedCount(heo))])
    else t
  }

  // ---- the end of the game ----

  predicate MaybeFinish(t: Table) { |ActiveSet(t.seats)| <= 1 }

  function AppendNew(order: seq<int>, more: seq<int>): seq<int>
    decreases |more|
  {
    if more == [] then order
    else AppendNew(if more[0] in order then order else order + [more[0]], more[1..])
  }

  function SeatNumbers(n: nat): seq<int> { seq(n, i => i) }

  /** Those who emptied their hands, then whoever still holds cards, then the resigners, last first. */
  function FinalOrder(t: Table): seq<int> {
    var a := AppendNew([], t.finishOrder);
    var b := AppendNew(a, ActiveSeats(t.seats));
    var c := AppendNew(b, Reverse(t.resigned));
    AppendNew(c, SeatNumbers(|t.seats|))
  }

  function Finish(t: Table): Table {
    var order := FinalOrder(t);
    t.(status := Finished,
       finishOrder := order,
       seats := seq(|t.seats|, i requires 0 <= i < |t.seats| =>
         t.seats[i].(finishedRank := IndexOf(order, i) + 1)))
  }

  function FinishIfOver(t: Table): Table {
    if MaybeFinish(t) then Finish(t) else t
  }

  // ---- the start of the game ----

  /** The table right after the deal: `starter` leads, nothing has been played. */
  function NewTable(users: seq<UserId>, hands: seq<seq<Card>>, starter: nat): Table
    requires |users| == |hands|
  {
    var seats := seq(|users|, i requires 0 <= i < |users| => Seat(users[i], hands[i], |hands[i]|, 0, false, true));
    Table(Active, seats, starter, starter, [], [], [], [], [], None)
  }

  /** The winner first, then every other seat in seat order. */
  function InstantOrder(n: nat, winner: nat): seq<int> {
    [winner as int] + seq(n, i => i)[..if winner < n then winner else n] + seq(n, i => i)[if winner < n then winner + 1 else n..]
  }

  function FinishInstantWin(t: Table, winner: nat, kind: InstantWin): Table {
    var order := InstantOrder(|t.seats|, winner);
    t.(status := Finished,
       finishOrder := order,
       instant := Some(kind),
       seats := seq(|t.seats|, i requires 0 <= i < |t.seats| =>
         t.seats[i].(finishedRank := IndexOf(order, i) + 1)))
  }

  // ---- operations ----

  function Play(t: Table, user: UserId, cards: seq<Card>): Result<Table, Error>
    requires InRange(t)
  {
    if t.status != Active then Failure(NotActive)
    else
      match FindSeat(t.seats, user)
      case None => Failure(NotAPlayer)
      case Some(s) =>
        if t.turn != s then Failure(NotYourTurn)
        else if cards == [] then Failure(NoCards)
        else
          match IdentifyCombo(cards)
          case None => Failure(InvalidCombination)
          case Some(combo) =>
            var opening := t.history == [];
            var current := CurrentCombo(t);
            if !opening && current.Some? && !CanBeat(combo, current.value) then Failure(DoesNotBeat)
            else
              match RemoveCards(t.seats[s].hand, cards)
              case None => Failure(MissingCards)
              case Some(newHand) =>
                Success(FinishIfOver(ApplyPlay(RecordChop(t, user, combo), s, combo, newHand)))
  }

  function Pass(t: Table, user: UserId): Result<Table, Error>
    requires InRange(t)
  {
    if t.status != Active then Failure(NotActive)
    else
      match FindSeat(t.seats, user)
      case None => Failure(NotAPlayer)
      case Some(s) =>
        if t.turn != s then Failure(NotYourTurn)
        else if t.combo == [] then Failure(MustLead)
        else Success(ApplyPass(t, s))
  }

  function ForceFinishLast(t: Table, s: nat): Table
    requires s < |t.seats|
  {
    t.(seats := t.seats[s := t.seats[s].(handCount := 0, hand := [], finishedRank := 0)],
       resigned := if s in t.resigned then t.resigned else t.resigned + [s])
  }

  /** Hands control onward after seat `s` has left the table. */
  function AfterLeaving(t: Table, s: nat): Table
    requires InRange(t) && s < |t.seats|
  {
    if MaybeFinish(t) then Finish(t)
    else if t.lead == s then ResetTrick(t.(lead := NextActiveSeat(t.seats, s)))
    else if t.turn == s then t.(turn := NextActiveSeat(t.seats, s))
    else t
  }

  function Resign(t: Table, user: UserId): Result<Table, Error>
    requires InRange(t)
  {
    if t.status != Active then Failure(NotActive)
    else
      match FindSeat(t.seats, user)
      case None => Failure(NotAPlayer)
      case Some(s) =>
        if t.seats[s].handCount == 0 then Failure(AlreadyFinished)
        else Success(AfterLeaving(ForceFinishLast(t, s), s))
  }

  /** A disconnected player whose grace period ran out. */
  function Forfeit(t: Table, user: UserId): Table
    requires InRange(t)
  {
    match Resign(t, user)
    case Success(t') => t'
    case Failure(_) => t
  }

  function AutoSkip(t: Table, s: nat): Table
    requires InRange(t) && s < |t.seats|
  {
    if t.status != Active || t.turn != s then t
    else if t.combo == [] then
      var next := NextActiveSeat(t.seats, s);
      t.(lead := next, turn := next)
    else ApplyPass(t, s)
  }

  function Disconnect(t: Table, user: UserId): Table
    requires InRange(t)
  {
    match FindSeat(t.seats, user)
    case None => t
    case Some(s) =>
      if t.status != Active || t.seats[s].handCount == 0 then t
      else
        var gone := t.(seats := t.seats[s := t.seats[s].(connected := false)]);
        if gone.turn == s then AutoSkip(gone, s) else gone
  }

  function Reconnect(t: Table, user: UserId): Table {
    match FindSeat(t.seats, user)
    case None => t
    case Some(s) => t.(seats := t.seats[s := t.seats[s].(connected := true)])
  }

  function OrElse(r: Result<Table, Error>, t: Table): Table {
    match r
    case Success(t') => t'
    case Failure(_) => t
  }

  predicate CountsMatch(t: Table) {
    InRange(t) && t.seats[t.turn].handCount <= |t.seats[t.turn].hand|
  }

  /** The turn clock ran out. */
  function OnTimeout(t: Table): Table
    requires CountsMatch(t)
  {
    var seat := t.seats[t.turn];
    if t.status != Active || seat.handCount == 0 then t
    else if !seat.connected then AutoSkip(t, t.turn)
    else if t.combo == [] then OrElse(Play(t, seat.user, [seat.hand[0]]), t)
    else OrElse(Pass(t, seat.user), t)
  }
}
