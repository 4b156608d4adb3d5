/**
 * Where the coins are: over every run of room and game operations, balances plus everything
 * held in escrow shrink by exactly what is in a room's pot beyond its members' bets when the
 * room is cancelled or launched, and by nothing else. A pot gets such an excess in one way
 * only: two joins of the same user to the same room in flight at once, and then their leave.
 */
module Escrow {
  import opened Wrappers
  import opened Sorting
  import opened Sums
  import opened Wallet
  import opened Rooms

  // ---- what is held ----

  ghost function RoomHeld(r: Room): int { if r.status == Waiting || r.status == Starting then r.pot else 0 }

  ghost function JoinHeld(j: Join): int { if j.staked then j.bet else 0 }

  ghost function MatchHeld(m: Match): int { if m.active then m.pot else 0 }

  ghost function RoomPots(rooms: map<RoomId, Room>): map<nat, int> { map id | id in rooms :: RoomHeld(rooms[id]) }

  ghost function JoinStakes(joins: map<nat, Join>): map<nat, int> { map k | k in joins :: JoinHeld(joins[k]) }

  ghost function MatchPots(games: map<GameId, Match>): map<nat, int> { map g | g in games :: MatchHeld(games[g]) }

  ghost function HeldInRooms(rooms: map<RoomId, Room>): int { Sum(RoomPots(rooms)) }

  ghost function HeldInJoins(joins: map<nat, Join>): int { Sum(JoinStakes(joins)) }

  ghost function HeldInGames(games: map<GameId, Match>): int { Sum(MatchPots(games)) }

  /** Every coin there is: in a wallet, in an open room's pot, on the way into one, or in a running game. */
  ghost function Worth(h: House): int {
    Sum(h.book.balances) + HeldInRooms(h.rooms) + HeldInJoins(h.joins) + HeldInGames(h.games)
  }

  lemma RoomsUpdate(rooms: map<RoomId, Room>, id: RoomId, r: Room)
    ensures HeldInRooms(rooms[id := r]) ==
      HeldInRooms(rooms) + RoomHeld(r) - if id in rooms then RoomHeld(rooms[id]) else 0
  {
    assert RoomPots(rooms[id := r]) == RoomPots(rooms)[id := RoomHeld(r)];
    SumUpdate(RoomPots(rooms), id, RoomHeld(r));
  }

  lemma JoinsUpdate(joins: map<nat, Join>, k: nat, j: Join)
    ensures HeldInJoins(joins[k := j]) ==
      HeldInJoins(joins) + JoinHeld(j) - if k in joins then JoinHeld(joins[k]) else 0
  {
    assert JoinStakes(joins[k := j]) == JoinStakes(joins)[k := JoinHeld(j)];
    SumUpdate(JoinStakes(joins), k, JoinHeld(j));
  }

  lemma JoinsRemove(joins: map<nat, Join>, k: nat)
    requires k in joins
    ensures HeldInJoins(joins - {k}) == HeldInJoins(joins) - JoinHeld(joins[k])
  {
    assert JoinStakes(joins - {k}) == JoinStakes(joins) - {k};
    SumRemove(JoinStakes(joins), k);
  }

  lemma GamesUpdate(games: map<GameId, Match>, g: GameId, m: Match)
    ensures HeldInGames(games[g := m]) ==
      HeldInGames(games) + MatchHeld(m) - if g in games then MatchHeld(games[g]) else 0
  {
    assert MatchPots(games[g := m]) == MatchPots(games)[g := MatchHeld(m)];
    SumUpdate(MatchPots(games), g, MatchHeld(m));
  }

  // ---- payments move coins, never make them ----

  ghost predicate Solvent(b: Book) {
    forall u :: u in b.balances ==> b.balances[u] >= 0
  }

  lemma PaySum(b: Book, user: UserId, amount: int, kind: TxType)
    requires Solvent(b) && amount >= 0 && (amount > 0 ==> user in b.balances)
    ensures var b' := OrKeep(Pay(b, user, amount, kind), b);
      Sum(b'.balances) == Sum(b.balances) + amount && b'.balances.Keys == b.balances.Keys && Solvent(b')
  {
    if amount > 0 {
      SumUpdate(b.balances, user, b.balances[user] + amount);
    }
  }

  lemma StakeSum(b: Book, user: UserId, amount: int)
    requires Solvent(b)
    ensures var r := Stake(b, user, amount); r.Success? ==>
      && user in b.balances
      && Sum(r.value.balances) == Sum(b.balances) - amount
      && r.value.balances.Keys == b.balances.Keys && Solvent(r.value)
  {
    if Stake(b, user, amount).Success? {
      SumUpdate(b.balances, user, b.balances[user] - amount);
    }
  }

  lemma SidePaymentSum(b: Book, payer: UserId, payee: UserId, amount: int)
    requires Solvent(b) && payee in b.balances
    ensures var b' := SidePayment(b, payer, payee, amount);
      Sum(b'.balances) == Sum(b.balances) && b'.balances.Keys == b.balances.Keys && Solvent(b')
  {
    StakeSum(b, payer, amount);
    if Stake(b, payer, amount).Success? {
      PaySum(Stake(b, payer, amount).value, payee, amount, GamePayout);
    }
  }

  lemma {:induction false} SidePaymentsSum(b: Book, payments: seq<(UserId, int)>, payee: UserId)
    requires Solvent(b) && payee in b.balances
    ensures var b' := SidePayments(b, payments, payee);
      Sum(b'.balances) == Sum(b.balances) && b'.balances.Keys == b.balances.Keys && Solvent(b')
    decreases |payments|
  {
    if payments != [] {
      SidePaymentSum(b, payments[0].0, payee, payments[0].1);
      SidePaymentsSum(SidePayment(b, payments[0].0, payee, payments[0].1), payments[1..], payee);
    }
  }

  lemma {:induction false} RefundAllSum(b: Book, users: seq<UserId>, amount: int)
    requires Solvent(b) && amount >= 0 && forall u :: u in users ==> u in b.balances
    ensures var b' := RefundAll(b, users, amount);
      Sum(b'.balances) == Sum(b.balances) + amount * |users| && b'.balances.Keys == b.balances.Keys && Solvent(b')
    decreases |users|
  {
    if users != [] {
      var user, rest := users[0], users[1..];
      assert user in users;
      PaySum(b, user, amount, GameRefund);
      RefundAllSum(OrKeep(Pay(b, user, amount, GameRefund), b), rest, amount);
      OneMore(amount, |rest|);
    }
  }

  // ---- the invariant ----

  ghost predicate Open(r: Room) { r.status == Waiting || r.status == Starting }

  ghost predicate MemberOk(m: Member, mode: Mode, known: set<UserId>) {
    (m.staked <==> mode == Wager) && (m.staked ==> m.user in known)
  }

  /** What is in a room's pot beyond its members' bets. */
  ghost function Excess(r: Room): int { r.pot - r.bet * |r.members| }

  /** Members staked exactly when the room is a wager; an open room's pot covers its bet times its members. */
  ghost predicate RoomOk(r: Room, known: set<UserId>) {
    && r.bet >= 0 && (r.bet > 0 <==> r.mode == Wager)
    && (forall m :: m in r.members ==> MemberOk(m, r.mode, known))
    && (Open(r) ==> Excess(r) >= 0)
  }

  ghost predicate JoinOk(j: Join, rooms: map<RoomId, Room>, known: set<UserId>) {
    && j.room in rooms
    && j.bet == rooms[j.room].bet
    && (j.staked <==> rooms[j.room].mode == Wager)
    && (j.staked ==> j.user in known)
  }

  ghost predicate MatchOk(m: Match, rooms: map<RoomId, Room>, known: set<UserId>) {
    && m.bet >= 0 && (m.bet > 0 <==> m.mode == Wager)
    && m.pot == m.bet * |m.players|
    && (m.mode == Wager ==> forall u :: u in m.players ==> u in known)
    && m.room in rooms
    && (m.active ==> !Open(rooms[m.room]))
  }

  /** Nobody owes coins, and rooms, joins and games have what they owe. */
  ghost predicate Backed(h: House) {
    && Solvent(h.book)
    && (forall id :: id in h.rooms ==> RoomOk(h.rooms[id], h.book.balances.Keys))
    && (forall k :: k in h.joins ==> JoinOk(h.joins[k], h.rooms, h.book.balances.Keys))
    && (forall g :: g in h.games ==> MatchOk(h.games[g], h.rooms, h.book.balances.Keys))
  }

  /** No open room has more than its members' bets. */
  ghost predicate Exact(h: House) { forall id :: id in h.rooms && Open(h.rooms[id]) ==> Excess(h.rooms[id]) == 0 }

  ghost predicate Sound(h: House) { Backed(h) && Exact(h) }

  /** Rooms that stay open keep their excess, and a new one has none. */
  ghost predicate SameExcess(h: House, h': House) {
    forall id :: id in h'.rooms && Open(h'.rooms[id]) ==>
      if id in h.rooms then Open(h.rooms[id]) && Excess(h'.rooms[id]) == Excess(h.rooms[id]) else Excess(h'.rooms[id]) == 0
  }

  /** `lost` coins are gone afterwards, and no open pot came to hold more than before. */
  ghost predicate Loses(h: House, h': House, lost: int) {
    Backed(h') && Worth(h') == Worth(h) - lost && SameExcess(h, h')
  }

  ghost predicate Conserves(h: House, h': House) { Loses(h, h', 0) }

  /** Replacing one room keeps the house sound when the new room is and an active game's room stays shut. */
  lemma RoomReplaced(h: House, id: RoomId, r: Room)
    requires Backed(h) && RoomOk(r, h.book.balances.Keys)
    requires id in h.rooms ==>
      r.bet == h.rooms[id].bet && r.mode == h.rooms[id].mode && (Open(r) ==> Open(h.rooms[id]))
    ensures Backed(h.(rooms := h.rooms[id := r]))
    ensures Worth(h.(rooms := h.rooms[id := r])) ==
      Worth(h) + RoomHeld(r) - if id in h.rooms then RoomHeld(h.rooms[id]) else 0
    ensures (Open(r) ==> Excess(r) == if id in h.rooms then Excess(h.rooms[id]) else 0) ==>
      SameExcess(h, h.(rooms := h.rooms[id := r]))
  {
    RoomsUpdate(h.rooms, id, r);
    hide RoomOk, HeldInRooms, HeldInJoins, HeldInGames, Sum;
  }

  lemma RoomBacked(h: House, id: RoomId)
    requires Backed(h) && id in h.rooms
    ensures RoomOk(h.rooms[id], h.book.balances.Keys) && Solvent(h.book)
    ensures h.rooms[id].bet >= 0 && (h.rooms[id].bet > 0 <==> h.rooms[id].mode == Wager)
    ensures Open(h.rooms[id]) ==> Excess(h.rooms[id]) >= 0
  {
  }

  lemma JoinBacked(h: House, k: nat)
    requires Backed(h) && k in h.joins
    ensures JoinOk(h.joins[k], h.rooms, h.book.balances.Keys)
  {
  }

  /** A room that is shut, marked or reopened with the same bets. */
  lemma RoomMarked(r: Room, r': Room, known: set<UserId>)
    requires RoomOk(r, known) && r' == r.(status := r'.status, game := r'.game) && (Open(r') ==> Open(r))
    ensures RoomOk(r', known) && Excess(r') == Excess(r)
  {
  }

  /** A book with the same users and no debts in place of the old one. */
  lemma BookReplaced(h: House, b: Book)
    requires Backed(h) && Solvent(b) && b.balances.Keys == h.book.balances.Keys
    ensures Backed(h.(book := b))
    ensures Worth(h.(book := b)) == Worth(h) + Sum(b.balances) - Sum(h.book.balances)
  {
    hide RoomOk, JoinOk, MatchOk, Solvent, Sum;
  }

  lemma JoinAdded(h: House, k: nat, j: Join)
    requires Backed(h) && k !in h.joins && JoinOk(j, h.rooms, h.book.balances.Keys)
    ensures Backed(h.(joins := h.joins[k := j])) && Worth(h.(joins := h.joins[k := j])) == Worth(h) + JoinHeld(j)
  {
    JoinsUpdate(h.joins, k, j);
    hide RoomOk, JoinOk, MatchOk, Sum, Solvent;
  }

  lemma GameAdded(h: House, g: GameId, m: Match)
    requires Backed(h) && g !in h.games && MatchOk(m, h.rooms, h.book.balances.Keys)
    ensures Backed(h.(games := h.games[g := m])) && Worth(h.(games := h.games[g := m])) == Worth(h) + MatchHeld(m)
  {
    GamesUpdate(h.games, g, m);
    hide RoomOk, JoinOk, MatchOk, Sum, Solvent;
  }

  // ---- one lemma per operation ----

  lemma CreateConserves(h: House, id: RoomId, kind: Kind, mode: Mode, host: UserId, amount: int, lo: int, hi: int)
    requires Backed(h) && id !in h.rooms
    ensures var r := CreateRoom(h, id, kind, mode, host, amount, lo, hi); r.Success? ==> Conserves(h, r.value)
  {
    var r := CreateRoom(h, id, kind, mode, host, amount, lo, hi);
    if r.Success? {
      RoomReplaced(h, id, r.value.rooms[id]);
    }
  }

  lemma BeginJoinConserves(h: House, ticket: nat, id: RoomId, user: UserId)
    requires Backed(h) && ticket !in h.joins
    ensures var r := BeginJoin(h, ticket, id, user); r.Success? ==> Conserves(h, r.value)
  {
    var r := BeginJoin(h, ticket, id, user);
    if r.Success? && r.value != h {
      var j, staked := r.value.joins[ticket], h.(book := r.value.book);
      assert RoomOk(h.rooms[id], h.book.balances.Keys);
      StakeSum(h.book, user, h.rooms[id].bet);
      hide Sum, Backed, Stake, Solvent;
      BookReplaced(h, r.value.book);
      JoinAdded(staked, ticket, j);
    }
  }

  lemma JoinRemoved(h: House, ticket: nat)
    requires Backed(h) && ticket in h.joins
    ensures var rest := h.(joins := h.joins - {ticket});
      Backed(rest) && Worth(rest) == Worth(h) - JoinHeld(h.joins[ticket])
  {
    JoinsRemove(h.joins, ticket);
    hide RoomOk, JoinOk, MatchOk, Sum;
  }

  /** A room with one more member, and one more bet. */
  lemma EnteredRoom(room: Room, j: Join, known: set<UserId>)
    requires RoomOk(room, known) && j.bet == room.bet && (j.staked <==> room.mode == Wager) && (j.staked ==> j.user in known)
    ensures var room' := room.(
      members := room.members + [Member(j.user, j.staked, false)], pot := room.pot + if j.staked then j.bet else 0);
      RoomOk(room', known) && Excess(room') == Excess(room)
  {
    OneMore(room.bet, |room.members|);
  }

  lemma EndJoinConserves(h: House, ticket: nat)
    requires Backed(h) && ticket in h.joins
    ensures EndJoin(h, ticket).Success? && Conserves(h, EndJoin(h, ticket).value)
  {
    hide Backed, Sum, Excess, RoomOk, Solvent, Worth, Pay;
    JoinBacked(h, ticket);
    var j := h.joins[ticket];
    RoomBacked(h, j.room);
    var room := h.rooms[j.room];
    var rest := h.(joins := h.joins - {ticket});
    JoinRemoved(h, ticket);
    if room.status == Waiting {
      EnteredRoom(room, j, h.book.balances.Keys);
      RoomReplaced(rest, j.room, EndJoin(h, ticket).value.rooms[j.room]);
    } else if j.staked {
      PaySum(h.book, j.user, j.bet, GameRefund);
      BookReplaced(rest, EndJoin(h, ticket).value.book);
    }
  }

  lemma {:induction false} EveryoneStaked(members: seq<Member>)
    requires forall m :: m in members ==> m.staked
    ensures StakedUsers(members) == Users(members)
  {
    if members != [] {
      var first := members[0];
      assert first in members;
      EveryoneStaked(members[1..]);
      assert Users(members) == [first.user] + Users(members[1..]);
    }
  }

  /** Cancelling gives every member's bet back, and loses what the pot held beyond them. */
  lemma CancelLoses(h: House, id: RoomId)
    requires Backed(h) && id in h.rooms && h.rooms[id].status == Waiting
    ensures Loses(h, Cancel(h, id), Excess(h.rooms[id]))
  {
    hide Sum, Backed, RoomOk, RefundAll, Solvent, StakedUsers, Worth, Users;
    RoomBacked(h, id);
    var room, h' := h.rooms[id], Cancel(h, id);
    RoomMarked(room, h'.rooms[id], h.book.balances.Keys);
    RoomReplaced(h, id, h'.rooms[id]);
    if room.mode == Wager {
      MembersStaked(room, h.book.balances.Keys);
      MembersKnown(room, h.book.balances.Keys);
      RefundAllSum(h.book, Users(room.members), room.bet);
      BookReplaced(h.(rooms := h'.rooms), h'.book);
    }
  }

  lemma MembersStaked(room: Room, known: set<UserId>)
    requires RoomOk(room, known) && room.mode == Wager
    ensures StakedUsers(room.members) == Users(room.members)
  {
    EveryoneStaked(room.members);
  }

  lemma MembersKnown(room: Room, known: set<UserId>)
    requires RoomOk(room, known) && room.mode == Wager
    ensures forall u :: u in Users(room.members) ==> u in known
  {
    forall u | u in Users(room.members) ensures u in known {
      var i :| 0 <= i < |room.members| && Users(room.members)[i] == u;
      var m := room.members[i];
      assert m in room.members;
    }
  }

  lemma {:induction false} WithoutCount(members: seq<Member>, user: UserId)
    ensures |Without(members, user)| + Entries(members, user) == |members|
    ensures IsMember(members, user) <==> Entries(members, user) > 0
  {
    if members != [] {
      var rest := members[1..];
      WithoutCount(rest, user);
      if IsMember(rest, user) {
        var i :| 0 <= i < |rest| && rest[i].user == user;
        assert members[i + 1].user == user;
      }
    }
  }

  /** Leaving a room whose stakes matter needs a single entry: every entry goes but one stake comes back. */
  ghost predicate OneEntry(h: House, id: RoomId, user: UserId) {
    (id in h.rooms && h.rooms[id].mode == Wager && h.rooms[id].status == Waiting && h.rooms[id].host != user) ==>
      Entries(h.rooms[id].members, user) <= 1
  }

  /** What a leave adds to a pot's excess: every entry goes but one stake comes back. */
  ghost function Surplus(r: Room, user: UserId): int { r.bet * (Entries(r.members, user) - 1) }

  /**
   * The coins themselves survive any leave, but the pot is left with the bets of all the leaver's
   * entries except one; so pots go on matching their members exactly when one entry left.
   */
  lemma LeaveExact(h: House, id: RoomId, user: UserId)
    requires Backed(h) && id in h.rooms && IsMember(h.rooms[id].members, user)
    requires h.rooms[id].status == Waiting && h.rooms[id].host != user
    ensures Leave(h, id, user).Success?
    ensures var h' := Leave(h, id, user).value;
      && Backed(h') && Worth(h') == Worth(h)
      && h'.rooms == h.rooms[id := h'.rooms[id]] && Open(h'.rooms[id])
      && Excess(h'.rooms[id]) == Excess(h.rooms[id]) + Surplus(h.rooms[id], user)
      && (Sound(h) ==> (Sound(h') <==> OneEntry(h, id, user)))
      && (OneEntry(h, id, user) ==> SameExcess(h, h'))
  {
    hide Sum, Pay, Excess, Surplus, RoomOk, Solvent, Backed, Worth, Without, FindMember;
    RoomBacked(h, id);
    var room := h.rooms[id];
    var known := h.book.balances.Keys;
    var h' := Leave(h, id, user).value;
    var room' := h'.rooms[id];
    WithoutCount(room.members, user);
    LeaverStaked(room, user, known);
    var refund := if FindMember(room.members, user).staked then room.bet else 0;
    assert refund == room.bet;
    PaySum(h.book, user, refund, GameRefund);
    LeavePot(room, room', user);
    LeaveSurplus(room, user);
    LeftRoomOk(room, room', user, known);
    RoomReplaced(h, id, room');
    BookReplaced(h.(rooms := h'.rooms), h'.book);
  }

  lemma LeaverStaked(room: Room, user: UserId, known: set<UserId>)
    requires RoomOk(room, known) && IsMember(room.members, user)
    ensures FindMember(room.members, user).staked <==> room.mode == Wager
    ensures room.bet > 0 ==> user in known
  {
    var m := FindMember(room.members, user);
    assert MemberOk(m, room.mode, known);
  }

  lemma LeftRoomOk(room: Room, room': Room, user: UserId, known: set<UserId>)
    requires RoomOk(room, known) && Open(room) && Excess(room') >= 0
    requires room' == room.(members := Without(room.members, user), pot := room'.pot)
    ensures RoomOk(room', known)
  {
    hide Excess;
  }

  lemma LeavePot(room: Room, room': Room, user: UserId)
    requires room' == room.(members := room'.members, pot := room.pot - room.bet)
    requires |room'.members| == |room.members| - Entries(room.members, user)
    ensures Excess(room') == Excess(room) + Surplus(room, user)
  {
    var n: int, k: int := |room.members|, Entries(room.members, user);
    assert room.bet * (n - k) + room.bet * (k - 1) == room.bet * n - room.bet;
  }

  lemma LeaveSurplus(room: Room, user: UserId)
    requires room.bet >= 0 && (room.bet > 0 <==> room.mode == Wager) && Entries(room.members, user) > 0
    ensures Surplus(room, user) >= 0
    ensures Surplus(room, user) == 0 <==> room.mode == Wager ==> Entries(room.members, user) == 1
  {
    var k := Entries(room.members, user);
    if room.bet > 0 && k > 1 {
      assert room.bet * (k - 1) > 0;
    }
  }

  lemma LeaveLoses(h: House, id: RoomId, user: UserId)
    requires Backed(h)
    ensures var r := Leave(h, id, user); r.Success? ==>
      && Backed(r.value) && Worth(r.value) == Worth(h) - Lost(h, Exit(id, user))
      && (OneEntry(h, id, user) ==> SameExcess(h, r.value))
    ensures Leave(h, id, user).Failure? ==> Lost(h, Exit(id, user)) == 0
  {
    hide Sum, Backed;
    if id in h.rooms && IsMember(h.rooms[id].members, user) && h.rooms[id].status == Waiting {
      if h.rooms[id].host == user {
        CancelLoses(h, id);
      } else {
        LeaveExact(h, id, user);
      }
    }
  }

  lemma ReadyConserves(h: House, id: RoomId, user: UserId, ready: bool)
    requires Backed(h)
    ensures var r := SetReady(h, id, user, ready); r.Success? ==> Conserves(h, r.value)
  {
    var r := SetReady(h, id, user, ready);
    if r.Success? {
      var room, room' := h.rooms[id], r.value.rooms[id];
      assert RoomOk(room, h.book.balances.Keys);
      forall m | m in room'.members ensures MemberOk(m, room.mode, h.book.balances.Keys) {
        var i :| 0 <= i < |room'.members| && room'.members[i] == m;
        var was := room.members[i];
        assert was in room.members;
      }
      hide Sum, Backed, WithReady;
      RoomReplaced(h, id, room');
    }
  }

  lemma BeginStartConserves(h: House, id: RoomId, user: UserId)
    requires Backed(h)
    ensures var r := BeginStart(h, id, user); r.Success? ==> Conserves(h, r.value)
  {
    var r := BeginStart(h, id, user);
    if r.Success? {
      assert RoomOk(h.rooms[id], h.book.balances.Keys);
      hide Sum, Backed;
      RoomReplaced(h, id, r.value.rooms[id]);
    }
  }

  /** A game starts with its players' bets; what else was in the room's pot is lost. */
  lemma LaunchLoses(h: House, id: RoomId, game: GameId)
    requires Backed(h) && game !in h.games
    ensures var r := Launch(h, id, game); r.Success? ==>
      && Loses(h, r.value, Lost(h, Start(id, game)))
      && (game in r.value.games ==>
           && r.value.games[game].active && r.value.games[game].room == id && id in r.value.rooms
           && r.value.games[game].pot == h.rooms[id].pot - Excess(h.rooms[id])
           && r.value.games[game].players == Users(h.rooms[id].members))
    ensures Launch(h, id, game).Failure? ==> Lost(h, Start(id, game)) == 0
  {
    hide Sum, Backed, RoomOk, MatchOk, Solvent, Worth, Users, Excess;
    var r := Launch(h, id, game);
    if r.Success? {
      RoomBacked(h, id);
      var room, known := h.rooms[id], h.book.balances.Keys;
      RoomMarked(room, r.value.rooms[id], known);
      RoomReplaced(h, id, r.value.rooms[id]);
      if game in r.value.games {
        LaunchedMatch(room, r.value.games[game], r.value.rooms, known);
        GameAdded(h.(rooms := r.value.rooms), game, r.value.games[game]);
      }
    }
  }

  lemma LaunchedMatch(room: Room, m: Match, rooms: map<RoomId, Room>, known: set<UserId>)
    requires RoomOk(room, known) && m.room in rooms && !Open(rooms[m.room])
    requires m == Match(m.room, room.mode, Users(room.members), room.bet, room.bet * |room.members|, true)
    ensures MatchOk(m, rooms, known) && MatchHeld(m) == m.pot == room.pot - Excess(room)
  {
    if m.mode == Wager {
      MembersKnown(room, known);
    }
  }

  lemma ChopConserves(h: House, game: GameId, victim: UserId, chopper: UserId, amount: int)
    requires Backed(h) && (game in h.games ==> chopper in h.games[game].players)
    ensures var r := ChopPayment(h, game, victim, chopper, amount); r.Success? ==> Conserves(h, r.value)
  {
    var r := ChopPayment(h, game, victim, chopper, amount);
    if r.Success? && h.games[game].mode == Wager {
      assert MatchOk(h.games[game], h.rooms, h.book.balances.Keys);
      SidePaymentSum(h.book, victim, chopper, amount);
      hide Sum, Backed, SidePayment;
      BookReplaced(h, r.value.book);
    }
  }

  /** Ending a game frees exactly its pot. */
  lemma GameEnded(h: House, game: GameId)
    requires Backed(h) && game in h.games && h.games[game].active
    ensures var m := h.games[game];
      var h' := h.(games := h.games[game := m.(active := false)], rooms := CloseRoom(h, m.room));
      Backed(h') && Worth(h') == Worth(h) - m.pot
  {
    var m := h.games[game];
    assert MatchOk(m, h.rooms, h.book.balances.Keys);
    assert RoomOk(h.rooms[m.room], h.book.balances.Keys);
    var closed := h.rooms[m.room].(status := Closed);
    RoomReplaced(h, m.room, closed);
    GamesUpdate(h.games, game, m.(active := false));
    hide RoomOk, JoinOk, Sum;
  }

  lemma MatchPotPays(m: Match)
    requires m.bet >= 0 && (m.bet > 0 <==> m.mode == Wager) && m.pot == m.bet * |m.players|
    ensures m.pot >= 0 && (m.pot > 0 ==> m.mode == Wager)
  {
  }

  lemma FinishConserves(h: House, game: GameId, winner: UserId, rotten: seq<(UserId, int)>)
    requires Backed(h) && (game in h.games ==> winner in h.games[game].players)
    ensures var r := FinishMatch(h, game, winner, rotten); r.Success? ==> Conserves(h, r.value)
  {
    var r := FinishMatch(h, game, winner, rotten);
    if r.Success? {
      var m := h.games[game];
      assert MatchOk(m, h.rooms, h.book.balances.Keys);
      MatchPotPays(m);
      GameEnded(h, game);
      if m.pot > 0 {
        PaySum(h.book, winner, m.pot, GamePayout);
        SidePaymentsSum(OrKeep(Pay(h.book, winner, m.pot, GamePayout), h.book), rotten, winner);
        hide Sum, Backed, Pay, SidePayments, CloseRoom;
        BookReplaced(r.value.(book := h.book), r.value.book);
      }
    }
  }

  lemma DrawConserves(h: House, game: GameId)
    requires Backed(h)
    ensures var r := FinishDraw(h, game); r.Success? ==> Conserves(h, r.value)
  {
    var r := FinishDraw(h, game);
    if r.Success? {
      var m := h.games[game];
      assert MatchOk(m, h.rooms, h.book.balances.Keys);
      MatchPotPays(m);
      GameEnded(h, game);
      if m.pot > 0 {
        RefundAllSum(h.book, m.players, m.bet);
        hide Sum, Backed, RefundAll, CloseRoom;
        BookReplaced(r.value.(book := h.book), r.value.book);
      }
    }
  }

  /** A game decided by the deal loses what any launch loses, and nothing by being settled first and marked later. */
  lemma InstantLoses(h: House, id: RoomId, game: GameId, winner: UserId)
    requires Backed(h) && game !in h.games && (id in h.rooms ==> IsMember(h.rooms[id].members, winner))
    ensures var r := LaunchInstant(h, id, game, winner); r.Success? ==> Loses(h, r.value, Lost(h, Start(id, game)))
    ensures LaunchInstant(h, id, game, winner).Failure? ==> Lost(h, Start(id, game)) == 0
  {
    hide Sum, Backed, Worth, Excess, Launch, FinishMatch, Users, PlayersFit;
    var launched := Launch(h, id, game);
    LaunchLoses(h, id, game);
    if launched.Success? && game in launched.value.games {
      LaunchSeats(h, id, game, winner);
      InstantSettles(launched.value, id, game, winner);
      LosesThen(h, launched.value, LaunchInstant(h, id, game, winner).value, Lost(h, Start(id, game)));
    }
  }

  lemma LosesThen(h: House, mid: House, h': House, lost: int)
    requires Loses(h, mid, lost) && Conserves(mid, h') && h.rooms.Keys <= mid.rooms.Keys
    ensures Loses(h, h', lost)
  {
    hide Backed, Worth, Excess;
  }

  lemma LaunchSeats(h: House, id: RoomId, game: GameId, winner: UserId)
    requires game !in h.games && (id in h.rooms ==> IsMember(h.rooms[id].members, winner))
    requires Launch(h, id, game).Success? && game in Launch(h, id, game).value.games
    ensures id in h.rooms && winner in Users(h.rooms[id].members)
    ensures h.rooms.Keys <= Launch(h, id, game).value.rooms.Keys
  {
    var room := h.rooms[id];
    var i :| 0 <= i < |room.members| && room.members[i].user == winner;
    assert Users(room.members)[i] == winner;
  }

  lemma InstantSettles(h: House, id: RoomId, game: GameId, winner: UserId)
    requires Backed(h) && id in h.rooms && game in h.games
    requires h.games[game].active && h.games[game].room == id && winner in h.games[game].players
    ensures FinishMatch(h, game, winner, []).Success?
    ensures var done := FinishMatch(h, game, winner, []).value;
      id in done.rooms && Conserves(h, done.(rooms := done.rooms[id := done.rooms[id].(status := InProgress)]))
  {
    FinishConserves(h, game, winner, []);
    var done := FinishMatch(h, game, winner, []).value;
    FinishShutsRoom(h, game, winner);
    hide Sum, FinishMatch, JoinOk, MatchOk, RoomOk, Worth, Solvent;
    assert RoomOk(done.rooms[id], done.book.balances.Keys);
    hide Backed;
    ShutRoomMarked(done.rooms[id], done.book.balances.Keys);
    RoomReplaced(done, id, done.rooms[id].(status := InProgress));
  }

  lemma FinishShutsRoom(h: House, game: GameId, winner: UserId)
    requires game in h.games && h.games[game].active && h.games[game].room in h.rooms
    ensures FinishMatch(h, game, winner, []).Success?
    ensures var done, id := FinishMatch(h, game, winner, []).value, h.games[game].room;
      id in done.rooms && done.rooms[id].status == Closed
  {
    hide SidePayments, Pay;
  }

  lemma ShutRoomMarked(r: Room, known: set<UserId>)
    requires RoomOk(r, known) && !Open(r)
    ensures RoomOk(r.(status := InProgress), known) && RoomHeld(r) == RoomHeld(r.(status := InProgress)) == 0
  {
  }

  // ---- runs ----

  datatype Event =
    | Create(id: RoomId, kind: Kind, mode: Mode, host: UserId, amount: int, lo: int, hi: int)
    | TakeStake(ticket: nat, id: RoomId, user: UserId)
    | Enter(ticket: nat)
    | Exit(id: RoomId, user: UserId)
    | Ready(id: RoomId, user: UserId, ready: bool)
    | Begin(id: RoomId, user: UserId)
    | Start(id: RoomId, game: GameId)
    | StartInstant(id: RoomId, game: GameId, winner: UserId)
    | Chopped(game: GameId, victim: UserId, chopper: UserId, amount: int)
    | Won(game: GameId, winner: UserId, rotten: seq<(UserId, int)>)
    | Drawn(game: GameId)

  /** Identifiers of new things are new, and coins go to players of the game. */
  ghost predicate Allowed(h: House, e: Event) {
    match e
    case Create(id, _, _, _, _, _, _) => id !in h.rooms
    case TakeStake(ticket, _, _) => ticket !in h.joins
    case Enter(ticket) => ticket in h.joins
    case Start(_, game) => game !in h.games
    case StartInstant(id, game, winner) => game !in h.games && (id in h.rooms ==> IsMember(h.rooms[id].members, winner))
    case Chopped(game, _, chopper, _) => game in h.games ==> chopper in h.games[game].players
    case Won(game, winner, _) => game in h.games ==> winner in h.games[game].players
    case _ => true
  }

  ghost function Outcome(h: House, e: Event): Result<House, RoomError>
    requires Allowed(h, e)
  {
    match e
    case Create(id, kind, mode, host, amount, lo, hi) => CreateRoom(h, id, kind, mode, host, amount, lo, hi)
    case TakeStake(ticket, id, user) => BeginJoin(h, ticket, id, user)
    case Enter(ticket) => EndJoin(h, ticket)
    case Exit(id, user) => Leave(h, id, user)
    case Ready(id, user, ready) => SetReady(h, id, user, ready)
    case Begin(id, user) => BeginStart(h, id, user)
    case Start(id, game) => Launch(h, id, game)
    case StartInstant(id, game, winner) => LaunchInstant(h, id, game, winner)
    case Chopped(game, victim, chopper, amount) => ChopPayment(h, game, victim, chopper, amount)
    case Won(game, winner, rotten) => FinishMatch(h, game, winner, rotten)
    case Drawn(game) => FinishDraw(h, game)
  }

  ghost function After(h: House, e: Event): House
    requires Allowed(h, e)
  {
    match Outcome(h, e)
    case Success(h') => h'
    case Failure(_) => h
  }

  ghost predicate Run(hs: seq<House>, es: seq<Event>) {
    && |hs| == |es| + 1
    && forall i :: 0 <= i < |es| ==> Allowed(hs[i], es[i]) && hs[i + 1] == After(hs[i], es[i])
  }

  /** The room whose pot this step pays out or hands to a game, if any. */
  ghost function Closing(h: House, e: Event): Option<RoomId>
    ensures Closing(h, e).Some? ==> Closing(h, e).value in h.rooms && Open(h.rooms[Closing(h, e).value])
  {
    match e
    case Exit(id, user) =>
      if id in h.rooms && IsMember(h.rooms[id].members, user) && h.rooms[id].status == Waiting && h.rooms[id].host == user
      then Some(id) else None
    case Start(id, _) => if Launches(h, id) then Some(id) else None
    case StartInstant(id, _, _) => if Launches(h, id) then Some(id) else None
    case _ => None
  }

  ghost predicate Launches(h: House, id: RoomId) {
    id in h.rooms && h.rooms[id].status == Starting && PlayersFit(h.rooms[id].kind, |h.rooms[id].members|)
  }

  /** The coins this step loses. */
  ghost function Lost(h: House, e: Event): int {
    match Closing(h, e)
    case Some(id) => Excess(h.rooms[id])
    case None => 0
  }

  /** A leaver of a wager room has one entry in it. */
  ghost predicate Tidy(h: House, e: Event) {
    e.Exit? ==> OneEntry(h, e.id, e.user)
  }

  /** Every step loses exactly the excess of the room it closes. */
  lemma StepLoses(h: House, e: Event)
    requires Backed(h) && Allowed(h, e)
    ensures Backed(After(h, e)) && Worth(After(h, e)) == Worth(h) - Lost(h, e) && Lost(h, e) >= 0
    ensures Tidy(h, e) ==> SameExcess(h, After(h, e))
  {
    hide Sum, Backed, Worth, Excess, OneEntry, Launch, LaunchInstant, CreateRoom, BeginJoin, EndJoin, Leave, SetReady, BeginStart;
    hide ChopPayment, FinishMatch, FinishDraw, Solvent;
    ClosingCovers(h, e);
    NothingHappens(h);
    match e
    case Create(id, kind, mode, host, amount, lo, hi) => CreateConserves(h, id, kind, mode, host, amount, lo, hi);
    case TakeStake(ticket, id, user) => BeginJoinConserves(h, ticket, id, user);
    case Enter(ticket) => EndJoinConserves(h, ticket);
    case Exit(id, user) => LeaveLoses(h, id, user);
    case Ready(id, user, ready) => ReadyConserves(h, id, user, ready);
    case Begin(id, user) => BeginStartConserves(h, id, user);
    case Start(id, game) => LaunchLoses(h, id, game);
    case StartInstant(id, game, winner) => InstantLoses(h, id, game, winner);
    case Chopped(game, victim, chopper, amount) => ChopConserves(h, game, victim, chopper, amount);
    case Won(game, winner, rotten) => FinishConserves(h, game, winner, rotten);
    case Drawn(game) => DrawConserves(h, game);
  }

  lemma NothingHappens(h: House)
    requires Backed(h)
    ensures Loses(h, h, 0)
  {
    hide Backed, Worth;
  }

  lemma ClosingCovers(h: House, e: Event)
    requires Backed(h)
    ensures Lost(h, e) >= 0
    ensures Exact(h) ==> Lost(h, e) == 0
  {
    if Closing(h, e).Some? {
      assert RoomOk(h.rooms[Closing(h, e).value], h.book.balances.Keys);
    }
  }

  /**
   * When open pots match their members, a step keeps them so exactly when it is not a leave of
   * several entries; whether it is or not, it loses no coin.
   */
  lemma StepSoundIff(h: House, e: Event)
    requires Sound(h) && Allowed(h, e)
    ensures Worth(After(h, e)) == Worth(h)
    ensures Sound(After(h, e)) <==> Tidy(h, e)
  {
    StepLoses(h, e);
    ClosingCovers(h, e);
    if !Tidy(h, e) {
      WithoutCount(h.rooms[e.id].members, e.user);
      LeaveExact(h, e.id, e.user);
    }
    hide Backed, Worth, Excess, OneEntry, Lost, After;
  }

  ghost function LostAlong(hs: seq<House>, es: seq<Event>): int
    requires |hs| > |es|
    decreases |es|
  {
    if es == [] then 0 else LostAlong(hs, es[..|es| - 1]) + Lost(hs[|es| - 1], es[|es| - 1])
  }

  lemma {:induction false} LostAlongSame(hs: seq<House>, hs': seq<House>, es: seq<Event>)
    requires |hs| > |es| && |hs'| > |es| && forall i :: 0 <= i < |es| ==> hs'[i] == hs[i]
    ensures LostAlong(hs', es) == LostAlong(hs, es)
    decreases |es|
  {
    if es != [] {
      LostAlongSame(hs, hs', es[..|es| - 1]);
    }
  }

  ghost predicate NothingLost(hs: seq<House>, es: seq<Event>, n: nat)
    requires n <= |es| < |hs|
  {
    forall i :: 0 <= i < n ==> Lost(hs[i], es[i]) == 0
  }

  /**
   * Over every run, whatever is in flight and whoever leaves, the coins that go missing are
   * exactly the excesses of the rooms that were cancelled or launched; so coins are conserved
   * exactly when none of those rooms had more in its pot than its members' bets.
   */
  lemma {:induction false} CoinsConservedIff(hs: seq<House>, es: seq<Event>)
    requires Run(hs, es) && Backed(hs[0])
    ensures Backed(hs[|es|])
    ensures Worth(hs[|es|]) == Worth(hs[0]) - LostAlong(hs, es) <= Worth(hs[0])
    ensures Worth(hs[|es|]) == Worth(hs[0]) <==> NothingLost(hs, es, |es|)
    decreases |es|
  {
    hide Backed, Worth, Allowed, After, Lost;
    if es != [] {
      var last := |es| - 1;
      var front, before := hs[..|es|], es[..last];
      CoinsConservedIff(front, before);
      StepLoses(hs[last], es[last]);
      LostAlongSame(hs, front, before);
      assert forall i :: 0 <= i < last ==> front[i] == hs[i] && before[i] == es[i];
      assert NothingLost(front, before, last) <==> NothingLost(hs, es, last);
      assert NothingLost(hs, es, last + 1) <==> NothingLost(hs, es, last) && Lost(hs[last], es[last]) == 0;
    }
  }

  ghost predicate AllSound(hs: seq<House>, n: nat)
    requires n < |hs|
  {
    forall i :: 0 <= i <= n ==> Sound(hs[i])
  }

  ghost predicate AllTidy(hs: seq<House>, es: seq<Event>, n: nat)
    requires n <= |es| < |hs|
  {
    forall i :: 0 <= i < n ==> Tidy(hs[i], es[i])
  }

  /** Open pots match their members all along a run exactly when every leaver had one entry. */
  lemma {:induction false} PotsMatchIff(hs: seq<House>, es: seq<Event>)
    requires Run(hs, es) && Sound(hs[0])
    ensures AllSound(hs, |es|) <==> AllTidy(hs, es, |es|)
    decreases |es|
  {
    hide Sound, Allowed, After, Tidy;
    if es != [] {
      var last := |es| - 1;
      var front, before := hs[..|es|], es[..last];
      PotsMatchIff(front, before);
      assert forall i :: 0 <= i <= last ==> front[i] == hs[i];
      assert forall i :: 0 <= i < last ==> before[i] == es[i];
      assert AllSound(front, last) <==> AllSound(hs, last);
      assert AllTidy(front, before, last) <==> AllTidy(hs, es, last);
      assert AllSound(hs, last + 1) <==> AllSound(hs, last) && Sound(hs[last + 1]);
      assert AllTidy(hs, es, last + 1) <==> AllTidy(hs, es, last) && Tidy(hs[last], es[last]);
      if Sound(hs[last]) {
        StepSoundIff(hs[last], es[last]);
      }
    }
  }

  /**
   * Over every run in which leavers have one entry, with joins in flight at any point, no coin
   * appears or disappears and open pots match their members.
   */
  lemma {:induction false} CoinsAreConserved(hs: seq<House>, es: seq<Event>)
    requires Run(hs, es) && Sound(hs[0])
    requires forall i :: 0 <= i < |es| ==> Tidy(hs[i], es[i])
    ensures Sound(hs[|es|]) && Worth(hs[|es|]) == Worth(hs[0])
    decreases |es|
  {
    if es != [] {
      var last := |es| - 1;
      hide Sound, Worth, Tidy, Allowed, After;
      CoinsAreConserved(hs[..|es|], es[..last]);
      StepSoundIff(hs[last], es[last]);
    }
  }

  // ---- when leavers have one entry ----

  /** Nobody is in a room twice, joining a room twice, or joining a room they are in. */
  ghost predicate Orderly(h: House) {
    && (forall id :: id in h.rooms ==> Distinct(Users(h.rooms[id].members)))
    && (forall k :: k in h.joins ==> h.joins[k].room in h.rooms && !IsMember(h.rooms[h.joins[k].room].members, h.joins[k].user))
    && (forall k, l :: k in h.joins && l in h.joins && k != l ==>
         h.joins[k].room != h.joins[l].room || h.joins[k].user != h.joins[l].user)
  }

  /** A user does not join a room while another of their joins of that room is in flight. */
  ghost predicate Serial(h: House, e: Event) {
    e.TakeStake? ==> forall k :: k in h.joins ==> h.joins[k].room != e.id || h.joins[k].user != e.user
  }

  lemma {:induction false} DistinctHasOneEntry(members: seq<Member>, user: UserId)
    requires Distinct(Users(members))
    ensures Entries(members, user) <= 1
  {
    if members != [] {
      var rest := members[1..];
      assert Users(rest) == Users(members)[1..];
      DistinctHasOneEntry(rest, user);
      WithoutCount(rest, user);
      forall i | 0 <= i < |rest| ensures rest[i].user != members[0].user {
        assert Users(members)[0] == members[0].user && Users(members)[i + 1] == rest[i].user;
      }
    }
  }

  lemma {:induction false} WithoutStaysDistinct(members: seq<Member>, user: UserId)
    requires Distinct(Users(members))
    ensures Distinct(Users(Without(members, user)))
  {
    if members != [] {
      var first, rest := members[0], members[1..];
      assert Users(rest) == Users(members)[1..];
      WithoutStaysDistinct(rest, user);
      var left := Without(rest, user);
      if first.user != user {
        forall i | 0 <= i < |left| ensures left[i].user != first.user {
          var m := left[i];
          assert m in rest;
          var k :| 0 <= k < |rest| && rest[k] == m;
          assert Users(members)[k + 1] == m.user && Users(members)[0] == first.user;
        }
        assert Users([first] + left) == [first.user] + Users(left);
      }
    }
  }

  lemma RoomStaysOrderly(h: House, h': House, id: RoomId)
    requires Orderly(h) && h'.joins == h.joins && h'.rooms.Keys == h.rooms.Keys + {id}
    requires forall r :: r in h.rooms && r != id ==> h'.rooms[r] == h.rooms[r]
    requires Distinct(Users(h'.rooms[id].members))
    requires id in h.rooms ==> forall u :: IsMember(h'.rooms[id].members, u) ==> IsMember(h.rooms[id].members, u)
    ensures Orderly(h')
  {
  }

  lemma EnterStaysOrderly(h: House, ticket: nat)
    requires Orderly(h) && ticket in h.joins
    ensures EndJoin(h, ticket).Success? && Orderly(EndJoin(h, ticket).value)
  {
    var h' := EndJoin(h, ticket).value;
    var j := h.joins[ticket];
    var members, members' := h.rooms[j.room].members, h'.rooms[j.room].members;
    if members' != members {
      forall i, k | 0 <= i < k < |members'| ensures Users(members')[i] != Users(members')[k] {
        assert Users(members)[i] == members[i].user;
        if k < |members| {
          assert Users(members)[k] == members[k].user;
        }
      }
      forall u | IsMember(members', u) && u != j.user ensures IsMember(members, u) {
        var i :| 0 <= i < |members'| && members'[i].user == u;
        assert members[i].user == u;
      }
    }
  }

  lemma ExitStaysOrderly(h: House, id: RoomId, user: UserId)
    requires Orderly(h)
    ensures var r := Leave(h, id, user); r.Success? ==> Orderly(r.value)
  {
    var r := Leave(h, id, user);
    if r.Success? && r.value != h {
      WithoutStaysDistinct(h.rooms[id].members, user);
      var members, left := h.rooms[id].members, r.value.rooms[id].members;
      forall u | IsMember(left, u) ensures IsMember(members, u) {
        var i :| 0 <= i < |left| && left[i].user == u;
        var m := left[i];
        assert m in members;
      }
      hide Distinct;
      RoomStaysOrderly(h, r.value, id);
    }
  }

  lemma ReadyStaysOrderly(h: House, id: RoomId, user: UserId, ready: bool)
    requires Orderly(h)
    ensures var r := SetReady(h, id, user, ready); r.Success? ==> Orderly(r.value)
  {
    var r := SetReady(h, id, user, ready);
    if r.Success? {
      var members, marked := h.rooms[id].members, r.value.rooms[id].members;
      assert Users(marked) == Users(members);
      forall u | IsMember(marked, u) ensures IsMember(members, u) {
        var i :| 0 <= i < |marked| && marked[i].user == u;
        assert members[i].user == u;
      }
      hide Distinct, WithReady;
      RoomStaysOrderly(h, r.value, id);
    }
  }

  ghost predicate SameMembers(h: House, h': House) {
    && h'.joins == h.joins && h'.rooms.Keys == h.rooms.Keys
    && forall id :: id in h.rooms ==> h'.rooms[id].members == h.rooms[id].members
  }

  lemma SameMembersOrderly(h: House, h': House)
    requires Orderly(h) && (h' == h || SameMembers(h, h'))
    ensures Orderly(h')
  {
  }

  lemma LaunchSameMembers(h: House, id: RoomId, game: GameId, winner: UserId)
    requires game !in h.games
    ensures Launch(h, id, game).Success? ==> SameMembers(h, Launch(h, id, game).value)
    ensures LaunchInstant(h, id, game, winner).Success? ==> SameMembers(h, LaunchInstant(h, id, game, winner).value)
  {
    hide SidePayments, Pay, Users, PlayersFit;
  }

  lemma OtherStepsKeepMembers(h: House, e: Event)
    requires Allowed(h, e) && (e.Begin? || e.Chopped? || e.Won? || e.Drawn?)
    ensures SameMembers(h, After(h, e))
  {
    hide SidePayments, SidePayment, RefundAll, Pay, EveryoneReady;
  }

  lemma CreateStaysOrderly(h: House, e: Event)
    requires Orderly(h) && Allowed(h, e) && e.Create?
    ensures Orderly(After(h, e))
  {
    assert Users([]) == [];
    if After(h, e) != h {
      hide Orderly;
      RoomStaysOrderly(h, After(h, e), e.id);
    }
  }

  lemma StakeStaysOrderly(h: House, e: Event)
    requires Orderly(h) && Allowed(h, e) && Serial(h, e) && e.TakeStake?
    ensures Orderly(After(h, e))
  {
    hide Distinct, Users, Stake;
  }

  lemma StepStaysOrderly(h: House, e: Event)
    requires Orderly(h) && Allowed(h, e) && Serial(h, e)
    ensures Orderly(After(h, e))
  {
    hide Orderly, Serial, CreateRoom, BeginJoin, EndJoin, Leave, SetReady, BeginStart, Launch, LaunchInstant;
    hide ChopPayment, FinishMatch, FinishDraw;
    match e
    case Create(_, _, _, _, _, _, _) => CreateStaysOrderly(h, e);
    case TakeStake(_, _, _) => StakeStaysOrderly(h, e);
    case Enter(ticket) => EnterStaysOrderly(h, ticket);
    case Exit(id, user) => ExitStaysOrderly(h, id, user);
    case Ready(id, user, ready) => ReadyStaysOrderly(h, id, user, ready);
    case Start(id, game) =>
      LaunchSameMembers(h, id, game, 0);
      SameMembersOrderly(h, After(h, e));
    case StartInstant(id, game, winner) =>
      LaunchSameMembers(h, id, game, winner);
      SameMembersOrderly(h, After(h, e));
    case _ =>
      OtherStepsKeepMembers(h, e);
      SameMembersOrderly(h, After(h, e));
  }

  lemma OrderlyIsTidy(h: House, e: Event)
    requires Orderly(h)
    ensures Tidy(h, e)
  {
    if e.Exit? && e.id in h.rooms {
      DistinctHasOneEntry(h.rooms[e.id].members, e.user);
    }
  }

  /** When each user's joins of a room come one after another, coins are conserved whatever else happens. */
  lemma {:induction false} SerialJoinsConserve(hs: seq<House>, es: seq<Event>)
    requires Run(hs, es) && Sound(hs[0]) && Orderly(hs[0])
    requires forall i :: 0 <= i < |es| ==> Serial(hs[i], es[i])
    ensures Sound(hs[|es|]) && Orderly(hs[|es|]) && Worth(hs[|es|]) == Worth(hs[0])
    decreases |es|
  {
    if es != [] {
      var last := |es| - 1;
      hide Sound, Worth, Orderly, Tidy, Allowed, After, Serial;
      SerialJoinsConserve(hs[..|es|], es[..last]);
      OrderlyIsTidy(hs[last], es[last]);
      StepSoundIff(hs[last], es[last]);
      StepStaysOrderly(hs[last], es[last]);
    }
  }

  // ---- it happens ----

  /** One host and one guest whose two joins are in flight together; the guest leaves, then the host. */
  ghost function DoubleJoin(): seq<Event> {
    [Create(0, Caro, Wager, 1, 10, 2, 4), TakeStake(0, 0, 1), Enter(0),
     TakeStake(1, 0, 2), TakeStake(2, 0, 2), Enter(1), Enter(2), Exit(0, 2), Exit(0, 1)]
  }

  const OPEN_ROOM := Room(Caro, Wager, 1, 10, 2, 4, [], Waiting, 0, None)
  const HOST := Member(1, true, false)
  const GUEST := Member(2, true, false)
  const FIRST := Join(0, 2, 10, true)

  ghost predicate Looks(h: House, members: seq<Member>, pot: int, joins: map<nat, Join>, host: int, guest: int) {
    && h.rooms == map[0 := OPEN_ROOM.(members := members, pot := pot)]
    && h.joins == joins && h.games == map[] && h.book.balances == map[1 := host, 2 := guest]
  }

  lemma HostEnters(h: House) returns (h1: House, h2: House, h3: House)
    requires h == House(Book(map[1 := 10, 2 := 20], []), map[], map[], map[])
    ensures Allowed(h, DoubleJoin()[0]) && h1 == After(h, DoubleJoin()[0])
    ensures Allowed(h1, DoubleJoin()[1]) && h2 == After(h1, DoubleJoin()[1])
    ensures Allowed(h2, DoubleJoin()[2]) && h3 == After(h2, DoubleJoin()[2])
    ensures Looks(h3, [HOST], 10, map[], 0, 20)
  {
    h1 := After(h, DoubleJoin()[0]);
    assert Looks(h1, [], 0, map[], 10, 20);
    h2 := After(h1, DoubleJoin()[1]);
    assert Looks(h2, [], 0, map[0 := Join(0, 1, 10, true)], 0, 20);
    h3 := After(h2, DoubleJoin()[2]);
    assert h3.rooms[0].members == [HOST];
  }

  lemma GuestStakesTwice(h: House) returns (h1: House, h2: House)
    requires Looks(h, [HOST], 10, map[], 0, 20)
    ensures Allowed(h, DoubleJoin()[3]) && h1 == After(h, DoubleJoin()[3])
    ensures Allowed(h1, DoubleJoin()[4]) && h2 == After(h1, DoubleJoin()[4])
    ensures Looks(h2, [HOST], 10, map[1 := FIRST, 2 := FIRST], 0, 0)
  {
    h1 := After(h, DoubleJoin()[3]);
    assert Looks(h1, [HOST], 10, map[1 := FIRST], 0, 10);
    h2 := After(h1, DoubleJoin()[4]);
  }

  lemma GuestEntersTwice(h: House) returns (h1: House, h2: House)
    requires Looks(h, [HOST], 10, map[1 := FIRST, 2 := FIRST], 0, 0)
    ensures Allowed(h, DoubleJoin()[5]) && h1 == After(h, DoubleJoin()[5])
    ensures Allowed(h1, DoubleJoin()[6]) && h2 == After(h1, DoubleJoin()[6])
    ensures Looks(h2, [HOST, GUEST, GUEST], 30, map[], 0, 0)
  {
    h1 := After(h, DoubleJoin()[5]);
    assert h1.rooms[0].members == [HOST, GUEST];
    assert Looks(h1, [HOST, GUEST], 20, map[2 := FIRST], 0, 0);
    h2 := After(h1, DoubleJoin()[6]);
    assert h2.rooms[0].members == [HOST, GUEST, GUEST];
  }

  lemma GuestMembers()
    ensures Without([HOST, GUEST, GUEST], 2) == [HOST]
    ensures [HOST, GUEST, GUEST][1].user == 2 && FindMember([HOST, GUEST, GUEST], 2) == GUEST
    ensures StakedUsers([HOST]) == [1]
  {
    assert [HOST, GUEST, GUEST][1..] == [GUEST, GUEST];
    assert [GUEST, GUEST][1..] == [GUEST] && [GUEST][1..] == [];
    assert Without([GUEST], 2) == [];
  }

  lemma GuestLeaves(h: House)
    requires Looks(h, [HOST, GUEST, GUEST], 30, map[], 0, 0)
    ensures Looks(After(h, Exit(0, 2)), [HOST], 20, map[], 0, 10)
  {
    hide Without, FindMember;
    GuestMembers();
    assert h.rooms[0].members[1].user == 2;
  }

  lemma HostCancels(h: House)
    requires Looks(h, [HOST], 20, map[], 0, 10)
    ensures Lost(h, Exit(0, 1)) == 10
    ensures var h' := After(h, Exit(0, 1));
      && 0 in h'.rooms && !Open(h'.rooms[0]) && h'.joins == map[] && h'.games == map[]
      && h'.book.balances == map[1 := 10, 2 := 10]
  {
    hide Without, FindMember, StakedUsers;
    GuestMembers();
    assert h.rooms[0].members[0].user == 1;
    assert [1][1..] == [];
    assert RefundAll(h.book, [1], 10) == OrKeep(Pay(h.book, 1, 10, GameRefund), h.book);
  }

  lemma NineSteps(hs: seq<House>, es: seq<Event>)
    requires |hs| == 10 && |es| == 9 && (forall i :: 0 <= i < 9 ==> Allowed(hs[i], es[i]))
    requires hs[1] == After(hs[0], es[0]) && hs[2] == After(hs[1], es[1]) && hs[3] == After(hs[2], es[2])
    requires hs[4] == After(hs[3], es[3]) && hs[5] == After(hs[4], es[4]) && hs[6] == After(hs[5], es[5])
    requires hs[7] == After(hs[6], es[6]) && hs[8] == After(hs[7], es[7]) && hs[9] == After(hs[8], es[8])
    ensures Run(hs, es)
  {
    hide Allowed, After;
  }

  /** Ten of the thirty coins are in no wallet, room, join or game afterwards. */
  lemma DoubleJoinLosesAStake() returns (hs: seq<House>)
    ensures Run(hs, DoubleJoin()) && Lost(hs[8], DoubleJoin()[8]) == 10
    ensures hs[0] == House(Book(map[1 := 10, 2 := 20], []), map[], map[], map[])
    ensures 0 in hs[9].rooms && !Open(hs[9].rooms[0]) && hs[9].joins == map[] && hs[9].games == map[]
    ensures hs[9].book.balances == map[1 := 10, 2 := 10]
  {
    hide Looks, After, Lost, Excess, Run;
    var h0 := House(Book(map[1 := 10, 2 := 20], []), map[], map[], map[]);
    var h1, h2, h3 := HostEnters(h0);
    var h4, h5 := GuestStakesTwice(h3);
    var h6, h7 := GuestEntersTwice(h5);
    GuestLeaves(h7);
    var h8 := After(h7, Exit(0, 2));
    HostCancels(h8);
    hs := [h0, h1, h2, h3, h4, h5, h6, h7, h8, After(h8, Exit(0, 1))];
    NineSteps(hs, DoubleJoin());
  }
}
