/**
 * What can happen to a room: exactly which events change its status and its members, and
 * under which conditions (src/games/common/rooms.service.ts).
 */
module RoomsRules {
  import opened Wallet
  import opened Rooms
  import opened Escrow

  /** Everybody but the host has said they are ready. */
  ghost predicate AllButHostReady(r: Room) { forall m :: m in r.members && m.user != r.host ==> m.ready }

  lemma ReadyMeans(r: Room)
    ensures EveryoneReady(r) <==> AllButHostReady(r)
  {
    if EveryoneReady(r) {
      forall m | m in r.members && m.user != r.host ensures m.ready {
        var i :| 0 <= i < |r.members| && r.members[i] == m;
      }
    }
    if AllButHostReady(r) {
      forall i | 0 <= i < |r.members| && r.members[i].user != r.host ensures r.members[i].ready {
        assert r.members[i] in r.members;
      }
    }
  }

  /** The game of this event was played from the room. */
  ghost predicate PlayedFrom(h: House, game: GameId, id: RoomId) {
    game in h.games && h.games[game].active && h.games[game].room == id
  }

  /** The events that take a room from one status to another, and what must hold for them. */
  ghost predicate MayChange(h: House, e: Event, id: RoomId, to: RoomStatus)
    requires id in h.rooms
  {
    var r := h.rooms[id];
    match e
    case Begin(x, user) =>
      x == id && user == r.host && r.status == Waiting && |r.members| >= r.minPlayers && AllButHostReady(r) && to == Starting
    case Exit(x, user) => x == id && user == r.host && r.status == Waiting && IsMember(r.members, user) && to == Closed
    case Start(x, _) => x == id && r.status == Starting && to == (if PlayersFit(r.kind, |r.members|) then InProgress else Waiting)
    case StartInstant(x, _, _) =>
      x == id && r.status == Starting && to == (if PlayersFit(r.kind, |r.members|) then InProgress else Waiting)
    case Won(game, _, _) => PlayedFrom(h, game, id) && r.status != Closed && to == Closed
    case Drawn(game) => PlayedFrom(h, game, id) && |h.games[game].players| == 2 && r.status != Closed && to == Closed
    case _ => false
  }

  /** A room changes its status exactly in those cases, and never disappears. */
  lemma StatusChangesIff(h: House, e: Event, id: RoomId)
    requires Allowed(h, e) && id in h.rooms
    ensures id in After(h, e).rooms
    ensures var to := After(h, e).rooms[id].status;
      if to != h.rooms[id].status then MayChange(h, e, id, to) else forall s :: s != to ==> !MayChange(h, e, id, s)
  {
    ReadyMeans(h.rooms[id]);
    hide EveryoneReady, AllButHostReady, Pay, Stake, RefundAll, SidePayments, SidePayment, Without, WithReady, Users, IsMember, FindMember, StakedUsers;
  }

  /** The room's rules, its host and its bet never change. */
  lemma RulesStay(h: House, e: Event, id: RoomId)
    requires Allowed(h, e) && id in h.rooms
    ensures id in After(h, e).rooms
    ensures var r, r' := h.rooms[id], After(h, e).rooms[id];
      r' == r.(members := r'.members, status := r'.status, pot := r'.pot, game := r'.game)
  {
    hide EveryoneReady, Pay, Stake, RefundAll, SidePayments, SidePayment, Without, WithReady, Users, IsMember, FindMember, StakedUsers, PlayersFit;
  }

  /** `b` is `a` with the first entry of the user marked. */
  ghost predicate MarkedReady(a: seq<Member>, b: seq<Member>, user: UserId, ready: bool) {
    exists i :: 0 <= i < |a| && a[i].user == user && (forall k :: 0 <= k < i ==> a[k].user != user)
      && b == a[i := a[i].(ready := ready)]
  }

  lemma {:induction false} WithReadyMarks(members: seq<Member>, user: UserId, ready: bool)
    requires IsMember(members, user)
    ensures MarkedReady(members, WithReady(members, user, ready), user, ready)
  {
    hide MarkedReady;
    if members[0].user == user {
      MarkedFirst(members, ready);
    } else {
      var rest := members[1..];
      var j :| 0 <= j < |members| && members[j].user == user;
      assert rest[j - 1].user == user;
      WithReadyMarks(rest, user, ready);
      MarkedLater(members[0], rest, WithReady(rest, user, ready), user, ready);
      assert members == [members[0]] + rest;
    }
  }

  lemma MarkedFirst(members: seq<Member>, ready: bool)
    requires members != []
    ensures MarkedReady(members, [members[0].(ready := ready)] + members[1..], members[0].user, ready)
  {
    assert [members[0].(ready := ready)] + members[1..] == members[0 := members[0].(ready := ready)];
  }

  lemma MarkedLater(first: Member, rest: seq<Member>, marked: seq<Member>, user: UserId, ready: bool)
    requires MarkedReady(rest, marked, user, ready) && first.user != user
    ensures MarkedReady([first] + rest, [first] + marked, user, ready)
  {
    var i :| 0 <= i < |rest| && rest[i].user == user && (forall k :: 0 <= k < i ==> rest[k].user != user)
      && marked == rest[i := rest[i].(ready := ready)];
    var a := [first] + rest;
    assert a[i + 1].user == user && forall k :: 0 <= k < i + 1 ==> a[k].user != user;
    assert [first] + marked == a[i + 1 := a[i + 1].(ready := ready)];
  }

  /** Who is in a room changes only by a join that ends while it waits, by a leave while it waits, and by a ready mark. */
  lemma MembersChangeOnlyBy(h: House, e: Event, id: RoomId)
    requires Allowed(h, e) && id in h.rooms
    ensures id in After(h, e).rooms
    ensures var a, b := h.rooms[id].members, After(h, e).rooms[id].members;
      || b == a
      || (e.Enter? && h.rooms[id].status == Waiting && e.ticket in h.joins && h.joins[e.ticket].room == id
           && b == a + [Member(h.joins[e.ticket].user, h.joins[e.ticket].staked, false)])
      || (e.Exit? && e.id == id && h.rooms[id].status == Waiting && e.user != h.rooms[id].host
           && (forall m :: m in b <==> m in a && m.user != e.user))
      || (e.Ready? && e.id == id && MarkedReady(a, b, e.user, e.ready))
  {
    if e.Ready? && e.id == id && IsMember(h.rooms[id].members, e.user) {
      WithReadyMarks(h.rooms[id].members, e.user, e.ready);
    }
    hide EveryoneReady, Pay, Stake, RefundAll, SidePayments, SidePayment, WithReady, MarkedReady, Users, IsMember, FindMember, StakedUsers, PlayersFit;
  }

  /** A join is let in exactly while the room waits and is not full, for somebody not yet in it who can pay the bet. */
  lemma JoinBeginsIff(h: House, ticket: nat, id: RoomId, user: UserId)
    requires Backed(h) && ticket !in h.joins
    ensures (BeginJoin(h, ticket, id, user).Success? && ticket in BeginJoin(h, ticket, id, user).value.joins) <==>
      && id in h.rooms && h.rooms[id].status == Waiting && |h.rooms[id].members| < h.rooms[id].maxPlayers
      && (forall m :: m in h.rooms[id].members ==> m.user != user)
      && (h.rooms[id].mode == Wager ==> user in h.book.balances && h.book.balances[user] >= h.rooms[id].bet)
  {
    if id in h.rooms {
      RoomBacked(h, id);
      MemberMeans(h.rooms[id].members, user);
    }
    hide Backed, IsMember, RoomOk;
  }

  lemma MemberMeans(members: seq<Member>, user: UserId)
    ensures IsMember(members, user) <==> exists m :: m in members && m.user == user
  {
    if IsMember(members, user) {
      var i :| 0 <= i < |members| && members[i].user == user;
      assert members[i] in members;
    }
  }

  /** A room is made exactly for two players or more and, with a stake, for a positive bet; it starts empty. */
  lemma CreateExact(h: House, id: RoomId, kind: Kind, mode: Mode, host: UserId, amount: int, lo: int, hi: int)
    requires id !in h.rooms
    ensures var r := CreateRoom(h, id, kind, mode, host, amount, lo, hi);
      && (r.Success? <==> 2 <= lo <= hi && (mode == Wager ==> amount > 0))
      && (r.Success? ==>
           && r.value == h.(rooms := r.value.rooms) && r.value.rooms.Keys == h.rooms.Keys + {id}
           && (forall x :: x in h.rooms ==> r.value.rooms[x] == h.rooms[x])
           && var room := r.value.rooms[id];
           && room.members == [] && room.pot == 0 && room.status == Waiting && room.host == host
           && room.minPlayers == lo && room.maxPlayers == hi && room.bet == (if mode == Wager then amount else 0))
  {
  }

  /** A ready mark is taken from members only, and set. */
  lemma ReadyExact(h: House, id: RoomId, user: UserId, ready: bool)
    ensures var r := SetReady(h, id, user, ready);
      && (r.Success? <==> id in h.rooms && IsMember(h.rooms[id].members, user))
      && (r.Success? ==> id in r.value.rooms && MarkedReady(h.rooms[id].members, r.value.rooms[id].members, user, ready))
  {
    if id in h.rooms && IsMember(h.rooms[id].members, user) {
      WithReadyMarks(h.rooms[id].members, user, ready);
    }
    hide MarkedReady, WithReady, IsMember;
  }
}
