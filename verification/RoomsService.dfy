/**
 * The lobby as an object: room records, joins in flight and games, next to the wallet
 * (src/games/common/rooms.service.ts with the settlements of the game services). Each method
 * is proved to do to the stored state what the operations of module Rooms say.
 */
module RoomsService {
  import opened Wrappers
  import opened Wallet
  import opened Rooms

  class Lobby {
    var rooms: map<RoomId, Room>
    var joins: map<nat, Join>
    var games: map<GameId, Match>
    const wager: WagerService

    function Contents(): House
      reads this, wager.wallet
    {
      House(wager.wallet.Contents(), rooms, joins, games)
    }

    constructor (wager: WagerService)
      ensures this.wager == wager
      ensures Contents() == House(wager.wallet.Contents(), map[], map[], map[])
    {
      this.wager := wager;
      rooms, joins, games := map[], map[], map[];
    }

    /** The stored state is the outcome's, or the one before if the operation was refused. */
    ghost predicate Does(before: House, outcome: Result<House, RoomError>, r: Result<(), RoomError>)
      reads this, wager.wallet
    {
      match outcome
      case Success(h) => Contents() == h && r == Success(())
      case Failure(e) => Contents() == before && r == Failure(e)
    }

    method Create(id: RoomId, kind: Kind, mode: Mode, host: UserId, amount: int, lo: int, hi: int)
      returns (r: Result<(), RoomError>)
      requires id !in rooms
      modifies `rooms
      ensures Does(old(Contents()), CreateRoom(old(Contents()), id, kind, mode, host, amount, lo, hi), r)
    {
      if lo < 2 || hi < lo {
        return Failure(BadCounts);
      }
      var bet := 0;
      if mode == Wager {
        bet := amount;
        if bet <= 0 {
          return Failure(BadBet);
        }
      }
      rooms := rooms[id := Room(kind, mode, host, bet, lo, hi, [], Waiting, 0, None)];
      r := Success(());
    }

    /** A join up to the point where its stake has been taken. */
    method TakeStake(ticket: nat, id: RoomId, user: UserId) returns (r: Result<(), RoomError>)
      requires ticket !in joins
      modifies `joins, wager.wallet
      ensures Does(old(Contents()), BeginJoin(old(Contents()), ticket, id, user), r)
    {
      if id !in rooms {
        return Failure(NoSuchRoom);
      }
      var room := rooms[id];
      if room.status != Waiting {
        return Failure(NotOpen);
      }
      if IsMember(room.members, user) {
        return Success(());
      }
      if |room.members| >= room.maxPlayers {
        return Failure(Full);
      }
      var staked := false;
      if room.mode == Wager {
        staked := wager.CollectStake(user, room.bet);
        if !staked {
          return Failure(CannotPay);
        }
      }
      joins := joins[ticket := Join(id, user, room.bet, staked)];
      r := Success(());
    }

    /** The rest of that join: the member is added if the room still waits, else refunded. */
    method Enter(ticket: nat) returns (r: Result<(), RoomError>)
      modifies `rooms, `joins, wager.wallet
      ensures Does(old(Contents()), EndJoin(old(Contents()), ticket), r)
    {
      if ticket !in joins {
        return Failure(NoSuchJoin);
      }
      var j := joins[ticket];
      if j.room !in rooms {
        return Failure(NoSuchRoom);
      }
      joins := joins - {ticket};
      var room := rooms[j.room];
      if room.status == Waiting {
        var stake := if j.staked then j.bet else 0;
        rooms := rooms[j.room := room.(
          members := room.members + [Member(j.user, j.staked, false)],
          pot := room.pot + stake)];
      } else if j.staked {
        var _ := wager.PayTo(j.user, j.bet, GameRefund);
      }
      r := Success(());
    }

    method DoCancel(id: RoomId)
      requires id in rooms
      modifies `rooms, wager.wallet
      ensures Contents() == Cancel(old(Contents()), id)
    {
      var room := rooms[id];
      if room.status == Closed {
        return;
      }
      rooms := rooms[id := room.(status := Closed)];
      if room.mode == Wager {
        var staked := CollectStaked(room.members);
        wager.RefundMany(staked, room.bet);
      }
    }

    method CollectStaked(members: seq<Member>) returns (staked: seq<UserId>)
      ensures staked == StakedUsers(members)
    {
      staked := [];
      for i := 0 to |members|
        invariant staked + StakedUsers(members[i..]) == StakedUsers(members)
      {
        assert members[i..][1..] == members[i + 1..];
        if members[i].staked {
          staked := staked + [members[i].user];
        }
      }
    }

    method DoLeave(id: RoomId, user: UserId) returns (r: Result<(), RoomError>)
      modifies `rooms, wager.wallet
      ensures Does(old(Contents()), Leave(old(Contents()), id, user), r)
    {
      if id !in rooms {
        return Failure(NoSuchRoom);
      }
      var room := rooms[id];
      if !IsMember(room.members, user) {
        return Success(());
      }
      if room.status == Waiting && room.host == user {
        DoCancel(id);
        return Success(());
      }
      if room.status != Waiting {
        return Failure(AlreadyStarted);
      }
      var refund := if FindMember(room.members, user).staked then room.bet else 0;
      rooms := rooms[id := room.(members := Without(room.members, user), pot := room.pot - refund)];
      if refund > 0 {
        var _ := wager.PayTo(user, refund, GameRefund);
      }
      r := Success(());
    }

    method DoSetReady(id: RoomId, user: UserId, ready: bool) returns (r: Result<(), RoomError>)
      modifies `rooms
      ensures Does(old(Contents()), SetReady(old(Contents()), id, user, ready), r)
    {
      if id !in rooms {
        return Failure(NoSuchRoom);
      }
      if !IsMember(rooms[id].members, user) {
        return Failure(NotMember);
      }
      rooms := rooms[id := rooms[id].(members := WithReady(rooms[id].members, user, ready))];
      r := Success(());
    }

    method DoBeginStart(id: RoomId, user: UserId) returns (r: Result<(), RoomError>)
      modifies `rooms
      ensures Does(old(Contents()), BeginStart(old(Contents()), id, user), r)
    {
      if id !in rooms {
        return Failure(NoSuchRoom);
      }
      var room := rooms[id];
      if room.host != user {
        return Failure(NotHost);
      }
      if room.status != Waiting {
        return Failure(NotOpen);
      }
      if |room.members| < room.minPlayers {
        return Failure(TooFew);
      }
      if !EveryoneReady(room) {
        return Failure(NotReady);
      }
      rooms := rooms[id := room.(status := Starting)];
      r := Success(());
    }

    method MarkInProgress(id: RoomId, game: GameId)
      requires id in rooms
      modifies `rooms
      ensures rooms == old(rooms)[id := old(rooms)[id].(status := InProgress, game := Some(game))]
    {
      rooms := rooms[id := rooms[id].(status := InProgress, game := Some(game))];
    }

    method RevertToWaiting(id: RoomId)
      modifies `rooms
      ensures rooms == if id in old(rooms) && old(rooms)[id].status == Starting
        then old(rooms)[id := old(rooms)[id].(status := Waiting)] else old(rooms)
    {
      if id in rooms && rooms[id].status == Starting {
        rooms := rooms[id := rooms[id].(status := Waiting)];
      }
    }

    method Close(id: RoomId)
      modifies `rooms
      ensures rooms == CloseRoom(old(Contents()), id)
    {
      if id in rooms {
        rooms := rooms[id := rooms[id].(status := Closed)];
      }
    }

    method DoLaunch(id: RoomId, game: GameId) returns (r: Result<(), RoomError>)
      requires game !in games
      modifies `rooms, `games
      ensures Does(old(Contents()), Launch(old(Contents()), id, game), r)
    {
      if id !in rooms {
        return Failure(NoSuchRoom);
      }
      var room := rooms[id];
      if room.status != Starting {
        return Failure(NotStarting);
      }
      if PlayersFit(room.kind, |room.members|) {
        games := games[game := Match(id, room.mode, Users(room.members), room.bet, room.bet * |room.members|, true)];
        MarkInProgress(id, game);
      } else {
        RevertToWaiting(id);
      }
      r := Success(());
    }

    method PaySide(payer: UserId, payee: UserId, amount: int)
      modifies wager.wallet
      ensures wager.wallet.Contents() == SidePayment(old(wager.wallet.Contents()), payer, payee, amount)
    {
      var debited := wager.CollectStake(payer, amount);
      if debited {
        var _ := wager.PayTo(payee, amount, GamePayout);
      }
    }

    method DoFinish(game: GameId, winner: UserId, rotten: seq<(UserId, int)>) returns (r: Result<(), RoomError>)
      modifies this, wager.wallet
      ensures Does(old(Contents()), FinishMatch(old(Contents()), game, winner, rotten), r)
    {
      if game !in games || !games[game].active {
        return Failure(NoSuchGame);
      }
      var m := games[game];
      games := games[game := m.(active := false)];
      if m.mode == Wager && m.pot > 0 {
        var _ := wager.PayTo(winner, m.pot, GamePayout);
        ghost var paid := wager.wallet.Contents();
        for i := 0 to |rotten|
          invariant rooms == old(rooms) && joins == old(joins) && games == old(games)[game := m.(active := false)]
          invariant SidePayments(wager.wallet.Contents(), rotten[i..], winner) == SidePayments(paid, rotten, winner)
        {
          PaySide(rotten[i].0, winner, rotten[i].1);
          assert rotten[i..][1..] == rotten[i + 1..];
        }
      }
      Close(m.room);
      r := Success(());
    }

    method DoDraw(game: GameId) returns (r: Result<(), RoomError>)
      modifies this, wager.wallet
      ensures Does(old(Contents()), FinishDraw(old(Contents()), game), r)
    {
      if game !in games || !games[game].active || |games[game].players| != 2 {
        return Failure(NoSuchGame);
      }
      var m := games[game];
      games := games[game := m.(active := false)];
      if m.mode == Wager && m.pot > 0 {
        wager.RefundMany(m.players, m.bet);
      }
      Close(m.room);
      r := Success(());
    }

    /** The order of the source: the game is settled and the room closed before it is marked in progress. */
    method DoLaunchInstant(id: RoomId, game: GameId, winner: UserId) returns (r: Result<(), RoomError>)
      requires game !in games
      modifies this, wager.wallet
      ensures Does(old(Contents()), LaunchInstant(old(Contents()), id, game, winner), r)
    {
      if id !in rooms {
        return Failure(NoSuchRoom);
      }
      var room := rooms[id];
      if room.status != Starting {
        return Failure(NotStarting);
      }
      if PlayersFit(room.kind, |room.members|) {
        games := games[game := Match(id, room.mode, Users(room.members), room.bet, room.bet * |room.members|, true)];
        var _ := DoFinish(game, winner, []);
        MarkInProgress(id, game);
      } else {
        RevertToWaiting(id);
      }
      r := Success(());
    }
  }
}
