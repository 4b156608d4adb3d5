/**
 * Lobby rooms, the stakes they hold in escrow and the games they turn into
 * (src/games/common/rooms.service.ts, with the settlements of the three game services).
 *
 * A join is two steps, as in the service: the stake is debited first and the member added
 * (or the stake refunded) later, so other operations may run in between.
 */
module Rooms {
  import opened Wrappers
  import opened Wallet

  type RoomId = nat
  type GameId = nat

  datatype Mode = Ranked | Wager | Casual

  datatype Kind = Caro | TienLen | Bomberman

  datatype RoomStatus = Waiting | Starting | InProgress | Closed

  datatype Member = Member(user: UserId, staked: bool, ready: bool)

  datatype Room = Room(
    kind: Kind, mode: Mode, host: UserId, bet: int, minPlayers: int, maxPlayers: int,
    members: seq<Member>, status: RoomStatus, pot: int, game: Option<GameId>)

  /** A join whose stake has been taken and whose member has not been added yet. */
  datatype Join = Join(room: RoomId, user: UserId, bet: int, staked: bool)

  datatype Match = Match(room: RoomId, mode: Mode, players: seq<UserId>, bet: int, pot: int, active: bool)

  datatype House = House(book: Book, rooms: map<RoomId, Room>, joins: map<nat, Join>, games: map<GameId, Match>)

  datatype RoomError =
    | NoSuchRoom | BadCounts | BadBet | NotOpen | Full | CannotPay | AlreadyStarted
    | NotHost | TooFew | NotReady | NotMember | NoSuchJoin | NoSuchGame | NotStarting

  // ---- members ----

  predicate IsMember(members: seq<Member>, user: UserId) {
    exists i :: 0 <= i < |members| && members[i].user == user
  }

  function Users(members: seq<Member>): (r: seq<UserId>)
    ensures |r| == |members|
    ensures forall i :: 0 <= i < |members| ==> r[i] == members[i].user
  {
    seq(|members|, i requires 0 <= i < |members| => members[i].user)
  }

  function StakedUsers(members: seq<Member>): (r: seq<UserId>)
    ensures |r| <= |members|
  {
    if members == [] then []
    else (if members[0].staked then [members[0].user] else []) + StakedUsers(members[1..])
  }

  /** Every entry of `user` goes, however many there are. */
  function Without(members: seq<Member>, user: UserId): (r: seq<Member>)
    ensures forall m :: m in r <==> m in members && m.user != user
  {
    if members == [] then []
    else (if members[0].user == user then [] else [members[0]]) + Without(members[1..], user)
  }

  function Entries(members: seq<Member>, user: UserId): nat {
    if members == [] then 0 else (if members[0].user == user then 1 else 0) + Entries(members[1..], user)
  }

  function FindMember(members: seq<Member>, user: UserId): (m: Member)
    requires IsMember(members, user)
    ensures m in members && m.user == user
  {
    if members[0].user == user then members[0] else FindMember(members[1..], user)
  }

  function WithReady(members: seq<Member>, user: UserId, ready: bool): (r: seq<Member>)
    ensures |r| == |members|
    ensures forall i :: 0 <= i < |members| ==> r[i].user == members[i].user && r[i].staked == members[i].staked
  {
    if members == [] then []
    else if members[0].user == user then [members[0].(ready := ready)] + members[1..]
    else [members[0]] + WithReady(members[1..], user, ready)
  }

  predicate EveryoneReady(r: Room) {
    forall i :: 0 <= i < |r.members| && r.members[i].user != r.host ==> r.members[i].ready
  }

  // ---- operations ----

  function CreateRoom(h: House, id: RoomId, kind: Kind, mode: Mode, host: UserId, amount: int, lo: int, hi: int): Result<House, RoomError>
    requires id !in h.rooms
  {
    var bet := if mode == Wager then amount else 0;
    if lo < 2 || hi < lo then Failure(BadCounts)
    else if mode == Wager && bet <= 0 then Failure(BadBet)
    else Success(h.(rooms := h.rooms[id := Room(kind, mode, host, bet, lo, hi, [], Waiting, 0, None)]))
  }

  /** First step of a join: the checks and the debit. */
  function BeginJoin(h: House, ticket: nat, id: RoomId, user: UserId): Result<House, RoomError>
    requires ticket !in h.joins
  {
    if id !in h.rooms then Failure(NoSuchRoom)
    else
      var room := h.rooms[id];
      if room.status != Waiting then Failure(NotOpen)
      else if IsMember(room.members, user) then Success(h)
      else if |room.members| >= room.maxPlayers then Failure(Full)
      else if room.mode != Wager then
        Success(h.(joins := h.joins[ticket := Join(id, user, room.bet, false)]))
      else
        match Stake(h.book, user, room.bet)
        case Failure(_) => Failure(CannotPay)
        case Success(book) =>
          Success(h.(book := book, joins := h.joins[ticket := Join(id, user, room.bet, true)]))
  }

  /** Second step: add the member if the room is still waiting, else give the stake back. */
  function EndJoin(h: House, ticket: nat): Result<House, RoomError> {
    if ticket !in h.joins then Failure(NoSuchJoin)
    else
      var j := h.joins[ticket];
      var rest := h.(joins := h.joins - {ticket});
      if j.room !in h.rooms then Failure(NoSuchRoom)
      else
        var room := h.rooms[j.room];
        if room.status == Waiting then
          Success(rest.(rooms := h.rooms[j.room := room.(
            members := room.members + [Member(j.user, j.staked, false)],
            pot := room.pot + if j.staked then j.bet else 0)]))
        else if j.staked then
          Success(rest.(book := OrKeep(Pay(h.book, j.user, j.bet, GameRefund), h.book)))
        else Success(rest)
  }

  function Cancel(h: House, id: RoomId): House
    requires id in h.rooms
  {
    var room := h.rooms[id];
    if room.status == Closed then h
    else
      h.(rooms := h.rooms[id := room.(status := Closed)],
         book := if room.mode == Wager then RefundAll(h.book, StakedUsers(room.members), room.bet) else h.book)
  }

  function Leave(h: House, id: RoomId, user: UserId): Result<House, RoomError> {
    if id !in h.rooms then Failure(NoSuchRoom)
    else
      var room := h.rooms[id];
      if !IsMember(room.members, user) then Success(h)
      else if room.status == Waiting && room.host == user then Success(Cancel(h, id))
      else if room.status != Waiting then Failure(AlreadyStarted)
      else
        var refund := if FindMember(room.members, user).staked then room.bet else 0;
        Success(h.(
          rooms := h.rooms[id := room.(members := Without(room.members, user), pot := room.pot - refund)],
          book := OrKeep(Pay(h.book, user, refund, GameRefund), h.book)))
  }

  function SetReady(h: House, id: RoomId, user: UserId, ready: bool): Result<House, RoomError> {
    if id !in h.rooms then Failure(NoSuchRoom)
    else
      var room := h.rooms[id];
      if !IsMember(room.members, user) then Failure(NotMember)
      else Success(h.(rooms := h.rooms[id := room.(members := WithReady(room.members, user, ready))]))
  }

  function BeginStart(h: House, id: RoomId, user: UserId): Result<House, RoomError> {
    if id !in h.rooms then Failure(NoSuchRoom)
    else
      var room := h.rooms[id];
      if room.host != user then Failure(NotHost)
      else if room.status != Waiting then Failure(NotOpen)
      else if |room.members| < room.minPlayers then Failure(TooFew)
      else if !EveryoneReady(room) then Failure(NotReady)
      else Success(h.(rooms := h.rooms[id := room.(status := Starting)]))
  }

  predicate PlayersFit(kind: Kind, n: nat) {
    if kind == Caro then n == 2 else 2 <= n <= 4
  }

  /** Turns a starting room into a game, or puts it back to waiting when the game refuses its players. */
  function Launch(h: House, id: RoomId, game: GameId): Result<House, RoomError>
    requires game !in h.games
  {
    if id !in h.rooms then Failure(NoSuchRoom)
    else
      var room := h.rooms[id];
      if room.status != Starting then Failure(NotStarting)
      else if !PlayersFit(room.kind, |room.members|) then
        Success(h.(rooms := h.rooms[id := room.(status := Waiting)]))
      else
        Success(h.(
          rooms := h.rooms[id := room.(status := InProgress, game := Some(game))],
          games := h.games[game := Match(id, room.mode, Users(room.members), room.bet, room.bet * |room.members|, true)]))
  }

  /** Coins from one player to another during a game, if the payer can afford them. */
  function SidePayment(b: Book, payer: UserId, payee: UserId, amount: int): Book {
    match Stake(b, payer, amount)
    case Failure(_) => b
    case Success(b') => OrKeep(Pay(b', payee, amount, GamePayout), b')
  }

  function SidePayments(b: Book, payments: seq<(UserId, int)>, payee: UserId): Book
    decreases |payments|
  {
    if payments == [] then b
    else SidePayments(SidePayment(b, payments[0].0, payee, payments[0].1), payments[1..], payee)
  }

  function ChopPayment(h: House, game: GameId, victim: UserId, chopper: UserId, amount: int): Result<House, RoomError> {
    if game !in h.games || !h.games[game].active then Failure(NoSuchGame)
    else if h.games[game].mode != Wager then Success(h)
    else Success(h.(book := SidePayment(h.book, victim, chopper, amount)))
  }

  function CloseRoom(h: House, id: RoomId): map<RoomId, Room> {
    if id in h.rooms then h.rooms[id := h.rooms[id].(status := Closed)] else h.rooms
  }

  /** The winner takes the pot; then whoever kept twos pays the winner, as far as they can. */
  function FinishMatch(h: House, game: GameId, winner: UserId, rotten: seq<(UserId, int)>): Result<House, RoomError> {
    if game !in h.games || !h.games[game].active then Failure(NoSuchGame)
    else
      var m := h.games[game];
      var book := if m.mode == Wager && m.pot > 0
        then SidePayments(OrKeep(Pay(h.book, winner, m.pot, GamePayout), h.book), rotten, winner)
        else h.book;
      Success(h.(book := book, games := h.games[game := m.(active := false)], rooms := CloseRoom(h, m.room)))
  }

  /** A drawn two-player game refunds each stake. */
  function FinishDraw(h: House, game: GameId): Result<House, RoomError> {
    if game !in h.games || !h.games[game].active || |h.games[game].players| != 2 then Failure(NoSuchGame)
    else
      var m := h.games[game];
      var book := if m.mode == Wager && m.pot > 0 then RefundAll(h.book, m.players, m.bet) else h.book;
      Success(h.(book := book, games := h.games[game := m.(active := false)], rooms := CloseRoom(h, m.room)))
  }

  /**
   * A game decided by the deal: it is settled and its room closed inside the launch, and only
   * then is the room marked in progress.
   */
  function LaunchInstant(h: House, id: RoomId, game: GameId, winner: UserId): Result<House, RoomError>
    requires game !in h.games
  {
    match Launch(h, id, game)
    case Failure(e) => Failure(e)
    case Success(launched) =>
      if game !in launched.games then Success(launched)
      else
        match FinishMatch(launched, game, winner, [])
        case Failure(e) => Failure(e)
        case Success(done) =>
          if id in done.rooms
          then Success(done.(rooms := done.rooms[id := done.rooms[id].(status := InProgress)]))
          else Success(done)
  }
}
