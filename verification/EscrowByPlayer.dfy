/**
 * Whose coins they are: what each player owns, in their wallet and at stake in rooms, joins
 * and games, over every run of room and game operations. Joining, leaving, cancelling,
 * starting and drawing move nobody's coins to anybody else; a win moves every stake of the
 * game to its winner.
 */
module EscrowByPlayer {
  import opened Sums
  import opened Wallet
  import opened Rooms
  import opened Escrow

  // ---- what a player owns ----

  ghost function StakeInRoom(r: Room, u: UserId): int { if Open(r) then r.bet * Entries(r.members, u) else 0 }

  ghost function StakeInJoin(j: Join, u: UserId): int { if j.staked && j.user == u then j.bet else 0 }

  /** How often a list names the user. */
  ghost function Times(users: seq<UserId>, u: UserId): nat { multiset(users)[u] }

  ghost function StakeInGame(m: Match, u: UserId): int { if m.active then m.bet * Times(m.players, u) else 0 }

  ghost function RoomStakes(rooms: map<RoomId, Room>, u: UserId): map<nat, int> {
    map id | id in rooms :: StakeInRoom(rooms[id], u)
  }

  ghost function JoinStakesOf(joins: map<nat, Join>, u: UserId): map<nat, int> {
    map k | k in joins :: StakeInJoin(joins[k], u)
  }

  ghost function GameStakes(games: map<GameId, Match>, u: UserId): map<nat, int> {
    map g | g in games :: StakeInGame(games[g], u)
  }

  ghost function AtStake(h: House, u: UserId): int {
    Sum(RoomStakes(h.rooms, u)) + Sum(JoinStakesOf(h.joins, u)) + Sum(GameStakes(h.games, u))
  }

  ghost function Balance(b: Book, u: UserId): int { if u in b.balances then b.balances[u] else 0 }

  /** A player's coins: in the wallet and at stake. */
  ghost function Wealth(h: House, u: UserId): int { Balance(h.book, u) + AtStake(h, u) }

  lemma RoomChanged(h: House, id: RoomId, r: Room, u: UserId)
    ensures AtStake(h.(rooms := h.rooms[id := r]), u) ==
      AtStake(h, u) + StakeInRoom(r, u) - if id in h.rooms then StakeInRoom(h.rooms[id], u) else 0
  {
    assert RoomStakes(h.rooms[id := r], u) == RoomStakes(h.rooms, u)[id := StakeInRoom(r, u)];
    SumUpdate(RoomStakes(h.rooms, u), id, StakeInRoom(r, u));
    hide Sum, StakeInRoom;
  }

  lemma JoinPut(h: House, k: nat, j: Join, u: UserId)
    requires k !in h.joins
    ensures AtStake(h.(joins := h.joins[k := j]), u) == AtStake(h, u) + StakeInJoin(j, u)
  {
    assert JoinStakesOf(h.joins[k := j], u) == JoinStakesOf(h.joins, u)[k := StakeInJoin(j, u)];
    SumUpdate(JoinStakesOf(h.joins, u), k, StakeInJoin(j, u));
    hide Sum, StakeInJoin;
  }

  lemma JoinTaken(h: House, k: nat, u: UserId)
    requires k in h.joins
    ensures AtStake(h.(joins := h.joins - {k}), u) == AtStake(h, u) - StakeInJoin(h.joins[k], u)
  {
    assert JoinStakesOf(h.joins - {k}, u) == JoinStakesOf(h.joins, u) - {k};
    SumRemove(JoinStakesOf(h.joins, u), k);
    hide Sum, StakeInJoin;
  }

  lemma GameChanged(h: House, g: GameId, m: Match, u: UserId)
    ensures AtStake(h.(games := h.games[g := m]), u) ==
      AtStake(h, u) + StakeInGame(m, u) - if g in h.games then StakeInGame(h.games[g], u) else 0
  {
    assert GameStakes(h.games[g := m], u) == GameStakes(h.games, u)[g := StakeInGame(m, u)];
    SumUpdate(GameStakes(h.games, u), g, StakeInGame(m, u));
    hide Sum, StakeInGame;
  }

  lemma BookDoesNotStake(h: House, b: Book, u: UserId)
    ensures AtStake(h.(book := b), u) == AtStake(h, u)
  {
  }

  // ---- payments, balance by balance ----

  lemma PayBy(b: Book, user: UserId, amount: int, kind: TxType, u: UserId)
    requires amount >= 0 && (amount > 0 ==> user in b.balances)
    ensures var b' := OrKeep(Pay(b, user, amount, kind), b);
      && b'.balances.Keys == b.balances.Keys
      && Balance(b', u) == Balance(b, u) + if u == user then amount else 0
  {
  }

  lemma StakeBy(b: Book, user: UserId, amount: int, u: UserId)
    ensures var r := Stake(b, user, amount); r.Success? ==>
      && r.value.balances.Keys == b.balances.Keys
      && Balance(r.value, u) == Balance(b, u) - if u == user then amount else 0
  {
  }

  lemma TimesFirst(users: seq<UserId>, u: UserId)
    ensures Times([], u) == 0
    ensures users != [] ==> Times(users, u) == Times(users[1..], u) + if u == users[0] then 1 else 0
  {
    if users != [] {
      assert users == [users[0]] + users[1..];
    }
  }

  lemma {:induction false} RefundAllBy(b: Book, users: seq<UserId>, amount: int, u: UserId)
    requires amount >= 0 && forall x :: x in users ==> x in b.balances
    ensures var b' := RefundAll(b, users, amount);
      b'.balances.Keys == b.balances.Keys && Balance(b', u) == Balance(b, u) + amount * Times(users, u)
    decreases |users|
  {
    hide Pay, Balance, Times;
    TimesFirst(users, u);
    if users != [] {
      var user, rest := users[0], users[1..];
      assert user in users && forall x :: x in rest ==> x in users;
      PayBy(b, user, amount, GameRefund, u);
      RefundAllBy(OrKeep(Pay(b, user, amount, GameRefund), b), rest, amount, u);
      OneMore(amount, Times(rest, u));
    }
  }

  /** What a list of payments to one player gives or takes, told from balances alone: whoever cannot pay does not. */
  ghost function FlowTo(balances: map<UserId, int>, payments: seq<(UserId, int)>, payee: UserId, u: UserId): int
    decreases |payments|
  {
    if payments == [] then 0
    else
      var (payer, amount) := payments[0];
      if amount <= 0 || payer !in balances || payee !in balances || balances[payer] < amount
      then FlowTo(balances, payments[1..], payee, u)
      else
        var less := balances[payer := balances[payer] - amount];
        (if u == payee then amount else 0) - (if u == payer then amount else 0)
        + FlowTo(less[payee := less[payee] + amount], payments[1..], payee, u)
  }

  lemma SidePaymentMoves(b: Book, payer: UserId, payee: UserId, amount: int)
    requires payee in b.balances
    ensures var b' := SidePayment(b, payer, payee, amount);
      if amount <= 0 || payer !in b.balances || b.balances[payer] < amount then b' == b
      else
        var less := b.balances[payer := b.balances[payer] - amount];
        b'.balances == less[payee := less[payee] + amount]
  {
  }

  lemma {:induction false} SidePaymentsBy(b: Book, payments: seq<(UserId, int)>, payee: UserId, u: UserId)
    requires payee in b.balances
    ensures var b' := SidePayments(b, payments, payee);
      b'.balances.Keys == b.balances.Keys && Balance(b', u) == Balance(b, u) + FlowTo(b.balances, payments, payee, u)
    decreases |payments|
  {
    hide SidePayment;
    if payments != [] {
      SidePaymentMoves(b, payments[0].0, payee, payments[0].1);
      SidePaymentsBy(SidePayment(b, payments[0].0, payee, payments[0].1), payments[1..], payee, u);
    }
  }

  // ---- entries of a room ----

  lemma {:induction false} EntriesCount(members: seq<Member>, u: UserId)
    ensures Times(Users(members), u) == Entries(members, u)
  {
    if members != [] {
      EntriesCount(members[1..], u);
      assert Users(members) == [members[0].user] + Users(members[1..]);
    }
  }

  lemma EntriesOfUsers(a: seq<Member>, b: seq<Member>, u: UserId)
    requires Users(a) == Users(b)
    ensures Entries(a, u) == Entries(b, u)
  {
    EntriesCount(a, u);
    EntriesCount(b, u);
  }

  lemma OneMoreEntry(members: seq<Member>, m: Member, u: UserId)
    ensures Entries(members + [m], u) == Entries(members, u) + if m.user == u then 1 else 0
  {
    EntriesCount(members + [m], u);
    EntriesCount(members, u);
    assert Users(members + [m]) == Users(members) + [m.user];
  }

  lemma {:induction false} EntriesWithout(members: seq<Member>, user: UserId, u: UserId)
    ensures Entries(Without(members, user), u) == if u == user then 0 else Entries(members, u)
  {
    if members != [] {
      var first, rest := members[0], members[1..];
      EntriesWithout(rest, user, u);
      assert [] + Without(rest, user) == Without(rest, user);
      if first.user != user {
        assert ([first] + Without(rest, user))[1..] == Without(rest, user);
      }
    }
  }

  // ---- what each step gives or takes ----

  /** A game's stakes, all to its winner. */
  ghost function WinOf(m: Match, winner: UserId, u: UserId): int {
    (if u == winner then m.bet * |m.players| else 0) - m.bet * Times(m.players, u)
  }

  /** What an event changes of what player `u` owns. */
  ghost function Gain(h: House, e: Event, u: UserId): int {
    match e
    case Exit(id, user) =>
      if u == user && id in h.rooms && IsMember(h.rooms[id].members, user) && h.rooms[id].status == Waiting && h.rooms[id].host != user
      then -(h.rooms[id].bet * (Entries(h.rooms[id].members, user) - 1)) else 0
    case Chopped(game, victim, chopper, amount) =>
      if game in h.games && h.games[game].active && h.games[game].mode == Wager
      then FlowTo(h.book.balances, [(victim, amount)], chopper, u) else 0
    case Won(game, winner, rotten) =>
      if game in h.games && h.games[game].active
      then WinOf(h.games[game], winner, u) + RottenGain(h.book.balances, h.games[game], winner, rotten, u) else 0
    case StartInstant(id, game, winner) =>
      if Launches(h, id) then WinOf(Launched(h.rooms[id], id), winner, u) else 0
    case _ => 0
  }

  /** The game a room turns into. */
  ghost function Launched(r: Room, id: RoomId): Match {
    Match(id, r.mode, Users(r.members), r.bet, r.bet * |r.members|, true)
  }

  ghost function RottenGain(balances: map<UserId, int>, m: Match, winner: UserId, rotten: seq<(UserId, int)>, u: UserId): int {
    if m.mode == Wager && m.pot > 0 && winner in balances
    then FlowTo(balances[winner := balances[winner] + m.pot], rotten, winner, u) else 0
  }

  ghost predicate Gains(h: House, h': House, u: UserId, gain: int) {
    h'.book.balances.Keys == h.book.balances.Keys && Wealth(h', u) == Wealth(h, u) + gain
  }

  lemma StakeOfClosed(r: Room, u: UserId)
    ensures !Open(r) ==> StakeInRoom(r, u) == 0
    ensures r.members == [] ==> StakeInRoom(r, u) == 0
  {
  }

  lemma CreateBy(h: House, id: RoomId, kind: Kind, mode: Mode, host: UserId, amount: int, lo: int, hi: int, u: UserId)
    requires id !in h.rooms
    ensures var r := CreateRoom(h, id, kind, mode, host, amount, lo, hi); r.Success? ==> Gains(h, r.value, u, 0)
  {
    var r := CreateRoom(h, id, kind, mode, host, amount, lo, hi);
    if r.Success? {
      RoomChanged(h, id, r.value.rooms[id], u);
      StakeOfClosed(r.value.rooms[id], u);
      hide AtStake, StakeInRoom;
    }
  }

  lemma BeginJoinBy(h: House, ticket: nat, id: RoomId, user: UserId, u: UserId)
    requires ticket !in h.joins
    ensures var r := BeginJoin(h, ticket, id, user); r.Success? ==> Gains(h, r.value, u, 0)
  {
    hide AtStake, Stake, Balance;
    var r := BeginJoin(h, ticket, id, user);
    if r.Success? && r.value != h {
      StakeBy(h.book, user, h.rooms[id].bet, u);
      JoinPut(h, ticket, r.value.joins[ticket], u);
      BookDoesNotStake(h.(joins := r.value.joins), r.value.book, u);
    }
  }

  lemma EndJoinBy(h: House, ticket: nat, u: UserId)
    requires Backed(h) && ticket in h.joins
    ensures EndJoin(h, ticket).Success? && Gains(h, EndJoin(h, ticket).value, u, 0)
  {
    hide AtStake, Pay, Balance, Backed, RoomOk, Entries;
    JoinBacked(h, ticket);
    var j := h.joins[ticket];
    RoomBacked(h, j.room);
    var room, h' := h.rooms[j.room], EndJoin(h, ticket).value;
    var rest := h.(joins := h.joins - {ticket});
    JoinTaken(h, ticket, u);
    if room.status == Waiting {
      OneMoreEntry(room.members, Member(j.user, j.staked, false), u);
      OneMore(room.bet, Entries(room.members, u));
      RoomChanged(rest, j.room, h'.rooms[j.room], u);
    } else if j.staked {
      PayBy(h.book, j.user, j.bet, GameRefund, u);
      BookDoesNotStake(rest, h'.book, u);
    }
  }

  lemma CancelBy(h: House, id: RoomId, u: UserId)
    requires Backed(h) && id in h.rooms && h.rooms[id].status == Waiting
    ensures Gains(h, Cancel(h, id), u, 0)
  {
    hide AtStake, Balance, Backed, RoomOk, RefundAll, StakedUsers, Users, Entries, Times;
    RoomBacked(h, id);
    var room, h' := h.rooms[id], Cancel(h, id);
    RoomChanged(h, id, h'.rooms[id], u);
    BookDoesNotStake(h.(rooms := h'.rooms), h'.book, u);
    if room.mode == Wager {
      MembersStaked(room, h.book.balances.Keys);
      MembersKnown(room, h.book.balances.Keys);
      RefundAllBy(h.book, Users(room.members), room.bet, u);
      EntriesCount(room.members, u);
    } else {
      assert room.bet == 0;
    }
  }

  lemma LeaveBy(h: House, id: RoomId, user: UserId, u: UserId)
    requires Backed(h)
    ensures var r := Leave(h, id, user); r.Success? ==> Gains(h, r.value, u, Gain(h, Exit(id, user), u))
    ensures Leave(h, id, user).Failure? ==> Gain(h, Exit(id, user), u) == 0
  {
    hide AtStake, Balance, Backed, RoomOk, Pay, Entries, Without, FindMember;
    var r := Leave(h, id, user);
    if r.Success? && IsMember(h.rooms[id].members, user) {
      var room := h.rooms[id];
      if room.host == user && room.status == Waiting {
        CancelBy(h, id, u);
      } else {
        RoomBacked(h, id);
        LeaverStaked(room, user, h.book.balances.Keys);
        PayBy(h.book, user, room.bet, GameRefund, u);
        EntriesWithout(room.members, user, u);
        RoomChanged(h, id, r.value.rooms[id], u);
        BookDoesNotStake(h.(rooms := r.value.rooms), r.value.book, u);
        LessOne(room.bet, Entries(room.members, user));
      }
    }
  }

  lemma LessOne(bet: int, n: nat)
    ensures bet * (n - 1) == bet * n - bet
  {
  }

  lemma ReadyBy(h: House, id: RoomId, user: UserId, ready: bool, u: UserId)
    ensures var r := SetReady(h, id, user, ready); r.Success? ==> Gains(h, r.value, u, 0)
  {
    hide AtStake, Balance, Entries, WithReady;
    var r := SetReady(h, id, user, ready);
    if r.Success? {
      var room, room' := h.rooms[id], r.value.rooms[id];
      assert Users(room'.members) == Users(room.members);
      EntriesOfUsers(room.members, room'.members, u);
      RoomChanged(h, id, room', u);
    }
  }

  lemma BeginStartBy(h: House, id: RoomId, user: UserId, u: UserId)
    ensures var r := BeginStart(h, id, user); r.Success? ==> Gains(h, r.value, u, 0)
  {
    hide AtStake, Balance, Entries, EveryoneReady;
    var r := BeginStart(h, id, user);
    if r.Success? {
      RoomChanged(h, id, r.value.rooms[id], u);
    }
  }

  lemma LaunchBy(h: House, id: RoomId, game: GameId, u: UserId)
    requires game !in h.games
    ensures var r := Launch(h, id, game); r.Success? ==>
      && Gains(h, r.value, u, 0) && r.value.book == h.book
      && (game in r.value.games <==> Launches(h, id))
      && (Launches(h, id) ==> r.value.games[game] == Launched(h.rooms[id], id))
  {
    hide AtStake, Balance, Entries, Times, Users;
    var r := Launch(h, id, game);
    if r.Success? {
      RoomChanged(h, id, r.value.rooms[id], u);
      if game in r.value.games {
        EntriesCount(h.rooms[id].members, u);
        GameChanged(h.(rooms := r.value.rooms), game, r.value.games[game], u);
      }
    }
  }

  lemma MatchBacked(h: House, game: GameId)
    requires Backed(h) && game in h.games
    ensures var m := h.games[game];
      && m.bet >= 0 && (m.bet > 0 <==> m.mode == Wager) && m.pot == m.bet * |m.players| && m.pot >= 0
      && (m.mode == Wager ==> forall u :: u in m.players ==> u in h.book.balances)
      && m.room in h.rooms && (m.active ==> !Open(h.rooms[m.room]))
  {
    MatchPotPays(h.games[game]);
    hide Solvent, RoomOk, JoinOk;
  }

  lemma ChopBy(h: House, game: GameId, victim: UserId, chopper: UserId, amount: int, u: UserId)
    requires Backed(h) && (game in h.games ==> chopper in h.games[game].players)
    ensures var r := ChopPayment(h, game, victim, chopper, amount);
      r.Success? ==> Gains(h, r.value, u, Gain(h, Chopped(game, victim, chopper, amount), u))
    ensures ChopPayment(h, game, victim, chopper, amount).Failure? ==> Gain(h, Chopped(game, victim, chopper, amount), u) == 0
  {
    hide AtStake, Balance, Backed, SidePayment;
    var r := ChopPayment(h, game, victim, chopper, amount);
    if r.Success? && h.games[game].mode == Wager {
      MatchBacked(h, game);
      SidePaymentsBy(h.book, [(victim, amount)], chopper, u);
      OnePayment(h.book, victim, chopper, amount);
      BookDoesNotStake(h, r.value.book, u);
    }
  }

  lemma OnePayment(b: Book, payer: UserId, payee: UserId, amount: int)
    ensures SidePayments(b, [(payer, amount)], payee) == SidePayment(b, payer, payee, amount)
  {
    assert [(payer, amount)][1..] == [];
  }

  /** Ending a game takes every stake out of it. */
  lemma GameEndedBy(h: House, game: GameId, u: UserId)
    requires Backed(h) && game in h.games && h.games[game].active
    ensures var m := h.games[game];
      AtStake(h.(games := h.games[game := m.(active := false)], rooms := CloseRoom(h, m.room)), u)
      == AtStake(h, u) - m.bet * Times(m.players, u)
  {
    hide AtStake, Times, Backed, Entries;
    MatchBacked(h, game);
    var m := h.games[game];
    RoomChanged(h, m.room, h.rooms[m.room].(status := Closed), u);
    GameChanged(h.(rooms := CloseRoom(h, m.room)), game, m.(active := false), u);
  }

  lemma FinishBy(h: House, game: GameId, winner: UserId, rotten: seq<(UserId, int)>, u: UserId)
    requires Backed(h) && (game in h.games ==> winner in h.games[game].players)
    ensures var r := FinishMatch(h, game, winner, rotten);
      r.Success? ==> Gains(h, r.value, u, Gain(h, Won(game, winner, rotten), u))
    ensures FinishMatch(h, game, winner, rotten).Failure? ==> Gain(h, Won(game, winner, rotten), u) == 0
  {
    hide AtStake, Balance, Backed, SidePayments, Pay, CloseRoom, Times;
    var r := FinishMatch(h, game, winner, rotten);
    if r.Success? {
      MatchBacked(h, game);
      GameEndedBy(h, game, u);
      var m := h.games[game];
      BookDoesNotStake(r.value.(book := h.book), r.value.book, u);
      if m.mode == Wager && m.pot > 0 {
        PotPaid(h.book, winner, m.pot);
        PayBy(h.book, winner, m.pot, GamePayout, u);
        SidePaymentsBy(OrKeep(Pay(h.book, winner, m.pot, GamePayout), h.book), rotten, winner, u);
      }
    }
  }

  lemma PotPaid(b: Book, winner: UserId, pot: int)
    requires pot > 0 && winner in b.balances
    ensures OrKeep(Pay(b, winner, pot, GamePayout), b).balances == b.balances[winner := b.balances[winner] + pot]
  {
  }

  lemma DrawBy(h: House, game: GameId, u: UserId)
    requires Backed(h)
    ensures var r := FinishDraw(h, game); r.Success? ==> Gains(h, r.value, u, 0)
  {
    hide AtStake, Balance, Backed, RefundAll, CloseRoom, Times;
    var r := FinishDraw(h, game);
    if r.Success? {
      MatchBacked(h, game);
      GameEndedBy(h, game, u);
      var m := h.games[game];
      BookDoesNotStake(r.value.(book := h.book), r.value.book, u);
      if m.mode == Wager && m.pot > 0 {
        RefundAllBy(h.book, m.players, m.bet, u);
      } else {
        NoBetNoStake(m, u);
      }
    }
  }

  lemma NoBetNoStake(m: Match, u: UserId)
    requires m.bet >= 0 && (m.bet > 0 <==> m.mode == Wager) && m.pot == m.bet * |m.players| && !(m.mode == Wager && m.pot > 0)
    ensures m.bet * Times(m.players, u) == 0
  {
    if m.bet > 0 {
      assert m.players == [];
    }
  }

  /** A game decided by the deal: launched and won in one step. */
  lemma InstantBy(h: House, id: RoomId, game: GameId, winner: UserId, u: UserId)
    requires Backed(h) && game !in h.games && (id in h.rooms ==> IsMember(h.rooms[id].members, winner))
    ensures var r := LaunchInstant(h, id, game, winner);
      r.Success? ==> Gains(h, r.value, u, Gain(h, StartInstant(id, game, winner), u))
    ensures LaunchInstant(h, id, game, winner).Failure? ==> Gain(h, StartInstant(id, game, winner), u) == 0
  {
    hide AtStake, Balance, Backed, Launch, FinishMatch, Users, Times, PlayersFit;
    var launched := Launch(h, id, game);
    LaunchIffStarting(h, id, game);
    LaunchBy(h, id, game, u);
    LaunchLoses(h, id, game);
    if launched.Success? && game in launched.value.games {
      LaunchSeats(h, id, game, winner);
      FinishBy(launched.value, game, winner, [], u);
      InstantSettles(launched.value, id, game, winner);
      var done := FinishMatch(launched.value, game, winner, []).value;
      FinishShutsRoom(launched.value, game, winner);
      RoomChanged(done, id, done.rooms[id].(status := InProgress), u);
      NothingFlows(launched.value.book.balances, h.rooms[id], id, winner, u);
    }
  }

  lemma LaunchIffStarting(h: House, id: RoomId, game: GameId)
    requires game !in h.games
    ensures Launch(h, id, game).Failure? ==> !Launches(h, id)
  {
  }

  lemma NothingFlows(balances: map<UserId, int>, r: Room, id: RoomId, winner: UserId, u: UserId)
    ensures RottenGain(balances, Launched(r, id), winner, [], u) == 0
  {
  }

  lemma NothingGained(h: House, u: UserId)
    ensures Gains(h, h, u, 0)
  {
  }

  /**
   * One step of any room or game, for one player: what they own changes only by a game they
   * or another won, by a chop, or by leaving a room they had entered twice.
   */
  lemma StepByPlayer(h: House, e: Event, u: UserId)
    requires Backed(h) && Allowed(h, e)
    ensures Gains(h, After(h, e), u, Gain(h, e, u))
  {
    hide Backed, Wealth, Launch, LaunchInstant, CreateRoom, BeginJoin, EndJoin, Leave, SetReady, BeginStart;
    hide ChopPayment, FinishMatch, FinishDraw, Gains;
    NothingGained(h, u);
    match e
    case Create(id, kind, mode, host, amount, lo, hi) => CreateBy(h, id, kind, mode, host, amount, lo, hi, u);
    case TakeStake(ticket, id, user) => BeginJoinBy(h, ticket, id, user, u);
    case Enter(ticket) => EndJoinBy(h, ticket, u);
    case Exit(id, user) => LeaveBy(h, id, user, u);
    case Ready(id, user, ready) => ReadyBy(h, id, user, ready, u);
    case Begin(id, user) => BeginStartBy(h, id, user, u);
    case Start(id, game) => LaunchBy(h, id, game, u);
    case StartInstant(id, game, winner) => InstantBy(h, id, game, winner, u);
    case Chopped(game, victim, chopper, amount) => ChopBy(h, game, victim, chopper, amount, u);
    case Won(game, winner, rotten) => FinishBy(h, game, winner, rotten, u);
    case Drawn(game) => DrawBy(h, game, u);
  }

  ghost function GainAlong(hs: seq<House>, es: seq<Event>, u: UserId): int
    requires |hs| > |es|
    decreases |es|
  {
    if es == [] then 0 else GainAlong(hs, es[..|es| - 1], u) + Gain(hs[|es| - 1], es[|es| - 1], u)
  }

  lemma {:induction false} GainAlongSame(hs: seq<House>, hs': seq<House>, es: seq<Event>, u: UserId)
    requires |hs| > |es| && |hs'| > |es| && forall i :: 0 <= i < |es| ==> hs'[i] == hs[i]
    ensures GainAlong(hs', es, u) == GainAlong(hs, es, u)
    decreases |es|
  {
    if es != [] {
      GainAlongSame(hs, hs', es[..|es| - 1], u);
    }
  }

  /** Over every run, what a player owns is what they owned at the start and what those events gave or took. */
  lemma {:induction false} RunByPlayer(hs: seq<House>, es: seq<Event>, u: UserId)
    requires Run(hs, es) && Backed(hs[0])
    ensures hs[|es|].book.balances.Keys == hs[0].book.balances.Keys
    ensures Wealth(hs[|es|], u) == Wealth(hs[0], u) + GainAlong(hs, es, u)
    decreases |es|
  {
    hide Backed, Wealth, Allowed, After, Gain;
    if es != [] {
      var last := |es| - 1;
      var front, before := hs[..|es|], es[..last];
      RunByPlayer(front, before, u);
      CoinsConservedIff(front, before);
      StepByPlayer(hs[last], es[last], u);
      GainAlongSame(hs, front, before, u);
    }
  }

  /** Nobody's coins reach anybody else as long as no game is won and nobody chops: at most an extra entry's bet is left behind. */
  lemma OnlyGamesMoveCoins(h: House, e: Event, u: UserId)
    requires Backed(h) && Allowed(h, e) && Tidy(h, e) && !e.Won? && !e.Chopped? && !e.StartInstant?
    ensures Wealth(After(h, e), u) == Wealth(h, u)
  {
    hide Backed, Wealth, After;
    StepByPlayer(h, e, u);
    if e.Exit? && e.id in h.rooms {
      RoomBacked(h, e.id);
      WithoutCount(h.rooms[e.id].members, e.user);
    }
  }

  /** The balances after a win without payments for twos: the winner's is larger by the pot, and nobody else's changes. */
  lemma WinnerTakesPot(h: House, game: GameId, winner: UserId)
    requires Backed(h) && game in h.games && h.games[game].active && winner in h.games[game].players
    ensures FinishMatch(h, game, winner, []).Success?
    ensures var m, b := h.games[game], FinishMatch(h, game, winner, []).value.book.balances;
      b == if m.mode == Wager && m.pot > 0 then h.book.balances[winner := Balance(h.book, winner) + m.pot] else h.book.balances
  {
    MatchBacked(h, game);
    hide Backed;
    if h.games[game].mode == Wager && h.games[game].pot > 0 {
      PotPaid(h.book, winner, h.games[game].pot);
    }
    hide Pay;
  }

  /** The same for a game decided by the deal. */
  lemma DealtWinnerTakesPot(h: House, id: RoomId, game: GameId, winner: UserId)
    requires Backed(h) && game !in h.games && Launches(h, id) && IsMember(h.rooms[id].members, winner)
    ensures LaunchInstant(h, id, game, winner).Success?
    ensures var room, b := h.rooms[id], LaunchInstant(h, id, game, winner).value.book.balances;
      b == if room.mode == Wager then h.book.balances[winner := Balance(h.book, winner) + room.bet * |room.members|] else h.book.balances
  {
    hide Backed, FinishMatch, Users, AtStake;
    LaunchBy(h, id, game, winner);
    LaunchLoses(h, id, game);
    LaunchIffStarting(h, id, game);
    LaunchSeats(h, id, game, winner);
    var launched := Launch(h, id, game).value;
    WinnerTakesPot(launched, game, winner);
    RoomBacked(h, id);
    PotOf(h.rooms[id]);
  }

  lemma PotOf(r: Room)
    requires r.bet >= 0 && (r.bet > 0 <==> r.mode == Wager)
    ensures r.mode == Wager && r.members != [] ==> r.bet * |r.members| > 0
  {
  }
}
