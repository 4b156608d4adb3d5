/**
 * A Caro game from the first move to the last (src/games/caro/caro.service.ts).
 */
module CaroGame {
  import opened Wrappers
  import opened CaroLogic

  type UserId = nat

  datatype Placed = Placed(mark: int, row: int, col: int)

  datatype Reason = Win | Resigned | TimedOut | Disconnected | DrawnGame

  datatype Status = Active | Finished

  datatype State = State(
    x: UserId, o: UserId, status: Status, board: Board, moves: seq<Placed>, turn: int,
    winner: Option<UserId>, reason: Option<Reason>, line: Option<seq<int>>)

  datatype Error = NotActive | NotAPlayer | NotYourTurn | Refused(why: MoveError)

  function EmptyBoard(): (b: Board)
    ensures |b| == CELLS && forall i :: 0 <= i < CELLS ==> b[i] == 0
  {
    seq(CELLS, i => 0)
  }

  function NewGame(x: UserId, o: UserId): State {
    State(x, o, Active, EmptyBoard(), [], 1, None, None, None)
  }

  function MarkOf(s: State, user: UserId): int { if s.x == user then 1 else if s.o == user then 2 else 0 }

  function OpponentOf(s: State, user: UserId): UserId { if s.x == user then s.o else s.x }

  function PlayerOf(s: State, mark: int): UserId { if mark == 1 then s.x else s.o }

  function Finish(s: State, winner: UserId, reason: Reason): State {
    s.(status := Finished, winner := Some(winner), reason := Some(reason))
  }

  // ---- operations ----

  function MoveTo(s: State, user: UserId, row: int, col: int): Result<State, Error>
    requires |s.board| == CELLS
  {
    var mark := MarkOf(s, user);
    if s.status != Active then Failure(NotActive)
    else if mark == 0 then Failure(NotAPlayer)
    else if s.turn != mark then Failure(NotYourTurn)
    else
      match ApplyMoveTo(s.board, row, col, mark)
      case Failure(e) => Failure(Refused(e))
      case Success(done) =>
        var played := s.(board := done.0, moves := s.moves + [Placed(mark, row, col)]);
        match done.1
        case Won(line) => Success(Finish(played.(line := Some(line)), user, Win))
        case Drawn => Success(played.(status := Finished, reason := Some(DrawnGame)))
        case GoesOn => Success(played.(turn := if mark == 1 then 2 else 1))
  }

  function Resign(s: State, user: UserId): Result<State, Error> {
    if s.status != Active then Failure(NotActive)
    else if MarkOf(s, user) == 0 then Failure(NotAPlayer)
    else Success(Finish(s, OpponentOf(s, user), Resigned))
  }

  /** The turn clock ran out. */
  function TurnTimeout(s: State): State {
    if s.status != Active then s else Finish(s, OpponentOf(s, PlayerOf(s, s.turn)), TimedOut)
  }

  /** A player's grace period after disconnecting ran out. */
  function Forfeit(s: State, user: UserId): State {
    if s.status != Active || MarkOf(s, user) == 0 then s else Finish(s, OpponentOf(s, user), Disconnected)
  }

  // ---- what holds along every game ----

  function Replay(moves: seq<Placed>): (b: Board)
    requires forall m :: m in moves ==> InBounds(m.row, m.col)
    ensures |b| == CELLS
  {
    if moves == [] then EmptyBoard()
    else
      var front, m := moves[..|moves| - 1], moves[|moves| - 1];
      assert m in moves;
      Replay(front)[Index(m.row, m.col) := m.mark]
  }

  /** X moves first and the marks alternate. */
  function MarkAt(i: nat): int { if i % 2 == 0 then 1 else 2 }

  /**
   * Every move put the mark whose turn it was on an empty cell of a board that was not full
   * and had no five in a row.
   */
  ghost predicate Fair(moves: seq<Placed>)
  {
    forall i :: 0 <= i < |moves| ==> FairMove(moves, i)
  }

  ghost predicate FairMove(moves: seq<Placed>, i: nat)
    requires i < |moves|
  {
    && moves[i].mark == MarkAt(i)
    && (forall m :: m in moves[..i + 1] ==> InBounds(m.row, m.col))
    && (forall m :: m in moves[..i] ==> InBounds(m.row, m.col))
    && var before := Replay(moves[..i]);
       before[Index(moves[i].row, moves[i].col)] == 0 && Winless(before)
       && InBounds(moves[i].row, moves[i].col)
  }

  lemma FairInBounds(moves: seq<Placed>)
    requires Fair(moves)
    ensures forall m :: m in moves ==> InBounds(m.row, m.col)
  {
    if moves != [] {
      assert FairMove(moves, |moves| - 1);
      assert moves[..|moves|] == moves;
    }
  }

  function Stones(b: Board): nat { if b == [] then 0 else (if b[0] != 0 then 1 else 0) + Stones(b[1..]) }

  lemma {:induction false} StonePlaced(b: Board, i: nat, v: int)
    requires i < |b| && b[i] == 0 && v != 0
    ensures Stones(b[i := v]) == Stones(b) + 1
  {
    if i > 0 {
      StonePlaced(b[1..], i - 1, v);
      assert b[i := v][1..] == b[1..][i - 1 := v];
    } else {
      assert b[i := v][1..] == b[1..];
    }
  }

  lemma {:induction false} StonesBounded(b: Board)
    ensures Stones(b) <= |b|
  {
    if b != [] {
      StonesBounded(b[1..]);
    }
  }

  lemma {:induction false} NoStones(b: Board)
    requires forall i :: 0 <= i < |b| ==> b[i] == 0
    ensures Stones(b) == 0
  {
    if b != [] {
      NoStones(b[1..]);
    }
  }

  lemma {:induction false} AllStonesIsFull(b: Board)
    requires Stones(b) == |b|
    ensures Full(b)
  {
    if b != [] {
      StonesBounded(b[1..]);
      AllStonesIsFull(b[1..]);
      assert forall i :: 0 < i < |b| ==> b[i] == b[1..][i - 1];
    }
  }

  /** There are exactly as many stones as moves, so no game has more than 225. */
  lemma {:induction false} OneStonePerMove(moves: seq<Placed>)
    requires Fair(moves)
    ensures forall m :: m in moves ==> InBounds(m.row, m.col)
    ensures Stones(Replay(moves)) == |moves| <= CELLS
  {
    FairInBounds(moves);
    if moves == [] {
      NoStones(EmptyBoard());
    } else {
      var n := |moves| - 1;
      var front, m := moves[..n], moves[n];
      assert FairMove(moves, n);
      FairPrefix(moves, n);
      OneStonePerMove(front);
      StonePlaced(Replay(front), Index(m.row, m.col), m.mark);
    }
    StonesBounded(Replay(moves));
  }

  lemma FairPrefix(moves: seq<Placed>, n: nat)
    requires Fair(moves) && n <= |moves|
    ensures Fair(moves[..n])
  {
    forall i | 0 <= i < n ensures FairMove(moves[..n], i) {
      assert FairMove(moves, i);
      assert moves[..n][..i] == moves[..i] && moves[..n][..i + 1] == moves[..i + 1];
    }
  }

  lemma FairExtended(moves: seq<Placed>, m: Placed)
    requires Fair(moves) && m.mark == MarkAt(|moves|) && InBounds(m.row, m.col)
    requires forall x :: x in moves ==> InBounds(x.row, x.col)
    requires Replay(moves)[Index(m.row, m.col)] == 0 && Winless(Replay(moves))
    ensures Fair(moves + [m])
    ensures forall x :: x in moves + [m] ==> InBounds(x.row, x.col)
    ensures Replay(moves + [m]) == Replay(moves)[Index(m.row, m.col) := m.mark]
  {
    hide Winless, Replay, Index, InBounds;
    var more := moves + [m];
    assert more[..|moves|] == moves && more[..|moves| + 1] == more;
    forall i | 0 <= i < |more| ensures FairMove(more, i) {
      if i < |moves| {
        assert FairMove(moves, i);
        assert more[..i] == moves[..i] && more[..i + 1] == moves[..i + 1];
        assert more[i] == moves[i];
      }
    }
    ReplayLast(moves, m);
  }

  lemma ReplayLast(moves: seq<Placed>, m: Placed)
    requires forall x :: x in moves + [m] ==> InBounds(x.row, x.col)
    requires forall x :: x in moves ==> InBounds(x.row, x.col)
    requires InBounds(m.row, m.col)
    ensures Replay(moves + [m]) == Replay(moves)[Index(m.row, m.col) := m.mark]
  {
    assert (moves + [m])[..|moves|] == moves;
  }

  /** How a finished game ended, in terms of the board. */
  ghost predicate Ended(s: State)
    requires |s.board| == CELLS
  {
    match s.reason
    case None => false
    case Some(Win) =>
      && s.moves != []
      && var last := s.moves[|s.moves| - 1];
      && s.winner == Some(PlayerOf(s, last.mark))
      && s.line.Some? && WinningLine(s.board, last.row, last.col, last.mark, s.line.value)
      && Five(s.board, last.mark) && !Five(s.board, 3 - last.mark)
    case Some(DrawnGame) => s.winner == None && Full(s.board) && Winless(s.board)
    case Some(TimedOut) => s.winner == Some(PlayerOf(s, 3 - MarkAt(|s.moves|))) && Winless(s.board)
    case Some(_) => s.winner.Some? && MarkOf(s, s.winner.value) != 0 && Winless(s.board)
  }

  /**
   * The board is the replay of the recorded moves, which were all fair; while the game runs
   * nobody has five in a row and the turn is the alternating one; and a finished game ended
   * for the reason it says.
   */
  ghost predicate Valid(s: State) {
    && s.x != s.o
    && Fair(s.moves)
    && (forall m :: m in s.moves ==> InBounds(m.row, m.col))
    && s.board == Replay(s.moves)
    && (s.status == Active ==>
         Winless(s.board) && s.turn == MarkAt(|s.moves|) && s.winner == None && s.reason == None && !Full(s.board))
    && (s.status == Finished ==> Ended(s))
  }

  lemma EmptyWinless()
    ensures Winless(EmptyBoard()) && !Full(EmptyBoard())
  {
    var b := EmptyBoard();
    hide EmptyBoard;
    forall mark, row, col, d | mark != 0 ensures !FiveFrom(b, row, col, d, mark) {
      assert !StepIs(b, row, col, d, 0, mark);
    }
    assert b[0] == 0;
  }

  lemma NewGameValid(x: UserId, o: UserId)
    requires x != o
    ensures Valid(NewGame(x, o))
  {
    EmptyWinless();
  }

  /** A move keeps the game valid; a winning one really wins, and only for the player who made it. */
  lemma MoveKeeps(s: State, user: UserId, row: int, col: int)
    requires Valid(s) && MoveTo(s, user, row, col).Success?
    ensures var t := MoveTo(s, user, row, col).value;
      && Valid(t)
      && t.moves == s.moves + [Placed(s.turn, row, col)]
      && (t.status == Finished && t.reason == Some(Win) <==> Five(t.board, s.turn))
      && (t.reason == Some(Win) ==> t.winner == Some(user))
  {
    StonePutDown(s, user, row, col);
    assert |s.board| == CELLS;
    var line := FindLine(MoveTo(s, user, row, col).value.board, row, col, s.turn, 0);
    hide *;
    MoveShape(s, user, row, col);
    var t := MoveTo(s, user, row, col).value;
    NextIsValid(s, t, user, row, col, line);
  }

  lemma NextIsValid(s: State, t: State, user: UserId, row: int, col: int, found: Option<seq<int>>)
    requires Valid(s) && s.status == Active && |t.board| == CELLS
    requires t.moves == s.moves + [Placed(s.turn, row, col)] && MarkOf(s, user) == s.turn
    requires Fair(t.moves) && (forall x :: x in t.moves ==> InBounds(x.row, x.col)) && t.board == Replay(t.moves)
    requires s.turn == 1 || s.turn == 2
    requires !Five(t.board, 3 - s.turn)
    requires (found.Some? <==> Five(t.board, s.turn)) && (found.None? <==> Winless(t.board))
    requires found.Some? ==> WinningLine(t.board, row, col, s.turn, found.value)
    requires var played := s.(board := t.board, moves := t.moves);
      t == if found.Some? then Finish(played.(line := found), user, Win)
           else if Full(t.board) then played.(status := Finished, reason := Some(DrawnGame))
           else played.(turn := if s.turn == 1 then 2 else 1)
    ensures Valid(t)
    ensures t.status == Finished && t.reason == Some(Win) <==> Five(t.board, s.turn)
    ensures t.reason == Some(Win) ==> t.winner == Some(user)
  {
    hide Winless, Five, WinningLine, Replay, Fair, Full, InBounds;
    assert t.moves[|t.moves| - 1] == Placed(s.turn, row, col);
    assert PlayerOf(s, s.turn) == user;
  }

  lemma MoveShape(s: State, user: UserId, row: int, col: int)
    requires |s.board| == CELLS && MoveTo(s, user, row, col).Success?
    ensures |MoveTo(s, user, row, col).value.board| == CELLS
    ensures var t, found := MoveTo(s, user, row, col).value, FindLine(MoveTo(s, user, row, col).value.board, row, col, s.turn, 0);
      var played := s.(board := t.board, moves := s.moves + [Placed(s.turn, row, col)]);
      t == if found.Some? then Finish(played.(line := found), user, Win)
           else if Full(t.board) then played.(status := Finished, reason := Some(DrawnGame))
           else played.(turn := if s.turn == 1 then 2 else 1)
  {
    hide FindLine, Full;
  }

  /** The board after an accepted move, and what the check around the stone tells about it. */
  lemma StonePutDown(s: State, user: UserId, row: int, col: int)
    requires Valid(s) && MoveTo(s, user, row, col).Success?
    ensures var t, m := MoveTo(s, user, row, col).value, Placed(s.turn, row, col);
      && s.status == Active && |t.board| == CELLS
      && t.moves == s.moves + [m] && MarkOf(s, user) == s.turn
      && Fair(t.moves) && (forall x :: x in t.moves ==> InBounds(x.row, x.col)) && t.board == Replay(t.moves)
      && (s.turn == 1 || s.turn == 2)
      && !Five(t.board, 3 - s.turn)
      && var found := FindLine(t.board, row, col, s.turn, 0);
      && (found.Some? <==> Five(t.board, s.turn))
      && (found.None? <==> Winless(t.board))
      && (found.Some? ==> WinningLine(t.board, row, col, s.turn, found.value))
  {
    var t, m := MoveTo(s, user, row, col).value, Placed(s.turn, row, col);
    MovePutsStone(s, user, row, col);
    hide FindLine, Winless, Five, WinningLine, Replay, Fair, Full, MoveTo;
    IncrementalCheckExact(s.board, row, col, s.turn);
    FindLineExact(t.board, row, col, s.turn);
    FairExtended(s.moves, m);
  }

  lemma MovePutsStone(s: State, user: UserId, row: int, col: int)
    requires |s.board| == CELLS && MoveTo(s, user, row, col).Success?
    ensures InBounds(row, col) && s.board[Index(row, col)] == 0 && s.status == Active
    ensures s.turn == MarkOf(s, user) && (s.turn == 1 || s.turn == 2)
    ensures var t := MoveTo(s, user, row, col).value;
      t.board == s.board[Index(row, col) := s.turn] && t.moves == s.moves + [Placed(s.turn, row, col)]
  {
    hide FindLine, Full;
  }

  lemma EndKeeps(s: State, winner: UserId, reason: Reason)
    requires Valid(s) && s.status == Active && (winner == s.x || winner == s.o)
    requires reason == Resigned || reason == TimedOut || reason == Disconnected
    requires reason == TimedOut ==> winner == PlayerOf(s, 3 - s.turn)
    ensures Valid(Finish(s, winner, reason))
  {
    hide Winless, Replay, Fair;
  }

  // ---- every run ----

  datatype Event =
    | Moves(user: UserId, row: int, col: int)
    | Resigns(user: UserId)
    | ClockRunsOut
    | Leaves(user: UserId)

  ghost function Step(s: State, e: Event): State
    requires |s.board| == CELLS
  {
    match e
    case Moves(user, row, col) => (match MoveTo(s, user, row, col) case Success(t) => t case Failure(_) => s)
    case Resigns(user) => (match Resign(s, user) case Success(t) => t case Failure(_) => s)
    case ClockRunsOut => TurnTimeout(s)
    case Leaves(user) => Forfeit(s, user)
  }

  /** How a running game may end, told from the event that ends it: who leaves, resigns or is late loses to the other player. */
  ghost predicate EndsBy(s: State, e: Event, t: State) {
    && t.moves == s.moves + (if e.Moves? then [Placed(s.turn, e.row, e.col)] else [])
    && match e
       case Moves(user, _, _) =>
         || (t.reason == Some(Win) && t.winner == Some(user) && MarkOf(s, user) == s.turn)
         || (t.reason == Some(DrawnGame) && t.winner == None)
       case Resigns(user) => t.reason == Some(Resigned) && LosesTo(s, user, t)
       case ClockRunsOut => t.reason == Some(TimedOut) && exists user :: MarkOf(s, user) == s.turn && LosesTo(s, user, t)
       case Leaves(user) => t.reason == Some(Disconnected) && LosesTo(s, user, t)
  }

  /** `user` is one of the two players and the other one has won. */
  ghost predicate LosesTo(s: State, user: UserId, t: State) {
    && MarkOf(s, user) != 0 && t.winner.Some? && t.winner.value != user
    && MarkOf(s, t.winner.value) == 3 - MarkOf(s, user)
  }

  lemma EndingIs(s: State, e: Event)
    requires Valid(s) && s.status == Active
    ensures |s.board| == CELLS
    ensures Step(s, e).status == Finished ==> EndsBy(s, e, Step(s, e))
  {
    match e
    case Moves(user, row, col) =>
      if MoveTo(s, user, row, col).Success? {
        MovePutsStone(s, user, row, col);
        MoveKeeps(s, user, row, col);
      }
      hide Winless, Replay, Fair, FindLine, Full, Five, InBounds;
    case _ =>
      TurnIsPlayers(s);
      hide Winless, Replay, Fair, Full, InBounds;
  }

  lemma TurnIsPlayers(s: State)
    requires Valid(s) && s.status == Active
    ensures MarkOf(s, PlayerOf(s, s.turn)) == s.turn
  {
    hide Winless, Replay, Fair, Full;
  }

  /** A move is accepted exactly from the player whose mark is next, on an empty cell of the board of a running game. */
  lemma MoveAcceptedIff(s: State, user: UserId, row: int, col: int)
    requires Valid(s)
    ensures |s.board| == CELLS
    ensures MoveTo(s, user, row, col).Success? <==>
      s.status == Active && user == PlayerOf(s, MarkAt(|s.moves|)) && InBounds(row, col) && s.board[Index(row, col)] == 0
  {
    hide Winless, Replay, Fair, MoveOutcome, Ended;
  }

  /** Resigning, and being gone too long, end a running game exactly for its two players. */
  lemma ResignAcceptedIff(s: State, user: UserId)
    ensures Resign(s, user).Success? <==> s.status == Active && (user == s.x || user == s.o)
    ensures s.status == Active ==> (Forfeit(s, user).status == Finished <==> user == s.x || user == s.o)
    ensures s.status == Active ==> TurnTimeout(s).status == Finished
  {
  }

  ghost predicate Run(states: seq<State>, events: seq<Event>) {
    && |states| == |events| + 1
    && forall i :: 0 <= i < |events| ==> |states[i].board| == CELLS && states[i + 1] == Step(states[i], events[i])
  }

  lemma StepKeeps(s: State, e: Event)
    requires Valid(s)
    ensures |s.board| == CELLS && Valid(Step(s, e))
    ensures |s.moves| <= |Step(s, e).moves| <= CELLS
    ensures s.status == Finished ==> Step(s, e) == s
  {
    ValidBounded(s);
    hide Valid;
    match e
    case Moves(user, row, col) =>
      if MoveTo(s, user, row, col).Success? {
        MoveKeeps(s, user, row, col);
        MovePutsStone(s, user, row, col);
      }
      ValidBounded(Step(s, e));
    case Resigns(user) =>
      if Resign(s, user).Success? {
        EndKeeps(s, OpponentOf(s, user), Resigned);
      }
    case ClockRunsOut =>
      if s.status == Active {
        EndKeeps(s, OpponentOf(s, PlayerOf(s, s.turn)), TimedOut);
      }
    case Leaves(user) =>
      if s.status == Active && MarkOf(s, user) != 0 {
        EndKeeps(s, OpponentOf(s, user), Disconnected);
      }
  }

  lemma ValidBounded(s: State)
    requires Valid(s)
    ensures |s.board| == CELLS && |s.moves| <= CELLS
    ensures s.status == Active ==> |s.moves| < CELLS
  {
    OneStonePerMove(s.moves);
    if |s.moves| == CELLS {
      AllStonesIsFull(s.board);
    }
  }

  /** Along every run the game stays valid; it never has more than 225 moves, and a running one fewer. */
  lemma {:induction false} EveryRunIsValid(x: UserId, o: UserId, states: seq<State>, events: seq<Event>)
    requires x != o && Run(states, events) && states[0] == NewGame(x, o)
    ensures Valid(states[|events|]) && |states[|events|].moves| <= CELLS
    ensures states[|events|].status == Active ==> |states[|events|].moves| < CELLS
    decreases |events|
  {
    hide Valid, Step;
    if events == [] {
      NewGameValid(x, o);
    } else {
      var last := |events| - 1;
      EveryRunIsValid(x, o, states[..|events|], events[..last]);
      StepKeeps(states[last], events[last]);
    }
    ValidBounded(states[|events|]);
  }

  /** Along every run, whichever event ended the game, the player it counts against has lost to the other. */
  lemma EveryEndIsFair(x: UserId, o: UserId, states: seq<State>, events: seq<Event>, i: nat)
    requires x != o && Run(states, events) && states[0] == NewGame(x, o) && i < |events|
    requires states[i].status == Active && states[i + 1].status == Finished
    ensures EndsBy(states[i], events[i], states[i + 1])
  {
    hide Valid, Step, EndsBy;
    EveryRunIsValid(x, o, states[..i + 1], events[..i]);
    EndingIs(states[i], events[i]);
  }

  // ---- the service ----

  class Game {
    const x: UserId
    const o: UserId
    const board: array<int>
    var status: Status
    var moves: seq<Placed>
    var turn: int
    var winner: Option<UserId>
    var reason: Option<Reason>
    var line: Option<seq<int>>

    ghost function View(): State
      reads this, board
    {
      State(x, o, status, board[..], moves, turn, winner, reason, line)
    }

    constructor (x: UserId, o: UserId)
      requires x != o
      ensures View() == NewGame(x, o) && Valid(View())
      ensures fresh(board)
    {
      NewGameValid(x, o);
      this.x, this.o := x, o;
      board := new int[CELLS](i => 0);
      status, moves, turn, winner, reason, line := Active, [], 1, None, None, None;
      new;
      assert board[..] == EmptyBoard();
    }

    /** A player puts a stone down. */
    method PlayMove(user: UserId, row: int, col: int) returns (r: Result<(), Error>)
      requires Valid(View())
      modifies this, board
      ensures |old(board[..])| == CELLS
      ensures Valid(View())
      ensures match MoveTo(old(View()), user, row, col)
        case Success(s) => r == Success(()) && View() == s
        case Failure(e) => r == Failure(e) && View() == old(View())
    {
      assert board.Length == CELLS;
      if MoveTo(View(), user, row, col).Success? {
        MoveKeeps(View(), user, row, col);
      }
      hide Valid, MoveOutcome, InBounds, Index;
      if status != Active {
        return Failure(NotActive);
      }
      var mark := if x == user then 1 else if o == user then 2 else 0;
      if mark == 0 {
        return Failure(NotAPlayer);
      }
      if turn != mark {
        return Failure(NotYourTurn);
      }
      var applied := ApplyMove(board, row, col, mark);
      if applied.Failure? {
        return Failure(Refused(applied.error));
      }
      moves := moves + [Placed(mark, row, col)];
      match applied.value {
        case Won(cells) =>
          line := Some(cells);
          EndWith(user, Win);
        case Drawn =>
          status, reason := Finished, Some(DrawnGame);
        case GoesOn =>
          turn := if mark == 1 then 2 else 1;
      }
      r := Success(());
    }

    method EndWith(user: UserId, why: Reason)
      modifies this
      ensures View() == Finish(old(View()), user, why)
    {
      status, winner, reason := Finished, Some(user), Some(why);
    }

    method GiveUp(user: UserId) returns (r: Result<(), Error>)
      requires Valid(View())
      modifies this
      ensures Valid(View())
      ensures match Resign(old(View()), user)
        case Success(s) => r == Success(()) && View() == s
        case Failure(e) => r == Failure(e) && View() == old(View())
    {
      if status != Active {
        return Failure(NotActive);
      }
      if x != user && o != user {
        return Failure(NotAPlayer);
      }
      EndKeeps(View(), OpponentOf(View(), user), Resigned);
      hide Valid;
      EndWith(if x == user then o else x, Resigned);
      r := Success(());
    }

    method OnTurnTimeout()
      requires Valid(View())
      modifies this
      ensures Valid(View()) && View() == TurnTimeout(old(View()))
      ensures old(status) == Active ==> EndsBy(old(View()), ClockRunsOut, View())
    {
      if status == Active {
        EndingIs(View(), ClockRunsOut);
        EndKeeps(View(), OpponentOf(View(), PlayerOf(View(), turn)), TimedOut);
        hide Valid;
        var loser := if turn == 1 then x else o;
        EndWith(if x == loser then o else x, TimedOut);
      }
    }
  }
}
