/**
 * Caro (five in a row on a 15 by 15 board): one move and the check around the stone just
 * placed (src/games/caro/caro.logic.ts).
 */
module CaroLogic {
  import opened Wrappers

  const BOARD_SIZE := 15
  const WIN_COUNT := 5
  const CELLS := 225
  const DIRECTIONS := 4

  /** Cells hold 0 (empty), 1 (X) or 2 (O). */
  type Board = seq<int>

  predicate InBounds(row: int, col: int) { 0 <= row < BOARD_SIZE && 0 <= col < BOARD_SIZE }

  function Index(row: int, col: int): (i: int)
    ensures InBounds(row, col) ==> 0 <= i < CELLS
  {
    row * BOARD_SIZE + col
  }

  predicate Is(board: Board, row: int, col: int, mark: int)
    requires |board| == CELLS
  {
    InBounds(row, col) && board[Index(row, col)] == mark
  }

  /** The row and column `s` steps away in direction `d`: right, down, down-right, down-left. */
  function RowAt(row: int, d: int, s: int): int { if d == 0 then row else row + s }

  function ColAt(col: int, d: int, s: int): int { if d == 1 then col else if d == 3 then col - s else col + s }

  /** The cell `s` steps from (row, col) in direction `d` holds `mark`. */
  predicate StepIs(board: Board, row: int, col: int, d: int, s: int, mark: int)
    requires |board| == CELLS
  {
    Is(board, RowAt(row, d, s), ColAt(col, d, s), mark)
  }

  predicate BackIs(board: Board, row: int, col: int, d: int, s: int, mark: int)
    requires |board| == CELLS
  {
    StepIs(board, row, col, d, -s, mark)
  }

  lemma Rebase(board: Board, row: int, col: int, d: int, k: int, s: int, mark: int)
    requires |board| == CELLS
    ensures StepIs(board, RowAt(row, d, k), ColAt(col, d, k), d, s, mark) == StepIs(board, row, col, d, k + s, mark)
  {
  }

  // ---- what winning means ----

  ghost predicate Run(board: Board, row: int, col: int, d: int, lo: int, hi: int, mark: int)
    requires |board| == CELLS
  {
    forall s :: lo <= s <= hi ==> StepIs(board, row, col, d, s, mark)
  }

  ghost predicate FiveFrom(board: Board, row: int, col: int, d: int, mark: int)
    requires |board| == CELLS
  {
    0 <= d < DIRECTIONS && Run(board, row, col, d, 0, WIN_COUNT - 1, mark)
  }

  /** Somewhere on the board, five of `mark` in a row. */
  ghost predicate Five(board: Board, mark: int)
    requires |board| == CELLS
  {
    exists row, col, d :: FiveFrom(board, row, col, d, mark)
  }

  /** Five in a row in direction `d` of which the cell at (row, col) is number `k`. */
  ghost predicate FiveAround(board: Board, row: int, col: int, d: int, k: int, mark: int)
    requires |board| == CELLS
  {
    0 <= d < DIRECTIONS && 0 <= k < WIN_COUNT && Run(board, row, col, d, -k, WIN_COUNT - 1 - k, mark)
  }

  ghost predicate FiveThrough(board: Board, row: int, col: int, mark: int)
    requires |board| == CELLS
  {
    exists d, k :: FiveAround(board, row, col, d, k, mark)
  }

  ghost predicate Winless(board: Board)
    requires |board| == CELLS
  {
    !Five(board, 1) && !Five(board, 2)
  }

  // ---- the check around one stone ----

  /** How far `mark` continues from step `s` on, at most four steps in all. */
  function Forward(board: Board, row: int, col: int, d: int, mark: int, s: int): (n: int)
    requires |board| == CELLS && 1 <= s <= WIN_COUNT
    ensures s - 1 <= n < WIN_COUNT
    ensures forall k :: s <= k <= n ==> StepIs(board, row, col, d, k, mark)
    ensures n < WIN_COUNT - 1 ==> !StepIs(board, row, col, d, n + 1, mark)
    decreases WIN_COUNT - s
  {
    if s < WIN_COUNT && StepIs(board, row, col, d, s, mark)
    then Forward(board, row, col, d, mark, s + 1) else s - 1
  }

  function Backward(board: Board, row: int, col: int, d: int, mark: int, s: int): (n: int)
    requires |board| == CELLS && 1 <= s <= WIN_COUNT
    ensures s - 1 <= n < WIN_COUNT
    ensures forall k :: s <= k <= n ==> BackIs(board, row, col, d, k, mark)
    ensures n < WIN_COUNT - 1 ==> !BackIs(board, row, col, d, n + 1, mark)
    decreases WIN_COUNT - s
  {
    if s < WIN_COUNT && BackIs(board, row, col, d, s, mark)
    then Backward(board, row, col, d, mark, s + 1) else s - 1
  }

  /** The board positions from step `lo` to step `hi`. */
  function Line(row: int, col: int, d: int, lo: int, hi: int): (r: seq<int>)
    requires lo <= hi + 1
    ensures |r| == hi - lo + 1
    ensures forall i :: 0 <= i < |r| ==> r[i] == Index(RowAt(row, d, lo + i), ColAt(col, d, lo + i))
  {
    seq(hi - lo + 1, i => Index(RowAt(row, d, lo + i), ColAt(col, d, lo + i)))
  }

  function FindLine(board: Board, row: int, col: int, mark: int, d: nat): Option<seq<int>>
    requires |board| == CELLS && d <= DIRECTIONS
    decreases DIRECTIONS - d
  {
    if d == DIRECTIONS then None
    else
      var f, b := Forward(board, row, col, d, mark, 1), Backward(board, row, col, d, mark, 1);
      if 1 + f + b >= WIN_COUNT then Some(Line(row, col, d, -b, f)) else FindLine(board, row, col, mark, d + 1)
  }

  /** A reported line: five to nine neighbouring positions in one direction, all of that mark, through the stone. */
  ghost predicate WinningLine(board: Board, row: int, col: int, mark: int, line: seq<int>)
    requires |board| == CELLS
  {
    exists d, lo, hi :: IsLine(board, row, col, mark, line, d, lo, hi)
  }

  ghost predicate IsLine(board: Board, row: int, col: int, mark: int, line: seq<int>, d: int, lo: int, hi: int)
    requires |board| == CELLS
  {
    && 0 <= d < DIRECTIONS && -WIN_COUNT < lo <= 0 <= hi < WIN_COUNT && hi - lo + 1 >= WIN_COUNT
    && Run(board, row, col, d, lo, hi, mark) && line == Line(row, col, d, lo, hi)
  }

  lemma OwnCell(board: Board, row: int, col: int, d: int, mark: int)
    requires |board| == CELLS && Is(board, row, col, mark)
    ensures StepIs(board, row, col, d, 0, mark)
  {
  }

  lemma BackIsStep(board: Board, row: int, col: int, d: int, s: int, mark: int)
    requires |board| == CELLS
    ensures BackIs(board, row, col, d, s, mark) == StepIs(board, row, col, d, -s, mark)
  {
  }

  lemma FiveWithin(board: Board, row: int, col: int, d: int, k: int, b: int, f: int, mark: int)
    requires |board| == CELLS && FiveAround(board, row, col, d, k, mark) && 0 <= b < WIN_COUNT && 0 <= f < WIN_COUNT
    requires b < WIN_COUNT - 1 ==> !BackIs(board, row, col, d, b + 1, mark)
    requires f < WIN_COUNT - 1 ==> !StepIs(board, row, col, d, f + 1, mark)
    ensures k <= b && WIN_COUNT - 1 - k <= f
  {
    BackIsStep(board, row, col, d, b + 1, mark);
  }

  /** In direction `d`, the two counts reach five exactly when some five of that direction holds the stone. */
  lemma CountsSeeFive(board: Board, row: int, col: int, mark: int, d: int)
    requires |board| == CELLS && Is(board, row, col, mark) && 0 <= d < DIRECTIONS
    ensures var f, b := Forward(board, row, col, d, mark, 1), Backward(board, row, col, d, mark, 1);
      && Run(board, row, col, d, -b, f, mark)
      && (1 + f + b >= WIN_COUNT <==> exists k :: FiveAround(board, row, col, d, k, mark))
  {
    var f, b := Forward(board, row, col, d, mark, 1), Backward(board, row, col, d, mark, 1);
    hide Forward, Backward, StepIs, BackIs;
    forall s | -b <= s <= f ensures StepIs(board, row, col, d, s, mark) {
      if s < 0 {
        BackIsStep(board, row, col, d, -s, mark);
      } else if s == 0 {
        OwnCell(board, row, col, d, mark);
      }
    }
    if 1 + f + b >= WIN_COUNT {
      assert Run(board, row, col, d, -b, WIN_COUNT - 1 - b, mark);
      assert FiveAround(board, row, col, d, b, mark);
    }
    if k :| FiveAround(board, row, col, d, k, mark) {
      FiveWithin(board, row, col, d, k, b, f, mark);
    }
  }

  lemma {:induction false} FindLineFrom(board: Board, row: int, col: int, mark: int, d: nat)
    requires |board| == CELLS && Is(board, row, col, mark) && d <= DIRECTIONS
    ensures var line := FindLine(board, row, col, mark, d);
      && (line.Some? <==> exists e, k :: d <= e && FiveAround(board, row, col, e, k, mark))
      && (line.Some? ==> WinningLine(board, row, col, mark, line.value))
    decreases DIRECTIONS - d
  {
    hide Forward, Backward, StepIs, Run, Line;
    if d < DIRECTIONS {
      CountsSeeFive(board, row, col, mark, d);
      FindLineFrom(board, row, col, mark, d + 1);
      var f, b := Forward(board, row, col, d, mark, 1), Backward(board, row, col, d, mark, 1);
      if 1 + f + b >= WIN_COUNT {
        assert IsLine(board, row, col, mark, Line(row, col, d, -b, f), d, -b, f);
      }
    }
  }

  /** The check finds a line exactly when five in a row pass through the stone, and reports a true one. */
  lemma FindLineExact(board: Board, row: int, col: int, mark: int)
    requires |board| == CELLS && Is(board, row, col, mark)
    ensures var line := FindLine(board, row, col, mark, 0);
      && (line.Some? <==> FiveThrough(board, row, col, mark))
      && (line.Some? ==> WinningLine(board, row, col, mark, line.value))
      && (line.Some? ==> WIN_COUNT <= |line.value| < 2 * WIN_COUNT)
  {
    hide Run, StepIs, FindLine;
    FindLineFrom(board, row, col, mark, 0);
    assert forall d, k :: FiveAround(board, row, col, d, k, mark) ==> 0 <= d;
  }

  /** Five in a row that avoid the new stone were there before it. */
  lemma FiveAvoids(before: Board, row: int, col: int, mark: int, other: int, r: int, c: int, d: int)
    requires |before| == CELLS && InBounds(row, col) && 0 <= d < DIRECTIONS
    requires Run(before[Index(row, col) := mark], r, c, d, 0, WIN_COUNT - 1, other)
    requires forall s :: 0 <= s < WIN_COUNT ==> !Meets(r, c, d, s, row, col)
    ensures Five(before, other)
  {
    var after := before[Index(row, col) := mark];
    forall s | 0 <= s <= WIN_COUNT - 1 ensures StepIs(before, r, c, d, s, other) {
      assert StepIs(after, r, c, d, s, other) && !Meets(r, c, d, s, row, col);
    }
    assert FiveFrom(before, r, c, d, other);
  }

  predicate Meets(r: int, c: int, d: int, s: int, row: int, col: int) {
    RowAt(r, d, s) == row && ColAt(c, d, s) == col
  }

  lemma FiveHitsStone(board: Board, row: int, col: int, mark: int, r: int, c: int, d: int, s: int)
    requires |board| == CELLS && 0 <= d < DIRECTIONS && 0 <= s < WIN_COUNT
    requires Run(board, r, c, d, 0, WIN_COUNT - 1, mark) && Meets(r, c, d, s, row, col)
    ensures FiveThrough(board, row, col, mark)
  {
    hide StepIs;
    forall k | -s <= k <= WIN_COUNT - 1 - s ensures StepIs(board, row, col, d, k, mark) {
      Rebase(board, r, c, d, s, k, mark);
    }
    assert FiveAround(board, row, col, d, s, mark);
  }

  lemma ThroughIsFive(board: Board, row: int, col: int, mark: int)
    requires |board| == CELLS && FiveThrough(board, row, col, mark)
    ensures Five(board, mark)
  {
    hide StepIs;
    var d, k :| FiveAround(board, row, col, d, k, mark);
    var r, c := RowAt(row, d, -k), ColAt(col, d, -k);
    forall s | 0 <= s <= WIN_COUNT - 1 ensures StepIs(board, r, c, d, s, mark) {
      Rebase(board, row, col, d, -k, s, mark);
    }
    assert FiveFrom(board, r, c, d, mark);
  }

  /**
   * On a board without five in a row, the check around the stone just placed agrees with a
   * search of the whole board, and nobody else can have won by that move.
   */
  lemma IncrementalCheckExact(before: Board, row: int, col: int, mark: int)
    requires |before| == CELLS && Winless(before) && InBounds(row, col)
    requires (mark == 1 || mark == 2) && before[Index(row, col)] == 0
    ensures var after := before[Index(row, col) := mark];
      && (FindLine(after, row, col, mark, 0).Some? <==> Five(after, mark))
      && (FindLine(after, row, col, mark, 0).None? <==> Winless(after))
      && !Five(after, 3 - mark)
  {
    var after := before[Index(row, col) := mark];
    FindLineExact(after, row, col, mark);
    if FiveThrough(after, row, col, mark) {
      ThroughIsFive(after, row, col, mark);
    }
    hide FindLine, Winless;
    assert !Five(before, 1) && !Five(before, 2) by { WinlessMeans(before); }
    FiveComesFromStone(before, row, col, mark, mark);
    FiveComesFromStone(before, row, col, mark, 3 - mark);
    WinlessMeans(after);
  }

  lemma WinlessMeans(board: Board)
    requires |board| == CELLS
    ensures Winless(board) <==> !Five(board, 1) && !Five(board, 2)
  {
  }

  lemma FiveComesFromStone(before: Board, row: int, col: int, mark: int, other: int)
    requires |before| == CELLS && InBounds(row, col) && !Five(before, other)
    ensures var after := before[Index(row, col) := mark];
      Five(after, other) ==> other == mark && FiveThrough(after, row, col, mark)
  {
    var after := before[Index(row, col) := mark];
    if Five(after, other) {
      var r, c, d :| FiveFrom(after, r, c, d, other);
      if s :| 0 <= s < WIN_COUNT && Meets(r, c, d, s, row, col) {
        assert StepIs(after, r, c, d, s, other);
        FiveHitsStone(after, row, col, other, r, c, d, s);
      } else {
        FiveAvoids(before, row, col, mark, other, r, c, d);
        assert false;
      }
    }
  }

  // ---- one move ----

  datatype MoveError = OutOfBounds | CellTaken

  datatype Outcome = Won(line: seq<int>) | Drawn | GoesOn

  predicate Full(board: Board) { forall i :: 0 <= i < |board| ==> board[i] != 0 }

  function MoveOutcome(after: Board, row: int, col: int, mark: int): Outcome
    requires |after| == CELLS
  {
    match FindLine(after, row, col, mark, 0)
    case Some(line) => Won(line)
    case None => if Full(after) then Drawn else GoesOn
  }

  function ApplyMoveTo(board: Board, row: int, col: int, mark: int): Result<(Board, Outcome), MoveError>
    requires |board| == CELLS
  {
    if !InBounds(row, col) then Failure(OutOfBounds)
    else if board[Index(row, col)] != 0 then Failure(CellTaken)
    else
      var after := board[Index(row, col) := mark];
      Success((after, MoveOutcome(after, row, col, mark)))
  }

  /** Puts a stone on the board and looks around it. */
  method ApplyMove(board: array<int>, row: int, col: int, mark: int) returns (r: Result<Outcome, MoveError>)
    requires board.Length == CELLS
    modifies board
    ensures match ApplyMoveTo(old(board[..]), row, col, mark)
      case Success(done) => r == Success(done.1) && board[..] == done.0
      case Failure(e) => r == Failure(e) && board[..] == old(board[..])
  {
    if !InBounds(row, col) {
      return Failure(OutOfBounds);
    }
    var i := Index(row, col);
    if board[i] != 0 {
      return Failure(CellTaken);
    }
    board[i] := mark;
    assert board[..] == old(board[..])[i := mark];
    var line := FindWinningLine(board, row, col, mark);
    if line.Some? {
      return Success(Won(line.value));
    }
    var full := IsFull(board);
    r := Success(if full then Drawn else GoesOn);
  }

  method IsFull(board: array<int>) returns (full: bool)
    ensures full == Full(board[..])
  {
    for i := 0 to board.Length
      invariant forall k :: 0 <= k < i ==> board[k] != 0
    {
      if board[i] == 0 {
        assert board[..][i] == 0;
        return false;
      }
    }
    full := true;
  }

  /** Grows a list of cells both ways from the stone in each of the four directions. */
  method FindWinningLine(board: array<int>, row: int, col: int, mark: int) returns (line: Option<seq<int>>)
    requires board.Length == CELLS
    ensures line == FindLine(board[..], row, col, mark, 0)
  {
    hide Forward, Backward;
    for d := 0 to DIRECTIONS
      invariant FindLine(board[..], row, col, mark, 0) == FindLine(board[..], row, col, mark, d)
    {
      var cells := Grow(board, row, col, mark, d);
      if |cells| >= WIN_COUNT {
        return Some(cells);
      }
    }
    line := None;
  }

  method Grow(board: array<int>, row: int, col: int, mark: int, d: int) returns (cells: seq<int>)
    requires board.Length == CELLS
    ensures cells == Line(row, col, d, -Backward(board[..], row, col, d, mark, 1), Forward(board[..], row, col, d, mark, 1))
  {
    hide StepIs, BackIs, Index, RowAt, ColAt;
    ghost var now := board[..];
    cells := [Index(RowAt(row, d, 0), ColAt(col, d, 0))];
    assert cells == Line(row, col, d, 0, 0);
    var f := 1;
    while f < WIN_COUNT && StepIs(board[..], row, col, d, f, mark)
      invariant 1 <= f <= WIN_COUNT
      invariant Forward(now, row, col, d, mark, 1) == Forward(now, row, col, d, mark, f)
      invariant cells == Line(row, col, d, 0, f - 1)
    {
      cells := cells + [Index(RowAt(row, d, f), ColAt(col, d, f))];
      f := f + 1;
    }
    var b := 1;
    while b < WIN_COUNT && BackIs(board[..], row, col, d, b, mark)
      invariant 1 <= b <= WIN_COUNT
      invariant Backward(now, row, col, d, mark, 1) == Backward(now, row, col, d, mark, b)
      invariant cells == Line(row, col, d, -(b - 1), f - 1)
    {
      cells := [Index(RowAt(row, d, -b), ColAt(col, d, -b))] + cells;
      b := b + 1;
    }
  }
}
