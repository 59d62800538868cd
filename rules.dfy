/** The board and the outcome rules of the game server: the 3x3 board, the
    eight fixed winning lines, and the win and draw tests run after a move. */
module Rules {

  /** A board cell: '' (empty), 'x' or 'o'. */
  datatype Cell = Empty | X | O

  /** A player's symbol: CROSS_SYMBOL ('x') or CIRCLE_SYMBOL ('o'). */
  datatype Mark = Cross | Circle

  /** The cell a mark writes. */
  function CellOf(m: Mark): Cell
  {
    match m
    case Cross => X
    case Circle => O
  }

  type Index = i: int | 0 <= i < 9

  /** Nine cells, row-major. */
  type Board = b: seq<Cell> | |b| == 9 witness EmptyBoard

  /** `Array(9).fill('')`. */
  const EmptyBoard: seq<Cell> := [Empty, Empty, Empty, Empty, Empty, Empty, Empty, Empty, Empty]

  /** WIN_STATES: three rows, three columns, two diagonals. */
  const WinStates: seq<seq<Index>> := [
    [0, 1, 2], [3, 4, 5], [6, 7, 8],
    [0, 3, 6], [1, 4, 7], [2, 5, 8],
    [0, 4, 8], [2, 4, 6]
  ]

  /** `line.every(cell => board[cell] === c)` */
  predicate LineAll(b: Board, line: seq<Index>, c: Cell)
  {
    forall j :: 0 <= j < |line| ==> b[line[j]] == c
  }

  /** `line.some(index => board[index] === c)` */
  predicate LineHas(b: Board, line: seq<Index>, c: Cell)
  {
    exists j :: 0 <= j < |line| && b[line[j]] == c
  }

  /** The win test: some line of WIN_STATES is filled with the mover's symbol. */
  predicate IsWinner(b: Board, m: Mark)
  {
    exists k :: 0 <= k < |WinStates| && LineAll(b, WinStates[k], CellOf(m))
  }

  /** The draw test: every line of WIN_STATES holds an 'x' and an 'o'. */
  predicate IsDraw(b: Board)
  {
    forall k :: 0 <= k < |WinStates| ==> LineHas(b, WinStates[k], X) && LineHas(b, WinStates[k], O)
  }

  predicate IsFull(b: Board)
  {
    forall i :: 0 <= i < |b| ==> b[i] != Empty
  }

  /** What a move leads to: the move handler tests for a win first, then for a draw. */
  datatype Outcome = Win(winner: Mark) | Draw | Continue

  function Evaluate(b: Board, mover: Mark): (o: Outcome)
    ensures o.Win? <==> IsWinner(b, mover)
    ensures o.Win? ==> o.winner == mover
    ensures o.Draw? ==> IsDraw(b) && !IsWinner(b, Cross) && !IsWinner(b, Circle)
    ensures o.Continue? ==> !IsWinner(b, mover) && exists k :: 0 <= k < |WinStates| && !(LineHas(b, WinStates[k], X) && LineHas(b, WinStates[k], O))
  {
    if IsWinner(b, mover) then Win(mover)
    else if IsDraw(b) then
      DrawExcludesWin(b, Cross);
      DrawExcludesWin(b, Circle);
      Draw
    else Continue
  }

  // ---------------------------------------------------------------------------
  // An independent, geometric statement of "three in a row".

  predicate Row(b: Board, r: int, c: Cell)
    requires 0 <= r < 3
  {
    b[3 * r] == c && b[3 * r + 1] == c && b[3 * r + 2] == c
  }

  predicate Column(b: Board, col: int, c: Cell)
    requires 0 <= col < 3
  {
    b[col] == c && b[col + 3] == c && b[col + 6] == c
  }

  predicate ThreeInARow(b: Board, c: Cell)
  {
    || (exists r :: 0 <= r < 3 && Row(b, r, c))
    || (exists col :: 0 <= col < 3 && Column(b, col, c))
    || (b[0] == c && b[4] == c && b[8] == c)
    || (b[2] == c && b[4] == c && b[6] == c)
  }

  lemma LineAllOfTriple(b: Board, line: seq<Index>, c: Cell)
    requires |line| == 3
    ensures LineAll(b, line, c) <==> b[line[0]] == c && b[line[1]] == c && b[line[2]] == c
  {
  }

  /** WIN_STATES lists exactly the rows, columns and diagonals of the grid. */
  lemma WinnerIffThreeInARow(b: Board, m: Mark)
    ensures IsWinner(b, m) <==> ThreeInARow(b, CellOf(m))
  {
    var c := CellOf(m);
    forall k | 0 <= k < |WinStates|
      ensures LineAll(b, WinStates[k], c) <==> b[WinStates[k][0]] == c && b[WinStates[k][1]] == c && b[WinStates[k][2]] == c
    {
      LineAllOfTriple(b, WinStates[k], c);
    }
    if IsWinner(b, m) {
      var k :| 0 <= k < |WinStates| && LineAll(b, WinStates[k], c);
      if k < 3 {
        assert Row(b, k, c);
      } else if k < 6 {
        assert Column(b, k - 3, c);
      }
    }
    if ThreeInARow(b, c) {
      if exists r :: 0 <= r < 3 && Row(b, r, c) {
        var r :| 0 <= r < 3 && Row(b, r, c);
        assert LineAll(b, WinStates[r], c);
      } else if exists col :: 0 <= col < 3 && Column(b, col, c) {
        var col :| 0 <= col < 3 && Column(b, col, c);
        assert LineAll(b, WinStates[col + 3], c);
      } else if b[0] == c && b[4] == c && b[8] == c {
        assert LineAll(b, WinStates[6], c);
      } else {
        assert LineAll(b, WinStates[7], c);
      }
    }
  }

  /** A board that passes the draw test has no line filled with either mark,
      so the draw and win results can never both apply. */
  lemma DrawExcludesWin(b: Board, m: Mark)
    requires IsDraw(b)
    ensures !IsWinner(b, m)
  {
  }

  /** A full board of 'x' and 'o' with no uniform line passes the draw test. */
  lemma FullNoWinIsDraw(b: Board)
    requires IsFull(b)
    requires !IsWinner(b, Cross) && !IsWinner(b, Circle)
    ensures IsDraw(b)
  {
  }

  /** The draw test does not wait for a full board: it reports a draw as soon
      as every line is blocked, here with the centre still empty. */
  lemma DrawBeforeBoardIsFull()
    ensures var b: Board := [X, X, O, O, Empty, X, X, O, O];
            IsDraw(b) && !IsFull(b) && !IsWinner(b, Cross) && !IsWinner(b, Circle)
  {
    var b: Board := [X, X, O, O, Empty, X, X, O, O];
    forall k | 0 <= k < |WinStates|
      ensures LineHas(b, WinStates[k], X) && LineHas(b, WinStates[k], O)
    {
      var line := WinStates[k];
      if b[line[0]] == X { assert LineHas(b, line, X); }
      else if b[line[1]] == X { assert LineHas(b, line, X); }
      else { assert b[line[2]] == X; assert LineHas(b, line, X); }
      if b[line[0]] == O { assert LineHas(b, line, O); }
      else if b[line[1]] == O { assert LineHas(b, line, O); }
      else { assert b[line[2]] == O; assert LineHas(b, line, O); }
    }
    assert b[4] == Empty;
    DrawExcludesWin(b, Cross);
    DrawExcludesWin(b, Circle);
  }

  /** A filled top row wins for its mark. */
  lemma TopRowWins()
    ensures Evaluate([X, X, X, O, O, Empty, Empty, Empty, Empty], Cross) == Win(Cross)
  {
    var b: Board := [X, X, X, O, O, Empty, Empty, Empty, Empty];
    assert LineAll(b, WinStates[0], X);
  }

  /** A full board with no line is a draw. */
  lemma FullBoardDraw()
    ensures Evaluate([X, O, X, X, O, O, O, X, X], Cross) == Draw
  {
    var b: Board := [X, O, X, X, O, O, O, X, X];
    WinnerIffThreeInARow(b, Cross);
    WinnerIffThreeInARow(b, Circle);
    assert !ThreeInARow(b, X);
    assert !ThreeInARow(b, O);
    FullNoWinIsDraw(b);
  }
}
