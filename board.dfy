/**
 The tic-tac-toe board of the client: nine cells in row-major order, each -1
 (empty), 0 (the first-joined player's mark) or 1 (the second's), and the
 winner search `checkWinner`.
 */
module Board {

  const Empty: int := -1

  /** A cell index on the 3x3 board. */
  type Cell = i: nat | i < 9

  /** Three cells in a row, column or diagonal. */
  datatype Line = Line(a: Cell, b: Cell, c: Cell)

  /** The eight lines, in the order `checkWinner` tries them. */
  const Lines: seq<Line> := [
    Line(0, 1, 2), Line(3, 4, 5), Line(6, 7, 8),
    Line(0, 3, 6), Line(1, 4, 7), Line(2, 5, 8),
    Line(0, 4, 8), Line(2, 4, 6)
  ]

  /** The board that `Array(9).fill(-1)` creates. */
  function EmptyBoard(): (cells: seq<int>)
    ensures |cells| == 9
    ensures forall i :: 0 <= i < 9 ==> cells[i] == Empty
  {
    seq(9, _ => Empty)
  }

  /** A line whose three cells hold the same mark. */
  predicate LineWins(cells: seq<int>, l: Line)
    requires |cells| == 9
  {
    cells[l.a] != Empty && cells[l.a] == cells[l.b] && cells[l.a] == cells[l.c]
  }

  /** `every(cell => cell !== -1)`: no cell is empty. */
  predicate Full(cells: seq<int>)
  {
    forall i :: 0 <= i < |cells| ==> cells[i] != Empty
  }

  /**
   The index of the first line at or after `from` that wins, or `|Lines|` when
   none does.
   */
  function FirstWinningLine(cells: seq<int>, from: nat): (k: nat)
    requires |cells| == 9 && from <= |Lines|
    ensures from <= k <= |Lines|
    ensures forall j :: from <= j < k ==> !LineWins(cells, Lines[j])
    ensures k < |Lines| ==> LineWins(cells, Lines[k])
    decreases |Lines| - from
  {
    if from == |Lines| then from
    else if LineWins(cells, Lines[from]) then from
    else FirstWinningLine(cells, from + 1)
  }

  /**
   What `checkWinner` computes: the mark on the first winning line in the
   order of `Lines`, or -1 when no line wins.
   */
  function Winner(cells: seq<int>): (w: int)
    requires |cells| == 9
    ensures w == Empty <==> forall k :: 0 <= k < |Lines| ==> !LineWins(cells, Lines[k])
    ensures forall k ::
      (0 <= k < |Lines| && LineWins(cells, Lines[k]) && forall j :: 0 <= j < k ==> !LineWins(cells, Lines[j]))
      ==> w == cells[Lines[k].a]
    ensures w != Empty ==> w in cells
  {
    var k := FirstWinningLine(cells, 0);
    if k < |Lines| then
      assert forall k' :: 0 <= k' < k ==> !LineWins(cells, Lines[k']);
      cells[Lines[k].a]
    else
      Empty
  }

  /** `checkWinner`: tries the eight lines in order and returns at the first that wins. */
  method CheckWinner(cells: seq<int>) returns (w: int)
    requires |cells| == 9
    ensures w == Winner(cells)
    ensures w == Empty <==> forall k :: 0 <= k < |Lines| ==> !LineWins(cells, Lines[k])
    ensures w != Empty ==> w in cells
  {
    for i := 0 to |Lines|
      invariant forall k :: 0 <= k < i ==> !LineWins(cells, Lines[k])
    {
      var line := Lines[i];
      if cells[line.a] != Empty && cells[line.a] == cells[line.b] && cells[line.a] == cells[line.c] {
        return cells[line.a];
      }
    }
    return Empty;
  }

  /** `newCells[cell] = mark` on a copy: exactly cell `cell` changes, to `mark`. */
  function Mark(cells: seq<int>, cell: nat, mark: int): (r: seq<int>)
    requires cell < |cells|
    ensures |r| == |cells|
    ensures r[cell] == mark
    ensures forall j :: 0 <= j < |r| && j != cell ==> r[j] == cells[j]
  {
    cells[cell := mark]
  }

  /** The number of empty cells. */
  function EmptyCount(cells: seq<int>): (n: nat)
    ensures n <= |cells|
  {
    if cells == [] then 0
    else (if cells[0] == Empty then 1 else 0) + EmptyCount(cells[1..])
  }

  /** A board is full exactly when it has no empty cell left. */
  lemma {:induction false} FullIffNoEmpty(cells: seq<int>)
    ensures Full(cells) <==> EmptyCount(cells) == 0
  {
    if cells != [] {
      FullIffNoEmpty(cells[1..]);
      assert forall i :: 1 <= i < |cells| ==> cells[i] == cells[1..][i - 1];
    }
  }

  /** Marking an empty cell fills exactly one of them. */
  lemma {:induction false} MarkFillsOneEmpty(cells: seq<int>, cell: nat, mark: int)
    requires cell < |cells| && cells[cell] == Empty && mark != Empty
    ensures EmptyCount(Mark(cells, cell, mark)) == EmptyCount(cells) - 1
  {
    var r := Mark(cells, cell, mark);
    if cell > 0 {
      assert r[1..] == Mark(cells[1..], cell - 1, mark);
      MarkFillsOneEmpty(cells[1..], cell - 1, mark);
    } else {
      assert r[1..] == cells[1..];
    }
  }

  /**
   A move on a board that no line wins can only make the mover win: the
   winner reported after the move is -1 or the mark just placed.
   */
  lemma MoverIsOnlyPossibleWinner(cells: seq<int>, cell: Cell, mark: int)
    requires |cells| == 9 && Winner(cells) == Empty
    requires cells[cell] == Empty && mark != Empty
    ensures Winner(Mark(cells, cell, mark)) == Empty || Winner(Mark(cells, cell, mark)) == mark
  {
  }
}
