// Pieces, squares and the 8x8 grid (`board_array` in src/modules/board.py).
module Pieces {
  import opened Base

  datatype Color = White | Black
  datatype Kind = Pawn | Knight | Bishop | Rook | Queen | King
  datatype Piece = Piece(color: Color, kind: Kind)

  /** A square of the grid: None is the source's empty marker "--". */
  type Cell = Option<Piece>
  type Grid = seq<seq<Cell>>
  /** (row, col); row 0 is the eighth rank. */
  type Square = (int, int)

  function Opponent(c: Color): Color
  {
    if c == White then Black else White
  }

  /** The colour whose turn it is, from the source's `white_to_move` flag. */
  function SideColor(whiteToMove: bool): Color
  {
    if whiteToMove then White else Black
  }

  predicate OnBoard(r: int, c: int)
  {
    0 <= r < 8 && 0 <= c < 8
  }

  /** Exactly 8 rows of 8 cells. */
  predicate IsGrid(g: Grid)
  {
    |g| == 8 && forall r :: 0 <= r < 8 ==> |g[r]| == 8
  }

  /** The grid with one cell replaced (`board_array[r][c] = v`). */
  function Put(g: Grid, r: int, c: int, v: Cell): (g': Grid)
    requires IsGrid(g) && OnBoard(r, c)
    ensures IsGrid(g')
    ensures g'[r][c] == v
    ensures forall i, j :: OnBoard(i, j) && (i, j) != (r, c) ==> g'[i][j] == g[i][j]
  {
    g[r := g[r][c := v]]
  }

  /** Two grids that agree on every square are the same grid. */
  lemma GridExt(g1: Grid, g2: Grid)
    requires IsGrid(g1) && IsGrid(g2)
    requires forall i, j :: OnBoard(i, j) ==> g1[i][j] == g2[i][j]
    ensures g1 == g2
  {
    forall i | 0 <= i < 8
      ensures g1[i] == g2[i]
    {
      assert forall j :: 0 <= j < 8 ==> g1[i][j] == g2[i][j];
    }
  }

  predicate IsPawn(c: Cell)
  {
    c.Some? && c.value.kind == Pawn
  }

  predicate HasColor(c: Cell, color: Color)
  {
    c.Some? && c.value.color == color
  }

  predicate IsKingOf(c: Cell, color: Color)
  {
    c == Some(Piece(color, King))
  }

  /** First character of the source's piece code: 'w', 'b'. */
  function ColorChar(c: Color): char
  {
    if c == White then 'w' else 'b'
  }

  /** Second character of the source's piece code ('p' is lower case). */
  function KindChar(k: Kind): char
  {
    match k
    case Pawn => 'p'
    case Knight => 'N'
    case Bishop => 'B'
    case Rook => 'R'
    case Queen => 'Q'
    case King => 'K'
  }

  /** The two-character code the source stores in `board_array` ("wK", "bp", "--"). */
  function PieceCode(c: Cell): (code: string)
    ensures |code| == 2
    ensures code[0] == '-' <==> c.None?
  {
    match c
    case None => "--"
    case Some(p) => [ColorChar(p.color), KindChar(p.kind)]
  }

  lemma PieceCodeInjective(a: Cell, b: Cell)
    requires PieceCode(a) == PieceCode(b)
    ensures a == b
  {
    if a.Some? && b.Some? {
      assert ColorChar(a.value.color) == ColorChar(b.value.color);
      assert KindChar(a.value.kind) == KindChar(b.value.kind);
    }
  }
}
