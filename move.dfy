// The move value of src/modules/move.py: squares, the pieces copied from the
// board when the move is built, the UCI-like string and the SAN string.
module Moves {
  import opened Base
  import opened Pieces

  /** One ply. `pieceMoved` and `pieceCaptured` are copies of the board cells
      taken at construction; the move keeps no reference to the board. */
  datatype Move = Move(
    startRow: int, startCol: int, endRow: int, endCol: int,
    pieceMoved: Cell, pieceCaptured: Cell,
    promoted: Option<Kind>,
    isCastling: bool, isCheck: bool,
    uci: string, san: string)

  /** `Move.file_map`: column -> file letter. */
  const Files: string := "abcdefgh"
  /** `Move.rank_map`: row -> rank digit (row 0 is rank 8). */
  const Ranks: string := "87654321"

  function FileChar(c: int): (f: char)
    requires 0 <= c < 8
    ensures f as int == 'a' as int + c
  {
    Files[c]
  }

  function RankChar(r: int): (k: char)
    requires 0 <= r < 8
    ensures k as int == '8' as int - r
  {
    Ranks[r]
  }

  /** File letter followed by rank digit, e.g. (6, 4) is "e2". */
  function SquareName(r: int, c: int): (s: string)
    requires OnBoard(r, c)
    ensures |s| == 2
  {
    [FileChar(c), RankChar(r)]
  }

  lemma SquareNameInjective(r1: int, c1: int, r2: int, c2: int)
    requires OnBoard(r1, c1) && OnBoard(r2, c2)
    ensures SquareName(r1, c1) == SquareName(r2, c2) <==> (r1, c1) == (r2, c2)
  {
    if SquareName(r1, c1) == SquareName(r2, c2) {
      assert FileChar(c1) == SquareName(r1, c1)[0] == FileChar(c2);
      assert RankChar(r1) == SquareName(r1, c1)[1] == RankChar(r2);
    }
  }

  predicate MoveOnBoard(m: Move)
  {
    OnBoard(m.startRow, m.startCol) && OnBoard(m.endRow, m.endCol)
  }

  /** `coordinates_to_uci`: start file, start rank, end file, end rank; a promotion
      is start file, end file, end rank, '=', piece letter (no start rank). */
  function UciOf(sr: int, sc: int, er: int, ec: int, promoted: Option<Kind>): (u: string)
    requires OnBoard(sr, sc) && OnBoard(er, ec)
    ensures promoted.None? ==> |u| == 4
    ensures promoted.Some? ==> |u| == 5
  {
    if promoted.Some? then
      [FileChar(sc), FileChar(ec), RankChar(er), '=', KindChar(promoted.value)]
    else
      [FileChar(sc), RankChar(sr), FileChar(ec), RankChar(er)]
  }

  /** Two UCI strings agree exactly when both are plain moves between the same
      squares, or both are promotions to the same piece with the same start
      file and destination (the start rank is not part of a promotion's UCI). */
  lemma UciInjective(sr1: int, sc1: int, er1: int, ec1: int, p1: Option<Kind>,
                     sr2: int, sc2: int, er2: int, ec2: int, p2: Option<Kind>)
    requires OnBoard(sr1, sc1) && OnBoard(er1, ec1) && OnBoard(sr2, sc2) && OnBoard(er2, ec2)
    ensures UciOf(sr1, sc1, er1, ec1, p1) == UciOf(sr2, sc2, er2, ec2, p2) <==>
            (p1.None? && p2.None? && (sr1, sc1, er1, ec1) == (sr2, sc2, er2, ec2)) ||
            (p1.Some? && p1 == p2 && (sc1, er1, ec1) == (sc2, er2, ec2))
  {
    var u1, u2 := UciOf(sr1, sc1, er1, ec1, p1), UciOf(sr2, sc2, er2, ec2, p2);
    if u1 == u2 {
      if p1.Some? {
        assert p2.Some?;
        assert FileChar(sc1) == u1[0] == FileChar(sc2);
        assert FileChar(ec1) == u1[1] == FileChar(ec2);
        assert RankChar(er1) == u1[2] == RankChar(er2);
        assert KindChar(p1.value) == u1[4] == KindChar(p2.value);
        assert p1.value == p2.value by {
          match p1.value
          case Pawn =>
          case Knight =>
          case Bishop =>
          case Rook =>
          case Queen =>
          case King =>
        }
      } else {
        assert p2.None?;
        assert FileChar(sc1) == u1[0] == FileChar(sc2);
        assert RankChar(sr1) == u1[1] == RankChar(sr2);
        assert FileChar(ec1) == u1[2] == FileChar(ec2);
        assert RankChar(er1) == u1[3] == RankChar(er2);
      }
    }
  }

  /** `get_san` before the check marker: a pawn shows its destination (and the
      promotion suffix), prefixed by its start file and 'x' on a capture or any
      change of column; castling is O-O or O-O-O; any other piece shows its
      letter and destination, with 'x' after the letter on a capture. */
  function SanBody(m: Move): string
    requires |m.uci| >= 4
  {
    if PieceCode(m.pieceMoved)[1] == 'p' then
      var dest := if m.promoted.None? then m.uci[2..] else m.uci[1..];
      if m.pieceCaptured.Some? || m.startCol != m.endCol then [m.uci[0], 'x'] + dest else dest
    else if m.isCastling then
      (if m.startCol < m.endCol then "O-O" else "O-O-O")
    else
      var s := [PieceCode(m.pieceMoved)[1]] + m.uci[2..];
      if m.pieceCaptured.Some? then [s[0], 'x'] + s[1..] else s
  }

  /** `get_san`: the body followed by '+' exactly when `is_check` holds. */
  function SanOf(m: Move): string
    requires |m.uci| >= 4
  {
    if m.isCheck then SanBody(m) + "+" else SanBody(m)
  }

  /** `Move.__init__`: copies the moved and captured cells out of the grid and
      derives the UCI and SAN strings. */
  function NewMove(g: Grid, sr: int, sc: int, er: int, ec: int,
                   promoted: Option<Kind>, isCastling: bool): (m: Move)
    requires IsGrid(g) && OnBoard(sr, sc) && OnBoard(er, ec)
    ensures MoveOnBoard(m)
    ensures (m.startRow, m.startCol, m.endRow, m.endCol) == (sr, sc, er, ec)
    ensures m.pieceMoved == g[sr][sc] && m.pieceCaptured == g[er][ec]
    ensures m.promoted == promoted && m.isCastling == isCastling && !m.isCheck
    ensures m.uci == UciOf(sr, sc, er, ec, promoted)
    ensures m.san == SanOf(m)
  {
    var m0 := Move(sr, sc, er, ec, g[sr][sc], g[er][ec], promoted, isCastling, false,
                   UciOf(sr, sc, er, ec, promoted), "");
    m0.(san := SanOf(m0))
  }

  /** `Move.__eq__`: equality is decided by the UCI string alone. */
  predicate SameMove(a: Move, b: Move)
  {
    a.uci == b.uci
  }

  /** Two constructed moves are equal exactly when their squares (and promotion
      piece) agree, whatever the board, the castling flag or the check flag. */
  lemma SameMoveIffSameSquares(g1: Grid, sr1: int, sc1: int, er1: int, ec1: int, p1: Option<Kind>, c1: bool,
                               g2: Grid, sr2: int, sc2: int, er2: int, ec2: int, p2: Option<Kind>, c2: bool)
    requires IsGrid(g1) && OnBoard(sr1, sc1) && OnBoard(er1, ec1)
    requires IsGrid(g2) && OnBoard(sr2, sc2) && OnBoard(er2, ec2)
    ensures SameMove(NewMove(g1, sr1, sc1, er1, ec1, p1, c1), NewMove(g2, sr2, sc2, er2, ec2, p2, c2)) <==>
            (p1.None? && p2.None? && (sr1, sc1, er1, ec1) == (sr2, sc2, er2, ec2)) ||
            (p1.Some? && p1 == p2 && (sc1, er1, ec1) == (sc2, er2, ec2))
  {
    UciInjective(sr1, sc1, er1, ec1, p1, sr2, sc2, er2, ec2, p2);
  }

  /** board.py:559-560: fill in `is_check` and recompute the SAN. The move's
      identity (its UCI) is unchanged. */
  function WithCheck(m: Move, check: bool): (r: Move)
    requires |m.uci| >= 4
    ensures SameMove(r, m) && r.isCheck == check
    ensures r.(isCheck := m.isCheck, san := m.san) == m
    ensures r.san == SanOf(r)
  {
    var m1 := m.(isCheck := check);
    m1.(san := SanOf(m1))
  }

  /** The SAN of a well-formed pawn move: destination square and promotion
      suffix, prefixed by the start file and 'x' on a capture or a change of
      column (which covers en passant). */
  lemma PawnSan(g: Grid, sr: int, sc: int, er: int, ec: int, p: Option<Kind>, castling: bool, check: bool)
    requires IsGrid(g) && OnBoard(sr, sc) && OnBoard(er, ec) && IsPawn(g[sr][sc])
    ensures var m := NewMove(g, sr, sc, er, ec, p, castling).(isCheck := check);
            SanOf(m) ==
              (if g[er][ec].Some? || sc != ec then [FileChar(sc), 'x'] else []) +
              SquareName(er, ec) +
              (if p.Some? then ['=', KindChar(p.value)] else []) +
              (if check then "+" else "")
  {
    var m := NewMove(g, sr, sc, er, ec, p, castling).(isCheck := check);
    assert PieceCode(m.pieceMoved)[1] == 'p';
    PawnBody(m);
  }

  /** The pawn branch of `SanBody`, read off a move's UCI string. */
  lemma PawnBody(m: Move)
    requires MoveOnBoard(m) && m.uci == UciOf(m.startRow, m.startCol, m.endRow, m.endCol, m.promoted)
    requires PieceCode(m.pieceMoved)[1] == 'p'
    ensures SanBody(m) ==
              (if m.pieceCaptured.Some? || m.startCol != m.endCol then [FileChar(m.startCol), 'x'] else []) +
              SquareName(m.endRow, m.endCol) +
              (if m.promoted.Some? then ['=', KindChar(m.promoted.value)] else [])
  {
    var u := m.uci;
    if m.promoted.Some? {
      assert u[1..] == SquareName(m.endRow, m.endCol) + ['=', KindChar(m.promoted.value)];
    } else {
      assert u[2..] == SquareName(m.endRow, m.endCol);
    }
  }

  /** The SAN of a castling move by a non-pawn is O-O towards higher columns and
      O-O-O otherwise. */
  lemma CastlingSan(g: Grid, sr: int, sc: int, er: int, ec: int, check: bool)
    requires IsGrid(g) && OnBoard(sr, sc) && OnBoard(er, ec) && !IsPawn(g[sr][sc])
    ensures var m := NewMove(g, sr, sc, er, ec, None, true).(isCheck := check);
            SanOf(m) == (if sc < ec then "O-O" else "O-O-O") + (if check then "+" else "")
  {
  }

  /** The SAN of any other non-promotion move: the piece letter, 'x' exactly on a
      capture, then the destination square. */
  lemma PieceSan(g: Grid, sr: int, sc: int, er: int, ec: int, check: bool)
    requires IsGrid(g) && OnBoard(sr, sc) && OnBoard(er, ec) && g[sr][sc].Some? && !IsPawn(g[sr][sc])
    ensures var m := NewMove(g, sr, sc, er, ec, None, false).(isCheck := check);
            SanOf(m) ==
              [KindChar(g[sr][sc].value.kind)] + (if g[er][ec].Some? then "x" else "") +
              SquareName(er, ec) + (if check then "+" else "")
  {
  }

  /** The SAN ends in '+' exactly when the move is marked as giving check. */
  lemma SanCheckMarker(m: Move)
    requires MoveOnBoard(m) && m.uci == UciOf(m.startRow, m.startCol, m.endRow, m.endCol, m.promoted)
    ensures var s := SanOf(m); |s| > 0 && (s[|s| - 1] == '+' <==> m.isCheck)
  {
    var b := SanBody(m);
    assert |b| > 0 && b[|b| - 1] != '+' by {
      var u := m.uci;
      if PieceCode(m.pieceMoved)[1] == 'p' {
        assert b[|b| - 1] == u[|u| - 1];
      } else if !m.isCastling {
        assert b[|b| - 1] == u[|u| - 1];
      }
    }
  }
}
