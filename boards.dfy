// The Board class of src/modules/board.py as the object it is: the fields
// the methods update in place, and each method proved against the functions
// on State that specify it (Position, Rules, Game). Model() reads the fields
// back as a State.
module Boards {
  import opened Base
  import opened Pieces
  import opened Moves
  import opened Castling
  import opened Strings
  import opened Fen
  import opened Rules
  import opened Position
  import opened Game

  /** `Move(start, end, board, ...)` for one planned move, as the one-move
      list that Build makes of the plan. */
  method PlannedMove(grid: Grid, p: Plan) returns (m: Move)
    requires IsGrid(grid) && PlanOnBoard(p)
    ensures AllOnBoard([p])
    ensures [m] == Build(grid, [p])
  {
    m := NewMove(grid, p.sr, p.sc, p.er, p.ec, p.promoted, p.castling);
    BuildOne(grid, p);
  }

  /** The loop of `get_king_locations` on the board array: scan the squares
      row by row, stopping once both kings are found. */
  method ScanKings(grid: Grid) returns (kings: (Option<Square>, Option<Square>))
    requires IsGrid(grid)
    ensures kings == KingLocations(grid)
  {
    var wk: Option<Square>, bk: Option<Square> := None, None;
    for row := 0 to 8
      invariant KingScan(grid, row, 0, wk, bk) == KingLocations(grid)
    {
      for col := 0 to 8
        invariant KingScan(grid, row, col, wk, bk) == KingLocations(grid)
      {
        ghost var w0, b0 := wk, bk;
        var piece := grid[row][col];
        if piece.Some? && piece.value.kind == King {
          if piece.value.color == White {
            wk := Some((row, col));
          } else {
            bk := Some((row, col));
          }
          if wk.Some? && bk.Some? {
            return (wk, bk);
          }
        }
        assert KingScan(grid, row, col, w0, b0) == KingScan(grid, row, col + 1, wk, bk);
      }
    }
    return (wk, bk);
  }

  /** The plans toward done + [(r, c)]. */
  lemma TowardSnoc(row: int, col: int, done: seq<Square>, r: int, c: int)
    requires OnBoard(row, col) && OnBoard(r, c) && AllOnBoard(Toward(row, col, done))
    ensures Toward(row, col, done + [(r, c)]) == Toward(row, col, done) + [Plan(row, col, r, c, None, false)]
    ensures AllOnBoard(Toward(row, col, done + [(r, c)]))
  {
    var ts := done + [(r, c)];
    assert forall i :: 0 <= i < |done| ==> ts[i] == done[i];
    assert Toward(row, col, ts) == Toward(row, col, done) + [Plan(row, col, r, c, None, false)];
  }

  /** The ray of RaySquares collected the way the loop walks it: `done`
      holds the squares already passed. */
  ghost function RayFrom(g: Grid, color: Color, dr: int, dc: int, r: int, c: int, done: seq<Square>): seq<Square>
    requires IsGrid(g) && IsDir(dr, dc)
    decreases Span(r, dr) + Span(c, dc)
  {
    if !OnBoard(r, c) then done
    else if g[r][c].None? then RayFrom(g, color, dr, dc, r + dr, c + dc, done + [(r, c)])
    else if g[r][c].value.color != color then done + [(r, c)]
    else done
  }

  lemma {:induction false} RayFromSquares(g: Grid, color: Color, dr: int, dc: int, r: int, c: int, done: seq<Square>)
    requires IsGrid(g) && IsDir(dr, dc)
    ensures RayFrom(g, color, dr, dc, r, c, done) == done + RaySquares(g, color, dr, dc, r, c)
    decreases Span(r, dr) + Span(c, dc)
  {
    if OnBoard(r, c) && g[r][c].None? {
      var rest := RaySquares(g, color, dr, dc, r + dr, c + dc);
      RayFromSquares(g, color, dr, dc, r + dr, c + dc, done + [(r, c)]);
      assert (done + [(r, c)]) + rest == done + ([(r, c)] + rest);
    }
  }

  lemma TowardOnBoard(row: int, col: int, ts: seq<Square>)
    requires OnBoard(row, col) && forall u :: u in ts ==> OnBoard(u.0, u.1)
    ensures AllOnBoard(Toward(row, col, ts))
  {
    var ps := Toward(row, col, ts);
    forall p | p in ps ensures PlanOnBoard(p)
    {
      var i :| 0 <= i < |ps| && ps[i] == p;
      assert ts[i] in ts;
    }
  }

  lemma BuildOne(g: Grid, p: Plan)
    requires IsGrid(g) && PlanOnBoard(p)
    ensures AllOnBoard([p]) && Build(g, [p]) == [NewMove(g, p.sr, p.sc, p.er, p.ec, p.promoted, p.castling)]
  {
  }

  /** Appending the moves of `b` after those of `a`. */
  lemma BuildAppend(g: Grid, moves: seq<Move>, a: seq<Plan>, b: seq<Plan>)
    requires IsGrid(g) && AllOnBoard(a) && AllOnBoard(b)
    ensures AllOnBoard(a + b)
    ensures moves + Build(g, a) + Build(g, b) == moves + Build(g, a + b)
  {
    BuildConcat(g, a, b);
  }

  /** board.py:353-359 on the board array: clear the square of a pawn
      taken en passant, empty the start square and put the moved piece on the
      destination. */
  method PlacePieces(grid: Grid, move: Move) returns (g: Grid)
    requires IsGrid(grid) && MoveWf(move)
    ensures g == PlaceGrid(grid, move)
  {
    g := grid;
    if EpShaped(move) {
      g := Put(g, move.endRow + Back(move.pieceMoved.value.color), move.endCol, None);
    }
    g := Put(g, move.startRow, move.startCol, None);
    g := Put(g, move.endRow, move.endCol, move.pieceMoved);
  }

  /** board.py:360-373 on the board array: replace a promoted pawn, then move
      the rook of a castling move next to the king. */
  method FinishPieces(grid: Grid, move: Move) returns (g: Grid)
    requires IsGrid(grid) && MoveWf(move)
    ensures g == FinishGrid(grid, move)
  {
    var er, ec := move.endRow, move.endCol;
    g := grid;
    if move.promoted.Some? {
      g := Put(g, er, ec, Some(Piece(move.pieceMoved.value.color, move.promoted.value)));
    }
    if move.isCastling {
      if ec > move.startCol {
        if ec + 1 < 8 {
          g := Put(g, er, ec - 1, g[er][ec + 1]);
          g := Put(g, er, ec + 1, None);
        }
      } else if ec < move.startCol {
        g := Put(g, er, ec + 1, g[er][Wrap(ec - 2)]);
        g := Put(g, er, Wrap(ec - 2), None);
      }
    }
  }

  /** board.py:456-466 on the board array: put back a pawn taken en
      passant, then move a castling rook back to its corner. */
  method RestorePieces(grid: Grid, move: Move) returns (g: Grid)
    requires IsGrid(grid) && MoveWf(move)
    ensures g == RestoreGrid(grid, move, EpShaped(move))
  {
    var er, ec := move.endRow, move.endCol;
    g := grid;
    if EpShaped(move) {
      g := Put(g, er + Back(move.pieceMoved.value.color), ec, Some(Piece(Opponent(move.pieceMoved.value.color), Pawn)));
    }
    if move.isCastling {
      if ec > move.startCol {
        if ec + 1 < 8 {
          g := Put(g, er, ec + 1, g[er][ec - 1]);
          g := Put(g, er, ec - 1, None);
        }
      } else if ec < move.startCol {
        g := Put(g, er, Wrap(ec - 2), g[er][ec + 1]);
        g := Put(g, er, ec + 1, None);
      }
    }
  }

  /** The filter loop's step at index i - 1 on values: the move there is
      dropped when it exposes the king, and the remaining work is unchanged. */
  lemma FilterIndexStep(t: State, moves: seq<Move>, i: int)
    requires Wf(t) && 0 < i <= |moves| && forall m :: m in moves ==> MoveWf(m)
    ensures var m := moves[i - 1];
      var out := if Exposes(t, m) then moves[..i - 1] + moves[i..] else moves;
      i - 1 <= |out| && (forall x :: x in out ==> MoveWf(x)) &&
      FilterFrom(Revert(Make(t, m)), out[..i - 1], out[i - 1..]) == FilterFrom(t, moves[..i], moves[i..])
  {
    var m := moves[i - 1];
    var pending, kept := moves[..i], moves[i..];
    var kept' := if Exposes(t, m) then kept else [m] + kept;
    var out := if Exposes(t, m) then moves[..i - 1] + moves[i..] else moves;
    SplitAt(moves, i, Exposes(t, m));
    assert pending[..|pending| - 1] == out[..i - 1] && pending[|pending| - 1] == m;
    assert forall x :: x in pending ==> MoveWf(x) by {
      assert forall x :: x in pending ==> x in moves;
    }
    FilterFromStep(t, pending, kept);
  }

  /** Where the filter loop's step leaves the pending and kept parts. */
  lemma SplitAt(moves: seq<Move>, i: int, drop: bool)
    requires 0 < i <= |moves|
    ensures var out := if drop then moves[..i - 1] + moves[i..] else moves;
      i - 1 <= |out| && out[..i - 1] == moves[..i][..i - 1] && moves[..i][i - 1] == moves[i - 1] &&
      out[i - 1..] == (if drop then moves[i..] else [moves[i - 1]] + moves[i..]) &&
      forall x :: x in out ==> x in moves
  {
    if drop {
      var out := moves[..i - 1] + moves[i..];
      assert out[..i - 1] == moves[..i - 1] && out[i - 1..] == moves[i..];
    } else {
      assert moves[i - 1..] == [moves[i - 1]] + moves[i..];
    }
  }

  /** The `update_is_check` loop's step at index j on values. */
  lemma CheckIndexStep(t: State, moves: seq<Move>, j: int)
    requires Wf(t) && 0 <= j < |moves| && forall m :: m in moves ==> MoveWf(m)
    ensures var out := moves[j := WithCheck(moves[j], GivesCheck(t, moves[j]))];
      (forall x :: x in out ==> MoveWf(x)) &&
      UpdateChecksFrom(Revert(Make(t, moves[j])), out[..j + 1], out[j + 1..]) == UpdateChecksFrom(t, moves[..j], moves[j..])
  {
    var a := WithCheck(moves[j], GivesCheck(t, moves[j]));
    var done, todo := moves[..j], moves[j..];
    ReplaceAt(moves, j, a);
    assert forall x :: x in done ==> MoveWf(x) by {
      assert forall x :: x in done ==> x in moves;
    }
    assert forall x :: x in todo ==> MoveWf(x) by {
      assert forall x :: x in todo ==> x in moves;
    }
    UpdateStep(t, done, todo);
  }

  /** Where the `update_is_check` loop's step leaves the done and to-do parts. */
  lemma ReplaceAt(moves: seq<Move>, j: int, a: Move)
    requires 0 <= j < |moves|
    ensures var out := moves[j := a];
      moves[j..] != [] && moves[j..][0] == moves[j] && moves[j..][1..] == moves[j + 1..] &&
      out[..j + 1] == moves[..j] + [a] && out[j + 1..] == moves[j + 1..] &&
      forall x :: x in out ==> x == a || x in moves
  {
    var out := moves[j := a];
    assert out[..j + 1] == moves[..j] + [a];
    assert out[j + 1..] == moves[j + 1..];
  }

  /** The walk of one sliding ray (board.py:647-657, 677-687) on the board
      array: pass empty squares, stop on a piece, taking it when it is the
      opponent's. */
  method WalkRay(grid: Grid, row: int, col: int, dr: int, dc: int, moves: seq<Move>) returns (out: seq<Move>)
    requires Occupied(grid, row, col) && IsDir(dr, dc)
    ensures AllOnBoard(Toward(row, col, RaySquares(grid, grid[row][col].value.color, dr, dc, row + dr, col + dc)))
    ensures out == moves + Build(grid, Toward(row, col, RaySquares(grid, grid[row][col].value.color, dr, dc, row + dr, col + dc)))
  {
    var color := grid[row][col].value.color;
    ghost var ray := RaySquares(grid, color, dr, dc, row + dr, col + dc);
    RayEnterable(grid, row, col, dr, dc, row + dr, col + dc);
    TowardOnBoard(row, col, ray);
    RayFromSquares(grid, color, dr, dc, row + dr, col + dc, []);
    out := moves;
    var r, c := row + dr, col + dc;
    ghost var done: seq<Square> := [];
    while 0 <= r < 8 && 0 <= c < 8
      invariant RayFrom(grid, color, dr, dc, r, c, done) == ray
      invariant AllOnBoard(Toward(row, col, done))
      invariant out == moves + Build(grid, Toward(row, col, done))
      decreases Span(r, dr) + Span(c, dc)
    {
      if grid[r][c].None? {
        var m := PlannedMove(grid, Plan(row, col, r, c, None, false));
        TowardSnoc(row, col, done, r, c);
        BuildAppend(grid, moves, Toward(row, col, done), [Plan(row, col, r, c, None, false)]);
        out := out + [m];
        done := done + [(r, c)];
        r, c := r + dr, c + dc;
      } else if grid[r][c].value.color != color {
        var m := PlannedMove(grid, Plan(row, col, r, c, None, false));
        TowardSnoc(row, col, done, r, c);
        BuildAppend(grid, moves, Toward(row, col, done), [Plan(row, col, r, c, None, false)]);
        out := out + [m];
        return;
      } else {
        return;
      }
    }
  }

  /** The slide of one more direction. */
  lemma SlideStep(g: Grid, row: int, col: int, dirs: seq<(int, int)>, i: int)
    requires Occupied(g, row, col) && AllDirs(dirs) && 0 <= i < |dirs|
    ensures AllDirs(dirs[..i]) && AllDirs(dirs[..i + 1]) && IsDir(dirs[i].0, dirs[i].1)
    ensures Slide(g, row, col, dirs[..i + 1]) ==
      Slide(g, row, col, dirs[..i]) + Toward(row, col, RaySquares(g, ColorAt(g, row, col), dirs[i].0, dirs[i].1, row + dirs[i].0, col + dirs[i].1))
  {
    assert dirs[i] in dirs;
    assert dirs[..i + 1][..i] == dirs[..i];
  }

  /** The loop over directions shared by `get_rook_moves` and
      `get_bishop_moves`, on the board array. */
  method WalkSlide(grid: Grid, row: int, col: int, dirs: seq<(int, int)>, moves: seq<Move>) returns (out: seq<Move>)
    requires Occupied(grid, row, col) && AllDirs(dirs)
    ensures AllOnBoard(Slide(grid, row, col, dirs))
    ensures out == moves + Build(grid, Slide(grid, row, col, dirs))
  {
    out := moves;
    for i := 0 to |dirs|
      invariant AllOnBoard(Slide(grid, row, col, dirs[..i]))
      invariant out == moves + Build(grid, Slide(grid, row, col, dirs[..i]))
    {
      var (dr, dc) := dirs[i];
      SlideStep(grid, row, col, dirs, i);
      ghost var done := Slide(grid, row, col, dirs[..i]);
      out := WalkRay(grid, row, col, dr, dc, out);
      BuildAppend(grid, moves, done, Toward(row, col, RaySquares(grid, ColorAt(grid, row, col), dr, dc, row + dr, col + dc)));
    }
    assert dirs[..|dirs|] == dirs;
  }

  class Board {
    /** `board_array` */
    var board: Grid
    /** `white_to_move` */
    var whiteToMove: bool
    /** `castling_rights`: the object is created once and updated in place. */
    const castlingRights: CastlingRights
    /** `en_passant_square` */
    var enPassantSquare: Option<Square>
    /** `halfmove_clock` (a float once `undo_move` subtracts 0.5) */
    var halfmoveClock: real
    /** `fullmove_number` */
    var fullmoveNumber: int
    /** `move_log` */
    var moveLog: seq<Move>
    /** `fen_log` */
    var fenLog: seq<string>
    /** `white_king_pos`, `black_king_pos` */
    var whiteKingPos: Option<Square>
    var blackKingPos: Option<Square>
    /** `is_checkmate`, `is_draw` */
    var isCheckmate: bool
    var isDraw: bool
    /** `legal_moves` */
    var legalMoves: seq<Move>

    /** The fields read back as a State value. */
    ghost function Model(): State
      reads this, castlingRights
    {
      State(board, whiteToMove, castlingRights.rights, castlingRights.log, enPassantSquare,
            halfmoveClock, fullmoveNumber, moveLog, fenLog, whiteKingPos, blackKingPos,
            isCheckmate, isDraw, legalMoves)
    }

    ghost predicate Valid()
      reads this, castlingRights
    {
      Wf(Model())
    }

    // -------------------------------------------------------------------
    // Piece move generators: each appends its moves to `moves`, in the
    // order of the source, and changes nothing else.

    /** The four promotion moves (Q, N, R, B) of one pawn step. */
    method AddPromotions(row: int, col: int, r: int, c: int, moves: seq<Move>) returns (out: seq<Move>)
      requires IsGrid(board) && OnBoard(row, col) && OnBoard(r, c)
      ensures AllOnBoard(Promotions(row, col, r, c))
      ensures out == moves + Build(board, Promotions(row, col, r, c))
    {
      var ps := Promotions(row, col, r, c);
      out := moves;
      for i := 0 to 4
        invariant AllOnBoard(ps[..i])
        invariant out == moves + Build(board, ps[..i])
      {
        var m := PlannedMove(board, ps[i]);
        BuildAppend(board, moves, ps[..i], [ps[i]]);
        assert ps[..i + 1] == ps[..i] + [ps[i]];
        out := out + [m];
      }
      assert ps[..4] == ps;
    }

    /** The forward part of `get_pawn_moves` (with the guard of board.py:603
        corrected to `0 <=`). */
    method PawnPushMoves(row: int, col: int, moves: seq<Move>) returns (out: seq<Move>)
      requires Occupied(board, row, col)
      ensures AllOnBoard(PawnPushes(board, row, col))
      ensures out == moves + Build(board, PawnPushes(board, row, col))
    {
      PushesFrom(board, row, col, 0);
      var color := board[row][col].value.color;
      var direction := Forward(color);
      out := moves;
      if 0 <= row + direction < 8 && board[row + direction][col].None? {
        var one: seq<Plan>;
        if PromotesFrom(color, row) {
          one := Promotions(row, col, row + direction, col);
          out := AddPromotions(row, col, row + direction, col, out);
        } else {
          one := [Plan(row, col, row + direction, col, None, false)];
          var m := PlannedMove(board, one[0]);
          out := out + [m];
        }
        if row == HomeRank(color) && board[row + 2 * direction][col].None? {
          var two := Plan(row, col, row + 2 * direction, col, None, false);
          var m := PlannedMove(board, two);
          BuildAppend(board, moves, one, [two]);
          out := out + [m];
          assert PawnPushes(board, row, col) == one + [two];
        } else {
          assert PawnPushes(board, row, col) == one + [];
        }
      }
    }

    /** One diagonal of `get_pawn_moves`: a capture (four promotion moves on
        the last rank) or an en-passant move. */
    method PawnCaptureMoves(row: int, col: int, dc: int, moves: seq<Move>) returns (out: seq<Move>)
      requires Occupied(board, row, col)
      ensures AllOnBoard(PawnDiagonal(board, enPassantSquare, row, col, dc))
      ensures out == moves + Build(board, PawnDiagonal(board, enPassantSquare, row, col, dc))
    {
      DiagonalFrom(board, enPassantSquare, row, col, dc);
      var color := board[row][col].value.color;
      var direction := Forward(color);
      out := moves;
      if 0 <= col + dc < 8 && 0 <= row + direction < 8 {
        if HasColor(board[row + direction][col + dc], Opponent(color)) {
          if PromotesFrom(color, row) {
            out := AddPromotions(row, col, row + direction, col + dc, out);
          } else {
            var m := PlannedMove(board, Plan(row, col, row + direction, col + dc, None, false));
            out := out + [m];
          }
        } else if enPassantSquare == Some((row + direction, col + dc)) {
          var m := PlannedMove(board, Plan(row, col, row + direction, col + dc, None, false));
          out := out + [m];
        }
      }
    }

    /** `get_pawn_moves`: the pushes, then the diagonals to the left and to
        the right. */
    method GetPawnMoves(row: int, col: int, moves: seq<Move>) returns (out: seq<Move>)
      requires Occupied(board, row, col)
      ensures AllOnBoard(PawnPlans(board, enPassantSquare, row, col))
      ensures out == moves + Build(board, PawnPlans(board, enPassantSquare, row, col))
    {
      var pushes, left, right := PawnPushes(board, row, col),
        PawnDiagonal(board, enPassantSquare, row, col, -1), PawnDiagonal(board, enPassantSquare, row, col, 1);
      out := PawnPushMoves(row, col, moves);
      out := PawnCaptureMoves(row, col, -1, out);
      BuildAppend(board, moves, pushes, left);
      out := PawnCaptureMoves(row, col, 1, out);
      BuildAppend(board, moves, pushes + left, right);
    }

    /** `get_rook_moves` */
    method GetRookMoves(row: int, col: int, moves: seq<Move>) returns (out: seq<Move>)
      requires Occupied(board, row, col)
      ensures AllOnBoard(RookPlans(board, row, col))
      ensures out == moves + Build(board, RookPlans(board, row, col))
    {
      out := WalkSlide(board, row, col, RookDirs, moves);
    }

    /** `get_bishop_moves` */
    method GetBishopMoves(row: int, col: int, moves: seq<Move>) returns (out: seq<Move>)
      requires Occupied(board, row, col)
      ensures AllOnBoard(BishopPlans(board, row, col))
      ensures out == moves + Build(board, BishopPlans(board, row, col))
    {
      out := WalkSlide(board, row, col, BishopDirs, moves);
    }

    /** `get_queen_moves`: the rook moves, then the bishop moves. */
    method GetQueenMoves(row: int, col: int, moves: seq<Move>) returns (out: seq<Move>)
      requires Occupied(board, row, col)
      ensures AllOnBoard(QueenPlans(board, row, col))
      ensures out == moves + Build(board, QueenPlans(board, row, col))
    {
      out := GetRookMoves(row, col, moves);
      out := GetBishopMoves(row, col, out);
      BuildAppend(board, moves, RookPlans(board, row, col), BishopPlans(board, row, col));
    }

    /** The loop over a fixed offset list shared by `get_knight_moves` and
        `get_king_moves`: each target on the board that is empty or holds an
        opponent piece. */
    method StepMoves(row: int, col: int, offs: seq<(int, int)>, moves: seq<Move>) returns (out: seq<Move>)
      requires Occupied(board, row, col)
      ensures AllOnBoard(Steps(board, row, col, offs))
      ensures out == moves + Build(board, Steps(board, row, col, offs))
    {
      out := moves;
      for i := 0 to |offs|
        invariant AllOnBoard(Steps(board, row, col, offs[..i]))
        invariant out == moves + Build(board, Steps(board, row, col, offs[..i]))
      {
        var (dr, dc) := offs[i];
        ghost var done := Steps(board, row, col, offs[..i]);
        ghost var here := StepAt(board, row, col, offs[i]);
        assert Steps(board, row, col, offs[..i + 1]) == done + here by {
          assert offs[..i + 1][..i] == offs[..i];
        }
        StepsFrom(board, row, col, offs[..i + 1]);
        BuildAppend(board, moves, done, here);
        var r, c := row + dr, col + dc;
        if 0 <= r < 8 && 0 <= c < 8 && (board[r][c].None? || board[r][c].value.color != board[row][col].value.color) {
          var m := PlannedMove(board, Plan(row, col, r, c, None, false));
          out := out + [m];
        } else {
          assert here == [];
        }
      }
      assert offs[..|offs|] == offs;
    }

    /** `get_knight_moves` */
    method GetKnightMoves(row: int, col: int, moves: seq<Move>) returns (out: seq<Move>)
      requires Occupied(board, row, col)
      ensures AllOnBoard(KnightPlans(board, row, col))
      ensures out == moves + Build(board, KnightPlans(board, row, col))
    {
      out := StepMoves(row, col, KnightOffsets, moves);
    }

    /** `get_king_moves` (castling is generated separately) */
    method GetKingMoves(row: int, col: int, moves: seq<Move>) returns (out: seq<Move>)
      requires Occupied(board, row, col)
      ensures AllOnBoard(KingPlans(board, row, col))
      ensures out == moves + Build(board, KingPlans(board, row, col))
    {
      out := StepMoves(row, col, KingOffsets, moves);
    }

    /** `moveFunctions[piece_type](row, col, moves)` for a piece of the side
        to move; nothing for an empty square or an opponent piece. */
    method PieceMoves(row: int, col: int, moves: seq<Move>) returns (out: seq<Move>)
      requires IsGrid(board) && OnBoard(row, col)
      ensures AllOnBoard(PiecePlans(board, whiteToMove, enPassantSquare, row, col))
      ensures out == moves + Build(board, PiecePlans(board, whiteToMove, enPassantSquare, row, col))
    {
      PieceFrom(board, whiteToMove, enPassantSquare, row, col);
      var piece := board[row][col];
      out := moves;
      if piece.Some? && piece.value.color == SideColor(whiteToMove) {
        match piece.value.kind
        case Pawn => out := GetPawnMoves(row, col, moves);
        case Rook => out := GetRookMoves(row, col, moves);
        case Knight => out := GetKnightMoves(row, col, moves);
        case Bishop => out := GetBishopMoves(row, col, moves);
        case Queen => out := GetQueenMoves(row, col, moves);
        case King => out := GetKingMoves(row, col, moves);
      }
    }

    /** `get_psuedo_legal_moves`: the squares row by row, each piece of the
        side to move adding its moves. */
    method GetPseudoLegalMoves() returns (moves: seq<Move>)
      requires IsGrid(board)
      ensures moves == PseudoLegal(board, whiteToMove, enPassantSquare)
    {
      moves := [];
      for row := 0 to 8
        invariant AllOnBoard(BoardPlans(board, whiteToMove, enPassantSquare, row))
        invariant moves == Build(board, BoardPlans(board, whiteToMove, enPassantSquare, row))
      {
        ghost var done := BoardPlans(board, whiteToMove, enPassantSquare, row);
        for col := 0 to 8
          invariant AllOnBoard(RowPlans(board, whiteToMove, enPassantSquare, row, col))
          invariant moves == Build(board, done) + Build(board, RowPlans(board, whiteToMove, enPassantSquare, row, col))
        {
          ghost var line := RowPlans(board, whiteToMove, enPassantSquare, row, col);
          moves := PieceMoves(row, col, moves);
          BuildAppend(board, Build(board, done), line, PiecePlans(board, whiteToMove, enPassantSquare, row, col));
          RowOnBoard(board, whiteToMove, enPassantSquare, row, col + 1);
        }
        BuildConcat(board, done, RowPlans(board, whiteToMove, enPassantSquare, row, 8));
        BoardOnBoard(board, whiteToMove, enPassantSquare, row + 1);
      }
    }

    // -------------------------------------------------------------------
    // Construction and the FEN of the board

    /** `__init__` (board.py:81-106): decode the FEN into the fields, start the
        move and FEN logs, locate the kings and generate the legal moves. A FEN
        the source cannot load (it raises or exits) is excluded; Initial
        reports why. */
    constructor (fen: string)
      requires Initial(fen).Ok?
      ensures Valid() && Model() == Initial(fen).value
    {
      InitialInStages(fen);
      var result := FenToBoard(fen);
      var rec := result.value;
      board := rec.grid;
      whiteToMove := rec.whiteToMove;
      castlingRights := new CastlingRights(rec.castling);
      enPassantSquare := rec.enPassant;
      halfmoveClock := rec.halfmove as real;
      fullmoveNumber := rec.fullmove;
      moveLog := [];
      fenLog := [];
      whiteKingPos, blackKingPos := None, None;
      isCheckmate, isDraw := false, false;
      legalMoves := [];
      new;
      assert Model() == Loaded(rec);
      LogStartFen();
      LocateKings();
      RegenerateLegalMoves();
    }

    /** board.py:102 */
    method LogStartFen()
      requires Valid()
      modifies this
      ensures Model() == Logged(old(Model()))
    {
      var current := BoardToFen();
      fenLog := [TrimClocks(current)];
    }

    /** board.py:103 */
    method LocateKings()
      requires Valid()
      modifies this
      ensures Model() == Located(old(Model()))
    {
      var kings := GetKingLocations();
      whiteKingPos, blackKingPos := kings.0, kings.1;
    }

    /** `board_to_fen` */
    method BoardToFen() returns (fen: string)
      requires Valid()
      ensures fen == BoardFen(Model())
    {
      var placement := PlacementToFen(board);
      var activeColor := if whiteToMove then "w" else "b";
      var castling := castlingRights.ToString();
      var enPassantTarget := if enPassantSquare.Some? then SquareName(enPassantSquare.value.0, enPassantSquare.value.1) else "-";
      fen := Join([placement, activeColor, castling, enPassantTarget, IntStr(halfmoveClock.Floor), IntStr(fullmoveNumber)], ' ');
    }

    /** `get_king_locations` */
    method GetKingLocations() returns (kings: (Option<Square>, Option<Square>))
      requires IsGrid(board)
      ensures kings == KingLocations(board)
    {
      kings := ScanKings(board);
    }

    // -------------------------------------------------------------------
    // Check

    /** `square_under_attack`: hand the turn over, generate the opponent's
        pseudo-legal moves, hand the turn back, and look for a move landing
        on the square. */
    method SquareUnderAttack(row: int, col: int) returns (attacked: bool)
      requires IsGrid(board)
      modifies this
      ensures unchanged(this)
      ensures attacked == Attacked(board, whiteToMove, enPassantSquare, row, col)
    {
      whiteToMove := !whiteToMove;
      var opponentMoves := GetPseudoLegalMoves();
      whiteToMove := !whiteToMove;
      for i := 0 to |opponentMoves|
        invariant LandsFrom(opponentMoves, row, col, i) == LandsFrom(opponentMoves, row, col, 0)
      {
        if opponentMoves[i].endRow == row && opponentMoves[i].endCol == col {
          return true;
        }
      }
      return false;
    }

    /** `in_check`: the cached square of the king of the side to move is
        attacked (false without a cached king, where the source fails). */
    method InCheck() returns (check: bool)
      requires Valid()
      modifies this
      ensures unchanged(this)
      ensures check == Position.InCheck(Model())
    {
      var king := if whiteToMove then whiteKingPos else blackKingPos;
      if king.None? {
        return false;
      }
      check := SquareUnderAttack(king.value.0, king.value.1);
    }

    /** One wing of `get_castling_moves`: with the right still held, a
        castling move two columns towards the rook when both squares on the
        way are empty and not attacked. */
    method CastlingWingMoves(row: int, col: int, kingside: bool, moves: seq<Move>) returns (out: seq<Move>)
      requires IsGrid(board) && OnBoard(row, col)
      modifies this
      ensures unchanged(this)
      ensures out == moves + Build(board, WingPlans(board, whiteToMove, enPassantSquare, castlingRights.rights, row, col, kingside))
    {
      var step := if kingside then 1 else -1;
      out := moves;
      var held := castlingRights.HasRights(RightLetter(whiteToMove, kingside));
      if held && 0 <= col + 2 * step < 8 && board[row][col + step].None? && board[row][col + 2 * step].None? {
        var safe := WingUnattacked(row, col, step);
        if safe {
          var m := PlannedMove(board, Plan(row, col, row, col + 2 * step, None, true));
          out := out + [m];
        }
      }
    }

    /** The two squares the king passes over, asked about in turn: the
        second only when the first is not attacked. */
    method WingUnattacked(row: int, col: int, step: int) returns (safe: bool)
      requires IsGrid(board) && OnBoard(row, col) && (step == 1 || step == -1) && OnBoard(row, col + 2 * step)
      requires board[row][col + step].None? && board[row][col + 2 * step].None?
      modifies this
      ensures unchanged(this)
      ensures safe <==> WingClear(board, whiteToMove, enPassantSquare, row, col, step)
    {
      var near := SquareUnderAttack(row, col + step);
      if near {
        return false;
      }
      var far := SquareUnderAttack(row, col + 2 * step);
      safe := !far;
    }

    /** `get_castling_moves` for the king of the side to move on (row, col):
        none when the king is in check; otherwise the king-side move, then the
        queen-side move. */
    method GetCastlingMoves(row: int, col: int, moves: seq<Move>) returns (out: seq<Move>)
      requires Valid() && ActiveKing(Model()) == Some((row, col))
      modifies this
      ensures unchanged(this)
      ensures out == moves + Build(board, CastlingPlans(board, whiteToMove, enPassantSquare, castlingRights.rights, row, col))
    {
      var check := InCheck();
      if check {
        assert Attacked(board, whiteToMove, enPassantSquare, row, col);
        return moves;
      }
      assert !Attacked(board, whiteToMove, enPassantSquare, row, col);
      out := CastlingWingMoves(row, col, true, moves);
      out := CastlingWingMoves(row, col, false, out);
      BuildAppend(board, moves, WingPlans(board, whiteToMove, enPassantSquare, castlingRights.rights, row, col, true),
                  WingPlans(board, whiteToMove, enPassantSquare, castlingRights.rights, row, col, false));
    }

    // -------------------------------------------------------------------
    // Making and taking back moves

    /** `_make_psuedo_legal_move` */
    method MakePseudoLegalMove(move: Move)
      requires Valid() && MoveWf(move)
      modifies this, castlingRights
      ensures Model() == Make(old(Model()), move)
      ensures Valid()
    {
      PushMove(move);
      PlaceMove(move);
      FinishMove(move);
      MakeInStages(old(Model()), move);
    }

    /** board.py:347-351: log the move, pass the turn and count the full
        move. */
    method PushMove(move: Move)
      requires Valid() && MoveWf(move)
      modifies this
      ensures Model() == Pushed(old(Model()), move)
    {
      moveLog := moveLog + [move];
      whiteToMove := !whiteToMove;
      fullmoveNumber := fullmoveNumber + (if whiteToMove then 1 else 0);
    }

    /** board.py:353-358: move the pieces and re-read the king cache. */
    method PlaceMove(move: Move)
      requires Valid() && MoveWf(move)
      modifies this
      ensures Model() == Placed(old(Model()), move)
    {
      board := PlacePieces(board, move);
      var kings := GetKingLocations();
      whiteKingPos, blackKingPos := kings.0, kings.1;
    }

    /** board.py:360-373: promote, update the castling rights and bring a
        castling rook over. */
    method FinishMove(move: Move)
      requires Valid() && MoveWf(move)
      modifies this, castlingRights
      ensures Model() == Finished(old(Model()), move)
    {
      castlingRights.Update(move);
      board := FinishPieces(board, move);
    }

    /** `undo_move(in_engine)`: with the engine flag, the bare take-back the
        legal-move filter uses (Revert); without it, also the clock, the FEN
        log and the legal moves (Undo). The pawn taken en passant is put back
        whenever the move was an en-passant capture. */
    method UndoMove(inEngine: bool)
      requires Valid()
      modifies this, castlingRights
      ensures Model() == if inEngine then Revert(old(Model())) else Undo(old(Model()))
      decreases if inEngine then 0 else 7
    {
      if |moveLog| == 0 {
        return;
      }
      ghost var s0 := Model();
      if inEngine {
        TakeBack(false);
        RevertInStages(s0);
      } else {
        TakeBack(true);
        PopFenLog();
        TakenBackInStages(s0);
        RegenerateLegalMoves();
      }
    }

    /** `self.legal_moves = self.get_legal_moves()` */
    method RegenerateLegalMoves()
      requires Valid()
      modifies this, castlingRights
      ensures Model() == Regenerate(old(Model()))
      decreases 6
    {
      ghost var s0 := Model();
      var legal := GetLegalMoves();
      ghost var s1 := Model();
      assert s1.(legal := legal) == Regenerate(s0);
      legalMoves := legal;
      assert Model() == s1.(legal := legal);
    }

    /** board.py:444-466: take the last move back, stepping the clock back
        when `clock` holds. */
    method TakeBack(clock: bool)
      requires Valid() && moveLog != []
      modifies this, castlingRights
      ensures var m := old(moveLog)[|old(moveLog)| - 1];
        MoveWf(m) && Model() == Restored(Unplaced(old(Model()), m, clock), m)
    {
      var move := moveLog[|moveLog| - 1];
      assert move in moveLog;
      UnplaceMove(move, clock);
      RestoreMove(move);
    }

    /** board.py:444-451: pop the move, give back the full move, step the
        clock back (outside the engine), put the pieces back, pass the turn
        back and clear the game-end flags. */
    method UnplaceMove(move: Move, clock: bool)
      requires Valid() && MoveWf(move) && moveLog != []
      modifies this
      ensures Model() == Unplaced(old(Model()), move, clock)
    {
      UnlogMove(clock);
      UnmoveMove(move);
      UnplacedInStages(old(Model()), move, clock);
    }

    /** board.py:444-446 */
    method UnlogMove(clock: bool)
      requires Valid() && moveLog != []
      modifies this
      ensures Model() == Unlogged(old(Model()), clock)
    {
      moveLog := moveLog[..|moveLog| - 1];
      fullmoveNumber := fullmoveNumber - (if whiteToMove then 1 else 0);
      if halfmoveClock != 0.0 && clock {
        halfmoveClock := halfmoveClock - 0.5;
      }
    }

    /** board.py:447-451 */
    method UnmoveMove(move: Move)
      requires Valid() && MoveWf(move)
      modifies this
      ensures Model() == Unmoved(old(Model()), move)
    {
      board := UnplaceGrid(board, move);
      whiteToMove := !whiteToMove;
      isCheckmate, isDraw := false, false;
    }

    /** board.py:452-466: re-read the king cache, roll back the castling
        rights, set the en-passant square and restore the grid. */
    method RestoreMove(move: Move)
      requires Valid() && MoveWf(move)
      modifies this, castlingRights
      ensures Model() == Restored(old(Model()), move)
    {
      var kings := GetKingLocations();
      whiteKingPos, blackKingPos := kings.0, kings.1;
      castlingRights.UndoRights();
      if IsPawn(move.pieceMoved) && (move.startRow - move.endRow == 2 || move.endRow - move.startRow == 2) {
        enPassantSquare := Some((move.endRow, move.endCol));
      } else {
        enPassantSquare := None;
      }
      board := RestorePieces(board, move);
    }

    /** board.py:468: `fen_log.pop()` (an empty log is left as it is). */
    method PopFenLog()
      modifies this
      ensures Model() == old(Model()).(fenLog := if old(fenLog) == [] then [] else old(fenLog)[..|old(fenLog)| - 1])
    {
      if |fenLog| > 0 {
        fenLog := fenLog[..|fenLog| - 1];
      }
    }

    // -------------------------------------------------------------------
    // Legal moves

    /** `get_legal_moves`: the pseudo-legal moves and the castling moves of
        the cached king; then, from the last to the first, each move is made,
        dropped if it leaves the mover's king attacked, and taken back; then
        each remaining move is made again to record whether it gives check. */
    method GetLegalMoves() returns (moves: seq<Move>)
      requires Valid()
      modifies this, castlingRights
      ensures (Model(), moves) == LegalMoves(old(Model()))
      decreases 5
    {
      ghost var s0 := Model();
      moves := GetPseudoLegalMoves();
      var king := if whiteToMove then whiteKingPos else blackKingPos;
      if king.Some? && !IsPawn(board[king.value.0][king.value.1]) {
        moves := GetCastlingMoves(king.value.0, king.value.1, moves);
      }
      assert moves == Candidates(s0);
      moves := FilterExposing(moves);
      moves := UpdateIsCheck(moves);
    }

    /** board.py:569-574: walk the candidates from the last to the first,
        dropping each one that leaves the mover's own king attacked. */
    method FilterExposing(candidates: seq<Move>) returns (moves: seq<Move>)
      requires Valid() && forall m :: m in candidates ==> MoveWf(m)
      modifies this, castlingRights
      ensures (Model(), moves) == FilterFrom(old(Model()), candidates, [])
      decreases 4
    {
      ghost var goal := FilterFrom(Model(), candidates, []);
      moves := candidates;
      var i := |moves|;
      assert moves[..i] == candidates && moves[i..] == [];
      while i > 0
        invariant 0 <= i <= |moves| && Valid()
        invariant forall m :: m in moves ==> MoveWf(m)
        invariant FilterFrom(Model(), moves[..i], moves[i..]) == goal
      {
        moves := FilterStep(moves, i);
        i := i - 1;
      }
      assert moves[..0] == [] && moves[0..] == moves;
      ghost var s1 := Model();
      assert FilterFrom(s1, [], moves) == (s1, moves);
    }

    /** The body of the filter loop at index i - 1 (board.py:570-574): drop
        the move there if it exposes the king. */
    method FilterStep(moves: seq<Move>, i: int) returns (out: seq<Move>)
      requires Valid() && 0 < i <= |moves| && forall m :: m in moves ==> MoveWf(m)
      modifies this, castlingRights
      ensures Valid() && i - 1 <= |out| && forall m :: m in out ==> MoveWf(m)
      ensures FilterFrom(Model(), out[..i - 1], out[i - 1..]) == FilterFrom(old(Model()), moves[..i], moves[i..])
      decreases 3
    {
      ghost var t := Model();
      FilterIndexStep(t, moves, i);
      var exposed := ExposesKing(moves[i - 1]);
      if exposed {
        out := moves[..i - 1] + moves[i..];
      } else {
        out := moves;
      }
    }

    /** One step of the filter (board.py:570-574): make the move, hand the
        turn back, ask whether the mover's king is attacked, hand the turn on
        and take the move back. */
    method ExposesKing(move: Move) returns (exposed: bool)
      requires Valid() && MoveWf(move)
      modifies this, castlingRights
      ensures exposed == Exposes(old(Model()), move)
      ensures Model() == Revert(Make(old(Model()), move))
      decreases 2
    {
      MakePseudoLegalMove(move);
      FlipTurn();
      exposed := InCheck();
      FlipTurn();
      UndoMove(true);
    }

    /** `white_to_move = not white_to_move` */
    method FlipTurn()
      requires Valid()
      modifies this
      ensures Model() == Flip(old(Model()))
    {
      whiteToMove := !whiteToMove;
    }

    /** `update_is_check` (board.py:547-561): make each move, record whether
        the opponent is now in check, and take it back. */
    method UpdateIsCheck(filtered: seq<Move>) returns (moves: seq<Move>)
      requires Valid() && forall m :: m in filtered ==> MoveWf(m)
      modifies this, castlingRights
      ensures (Model(), moves) == UpdateChecksFrom(old(Model()), [], filtered)
      decreases 4
    {
      ghost var goal := UpdateChecksFrom(Model(), [], filtered);
      moves := filtered;
      var j := 0;
      assert moves[..0] == [] && moves[0..] == filtered;
      while j < |moves|
        invariant 0 <= j <= |moves| && Valid()
        invariant forall m :: m in moves ==> MoveWf(m)
        invariant UpdateChecksFrom(Model(), moves[..j], moves[j..]) == goal
      {
        moves := CheckStep(moves, j);
        j := j + 1;
      }
      assert moves[j..] == [] && moves[..j] == moves;
    }

    /** The body of the `update_is_check` loop at index j. */
    method CheckStep(moves: seq<Move>, j: int) returns (out: seq<Move>)
      requires Valid() && 0 <= j < |moves| && forall m :: m in moves ==> MoveWf(m)
      modifies this, castlingRights
      ensures Valid() && |out| == |moves| && forall m :: m in out ==> MoveWf(m)
      ensures UpdateChecksFrom(Model(), out[..j + 1], out[j + 1..]) == UpdateChecksFrom(old(Model()), moves[..j], moves[j..])
      decreases 3
    {
      ghost var t := Model();
      CheckIndexStep(t, moves, j);
      var check := GivesCheckAfter(moves[j]);
      out := moves[j := WithCheck(moves[j], check)];
    }

    /** One step of `update_is_check`: make the move, ask whether the side
        now to move is in check, take the move back. */
    method GivesCheckAfter(move: Move) returns (check: bool)
      requires Valid() && MoveWf(move)
      modifies this, castlingRights
      ensures check == GivesCheck(old(Model()), move)
      ensures Model() == Revert(Make(old(Model()), move))
      decreases 2
    {
      MakePseudoLegalMove(move);
      check := InCheck();
      UndoMove(true);
    }

    /** `make_legal_move`: a move equal to one of the legal moves, while the
        game is on, is played as the stored legal move; then the legal moves
        are regenerated and the end of the game is judged. Any other move
        changes nothing. */
    method MakeLegalMove(move: Move)
      requires Valid()
      modifies this, castlingRights
      ensures Model() == MakeLegal(old(Model()), move)
    {
      var i := FirstSame(legalMoves, move);
      if i < 0 || isCheckmate || isDraw {
        return;
      }
      var played := legalMoves[i];
      assert played in legalMoves;
      PlayMove(played);
      RegenerateLegalMoves();
      JudgeGame();
    }

    /** board.py:416-423: make the move, log the position key, set the
        en-passant square and the clock. */
    method PlayMove(move: Move)
      requires Valid() && MoveWf(move)
      modifies this, castlingRights
      ensures Model() == Played(old(Model()), move)
    {
      var clock := halfmoveClock;
      MakePseudoLegalMove(move);
      LogFen();
      UpdateEnPassantSquare(move);
      halfmoveClock := ClockAfter(clock, move);
    }

    /** board.py:418: `fen_log.append(remove_extra_details(board_to_fen()))` */
    method LogFen()
      requires Valid()
      modifies this
      ensures Model() == old(Model()).(fenLog := old(fenLog) + [RemoveExtraDetails(BoardFen(old(Model())))])
    {
      var fen := BoardToFen();
      fenLog := fenLog + [RemoveExtraDetails(fen)];
    }

    /** `update_en_passant_square` (board.py:384-398) */
    method UpdateEnPassantSquare(move: Move)
      requires Valid() && MoveWf(move)
      modifies this
      ensures Model() == old(Model()).(ep := EpAfter(old(board), move))
    {
      enPassantSquare := EpAfter(board, move);
    }

    /** board.py:427-434: with no legal move left, mate if in check (the last
        logged move's SAN then ends in '#') and a draw otherwise; with moves
        left, a draw on a clock of fifty moves or a threefold repetition. */
    method JudgeGame()
      requires Valid() && moveLog != [] && !isCheckmate && !isDraw
      modifies this
      ensures Model() == Judge(old(Model()))
    {
      if legalMoves == [] {
        var check := InCheck();
        if check {
          isCheckmate := true;
          var n := |moveLog| - 1;
          moveLog := moveLog[n := MarkMate(moveLog[n])];
        } else {
          isDraw := true;
        }
      } else if halfmoveClock == 50.0 || Threefold(fenLog) {
        isDraw := true;
      }
    }
  }
}
