// The game state of the Board class in src/modules/board.py as a value, and
// the state changes of its methods as functions on that value: making and
// taking back a move, the king cache, check detection, the legal-move filter,
// `make_legal_move` with its end-of-game tests, and `undo_move`.
module Position {
  import opened Base
  import opened Pieces
  import opened Moves
  import opened Castling
  import opened Strings
  import opened Fen
  import opened Rules

  /** Every attribute of a Board that its methods read or write. `rights` and
      `rightsLog` are the two fields of the nested Castling_Rights object;
      `halfmove` is a real because `undo_move` subtracts 0.5 from it. */
  datatype State = State(
    grid: Grid,
    white: bool,
    rights: string,
    rightsLog: seq<string>,
    ep: Option<Square>,
    halfmove: real,
    fullmove: int,
    moveLog: seq<Move>,
    fenLog: seq<string>,
    whiteKing: Option<Square>,
    blackKing: Option<Square>,
    checkmate: bool,
    draw: bool,
    legal: seq<Move>)

  predicate SquareOnBoard(q: Option<Square>)
  {
    q.Some? ==> OnBoard(q.value.0, q.value.1)
  }

  /** What the code relies on when it indexes the board with a move: both
      squares exist, the UCI string is complete, a promotion has a piece to
      promote, and a pawn moves as pawns do (so the square of a pawn taken en
      passant exists). */
  predicate MoveWf(m: Move)
  {
    MoveOnBoard(m) && |m.uci| >= 4 &&
    (m.promoted.Some? ==> m.pieceMoved.Some?) &&
    (IsPawn(m.pieceMoved) ==> PawnStep(m.pieceMoved.value.color, m.startRow, m.startCol, m.endRow, m.endCol))
  }

  predicate Wf(s: State)
  {
    IsGrid(s.grid) && SquareOnBoard(s.ep) && SquareOnBoard(s.whiteKing) && SquareOnBoard(s.blackKing) &&
    (forall m :: m in s.moveLog ==> MoveWf(m)) &&
    (forall m :: m in s.legal ==> MoveWf(m))
  }

  // ---------------------------------------------------------------------
  // The king cache (`get_king_locations`)

  /** The colour of the king on (r, c), if a king stands there. */
  function KingAt(g: Grid, r: int, c: int): Option<Color>
    requires IsGrid(g) && OnBoard(r, c)
  {
    if g[r][c].Some? && g[r][c].value.kind == King then Some(g[r][c].value.color) else None
  }

  /** The scan of `get_king_locations` from square (r, c) on, row by row:
      remember each king found and stop as soon as both are known; past the
      last column it goes on at the start of the next row. When the board
      lacks a king the source exits the program; here the missing king stays
      None. */
  function KingScan(g: Grid, r: nat, c: nat, wk: Option<Square>, bk: Option<Square>): (Option<Square>, Option<Square>)
    requires IsGrid(g) && r <= 8 && c <= 8
    decreases 8 - r, 8 - c
  {
    if r == 8 then (wk, bk)
    else if c == 8 then KingScan(g, r + 1, 0, wk, bk)
    else
      var k := KingAt(g, r, c);
      var wk' := if k == Some(White) then Some((r, c)) else wk;
      var bk' := if k == Some(Black) then Some((r, c)) else bk;
      if k.Some? && wk'.Some? && bk'.Some? then (wk', bk')
      else KingScan(g, r, c + 1, wk', bk')
  }

  function KingLocations(g: Grid): (kings: (Option<Square>, Option<Square>))
    requires IsGrid(g)
    ensures SquareOnBoard(kings.0) && SquareOnBoard(kings.1)
  {
    KingScanSound(g, 0, 0, None, None);
    KingScan(g, 0, 0, None, None)
  }

  /** A king of the colour stands on (r, c) or on a later square of the scan. */
  ghost predicate KingAhead(g: Grid, r: int, c: int, color: Color)
    requires IsGrid(g)
  {
    exists r', c' :: OnBoard(r', c') && (r < r' || (r == r' && c <= c')) && KingAt(g, r', c') == Some(color)
  }

  /** Past the last column, what lies ahead starts on the next row. */
  lemma KingAheadNextRow(g: Grid, r: int, color: Color)
    requires IsGrid(g)
    ensures KingAhead(g, r, 8, color) ==> KingAhead(g, r + 1, 0, color)
  {
    if KingAhead(g, r, 8, color) {
      var r', c' :| OnBoard(r', c') && (r < r' || (r == r' && 8 <= c')) && KingAt(g, r', c') == Some(color);
      assert OnBoard(r', c') && (r + 1 < r' || (r + 1 == r' && 0 <= c')) && KingAt(g, r', c') == Some(color);
    }
  }

  /** What lies ahead of (r, c) without that square lies ahead of (r, c + 1). */
  lemma KingAheadNextColumn(g: Grid, r: int, c: int, color: Color)
    requires IsGrid(g) && OnBoard(r, c) && KingAt(g, r, c) != Some(color)
    ensures KingAhead(g, r, c, color) ==> KingAhead(g, r, c + 1, color)
  {
    if KingAhead(g, r, c, color) {
      var r', c' :| OnBoard(r', c') && (r < r' || (r == r' && c <= c')) && KingAt(g, r', c') == Some(color);
      assert (r', c') != (r, c);
      assert OnBoard(r', c') && (r < r' || (r == r' && c + 1 <= c')) && KingAt(g, r', c') == Some(color);
    }
  }

  lemma {:induction false} KingScanSound(g: Grid, r: nat, c: nat, wk: Option<Square>, bk: Option<Square>)
    requires IsGrid(g) && r <= 8 && c <= 8
    requires wk.Some? ==> OnBoard(wk.value.0, wk.value.1) && KingAt(g, wk.value.0, wk.value.1) == Some(White)
    requires bk.Some? ==> OnBoard(bk.value.0, bk.value.1) && KingAt(g, bk.value.0, bk.value.1) == Some(Black)
    ensures var (w, b) := KingScan(g, r, c, wk, bk);
      (w.Some? ==> OnBoard(w.value.0, w.value.1) && KingAt(g, w.value.0, w.value.1) == Some(White)) &&
      (b.Some? ==> OnBoard(b.value.0, b.value.1) && KingAt(g, b.value.0, b.value.1) == Some(Black)) &&
      (wk.Some? || KingAhead(g, r, c, White) ==> w.Some?) &&
      (bk.Some? || KingAhead(g, r, c, Black) ==> b.Some?)
    decreases 8 - r, 8 - c
  {
    if r < 8 && c == 8 {
      KingScanSound(g, r + 1, 0, wk, bk);
      KingAheadNextRow(g, r, White);
      KingAheadNextRow(g, r, Black);
    } else if r < 8 {
      var k := KingAt(g, r, c);
      var wk' := if k == Some(White) then Some((r, c)) else wk;
      var bk' := if k == Some(Black) then Some((r, c)) else bk;
      if !(k.Some? && wk'.Some? && bk'.Some?) {
        KingScanSound(g, r, c + 1, wk', bk');
        if k != Some(White) { KingAheadNextColumn(g, r, c, White); }
        if k != Some(Black) { KingAheadNextColumn(g, r, c, Black); }
      }
    } else if r == 8 {
      assert !KingAhead(g, r, c, White) && !KingAhead(g, r, c, Black);
    }
  }

  /** `get_king_locations`: a square it reports holds the king of that colour,
      and a king of either colour on the board is found. */
  lemma KingLocationsSound(g: Grid)
    requires IsGrid(g)
    ensures var (w, b) := KingLocations(g);
      (w.Some? ==> OnBoard(w.value.0, w.value.1) && g[w.value.0][w.value.1] == Some(Piece(White, King))) &&
      (b.Some? ==> OnBoard(b.value.0, b.value.1) && g[b.value.0][b.value.1] == Some(Piece(Black, King))) &&
      ((exists r, c :: OnBoard(r, c) && g[r][c] == Some(Piece(White, King))) ==> w.Some?) &&
      ((exists r, c :: OnBoard(r, c) && g[r][c] == Some(Piece(Black, King))) ==> b.Some?)
  {
    KingScanSound(g, 0, 0, None, None);
    if exists r, c :: OnBoard(r, c) && g[r][c] == Some(Piece(White, King)) {
      var r, c :| OnBoard(r, c) && g[r][c] == Some(Piece(White, King));
      assert KingAt(g, r, c) == Some(White);
    }
    if exists r, c :: OnBoard(r, c) && g[r][c] == Some(Piece(Black, King)) {
      var r, c :| OnBoard(r, c) && g[r][c] == Some(Piece(Black, King));
      assert KingAt(g, r, c) == Some(Black);
    }
  }

  /** Kings stand on the same squares of both grids. */
  ghost predicate SameKings(g1: Grid, g2: Grid)
    requires IsGrid(g1) && IsGrid(g2)
  {
    forall r, c :: OnBoard(r, c) ==> KingAt(g1, r, c) == KingAt(g2, r, c)
  }

  lemma {:induction false} KingScanSameKings(g1: Grid, g2: Grid, r: nat, c: nat, wk: Option<Square>, bk: Option<Square>)
    requires IsGrid(g1) && IsGrid(g2) && SameKings(g1, g2) && r <= 8 && c <= 8
    ensures KingScan(g1, r, c, wk, bk) == KingScan(g2, r, c, wk, bk)
    decreases 8 - r, 8 - c
  {
    if r < 8 && c == 8 {
      KingScanSameKings(g1, g2, r + 1, 0, wk, bk);
    } else if r < 8 {
      assert KingAt(g1, r, c) == KingAt(g2, r, c);
      var k := KingAt(g1, r, c);
      var wk' := if k == Some(White) then Some((r, c)) else wk;
      var bk' := if k == Some(Black) then Some((r, c)) else bk;
      KingScanSameKings(g1, g2, r, c + 1, wk', bk');
    }
  }

  lemma KingLocationsSameKings(g1: Grid, g2: Grid)
    requires IsGrid(g1) && IsGrid(g2) && SameKings(g1, g2)
    ensures KingLocations(g1) == KingLocations(g2)
  {
    KingScanSameKings(g1, g2, 0, 0, None, None);
  }

  // ---------------------------------------------------------------------
  // The board changes of `_make_psuedo_legal_move` and `undo_move`

  /** Row offset from the destination to the pawn taken en passant. */
  function Back(color: Color): int
  {
    if color == White then 1 else -1
  }

  /** The test of board.py:354: a pawn changing column onto an empty square,
      which the code treats as an en-passant capture. */
  predicate EpShaped(m: Move)
  {
    IsPawn(m.pieceMoved) && m.startCol != m.endCol && m.pieceCaptured.None?
  }

  /** A negative column counts from the end of the row, as a Python list index does. */
  function Wrap(x: int): int
  {
    if x < 0 then x + 8 else x
  }

  /** board.py:353-359: remove the pawn taken en passant, empty the start
      square and put the moved piece on the destination. */
  function PlaceGrid(g: Grid, m: Move): (g': Grid)
    requires IsGrid(g) && MoveWf(m)
    ensures IsGrid(g')
  {
    var g0 := if EpShaped(m) then Put(g, m.endRow + Back(m.pieceMoved.value.color), m.endCol, None) else g;
    Put(Put(g0, m.startRow, m.startCol, None), m.endRow, m.endCol, m.pieceMoved)
  }

  /** board.py:362-373: replace a promoted pawn, then bring the rook of a
      castling move next to the king. On the king side the rook comes from
      col+1, and nothing moves when that column does not exist (the
      IndexError is swallowed); on the queen side it comes from col-2, read
      from the far end of the row when that index is negative. */
  function FinishGrid(g: Grid, m: Move): (g': Grid)
    requires IsGrid(g) && MoveWf(m)
    ensures IsGrid(g')
  {
    var er, ec := m.endRow, m.endCol;
    var g1 := if m.promoted.Some? then Put(g, er, ec, Some(Piece(m.pieceMoved.value.color, m.promoted.value))) else g;
    if !m.isCastling then g1
    else if ec > m.startCol then
      if OnBoard(er, ec + 1) then Put(Put(g1, er, ec - 1, g1[er][ec + 1]), er, ec + 1, None) else g1
    else if ec < m.startCol then
      Put(Put(g1, er, ec + 1, g1[er][Wrap(ec - 2)]), er, Wrap(ec - 2), None)
    else g1
  }

  /** The grid after `_make_psuedo_legal_move`. */
  function MakeGrid(g: Grid, m: Move): (g': Grid)
    requires IsGrid(g) && MoveWf(m)
    ensures IsGrid(g')
  {
    FinishGrid(PlaceGrid(g, m), m)
  }

  /** board.py:447-448: the moved piece back on its start square and the
      captured cell back on the destination. */
  function UnplaceGrid(g: Grid, m: Move): (g': Grid)
    requires IsGrid(g) && MoveWf(m)
    ensures IsGrid(g')
  {
    Put(Put(g, m.startRow, m.startCol, m.pieceMoved), m.endRow, m.endCol, m.pieceCaptured)
  }

  /** board.py:454-466 after the pieces are back: optionally put an opponent
      pawn back on the square behind the destination, then move a castling
      rook back to its corner (skipped when the king-side corner column does
      not exist; the queen-side index wraps as in FinishGrid). */
  function RestoreGrid(g: Grid, m: Move, restorePawn: bool): (g': Grid)
    requires IsGrid(g) && MoveWf(m)
    requires restorePawn ==> EpShaped(m)
    ensures IsGrid(g')
  {
    var er, ec := m.endRow, m.endCol;
    var g1 := if restorePawn then
        Put(g, er + Back(m.pieceMoved.value.color), ec, Some(Piece(Opponent(m.pieceMoved.value.color), Pawn)))
      else g;
    if !m.isCastling then g1
    else if ec > m.startCol then
      if OnBoard(er, ec + 1) then Put(Put(g1, er, ec + 1, g1[er][ec - 1]), er, ec - 1, None) else g1
    else if ec < m.startCol then
      Put(Put(g1, er, Wrap(ec - 2), g1[er][ec + 1]), er, ec + 1, None)
    else g1
  }

  /** The test guarding the pawn restore at board.py:456 as written: it is
      nested inside the test of board.py:454 for a two-row pawn move. */
  predicate RestoresPawnAsWritten(m: Move)
  {
    IsPawn(m.pieceMoved) && (m.startRow - m.endRow == 2 || m.endRow - m.startRow == 2) &&
    m.startCol != m.endCol && m.pieceCaptured.None?
  }

  /** A pawn never moves two rows and changes column, so the restore as
      written never runs. */
  lemma RestoreAsWrittenIsDead(m: Move)
    requires MoveWf(m)
    ensures !RestoresPawnAsWritten(m)
  {
  }

  /** The grid after `undo_move` as written: the pawn taken en passant is
      never put back. */
  function UnmakeGridAsWritten(g: Grid, m: Move): (g': Grid)
    requires IsGrid(g) && MoveWf(m)
    ensures IsGrid(g')
  {
    RestoreGrid(UnplaceGrid(g, m), m, RestoresPawnAsWritten(m))
  }

  /** The grid after `undo_move` with the restore guarded by the test of the
      make side (board.py:354), which is what the comment of board.py:456
      asks for. */
  function UnmakeGrid(g: Grid, m: Move): (g': Grid)
    requires IsGrid(g) && MoveWf(m)
    ensures IsGrid(g')
  {
    RestoreGrid(UnplaceGrid(g, m), m, EpShaped(m))
  }

  /** A move as the generators build it for the grid: the moved piece and the
      captured cell are the grid's; only pawns promote; an en-passant-shaped
      move has an opponent pawn behind its destination; a castling move is a
      non-pawn moving two columns along its row past an empty square, and no
      king stands in the rook's corner. */
  predicate GoodMove(g: Grid, m: Move)
    requires IsGrid(g)
  {
    MoveWf(m) && m.pieceMoved.Some? &&
    m.pieceMoved == g[m.startRow][m.startCol] && m.pieceCaptured == g[m.endRow][m.endCol] &&
    (m.promoted.Some? ==> IsPawn(m.pieceMoved)) &&
    (EpShaped(m) ==>
       g[m.endRow + Back(m.pieceMoved.value.color)][m.endCol] == Some(Piece(Opponent(m.pieceMoved.value.color), Pawn))) &&
    (m.isCastling ==> CastlingShape(g, m))
  }

  /** Every move of the list is a GoodMove for g. */
  predicate GoodMoves(g: Grid, ms: seq<Move>)
    requires IsGrid(g)
    ensures GoodMoves(g, ms) ==> forall m :: m in ms ==> MoveWf(m)
  {
    forall m :: m in ms ==> GoodMove(g, m)
  }

  predicate CastlingShape(g: Grid, m: Move)
    requires IsGrid(g) && MoveOnBoard(m)
  {
    var er, ec := m.endRow, m.endCol;
    !IsPawn(m.pieceMoved) && m.startRow == er &&
    ((ec == m.startCol + 2 && g[er][ec - 1].None? && (OnBoard(er, ec + 1) ==> KingAt(g, er, ec + 1).None?)) ||
     (ec == m.startCol - 2 && g[er][ec + 1].None? && KingAt(g, er, Wrap(ec - 2)).None?))
  }

  /** Taking back a move restores the grid it was made on. */
  lemma GridRoundTrip(g: Grid, m: Move)
    requires IsGrid(g) && GoodMove(g, m)
    ensures UnmakeGrid(MakeGrid(g, m), m) == g
  {
    var back := UnmakeGrid(MakeGrid(g, m), m);
    forall i, j | OnBoard(i, j)
      ensures back[i][j] == g[i][j]
    {
      CellRoundTrip(g, m, i, j);
    }
    GridExt(back, g);
  }

  lemma CellRoundTrip(g: Grid, m: Move, i: int, j: int)
    requires IsGrid(g) && GoodMove(g, m) && OnBoard(i, j)
    ensures UnmakeGrid(MakeGrid(g, m), m)[i][j] == g[i][j]
  {
    if !m.isCastling {
      assert UnmakeGrid(MakeGrid(g, m), m) == RestoreGrid(UnplaceGrid(FinishGrid(PlaceGrid(g, m), m), m), m, EpShaped(m));
    } else if m.endCol > m.startCol {
    } else {
    }
  }

  /** As written, taking back an en-passant capture leaves the square of the
      taken pawn empty, so the grid differs from the one the move was made on. */
  lemma EnPassantUndoLosesPawn(g: Grid, m: Move)
    requires IsGrid(g) && GoodMove(g, m) && EpShaped(m)
    ensures var r := m.endRow + Back(m.pieceMoved.value.color);
      UnmakeGridAsWritten(MakeGrid(g, m), m)[r][m.endCol].None? &&
      g[r][m.endCol].Some? &&
      UnmakeGridAsWritten(MakeGrid(g, m), m) != g
  {
    var r := m.endRow + Back(m.pieceMoved.value.color);
    assert UnmakeGridAsWritten(MakeGrid(g, m), m)[r][m.endCol].None?;
  }

  // ---------------------------------------------------------------------
  // Making and taking back a move on the whole state

  /** `_make_psuedo_legal_move`: log the move, pass the turn, count the full
      move after Black's turn, change the grid, recompute the king cache from
      the grid before the promotion and the rook move, and update the
      castling rights (one more log entry). The en-passant square, the clock
      and the game-end flags are left alone. */
  function Make(s: State, m: Move): (t: State)
    requires Wf(s) && MoveWf(m)
    ensures Wf(t) && t.moveLog == s.moveLog + [m] && t.moveLog[..|s.moveLog|] == s.moveLog
  {
    var placed := PlaceGrid(s.grid, m);
    var kings := KingLocations(placed);
    var rights := UpdatedRights(s.rights, m);
    s.(moveLog := s.moveLog + [m],
       white := !s.white,
       fullmove := s.fullmove + (if !s.white then 1 else 0),
       grid := FinishGrid(placed, m),
       whiteKing := kings.0, blackKing := kings.1,
       rights := rights, rightsLog := s.rightsLog + [rights])
  }

  /** The first step of Make (board.py:347-351): log the move, pass the
      turn and count the full move. */
  function Pushed(s: State, m: Move): (t: State)
    requires Wf(s) && MoveWf(m)
    ensures Wf(t)
  {
    s.(moveLog := s.moveLog + [m],
       white := !s.white,
       fullmove := s.fullmove + (if !s.white then 1 else 0))
  }

  /** The second step of Make (board.py:353-358): place the pieces and
      re-read the king cache. */
  function Placed(s: State, m: Move): (t: State)
    requires Wf(s) && MoveWf(m)
    ensures Wf(t)
  {
    var placed := PlaceGrid(s.grid, m);
    var kings := KingLocations(placed);
    s.(grid := placed, whiteKing := kings.0, blackKing := kings.1)
  }

  /** The last step of Make (board.py:360-373): promote, update the
      castling rights and bring a castling rook over. */
  function Finished(s: State, m: Move): (t: State)
    requires Wf(s) && MoveWf(m)
    ensures Wf(t)
  {
    var rights := UpdatedRights(s.rights, m);
    s.(grid := FinishGrid(s.grid, m), rights := rights, rightsLog := s.rightsLog + [rights])
  }

  lemma MakeInStages(s: State, m: Move)
    requires Wf(s) && MoveWf(m)
    ensures Make(s, m) == Finished(Placed(Pushed(s, m), m), m)
  {
  }

  /** board.py:454-459: after taking back a two-row pawn move the en-passant
      square is that move's destination; after any other move it is None. */
  function UndoEp(m: Move): (ep: Option<Square>)
    requires MoveOnBoard(m)
    ensures SquareOnBoard(ep)
  {
    if IsPawn(m.pieceMoved) && (m.startRow - m.endRow == 2 || m.endRow - m.startRow == 2)
    then Some((m.endRow, m.endCol)) else None
  }

  /** `undo_move(in_engine=True)`: with an empty log nothing happens;
      otherwise pop the last move, give back the full move, put the pieces
      back, pass the turn back, clear the game-end flags, recompute the king
      cache (before the pawn restore and the rook move), roll back the
      castling rights, set the en-passant square per UndoEp, and restore the
      grid. The clock is not touched. */
  function Revert(s: State): (t: State)
    requires Wf(s)
    ensures Wf(t) && t.moveLog == if s.moveLog == [] then [] else s.moveLog[..|s.moveLog| - 1]
    ensures t.fenLog == s.fenLog && t.halfmove == s.halfmove
    ensures s.moveLog != [] ==> t.white == !s.white && t.fullmove == s.fullmove - (if s.white then 1 else 0)
    ensures s.moveLog == [] ==> t == s
  {
    if s.moveLog == [] then s
    else
      var m := s.moveLog[|s.moveLog| - 1];
      var unplaced := UnplaceGrid(s.grid, m);
      var kings := KingLocations(unplaced);
      var (rights, log) := UndoneRights(s.rights, s.rightsLog);
      s.(moveLog := s.moveLog[..|s.moveLog| - 1],
         fullmove := s.fullmove - (if s.white then 1 else 0),
         white := !s.white,
         checkmate := false, draw := false,
         whiteKing := kings.0, blackKing := kings.1,
         rights := rights, rightsLog := log,
         ep := UndoEp(m),
         grid := RestoreGrid(unplaced, m, EpShaped(m)))
  }

  /** The first steps of `undo_move` (board.py:444-451) for the last move m
      of the log: pop it, give back the full move, step the clock back when
      `clock` holds and it is not zero, put the pieces back, pass the turn
      back and clear the game-end flags. */
  function Unplaced(s: State, m: Move, clock: bool): (t: State)
    requires Wf(s) && MoveWf(m) && s.moveLog != []
    ensures Wf(t)
  {
    s.(moveLog := s.moveLog[..|s.moveLog| - 1],
       fullmove := s.fullmove - (if s.white then 1 else 0),
       halfmove := if clock && s.halfmove != 0.0 then s.halfmove - 0.5 else s.halfmove,
       grid := UnplaceGrid(s.grid, m),
       white := !s.white,
       checkmate := false, draw := false)
  }

  /** board.py:444-446: the log, full-move and clock part of Unplaced. */
  function Unlogged(s: State, clock: bool): (t: State)
    requires Wf(s) && s.moveLog != []
    ensures Wf(t)
  {
    s.(moveLog := s.moveLog[..|s.moveLog| - 1],
       fullmove := s.fullmove - (if s.white then 1 else 0),
       halfmove := if clock && s.halfmove != 0.0 then s.halfmove - 0.5 else s.halfmove)
  }

  /** board.py:447-451: the board, turn and flag part of Unplaced. */
  function Unmoved(s: State, m: Move): (t: State)
    requires Wf(s) && MoveWf(m)
    ensures Wf(t)
  {
    s.(grid := UnplaceGrid(s.grid, m), white := !s.white, checkmate := false, draw := false)
  }

  lemma UnplacedInStages(s: State, m: Move, clock: bool)
    requires Wf(s) && MoveWf(m) && s.moveLog != []
    ensures Unplaced(s, m, clock) == Unmoved(Unlogged(s, clock), m)
  {
  }

  /** The next steps of `undo_move` (board.py:452-466): re-read the king
      cache, roll back the castling rights, set the en-passant square and
      restore the captured pawn and the castling rook. */
  function Restored(s: State, m: Move): (t: State)
    requires Wf(s) && MoveWf(m)
    ensures Wf(t)
  {
    var kings := KingLocations(s.grid);
    var (rights, log) := UndoneRights(s.rights, s.rightsLog);
    s.(whiteKing := kings.0, blackKing := kings.1,
       rights := rights, rightsLog := log,
       ep := UndoEp(m),
       grid := RestoreGrid(s.grid, m, EpShaped(m)))
  }

  lemma RevertInStages(s: State)
    requires Wf(s) && s.moveLog != []
    ensures var m := s.moveLog[|s.moveLog| - 1];
      MoveWf(m) && Revert(s) == Restored(Unplaced(s, m, false), m)
  {
    var m := s.moveLog[|s.moveLog| - 1];
    assert m in s.moveLog;
  }

  /** The castling log ends with the current rights and the king cache
      matches the grid: what the constructor's state has before its legal
      moves are generated (see Game.InitialPosition), and what LegalMovesSpec
      assumes of the state it starts from. */
  predicate Consistent(s: State)
  {
    Wf(s) && |s.rightsLog| >= 1 && s.rightsLog[|s.rightsLog| - 1] == s.rights &&
    (s.whiteKing, s.blackKing) == KingLocations(s.grid)
  }

  lemma UnplacedSameKings(g: Grid, m: Move)
    requires IsGrid(g) && GoodMove(g, m)
    ensures SameKings(UnplaceGrid(MakeGrid(g, m), m), g)
  {
    var u := UnplaceGrid(MakeGrid(g, m), m);
    forall r, c | OnBoard(r, c)
      ensures KingAt(u, r, c) == KingAt(g, r, c)
    {
      CellRoundTrip(g, m, r, c);
    }
  }

  /** Making a move and taking it back restores the state, except that the
      en-passant square becomes the one UndoEp derives from the move and the
      game-end flags are cleared. */
  lemma RevertMake(s: State, m: Move)
    requires Consistent(s) && GoodMove(s.grid, m)
    ensures Revert(Make(s, m)) == s.(ep := UndoEp(m), checkmate := false, draw := false)
  {
    var t := Make(s, m);
    assert t.moveLog[|t.moveLog| - 1] == m;
    assert t.moveLog[..|t.moveLog| - 1] == s.moveLog;
    RevertInStages(t);
    GridRoundTrip(s.grid, m);
    UnplacedSameKings(s.grid, m);
    KingLocationsSameKings(UnplaceGrid(t.grid, m), s.grid);
    UndoAfterUpdate(s.rights, s.rightsLog, m);
  }

  // ---------------------------------------------------------------------
  // Check (`in_check`, `square_under_attack`)

  /** The cached square of the king of the side to move. */
  function ActiveKing(s: State): (k: Option<Square>)
    requires Wf(s)
    ensures SquareOnBoard(k)
  {
    if s.white then s.whiteKing else s.blackKing
  }

  /** `in_check`: the cached square of the side to move's king is attacked.
      With no king cached (the source has exited by then) it is false. */
  predicate InCheck(s: State)
    requires Wf(s)
  {
    var k := ActiveKing(s);
    k.Some? && Attacked(s.grid, s.white, s.ep, k.value.0, k.value.1)
  }

  /** Both cached king squares hold a piece of the king's colour. */
  predicate KingsHeld(s: State)
    requires Wf(s)
  {
    (s.whiteKing.Some? ==> HasColor(s.grid[s.whiteKing.value.0][s.whiteKing.value.1], White)) &&
    (s.blackKing.Some? ==> HasColor(s.grid[s.blackKing.value.0][s.blackKing.value.1], Black))
  }

  /** Whether the king is in check does not depend on the en-passant square,
      as long as the cached squares hold the kings' pieces: two states with
      the same grid, turn and cached kings agree on it. */
  lemma InCheckIgnoresEp(s: State, t: State)
    requires Wf(s) && Wf(t) && KingsHeld(s)
    requires t.grid == s.grid && t.white == s.white
    requires t.whiteKing == s.whiteKing && t.blackKing == s.blackKing
    ensures InCheck(t) == InCheck(s)
  {
    var k := ActiveKing(s);
    if k.Some? {
      AttackedIgnoresEp(s.grid, s.white, s.ep, t.ep, k.value.0, k.value.1);
    }
  }

  lemma FinishKeepsKing(g: Grid, m: Move, r: int, c: int)
    requires IsGrid(g) && GoodMove(g, m) && OnBoard(r, c) && KingAt(PlaceGrid(g, m), r, c).Some?
    ensures MakeGrid(g, m)[r][c] == PlaceGrid(g, m)[r][c]
  {
  }

  /** After a move as the generators build it, both cached king squares hold
      a piece of the right colour, although the cache is computed before the
      promotion and the rook move. */
  lemma MakeKingsHeld(s: State, m: Move)
    requires Wf(s) && GoodMove(s.grid, m)
    ensures KingsHeld(Make(s, m))
  {
    var placed := PlaceGrid(s.grid, m);
    KingLocationsSound(placed);
    var (w, b) := KingLocations(placed);
    if w.Some? {
      FinishKeepsKing(s.grid, m, w.value.0, w.value.1);
    }
    if b.Some? {
      FinishKeepsKing(s.grid, m, b.value.0, b.value.1);
    }
  }

  // ---------------------------------------------------------------------
  // The legal-move filter (`get_legal_moves`)

  function Flip(s: State): State
  {
    s.(white := !s.white)
  }

  /** The test of board.py:570-572: after the move, with the turn handed back,
      the mover's own king is attacked. */
  predicate Exposes(s: State, m: Move)
    requires Wf(s) && MoveWf(m)
  {
    InCheck(Flip(Make(s, m)))
  }

  /** The test of board.py:558-559: after the move the opponent's king is
      attacked. */
  predicate GivesCheck(s: State, m: Move)
    requires Wf(s) && MoveWf(m)
  {
    InCheck(Make(s, m))
  }

  /** t differs from s at most in the en-passant square and the game-end flags. */
  predicate Similar(t: State, s: State)
  {
    t == s.(ep := t.ep, checkmate := t.checkmate, draw := t.draw)
  }

  /** Make does not read the en-passant square or the game-end flags. */
  lemma MakeSimilar(s: State, t: State, m: Move)
    requires Wf(s) && Wf(t) && Similar(t, s) && MoveWf(m)
    ensures Make(t, m) == Make(s, m).(ep := t.ep, checkmate := t.checkmate, draw := t.draw)
  {
  }

  lemma ExposesAndChecksIgnoreEp(s: State, t: State, m: Move)
    requires Wf(s) && Wf(t) && Similar(t, s) && GoodMove(s.grid, m)
    ensures Exposes(t, m) == Exposes(s, m) && GivesCheck(t, m) == GivesCheck(s, m)
  {
    var u, v := Make(s, m), Make(t, m);
    MakeSimilar(s, t, m);
    MakeKingsHeld(s, m);
    InCheckIgnoresEp(u, v);
    InCheckIgnoresEp(Flip(u), Flip(v));
  }

  /** The castling moves of `get_castling_moves` for the cached king square of
      the side to move (none without a cached king, or when a pawn stands on
      the cached square). */
  function CastlingCandidates(s: State): (ms: seq<Move>)
    requires Wf(s)
  {
    var k := ActiveKing(s);
    if k.None? || IsPawn(s.grid[k.value.0][k.value.1]) then []
    else Build(s.grid, CastlingPlans(s.grid, s.white, s.ep, s.rights, k.value.0, k.value.1))
  }

  /** board.py:564-567: the pseudo-legal moves followed by the castling moves. */
  function Candidates(s: State): (ms: seq<Move>)
    requires Wf(s)
    ensures forall m :: m in ms ==> MoveWf(m)
  {
    PseudoWf(s.grid, s.white, s.ep);
    CastlingWf(s);
    PseudoLegal(s.grid, s.white, s.ep) + CastlingCandidates(s)
  }

  lemma PseudoWf(g: Grid, white: bool, ep: Option<Square>)
    requires IsGrid(g)
    ensures forall m :: m in PseudoLegal(g, white, ep) ==> MoveWf(m)
  {
    PseudoLegalGenerated(g, white, ep);
  }

  lemma CastlingWf(s: State)
    requires Wf(s)
    ensures forall m :: m in CastlingCandidates(s) ==> MoveWf(m)
  {
    var k := ActiveKing(s);
    if k.Some? && !IsPawn(s.grid[k.value.0][k.value.1]) {
      var ps := CastlingPlans(s.grid, s.white, s.ep, s.rights, k.value.0, k.value.1);
      CastlingConditions(s.grid, s.white, s.ep, s.rights, k.value.0, k.value.1);
      forall m | m in CastlingCandidates(s)
        ensures MoveWf(m)
      {
        InBuild(s.grid, ps, m);
      }
    }
  }

  /** An empty en-passant square has an opponent pawn behind it, seen from
      the side to move: the square a pawn just skipped over. */
  predicate EpSound(s: State)
    requires Wf(s)
  {
    s.ep.Some? && s.grid[s.ep.value.0][s.ep.value.1].None? ==>
      var r := s.ep.value.0 + Back(SideColor(s.white));
      0 <= r < 8 && s.grid[r][s.ep.value.1] == Some(Piece(Opponent(SideColor(s.white)), Pawn))
  }

  /** No king stands on the squares the rook of a castling move from the
      cached king square is taken from (col + 3, and col - 4 read as a
      Python index). */
  predicate CornersFree(s: State)
    requires Wf(s)
  {
    var k := ActiveKing(s);
    k.Some? ==>
      var (row, col) := k.value;
      (OnBoard(row, col + 3) ==> KingAt(s.grid, row, col + 3).None?) &&
      (0 <= Wrap(col - 4) < 8 ==> KingAt(s.grid, row, Wrap(col - 4)).None?)
  }

  lemma PseudoGood(s: State)
    requires Wf(s) && EpSound(s)
    ensures GoodMoves(s.grid, PseudoLegal(s.grid, s.white, s.ep))
  {
    PseudoLegalGenerated(s.grid, s.white, s.ep);
    PseudoWf(s.grid, s.white, s.ep);
  }

  lemma CastlingGood(s: State)
    requires Consistent(s) && CornersFree(s)
    ensures GoodMoves(s.grid, CastlingCandidates(s))
  {
    var k := ActiveKing(s);
    if k.Some? && !IsPawn(s.grid[k.value.0][k.value.1]) {
      var (row, col) := k.value;
      var ps := CastlingPlans(s.grid, s.white, s.ep, s.rights, row, col);
      CastlingConditions(s.grid, s.white, s.ep, s.rights, row, col);
      CastlingWf(s);
      KingLocationsSound(s.grid);
      forall m | m in CastlingCandidates(s)
        ensures GoodMove(s.grid, m)
      {
        InBuild(s.grid, ps, m);
        var p :| p in ps && m == MoveOf(s.grid, p);
        if p.ec == col + 2 {
          assert Plan(row, col, row, col + 2, None, true) in ps;
        } else {
          assert Plan(row, col, row, col - 2, None, true) in ps;
        }
      }
    }
  }

  /** In a consistent state whose en-passant square is sound and whose rook
      corners hold no king, every candidate is a move as the generators build
      it, so LegalMovesSpec applies. */
  lemma CandidatesGood(s: State)
    requires Consistent(s) && EpSound(s) && CornersFree(s)
    ensures GoodMoves(s.grid, Candidates(s))
  {
    PseudoGood(s);
    CastlingGood(s);
  }

  /** What making and taking back moves leaves alone whatever the moves: the
      logs, the clocks and the turn; the game-end flags
      can only be cleared. */
  predicate Bookkept(t: State, s: State)
  {
    t.moveLog == s.moveLog && t.fenLog == s.fenLog && t.halfmove == s.halfmove &&
    t.fullmove == s.fullmove && t.white == s.white &&
    (t.checkmate ==> s.checkmate) && (t.draw ==> s.draw)
  }

  lemma RevertMakeBookkept(s: State, m: Move)
    requires Wf(s) && MoveWf(m)
    ensures Bookkept(Revert(Make(s, m)), s)
  {
  }

  /** board.py:569-575. The list being filtered is always `pending + kept`:
      the moves still to examine, then those already examined and kept. The
      last pending move is made, the turn handed back, the move dropped
      (`pop`) if the king is now attacked, the turn handed on and the move
      taken back. The state threads through, since taking a move back resets
      the en-passant square. */
  function FilterFrom(s: State, pending: seq<Move>, kept: seq<Move>): (r: (State, seq<Move>))
    requires Wf(s) && forall m :: m in pending ==> MoveWf(m)
    ensures Wf(r.0) && Bookkept(r.0, s) && forall m :: m in r.1 ==> m in pending || m in kept
    decreases |pending|
  {
    if pending == [] then (s, kept)
    else
      var m := pending[|pending| - 1];
      var t := Make(s, m);
      var kept' := if InCheck(Flip(t)) then kept else [m] + kept;
      RevertMakeBookkept(s, m);
      var init := pending[..|pending| - 1];
      assert forall x :: x in init ==> x in pending;
      FilterFrom(Revert(t), init, kept')
  }

  /** The moves of ms that do not expose their own king, in their order. */
  function KeepSafe(s: State, ms: seq<Move>): (kept: seq<Move>)
    requires Wf(s) && forall m :: m in ms ==> MoveWf(m)
    ensures |kept| <= |ms| && forall m :: m in kept ==> m in ms
  {
    if ms == [] then []
    else
      var last := ms[|ms| - 1];
      KeepSafe(s, ms[..|ms| - 1]) + (if Exposes(s, last) then [] else [last])
  }

  lemma {:induction false} KeepSafeMembers(s: State, ms: seq<Move>)
    requires Wf(s) && forall m :: m in ms ==> MoveWf(m)
    ensures forall m :: m in KeepSafe(s, ms) <==> m in ms && !Exposes(s, m)
  {
    if ms != [] {
      var init := ms[..|ms| - 1];
      assert ms == init + [ms[|ms| - 1]];
      KeepSafeMembers(s, init);
    }
  }

  /** `update_is_check` (board.py:547-561): for each move in turn, make it,
      record whether it gives check (which also rewrites its SAN), take it
      back; `done` holds the moves already visited. */
  function UpdateChecksFrom(s: State, done: seq<Move>, todo: seq<Move>): (r: (State, seq<Move>))
    requires Wf(s) && (forall m :: m in done ==> MoveWf(m)) && forall m :: m in todo ==> MoveWf(m)
    ensures Wf(r.0) && Bookkept(r.0, s) && |r.1| == |done| + |todo| && forall m :: m in r.1 ==> MoveWf(m)
    decreases |todo|
  {
    if todo == [] then (s, done)
    else
      var t := Make(s, todo[0]);
      var done' := done + [WithCheck(todo[0], InCheck(t))];
      assert forall m :: m in done' ==> MoveWf(m);
      RevertMakeBookkept(s, todo[0]);
      UpdateChecksFrom(Revert(t), done', todo[1..])
  }

  /** Each move with its check flag (and SAN) filled in, in order. */
  function Annotate(s: State, ms: seq<Move>): (r: seq<Move>)
    requires Wf(s) && forall m :: m in ms ==> MoveWf(m)
    ensures |r| == |ms|
    decreases |ms|
  {
    if ms == [] then [] else [WithCheck(ms[0], GivesCheck(s, ms[0]))] + Annotate(s, ms[1..])
  }

  /** The j-th annotated move is the j-th move with its check flag set to
      whether it gives check. */
  lemma {:induction false} AnnotateAt(s: State, ms: seq<Move>, j: int)
    requires Wf(s) && (forall m :: m in ms ==> MoveWf(m)) && 0 <= j < |ms|
    ensures Annotate(s, ms)[j] == WithCheck(ms[j], GivesCheck(s, ms[j]))
    decreases |ms|
  {
    AnnotateCons(s, ms);
    if j > 0 {
      AnnotateAt(s, ms[1..], j - 1);
      assert ms[1..][j - 1] == ms[j];
    }
  }

  lemma AnnotateCons(s: State, ms: seq<Move>)
    requires Wf(s) && (forall m :: m in ms ==> MoveWf(m)) && ms != []
    ensures forall m :: m in ms[1..] ==> MoveWf(m)
    ensures Annotate(s, ms) == [WithCheck(ms[0], GivesCheck(s, ms[0]))] + Annotate(s, ms[1..])
  {
    assert forall m :: m in ms[1..] ==> m in ms;
  }

  /** `get_legal_moves`: the candidates, filtered, then annotated; also the
      state it leaves behind (only the en-passant square can differ). */
  function LegalMoves(s: State): (r: (State, seq<Move>))
    requires Wf(s)
    ensures Wf(r.0) && Bookkept(r.0, s) && forall m :: m in r.1 ==> MoveWf(m)
  {
    var ms := Candidates(s);
    var (s1, kept) := FilterFrom(s, ms, []);
    UpdateChecksFrom(s1, [], kept)
  }

  lemma SimilarConsistent(s: State, t: State)
    requires Consistent(s) && Wf(t) && Similar(t, s)
    ensures Consistent(t)
  {
  }

  /** Making and taking back a move keeps a state similar to s. */
  lemma RevertMakeSimilar(s: State, t: State, m: Move)
    requires Consistent(s) && Wf(t) && Similar(t, s) && GoodMove(s.grid, m)
    ensures Similar(Revert(Make(t, m)), s)
  {
    SimilarConsistent(s, t);
    RevertMake(t, m);
  }

  /** One step of FilterFrom, with the test named. */
  lemma FilterFromStep(t: State, pending: seq<Move>, kept: seq<Move>)
    requires Wf(t) && pending != [] && forall m :: m in pending ==> MoveWf(m)
    ensures var m := pending[|pending| - 1];
      FilterFrom(t, pending, kept) ==
      FilterFrom(Revert(Make(t, m)), pending[..|pending| - 1], if Exposes(t, m) then kept else [m] + kept)
  {
  }

  /** One step of KeepSafe, with the kept suffix appended. */
  lemma KeepSafeStep(s: State, pending: seq<Move>, kept: seq<Move>)
    requires Wf(s) && pending != [] && forall m :: m in pending ==> MoveWf(m)
    ensures var m := pending[|pending| - 1];
      KeepSafe(s, pending) + kept ==
      KeepSafe(s, pending[..|pending| - 1]) + (if Exposes(s, m) then kept else [m] + kept)
  {
    var m, init := pending[|pending| - 1], pending[..|pending| - 1];
    var e := Exposes(s, m);
    assert KeepSafe(s, pending) == KeepSafe(s, init) + (if e then [] else [m]);
    AppendStep(KeepSafe(s, init), m, e, kept);
  }

  lemma AppendStep(k: seq<Move>, m: Move, drop: bool, kept: seq<Move>)
    ensures (k + (if drop then [] else [m])) + kept == k + (if drop then kept else [m] + kept)
  {
    if !drop {
      assert (k + [m]) + kept == k + ([m] + kept);
    }
  }

  /** Filtering from a state similar to s keeps the pending moves that do not
      expose their king in s, ahead of those already kept. */
  lemma {:induction false} FilterSpec(s: State, t: State, pending: seq<Move>, kept: seq<Move>)
    requires Consistent(s) && Wf(t) && Similar(t, s)
    requires GoodMoves(s.grid, pending)
    ensures var r := FilterFrom(t, pending, kept);
      r.1 == KeepSafe(s, pending) + kept && Similar(r.0, s)
    decreases |pending|
  {
    if pending != [] {
      var m, init := pending[|pending| - 1], pending[..|pending| - 1];
      var kept' := if Exposes(s, m) then kept else [m] + kept;
      var t' := Revert(Make(t, m));
      assert FilterFrom(t, pending, kept) == FilterFrom(t', init, kept') by {
        FilterFromStep(t, pending, kept);
        ExposesAndChecksIgnoreEp(s, t, m);
      }
      assert KeepSafe(s, pending) + kept == KeepSafe(s, init) + kept' by {
        KeepSafeStep(s, pending, kept);
      }
      assert Similar(t', s) && Wf(t') by {
        RevertMakeSimilar(s, t, m);
      }
      FilterSpec(s, t', init, kept');
    }
  }

  /** One step of UpdateChecksFrom, with the test named. */
  lemma UpdateStep(t: State, done: seq<Move>, todo: seq<Move>)
    requires Wf(t) && todo != []
    requires (forall m :: m in done ==> MoveWf(m)) && forall m :: m in todo ==> MoveWf(m)
    ensures forall m :: m in done + [WithCheck(todo[0], GivesCheck(t, todo[0]))] ==> MoveWf(m)
    ensures UpdateChecksFrom(t, done, todo) ==
      UpdateChecksFrom(Revert(Make(t, todo[0])), done + [WithCheck(todo[0], GivesCheck(t, todo[0]))], todo[1..])
  {
    var a := WithCheck(todo[0], GivesCheck(t, todo[0]));
    assert MoveWf(a) by {
      assert MoveWf(todo[0]);
    }
    assert forall m :: m in done + [a] ==> m in done || m == a;
  }

  lemma AnnotateStep(s: State, done: seq<Move>, ms: seq<Move>)
    requires Wf(s) && ms != [] && forall m :: m in ms ==> MoveWf(m)
    ensures done + Annotate(s, ms) == (done + [WithCheck(ms[0], GivesCheck(s, ms[0]))]) + Annotate(s, ms[1..])
  {
    var a := WithCheck(ms[0], GivesCheck(s, ms[0]));
    assert Annotate(s, ms) == [a] + Annotate(s, ms[1..]);
    assert done + ([a] + Annotate(s, ms[1..])) == (done + [a]) + Annotate(s, ms[1..]);
  }

  /** Annotating from a state similar to s records, for each move still to
      visit, whether it gives check in s. */
  lemma {:induction false} UpdateSpec(s: State, t: State, done: seq<Move>, todo: seq<Move>)
    requires Consistent(s) && Wf(t) && Similar(t, s)
    requires (forall m :: m in done ==> MoveWf(m)) && GoodMoves(s.grid, todo)
    ensures var r := UpdateChecksFrom(t, done, todo);
      r.1 == done + Annotate(s, todo) && Similar(r.0, s)
    decreases |todo|
  {
    if todo != [] {
      var m := todo[0];
      var a := WithCheck(m, GivesCheck(s, m));
      var t' := Revert(Make(t, m));
      assert GoodMove(s.grid, m);
      assert GivesCheck(t, m) == GivesCheck(s, m) by {
        ExposesAndChecksIgnoreEp(s, t, m);
      }
      assert (forall x :: x in done + [a] ==> MoveWf(x)) &&
        UpdateChecksFrom(t, done, todo) == UpdateChecksFrom(t', done + [a], todo[1..]) by {
        UpdateStep(t, done, todo);
      }
      assert done + Annotate(s, todo) == (done + [a]) + Annotate(s, todo[1..]) by {
        AnnotateStep(s, done, todo);
      }
      RevertMakeSimilar(s, t, m);
      UpdateSpec(s, t', done + [a], todo[1..]);
    }
  }

  /** `get_legal_moves` keeps exactly the candidates that do not leave the
      mover's king attacked, in their order, each with its check flag set to
      whether it attacks the opponent's king; the state it leaves differs from
      the one it started with at most in the en-passant square and the
      game-end flags. */
  lemma LegalMovesSpec(s: State)
    requires Consistent(s) && GoodMoves(s.grid, Candidates(s))
    ensures LegalMoves(s).1 == Annotate(s, KeepSafe(s, Candidates(s)))
    ensures Similar(LegalMoves(s).0, s)
  {
    var ms := Candidates(s);
    FilterSpec(s, s, ms, []);
    var (s1, kept) := FilterFrom(s, ms, []);
    assert kept == KeepSafe(s, ms);
    KeepSafeMembers(s, ms);
    UpdateSpec(s, s1, [], kept);
  }
}
