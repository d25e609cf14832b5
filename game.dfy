// The public face of the Board class in src/modules/board.py on the State
// value: the constructor, `make_legal_move` with its FEN log and end-of-game
// tests, and `undo_move` as the user calls it.
module Game {
  import opened Base
  import opened Pieces
  import opened Moves
  import opened Castling
  import opened Strings
  import opened Fen
  import opened Rules
  import opened Position

  /** Why a FEN string does not give a board: the fields themselves are bad,
      the placement is not 8 by 8, the en-passant square is off the board, or
      a king is missing (the source exits there). */
  datatype GameError = BadFen(error: FenError) | BadBoard | BadEnPassantSquare | MissingKing

  // ---------------------------------------------------------------------
  // FEN of the state and the repetition log

  /** The six fields `board_to_fen` writes for the state; the clock is printed
      as `halfmove_clock // 1`. */
  function BoardFields(s: State): seq<string>
    requires Wf(s)
  {
    FenFields(s.grid, s.white, s.rights, s.ep, s.halfmove.Floor, s.fullmove)
  }

  /** `board_to_fen` */
  function BoardFen(s: State): string
    requires Wf(s)
  {
    Join(BoardFields(s), ' ')
  }

  /** The position part of the FEN: placement, side to move, castling rights
      and en-passant square, without the two clocks. */
  function PositionKey(s: State): string
    requires Wf(s)
  {
    Join(BoardFields(s)[..4], ' ')
  }

  /** `remove_extra_details` (board.py:400-413): with six or more fields keep
      the first four. */
  function RemoveExtraDetails(fen: string): string
  {
    var parts := Tokens(fen);
    Join(if |parts| >= 6 then parts[..4] else parts, ' ')
  }

  /** `s.rfind(ch, 0, end)`: the last index below `end` holding `ch`, or -1. */
  function RFind(s: string, ch: char, end: int): (i: int)
    requires 0 <= end <= |s|
    ensures -1 <= i < end && (i >= 0 ==> s[i] == ch)
    ensures forall j :: i < j < end ==> s[j] != ch
    decreases end
  {
    if end == 0 then -1 else if s[end - 1] == ch then end - 1 else RFind(s, ch, end - 1)
  }

  /** board.py:102: the FEN up to its second-to-last space, with Python's
      slicing of a -1 index. */
  function TrimClocks(fen: string): string
  {
    var j := RFind(fen, ' ', |fen|);
    var end := if j < 0 then |fen| - 1 else j;
    var k := if end <= 0 then -1 else RFind(fen, ' ', end);
    if k >= 0 then fen[..k] else if fen == [] then [] else fen[..|fen| - 1]
  }

  /** `list.count(x)` */
  function Count(xs: seq<string>, x: string): (n: nat)
    ensures n <= |xs| && (n > 0 <==> x in xs)
  {
    if xs == [] then 0
    else Count(xs[..|xs| - 1], x) + (if xs[|xs| - 1] == x then 1 else 0)
  }

  /** board.py:433: some entry of the log occurs at least three times. */
  predicate Threefold(log: seq<string>)
  {
    exists x :: x in log && Count(log, x) >= 3
  }

  /** The fields of the state's FEN are non-empty and free of whitespace,
      given castling rights without whitespace. */
  lemma FieldsClean(s: State)
    requires Wf(s) && NoSpace(s.rights)
    ensures var f := BoardFields(s);
      |f| == 6 && forall k :: 0 <= k < 6 ==> |f[k]| >= 1 && NoSpace(f[k])
  {
    PlacementRoundTrip(s.grid);
  }

  lemma {:induction false} JoinAppend(a: seq<string>, b: seq<string>, sep: char)
    requires |a| >= 1 && |b| >= 1
    ensures Join(a + b, sep) == Join(a, sep) + [sep] + Join(b, sep)
    decreases |a|
  {
    if |a| == 1 {
      assert (a + b)[1..] == b;
    } else {
      assert (a + b)[1..] == a[1..] + b;
      JoinAppend(a[1..], b, sep);
    }
  }

  /** `remove_extra_details` applied to the board's FEN gives its position key. */
  lemma RemoveExtraDetailsKey(s: State)
    requires Wf(s) && NoSpace(s.rights)
    ensures RemoveExtraDetails(BoardFen(s)) == PositionKey(s)
  {
    FieldsClean(s);
    TokensJoin(BoardFields(s));
  }

  /** The first RFind of a string whose tail after position p holds no `ch`. */
  lemma RFindLast(s: string, ch: char, p: int, end: int)
    requires 0 <= p < end <= |s| && s[p] == ch
    requires forall j :: p < j < end ==> s[j] != ch
    ensures RFind(s, ch, end) == p
  {
  }

  /** The constructor's cut of the board's FEN before its second-to-last space
      is the position key, the same string `remove_extra_details` gives. */
  lemma TrimClocksKey(s: State)
    requires Wf(s) && NoSpace(s.rights)
    ensures TrimClocks(BoardFen(s)) == PositionKey(s)
  {
    var f := BoardFields(s);
    FieldsClean(s);
    var key := PositionKey(s);
    var fen := BoardFen(s);
    assert f == f[..4] + [f[4], f[5]];
    JoinAppend(f[..4], [f[4], f[5]], ' ');
    JoinAppend([f[4]], [f[5]], ' ');
    assert fen == key + [' '] + f[4] + [' '] + f[5];
    var p := |key| + 1 + |f[4]|;
    forall j | p < j < |fen|
      ensures fen[j] != ' '
    {
      assert fen[j] == f[5][j - p - 1];
    }
    RFindLast(fen, ' ', p, |fen|);
    forall j | |key| < j < p
      ensures fen[j] != ' '
    {
      assert fen[j] == f[4][j - |key| - 1];
    }
    RFindLast(fen, ' ', |key|, p);
    assert fen[..|key|] == key;
  }

  /** A third occurrence of an entry makes the log a threefold repetition. */
  lemma ThirdOccurrence(log: seq<string>, x: string)
    requires Count(log, x) == 2
    ensures Threefold(log + [x])
  {
    assert (log + [x])[..|log|] == log;
    assert Count(log + [x], x) == 3;
  }

  // ---------------------------------------------------------------------
  // The pieces of `make_legal_move`

  /** The test of board.py:391-394: an opponent pawn stands on (row, col) of
      the grid, compared through the two-character codes. */
  predicate PawnBeside(g: Grid, mover: Cell, row: int, col: int)
    requires IsGrid(g)
  {
    0 <= row < 8 && 0 <= col < 8 &&
    PieceCode(g[row][col])[0] != PieceCode(mover)[0] && PieceCode(g[row][col])[1] == 'p'
  }

  /** `update_en_passant_square` (board.py:384-398), on the grid after the
      move: a two-row pawn move next to an opponent pawn makes the square
      behind the destination (in the start column) the en-passant square;
      anything else clears it. */
  function EpAfter(g: Grid, m: Move): (ep: Option<Square>)
    requires IsGrid(g) && MoveWf(m)
    ensures SquareOnBoard(ep)
  {
    if IsPawn(m.pieceMoved) && (m.startRow - m.endRow == 2 || m.endRow - m.startRow == 2) &&
       (PawnBeside(g, m.pieceMoved, m.endRow, m.endCol + 1) || PawnBeside(g, m.pieceMoved, m.endRow, m.endCol - 1))
    then Some((m.endRow + Back(m.pieceMoved.value.color), m.startCol))
    else None
  }

  /** The clock update of board.py:423 as written: the last conjunct compares
      a two-character code with "p", so the condition never holds. */
  function ClockAfterAsWritten(clock: real, m: Move): real
  {
    if PieceCode(m.pieceMoved)[1] != 'p' && m.pieceCaptured.None? &&
       (PieceCode(m.pieceMoved) == "p" && m.startCol == m.endCol)
    then clock + 0.5 else 0.0
  }

  /** The clock update as the fifty-move test of board.py:433 needs it: half a
      move more after a quiet move of a piece, zero after a pawn move or a
      capture. */
  function ClockAfter(clock: real, m: Move): real
  {
    if PieceCode(m.pieceMoved)[1] != 'p' && m.pieceCaptured.None? then clock + 0.5 else 0.0
  }

  /** The en-passant square set after a two-row pawn move is the square the
      opponent's en-passant capture lands on: one row behind it, seen from the
      opponent, lies the pawn that moved (the square GoodMove requires to hold
      the captured pawn), in the column the pawn started from. */
  lemma EpTargetBehindPawn(g: Grid, m: Move)
    requires IsGrid(g) && MoveWf(m) && EpAfter(g, m).Some?
    ensures var q := EpAfter(g, m).value;
      IsPawn(m.pieceMoved) &&
      q.0 + Back(Opponent(m.pieceMoved.value.color)) == m.endRow && q.1 == m.startCol &&
      (m.startRow - m.endRow == 2 || m.endRow - m.startRow == 2)
  {
  }

  /** As written, the clock is zero after every move: the pawn test compares
      a two-character code with a one-character string, so no quiet move of a
      piece ever adds the half move it should, and the fifty-move test (a
      clock of 50) can never hold after a move. */
  lemma ClockAsWrittenIsZero(clock: real, m: Move)
    requires m.pieceMoved.Some? && m.pieceMoved.value.kind != Pawn && m.pieceCaptured.None?
    ensures ClockAfterAsWritten(clock, m) == 0.0 != 50.0
  {
    assert |PieceCode(m.pieceMoved)| == 2;
  }

  /** The corrected clock: a quiet move of a piece other than a pawn adds half
      a move, which is what lets the clock reach fifty. */
  lemma QuietMoveAddsHalfMove(clock: real, m: Move)
    requires m.pieceMoved.Some? && m.pieceMoved.value.kind != Pawn && m.pieceCaptured.None?
    ensures ClockAfter(clock, m) == clock + 0.5
  {
    assert PieceCode(m.pieceMoved)[1] != 'p';
  }

  /** board.py:430: the SAN of the mating move ends in '#' instead of its
      last character. */
  function MarkMate(m: Move): (r: Move)
    ensures r.(san := m.san) == m && |r.san| >= 1 && r.san[|r.san| - 1] == '#'
    ensures m.san != [] ==> |r.san| == |m.san| && r.san[..|r.san| - 1] == m.san[..|m.san| - 1]
    ensures m.san == [] ==> r.san == "#"
  {
    m.(san := (if m.san == [] then [] else m.san[..|m.san| - 1]) + "#")
  }

  /** The index of the first move equal (by UCI) to m, as `list.index` finds it. */
  function FirstSame(ms: seq<Move>, m: Move): (i: int)
    ensures -1 <= i < |ms|
    ensures i >= 0 ==> SameMove(ms[i], m) && forall j :: 0 <= j < i ==> !SameMove(ms[j], m)
    ensures i < 0 <==> forall j :: 0 <= j < |ms| ==> !SameMove(ms[j], m)
  {
    if ms == [] then -1
    else if SameMove(ms[0], m) then 0
    else
      var k := FirstSame(ms[1..], m);
      if k < 0 then -1 else k + 1
  }

  /** The legal-move list and whether it is set: the state with the moves of
      `get_legal_moves` in place and the en-passant square it leaves. */
  function Regenerate(s: State): (t: State)
    requires Wf(s)
    ensures Wf(t) && Bookkept(t, s)
  {
    var (s1, legal) := LegalMoves(s);
    s1.(legal := legal)
  }

  /** The state right after the move, before the legal moves are regenerated:
      the move is made, its position key appended to the FEN log, and the
      en-passant square and the clock updated. */
  function Played(s: State, m: Move): (t: State)
    requires Wf(s) && MoveWf(m)
    ensures Wf(t) && t.moveLog == s.moveLog + [m]
  {
    var t := Make(s, m);
    t.(fenLog := s.fenLog + [RemoveExtraDetails(BoardFen(t))],
       ep := EpAfter(t.grid, m),
       halfmove := ClockAfter(s.halfmove, m))
  }

  /** The end-of-game tests of board.py:425-434 on the regenerated state. */
  function Judge(t: State): (r: State)
    requires Wf(t) && t.moveLog != [] && !t.checkmate && !t.draw
    ensures Wf(r) && r.legal == t.legal && r.fenLog == t.fenLog && r.grid == t.grid
    ensures r.white == t.white && r.halfmove == t.halfmove && r.fullmove == t.fullmove
    ensures |r.moveLog| == |t.moveLog| && r.moveLog[..|t.moveLog| - 1] == t.moveLog[..|t.moveLog| - 1]
    ensures var n := |t.moveLog| - 1; r.moveLog[n] == if r.checkmate then MarkMate(t.moveLog[n]) else t.moveLog[n]
    ensures r == t.(checkmate := r.checkmate, draw := r.draw, moveLog := r.moveLog)
  {
    if t.legal == [] then
      if InCheck(t) then
        var n := |t.moveLog| - 1;
        var log := t.moveLog[n := MarkMate(t.moveLog[n])];
        assert MoveWf(t.moveLog[n]);
        assert forall j :: 0 <= j < |log| ==> MoveWf(log[j]);
        t.(checkmate := true, moveLog := log)
      else t.(draw := true)
    else if t.halfmove == 50.0 || Threefold(t.fenLog) then t.(draw := true)
    else t
  }

  /** The end-of-game tests: mate exactly when no legal move is left and the
      side to move is in check; a draw exactly when there is no mate and
      either no legal move is left, the clock has reached fifty moves or a
      position key occurs three times in the FEN log. */
  lemma JudgeOutcome(t: State)
    requires Wf(t) && t.moveLog != [] && !t.checkmate && !t.draw
    ensures Judge(t).checkmate <==> t.legal == [] && InCheck(t)
    ensures Judge(t).draw <==> !Judge(t).checkmate && (t.legal == [] || t.halfmove == 50.0 || Threefold(t.fenLog))
  {
  }

  /** `make_legal_move`: only a move equal to one of the legal moves, and only
      while the game is not over, is played; the stored legal move (with its
      check flag and SAN) is the one made. */
  function MakeLegal(s: State, m: Move): (t: State)
    requires Wf(s)
    ensures Wf(t)
    ensures (forall j :: 0 <= j < |s.legal| ==> !SameMove(s.legal[j], m)) || s.checkmate || s.draw ==> t == s
  {
    var i := FirstSame(s.legal, m);
    if i < 0 || s.checkmate || s.draw then s
    else Judge(Regenerate(Played(s, s.legal[i])))
  }

  /** A move equal to a legal move, while the game is on, is played: the log
      grows by the stored legal move (its SAN marked on mate), the turn
      passes, the FEN log grows by the position key after the move, the
      game-end flags follow the end-of-game tests (Judge). */
  lemma MakeLegalPlays(s: State, m: Move, j: int)
    requires Wf(s) && 0 <= j < |s.legal| && SameMove(s.legal[j], m) && !s.checkmate && !s.draw
    ensures var t := MakeLegal(s, m);
      var i := FirstSame(s.legal, m);
      0 <= i <= j &&
      |t.moveLog| == |s.moveLog| + 1 && t.moveLog[..|s.moveLog|] == s.moveLog &&
      (t.moveLog[|s.moveLog|] == s.legal[i] || t.moveLog[|s.moveLog|] == MarkMate(s.legal[i])) &&
      SameMove(t.moveLog[|s.moveLog|], m) &&
      t.white == !s.white && t.fenLog == s.fenLog + [RemoveExtraDetails(BoardFen(Make(s, s.legal[i])))] &&
      t.halfmove == ClockAfter(s.halfmove, s.legal[i]) &&
      t.fullmove == s.fullmove + (if !s.white then 1 else 0)
  {
    var i := FirstSame(s.legal, m);
    var mv := s.legal[i];
    var p := Played(s, mv);
    assert MakeLegal(s, m) == Judge(Regenerate(p));
    JudgeRegenerated(p);
    assert p.moveLog[..|s.moveLog|] == s.moveLog && p.moveLog[|s.moveLog|] == mv;
  }

  /** Regenerating the legal moves and judging the game keep the logs, the
      turn and the clocks, except that the last move may be marked as mate. */
  lemma JudgeRegenerated(p: State)
    requires Wf(p) && p.moveLog != [] && !p.checkmate && !p.draw
    ensures var t := Judge(Regenerate(p));
      var n := |p.moveLog| - 1;
      |t.moveLog| == |p.moveLog| && t.moveLog[..n] == p.moveLog[..n] &&
      (t.moveLog[n] == p.moveLog[n] || t.moveLog[n] == MarkMate(p.moveLog[n])) &&
      t.white == p.white && t.fenLog == p.fenLog && t.halfmove == p.halfmove && t.fullmove == p.fullmove
  {
    var r := Regenerate(p);
    assert r.moveLog == p.moveLog;
  }

  /** Once the move is played, the game-end flags follow the tests of
      board.py:425-434 on the state with the new legal moves. */
  lemma MakeLegalEnds(s: State, m: Move, j: int)
    requires Wf(s) && 0 <= j < |s.legal| && SameMove(s.legal[j], m) && !s.checkmate && !s.draw
    ensures var r := Regenerate(Played(s, s.legal[FirstSame(s.legal, m)]));
      var t := MakeLegal(s, m);
      (t.checkmate <==> r.legal == [] && InCheck(r)) &&
      (t.draw <==> !t.checkmate && (r.legal == [] || r.halfmove == 50.0 || Threefold(r.fenLog)))
  {
    var r := Regenerate(Played(s, s.legal[FirstSame(s.legal, m)]));
    assert MakeLegal(s, m) == Judge(r);
    JudgeOutcome(r);
  }

  /** With the corrected clock, a quiet move of a piece made at 49.5 ends the
      game: mate if the opponent has no move and is in check, a draw
      otherwise. */
  lemma FiftyMoveDraw(s: State, m: Move, j: int)
    requires Wf(s) && 0 <= j < |s.legal| && SameMove(s.legal[j], m) && !s.checkmate && !s.draw
    requires s.halfmove == 49.5
    requires var mv := s.legal[FirstSame(s.legal, m)];
      mv.pieceMoved.Some? && mv.pieceMoved.value.kind != Pawn && mv.pieceCaptured.None?
    ensures MakeLegal(s, m).draw || MakeLegal(s, m).checkmate
  {
    var mv := s.legal[FirstSame(s.legal, m)];
    var r := Regenerate(Played(s, mv));
    assert r.halfmove == 50.0 by {
      QuietMoveAddsHalfMove(s.halfmove, mv);
    }
    MakeLegalEnds(s, m, j);
  }

  /** The state `undo_move(in_engine=False)` hands to the legal-move
      generator: the move taken back, half a move of the clock given back
      unless it is zero, and the last FEN log entry dropped. */
  function TakenBack(s: State): (t: State)
    requires Wf(s) && s.moveLog != []
    ensures Wf(t) && t.moveLog == s.moveLog[..|s.moveLog| - 1] && t.white == !s.white
    ensures t.fenLog == (if s.fenLog == [] then [] else s.fenLog[..|s.fenLog| - 1])
    ensures t.halfmove == (if s.halfmove != 0.0 then s.halfmove - 0.5 else s.halfmove)
    ensures t.fullmove == s.fullmove - (if s.white then 1 else 0)
  {
    var r := Revert(s);
    r.(halfmove := if s.halfmove != 0.0 then s.halfmove - 0.5 else s.halfmove,
       fenLog := if s.fenLog == [] then [] else s.fenLog[..|s.fenLog| - 1])
  }

  lemma TakenBackInStages(s: State)
    requires Wf(s) && s.moveLog != []
    ensures var m := s.moveLog[|s.moveLog| - 1];
      MoveWf(m) &&
      TakenBack(s) == Restored(Unplaced(s, m, true), m).(fenLog := if s.fenLog == [] then [] else s.fenLog[..|s.fenLog| - 1])
  {
    var m := s.moveLog[|s.moveLog| - 1];
    assert m in s.moveLog;
  }

  /** `undo_move(in_engine=False)`: with moves in the log, take the last one
      back and regenerate the legal moves; with an empty log nothing
      changes. */
  function Undo(s: State): (t: State)
    requires Wf(s)
    ensures Wf(t)
    ensures s.moveLog == [] ==> t == s
    ensures s.moveLog != [] ==> Bookkept(t, TakenBack(s))
  {
    if s.moveLog == [] then s else Regenerate(TakenBack(s))
  }

  /** Undo after a played move: the logs lose their last entries, the turn
      and the full-move number go back. */
  lemma UndoAfterPlay(s: State, t: State)
    requires Wf(s) && Wf(t) && |t.moveLog| == |s.moveLog| + 1 && t.moveLog[..|s.moveLog|] == s.moveLog
    requires t.white == !s.white && t.fullmove == s.fullmove + (if !s.white then 1 else 0)
    requires |t.fenLog| == |s.fenLog| + 1 && t.fenLog[..|s.fenLog|] == s.fenLog
    ensures var u := Undo(t);
      u.moveLog == s.moveLog && u.fenLog == s.fenLog && u.white == s.white && u.fullmove == s.fullmove &&
      u.halfmove == (if t.halfmove != 0.0 then t.halfmove - 0.5 else t.halfmove)
  {
    assert t.moveLog != [] && t.fenLog != [];
    var b := TakenBack(t);
    assert b.moveLog == s.moveLog && b.fenLog == s.fenLog;
    assert Bookkept(Undo(t), b);
  }

  /** Taking back a move made through MakeLegal restores the move log, the
      FEN log, the side to move and the full-move number; a clock that is not
      negative comes back too after a quiet move of a piece. */
  lemma UndoMakeLegal(s: State, m: Move, j: int)
    requires Wf(s) && 0 <= j < |s.legal| && SameMove(s.legal[j], m) && !s.checkmate && !s.draw
    ensures var u := Undo(MakeLegal(s, m));
      u.moveLog == s.moveLog && u.fenLog == s.fenLog && u.white == s.white && u.fullmove == s.fullmove
    ensures var mv := s.legal[FirstSame(s.legal, m)];
      s.halfmove >= 0.0 && mv.pieceMoved.Some? && mv.pieceMoved.value.kind != Pawn && mv.pieceCaptured.None? ==>
      Undo(MakeLegal(s, m)).halfmove == s.halfmove
  {
    var mv := s.legal[FirstSame(s.legal, m)];
    MakeLegalPlays(s, m, j);
    var t := MakeLegal(s, m);
    assert t.fenLog[..|s.fenLog|] == s.fenLog;
    UndoAfterPlay(s, t);
    if s.halfmove >= 0.0 && mv.pieceMoved.Some? && mv.pieceMoved.value.kind != Pawn && mv.pieceCaptured.None? {
      QuietMoveAddsHalfMove(s.halfmove, mv);
      assert t.halfmove == s.halfmove + 0.5 != 0.0;
    }
  }

  /** The attributes the constructor copies from the decoded FEN
      (board.py:89-95, 101), with empty logs and no king cache yet. */
  function Loaded(rec: FenRecord): (s: State)
    requires IsGrid(rec.grid) && SquareOnBoard(rec.enPassant)
    ensures Wf(s) && s.moveLog == [] && s.grid == rec.grid
  {
    State(rec.grid, rec.whiteToMove, rec.castling, [rec.castling], rec.enPassant,
          rec.halfmove as real, rec.fullmove, [], [], None, None, false, false, [])
  }

  /** board.py:102: the FEN log starts with the position key cut out of the
      board's own FEN. */
  function Logged(s: State): (t: State)
    requires Wf(s)
    ensures Wf(t) && |t.fenLog| == 1 && t.moveLog == s.moveLog && t.grid == s.grid
  {
    s.(fenLog := [TrimClocks(BoardFen(s))])
  }

  /** board.py:103: the king cache read from the board. */
  function Located(s: State): (t: State)
    requires Wf(s)
    ensures Wf(t) && t.fenLog == s.fenLog && t.moveLog == s.moveLog && t.grid == s.grid
  {
    var kings := KingLocations(s.grid);
    s.(whiteKing := kings.0, blackKing := kings.1)
  }

  /** The Board constructor (board.py:81-106): decode the FEN, start the logs,
      locate the kings and generate the legal moves. */
  function Initial(fen: string): (r: Result<State, GameError>)
    ensures r.Ok? ==> Wf(r.value) && r.value.moveLog == []
  {
    var d := DecodeFen(fen);
    if d.Err? then Err(BadFen(d.error))
    else if !IsGrid(d.value.grid) then Err(BadBoard)
    else if !SquareOnBoard(d.value.enPassant) then Err(BadEnPassantSquare)
    else
      var s := Located(Logged(Loaded(d.value)));
      if s.whiteKing.None? || s.blackKing.None? then Err(MissingKing)
      else Ok(Regenerate(s))
  }

  /** A successful construction is the decoded record loaded, its FEN logged,
      its kings located and its legal moves generated, in that order. */
  lemma InitialInStages(fen: string)
    requires Initial(fen).Ok?
    ensures var d := DecodeFen(fen);
      d.Ok? && IsGrid(d.value.grid) && SquareOnBoard(d.value.enPassant) &&
      Initial(fen).value == Regenerate(Located(Logged(Loaded(d.value))))
  {
  }

  /** A king of the colour stands somewhere on the board. */
  ghost predicate HasKing(g: Grid, color: Color)
    requires IsGrid(g)
  {
    exists r, c :: OnBoard(r, c) && g[r][c] == Some(Piece(color, King))
  }

  /** The constructor refuses, in this order, a FEN it cannot decode, a
      placement that is not eight rows of eight, an en-passant square off the
      board and a board without a king of each colour; a board it accepts
      starts on the decoded turn and clocks, with no move played, no end of
      game, and a FEN log holding only the decoded position's key. */
  lemma InitialOutcome(fen: string)
    ensures var d := DecodeFen(fen);
      (d.Err? ==> Initial(fen) == Err(BadFen(d.error))) &&
      (d.Ok? && !IsGrid(d.value.grid) ==> Initial(fen) == Err(BadBoard)) &&
      (d.Ok? && IsGrid(d.value.grid) && !SquareOnBoard(d.value.enPassant) ==>
        Initial(fen) == Err(BadEnPassantSquare)) &&
      (d.Ok? && IsGrid(d.value.grid) && SquareOnBoard(d.value.enPassant) ==>
        (Initial(fen).Ok? <==> HasKing(d.value.grid, White) && HasKing(d.value.grid, Black)) &&
        (Initial(fen).Err? ==> Initial(fen) == Err(MissingKing)))
    ensures Initial(fen).Ok? ==>
      var rec := DecodeFen(fen).value;
      var s := Initial(fen).value;
      IsGrid(rec.grid) && SquareOnBoard(rec.enPassant) &&
      s.white == rec.whiteToMove && s.halfmove == rec.halfmove as real &&
      s.fullmove == rec.fullmove && s.moveLog == [] && !s.checkmate && !s.draw &&
      s.fenLog == [PositionKey(Loaded(rec))]
  {
    var d := DecodeFen(fen);
    if d.Ok? && IsGrid(d.value.grid) && SquareOnBoard(d.value.enPassant) {
      TokensFromClean(fen, "");
      LocatedOutcome(d.value);
    }
  }

  /** The state the constructor generates the legal moves from: a king is
      cached exactly when one stands on the board, and the FEN log holds the
      position key. */
  lemma LocatedOutcome(rec: FenRecord)
    requires IsGrid(rec.grid) && SquareOnBoard(rec.enPassant) && NoSpace(rec.castling)
    ensures var s := Located(Logged(Loaded(rec)));
      (s.whiteKing.Some? <==> HasKing(rec.grid, White)) &&
      (s.blackKing.Some? <==> HasKing(rec.grid, Black)) &&
      s.fenLog == [PositionKey(Loaded(rec))]
  {
    var g := rec.grid;
    KingLocationsSound(g);
    var (w, b) := KingLocations(g);
    if w.Some? {
      assert g[w.value.0][w.value.1] == Some(Piece(White, King));
    }
    if b.Some? {
      assert g[b.value.0][b.value.1] == Some(Piece(Black, King));
    }
    TrimClocksKey(Loaded(rec));
  }

  /** When the loaded position's en-passant square is sound and no king stands
      where a castling rook is taken from, the constructor keeps the decoded
      board, rights and kings, and its legal moves are exactly the candidates
      that do not leave the mover's king attacked, in their order, each with
      its check flag set. */
  lemma InitialPosition(fen: string)
    requires Initial(fen).Ok?
    requires var s0 := Located(Logged(Loaded(DecodeFen(fen).value)));
      EpSound(s0) && CornersFree(s0)
    ensures var rec := DecodeFen(fen).value;
      var s0 := Located(Logged(Loaded(rec)));
      var s := Initial(fen).value;
      s.grid == rec.grid && s.rights == rec.castling && s.rightsLog == [rec.castling] &&
      (s.whiteKing, s.blackKing) == KingLocations(rec.grid) &&
      s.legal == Annotate(s0, KeepSafe(s0, Candidates(s0)))
  {
    InitialInStages(fen);
    var s0 := Located(Logged(Loaded(DecodeFen(fen).value)));
    assert Consistent(s0);
    CandidatesGood(s0);
    LegalMovesSpec(s0);
  }
}
