// The pseudo-legal move generators of src/modules/board.py, in the order the
// source appends moves, together with the attack query and castling
// generation. Generators produce `Plan`s -- the coordinates, promotion piece
// and castling flag the source passes to the Move constructor -- and `Build`
// turns a list of plans into the Move objects the source appends.
module Rules {
  import opened Base
  import opened Pieces
  import opened Moves

  /** The arguments of one `Move(self, (sr, sc, er, ec), promoted_piece, is_castling)` call. */
  datatype Plan = Plan(sr: int, sc: int, er: int, ec: int, promoted: Option<Kind>, castling: bool)

  predicate PlanOnBoard(p: Plan)
  {
    OnBoard(p.sr, p.sc) && OnBoard(p.er, p.ec)
  }

  predicate AllOnBoard(ps: seq<Plan>)
  {
    forall p :: p in ps ==> PlanOnBoard(p)
  }

  /** The Move the source constructs for a plan on the current grid. */
  function MoveOf(g: Grid, p: Plan): (m: Move)
    requires IsGrid(g) && PlanOnBoard(p)
    ensures (m.startRow, m.startCol, m.endRow, m.endCol) == (p.sr, p.sc, p.er, p.ec)
    ensures m.promoted == p.promoted && m.isCastling == p.castling && !m.isCheck
    ensures m.pieceMoved == g[p.sr][p.sc] && m.pieceCaptured == g[p.er][p.ec]
    ensures MoveOnBoard(m) && m.uci == UciOf(p.sr, p.sc, p.er, p.ec, p.promoted)
  {
    NewMove(g, p.sr, p.sc, p.er, p.ec, p.promoted, p.castling)
  }

  /** The moves constructed for a list of plans, in order. */
  function Build(g: Grid, ps: seq<Plan>): (ms: seq<Move>)
    requires IsGrid(g) && AllOnBoard(ps)
    ensures |ms| == |ps| && forall i :: 0 <= i < |ps| ==> ms[i] == MoveOf(g, ps[i])
  {
    seq(|ps|, i requires 0 <= i < |ps| => MoveOf(g, ps[i]))
  }

  /** Building distributes over concatenation, so appending moves one by one
      builds the concatenated plan list. */
  lemma BuildConcat(g: Grid, a: seq<Plan>, b: seq<Plan>)
    requires IsGrid(g) && AllOnBoard(a) && AllOnBoard(b)
    ensures AllOnBoard(a + b) && Build(g, a + b) == Build(g, a) + Build(g, b)
  {
    assert AllOnBoard(a + b);
    var l, r := Build(g, a + b), Build(g, a) + Build(g, b);
    assert |l| == |r|;
    forall i | 0 <= i < |l| ensures l[i] == r[i]
    {
      if i < |a| {
        assert (a + b)[i] == a[i];
      } else {
        assert (a + b)[i] == b[i - |a|];
      }
    }
  }

  /** A move is built from a list exactly when it is the move of one of its plans. */
  lemma InBuild(g: Grid, ps: seq<Plan>, m: Move)
    requires IsGrid(g) && AllOnBoard(ps)
    ensures m in Build(g, ps) <==> exists p :: p in ps && m == MoveOf(g, p)
  {
    var ms := Build(g, ps);
    if exists p :: p in ps && m == MoveOf(g, p) {
      var p :| p in ps && m == MoveOf(g, p);
      var i :| 0 <= i < |ps| && ps[i] == p;
      assert ms[i] == m;
    }
  }

  /** A sliding direction or a single step: each component in -1..1, not both 0. */
  predicate IsDir(dr: int, dc: int)
  {
    -1 <= dr <= 1 && -1 <= dc <= 1 && (dr != 0 || dc != 0)
  }

  /** Squares left before leaving the board along one component. */
  function Span(x: int, d: int): int
  {
    if d == 1 then 8 - x else if d == -1 then x + 1 else 9
  }

  /** A piece stands on (row, col). */
  predicate Occupied(g: Grid, row: int, col: int)
  {
    IsGrid(g) && OnBoard(row, col) && g[row][col].Some?
  }

  function ColorAt(g: Grid, row: int, col: int): Color
    requires Occupied(g, row, col)
  {
    g[row][col].value.color
  }

  /** The piece on (row, col) may move to (r, c): the target is empty or holds
      a piece of the other colour. */
  predicate Enterable(g: Grid, row: int, col: int, r: int, c: int)
    requires Occupied(g, row, col) && OnBoard(r, c)
  {
    g[r][c].None? || g[r][c].value.color != ColorAt(g, row, col)
  }

  /** The squares one direction of `get_rook_moves` / `get_bishop_moves` visits
      from (r, c) on, for a piece of `color`: empty squares are taken and the
      walk goes on, the first opponent piece is taken and ends it, an own piece
      ends it untaken. */
  function RaySquares(g: Grid, color: Color, dr: int, dc: int, r: int, c: int): (ts: seq<Square>)
    requires IsGrid(g) && IsDir(dr, dc)
    decreases Span(r, dr) + Span(c, dc)
  {
    if !OnBoard(r, c) then []
    else if g[r][c].None? then [(r, c)] + RaySquares(g, color, dr, dc, r + dr, c + dc)
    else if g[r][c].value.color != color then [(r, c)]
    else []
  }

  /** Plain plans from (row, col) to each listed square, in order. */
  function Toward(row: int, col: int, ts: seq<Square>): (ps: seq<Plan>)
    ensures |ps| == |ts|
    ensures forall i :: 0 <= i < |ts| ==> ps[i] == Plan(row, col, ts[i].0, ts[i].1, None, false)
  {
    seq(|ts|, i requires 0 <= i < |ts| => Plan(row, col, ts[i].0, ts[i].1, None, false))
  }

  predicate AllDirs(dirs: seq<(int, int)>)
  {
    forall d :: d in dirs ==> IsDir(d.0, d.1)
  }

  /** The loop over directions of a sliding generator. */
  function Slide(g: Grid, row: int, col: int, dirs: seq<(int, int)>): (ps: seq<Plan>)
    requires Occupied(g, row, col) && AllDirs(dirs)
  {
    if dirs == [] then []
    else
      var d := dirs[|dirs| - 1];
      Slide(g, row, col, dirs[..|dirs| - 1]) + Toward(row, col, RaySquares(g, ColorAt(g, row, col), d.0, d.1, row + d.0, col + d.1))
  }

  const RookDirs: seq<(int, int)> := [(1, 0), (-1, 0), (0, 1), (0, -1)]
  const BishopDirs: seq<(int, int)> := [(1, 1), (-1, 1), (1, -1), (-1, -1)]
  const KnightOffsets: seq<(int, int)> := [(2, 1), (2, -1), (-2, 1), (-2, -1), (1, 2), (1, -2), (-1, 2), (-1, -2)]
  const KingOffsets: seq<(int, int)> := [(1, 0), (-1, 0), (0, 1), (0, -1), (1, 1), (1, -1), (-1, 1), (-1, -1)]

  /** `get_rook_moves` */
  function RookPlans(g: Grid, row: int, col: int): seq<Plan>
    requires Occupied(g, row, col)
  {
    Slide(g, row, col, RookDirs)
  }

  /** `get_bishop_moves` */
  function BishopPlans(g: Grid, row: int, col: int): seq<Plan>
    requires Occupied(g, row, col)
  {
    Slide(g, row, col, BishopDirs)
  }

  /** `get_queen_moves`: the rook moves followed by the bishop moves. */
  function QueenPlans(g: Grid, row: int, col: int): seq<Plan>
    requires Occupied(g, row, col)
  {
    RookPlans(g, row, col) + BishopPlans(g, row, col)
  }

  /** One offset of `get_knight_moves` / `get_king_moves`. */
  function StepAt(g: Grid, row: int, col: int, d: (int, int)): seq<Plan>
    requires Occupied(g, row, col)
  {
    var r, c := row + d.0, col + d.1;
    if OnBoard(r, c) && Enterable(g, row, col, r, c) then [Plan(row, col, r, c, None, false)] else []
  }

  /** The loop over a fixed offset list. */
  function Steps(g: Grid, row: int, col: int, offs: seq<(int, int)>): seq<Plan>
    requires Occupied(g, row, col)
  {
    if offs == [] then []
    else Steps(g, row, col, offs[..|offs| - 1]) + StepAt(g, row, col, offs[|offs| - 1])
  }

  /** `get_knight_moves` */
  function KnightPlans(g: Grid, row: int, col: int): seq<Plan>
    requires Occupied(g, row, col)
  {
    Steps(g, row, col, KnightOffsets)
  }

  /** `get_king_moves` (castling is generated separately) */
  function KingPlans(g: Grid, row: int, col: int): seq<Plan>
    requires Occupied(g, row, col)
  {
    Steps(g, row, col, KingOffsets)
  }

  /** Pawns of White move towards row 0, pawns of Black towards row 7. */
  function Forward(color: Color): int
  {
    if color == White then -1 else 1
  }

  /** The rank a pawn of this colour promotes on. */
  function LastRank(color: Color): int
  {
    if color == White then 0 else 7
  }

  /** The rank a pawn of this colour starts on. */
  function HomeRank(color: Color): int
  {
    if color == White then 6 else 1
  }

  /** The source's promotion test: the pawn stands one row before its last rank. */
  predicate PromotesFrom(color: Color, row: int)
  {
    (color == White && row - 1 == 0) || (color == Black && row + 1 == 7)
  }

  const PromotionKinds: seq<Kind> := [Queen, Knight, Rook, Bishop]

  /** The four promotion variants, in the source's order Q, N, R, B. */
  function Promotions(row: int, col: int, r: int, c: int): (ps: seq<Plan>)
    ensures |ps| == 4 && forall i :: 0 <= i < 4 ==> ps[i] == Plan(row, col, r, c, Some(PromotionKinds[i]), false)
  {
    seq(4, i requires 0 <= i < 4 => Plan(row, col, r, c, Some(PromotionKinds[i]), false))
  }

  /** The forward part of `get_pawn_moves` with the guard of board.py:603 read
      as `lowest <= row + direction < 8`: one step if the square ahead is empty
      (the four promotion variants on the last rank), then two steps from the
      home rank if that square is empty too. */
  function PawnPushesFrom(g: Grid, row: int, col: int, lowest: int): seq<Plan>
    requires Occupied(g, row, col)
  {
    var color := ColorAt(g, row, col);
    var dir := Forward(color);
    if lowest <= row + dir < 8 && 0 <= row + dir && g[row + dir][col].None? then
      (if PromotesFrom(color, row) then Promotions(row, col, row + dir, col)
       else [Plan(row, col, row + dir, col, None, false)]) +
      (if row == HomeRank(color) && g[row + 2 * dir][col].None?
       then [Plan(row, col, row + 2 * dir, col, None, false)] else [])
    else []
  }

  /** board.py:603 as written: `1 <= row + direction`. */
  function PawnPushesAsWritten(g: Grid, row: int, col: int): seq<Plan>
    requires Occupied(g, row, col)
  {
    PawnPushesFrom(g, row, col, 1)
  }

  /** board.py:603 as evidently intended: `0 <= row + direction`. */
  function PawnPushes(g: Grid, row: int, col: int): seq<Plan>
    requires Occupied(g, row, col)
  {
    PawnPushesFrom(g, row, col, 0)
  }

  /** One diagonal of `get_pawn_moves`: a capture of an opponent piece (four
      variants on the last rank), or else a move onto the en-passant square. */
  function PawnDiagonal(g: Grid, ep: Option<Square>, row: int, col: int, dc: int): seq<Plan>
    requires Occupied(g, row, col)
  {
    var color := ColorAt(g, row, col);
    var r, c := row + Forward(color), col + dc;
    if OnBoard(r, c) then
      if HasColor(g[r][c], Opponent(color)) then
        (if PromotesFrom(color, row) then Promotions(row, col, r, c) else [Plan(row, col, r, c, None, false)])
      else if ep == Some((r, c)) then [Plan(row, col, r, c, None, false)]
      else []
    else []
  }

  /** `get_pawn_moves` (with the push guard corrected). */
  function PawnPlans(g: Grid, ep: Option<Square>, row: int, col: int): seq<Plan>
    requires Occupied(g, row, col)
  {
    PawnPushes(g, row, col) + PawnDiagonal(g, ep, row, col, -1) + PawnDiagonal(g, ep, row, col, 1)
  }

  /** `moveFunctions[piece_type]` for a piece of the side to move; nothing for
      an empty square or a piece of the other side. */
  function PiecePlans(g: Grid, white: bool, ep: Option<Square>, row: int, col: int): seq<Plan>
    requires IsGrid(g) && OnBoard(row, col)
  {
    if g[row][col].Some? && g[row][col].value.color == SideColor(white) then
      match g[row][col].value.kind
      case Pawn => PawnPlans(g, ep, row, col)
      case Rook => RookPlans(g, row, col)
      case Knight => KnightPlans(g, row, col)
      case Bishop => BishopPlans(g, row, col)
      case Queen => QueenPlans(g, row, col)
      case King => KingPlans(g, row, col)
    else []
  }

  /** Squares (row, 0) .. (row, col - 1) of `get_psuedo_legal_moves`. */
  function RowPlans(g: Grid, white: bool, ep: Option<Square>, row: int, col: int): seq<Plan>
    requires IsGrid(g) && 0 <= row < 8 && 0 <= col <= 8
  {
    if col == 0 then [] else RowPlans(g, white, ep, row, col - 1) + PiecePlans(g, white, ep, row, col - 1)
  }

  /** Rows 0 .. row - 1 of `get_psuedo_legal_moves`. */
  function BoardPlans(g: Grid, white: bool, ep: Option<Square>, row: int): seq<Plan>
    requires IsGrid(g) && 0 <= row <= 8
  {
    if row == 0 then [] else BoardPlans(g, white, ep, row - 1) + RowPlans(g, white, ep, row - 1, 8)
  }

  /** Every plan the generators produce starts on its own square and stays on
      the board. */
  predicate From(ps: seq<Plan>, row: int, col: int)
  {
    forall p :: p in ps ==> PlanOnBoard(p) && p.sr == row && p.sc == col
  }

  lemma {:induction false} SlideFrom(g: Grid, row: int, col: int, dirs: seq<(int, int)>)
    requires Occupied(g, row, col) && AllDirs(dirs)
    ensures From(Slide(g, row, col, dirs), row, col)
  {
    if dirs != [] {
      var d := dirs[|dirs| - 1];
      SlideFrom(g, row, col, dirs[..|dirs| - 1]);
      RayEnterable(g, row, col, d.0, d.1, row + d.0, col + d.1);
    }
  }

  lemma {:induction false} StepsFrom(g: Grid, row: int, col: int, offs: seq<(int, int)>)
    requires Occupied(g, row, col)
    ensures From(Steps(g, row, col, offs), row, col)
  {
    if offs != [] {
      StepsFrom(g, row, col, offs[..|offs| - 1]);
    }
  }

  lemma PushesFrom(g: Grid, row: int, col: int, lowest: int)
    requires Occupied(g, row, col)
    ensures From(PawnPushesFrom(g, row, col, lowest), row, col)
  {
  }

  lemma DiagonalFrom(g: Grid, ep: Option<Square>, row: int, col: int, dc: int)
    requires Occupied(g, row, col)
    ensures From(PawnDiagonal(g, ep, row, col, dc), row, col)
  {
  }

  lemma PawnFrom(g: Grid, ep: Option<Square>, row: int, col: int)
    requires Occupied(g, row, col)
    ensures From(PawnPlans(g, ep, row, col), row, col)
  {
    PushesFrom(g, row, col, 0);
    DiagonalFrom(g, ep, row, col, -1);
    DiagonalFrom(g, ep, row, col, 1);
  }

  lemma PieceFrom(g: Grid, white: bool, ep: Option<Square>, row: int, col: int)
    requires IsGrid(g) && OnBoard(row, col)
    ensures From(PiecePlans(g, white, ep, row, col), row, col)
  {
    if g[row][col].Some? && g[row][col].value.color == SideColor(white) {
      match g[row][col].value.kind
      case Pawn => PawnFrom(g, ep, row, col);
      case Rook => SlideFrom(g, row, col, RookDirs);
      case Bishop => SlideFrom(g, row, col, BishopDirs);
      case Queen => SlideFrom(g, row, col, RookDirs); SlideFrom(g, row, col, BishopDirs);
      case Knight => StepsFrom(g, row, col, KnightOffsets);
      case King => StepsFrom(g, row, col, KingOffsets);
    }
  }

  lemma {:induction false} RowOnBoard(g: Grid, white: bool, ep: Option<Square>, row: int, col: int)
    requires IsGrid(g) && 0 <= row < 8 && 0 <= col <= 8
    ensures AllOnBoard(RowPlans(g, white, ep, row, col))
  {
    if col > 0 {
      RowOnBoard(g, white, ep, row, col - 1);
      PieceFrom(g, white, ep, row, col - 1);
    }
  }

  lemma {:induction false} BoardOnBoard(g: Grid, white: bool, ep: Option<Square>, row: int)
    requires IsGrid(g) && 0 <= row <= 8
    ensures AllOnBoard(BoardPlans(g, white, ep, row))
  {
    if row > 0 {
      BoardOnBoard(g, white, ep, row - 1);
      RowOnBoard(g, white, ep, row - 1, 8);
    }
  }

  /** The plans of `get_psuedo_legal_moves`: squares scanned row by row, each
      piece of the side to move contributing its generator's plans. */
  function PseudoPlans(g: Grid, white: bool, ep: Option<Square>): (ps: seq<Plan>)
    requires IsGrid(g)
    ensures AllOnBoard(ps)
  {
    BoardOnBoard(g, white, ep, 8);
    BoardPlans(g, white, ep, 8)
  }

  /** `get_psuedo_legal_moves`; castling is not part of it. */
  function PseudoLegal(g: Grid, white: bool, ep: Option<Square>): seq<Move>
    requires IsGrid(g)
  {
    Build(g, PseudoPlans(g, white, ep))
  }

  /** Some move of the list lands on (r, c). */
  predicate EndsAt(ms: seq<Move>, r: int, c: int)
  {
    exists m :: m in ms && m.endRow == r && m.endCol == c
  }

  /** Some plan of the list lands on (r, c). */
  predicate PlansEndAt(ps: seq<Plan>, r: int, c: int)
  {
    exists p :: p in ps && p.er == r && p.ec == c
  }

  lemma EndsAtBuild(g: Grid, ps: seq<Plan>, r: int, c: int)
    requires IsGrid(g) && AllOnBoard(ps)
    ensures EndsAt(Build(g, ps), r, c) <==> PlansEndAt(ps, r, c)
  {
    var ms := Build(g, ps);
    if EndsAt(ms, r, c) {
      var m :| m in ms && m.endRow == r && m.endCol == c;
      var i :| 0 <= i < |ms| && ms[i] == m;
      assert ps[i] in ps;
    }
    if PlansEndAt(ps, r, c) {
      var p :| p in ps && p.er == r && p.ec == c;
      var i :| 0 <= i < |ps| && ps[i] == p;
      assert ms[i] in ms;
    }
  }

  /** The loop of `square_under_attack` from index i on: true at the first
      move that lands on (r, c), false when the list runs out. */
  predicate LandsFrom(ms: seq<Move>, r: int, c: int, i: nat)
    requires i <= |ms|
    decreases |ms| - i
  {
    i < |ms| && ((ms[i].endRow == r && ms[i].endCol == c) || LandsFrom(ms, r, c, i + 1))
  }

  lemma {:induction false} LandsFromEndsAt(ms: seq<Move>, r: int, c: int, i: nat)
    requires i <= |ms|
    ensures LandsFrom(ms, r, c, i) <==> EndsAt(ms[i..], r, c)
    decreases |ms| - i
  {
    if i < |ms| {
      LandsFromEndsAt(ms, r, c, i + 1);
      assert ms[i..] == [ms[i]] + ms[i + 1..];
      if EndsAt(ms[i..], r, c) && !(ms[i].endRow == r && ms[i].endCol == c) {
        var m :| m in ms[i..] && m.endRow == r && m.endCol == c;
        assert m in ms[i + 1..];
      }
      if EndsAt(ms[i + 1..], r, c) {
        var m :| m in ms[i + 1..] && m.endRow == r && m.endCol == c;
        assert m in ms[i..];
      }
    }
  }

  /** `square_under_attack`: scan the pseudo-legal moves of the side NOT to
      move for one that lands on the square. */
  predicate Attacked(g: Grid, white: bool, ep: Option<Square>, r: int, c: int)
    requires IsGrid(g)
  {
    LandsFrom(PseudoLegal(g, !white, ep), r, c, 0)
  }

  /** An attacked square is one some opponent move lands on. */
  lemma AttackedIff(g: Grid, white: bool, ep: Option<Square>, r: int, c: int)
    requires IsGrid(g)
    ensures Attacked(g, white, ep, r, c) <==> EndsAt(PseudoLegal(g, !white, ep), r, c)
  {
    var ms := PseudoLegal(g, !white, ep);
    LandsFromEndsAt(ms, r, c, 0);
    assert ms[0..] == ms;
  }

  /** The castling letter of the side to move for one wing. */
  function RightLetter(white: bool, kingside: bool): char
  {
    if white then (if kingside then 'K' else 'Q') else (if kingside then 'k' else 'q')
  }

  /** The two squares next to the king towards the rook (col+1, col+2 or
      col-1, col-2) exist, are empty and are not attacked. */
  predicate WingClear(g: Grid, white: bool, ep: Option<Square>, row: int, col: int, step: int)
    requires IsGrid(g) && OnBoard(row, col) && (step == 1 || step == -1)
  {
    OnBoard(row, col + 2 * step) &&
    g[row][col + step].None? && g[row][col + 2 * step].None? &&
    !Attacked(g, white, ep, row, col + step) && !Attacked(g, white, ep, row, col + 2 * step)
  }

  /** `get_castling_moves` for the king on (row, col): nothing when that square
      is attacked; otherwise a king-side move to col+2 and a queen-side move to
      col-2 when the letter is present and the wing is clear. */
  function CastlingPlans(g: Grid, white: bool, ep: Option<Square>, rights: string, row: int, col: int): (ps: seq<Plan>)
    requires IsGrid(g) && OnBoard(row, col)
    ensures AllOnBoard(ps)
  {
    if Attacked(g, white, ep, row, col) then []
    else WingPlans(g, white, ep, rights, row, col, true) + WingPlans(g, white, ep, rights, row, col, false)
  }

  /** One wing of `get_castling_moves`: the move two columns towards the
      rook when the wing's letter is held and the wing is clear. */
  function WingPlans(g: Grid, white: bool, ep: Option<Square>, rights: string, row: int, col: int, kingside: bool): (ps: seq<Plan>)
    requires IsGrid(g) && OnBoard(row, col)
    ensures AllOnBoard(ps)
  {
    var step := if kingside then 1 else -1;
    if RightLetter(white, kingside) in rights && WingClear(g, white, ep, row, col, step)
    then [Plan(row, col, row, col + 2 * step, None, true)] else []
  }

  // ---------------------------------------------------------------------
  // Sliding and stepping pieces

  /** Every square of a ray is empty or holds an opponent piece. */
  lemma {:induction false} RayEnterable(g: Grid, row: int, col: int, dr: int, dc: int, r: int, c: int)
    requires Occupied(g, row, col) && IsDir(dr, dc)
    ensures forall t :: t in RaySquares(g, ColorAt(g, row, col), dr, dc, r, c) ==> OnBoard(t.0, t.1) && Enterable(g, row, col, t.0, t.1)
    decreases Span(r, dr) + Span(c, dc)
  {
    if OnBoard(r, c) && g[r][c].None? {
      RayEnterable(g, row, col, dr, dc, r + dr, c + dc);
      var ts := RaySquares(g, ColorAt(g, row, col), dr, dc, r, c);
      var rest := RaySquares(g, ColorAt(g, row, col), dr, dc, r + dr, c + dc);
      assert ts == [(r, c)] + rest;
    }
  }

  /** The first n squares of the line from (r, c) in direction (dr, dc). */
  function Line(r: int, c: int, dr: int, dc: int, n: nat): seq<Square>
    decreases n
  {
    if n == 0 then [] else [(r, c)] + Line(r + dr, c + dc, dr, dc, n - 1)
  }

  /** A sliding ray is an unbroken stretch of the line starting at (r, c), and
      every square on it but the last is empty. */
  lemma RayWalk(g: Grid, color: Color, dr: int, dc: int, r: int, c: int)
    requires IsGrid(g) && IsDir(dr, dc)
    ensures var ts := RaySquares(g, color, dr, dc, r, c);
      ts == Line(r, c, dr, dc, |ts|) &&
      (ts != [] ==> forall t :: t in ts[..|ts| - 1] ==> OnBoard(t.0, t.1) && g[t.0][t.1].None?)
  {
    RayOnLine(g, color, dr, dc, r, c);
    RayOpenBeforeLast(g, color, dr, dc, r, c);
  }

  lemma {:induction false} RayOnLine(g: Grid, color: Color, dr: int, dc: int, r: int, c: int)
    requires IsGrid(g) && IsDir(dr, dc)
    ensures var ts := RaySquares(g, color, dr, dc, r, c);
      ts == Line(r, c, dr, dc, |ts|)
    decreases Span(r, dr) + Span(c, dc)
  {
    var ts := RaySquares(g, color, dr, dc, r, c);
    if OnBoard(r, c) && g[r][c].None? {
      RayOnLine(g, color, dr, dc, r + dr, c + dc);
      var rest := RaySquares(g, color, dr, dc, r + dr, c + dc);
      assert ts == [(r, c)] + rest;
      assert Line(r, c, dr, dc, |ts|) == [(r, c)] + Line(r + dr, c + dc, dr, dc, |rest|);
    }
  }

  lemma {:induction false} RayOpenBeforeLast(g: Grid, color: Color, dr: int, dc: int, r: int, c: int)
    requires IsGrid(g) && IsDir(dr, dc)
    ensures var ts := RaySquares(g, color, dr, dc, r, c);
      ts != [] ==> forall t :: t in ts[..|ts| - 1] ==> OnBoard(t.0, t.1) && g[t.0][t.1].None?
    decreases Span(r, dr) + Span(c, dc)
  {
    var ts := RaySquares(g, color, dr, dc, r, c);
    if OnBoard(r, c) && g[r][c].None? {
      RayOpenBeforeLast(g, color, dr, dc, r + dr, c + dc);
      var rest := RaySquares(g, color, dr, dc, r + dr, c + dc);
      assert ts == [(r, c)] + rest;
      if rest != [] {
        assert ts[..|ts| - 1] == [(r, c)] + rest[..|rest| - 1];
      } else {
        assert ts[..|ts| - 1] == [];
      }
    }
  }

  /** A sliding ray stops only for a reason: at the board edge, on an opponent
      piece, or just before an own piece. */
  lemma RayBlocked(g: Grid, color: Color, dr: int, dc: int, r: int, c: int)
    requires IsGrid(g) && IsDir(dr, dc)
    ensures var ts := RaySquares(g, color, dr, dc, r, c);
      ts == [] ==> !OnBoard(r, c) || HasColor(g[r][c], color)
    ensures var ts := RaySquares(g, color, dr, dc, r, c);
      ts != [] ==>
        var last := ts[|ts| - 1];
        OnBoard(last.0, last.1) &&
        (g[last.0][last.1].None? ==> !OnBoard(last.0 + dr, last.1 + dc) || HasColor(g[last.0 + dr][last.1 + dc], color))
  {
    RayLastBlocked(g, color, dr, dc, r, c);
  }

  /** The ray may end on t: t is on the board, and if it is empty the next
      square is off the board or holds an own piece. */
  predicate RayEnd(g: Grid, color: Color, dr: int, dc: int, t: Square)
    requires IsGrid(g)
  {
    OnBoard(t.0, t.1) &&
    (g[t.0][t.1].None? ==> !OnBoard(t.0 + dr, t.1 + dc) || HasColor(g[t.0 + dr][t.1 + dc], color))
  }

  lemma {:induction false} RayLastBlocked(g: Grid, color: Color, dr: int, dc: int, r: int, c: int)
    requires IsGrid(g) && IsDir(dr, dc)
    ensures var ts := RaySquares(g, color, dr, dc, r, c);
      ts != [] ==> RayEnd(g, color, dr, dc, ts[|ts| - 1])
    decreases Span(r, dr) + Span(c, dc)
  {
    if OnBoard(r, c) && g[r][c].None? {
      RayLastBlocked(g, color, dr, dc, r + dr, c + dc);
      var ts := RaySquares(g, color, dr, dc, r, c);
      var rest := RaySquares(g, color, dr, dc, r + dr, c + dc);
      assert ts == [(r, c)] + rest;
      if rest != [] {
        assert ts[|ts| - 1] == rest[|rest| - 1];
      } else {
        assert ts[|ts| - 1] == (r, c);
      }
    }
  }

  /** A plain plan of the piece on (row, col): no promotion, no castling, onto
      an empty square or an opponent piece. */
  predicate PlainPlan(g: Grid, row: int, col: int, p: Plan)
    requires Occupied(g, row, col)
  {
    PlanOnBoard(p) && p.sr == row && p.sc == col && p.promoted.None? && !p.castling &&
    Enterable(g, row, col, p.er, p.ec)
  }

  lemma {:induction false} SlidePlain(g: Grid, row: int, col: int, dirs: seq<(int, int)>)
    requires Occupied(g, row, col) && AllDirs(dirs)
    ensures forall p :: p in Slide(g, row, col, dirs) ==> PlainPlan(g, row, col, p)
  {
    if dirs != [] {
      var d := dirs[|dirs| - 1];
      SlidePlain(g, row, col, dirs[..|dirs| - 1]);
      RayEnterable(g, row, col, d.0, d.1, row + d.0, col + d.1);
    }
  }

  lemma {:induction false} StepsPlain(g: Grid, row: int, col: int, offs: seq<(int, int)>)
    requires Occupied(g, row, col)
    ensures forall p :: p in Steps(g, row, col, offs) ==> PlainPlan(g, row, col, p)
  {
    if offs != [] {
      StepsPlain(g, row, col, offs[..|offs| - 1]);
    }
  }

  /** Knight and king moves are exactly the offset squares inside the board
      that are empty or hold an opponent piece. */
  lemma {:induction false} StepsExact(g: Grid, row: int, col: int, offs: seq<(int, int)>, r: int, c: int)
    requires Occupied(g, row, col) && OnBoard(r, c)
    ensures Plan(row, col, r, c, None, false) in Steps(g, row, col, offs) <==>
            (r - row, c - col) in offs && Enterable(g, row, col, r, c)
  {
    if offs != [] {
      var init, last := offs[..|offs| - 1], offs[|offs| - 1];
      StepsExact(g, row, col, init, r, c);
      StepAtExact(g, row, col, last, r, c);
      assert offs == init + [last];
      assert Steps(g, row, col, offs) == Steps(g, row, col, init) + StepAt(g, row, col, last);
    }
  }

  lemma StepAtExact(g: Grid, row: int, col: int, d: (int, int), r: int, c: int)
    requires Occupied(g, row, col) && OnBoard(r, c)
    ensures Plan(row, col, r, c, None, false) in StepAt(g, row, col, d) <==>
            d == (r - row, c - col) && Enterable(g, row, col, r, c)
  {
  }

  // ---------------------------------------------------------------------
  // Pawns

  /** The plans of `Promotions` are the four variants, nothing else. */
  lemma InPromotions(row: int, col: int, r: int, c: int, p: Plan)
    ensures p in Promotions(row, col, r, c) <==>
            p.promoted.Some? && p.promoted.value in PromotionKinds && p == Plan(row, col, r, c, p.promoted, false)
  {
    var ps := Promotions(row, col, r, c);
    if p.promoted.Some? && p.promoted.value in PromotionKinds && p == Plan(row, col, r, c, p.promoted, false) {
      var i :| 0 <= i < 4 && PromotionKinds[i] == p.promoted.value;
      assert ps[i] == p;
    }
  }

  /** Pushes go straight ahead onto empty squares: one row (promoting exactly
      when the source's promotion test holds), or two rows from the home rank
      over an empty square. */
  lemma PushShape(g: Grid, row: int, col: int, lowest: int, p: Plan)
    requires Occupied(g, row, col) && p in PawnPushesFrom(g, row, col, lowest)
    ensures var color := ColorAt(g, row, col);
      PlanOnBoard(p) && p.sr == row && p.sc == col && p.ec == col && !p.castling &&
      g[p.er][col].None? && g[row + Forward(color)][col].None? &&
      ((p.er == row + Forward(color) && (p.promoted.Some? <==> PromotesFrom(color, row))) ||
       (p.er == row + 2 * Forward(color) && row == HomeRank(color) && p.promoted.None?))
  {
    var color := ColorAt(g, row, col);
    if PromotesFrom(color, row) {
      assert row != HomeRank(color);
      InPromotions(row, col, row + Forward(color), col, p);
    }
  }

  /** A diagonal move goes one row forward and one column aside; it takes an
      opponent piece (promoting exactly when the source's promotion test
      holds) or goes to the en-passant square without promoting. */
  lemma DiagonalShape(g: Grid, ep: Option<Square>, row: int, col: int, dc: int, p: Plan)
    requires Occupied(g, row, col) && p in PawnDiagonal(g, ep, row, col, dc)
    ensures var color := ColorAt(g, row, col);
      PlanOnBoard(p) && p.sr == row && p.sc == col && !p.castling &&
      p.er == row + Forward(color) && p.ec == col + dc &&
      (HasColor(g[p.er][p.ec], Opponent(color)) ==> (p.promoted.Some? <==> PromotesFrom(color, row))) &&
      (!HasColor(g[p.er][p.ec], Opponent(color)) ==> ep == Some((p.er, p.ec)) && p.promoted.None?)
  {
    var color := ColorAt(g, row, col);
    var r, c := row + Forward(color), col + dc;
    if OnBoard(r, c) && HasColor(g[r][c], Opponent(color)) && PromotesFrom(color, row) {
      InPromotions(row, col, r, c, p);
    }
  }

  /** Only a move onto the pawn's last rank promotes. */
  lemma PromotionOnLastRank(g: Grid, ep: Option<Square>, row: int, col: int, p: Plan)
    requires Occupied(g, row, col) && p in PawnPlans(g, ep, row, col) && p.promoted.Some?
    ensures p.er == LastRank(ColorAt(g, row, col))
  {
    if p in PawnPushes(g, row, col) {
      PushShape(g, row, col, 0, p);
    } else if p in PawnDiagonal(g, ep, row, col, -1) {
      DiagonalShape(g, ep, row, col, -1, p);
    } else {
      DiagonalShape(g, ep, row, col, 1, p);
    }
  }

  /** With the corrected guard, a pawn one step before its last rank whose
      square ahead is empty is offered exactly the four promotion pushes, for
      both colours. */
  lemma PushPromotes(g: Grid, row: int, col: int)
    requires Occupied(g, row, col) && PromotesFrom(ColorAt(g, row, col), row)
    requires g[row + Forward(ColorAt(g, row, col))][col].None?
    ensures PawnPushes(g, row, col) == Promotions(row, col, LastRank(ColorAt(g, row, col)), col)
  {
  }

  /** With the guard of board.py:603 as written, a white pawn on row 1 whose
      square ahead is empty gets no push at all, so it can never promote by
      pushing; the corrected guard offers the four promotions. */
  lemma WhitePushToLastRankBlocked(g: Grid, col: int)
    requires IsGrid(g) && 0 <= col < 8
    requires g[1][col] == Some(Piece(White, Pawn)) && g[0][col].None?
    ensures PawnPushesAsWritten(g, 1, col) == []
    ensures PawnPushes(g, 1, col) == Promotions(1, col, 0, col)
  {
  }

  /** A capture by a pawn one step before its last rank is the four promotion
      variants. */
  lemma DiagonalPromotes(g: Grid, ep: Option<Square>, row: int, col: int, dc: int)
    requires Occupied(g, row, col) && PromotesFrom(ColorAt(g, row, col), row)
    requires OnBoard(row + Forward(ColorAt(g, row, col)), col + dc)
    requires HasColor(g[row + Forward(ColorAt(g, row, col))][col + dc], Opponent(ColorAt(g, row, col)))
    ensures PawnDiagonal(g, ep, row, col, dc) == Promotions(row, col, LastRank(ColorAt(g, row, col)), col + dc)
  {
  }

  /** A pawn that reaches its last rank by a straight push or by taking an
      opponent piece is offered as all four promotion variants. */
  lemma PawnPromotion(g: Grid, ep: Option<Square>, row: int, col: int, p: Plan)
    requires Occupied(g, row, col) && p in PawnPlans(g, ep, row, col) && PlanOnBoard(p)
    requires p.er == LastRank(ColorAt(g, row, col))
    requires p.ec == col || HasColor(g[p.er][p.ec], Opponent(ColorAt(g, row, col)))
    ensures p.promoted.Some?
    ensures forall k :: k in PromotionKinds ==> Plan(row, col, p.er, p.ec, Some(k), false) in PawnPlans(g, ep, row, col)
  {
    var pushes, left, right := PawnPushes(g, row, col), PawnDiagonal(g, ep, row, col, -1), PawnDiagonal(g, ep, row, col, 1);
    var part: seq<Plan>;
    if p in pushes {
      PushShape(g, row, col, 0, p);
      PushPromotes(g, row, col);
      part := pushes;
    } else if p in left {
      DiagonalShape(g, ep, row, col, -1, p);
      DiagonalPromotes(g, ep, row, col, -1);
      part := left;
    } else {
      DiagonalShape(g, ep, row, col, 1, p);
      DiagonalPromotes(g, ep, row, col, 1);
      part := right;
    }
    InPromotions(row, col, p.er, p.ec, p);
    forall k | k in PromotionKinds
      ensures Plan(row, col, p.er, p.ec, Some(k), false) in PawnPlans(g, ep, row, col)
    {
      InPromotions(row, col, p.er, p.ec, Plan(row, col, p.er, p.ec, Some(k), false));
    }
  }

  /** A two-row pawn move starts on the home rank, goes straight, and needs
      both squares ahead empty; conversely such a pawn is always offered it. */
  lemma DoubleStep(g: Grid, ep: Option<Square>, row: int, col: int, p: Plan)
    requires Occupied(g, row, col)
    ensures var color := ColorAt(g, row, col);
      var dir := Forward(color);
      (p in PawnPlans(g, ep, row, col) && p.er == row + 2 * dir ==>
        row == HomeRank(color) && p.ec == col && g[row + dir][col].None? && g[row + 2 * dir][col].None?) &&
      (row == HomeRank(color) && g[row + dir][col].None? && g[row + 2 * dir][col].None? ==>
        Plan(row, col, row + 2 * dir, col, None, false) in PawnPlans(g, ep, row, col))
  {
    var color := ColorAt(g, row, col);
    var dir := Forward(color);
    if p in PawnPlans(g, ep, row, col) && p.er == row + 2 * dir {
      if p in PawnPushes(g, row, col) {
        PushShape(g, row, col, 0, p);
      } else if p in PawnDiagonal(g, ep, row, col, -1) {
        DiagonalShape(g, ep, row, col, -1, p);
      } else {
        DiagonalShape(g, ep, row, col, 1, p);
      }
    }
    if row == HomeRank(color) && g[row + dir][col].None? && g[row + 2 * dir][col].None? {
      assert PawnPushes(g, row, col) == [Plan(row, col, row + dir, col, None, false), Plan(row, col, row + 2 * dir, col, None, false)];
    }
  }

  /** A diagonal pawn move that takes no opponent piece goes to the
      en-passant square, and never promotes. */
  lemma DiagonalNeedsCaptureOrEnPassant(g: Grid, ep: Option<Square>, row: int, col: int, p: Plan)
    requires Occupied(g, row, col) && p in PawnPlans(g, ep, row, col) && PlanOnBoard(p) && p.ec != col
    requires !HasColor(g[p.er][p.ec], Opponent(ColorAt(g, row, col)))
    ensures ep == Some((p.er, p.ec)) && p.promoted.None?
  {
    if p in PawnPushes(g, row, col) {
      PushShape(g, row, col, 0, p);
    } else if p in PawnDiagonal(g, ep, row, col, -1) {
      DiagonalShape(g, ep, row, col, -1, p);
    } else {
      DiagonalShape(g, ep, row, col, 1, p);
    }
  }

  // ---------------------------------------------------------------------
  // What every generated move looks like

  /** The shape of a pawn move of `color`: one row forward (straight or
      diagonal), or two rows straight from the home rank. */
  predicate PawnStep(color: Color, sr: int, sc: int, er: int, ec: int)
  {
    (er == sr + Forward(color) && -1 <= ec - sc <= 1) ||
    (er == sr + 2 * Forward(color) && ec == sc && sr == HomeRank(color))
  }

  /** A plan of `get_psuedo_legal_moves` for the side to move: a piece of that
      side moves; only pawns reaching the last rank promote; pawns move
      forward; a pawn changes column only to take an opponent piece or onto
      the en-passant square; and the only way onto an own piece is a pawn
      move onto the en-passant square. */
  predicate GoodPlan(g: Grid, white: bool, ep: Option<Square>, p: Plan)
    requires IsGrid(g)
  {
    PlanOnBoard(p) && !p.castling &&
    HasColor(g[p.sr][p.sc], SideColor(white)) &&
    (p.promoted.Some? ==> IsPawn(g[p.sr][p.sc]) && p.er == LastRank(SideColor(white))) &&
    (IsPawn(g[p.sr][p.sc]) ==> PawnStep(SideColor(white), p.sr, p.sc, p.er, p.ec)) &&
    (IsPawn(g[p.sr][p.sc]) && p.sc != p.ec && !HasColor(g[p.er][p.ec], Opponent(SideColor(white))) ==>
       ep == Some((p.er, p.ec))) &&
    (HasColor(g[p.er][p.ec], SideColor(white)) ==> IsPawn(g[p.sr][p.sc]) && ep == Some((p.er, p.ec)))
  }

  lemma PawnGood(g: Grid, white: bool, ep: Option<Square>, row: int, col: int)
    requires Occupied(g, row, col) && g[row][col] == Some(Piece(SideColor(white), Pawn))
    ensures forall p :: p in PawnPlans(g, ep, row, col) ==> GoodPlan(g, white, ep, p)
  {
    forall p | p in PawnPlans(g, ep, row, col)
      ensures GoodPlan(g, white, ep, p)
    {
      if p in PawnPushes(g, row, col) {
        PushShape(g, row, col, 0, p);
      } else if p in PawnDiagonal(g, ep, row, col, -1) {
        DiagonalShape(g, ep, row, col, -1, p);
      } else {
        DiagonalShape(g, ep, row, col, 1, p);
      }
    }
  }

  lemma PlainGood(g: Grid, white: bool, ep: Option<Square>, row: int, col: int, ps: seq<Plan>)
    requires Occupied(g, row, col) && ColorAt(g, row, col) == SideColor(white) && !IsPawn(g[row][col])
    requires forall p :: p in ps ==> PlainPlan(g, row, col, p)
    ensures forall p :: p in ps ==> GoodPlan(g, white, ep, p)
  {
  }

  lemma PieceGood(g: Grid, white: bool, ep: Option<Square>, row: int, col: int)
    requires IsGrid(g) && OnBoard(row, col)
    ensures forall p :: p in PiecePlans(g, white, ep, row, col) ==> GoodPlan(g, white, ep, p)
  {
    if g[row][col].Some? && g[row][col].value.color == SideColor(white) {
      match g[row][col].value.kind
      case Pawn => PawnGood(g, white, ep, row, col);
      case Rook =>
        SlidePlain(g, row, col, RookDirs);
        PlainGood(g, white, ep, row, col, RookPlans(g, row, col));
      case Bishop =>
        SlidePlain(g, row, col, BishopDirs);
        PlainGood(g, white, ep, row, col, BishopPlans(g, row, col));
      case Queen =>
        SlidePlain(g, row, col, RookDirs);
        SlidePlain(g, row, col, BishopDirs);
        PlainGood(g, white, ep, row, col, QueenPlans(g, row, col));
      case Knight =>
        StepsPlain(g, row, col, KnightOffsets);
        PlainGood(g, white, ep, row, col, KnightPlans(g, row, col));
      case King =>
        StepsPlain(g, row, col, KingOffsets);
        PlainGood(g, white, ep, row, col, KingPlans(g, row, col));
    }
  }

  lemma {:induction false} RowGood(g: Grid, white: bool, ep: Option<Square>, row: int, col: int)
    requires IsGrid(g) && 0 <= row < 8 && 0 <= col <= 8
    ensures forall p :: p in RowPlans(g, white, ep, row, col) ==> GoodPlan(g, white, ep, p)
  {
    if col > 0 {
      RowGood(g, white, ep, row, col - 1);
      PieceGood(g, white, ep, row, col - 1);
    }
  }

  lemma {:induction false} BoardGood(g: Grid, white: bool, ep: Option<Square>, row: int)
    requires IsGrid(g) && 0 <= row <= 8
    ensures forall p :: p in BoardPlans(g, white, ep, row) ==> GoodPlan(g, white, ep, p)
  {
    if row > 0 {
      BoardGood(g, white, ep, row - 1);
      RowGood(g, white, ep, row - 1, 8);
    }
  }

  /** What every move of `get_psuedo_legal_moves` satisfies, stated on the
      Move: constructed from the grid for a piece of the side to move, not
      castling; promotions only for pawns reaching the last rank; pawns move
      forward; a pawn changes column only to take an opponent piece or onto
      the en-passant square; only a pawn moving onto the en-passant square can
      land on an own piece. */
  predicate Generated(g: Grid, white: bool, ep: Option<Square>, m: Move)
    requires IsGrid(g)
  {
    MoveOnBoard(m) && !m.isCastling && !m.isCheck &&
    m.pieceMoved == g[m.startRow][m.startCol] && m.pieceCaptured == g[m.endRow][m.endCol] &&
    m.uci == UciOf(m.startRow, m.startCol, m.endRow, m.endCol, m.promoted) &&
    HasColor(m.pieceMoved, SideColor(white)) &&
    (m.promoted.Some? ==> IsPawn(m.pieceMoved) && m.endRow == LastRank(SideColor(white))) &&
    (IsPawn(m.pieceMoved) ==> PawnStep(SideColor(white), m.startRow, m.startCol, m.endRow, m.endCol)) &&
    (IsPawn(m.pieceMoved) && m.startCol != m.endCol && !HasColor(m.pieceCaptured, Opponent(SideColor(white))) ==>
       ep == Some((m.endRow, m.endCol))) &&
    (HasColor(m.pieceCaptured, SideColor(white)) ==> IsPawn(m.pieceMoved) && ep == Some((m.endRow, m.endCol)))
  }

  /** Every pseudo-legal move is a generated move of the side to move. */
  lemma PseudoLegalGenerated(g: Grid, white: bool, ep: Option<Square>)
    requires IsGrid(g)
    ensures forall m :: m in PseudoLegal(g, white, ep) ==> Generated(g, white, ep, m)
  {
    BoardGood(g, white, ep, 8);
    var ps := PseudoPlans(g, white, ep);
    forall m | m in PseudoLegal(g, white, ep)
      ensures Generated(g, white, ep, m)
    {
      InBuild(g, ps, m);
    }
  }

  // ---------------------------------------------------------------------
  // Attacks

  lemma PlansEndAtConcat(a: seq<Plan>, b: seq<Plan>, r: int, c: int)
    ensures PlansEndAt(a + b, r, c) <==> PlansEndAt(a, r, c) || PlansEndAt(b, r, c)
  {
    if PlansEndAt(a + b, r, c) {
      var p :| p in a + b && p.er == r && p.ec == c;
      assert p in a || p in b;
    }
    if PlansEndAt(a, r, c) {
      var p :| p in a && p.er == r && p.ec == c;
      assert p in a + b;
    }
    if PlansEndAt(b, r, c) {
      var p :| p in b && p.er == r && p.ec == c;
      assert p in a + b;
    }
  }

  lemma DiagonalEndsAtIgnoresEp(g: Grid, ep1: Option<Square>, ep2: Option<Square>, row: int, col: int, dc: int, r: int, c: int)
    requires Occupied(g, row, col)
    requires OnBoard(r, c) && HasColor(g[r][c], Opponent(ColorAt(g, row, col)))
    ensures PlansEndAt(PawnDiagonal(g, ep1, row, col, dc), r, c) == PlansEndAt(PawnDiagonal(g, ep2, row, col, dc), r, c)
  {
    var tr, tc := row + Forward(ColorAt(g, row, col)), col + dc;
    if (tr, tc) != (r, c) {
      if PlansEndAt(PawnDiagonal(g, ep1, row, col, dc), r, c) {
        var p :| p in PawnDiagonal(g, ep1, row, col, dc) && p.er == r && p.ec == c;
        DiagonalShape(g, ep1, row, col, dc, p);
      }
      if PlansEndAt(PawnDiagonal(g, ep2, row, col, dc), r, c) {
        var p :| p in PawnDiagonal(g, ep2, row, col, dc) && p.er == r && p.ec == c;
        DiagonalShape(g, ep2, row, col, dc, p);
      }
    }
  }

  /** The en-passant square cannot decide whether a pawn attacks a square that
      holds a piece of the pawn's opponent. */
  lemma PawnEndsAtIgnoresEp(g: Grid, ep1: Option<Square>, ep2: Option<Square>, row: int, col: int, r: int, c: int)
    requires Occupied(g, row, col)
    requires OnBoard(r, c) && HasColor(g[r][c], Opponent(ColorAt(g, row, col)))
    ensures PlansEndAt(PawnPlans(g, ep1, row, col), r, c) == PlansEndAt(PawnPlans(g, ep2, row, col), r, c)
  {
    var p := PawnPushes(g, row, col);
    PlansEndAtConcat(p + PawnDiagonal(g, ep1, row, col, -1), PawnDiagonal(g, ep1, row, col, 1), r, c);
    PlansEndAtConcat(p, PawnDiagonal(g, ep1, row, col, -1), r, c);
    PlansEndAtConcat(p + PawnDiagonal(g, ep2, row, col, -1), PawnDiagonal(g, ep2, row, col, 1), r, c);
    PlansEndAtConcat(p, PawnDiagonal(g, ep2, row, col, -1), r, c);
    DiagonalEndsAtIgnoresEp(g, ep1, ep2, row, col, -1, r, c);
    DiagonalEndsAtIgnoresEp(g, ep1, ep2, row, col, 1, r, c);
  }

  lemma PieceEndsAtIgnoresEp(g: Grid, white: bool, ep1: Option<Square>, ep2: Option<Square>, row: int, col: int, r: int, c: int)
    requires IsGrid(g) && OnBoard(row, col) && OnBoard(r, c) && HasColor(g[r][c], Opponent(SideColor(white)))
    ensures PlansEndAt(PiecePlans(g, white, ep1, row, col), r, c) == PlansEndAt(PiecePlans(g, white, ep2, row, col), r, c)
  {
    if g[row][col].Some? && g[row][col].value.color == SideColor(white) && g[row][col].value.kind == Pawn {
      PawnEndsAtIgnoresEp(g, ep1, ep2, row, col, r, c);
    }
  }

  lemma {:induction false} RowEndsAtIgnoresEp(g: Grid, white: bool, ep1: Option<Square>, ep2: Option<Square>, row: int, col: int, r: int, c: int)
    requires IsGrid(g) && 0 <= row < 8 && 0 <= col <= 8 && OnBoard(r, c) && HasColor(g[r][c], Opponent(SideColor(white)))
    ensures PlansEndAt(RowPlans(g, white, ep1, row, col), r, c) == PlansEndAt(RowPlans(g, white, ep2, row, col), r, c)
  {
    if col > 0 {
      RowEndsAtIgnoresEp(g, white, ep1, ep2, row, col - 1, r, c);
      PieceEndsAtIgnoresEp(g, white, ep1, ep2, row, col - 1, r, c);
      PlansEndAtConcat(RowPlans(g, white, ep1, row, col - 1), PiecePlans(g, white, ep1, row, col - 1), r, c);
      PlansEndAtConcat(RowPlans(g, white, ep2, row, col - 1), PiecePlans(g, white, ep2, row, col - 1), r, c);
    }
  }

  lemma {:induction false} BoardEndsAtIgnoresEp(g: Grid, white: bool, ep1: Option<Square>, ep2: Option<Square>, row: int, r: int, c: int)
    requires IsGrid(g) && 0 <= row <= 8 && OnBoard(r, c) && HasColor(g[r][c], Opponent(SideColor(white)))
    ensures PlansEndAt(BoardPlans(g, white, ep1, row), r, c) == PlansEndAt(BoardPlans(g, white, ep2, row), r, c)
  {
    if row > 0 {
      BoardEndsAtIgnoresEp(g, white, ep1, ep2, row - 1, r, c);
      RowEndsAtIgnoresEp(g, white, ep1, ep2, row - 1, 8, r, c);
      PlansEndAtConcat(BoardPlans(g, white, ep1, row - 1), RowPlans(g, white, ep1, row - 1, 8), r, c);
      PlansEndAtConcat(BoardPlans(g, white, ep2, row - 1), RowPlans(g, white, ep2, row - 1, 8), r, c);
    }
  }

  /** Whether a square holding a piece of the side to move is attacked does
      not depend on the en-passant square. */
  lemma AttackedIgnoresEp(g: Grid, white: bool, ep1: Option<Square>, ep2: Option<Square>, r: int, c: int)
    requires IsGrid(g) && OnBoard(r, c) && HasColor(g[r][c], SideColor(white))
    ensures Attacked(g, white, ep1, r, c) == Attacked(g, white, ep2, r, c)
  {
    assert Opponent(SideColor(!white)) == SideColor(white);
    AttackedIff(g, white, ep1, r, c);
    AttackedIff(g, white, ep2, r, c);
    BoardEndsAtIgnoresEp(g, !white, ep1, ep2, 8, r, c);
    EndsAtBuild(g, PseudoPlans(g, !white, ep1), r, c);
    EndsAtBuild(g, PseudoPlans(g, !white, ep2), r, c);
  }

  // ---------------------------------------------------------------------
  // Castling

  /** Castling plans are king moves two columns along the row; each wing's
      plan is offered exactly when the king is not attacked, the wing's letter
      is held and both squares towards the rook are empty and not attacked. */
  lemma CastlingConditions(g: Grid, white: bool, ep: Option<Square>, rights: string, row: int, col: int)
    requires IsGrid(g) && OnBoard(row, col)
    ensures var ps := CastlingPlans(g, white, ep, rights, row, col);
      (forall p :: p in ps ==> p.castling && p.promoted.None? && p.sr == row && p.er == row && p.sc == col &&
                               (p.ec == col + 2 || p.ec == col - 2) && g[row][p.ec].None?) &&
      (Plan(row, col, row, col + 2, None, true) in ps <==>
         !Attacked(g, white, ep, row, col) && RightLetter(white, true) in rights && WingClear(g, white, ep, row, col, 1)) &&
      (Plan(row, col, row, col - 2, None, true) in ps <==>
         !Attacked(g, white, ep, row, col) && RightLetter(white, false) in rights && WingClear(g, white, ep, row, col, -1))
  {
    WingShape(g, white, ep, rights, row, col, true);
    WingShape(g, white, ep, rights, row, col, false);
    if !Attacked(g, white, ep, row, col) {
      var king, queen := WingPlans(g, white, ep, rights, row, col, true), WingPlans(g, white, ep, rights, row, col, false);
      assert CastlingPlans(g, white, ep, rights, row, col) == king + queen;
    }
  }

  /** A wing offers at most its one castling plan, onto an empty square, and
      offers it exactly when its letter is held and the wing is clear. */
  lemma WingShape(g: Grid, white: bool, ep: Option<Square>, rights: string, row: int, col: int, kingside: bool)
    requires IsGrid(g) && OnBoard(row, col)
    ensures var step := if kingside then 1 else -1;
      var ps := WingPlans(g, white, ep, rights, row, col, kingside);
      (forall p :: p in ps ==> p == Plan(row, col, row, col + 2 * step, None, true) && g[row][col + 2 * step].None?) &&
      (Plan(row, col, row, col + 2 * step, None, true) in ps <==>
         RightLetter(white, kingside) in rights && WingClear(g, white, ep, row, col, step))
  {
  }
}
