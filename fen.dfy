// The FEN codec of src/modules/board.py: `fen_to_board` and `board_to_fen`.
module Fen {
  import opened Base
  import opened Pieces
  import opened Moves
  import opened Strings
  import opened Castling

  datatype FenError = MissingField | BadEnPassant | BadNumber

  /** The six things `fen_to_board` returns (the castling string is kept raw). */
  datatype FenRecord = FenRecord(
    grid: Grid, whiteToMove: bool, castling: string,
    enPassant: Option<Square>, halfmove: int, fullmove: int)

  /** `piece_to_fen`: upper case for White, lower case for Black. */
  function FenLetter(p: Piece): (ch: char)
    ensures !IsDigit(ch) && ch != '/' && !IsSpace(ch)
  {
    match (p.color, p.kind)
    case (White, Pawn) => 'P'
    case (White, Knight) => 'N'
    case (White, Bishop) => 'B'
    case (White, Rook) => 'R'
    case (White, Queen) => 'Q'
    case (White, King) => 'K'
    case (Black, Pawn) => 'p'
    case (Black, Knight) => 'n'
    case (Black, Bishop) => 'b'
    case (Black, Rook) => 'r'
    case (Black, Queen) => 'q'
    case (Black, King) => 'k'
  }

  /** `fen_symbols.get(char, '--')`: an unknown letter becomes an empty square. */
  function FenSymbol(ch: char): (c: Cell)
    ensures c.Some? ==> FenLetter(c.value) == ch
  {
    match ch
    case 'P' => Some(Piece(White, Pawn))
    case 'N' => Some(Piece(White, Knight))
    case 'B' => Some(Piece(White, Bishop))
    case 'R' => Some(Piece(White, Rook))
    case 'Q' => Some(Piece(White, Queen))
    case 'K' => Some(Piece(White, King))
    case 'p' => Some(Piece(Black, Pawn))
    case 'n' => Some(Piece(Black, Knight))
    case 'b' => Some(Piece(Black, Bishop))
    case 'r' => Some(Piece(Black, Rook))
    case 'q' => Some(Piece(Black, Queen))
    case 'k' => Some(Piece(Black, King))
    case _ => None
  }

  lemma SymbolOfLetter(p: Piece)
    ensures FenSymbol(FenLetter(p)) == Some(p)
  {
  }

  function Empties(n: nat): (r: seq<Cell>)
    ensures |r| == n && forall i :: 0 <= i < n ==> r[i].None?
  {
    if n == 0 then [] else [None] + Empties(n - 1)
  }

  /** One character of a rank: a digit d gives d empty squares, anything else
      one square from the symbol table. */
  function DecodeChar(ch: char): seq<Cell>
  {
    if IsDigit(ch) then Empties(DigitValue(ch)) else [FenSymbol(ch)]
  }

  /** The inner loop of `fen_to_board` over one rank's characters. */
  function DecodeRank(s: string): seq<Cell>
  {
    if s == [] then [] else DecodeChar(s[0]) + DecodeRank(s[1..])
  }

  lemma {:induction false} DecodeRankAppend(a: string, b: string)
    ensures DecodeRank(a + b) == DecodeRank(a) + DecodeRank(b)
    decreases |a|
  {
    if a == [] {
      assert a + b == b;
    } else {
      assert (a + b)[0] == a[0] && (a + b)[1..] == a[1..] + b;
      DecodeRankAppend(a[1..], b);
    }
  }

  lemma DecodeRankSnoc(row: string, j: nat)
    requires j < |row|
    ensures DecodeRank(row[..j + 1]) == DecodeRank(row[..j]) + DecodeChar(row[j])
  {
    DecodeRankAppend(row[..j], [row[j]]);
    assert row[..j + 1] == row[..j] + [row[j]];
    assert DecodeRank([row[j]]) == DecodeChar(row[j]) + DecodeRank([]);
  }

  /** The outer loop of `fen_to_board`: one grid row per '/'-separated piece; the
      number of ranks and their lengths are not checked. */
  function DecodePlacement(rows: seq<string>): seq<seq<Cell>>
  {
    seq(|rows|, i requires 0 <= i < |rows| => DecodeRank(rows[i]))
  }

  lemma PlacementSnoc(rows: seq<string>, i: nat)
    requires i < |rows|
    ensures DecodePlacement(rows)[..i + 1] == DecodePlacement(rows)[..i] + [DecodeRank(rows[i])]
  {
    var d := DecodePlacement(rows);
    assert forall k :: 0 <= k < i + 1 ==> d[..i + 1][k] == (d[..i] + [DecodeRank(rows[i])])[k];
  }

  /** The en-passant field: "-" or file letter and rank digit; extra characters
      are ignored, a short field or a non-digit rank is an error. */
  function ParseEnPassant(tok: string): Result<Option<Square>, FenError>
  {
    if tok == "-" then Ok(None)
    else if |tok| < 2 || !IsDigit(tok[1]) then Err(BadEnPassant)
    else Ok(Some((8 - DigitValue(tok[1]), tok[0] as int - 'a' as int)))
  }

  /** `fen_to_board` */
  function DecodeFen(fen: string): Result<FenRecord, FenError>
  {
    var sections := Tokens(fen);
    if |sections| < 6 then Err(MissingField)
    else
      var ep := ParseEnPassant(sections[3]);
      var half := ParseInt(sections[4]);
      var full := ParseInt(sections[5]);
      if ep.Err? then Err(BadEnPassant)
      else if half.None? || full.None? then Err(BadNumber)
      else Ok(FenRecord(DecodePlacement(SplitOn(sections[0], '/')), sections[1] == "w",
                        sections[2], ep.value, half.value, full.value))
  }

  /** The inner loop of `board_to_fen` from square `i` on, with `empty` empty
      squares counted and not yet written. */
  function EncodeRankFrom(row: seq<Cell>, i: nat, empty: nat): string
    requires i <= |row|
    decreases |row| - i
  {
    if i == |row| then (if empty > 0 then NatStr(empty) else "")
    else if row[i].None? then EncodeRankFrom(row, i + 1, empty + 1)
    else (if empty > 0 then NatStr(empty) else "") + [FenLetter(row[i].value)] + EncodeRankFrom(row, i + 1, 0)
  }

  function EncodeRank(row: seq<Cell>): string
  {
    EncodeRankFrom(row, 0, 0)
  }

  function EncodePlacement(g: Grid): string
  {
    Join(seq(|g|, i requires 0 <= i < |g| => EncodeRank(g[i])), '/')
  }

  /** `str(n)` of a run count of at most nine: a single digit. */
  lemma SmallNatStr(n: nat)
    requires 0 < n < 10
    ensures NatStr(n) == [DigitChar(n)]
  {
  }

  lemma {:induction false} EncodeRankFromChars(row: seq<Cell>, i: nat, empty: nat)
    requires i <= |row| && empty + |row| - i < 10
    ensures var s := EncodeRankFrom(row, i, empty);
            NoChar(s, '/') && NoSpace(s) && (empty + |row| - i > 0 ==> |s| >= 1)
    decreases |row| - i
  {
    if i < |row| {
      if row[i].None? {
        EncodeRankFromChars(row, i + 1, empty + 1);
      } else {
        EncodeRankFromChars(row, i + 1, 0);
        if empty > 0 { SmallNatStr(empty); }
      }
    } else if empty > 0 {
      SmallNatStr(empty);
    }
  }

  /** The run count the encoder writes before a piece or at the end of the
      rank decodes to that many empty squares. */
  lemma PendingRoundTrip(empty: nat)
    requires empty < 10
    ensures DecodeRank(if empty > 0 then NatStr(empty) else "") == Empties(empty)
  {
    if empty > 0 {
      SmallNatStr(empty);
      assert DecodeRank([DigitChar(empty)]) == DecodeChar(DigitChar(empty)) + DecodeRank([]);
    }
  }

  lemma EmptiesSnoc(n: nat)
    ensures Empties(n + 1) == Empties(n) + [None]
  {
    assert forall k :: 0 <= k < n + 1 ==> Empties(n + 1)[k] == (Empties(n) + [None])[k];
  }

  /** The encoder meets a piece at square `i`: it writes the pending count,
      the piece's letter and the rest of the rank. */
  lemma PieceRoundTrip(row: seq<Cell>, i: nat, empty: nat)
    requires i < |row| && row[i].Some? && empty < 10
    requires DecodeRank(EncodeRankFrom(row, i + 1, 0)) == row[i + 1..]
    ensures DecodeRank(EncodeRankFrom(row, i, empty)) == Empties(empty) + row[i..]
  {
    var pending := if empty > 0 then NatStr(empty) else "";
    var letter := [FenLetter(row[i].value)];
    var rest := EncodeRankFrom(row, i + 1, 0);
    assert EncodeRankFrom(row, i, empty) == pending + letter + rest;
    PendingRoundTrip(empty);
    DecodeRankAppend(pending + letter, rest);
    DecodeRankAppend(pending, letter);
    SymbolOfLetter(row[i].value);
    assert DecodeRank(letter) == [row[i]] + DecodeRank([]);
    assert row[i..] == [row[i]] + row[i + 1..];
  }

  /** Decoding what the encoder wrote from square `i` on, with `empty` pending
      empty squares, yields those empty squares and the rest of the rank. */
  lemma {:induction false} EncodeRankFromRoundTrip(row: seq<Cell>, i: nat, empty: nat)
    requires i <= |row| && empty + |row| - i < 10
    ensures DecodeRank(EncodeRankFrom(row, i, empty)) == Empties(empty) + row[i..]
    decreases |row| - i
  {
    if i == |row| {
      PendingRoundTrip(empty);
    } else if row[i].None? {
      EncodeRankFromRoundTrip(row, i + 1, empty + 1);
      EmptiesSnoc(empty);
      assert row[i..] == [row[i]] + row[i + 1..];
    } else {
      EncodeRankFromRoundTrip(row, i + 1, 0);
      PieceRoundTrip(row, i, empty);
    }
  }

  /** Each rank of a well-formed grid decodes back from its encoding. */
  lemma RankRoundTrip(row: seq<Cell>)
    requires |row| == 8
    ensures DecodeRank(EncodeRank(row)) == row
  {
    EncodeRankFromRoundTrip(row, 0, 0);
    assert Empties(0) + row[0..] == row;
  }

  /** Decoding the placement field of a well-formed grid reproduces the grid. */
  lemma PlacementRoundTrip(g: Grid)
    requires IsGrid(g)
    ensures DecodePlacement(SplitOn(EncodePlacement(g), '/')) == g
    ensures |EncodePlacement(g)| >= 1 && NoSpace(EncodePlacement(g))
  {
    var rows := seq(|g|, i requires 0 <= i < |g| => EncodeRank(g[i]));
    forall k | 0 <= k < 8
      ensures NoChar(rows[k], '/') && NoSpace(rows[k]) && |rows[k]| >= 1
    {
      EncodeRankFromChars(g[k], 0, 0);
    }
    SplitJoin(rows, '/');
    var d := DecodePlacement(rows);
    forall k | 0 <= k < 8
      ensures d[k] == g[k]
    {
      RankRoundTrip(g[k]);
    }
    JoinChars(rows, '/');
  }

  lemma {:induction false} JoinChars(parts: seq<string>, sep: char)
    requires |parts| >= 1 && |parts[0]| >= 1 && !IsSpace(sep)
    requires forall k :: 0 <= k < |parts| ==> NoSpace(parts[k])
    ensures |Join(parts, sep)| >= 1 && NoSpace(Join(parts, sep))
    decreases |parts|
  {
    if |parts| > 1 {
      if |parts[1..][0]| >= 1 {
        JoinChars(parts[1..], sep);
      } else {
        JoinEmptyHeadChars(parts[1..], sep);
      }
    }
  }

  lemma {:induction false} JoinEmptyHeadChars(parts: seq<string>, sep: char)
    requires |parts| >= 1 && !IsSpace(sep)
    requires forall k :: 0 <= k < |parts| ==> NoSpace(parts[k])
    ensures NoSpace(Join(parts, sep))
    decreases |parts|
  {
    if |parts| > 1 {
      JoinEmptyHeadChars(parts[1..], sep);
    }
  }

  /** The en-passant field `board_to_fen` writes. */
  function EnPassantText(ep: Option<Square>): (t: string)
    requires ep.Some? ==> OnBoard(ep.value.0, ep.value.1)
  {
    if ep.Some? then SquareName(ep.value.0, ep.value.1) else "-"
  }

  lemma EnPassantRoundTrip(ep: Option<Square>)
    requires ep.Some? ==> OnBoard(ep.value.0, ep.value.1)
    ensures ParseEnPassant(EnPassantText(ep)) == Ok(ep)
  {
  }

  /** The six fields `board_to_fen` joins with spaces. */
  function FenFields(g: Grid, white: bool, castling: string, ep: Option<Square>,
                     halfmove: int, fullmove: int): seq<string>
    requires ep.Some? ==> OnBoard(ep.value.0, ep.value.1)
  {
    [EncodePlacement(g), if white then "w" else "b", RightsText(castling),
     EnPassantText(ep), IntStr(halfmove), IntStr(fullmove)]
  }

  /** `board_to_fen` */
  function EncodeFen(g: Grid, white: bool, castling: string, ep: Option<Square>,
                     halfmove: int, fullmove: int): string
    requires ep.Some? ==> OnBoard(ep.value.0, ep.value.1)
  {
    Join(FenFields(g, white, castling, ep, halfmove, fullmove), ' ')
  }

  /** Decoding the encoding of a well-formed position reproduces its grid, side
      to move, castling string ("-" when empty), en-passant square and clocks. */
  lemma FenRoundTrip(g: Grid, white: bool, castling: string, ep: Option<Square>,
                     halfmove: int, fullmove: int)
    requires IsGrid(g) && NoSpace(castling)
    requires ep.Some? ==> OnBoard(ep.value.0, ep.value.1)
    ensures DecodeFen(EncodeFen(g, white, castling, ep, halfmove, fullmove)) ==
            Ok(FenRecord(g, white, RightsText(castling), ep, halfmove, fullmove))
  {
    var fields := FenFields(g, white, castling, ep, halfmove, fullmove);
    PlacementRoundTrip(g);
    assert NoSpace(fields[2]) && NoSpace(fields[3]);
    TokensJoin(fields);
    EnPassantRoundTrip(ep);
    IntStrRoundTrip(halfmove);
    IntStrRoundTrip(fullmove);
  }

  /** `fen_to_board` */
  method FenToBoard(fen: string) returns (r: Result<FenRecord, FenError>)
    ensures r == DecodeFen(fen)
  {
    var sections := Tokens(fen);
    if |sections| < 6 {
      return Err(MissingField);
    }
    var board := RowsToGrid(SplitOn(sections[0], '/'));
    var ep := ParseEnPassant(sections[3]);
    var half := ParseInt(sections[4]);
    var full := ParseInt(sections[5]);
    if ep.Err? {
      return Err(BadEnPassant);
    }
    if half.None? || full.None? {
      return Err(BadNumber);
    }
    r := Ok(FenRecord(board, sections[1] == "w", sections[2], ep.value, half.value, full.value));
  }

  /** The loops of `fen_to_board` over the ranks and their characters. */
  method RowsToGrid(rows: seq<string>) returns (board: seq<seq<Cell>>)
    ensures board == DecodePlacement(rows)
  {
    board := [];
    var i := 0;
    while i < |rows|
      invariant 0 <= i <= |rows|
      invariant board == DecodePlacement(rows)[..i]
    {
      var row := rows[i];
      var boardRow: seq<Cell> := [];
      var j := 0;
      while j < |row|
        invariant 0 <= j <= |row|
        invariant boardRow == DecodeRank(row[..j])
      {
        DecodeRankSnoc(row, j);
        if IsDigit(row[j]) {
          boardRow := boardRow + Empties(DigitValue(row[j]));
        } else {
          boardRow := boardRow + [FenSymbol(row[j])];
        }
        j := j + 1;
      }
      assert row[..j] == row;
      PlacementSnoc(rows, i);
      board := board + [boardRow];
      i := i + 1;
    }
    assert DecodePlacement(rows)[..i] == DecodePlacement(rows);
  }

  /** The placement part of `board_to_fen`: one string per row, built with a
      running count of empty squares, then joined with '/'. */
  method PlacementToFen(g: Grid) returns (placement: string)
    ensures placement == EncodePlacement(g)
  {
    var pieces: seq<string> := [];
    var i := 0;
    while i < |g|
      invariant 0 <= i <= |g|
      invariant pieces == seq(i, k requires 0 <= k < i => EncodeRank(g[k]))
    {
      var row := g[i];
      var fenRow := "";
      var emptyCount := 0;
      var j := 0;
      while j < |row|
        invariant 0 <= j <= |row|
        invariant fenRow + EncodeRankFrom(row, j, emptyCount) == EncodeRank(row)
      {
        if row[j].None? {
          emptyCount := emptyCount + 1;
        } else {
          if emptyCount > 0 {
            fenRow := fenRow + NatStr(emptyCount);
            emptyCount := 0;
          }
          fenRow := fenRow + [FenLetter(row[j].value)];
        }
        j := j + 1;
      }
      if emptyCount > 0 {
        fenRow := fenRow + NatStr(emptyCount);
      } else {
        assert fenRow + "" == fenRow;
      }
      assert fenRow == EncodeRank(g[i]);
      pieces := pieces + [fenRow];
      assert forall k :: 0 <= k < i + 1 ==> pieces[k] == EncodeRank(g[k]);
      i := i + 1;
    }
    placement := Join(pieces, '/');
  }
}
