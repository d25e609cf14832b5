# Chess board core in Dafny

This project models the game logic of a Python chess program: the `Board`
class of `src/modules/board.py` and the `Move` class of
`src/modules/move.py`.

The board keeps:
- an 8×8 array of two-character piece codes (`"wK"`, `"bp"`, `"--"`);
- the side to move;
- a castling-rights object with an undo log;
- the en-passant square;
- the half-move clock and the full-move number;
- a log of moves and a log of FEN position keys;
- a cache of the two king squares;
- the checkmate and draw flags;
- the current list of legal moves.

It does the following:
- loads a position from FEN and writes it back;
- generates pseudo-legal moves piece by piece, plus castling;
- detects attacked squares and check;
- filters the candidates down to the legal moves by making and taking back each one, and marks the moves that give check;
- plays a legal move with the end-of-game tests (mate, stalemate, fifty-move rule, threefold repetition);
- undoes moves.

A `Move` records its squares, the moved and captured pieces, a promotion
and a castling flag. It also records its UCI string and its SAN string. Two
moves are equal when their UCI strings are.

The model is layered as follows:

| module (file) | what it holds |
|---|---|
| `Base` (base.dfy) | `Option` and `Result` |
| `Pieces` (pieces.dfy) | colours, kinds, cells, the 8×8 grid, the two-character piece code |
| `Moves` (move.dfy) | the `Move` value, `Move.__init__`, `coordinates_to_uci`, `get_san`, `__eq__` |
| `Castling` (castling.dfy) | the `Castling_Rights` class (string and log, updated in place) and the functions that specify it |
| `Strings` (strings.dfy) | `str.split`, `str.split()`, `sep.join`, `str(int)`, `int(str)` |
| `Fen` (fen.dfy) | `fen_to_board` and `board_to_fen` as functions, their loops as methods, and the round trip |
| `Rules` (rules.dfy) | the move generators as lists of planned `Move(...)` calls, `square_under_attack`, and castling |
| `Position` (position.dfy) | the Board's attributes as a `State` value, and what the imperative methods do to that value: make, undo, the king cache, check, the legal-move filter and the check annotation |
| `Game` (game.dfy) | the constructor, `make_legal_move` with its end-of-game tests, and `undo_move` as the user calls it |
| `Boards` (boards.dfy) | the `Board` class itself |

In `Boards`, the fields are updated in place and every method is proved
against the `State` functions above through `Model()`.

Modelling choices:
- A square is `Option<Piece>` (`None` is `"--"`). The two-character code is kept as `PieceCode` wherever the source compares codes.
- Rows count from the top: row 0 is the eighth rank.
- Python's negative list index is modelled where the source can produce one (`Wrap`).
- The half-move clock is a `real`, because `undo_move` subtracts `0.5`.
- `Move` objects are values. The source assigns `is_check` and `san` onto the object in the legal-move list. Here `WithCheck` and `MarkMate` return the updated move.
- The three defects under "## Findings" are modelled both as written and corrected. The generators, the make/undo state machine and the `Board` class run the corrected versions, so on positions that meet a defect they do not behave as the source does. "## Left out" names each member this affects.

## Model

| member | source | states |
|---|---|---|
| Pieces.Put | src/modules/board.py:358-359 | writing one cell of the board array changes that cell and no other |
| Pieces.PieceCodeInjective | src/modules/board.py:260-296 | the two-character piece codes of different cells differ, so comparing codes compares cells |
| Moves.FileChar | src/modules/move.py:24-25 | `file_map`: column c is the letter `'a' + c` |
| Moves.RankChar | src/modules/move.py:24-25 | `rank_map`: row r is the digit `'8' - r` |
| Moves.SquareNameInjective | src/modules/move.py:89-105 | two squares have the same algebraic name exactly when they are the same square |
| Moves.UciOf | src/modules/move.py:89-105 | a UCI string has 4 characters, plus one for a promotion |
| Moves.UciInjective | src/modules/move.py:89-105 | two UCI strings are equal exactly when the end squares and the promotion piece are equal and the start squares agree: the whole square for a plain move, only the file for a promotion, whose string leaves out the start rank |
| Moves.NewMove | src/modules/move.py:27-55 | a new move copies the moved and captured cells of the grid, keeps its squares, promotion and castling flag, has no check, carries the UCI string of its squares and the SAN computed from the move itself |
| Moves.SameMoveIffSameSquares | src/modules/move.py:68-78 | two constructed moves are `==` exactly when they have the same end square and promotion and the same start square for a plain move, or the same start file for a promotion, whatever the board or the castling flag |
| Moves.WithCheck | src/modules/board.py:559-560 | setting `is_check` keeps the move equal to itself, changes nothing but the flag and the SAN, and the SAN is recomputed for the new flag |
| Moves.PawnSan | src/modules/move.py:107-130 | a pawn's SAN is `<from-file>x` on a capture or a diagonal move, then the destination, then `=<piece>` on promotion, then `+` exactly when it gives check |
| Moves.PawnBody | src/modules/move.py:114-117 | the pawn branch of the SAN, read off the move's UCI string |
| Moves.CastlingSan | src/modules/move.py:119-128 | castling is `O-O` towards higher columns and `O-O-O` otherwise, then `+` when it gives check |
| Moves.PieceSan | src/modules/move.py:122-128 | any other move is the piece letter, `x` exactly on a capture, then the destination square |
| Moves.SanCheckMarker | src/modules/move.py:127-130 | the SAN ends in `+` exactly when the move is marked as giving check |
| Castling.RemoveChar | src/modules/board.py:156-159 | `str.replace(ch, '')` keeps exactly the characters other than `ch`, and returns a string without `ch` unchanged |
| Castling.RemoveCharAppend | src/modules/board.py:156-159 | removal works on each part of the string separately, so the kept characters keep their order |
| Castling.RemoveAll | src/modules/board.py:156-159 | `remove_rights` keeps exactly the letters not listed, and returns a string holding none of them unchanged |
| Castling.RemoveAllAppend | src/modules/board.py:156-159 | removing several letters works on each part of the string separately, so the order is kept |
| Castling.UpdatedRights | src/modules/board.py:161-178 | a king move drops both letters of its colour; a rook leaving column 7 or 0 drops the king-side or queen-side letter of its colour; any other move, and any move that takes away no letter held, keeps the string |
| Castling.UpdatedRightsAppend | src/modules/board.py:161-178 | `update` works on each part of the rights string separately, so the letters it keeps stay in order |
| Castling.UndoAfterUpdate | src/modules/board.py:161-185 | `undo_castling_rights` right after `update` restores the string and the log |
| Castling.RightsText | src/modules/board.py:187-188 | `__str__` is `-` when no right is left and the string itself otherwise, so it is never empty |
| Castling.CastlingRights.constructor | src/modules/board.py:139-150 | the rights start as the given string, with a log holding that string |
| Castling.CastlingRights.RemoveRights | src/modules/board.py:156-159 | the string loses the listed letters and the log is untouched |
| Castling.CastlingRights.Update | src/modules/board.py:161-178 | the string is revoked per `UpdatedRights`, and exactly the new string is appended to the log |
| Castling.CastlingRights.UndoRights | src/modules/board.py:180-185 | pops the log, and takes the new last entry as the string when one is left |
| Strings.DigitChar | src/modules/board.py:270-309 | a digit character reads back as the digit it was made from |
| Strings.NatStrRoundTrip | src/modules/board.py:309-313 | the digits `str(n)` writes read back as n |
| Strings.IntStrRoundTrip | src/modules/board.py:277-281 | `int(str(i)) == i` for every integer |
| Strings.SplitJoin | src/modules/board.py:257-317 | splitting a `/`-join of `/`-free parts on `/` gives the parts back |
| Strings.TokensJoin | src/modules/board.py:253-329 | `split()` of a space-join of non-empty, whitespace-free fields gives the fields back |
| Strings.TokensFromClean | src/modules/board.py:253 | every field `split()` returns is non-empty and holds no whitespace |
| Fen.FenLetter | src/modules/board.py:293-297 | a piece letter is not a digit, `/` or whitespace, so it cannot be misread as a run count or separator |
| Fen.FenSymbol | src/modules/board.py:260-273 | a letter the table knows decodes to the piece whose letter it is; an unknown letter is an empty square |
| Fen.SymbolOfLetter | src/modules/board.py:260-297 | decoding a piece's letter gives the piece back |
| Fen.DecodeRankAppend | src/modules/board.py:268-274 | decoding a rank string is decoding its parts one after the other |
| Fen.EncodeRankFromChars | src/modules/board.py:300-314 | the encoded rank is non-empty, and is free of `/` and whitespace |
| Fen.EncodeRankFromRoundTrip | src/modules/board.py:300-314 | decoding what the rank encoder writes from square i, with k empties pending, gives k empty cells then the rest of the row |
| Fen.RankRoundTrip | src/modules/board.py:266-314 | every 8-cell rank decodes back from its encoding |
| Fen.PlacementRoundTrip | src/modules/board.py:256-317 | the placement field of any 8×8 grid decodes back to the grid |
| Fen.EnPassantRoundTrip | src/modules/board.py:279-326 | the en-passant field written for a square on the board, or for none, parses back to it |
| Fen.FenRoundTrip | src/modules/board.py:235-331 | `fen_to_board(board_to_fen(...))` returns the grid, side to move, castling string, en-passant square and both clocks that were written |
| Fen.FenToBoard | src/modules/board.py:235-283 | the method's result is the decoding `DecodeFen`, including its error cases |
| Fen.RowsToGrid | src/modules/board.py:266-274 | the nested loops build exactly the decoded placement |
| Fen.PlacementToFen | src/modules/board.py:300-317 | the loops over rows and squares build exactly the encoded placement |
| Rules.MoveOf | src/modules/board.py:603-795 | the move built for a plan is `Move(...)` on the current grid: its squares, promotion, castling flag, pieces and UCI |
| Rules.Build | src/modules/board.py:603-795 | the moves built for a list of plans match the plans one for one, in order |
| Rules.BuildConcat | src/modules/board.py:522-538 | building the moves of two lists of plans one after the other is building the concatenation |
| Rules.InBuild | src/modules/board.py:522-538 | a move is in the built list exactly when it is the move of one of its plans |
| Rules.Toward | src/modules/board.py:651-653 | the plain plans toward the listed squares, one for one |
| Rules.Promotions | src/modules/board.py:606-610 | the four promotion plans Q, N, R, B to the same square, in that order |
| Rules.InPromotions | src/modules/board.py:606-610 | the promotion plans are the four variants and nothing else |
| Rules.PseudoPlans | src/modules/board.py:522-538 | every plan of `get_psuedo_legal_moves` stays on the board |
| Rules.EndsAtBuild | src/modules/board.py:515-519 | some built move lands on (r, c) exactly when some plan does |
| Rules.LandsFromEndsAt | src/modules/board.py:515-519 | the loop of `square_under_attack` returns True exactly when some move from index i on lands on the square |
| Rules.AttackedIff | src/modules/board.py:502-520 | a square is attacked exactly when a pseudo-legal move of the other side lands on it |
| Rules.RayWalk | src/modules/board.py:647-657 | a sliding ray is an unbroken stretch of its line from the first square, empty everywhere except maybe its last square |
| Rules.RayBlocked | src/modules/board.py:647-657 | a ray stops only at the board edge, on an opponent piece, or just before an own piece |
| Rules.RayEnterable | src/modules/board.py:647-657 | every square of a ray is on the board and empty or held by the opponent |
| Rules.SlidePlain | src/modules/board.py:631-709 | rook, bishop and queen plans are plain moves of the piece onto empty or opponent squares |
| Rules.StepsPlain | src/modules/board.py:711-759 | knight and king plans are plain moves onto empty or opponent squares |
| Rules.StepsExact | src/modules/board.py:711-759 | a knight or king plan to (r, c) exists exactly when (r, c) is one of its offsets, on the board, and empty or held by the opponent |
| Rules.PushShape | src/modules/board.py:603-614 | pushes go straight onto empty squares: one row, promoting exactly on the source's promotion test, or two rows from the home rank over an empty square |
| Rules.DiagonalShape | src/modules/board.py:617-627 | a diagonal move goes one row forward and one column aside: a capture (promoting on the promotion test), or a non-promoting move onto the en-passant square |
| Rules.PromotionOnLastRank | src/modules/board.py:606-627 | only a pawn move onto the pawn's last rank promotes |
| Rules.PushPromotes | src/modules/board.py:603-610 | with the corrected guard, a pawn one step from its last rank with the square ahead empty gets exactly the four promotion pushes, for both colours |
| Rules.WhitePushToLastRankBlocked | src/modules/board.py:603 | as written, a white pawn on row 1 with an empty square ahead gets no push at all; the corrected generator offers the four promotions |
| Rules.DiagonalPromotes | src/modules/board.py:617-623 | a capture from one step before the last rank is the four promotion variants |
| Rules.PawnPromotion | src/modules/board.py:582-629 | a pawn move to the last rank, straight or capturing, promotes, and all four promotion kinds are offered |
| Rules.DoubleStep | src/modules/board.py:613-614 | a two-row pawn move exists exactly when the pawn is on its home rank and both squares ahead are empty |
| Rules.DiagonalNeedsCaptureOrEnPassant | src/modules/board.py:617-627 | a diagonal pawn move that takes no opponent piece goes to the en-passant square and does not promote |
| Rules.PseudoLegalGenerated | src/modules/board.py:522-538 | every pseudo-legal move is a move of a piece of the side to move from its square, onto an empty or opponent square, pawn moves having a pawn's shape |
| Rules.AttackedIgnoresEp | src/modules/board.py:502-520 | whether a square holding a piece of the side to move is attacked does not depend on the en-passant square |
| Rules.CastlingConditions | src/modules/board.py:761-795 | castling plans are king moves two columns along the row; each wing is offered exactly when the king is not attacked, the letter is held, and both squares toward the rook are empty and not attacked |
| Rules.WingShape | src/modules/board.py:783-793 | one wing offers at most its one plan, and offers it exactly when its letter is held and the wing is clear |
| Position.KingLocations | src/modules/board.py:473-488 | the squares the king cache reports are on the board |
| Position.KingLocationsSound | src/modules/board.py:473-488 | a reported square holds the king of that colour, and a king on the board is always found |
| Position.KingLocationsSameKings | src/modules/board.py:473-488 | grids with the kings on the same squares give the same cache |
| Position.GridRoundTrip | src/modules/board.py:335-466 | with the en-passant restore guarded as intended, taking back a generated move restores the grid it was made on |
| Position.RestoreAsWrittenIsDead | src/modules/board.py:454-457 | the en-passant restore as written never runs: a pawn moving two rows never changes column |
| Position.EnPassantUndoLosesPawn | src/modules/board.py:454-457 | as written, taking back an en-passant capture leaves the taken pawn's square empty, so the grid differs from the original |
| Position.Make | src/modules/board.py:335-375 | `_make_psuedo_legal_move` appends the move to the log and keeps the state well formed |
| Position.MakeInStages | src/modules/board.py:347-373 | making a move is logging it, placing the pieces, then promoting, updating the rights and moving the castling rook, in that order |
| Position.Revert | src/modules/board.py:436-466 | `undo_move(in_engine=True)` pops the move log, gives the turn and the full move back, and leaves the FEN log and the clock alone; an empty log changes nothing |
| Position.RevertInStages | src/modules/board.py:443-466 | taking back is unplacing the last move, then re-reading the kings, rolling the rights back and restoring the squares |
| Position.RevertMake | src/modules/board.py:335-466 | making a generated move and taking it back restores the whole state, except that the en-passant square is the one the undo derives and the end flags are cleared |
| Position.ActiveKing | src/modules/board.py:490-500 | the cached king square of the side to move is on the board |
| Position.InCheckIgnoresEp | src/modules/board.py:490-500 | being in check does not depend on the en-passant square |
| Position.MakeKingsHeld | src/modules/board.py:360 | after a generated move, both cached king squares hold a king of their colour |
| Position.MakeSimilar | src/modules/board.py:335-375 | making a move does not read the en-passant square or the end flags |
| Position.ExposesAndChecksIgnoreEp | src/modules/board.py:547-575 | the exposure and gives-check tests ignore the en-passant square and the end flags |
| Position.Candidates | src/modules/board.py:564-567 | the candidates (pseudo-legal then castling moves) are well formed |
| Position.CandidatesGood | src/modules/board.py:564-567 | in a consistent state every candidate is a move as the generators build it for the grid |
| Position.RevertMakeBookkept | src/modules/board.py:335-469 | making and taking back a move leaves the move and FEN logs, the turn and both clocks as they were, and can only clear the end flags |
| Position.FilterFrom | src/modules/board.py:569-575 | the filter loop keeps only moves it was given, and leaves the bookkept state alone |
| Position.KeepSafeMembers | src/modules/board.py:569-575 | a move survives the filter exactly when it is a candidate that does not leave its own king attacked |
| Position.FilterSpec | src/modules/board.py:569-575 | the loop from the last candidate down keeps exactly the safe moves, in their order |
| Position.UpdateChecksFrom | src/modules/board.py:547-562 | the `update_is_check` loop keeps the number of moves and leaves the bookkept state alone |
| Position.AnnotateAt | src/modules/board.py:547-562 | the j-th annotated move is the j-th move with `is_check` set to whether it attacks the opponent's king |
| Position.UpdateSpec | src/modules/board.py:547-562 | the `update_is_check` loop produces exactly the annotated moves |
| Position.LegalMoves | src/modules/board.py:540-578 | `get_legal_moves` leaves the bookkept state alone and returns well-formed moves |
| Position.LegalMovesSpec | src/modules/board.py:540-578 | the legal moves are exactly the candidates that do not leave the mover's king attacked, in order, each with its check flag; the state differs at most in the en-passant square and the end flags |
| Game.RFind | src/modules/board.py:102 | `rfind` gives the last index before the end holding the character, or -1 |
| Game.Count | src/modules/board.py:433 | `list.count` is positive exactly when the entry occurs |
| Game.RemoveExtraDetailsKey | src/modules/board.py:400-413 | stripping the clocks from the board's FEN gives its position key |
| Game.TrimClocksKey | src/modules/board.py:102 | the constructor's cut before the second-to-last space gives the same position key |
| Game.ThirdOccurrence | src/modules/board.py:433 | appending a key that already occurs twice makes a threefold repetition |
| Game.EpAfter | src/modules/board.py:384-398 | the en-passant square set after a move is on the board |
| Game.EpTargetBehindPawn | src/modules/board.py:384-398 | a new en-passant square follows a two-row pawn move, lies in the start column, and has the pawn that moved directly behind it as the opponent sees it |
| Game.ClockAsWrittenIsZero | src/modules/board.py:423 | as written, the clock is 0 after a quiet piece move, so it can never reach 50 |
| Game.QuietMoveAddsHalfMove | src/modules/board.py:423 | with the corrected test, a quiet move of a piece other than a pawn adds half a move to the clock |
| Game.MarkMate | src/modules/board.py:430 | the mating move's SAN has its last character replaced by `#` (or is `#` when empty), and nothing else about the move changes |
| Game.FirstSame | src/modules/board.py:415-416 | `list.index` finds the first move equal to the given one, and -1 means no move is equal |
| Game.Regenerate | src/modules/board.py:425 | regenerating the legal moves leaves the bookkept state alone |
| Game.Played | src/modules/board.py:416-423 | playing a move appends it to the move log |
| Game.Judge | src/modules/board.py:427-434 | the end-of-game tests change only the flags and the last move's SAN, which ends in `#` on mate; every other field stays as it was |
| Game.JudgeOutcome | src/modules/board.py:427-434 | mate exactly when no legal move is left and the side to move is in check; a draw exactly otherwise with no move left, or on a clock of 50, or on a threefold repetition |
| Game.MakeLegal | src/modules/board.py:377-434 | a move equal to no legal move, or any move after the game has ended, changes nothing |
| Game.MakeLegalPlays | src/modules/board.py:377-434 | a move equal to a legal move is played as the stored legal move: the move log grows by it (marked on mate), the turn passes, the FEN log grows by the new position key, the clocks advance |
| Game.JudgeRegenerated | src/modules/board.py:425-434 | regenerating and judging keep the logs, the turn and the clocks, except for the mate mark |
| Game.MakeLegalEnds | src/modules/board.py:425-434 | after a played move the end flags follow the end-of-game tests on the new legal moves |
| Game.FiftyMoveDraw | src/modules/board.py:423-433 | with the corrected clock, a quiet piece move at 49.5 ends the game |
| Game.TakenBack | src/modules/board.py:436-468 | `undo_move()` pops the move log and the FEN log, passes the turn back, gives back half a clock move unless it is 0, and gives back the full move |
| Game.Undo | src/modules/board.py:436-469 | with an empty log nothing changes; otherwise the take-back followed by regenerated legal moves |
| Game.UndoAfterPlay | src/modules/board.py:436-469 | undo after a played move restores the logs, the turn and the full-move number |
| Game.UndoMakeLegal | src/modules/board.py:377-469 | undo after `make_legal_move` restores the move log, the FEN log, the turn and the full-move number, and the clock after a quiet piece move |
| Game.Loaded | src/modules/board.py:89-101 | the constructor copies the decoded grid and fields, with an empty move log |
| Game.Logged | src/modules/board.py:102 | the FEN log starts with the one position key |
| Game.Located | src/modules/board.py:103 | the king cache is read from the board; the logs and grid are untouched |
| Game.Initial | src/modules/board.py:81-106 | a board that loads is well formed and has an empty move log |
| Game.InitialOutcome | src/modules/board.py:81-106 | the constructor refuses, in order, an undecodable FEN, a placement that is not 8×8, an en-passant square off the board, and a board without a king of each colour (exactly then); an accepted board has the decoded turn and clocks, no moves, no end of game, and a FEN log holding the decoded position's key |
| Game.InitialPosition | src/modules/board.py:81-106 | when the loaded en-passant square is sound and no king stands on a castling rook's square, the constructor keeps the decoded board, rights and kings, and its legal moves are exactly the safe candidates, in order, with their check flags |
| Game.LocatedOutcome | src/modules/board.py:102-103 | before the legal moves are generated, a king is cached exactly when one stands on the board, and the FEN log holds the position key |
| Boards.ScanKings | src/modules/board.py:473-488 | the nested scan that stops once both kings are found returns `KingLocations` |
| Boards.PlacePieces | src/modules/board.py:353-359 | the in-place updates of the board array give `PlaceGrid` |
| Boards.FinishPieces | src/modules/board.py:362-373 | promotion and the castling rook's move give `FinishGrid` |
| Boards.RestorePieces | src/modules/board.py:454-466 | the undo's pawn restore and rook move give `RestoreGrid` |
| Boards.WalkRay | src/modules/board.py:647-657 | the walk along one direction appends exactly the moves toward the ray's squares |
| Boards.WalkSlide | src/modules/board.py:645-657 | the loop over the directions appends exactly the sliding plans |
| Boards.Board.AddPromotions | src/modules/board.py:606-610 | appends the four promotion moves |
| Boards.Board.PawnPushMoves | src/modules/board.py:603-614 | appends exactly the built pushes of the corrected generator |
| Boards.Board.PawnCaptureMoves | src/modules/board.py:617-627 | appends exactly the built moves of one diagonal |
| Boards.Board.GetPawnMoves | src/modules/board.py:582-629 | appends exactly the built pawn moves |
| Boards.Board.GetRookMoves | src/modules/board.py:631-659 | appends exactly the built rook moves |
| Boards.Board.GetBishopMoves | src/modules/board.py:661-689 | appends exactly the built bishop moves |
| Boards.Board.GetQueenMoves | src/modules/board.py:691-709 | appends the rook moves, then the bishop moves |
| Boards.Board.StepMoves | src/modules/board.py:725-757 | the offset loop appends exactly the built step moves |
| Boards.Board.GetKnightMoves | src/modules/board.py:711-733 | appends exactly the built knight moves |
| Boards.Board.GetKingMoves | src/modules/board.py:735-759 | appends exactly the built king moves |
| Boards.Board.PieceMoves | src/modules/board.py:532-536 | dispatches on the piece kind for a piece of the side to move |
| Boards.Board.GetPseudoLegalMoves | src/modules/board.py:522-538 | returns exactly `PseudoLegal` of the fields |
| Boards.Board.constructor | src/modules/board.py:81-106 | the new board's fields are `Initial(fen)` |
| Boards.Board.LogStartFen | src/modules/board.py:102 | the fields become `Logged` of the old fields |
| Boards.Board.LocateKings | src/modules/board.py:103 | the fields become `Located` of the old fields |
| Boards.Board.BoardToFen | src/modules/board.py:285-331 | returns `BoardFen` of the fields |
| Boards.Board.GetKingLocations | src/modules/board.py:473-488 | returns `KingLocations` of the board |
| Boards.Board.SquareUnderAttack | src/modules/board.py:502-520 | returns `Attacked` and leaves the fields as they were |
| Boards.Board.InCheck | src/modules/board.py:490-500 | returns `InCheck` of the fields and leaves them as they were |
| Boards.Board.CastlingWingMoves | src/modules/board.py:783-793 | appends exactly the wing's castling move |
| Boards.Board.WingUnattacked | src/modules/board.py:786-792 | true exactly when both squares on the way are not attacked |
| Boards.Board.GetCastlingMoves | src/modules/board.py:761-795 | appends exactly the castling moves of the cached king square |
| Boards.Board.MakePseudoLegalMove | src/modules/board.py:335-375 | the fields become `Make` of the old fields |
| Boards.Board.PushMove | src/modules/board.py:347-351 | the fields become `Pushed` of the old fields |
| Boards.Board.PlaceMove | src/modules/board.py:353-360 | the fields become `Placed` of the old fields |
| Boards.Board.FinishMove | src/modules/board.py:362-373 | the fields become `Finished` of the old fields |
| Boards.Board.UndoMove | src/modules/board.py:436-469 | the fields become `Revert` (engine) or `Undo` (user) of the old fields |
| Boards.Board.RegenerateLegalMoves | src/modules/board.py:469 | the fields become `Regenerate` of the old fields |
| Boards.Board.TakeBack | src/modules/board.py:443-466 | the fields become the last move unplaced and restored |
| Boards.Board.UnplaceMove | src/modules/board.py:443-451 | the fields become `Unplaced` of the old fields |
| Boards.Board.UnlogMove | src/modules/board.py:443-445 | the fields become `Unlogged` of the old fields |
| Boards.Board.UnmoveMove | src/modules/board.py:446-450 | the fields become `Unmoved` of the old fields |
| Boards.Board.RestoreMove | src/modules/board.py:452-466 | the fields become `Restored` of the old fields |
| Boards.Board.PopFenLog | src/modules/board.py:468 | the FEN log loses its last entry |
| Boards.Board.GetLegalMoves | src/modules/board.py:540-578 | returns, and leaves the fields as, `LegalMoves` of the old fields |
| Boards.Board.FilterExposing | src/modules/board.py:569-575 | the filter loop matches `FilterFrom` |
| Boards.Board.FilterStep | src/modules/board.py:570-575 | one pass of the filter loop keeps the `FilterFrom` goal |
| Boards.Board.ExposesKing | src/modules/board.py:570-575 | returns `Exposes`, with the board back to `Revert(Make(...))` |
| Boards.Board.FlipTurn | src/modules/board.py:571-574 | passes the turn |
| Boards.Board.UpdateIsCheck | src/modules/board.py:547-562 | the annotation loop matches `UpdateChecksFrom` |
| Boards.Board.CheckStep | src/modules/board.py:557-561 | one pass of the annotation loop keeps the `UpdateChecksFrom` goal |
| Boards.Board.GivesCheckAfter | src/modules/board.py:558-561 | returns `GivesCheck`, with the board back to `Revert(Make(...))` |
| Boards.Board.MakeLegalMove | src/modules/board.py:377-434 | the fields become `MakeLegal` of the old fields |
| Boards.Board.PlayMove | src/modules/board.py:416-423 | the fields become `Played` of the old fields |
| Boards.Board.LogFen | src/modules/board.py:418 | the FEN log grows by the position key of the board's FEN |
| Boards.Board.UpdateEnPassantSquare | src/modules/board.py:384-398 | the en-passant square becomes `EpAfter` |
| Boards.Board.JudgeGame | src/modules/board.py:427-434 | the fields become `Judge` of the old fields |

## Left out

- The GUI, the engine and `log_board_state`: they are outside the board's game logic.
- `Board.__repr__`, `Board.__eq__`, `Board.__str__`, `Castling_Rights.__eq__` and `Castling_Rights.__repr__`: these are printing and comparison helpers that no modelled method uses.
- Game.Initial: where the source calls `sys.exit` because a king is missing, the model returns `Err(MissingKing)`.
- Game.Initial: an exception while decoding (too few fields, a bad number) is returned as an error value.
- Game.InitialOutcome: does not promise that the en-passant square after construction is the decoded one. Generating the legal moves makes and takes back every candidate, and the takeback of a two-row pawn move overwrites the square (Position.UndoEp), as in the source.
- Game.InitialPosition: promises the decoded grid, rights and kings only when the loaded en-passant square is sound and no king stands on a castling rook's square. Otherwise a candidate need not be built as the generators build it, and the corrected takeback can put a pawn back on a square that held none.
- Boards.Board.constructor: requires that `Initial(fen)` succeeds, because the source does not return a board when it fails.
- Boards.FinishPieces: when a king-side castling move ends on column 7, the rook square (column 8) is off the board. The source raises `IndexError` there, and `_make_psuedo_legal_move` swallows it (board.py:374-375). The model skips the rook move, which agrees. The generator does offer such a move: in `4k3/8/8/8/8/8/8/5K2 w K - 0 1` the king on f1 gets O-O to h1, because `get_castling_moves` checks only the two squares beside the king (board.py:783-787).
- Boards.RestorePieces: on undo of that move the source writes to column 8 (board.py:462), and nothing catches the `IndexError`. So the source's `get_legal_moves`, and with it the constructor, raises for `4k3/8/8/8/8/8/8/5K2 w K - 0 1`. The model skips the rook move, loads the position, and keeps the O-O to h1 among the legal moves.
- Position.FinishGrid: skips the off-board king-side rook move, as Boards.FinishPieces.
- Position.RestoreGrid: skips the off-board king-side rook move where the source's undo raises, as Boards.RestorePieces.
- Boards.Board.PopFenLog: `fen_log.pop()` on an empty log raises in the source. The model leaves the log empty. A user undo always follows a move that logged a key.
- Boards.Board.BoardToFen: the source writes the clock as `halfmove_clock // 1`, a float such as `3.0`; the model writes the integer floor (`3`).
- Position.CastlingCandidates: with no cached king the source fails when it indexes the missing square (board.py:566-567); the model generates no castling move. It also generates none when a pawn stands on the cached king square, which keeps every castling move well formed; a consistent state never has this.
- Position.UndoEp: taking back a two-row pawn move sets the en-passant square to that pawn's destination, as the source does. This is not a square an en-passant capture could use; it is modelled, not corrected.
- Fen.DecodeFen: `int()` accepts Unicode digits, surrounding whitespace and underscores. The model accepts an optional sign followed by ASCII digits.
- Fen.FenToBoard: in the placement the source tests `char.isdigit()` and then calls `int(char)` (board.py:270-271). The model counts only ASCII digits as runs of empty squares. A Unicode decimal digit such as `٣` gives three empty squares in the source and one in the model, so the model can refuse with `BadBoard` a row the source reads as eight squares. A digit that `int` cannot read, such as `²`, makes the source raise; the model reads it as one empty square.
- Fen.DecodePlacement: counts only ASCII digits as runs of empty squares, as Fen.FenToBoard says.
- Move `__str__` and `__repr__` (move.py:57-65, 79-86): both return the move's SAN, which the model keeps as the `san` field of `Move` and computes with Moves.SanOf. A member returning that field would only restate it.
- Fen.DecodeFen: the source does not check the shape of the placement field. A FEN whose placement is not 8×8 is refused by Game.Initial (`BadBoard`).
- Moves.WithCheck: the source assigns `is_check` and `san` onto the `Move` object shared with the legal-move list. The model returns a new value, so aliasing between the move log and the legal-move list is not captured.
- Game.MarkMate: same aliasing simplification as Moves.WithCheck.
- Boards.Board.GetPseudoLegalMoves: the generators append to a list passed in, and the model returns the extended list as a new value. Sharing that list object with the caller is not modelled.
- Boards.Board.CastlingWingMoves: when the wing's far square is off the board, the source raises `IndexError` (king side) or reads a wrapped index (queen side); the model offers no castling move there. A king on its home square never meets this.
- Rules.PawnPlans: uses the corrected push guard (see Findings). The source offers no push from the seventh rank for white, and its attack test uses the same generator, so it also sees fewer attacked squares: in `r3k3/2P5/8/8/8/8/8/4K3 b q - 0 1` the source offers black O-O-O, and the model does not, because the push to c8 counts as an attack.
- Boards.Board.PawnPushMoves: same corrected guard as Rules.PawnPlans, with the same consequences.
- Position.Revert: puts back the pawn taken en passant (the corrected board.py:454-457, see Findings). The source leaves that square empty. So in the source, generating the legal moves of a position with an en-passant capture on offer erases the pawn that just moved two rows.
- Boards.RestorePieces: same corrected restore as Position.Revert.
- Boards.Board.RestoreMove: same corrected restore as Position.Revert.
- Boards.Board.UndoMove: same corrected restore as Position.Revert.
- Position.RevertMake: holds of the corrected restore only. Of the source as written it fails for an en-passant capture, whose taken pawn is not put back.
- Position.FilterSpec: holds of the corrected restore only. As written, filtering an en-passant capture leaves the grid without the taken pawn.
- Position.UpdateSpec: holds of the corrected restore only, for the same reason as Position.FilterSpec.
- Position.LegalMovesSpec: holds of the corrected restore only, for the same reason as Position.FilterSpec. Its premises (Consistent, and candidates built as the generators build them, which EpSound and CornersFree give) are shown for the constructor's state (Game.InitialPosition), not for every later state. The en-passant square an undo leaves (Position.UndoEp) need not satisfy EpSound.
- Game.Played: uses the corrected clock (see Findings). The source sets the clock to 0 after every move.
- Boards.Board.PlayMove: same corrected clock as Game.Played.
- Game.MakeLegalPlays: the clocks it promises are those of the corrected clock. In the source the half-move clock is 0 after every move.
- Game.UndoMakeLegal: the clock it restores after a quiet piece move is that of the corrected clock.
- Position.KingLocations: when a king is missing the model reports `None`. The source's `get_king_locations` prints an error and calls `sys.exit` (board.py:486-488). Every make and undo recomputes the kings (board.py:360, 452), so this also happens when a candidate captures a king. For `4k2R/8/8/8/8/8/8/4K3 w - - 0 1` the source already exits in the constructor, while filtering the candidate Rxe8.
- Position.Make: a move that captures a king keeps going with an empty king cache. The source exits there, as Position.KingLocations says.
- Strings.Tokens: whitespace is the six ASCII whitespace characters. Python's `split()` also splits on other Unicode whitespace, such as U+001C to U+001F, U+0085 and U+00A0.

## Findings

| source | as written | input that shows it | evidently intended | confidence | as-written member | corrected member |
|---|---|---|---|---|---|---|
| src/modules/board.py:603 | the push guard is `1 <= row + direction < 8`, so a white pawn on the seventh rank (row 1) gets no push to row 0 | a white pawn on row 1 with the square ahead empty: no push and no promotion by pushing | `0 <= row + direction < 8`, which offers the four promotion pushes | not executed | Rules.WhitePushToLastRankBlocked (on Rules.PawnPushesAsWritten) | Rules.PushPromotes (on Rules.PawnPushes) |
| src/modules/board.py:454-457 | the en-passant pawn restore is nested under the two-row pawn test, and a two-row move never changes column, so the restore never runs. Since `get_legal_moves` makes and takes back every candidate, generating the legal moves erases a pawn that can be taken en passant | `4k3/8/8/8/3p4/8/4P3/4K3 w - - 0 1` then e2e4: no pawn is left on e4 | the restore guarded by the en-passant shape alone (a pawn changing column onto an empty square) | not executed | Position.EnPassantUndoLosesPawn and Position.RestoreAsWrittenIsDead (on Position.UnmakeGridAsWritten) | Position.GridRoundTrip (on Position.UnmakeGrid) |
| src/modules/board.py:423 | the clock condition includes `move.piece_moved == 'p'`, which compares a two-character code with `'p'` and is never true, so the clock is 0 after every move | a knight move from a position with clock 49.5: clock 0, so the fifty-move draw cannot happen | the clock grows by half a move after a quiet non-pawn move, and resets otherwise | not executed | Game.ClockAsWrittenIsZero (on Game.ClockAfterAsWritten) | Game.QuietMoveAddsHalfMove and Game.FiftyMoveDraw (on Game.ClockAfter) |
