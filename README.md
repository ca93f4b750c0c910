# Chess rule engine

This project models the rule engine of a two-player chess game and proves properties of that model. The engine has two parts:

- **The `ChessBoard` object** (chess_board.py). It holds:
  - an 8x8 grid of optional pieces;
  - the cached squares of the white and black kings;
  - a per-colour table of castling rights;
  - the en-passant target;
  - the last moved piece.

  `move_piece` updates this state in place. `would_be_in_check_after_move` moves a piece on the live board, asks `is_in_check` and puts everything back. `get_valid_moves`, `is_checkmate` and `is_stalemate` scan the grid.
- **`get_possible_moves` of each piece class** (chess_pieces.py). It generates pseudo-legal moves for the pawn, rook, knight, bishop, queen and king. With `check_king_safety` on, the king's castling branch calls back into the board's check test and check simulation.

The project has four modules:

- `ChessState` holds the values: colours, kinds, a piece that carries its own row, column and has-moved flag, the grid, and a `Position` snapshot of every field of a board.
- `ChessPieces` defines each piece's move generation twice:
  - as a function on a board snapshot, which gives the squares in the order the source appends them;
  - as a method with the source's loops, early exits and direction lists, proved equal to that function.
- `ChessRules` holds the board-level definitions as functions of a `Position`, and the lemmas about them:
  - the board invariant;
  - check detection and the check simulation;
  - king moves with the safety test;
  - legal-move filtering;
  - checkmate and stalemate;
  - the effect of `move_piece`.
- `ChessBoard` has the class `ChessBoard`, whose fields are updated in place. Each of its methods is proved against the `ChessRules` definitions. Every mutating method keeps the invariant `Valid()`.

The source lets move generation and check detection call each other:

- `get_possible_moves(board, True)` of a king calls `is_in_check`;
- `is_in_check` calls `get_possible_moves(board, False)` of every opponent piece;
- with the flag off, that call goes no further.

The model keeps the flag as a parameter of `PossibleMoves`, and the decreases clauses of `AttacksKing`, `InCheck`, `WouldBeInCheck`, `KingsideSafe`/`QueensideSafe`, `SafeCastling`, `KingMoves` and `PossibleMoves` number the steps of this chain.

Some behaviours of the source are kept exactly as written:

- The castling guard reads `not check_king_safety or (not has_moved and not in_check)`. With the flag off, castling squares are therefore offered even for a king that has moved, gated only by the right, the empty columns and an unmoved rook of either colour on the corner.
- The en-passant target is the landing square of the double-stepped pawn. A capturing pawn must stand on the same row as that square.
- Castling rights are cleared only when the king moves or when a rook leaves its home corner. Capturing a rook on its corner does not clear them.
- The check simulation moves the piece between slots but does not update the piece's own row and column.

## Model

| member | source | states |
|---|---|---|
| ChessState.Opponent | chess_board.py:236 | The opponent colour differs from the given colour. |
| ChessState.SetSquare | chess_board.py:219-220 | Writing one square of the grid keeps it 8x8, puts the value on that square and leaves every other square unchanged. |
| ChessState.EmptyGrid | chess_board.py:19 | The fresh board is 8x8 with every square empty. |
| ChessPieces.PawnPushesRule | chess_pieces.py:87-98 | A square is a pawn push exactly when it is on the board, in the pawn's column and empty, and is either one row ahead (white toward row 0, black toward row 7) or two rows ahead for an unmoved pawn whose first square ahead is also empty. |
| ChessPieces.PawnCapturesRule | chess_pieces.py:100-108 | A square is a diagonal capture exactly when it is on the board, one row ahead, one column aside, and holds a piece of the other colour. |
| ChessPieces.PawnMovesShape | chess_pieces.py:85-123 | Every pawn target is one or two rows ahead and empty or enemy-occupied, or it is the en-passant capture square. |
| ChessPieces.GetPawnPushes | chess_pieces.py:87-98 | The loop-free push code yields the pushes that PawnPushesRule characterises. |
| ChessPieces.GetPawnEnPassant | chess_pieces.py:110-121 | En passant yields the square one row ahead in the target's column only when the target is on the pawn's row, exactly one column away, and the pawn stands on row 3 (white) or row 4 (black). |
| ChessPieces.GetPawnMoves | chess_pieces.py:85-123 | The pawn's moves are its pushes, then its captures toward columns -1 and +1, then the en-passant square, in that order. |
| ChessPieces.GetStepMoves | chess_pieces.py:165-171 | The offset loop keeps, in order, each target on the board that is empty or holds an opponent piece. |
| ChessPieces.GetKnightMoves | chess_pieces.py:157-173 | The knight's loop computes the knight's step targets over its eight L offsets. |
| ChessPieces.StepsShape | chess_pieces.py:165-171 | A step generator returns at most one square per offset, and each square is on the board, empty or enemy-occupied, and at one of the listed offsets. |
| ChessPieces.KnightMovesShape | chess_pieces.py:157-173 | The knight returns at most eight squares, each an L-shaped jump onto an empty or enemy square. |
| ChessPieces.GetRayMoves | chess_pieces.py:134-148 | The inner loop over distances 1..7 in one direction returns that direction's ray: empty squares, then at most one opponent square, stopping at the edge or an own piece. |
| ChessPieces.GetSlidingMoves | chess_pieces.py:134-148 | The outer loop concatenates the rays of the directions in list order. |
| ChessPieces.GetRookMoves | chess_pieces.py:130-150 | The rook slides along right, down, left and up, in that order. |
| ChessPieces.GetBishopMoves | chess_pieces.py:180-200 | The bishop slides along its four diagonals, in the listed order. |
| ChessPieces.GetQueenMoves | chess_pieces.py:207-231 | The queen slides along its eight listed directions. |
| ChessPieces.RaySquares | chess_pieces.py:134-137 | A ray is a straight line: it starts one step from the piece, each entry is one step past the previous, and it never goes past distance 7. |
| ChessPieces.RayLands | chess_pieces.py:138-146 | Every square of a ray is on the board and is empty or holds an opponent piece. |
| ChessPieces.RayPassesEmpty | chess_pieces.py:142-143 | Every entry of a ray except the last is an empty square on the board: a slider passes only over empty squares. |
| ChessPieces.RayEntryEmpty | chess_pieces.py:142-143 | Entry k of a ray, when another entry follows it, is an empty square on the board. |
| ChessPieces.RayStops | chess_pieces.py:135-148 | A ray that does not end on a capture stopped because the next square is past distance 7, off the board, or holds an own piece. |
| ChessPieces.SlidesLandOnEmptyOrEnemy | chess_pieces.py:134-148 | Every slider target is on the board and is empty or enemy-occupied. |
| ChessPieces.SlidesPrefix | chess_pieces.py:134-148 | Sliding along the first n directions of a longer direction list depends only on those n directions. |
| ChessPieces.SlidesAppend | chess_pieces.py:134-148 | Sliding along two concatenated direction lists gives the moves of the first list followed by the moves of the second. |
| ChessPieces.QueenIsRookThenBishop | chess_pieces.py:210-213 | The queen's moves equal the rook's moves followed by the bishop's moves from the same square. |
| ChessPieces.EmptyBetweenAll | chess_pieces.py:258 | The column-by-column emptiness scan agrees with "every square in the column range is empty". |
| ChessPieces.GetKingPseudoMoves | chess_pieces.py:238-282 | With the safety test off, the king's moves are its eight steps, then kingside castling when the right holds, columns col+1..6 are empty and an unmoved rook stands on column 7, then the mirror queenside test over columns 1..col-1 and column 0. |
| ChessPieces.KingPseudoMovesShape | chess_pieces.py:241-252 | Every king target is a one-square step onto an empty or enemy square, or a castling square. |
| ChessPieces.PseudoMovesShape | chess_pieces.py:85-282 | Every pseudo-legal target of any piece is on the board and empty or enemy-occupied, except a pawn's en-passant square and a king's castling squares. |
| ChessPieces.GetPseudoMoves | chess_pieces.py:75-282 | Dispatch on the piece kind gives that kind's get_possible_moves with the safety test off. |
| ChessRules.PlacedFromSquare | chess_board.py:128-136 | On a consistent board, the piece on a square knows that square as its own row and column. |
| ChessRules.CastlingKingAtHome | chess_board.py:161-163 | On a consistent board, a king whose colour still has a castling right stands on its home square. |
| ChessRules.Simulated | chess_board.py:257-266 | The simulated board is well formed and keeps the castling rights and en-passant target. |
| ChessRules.UndoSimulatedGrid | chess_board.py:265-273 | Putting back the mover and the captured square undoes the simulation's relocation exactly, for every pair of squares. |
| ChessRules.PseudoMovesOnBoard | chess_pieces.py:85-282 | For a piece on its square, every pseudo-legal target is on the board and differs from its own square. |
| ChessRules.CastlingSquaresOnBoard | chess_pieces.py:255-280 | Every offered castling square is on the board and differs from the king's square. |
| ChessRules.SafeCastlingWithinGeometry | chess_pieces.py:262-267 | The safety test only removes castling squares: every square it keeps is also offered without it. |
| ChessRules.KingMovesOnBoard | chess_pieces.py:238-282 | With the safety test on, each king move is on the board, off the king's square, and either a step onto an empty or enemy square or a castling square. |
| ChessRules.PossibleMovesOnBoard | chess_pieces.py:75-282 | Every square any generator returns, with the safety test on, is on the board and differs from the piece's square; non-special targets are empty or enemy-occupied. |
| ChessRules.KingStepsAdjacent | chess_pieces.py:241-252 | The king's step targets are adjacent squares, so none is a two-column castling square. |
| ChessRules.SafeCastlingRule | chess_pieces.py:255-280 | With the safety test on, (row, col+2) is offered exactly when the king has not moved, is not in check, the kingside right and geometry hold, and neither col+1 nor col+2 is attacked after the simulated move; (row, col-2) mirrors this for the queenside. |
| ChessRules.CastlingGeometryRule | chess_pieces.py:255-280 | With the safety test off, the castling squares are offered exactly when the right and geometry hold, even for a king that has moved or is in check. |
| ChessRules.LegalFilterMembers | chess_board.py:138-141 | A square survives the filter exactly when it is one of the candidates, is on the board, and its simulated move leaves the colour out of check. |
| ChessRules.ValidMovesRule | chess_board.py:128-143 | An empty square has no valid moves. Otherwise a square is a valid move exactly when it is a possible move with the safety test on whose simulation leaves the mover's colour out of check; every valid move is on the board. |
| ChessRules.StuckInRowsAll | chess_board.py:288-294 | After `rows` rows, the scan's progress means every one of those rows has no piece of the colour with a valid move. |
| ChessRules.NoValidMovesRule | chess_board.py:288-294 | The scan finds nothing exactly when no square holds a piece of the colour with a non-empty valid-move list. |
| ChessRules.MateAndStalemateExclusive | chess_board.py:281-315 | Checkmate and stalemate are never both true, and one of them holds exactly when the colour has no valid move. |
| ChessRules.RelocateRook | chess_board.py:166-179 | Relocating the castling rook keeps the grid 8x8. |
| ChessRules.KingMoveEffects | chess_board.py:155-179 | The king bookkeeping keeps the position well formed. |
| ChessRules.RookMoveEffects | chess_board.py:183-193 | The rook bookkeeping keeps the position well formed. |
| ChessRules.PawnMoveEffects | chess_board.py:196-206 | The pawn bookkeeping keeps the position well formed. |
| ChessRules.Promote | chess_board.py:209-215 | The promotion write keeps the position well formed. |
| ChessRules.Relocate | chess_board.py:217-227 | The regular move keeps the position well formed. |
| ChessRules.Moved | chess_board.py:145-227 | move_piece on an occupied source square gives a well-formed position. |
| ChessRules.MovedFrame | chess_board.py:145-227 | A move changes no square outside the source, destination, castling rook squares and en-passant victim square. |
| ChessRules.MovedFrameAt | chess_board.py:145-227 | A square outside the squares move_piece writes keeps its piece. |
| ChessRules.MovedRelocates | chess_board.py:217-227 | After a regular move, the destination holds the mover with its row and column set to the destination and has_moved true, the source is empty, and the mover is the last moved piece. |
| ChessRules.MovedPromotes | chess_board.py:209-215 | A pawn reaching row 0 or 7 leaves its source empty and a fresh, unmoved queen of its colour on the destination, which becomes the last moved piece. |
| ChessRules.MovedKing | chess_board.py:155-179 | A king move sets that colour's cached king square to the destination and leaves the other colour's. Castling from column 4 brings the corner rook to column 5 or 3 (knowing its new square) and empties the corner. |
| ChessRules.MovedKeepsOtherKingSquares | chess_board.py:155-159 | A move of a piece other than a king leaves both cached king squares unchanged. |
| ChessRules.MovedCastlingRights | chess_board.py:161-193 | A right survives exactly when it held before and the move is neither a king move of that colour nor that colour's rook leaving that wing's corner. So rights only go from true to false, and a captured rook clears nothing. |
| ChessRules.MovedEnPassantTarget | chess_board.py:151-152 | After a move, the en-passant target is the destination of a pawn that moved two rows, and otherwise none. |
| ChessRules.MovedEnPassantCapture | chess_board.py:202-206 | A pawn moving one column aside onto an empty square removes the piece at (from_row, to_col). |
| ChessRules.SetSquareKeepsConsistent | chess_board.py:219-220 | Writing one square keeps the board invariant when the newcomer knows its square and is not a king with a castling right away from home. |
| ChessRules.FewerRightsKeepConsistent | chess_board.py:161-193 | Taking castling rights away keeps the board invariant. |
| ChessRules.KingMoveEffectsKeepConsistent | chess_board.py:155-179 | The king bookkeeping keeps the board invariant and leaves the king's colour with no castling right. |
| ChessRules.RookMoveEffectsKeepConsistent | chess_board.py:183-193 | The rook bookkeeping keeps the board invariant. |
| ChessRules.PawnMoveEffectsKeepConsistent | chess_board.py:196-206 | The pawn bookkeeping keeps the board invariant. |
| ChessRules.MovedConsistent | chess_board.py:145-227 | move_piece keeps the board invariant: every piece knows its square, a king with a right is at home, and the en-passant target is on the board. |
| ChessRules.MovedKeepsKingCache | chess_board.py:155-159 | If each cached king square held that colour's king before, it still does after any move that overwrites no king other than the mover. |
| ChessRules.InitialPositionConsistent | chess_board.py:6-65 | The starting position satisfies the board invariant, and its cached king squares hold the kings. |
| ChessBoard.ChessBoard.constructor | chess_board.py:6-32 | A new board is the starting position: starting pieces, kings cached at (7,4) and (0,4), all castling rights, no en-passant target, no last moved piece. |
| ChessBoard.ChessBoard.SetupPieces | chess_board.py:34-65 | Rows 0, 1, 6 and 7 receive the starting pieces, and nothing else changes. |
| ChessBoard.ChessBoard.AttacksKingFrom | chess_board.py:239-243 | The test of one square: an opponent piece whose pseudo-legal moves contain the cached king square. |
| ChessBoard.ChessBoard.RowAttacksKing | chess_board.py:238-243 | One row of the scan reports an attacker exactly when some square of the row holds one. |
| ChessBoard.ChessBoard.IsInCheck | chess_board.py:229-245 | The scan answers whether some square holds an opponent piece attacking the cached king square. |
| ChessBoard.ChessBoard.WouldBeInCheckAfterMove | chess_board.py:247-279 | The board after the call equals the board before, whatever the answer. The answer is the check test on the simulated board. |
| ChessBoard.ChessBoard.CanCastleKingside | chess_pieces.py:257-267 | The kingside test leaves the board unchanged and accepts exactly when the right, the empty columns, the unmoved rook and both transit squares pass. |
| ChessBoard.ChessBoard.CanCastleQueenside | chess_pieces.py:270-280 | The queenside test leaves the board unchanged and accepts exactly under the mirrored conditions. |
| ChessBoard.ChessBoard.GetSafeCastling | chess_pieces.py:255-280 | With the safety test on, the castling squares are computed without changing the board: none for a moved king or one in check. |
| ChessBoard.ChessBoard.GetKingMoves | chess_pieces.py:238-282 | The king's moves with the safety test on are its steps followed by the safe castling squares, and the board is unchanged. |
| ChessBoard.ChessBoard.GetPossibleMoves | chess_pieces.py:75-282 | get_possible_moves on the live board: only a king with the safety flag on differs from the pseudo-legal moves. The board is unchanged. |
| ChessBoard.ChessBoard.GetValidMoves | chess_board.py:128-143 | get_valid_moves leaves the board unchanged and returns ValidMoves, characterised by ValidMovesRule. |
| ChessBoard.ChessBoard.KeepLegal | chess_board.py:138-143 | The filter loop keeps, in order, the candidates whose simulation leaves the colour out of check, and leaves the board unchanged. |
| ChessBoard.ChessBoard.UpdateAfterKingMove | chess_board.py:155-179 | The king bookkeeping of move_piece updates the fields to KingMoveEffects of the old board. |
| ChessBoard.ChessBoard.UpdateAfterRookMove | chess_board.py:183-193 | The rook bookkeeping of move_piece updates the fields to RookMoveEffects of the old board. |
| ChessBoard.ChessBoard.UpdateAfterPawnMove | chess_board.py:196-206 | The pawn bookkeeping of move_piece updates the fields to PawnMoveEffects of the old board. |
| ChessBoard.ChessBoard.MovePiece | chess_board.py:145-227 | An empty source square returns false and changes nothing, not even the en-passant target. Otherwise the move returns true, the board becomes Moved of the old board, and the board invariant holds. |
| ChessBoard.ChessBoard.CanMoveFromSquare | chess_board.py:290-294 | One square of the mate scan: a piece of the colour with a non-empty valid-move list. The board is unchanged. |
| ChessBoard.ChessBoard.RowHasValidMove | chess_board.py:288-294 | One row of the mate scan finds a movable piece exactly when the row is not stuck. The board is unchanged. |
| ChessBoard.ChessBoard.HasValidMove | chess_board.py:288-294 | The full scan finds a movable piece exactly when the colour is not out of valid moves. The board is unchanged. |
| ChessBoard.ChessBoard.IsCheckmate | chess_board.py:281-297 | is_checkmate is true exactly when the colour is in check and has no valid move. The board is unchanged. |
| ChessBoard.ChessBoard.IsStalemate | chess_board.py:299-315 | is_stalemate is true exactly when the colour is not in check and has no valid move. The board is unchanged. |

## Left out

- Rendering is not modelled: `draw`, `highlight_square` and `screen_to_board_pos` in chess_board.py, and `load_images`, the image cache and `Piece.draw` in chess_pieces.py. They are pygame drawing and mouse mapping, not rules.
- time_clock.py, chess_game.py, main.py and demo.py are not part of this model. They hold wall-clock timing, event handling and display code. Of config.py, only `BOARD_SIZE = 8` is used.
- The base `Piece.get_possible_moves`, which returns no moves, is not modelled: every modelled piece has one of the six kinds.
- `get_piece` and `is_valid_position` are the helpers `ChessState.PieceAt` and `ChessState.IsValidPosition`. They have no row of their own.
- Pieces are values, not shared objects. In the source a piece object sits in exactly one slot while every piece knows its square, and `last_moved_piece` is written but never read, so a value snapshot behaves the same.
- ChessBoard.ChessBoard.MovePiece: requires both squares on the board. The source would raise IndexError for large indices and wrap around for negative ones.
- ChessBoard.ChessBoard.WouldBeInCheckAfterMove: requires both squares on the board, for the same reason.
- ChessBoard.ChessBoard.GetValidMoves: requires the board invariant `Valid()`. The invariant guarantees that every generated square is on the board before it is passed to the simulation, which indexes the grid directly.
- ChessRules.MovedKeepsKingCache: the king cache is kept only for moves that overwrite no king other than the mover. `move_piece` itself accepts a move that captures a king, and the cache is then stale, so it is not part of `Valid()`.
- ChessRules.MovedRelocates: states nothing for a null move whose source and destination coincide. There `move_piece` writes the piece and then empties the same square.
- ChessPieces.GetRayMoves: reaches the square at distance i by adding the direction once per step, not by multiplying i by the direction. The squares visited are the same.
- ChessBoard.ChessBoard.GetKingMoves: collects the castling squares in a separate list before appending them to the steps. The resulting order is the same.
