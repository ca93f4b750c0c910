/**
  The ChessBoard object: its fields are updated in place by move_piece and, temporarily,
  by the check simulation. Every method is proved against the functions of ChessRules,
  and every mutating method keeps the board invariant Valid().
 */
module ChessBoard {
  import opened ChessState
  import opened ChessPieces
  import opened ChessRules

  class ChessBoard {
    var grid: Grid
    var whiteKingPos: Square
    var blackKingPos: Square
    var castlingRights: map<Color, Rights>
    var enPassantTarget: Option<Square>
    var lastMovedPiece: Option<Piece>

    /** The board's fields as one value. */
    function State(): Position
      reads this
    {
      Position(grid, whiteKingPos, blackKingPos, castlingRights, enPassantTarget, lastMovedPiece)
    }

    predicate Valid()
      reads this
    {
      Consistent(State())
    }

    /** An empty board, set up with the starting pieces; both kings home, all castling rights, no en-passant target. */
    constructor ()
      ensures Valid() && KingCacheOk(State()) && IsInitialPosition(State())
    {
      grid := EmptyGrid();
      lastMovedPiece := None;
      whiteKingPos := (7, 4);
      blackKingPos := (0, 4);
      castlingRights := map[White := Rights(true, true), Black := Rights(true, true)];
      enPassantTarget := None;
      new;
      forall c: Color
        ensures c in castlingRights
      {
        if c == White {
        } else {
        }
      }
      SetupPieces();
      InitialPositionConsistent(State());
    }

    /** Writes the starting pieces on rows 0, 1, 6 and 7 and touches nothing else. */
    method SetupPieces()
      requires IsGrid(grid)
      modifies this
      ensures IsGrid(grid)
      ensures forall r, c | 0 <= r < BOARD_SIZE && 0 <= c < BOARD_SIZE ::
                grid[r][c] == if r in {0, 1, 6, 7} then StartingPiece(r, c) else old(grid[r][c])
      ensures whiteKingPos == old(whiteKingPos) && blackKingPos == old(blackKingPos)
      ensures castlingRights == old(castlingRights) && enPassantTarget == old(enPassantTarget)
      ensures lastMovedPiece == old(lastMovedPiece)
    {
      for col := 0 to BOARD_SIZE
        invariant IsGrid(grid)
        invariant forall r, c | 0 <= r < BOARD_SIZE && 0 <= c < BOARD_SIZE ::
                    grid[r][c] == if (r == 1 || r == 6) && c < col then StartingPiece(r, c) else old(grid[r][c])
        invariant whiteKingPos == old(whiteKingPos) && blackKingPos == old(blackKingPos)
        invariant castlingRights == old(castlingRights) && enPassantTarget == old(enPassantTarget)
        invariant lastMovedPiece == old(lastMovedPiece)
      {
        grid := SetSquare(grid, 1, col, Some(Piece(Black, Pawn, 1, col, false)));
        grid := SetSquare(grid, 6, col, Some(Piece(White, Pawn, 6, col, false)));
      }
      var board := grid;
      // rooks
      board := SetSquare(board, 0, 0, Some(Piece(Black, Rook, 0, 0, false)));
      board := SetSquare(board, 0, 7, Some(Piece(Black, Rook, 0, 7, false)));
      board := SetSquare(board, 7, 0, Some(Piece(White, Rook, 7, 0, false)));
      board := SetSquare(board, 7, 7, Some(Piece(White, Rook, 7, 7, false)));
      // knights
      board := SetSquare(board, 0, 1, Some(Piece(Black, Knight, 0, 1, false)));
      board := SetSquare(board, 0, 6, Some(Piece(Black, Knight, 0, 6, false)));
      board := SetSquare(board, 7, 1, Some(Piece(White, Knight, 7, 1, false)));
      board := SetSquare(board, 7, 6, Some(Piece(White, Knight, 7, 6, false)));
      // bishops
      board := SetSquare(board, 0, 2, Some(Piece(Black, Bishop, 0, 2, false)));
      board := SetSquare(board, 0, 5, Some(Piece(Black, Bishop, 0, 5, false)));
      board := SetSquare(board, 7, 2, Some(Piece(White, Bishop, 7, 2, false)));
      board := SetSquare(board, 7, 5, Some(Piece(White, Bishop, 7, 5, false)));
      // queens
      board := SetSquare(board, 0, 3, Some(Piece(Black, Queen, 0, 3, false)));
      board := SetSquare(board, 7, 3, Some(Piece(White, Queen, 7, 3, false)));
      // kings
      board := SetSquare(board, 0, 4, Some(Piece(Black, King, 0, 4, false)));
      board := SetSquare(board, 7, 4, Some(Piece(White, King, 7, 4, false)));
      grid := board;
    }

    /** The test inside is_in_check's scan: an opponent piece on (row, col) whose pseudo-legal moves reach the cached king square. */
    method AttacksKingFrom(row: int, col: int, color: Color) returns (attacks: bool)
      requires WellFormed(State()) && IsValidPosition(row, col)
      ensures attacks == AttacksKing(State(), row, col, color)
    {
      var kingPos := if color == White then whiteKingPos else blackKingPos;
      var opponentColor := if color == White then Black else White;
      var piece := PieceAt(grid, row, col);
      attacks := false;
      if piece.Some? && piece.value.color == opponentColor {
        var moves := GetPseudoMoves(State(), piece.value);
        attacks := kingPos in moves;
      }
    }

    /** One row of is_in_check's scan, left to right, stopping at the first attacker. */
    method RowAttacksKing(row: int, color: Color) returns (attacks: bool)
      requires WellFormed(State()) && 0 <= row < BOARD_SIZE
      ensures attacks == exists c | 0 <= c < BOARD_SIZE :: AttacksKing(State(), row, c, color)
    {
      for col := 0 to BOARD_SIZE
        invariant forall c | 0 <= c < col :: !AttacksKing(State(), row, c, color)
      {
        attacks := AttacksKingFrom(row, col, color);
        if attacks {
          return;
        }
      }
      return false;
    }

    /** Scans every square for an opponent piece whose pseudo-legal moves include the cached king square. */
    method IsInCheck(color: Color) returns (inCheck: bool)
      requires WellFormed(State())
      ensures inCheck == InCheck(State(), color)
    {
      for row := 0 to BOARD_SIZE
        invariant forall r, c | 0 <= r < row && 0 <= c < BOARD_SIZE :: !AttacksKing(State(), r, c, color)
      {
        var attacks := RowAttacksKing(row, color);
        if attacks {
          return true;
        }
      }
      return false;
    }

    /** Makes the raw relocation, asks IsInCheck, and restores the squares and king squares it changed. */
    method WouldBeInCheckAfterMove(fr: int, fc: int, tr: int, tc: int, color: Color) returns (inCheck: bool)
      requires WellFormed(State()) && IsValidPosition(fr, fc) && IsValidPosition(tr, tc)
      modifies this
      ensures State() == old(State())
      ensures inCheck == WouldBeInCheck(old(State()), fr, fc, tr, tc, color)
    {
      var piece := grid[fr][fc];
      var captured := grid[tr][tc];
      var origWhiteKingPos, origBlackKingPos := whiteKingPos, blackKingPos;
      if piece.Some? && piece.value.kind == King {
        if piece.value.color == White {
          whiteKingPos := (tr, tc);
        } else {
          blackKingPos := (tr, tc);
        }
      }
      grid := SetSquare(grid, tr, tc, piece);
      grid := SetSquare(grid, fr, fc, None);
      assert State() == Simulated(old(State()), fr, fc, tr, tc);
      inCheck := IsInCheck(color);
      grid := SetSquare(grid, fr, fc, piece);
      grid := SetSquare(grid, tr, tc, captured);
      UndoSimulatedGrid(old(grid), fr, fc, tr, tc);
      whiteKingPos, blackKingPos := origWhiteKingPos, origBlackKingPos;
    }

    /**
      The kingside test of King.get_possible_moves with the safety test on: the right, empty
      columns up to the rook, an unmoved rook on column 7, and neither col+1 nor col+2 attacked
      once the king stands there.
     */
    method CanCastleKingside(p: Piece) returns (ok: bool)
      requires Valid() && Placed(State(), p) && p.kind == King
      modifies this
      ensures State() == old(State())
      ensures ok == KingsideSafe(old(State()), p)
    {
      ok := false;
      if castlingRights[p.color].kingside {
        EmptyBetweenAll(grid, p.row, p.col + 1, 7);
        if forall c | p.col + 1 <= c < 7 :: PieceAt(grid, p.row, c) == None {
          var rook := PieceAt(grid, p.row, 7);
          if rook.Some? && rook.value.kind == Rook && !rook.value.hasMoved {
            CastlingKingAtHome(State(), p);
            var attacked := WouldBeInCheckAfterMove(p.row, p.col, p.row, p.col + 1, p.color);
            if !attacked {
              attacked := WouldBeInCheckAfterMove(p.row, p.col, p.row, p.col + 2, p.color);
            }
            ok := !attacked;
          }
        }
      }
    }

    /** The queenside test: as the kingside one, toward column 0, with col-1 and col-2 not attacked. */
    method CanCastleQueenside(p: Piece) returns (ok: bool)
      requires Valid() && Placed(State(), p) && p.kind == King
      modifies this
      ensures State() == old(State())
      ensures ok == QueensideSafe(old(State()), p)
    {
      ok := false;
      if castlingRights[p.color].queenside {
        EmptyBetweenAll(grid, p.row, 1, p.col);
        if forall c | 1 <= c < p.col :: PieceAt(grid, p.row, c) == None {
          var rook := PieceAt(grid, p.row, 0);
          if rook.Some? && rook.value.kind == Rook && !rook.value.hasMoved {
            CastlingKingAtHome(State(), p);
            var attacked := WouldBeInCheckAfterMove(p.row, p.col, p.row, p.col - 1, p.color);
            if !attacked {
              attacked := WouldBeInCheckAfterMove(p.row, p.col, p.row, p.col - 2, p.color);
            }
            ok := !attacked;
          }
        }
      }
    }

    /** The castling part of King.get_possible_moves with the safety test on: an unmoved king not in check. */
    method GetSafeCastling(p: Piece) returns (castling: seq<Square>)
      requires Valid() && Placed(State(), p) && p.kind == King
      modifies this
      ensures State() == old(State())
      ensures castling == SafeCastling(old(State()), p)
    {
      castling := [];
      if !p.hasMoved {
        var inCheck := IsInCheck(p.color);
        if !inCheck {
          var kingside := CanCastleKingside(p);
          if kingside {
            castling := castling + [(p.row, p.col + 2)];
          }
          var queenside := CanCastleQueenside(p);
          if queenside {
            castling := castling + [(p.row, p.col - 2)];
          }
        }
      }
    }

    /** King.get_possible_moves with the safety test on. */
    method GetKingMoves(p: Piece) returns (moves: seq<Square>)
      requires Valid() && Placed(State(), p) && p.kind == King
      modifies this
      ensures State() == old(State())
      ensures moves == KingMoves(old(State()), p)
    {
      moves := GetStepMoves(grid, p, KING_DIRECTIONS);
      var castling := GetSafeCastling(p);
      moves := moves + castling;
    }

    /** get_possible_moves: with the safety test on, a king's castling squares use the check simulation. */
    method GetPossibleMoves(p: Piece, checkKingSafety: bool) returns (moves: seq<Square>)
      requires WellFormed(State())
      requires checkKingSafety && p.kind == King ==> Valid() && Placed(State(), p)
      modifies this
      ensures State() == old(State())
      ensures moves == PossibleMoves(old(State()), p, checkKingSafety)
    {
      if checkKingSafety && p.kind == King {
        moves := GetKingMoves(p);
      } else {
        moves := GetPseudoMoves(State(), p);
      }
    }

    /** The possible moves of the piece on (row, col) that do not leave its own king in check. */
    method GetValidMoves(row: int, col: int) returns (validMoves: seq<Square>)
      requires Valid()
      modifies this
      ensures State() == old(State())
      ensures validMoves == ValidMoves(old(State()), row, col)
    {
      var piece := PieceAt(grid, row, col);
      if piece.None? {
        return [];
      }
      var p := piece.value;
      PlacedFromSquare(State(), row, col);
      var possibleMoves := GetPossibleMoves(p, true);
      PossibleMovesOnBoard(State(), p);
      validMoves := KeepLegal(row, col, p.color, possibleMoves);
    }

    /** The loop of get_valid_moves: keep, in order, the candidates whose simulation leaves `color` safe. */
    method KeepLegal(row: int, col: int, color: Color, cands: seq<Square>) returns (kept: seq<Square>)
      requires WellFormed(State()) && IsValidPosition(row, col)
      requires forall s | s in cands :: IsValidPosition(s.0, s.1)
      modifies this
      ensures State() == old(State())
      ensures kept == LegalFilter(old(State()), row, col, color, cands, |cands|)
    {
      kept := [];
      for i := 0 to |cands|
        invariant State() == old(State())
        invariant kept == LegalFilter(State(), row, col, color, cands, i)
      {
        var (moveRow, moveCol) := cands[i];
        assert cands[i] in cands;
        var inCheck := WouldBeInCheckAfterMove(row, col, moveRow, moveCol, color);
        if !inCheck {
          kept := kept + [(moveRow, moveCol)];
        }
      }
    }

    /** move_piece's king bookkeeping: cached square, both rights cleared, and the rook when castling. */
    method UpdateAfterKingMove(king: Piece, fr: int, fc: int, tr: int, tc: int)
      requires WellFormed(State()) && IsValidPosition(fr, fc) && IsValidPosition(tr, tc)
      modifies this
      ensures State() == KingMoveEffects(old(State()), king, fr, fc, tr, tc)
    {
      if king.color == White {
        whiteKingPos := (tr, tc);
      } else {
        blackKingPos := (tr, tc);
      }
      castlingRights := castlingRights[king.color := castlingRights[king.color].(kingside := false)];
      castlingRights := castlingRights[king.color := castlingRights[king.color].(queenside := false)];
      assert castlingRights == old(castlingRights)[king.color := Rights(false, false)];
      if Abs(fc - tc) == 2 {
        if tc > fc {
          var rook := grid[fr][7];
          grid := SetSquare(grid, fr, 5, Rehomed(rook, fr, 5));
          grid := SetSquare(grid, fr, 7, None);
        } else {
          var rook := grid[fr][0];
          grid := SetSquare(grid, fr, 3, Rehomed(rook, fr, 3));
          grid := SetSquare(grid, fr, 0, None);
        }
      }
    }

    /** move_piece's rook bookkeeping: leaving a home corner clears that wing's right. */
    method UpdateAfterRookMove(rook: Piece, fr: int, fc: int)
      requires WellFormed(State())
      modifies this
      ensures State() == RookMoveEffects(old(State()), rook, fr, fc)
    {
      if rook.color == White {
        if fr == 7 && fc == 0 {
          castlingRights := castlingRights[White := castlingRights[White].(queenside := false)];
        } else if fr == 7 && fc == 7 {
          castlingRights := castlingRights[White := castlingRights[White].(kingside := false)];
        }
      } else {
        if fr == 0 && fc == 0 {
          castlingRights := castlingRights[Black := castlingRights[Black].(queenside := false)];
        } else if fr == 0 && fc == 7 {
          castlingRights := castlingRights[Black := castlingRights[Black].(kingside := false)];
        }
      }
    }

    /** move_piece's pawn specials: the en-passant target after a double step, and the en-passant capture. */
    method UpdateAfterPawnMove(fr: int, fc: int, tr: int, tc: int)
      requires WellFormed(State()) && IsValidPosition(fr, fc) && IsValidPosition(tr, tc)
      modifies this
      ensures State() == PawnMoveEffects(old(State()), fr, fc, tr, tc)
    {
      if Abs(fr - tr) == 2 {
        enPassantTarget := Some((tr, tc));
      }
      if Abs(fc - tc) == 1 && grid[tr][tc].None? {
        grid := SetSquare(grid, fr, tc, None);
      }
    }

    /**
      move_piece: false, with nothing changed, for an empty source square; otherwise the
      board becomes Moved(old board), which keeps the invariant.
     */
    method MovePiece(fr: int, fc: int, tr: int, tc: int) returns (moved: bool)
      requires Valid() && IsValidPosition(fr, fc) && IsValidPosition(tr, tc)
      modifies this
      ensures Valid()
      ensures moved == old(grid[fr][fc]).Some?
      ensures State() == if moved then Moved(old(State()), fr, fc, tr, tc) else old(State())
    {
      var piece := grid[fr][fc];
      if piece.None? {
        return false;
      }
      var p := piece.value;
      MovedConsistent(State(), fr, fc, tr, tc);

      enPassantTarget := None;
      if p.kind == King {
        UpdateAfterKingMove(p, fr, fc, tr, tc);
      }
      if p.kind == Rook {
        UpdateAfterRookMove(p, fr, fc);
      }
      if p.kind == Pawn {
        UpdateAfterPawnMove(fr, fc, tr, tc);
        if tr == 0 || tr == 7 {
          grid := SetSquare(grid, fr, fc, None);
          var queen := Piece(p.color, Queen, tr, tc, false);
          grid := SetSquare(grid, tr, tc, Some(queen));
          lastMovedPiece := Some(queen);
          return true;
        }
      }

      var mover := p.(row := tr, col := tc, hasMoved := true);
      grid := SetSquare(grid, tr, tc, Some(mover));
      grid := SetSquare(grid, fr, fc, None);
      lastMovedPiece := Some(mover);
      return true;
    }

    /** Whether the square holds a piece of `color` that has a valid move. */
    method CanMoveFromSquare(row: int, col: int, color: Color) returns (canMove: bool)
      requires Valid() && IsValidPosition(row, col)
      modifies this
      ensures State() == old(State())
      ensures canMove == CanMoveFrom(old(State()), row, col, color)
    {
      var piece := PieceAt(grid, row, col);
      canMove := false;
      if piece.Some? && piece.value.color == color {
        var validMoves := GetValidMoves(row, col);
        canMove := validMoves != [];
      }
    }

    /** One row of the scan shared by is_checkmate and is_stalemate, stopping at the first movable piece. */
    method RowHasValidMove(row: int, color: Color) returns (found: bool)
      requires Valid() && 0 <= row < BOARD_SIZE
      modifies this
      ensures State() == old(State())
      ensures found == !RowStuck(old(State()), color, row)
    {
      ghost var pos := State();
      for col := 0 to BOARD_SIZE
        invariant State() == pos
        invariant forall c | 0 <= c < col :: !CanMoveFrom(pos, row, c, color)
      {
        var canMove := CanMoveFromSquare(row, col, color);
        if canMove {
          return true;
        }
      }
      return false;
    }

    /** Whether some piece of `color` has a valid move: the scan shared by is_checkmate and is_stalemate. */
    method HasValidMove(color: Color) returns (found: bool)
      requires Valid()
      modifies this
      ensures State() == old(State())
      ensures found == !NoValidMoves(old(State()), color)
    {
      ghost var pos := State();
      for row := 0 to BOARD_SIZE
        invariant State() == pos
        invariant StuckInRows(pos, color, row)
      {
        found := RowHasValidMove(row, color);
        if found {
          StuckInRowsAll(pos, color, BOARD_SIZE);
          return;
        }
      }
      return false;
    }

    /** In check, and no piece of `color` has a valid move. */
    method IsCheckmate(color: Color) returns (mate: bool)
      requires Valid()
      modifies this
      ensures State() == old(State())
      ensures mate == Checkmate(old(State()), color)
    {
      var inCheck := IsInCheck(color);
      if !inCheck {
        return false;
      }
      var found := HasValidMove(color);
      return !found;
    }

    /** Not in check, and no piece of `color` has a valid move. */
    method IsStalemate(color: Color) returns (stalemate: bool)
      requires Valid()
      modifies this
      ensures State() == old(State())
      ensures stalemate == Stalemate(old(State()), color)
    {
      var inCheck := IsInCheck(color);
      if inCheck {
        return false;
      }
      var found := HasValidMove(color);
      return !found;
    }
  }
}
