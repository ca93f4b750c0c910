/**
  The board-level rules as functions of a Position: the board invariant, check detection,
  the check simulation, king moves with the safety test, legal-move filtering, checkmate and
  stalemate, and the effect of applying a move. The ChessBoard class is proved against these
  definitions; the lemmas here state what the definitions guarantee.
 */
module ChessRules {
  import opened ChessState
  import opened ChessPieces

  // ----------------------------------------------------------------------------------
  // Board invariants

  /** Every piece's own coordinates are those of the square holding it. */
  predicate PiecesKnowSquares(g: Grid)
    requires IsGrid(g)
  {
    forall r, c | 0 <= r < BOARD_SIZE && 0 <= c < BOARD_SIZE && g[r][c].Some? ::
      g[r][c].value.row == r && g[r][c].value.col == c
  }

  /** The starting square of each king. */
  function HomeSquare(c: Color): Square
  {
    if c == White then (7, 4) else (0, 4)
  }

  predicate HasCastlingRight(rights: Rights)
  {
    rights.kingside || rights.queenside
  }

  /** While a colour keeps a castling right, each of its kings stands on its home square. */
  predicate KingsHomeWhileCastling(pos: Position)
    requires WellFormed(pos)
  {
    forall r, c | 0 <= r < BOARD_SIZE && 0 <= c < BOARD_SIZE && pos.grid[r][c].Some? ::
      pos.grid[r][c].value.kind == King && HasCastlingRight(pos.castlingRights[pos.grid[r][c].value.color])
      ==> (r, c) == HomeSquare(pos.grid[r][c].value.color)
  }

  predicate EnPassantOnBoard(pos: Position)
  {
    pos.enPassantTarget.Some? ==> IsValidPosition(pos.enPassantTarget.value.0, pos.enPassantTarget.value.1)
  }

  /** The invariant every ChessBoard keeps between operations. */
  predicate Consistent(pos: Position)
  {
    WellFormed(pos) && PiecesKnowSquares(pos.grid) && KingsHomeWhileCastling(pos) && EnPassantOnBoard(pos)
  }

  /** The piece stands on the square its coordinates name. */
  predicate Placed(pos: Position, p: Piece)
    requires WellFormed(pos)
  {
    IsValidPosition(p.row, p.col) && pos.grid[p.row][p.col] == Some(p)
  }

  predicate IsKingOf(q: Option<Piece>, c: Color)
  {
    q.Some? && q.value.kind == King && q.value.color == c
  }

  /** Each cached king square holds the king of that colour. */
  predicate KingCacheOk(pos: Position)
    requires WellFormed(pos)
  {
    forall c: Color :: IsValidPosition(KingPos(pos, c).0, KingPos(pos, c).1)
                       && IsKingOf(pos.grid[KingPos(pos, c).0][KingPos(pos, c).1], c)
  }

  lemma PlacedFromSquare(pos: Position, r: int, c: int)
    requires Consistent(pos) && IsValidPosition(r, c) && pos.grid[r][c].Some?
    ensures Placed(pos, pos.grid[r][c].value)
  {
  }

  /** A king that still has a castling right stands on its home square. */
  lemma CastlingKingAtHome(pos: Position, p: Piece)
    requires Consistent(pos) && Placed(pos, p) && p.kind == King
    requires HasCastlingRight(pos.castlingRights[p.color])
    ensures (p.row, p.col) == HomeSquare(p.color)
  {
    assert pos.grid[p.row][p.col].Some?;
  }

  // ----------------------------------------------------------------------------------
  // Check detection

  /*
    Check detection and move generation call each other, as in the source:
    PossibleMoves(.., true) -> KingMoves -> SafeCastling -> KingsideSafe / QueensideSafe
    -> WouldBeInCheck -> InCheck -> AttacksKing -> PossibleMoves(.., false), which stops.
    The decreases clauses number the steps of that chain.
   */

  /** The piece on (r, c) is an opponent whose moves, without the safety test, reach the cached king square. */
  predicate AttacksKing(pos: Position, r: int, c: int, color: Color)
    requires WellFormed(pos) && IsValidPosition(r, c)
    decreases 1
  {
    pos.grid[r][c].Some? && pos.grid[r][c].value.color == Opponent(color)
    && KingPos(pos, color) in PossibleMoves(pos, pos.grid[r][c].value, false)
  }

  predicate InCheck(pos: Position, color: Color)
    requires WellFormed(pos)
    decreases 2
  {
    exists r, c | 0 <= r < BOARD_SIZE && 0 <= c < BOARD_SIZE :: AttacksKing(pos, r, c, color)
  }

  // ----------------------------------------------------------------------------------
  // The check simulation: the raw relocation, with the king cache following a king

  function Simulated(pos: Position, fr: int, fc: int, tr: int, tc: int): (sim: Position)
    requires WellFormed(pos) && IsValidPosition(fr, fc) && IsValidPosition(tr, tc)
    ensures WellFormed(sim)
    ensures sim.castlingRights == pos.castlingRights && sim.enPassantTarget == pos.enPassantTarget
  {
    var piece := pos.grid[fr][fc];
    var cached :=
      if piece.Some? && piece.value.kind == King then
        (if piece.value.color == White then pos.(whiteKingPos := (tr, tc)) else pos.(blackKingPos := (tr, tc)))
      else pos;
    cached.(grid := SetSquare(SetSquare(pos.grid, tr, tc, piece), fr, fc, None))
  }

  /** Putting back the mover and whatever stood on the destination undoes the simulation's relocation. */
  lemma UndoSimulatedGrid(g: Grid, fr: int, fc: int, tr: int, tc: int)
    requires IsGrid(g) && IsValidPosition(fr, fc) && IsValidPosition(tr, tc)
    ensures var moved := SetSquare(SetSquare(g, tr, tc, g[fr][fc]), fr, fc, None);
            SetSquare(SetSquare(moved, fr, fc, g[fr][fc]), tr, tc, g[tr][tc]) == g
  {
    var moved := SetSquare(SetSquare(g, tr, tc, g[fr][fc]), fr, fc, None);
    GridExtensionality(SetSquare(SetSquare(moved, fr, fc, g[fr][fc]), tr, tc, g[tr][tc]), g);
  }

  predicate WouldBeInCheck(pos: Position, fr: int, fc: int, tr: int, tc: int, color: Color)
    requires WellFormed(pos) && IsValidPosition(fr, fc) && IsValidPosition(tr, tc)
    decreases 3
  {
    InCheck(Simulated(pos, fr, fc, tr, tc), color)
  }

  // ----------------------------------------------------------------------------------
  // King moves with check_king_safety = True

  /** Kingside castling geometry holds and neither transit square col+1 nor col+2 is attacked. */
  predicate KingsideSafe(pos: Position, p: Piece)
    requires Consistent(pos) && Placed(pos, p) && p.kind == King
    decreases 4
  {
    KingsideGeometry(pos, p)
    && (CastlingKingAtHome(pos, p);
        !WouldBeInCheck(pos, p.row, p.col, p.row, p.col + 1, p.color)
        && !WouldBeInCheck(pos, p.row, p.col, p.row, p.col + 2, p.color))
  }

  /** Queenside castling geometry holds and neither transit square col-1 nor col-2 is attacked. */
  predicate QueensideSafe(pos: Position, p: Piece)
    requires Consistent(pos) && Placed(pos, p) && p.kind == King
    decreases 4
  {
    QueensideGeometry(pos, p)
    && (CastlingKingAtHome(pos, p);
        !WouldBeInCheck(pos, p.row, p.col, p.row, p.col - 1, p.color)
        && !WouldBeInCheck(pos, p.row, p.col, p.row, p.col - 2, p.color))
  }

  function SafeCastling(pos: Position, p: Piece): seq<Square>
    requires Consistent(pos) && Placed(pos, p) && p.kind == King
    decreases 5
  {
    if !p.hasMoved && !InCheck(pos, p.color) then
      (if KingsideSafe(pos, p) then [(p.row, p.col + 2)] else [])
      + (if QueensideSafe(pos, p) then [(p.row, p.col - 2)] else [])
    else []
  }

  function KingMoves(pos: Position, p: Piece): seq<Square>
    requires Consistent(pos) && Placed(pos, p) && p.kind == King
    decreases 6
  {
    Steps(pos.grid, p, KING_DIRECTIONS, |KING_DIRECTIONS|) + SafeCastling(pos, p)
  }

  /**
    get_possible_moves(board, check_king_safety): the flag matters only for a king, whose
    castling squares are then screened by the check simulation.
   */
  function PossibleMoves(pos: Position, p: Piece, checkKingSafety: bool): seq<Square>
    requires WellFormed(pos)
    requires checkKingSafety && p.kind == King ==> Consistent(pos) && Placed(pos, p)
    decreases if checkKingSafety then 7 else 0
  {
    if checkKingSafety && p.kind == King then KingMoves(pos, p) else PseudoMoves(pos, p)
  }

  // ----------------------------------------------------------------------------------
  // Facts about generation on a consistent board

  /**
    Every pseudo-legal move of a piece standing on its square lies on the board, differs
    from the piece's own square, and lands on an empty or opponent square unless it is an
    en-passant capture or a castling move.
   */
  lemma PseudoMovesOnBoard(pos: Position, p: Piece)
    requires Consistent(pos) && Placed(pos, p)
    ensures forall s | s in PseudoMoves(pos, p) ::
              IsValidPosition(s.0, s.1) && s != (p.row, p.col)
              && (EmptyOrEnemy(pos.grid, p, s)
                  || (p.kind == Pawn && s in PawnEnPassant(pos.enPassantTarget, p))
                  || (p.kind == King && s in CastlingGeometry(pos, p)))
  {
    PseudoMovesShape(pos, p);
    if p.kind == King {
      CastlingSquaresOnBoard(pos, p);
    }
  }

  /** An offered castling square is two columns from a king on its home square, so on the board. */
  lemma CastlingSquaresOnBoard(pos: Position, p: Piece)
    requires Consistent(pos) && Placed(pos, p) && p.kind == King
    ensures forall s | s in CastlingGeometry(pos, p) :: IsValidPosition(s.0, s.1) && s != (p.row, p.col)
  {
    if HasCastlingRight(pos.castlingRights[p.color]) {
      CastlingKingAtHome(pos, p);
    } else {
      assert CastlingGeometry(pos, p) == [];
    }
  }

  /** The safety test only removes castling squares: every one it keeps is offered by geometry. */
  lemma SafeCastlingWithinGeometry(pos: Position, p: Piece)
    requires Consistent(pos) && Placed(pos, p) && p.kind == King
    ensures forall s | s in SafeCastling(pos, p) :: s in CastlingGeometry(pos, p)
  {
    if !p.hasMoved && !InCheck(pos, p.color) {
      assert KingsideSafe(pos, p) ==> KingsideGeometry(pos, p);
      assert QueensideSafe(pos, p) ==> QueensideGeometry(pos, p);
    }
  }

  /** A king's moves with the safety test on are adjacent steps onto empty or enemy squares, or castling squares on the board. */
  lemma KingMovesOnBoard(pos: Position, p: Piece)
    requires Consistent(pos) && Placed(pos, p) && p.kind == King
    ensures forall s | s in KingMoves(pos, p) ::
              IsValidPosition(s.0, s.1) && s != (p.row, p.col)
              && (EmptyOrEnemy(pos.grid, p, s) || s in CastlingGeometry(pos, p))
  {
    StepsShape(pos.grid, p, KING_DIRECTIONS, |KING_DIRECTIONS|);
    SafeCastlingWithinGeometry(pos, p);
    CastlingSquaresOnBoard(pos, p);
  }

  /** The same holds with the safety test on; the castling squares offered are a subset. */
  lemma PossibleMovesOnBoard(pos: Position, p: Piece)
    requires Consistent(pos) && Placed(pos, p)
    ensures forall s | s in PossibleMoves(pos, p, true) ::
              IsValidPosition(s.0, s.1) && s != (p.row, p.col)
              && (EmptyOrEnemy(pos.grid, p, s)
                  || (p.kind == Pawn && s in PawnEnPassant(pos.enPassantTarget, p))
                  || (p.kind == King && s in CastlingGeometry(pos, p)))
  {
    if p.kind == King {
      KingMovesOnBoard(pos, p);
    } else {
      PseudoMovesOnBoard(pos, p);
    }
  }

  /** A king's step targets are adjacent squares, so never the two-column castling squares. */
  lemma KingStepsAdjacent(g: Grid, p: Piece)
    requires IsGrid(g)
    ensures forall s | s in Steps(g, p, KING_DIRECTIONS, |KING_DIRECTIONS|) :: Abs(s.0 - p.row) <= 1 && Abs(s.1 - p.col) <= 1
  {
    StepsShape(g, p, KING_DIRECTIONS, |KING_DIRECTIONS|);
    forall s | s in Steps(g, p, KING_DIRECTIONS, |KING_DIRECTIONS|)
      ensures Abs(s.0 - p.row) <= 1 && Abs(s.1 - p.col) <= 1
    {
      assert (s.0 - p.row, s.1 - p.col) in KING_DIRECTIONS;
    }
  }

  /**
    Castling with the safety test on: the two-column king move is offered exactly when the
    king has not moved, is not in check, the right and geometry hold, and neither transit
    square is attacked.
   */
  lemma SafeCastlingRule(pos: Position, p: Piece)
    requires Consistent(pos) && Placed(pos, p) && p.kind == King
    ensures (p.row, p.col + 2) in KingMoves(pos, p) <==>
              !p.hasMoved && !InCheck(pos, p.color) && KingsideSafe(pos, p)
    ensures (p.row, p.col - 2) in KingMoves(pos, p) <==>
              !p.hasMoved && !InCheck(pos, p.color) && QueensideSafe(pos, p)
  {
    KingStepsAdjacent(pos.grid, p);
    var steps := Steps(pos.grid, p, KING_DIRECTIONS, |KING_DIRECTIONS|);
    assert KingMoves(pos, p) == steps + SafeCastling(pos, p);
    assert (p.row, p.col + 2) !in steps && (p.row, p.col - 2) !in steps;
  }

  /** With the safety test off, the castling right and the open geometry alone decide. */
  lemma CastlingGeometryRule(pos: Position, p: Piece)
    requires WellFormed(pos)
    ensures (p.row, p.col + 2) in KingPseudoMoves(pos, p) <==> KingsideGeometry(pos, p)
    ensures (p.row, p.col - 2) in KingPseudoMoves(pos, p) <==> QueensideGeometry(pos, p)
  {
    KingStepsAdjacent(pos.grid, p);
    var steps := Steps(pos.grid, p, KING_DIRECTIONS, |KING_DIRECTIONS|);
    assert (p.row, p.col + 2) !in steps && (p.row, p.col - 2) !in steps;
  }

  // ----------------------------------------------------------------------------------
  // Legal moves

  /**
    Keep, in order, those of the first n candidates whose simulation leaves `color` out of
    check. A candidate off the board is dropped (PossibleMovesOnBoard shows none is).
   */
  function LegalFilter(pos: Position, fr: int, fc: int, color: Color, cands: seq<Square>, n: nat): seq<Square>
    requires WellFormed(pos) && IsValidPosition(fr, fc) && n <= |cands|
  {
    if n == 0 then []
    else
      var s := cands[n - 1];
      LegalFilter(pos, fr, fc, color, cands, n - 1)
      + (if IsValidPosition(s.0, s.1) && !WouldBeInCheck(pos, fr, fc, s.0, s.1, color) then [s] else [])
  }

  lemma {:induction false} LegalFilterMembers(pos: Position, fr: int, fc: int, color: Color, cands: seq<Square>, n: nat, s: Square)
    requires WellFormed(pos) && IsValidPosition(fr, fc) && n <= |cands|
    ensures s in LegalFilter(pos, fr, fc, color, cands, n) <==>
              (exists k | 0 <= k < n :: cands[k] == s)
              && IsValidPosition(s.0, s.1) && !WouldBeInCheck(pos, fr, fc, s.0, s.1, color)
  {
    if n > 0 {
      LegalFilterMembers(pos, fr, fc, color, cands, n - 1, s);
      if cands[n - 1] == s {
        assert exists k | 0 <= k < n :: cands[k] == s;
      } else {
        assert (exists k | 0 <= k < n :: cands[k] == s) <==> (exists k | 0 <= k < n - 1 :: cands[k] == s);
      }
    }
  }

  /** get_valid_moves: [] for an empty square, else the possible moves that keep the king safe. */
  function ValidMoves(pos: Position, r: int, c: int): seq<Square>
    requires Consistent(pos)
  {
    match PieceAt(pos.grid, r, c)
    case None => []
    case Some(p) =>
      PlacedFromSquare(pos, r, c);
      var cands := PossibleMoves(pos, p, true);
      LegalFilter(pos, r, c, p.color, cands, |cands|)
  }

  /**
    A valid move of the piece on (r, c) is exactly one of its possible moves whose
    simulation leaves its own colour out of check; an empty square has none. Every valid
    move lies on the board.
   */
  lemma ValidMovesRule(pos: Position, r: int, c: int, s: Square)
    requires Consistent(pos)
    ensures PieceAt(pos.grid, r, c).None? ==> ValidMoves(pos, r, c) == []
    ensures PieceAt(pos.grid, r, c).Some? ==>
              var p := PieceAt(pos.grid, r, c).value;
              Placed(pos, p)
              && (s in ValidMoves(pos, r, c) <==>
                    s in PossibleMoves(pos, p, true) && IsValidPosition(s.0, s.1)
                    && !WouldBeInCheck(pos, r, c, s.0, s.1, p.color))
    ensures s in ValidMoves(pos, r, c) ==> IsValidPosition(s.0, s.1)
  {
    if PieceAt(pos.grid, r, c).Some? {
      var p := PieceAt(pos.grid, r, c).value;
      PlacedFromSquare(pos, r, c);
      PossibleMovesOnBoard(pos, p);
      var cands := PossibleMoves(pos, p, true);
      LegalFilterMembers(pos, r, c, p.color, cands, |cands|, s);
      assert (exists k | 0 <= k < |cands| :: cands[k] == s) <==> s in cands;
    }
  }

  // ----------------------------------------------------------------------------------
  // Checkmate and stalemate

  /** The square holds a piece of `color` with at least one valid move. */
  predicate CanMoveFrom(pos: Position, r: int, c: int, color: Color)
    requires Consistent(pos) && IsValidPosition(r, c)
  {
    pos.grid[r][c].Some? && pos.grid[r][c].value.color == color && ValidMoves(pos, r, c) != []
  }

  /** No piece of `color` on row r has a valid move. */
  predicate RowStuck(pos: Position, color: Color, r: int)
    requires Consistent(pos) && 0 <= r < BOARD_SIZE
  {
    forall c | 0 <= c < BOARD_SIZE :: !CanMoveFrom(pos, r, c, color)
  }

  /** No piece of `color` in the first `rows` rows has a valid move: the row-by-row scan's progress. */
  predicate StuckInRows(pos: Position, color: Color, rows: nat)
    requires Consistent(pos) && rows <= BOARD_SIZE
  {
    rows == 0 || (StuckInRows(pos, color, rows - 1) && RowStuck(pos, color, rows - 1))
  }

  /** The scan shared by is_checkmate and is_stalemate finds no piece of `color` with a valid move. */
  predicate NoValidMoves(pos: Position, color: Color)
    requires Consistent(pos)
  {
    StuckInRows(pos, color, BOARD_SIZE)
  }

  /** The scan's progress after `rows` rows says each of those rows is stuck. */
  lemma {:induction false} StuckInRowsAll(pos: Position, color: Color, rows: nat)
    requires Consistent(pos) && rows <= BOARD_SIZE
    ensures StuckInRows(pos, color, rows) <==> forall r | 0 <= r < rows :: RowStuck(pos, color, r)
  {
    if rows > 0 {
      StuckInRowsAll(pos, color, rows - 1);
    }
  }

  /** No valid move for `color` means no square holds a piece of `color` with a valid move. */
  lemma NoValidMovesRule(pos: Position, color: Color)
    requires Consistent(pos)
    ensures NoValidMoves(pos, color) <==>
              forall r, c | 0 <= r < BOARD_SIZE && 0 <= c < BOARD_SIZE :: !CanMoveFrom(pos, r, c, color)
  {
    StuckInRowsAll(pos, color, BOARD_SIZE);
    if NoValidMoves(pos, color) {
      forall r, c | 0 <= r < BOARD_SIZE && 0 <= c < BOARD_SIZE
        ensures !CanMoveFrom(pos, r, c, color)
      {
        assert RowStuck(pos, color, r);
      }
    } else {
      var r :| 0 <= r < BOARD_SIZE && !RowStuck(pos, color, r);
      var c :| 0 <= c < BOARD_SIZE && CanMoveFrom(pos, r, c, color);
    }
  }

  predicate Checkmate(pos: Position, color: Color)
    requires Consistent(pos)
  {
    InCheck(pos, color) && NoValidMoves(pos, color)
  }

  predicate Stalemate(pos: Position, color: Color)
    requires Consistent(pos)
  {
    !InCheck(pos, color) && NoValidMoves(pos, color)
  }

  /** No side is ever both checkmated and stalemated; either one means it has no valid move. */
  lemma MateAndStalemateExclusive(pos: Position, color: Color)
    requires Consistent(pos)
    ensures !(Checkmate(pos, color) && Stalemate(pos, color))
    ensures Checkmate(pos, color) || Stalemate(pos, color) <==> NoValidMoves(pos, color)
  {
  }

  // ----------------------------------------------------------------------------------
  // Applying a move

  /** A piece lifted onto another square, now knowing that square; an empty square stays empty. */
  function Rehomed(q: Option<Piece>, row: int, col: int): Option<Piece>
  {
    if q.Some? then Some(q.value.(row := row, col := col)) else None
  }

  /** Castling's rook step: whatever stands on (row, from) moves to (row, to), and (row, from) is emptied. */
  function RelocateRook(g: Grid, row: int, from: int, to: int): (g': Grid)
    requires IsGrid(g) && IsValidPosition(row, from) && IsValidPosition(row, to)
    ensures IsGrid(g')
  {
    SetSquare(SetSquare(g, row, to, Rehomed(g[row][from], row, to)), row, from, None)
  }

  /** A king move: cache update, both rights of its colour cleared, and the castling rook. */
  function KingMoveEffects(pos: Position, king: Piece, fr: int, fc: int, tr: int, tc: int): (pos': Position)
    requires WellFormed(pos) && IsValidPosition(fr, fc) && IsValidPosition(tr, tc)
    ensures WellFormed(pos')
  {
    var cached := if king.color == White then pos.(whiteKingPos := (tr, tc)) else pos.(blackKingPos := (tr, tc));
    var cleared := cached.(castlingRights := cached.castlingRights[king.color := Rights(false, false)]);
    if Abs(fc - tc) == 2 then
      if tc > fc then cleared.(grid := RelocateRook(cleared.grid, fr, 7, 5))
      else cleared.(grid := RelocateRook(cleared.grid, fr, 0, 3))
    else cleared
  }

  function KingsideCorner(c: Color): Square
  {
    if c == White then (7, 7) else (0, 7)
  }

  function QueensideCorner(c: Color): Square
  {
    if c == White then (7, 0) else (0, 0)
  }

  /** A rook leaving its colour's corner clears the right of that wing. */
  function RookMoveEffects(pos: Position, rook: Piece, fr: int, fc: int): (pos': Position)
    requires WellFormed(pos)
    ensures WellFormed(pos')
  {
    var rights := pos.castlingRights[rook.color];
    if (fr, fc) == QueensideCorner(rook.color) then
      pos.(castlingRights := pos.castlingRights[rook.color := rights.(queenside := false)])
    else if (fr, fc) == KingsideCorner(rook.color) then
      pos.(castlingRights := pos.castlingRights[rook.color := rights.(kingside := false)])
    else pos
  }

  /** A pawn move: a double step sets the target; a diagonal step onto an empty square removes (fr, tc). */
  function PawnMoveEffects(pos: Position, fr: int, fc: int, tr: int, tc: int): (pos': Position)
    requires WellFormed(pos) && IsValidPosition(fr, fc) && IsValidPosition(tr, tc)
    ensures WellFormed(pos')
  {
    var marked := if Abs(fr - tr) == 2 then pos.(enPassantTarget := Some((tr, tc))) else pos;
    if Abs(fc - tc) == 1 && marked.grid[tr][tc].None? then
      marked.(grid := SetSquare(marked.grid, fr, tc, None))
    else marked
  }

  function PromotedQueen(pawn: Piece, tr: int, tc: int): Piece
  {
    Piece(pawn.color, Queen, tr, tc, false)
  }

  function Promote(pos: Position, pawn: Piece, fr: int, fc: int, tr: int, tc: int): (pos': Position)
    requires WellFormed(pos) && IsValidPosition(fr, fc) && IsValidPosition(tr, tc)
    ensures WellFormed(pos')
  {
    var queen := PromotedQueen(pawn, tr, tc);
    pos.(grid := SetSquare(SetSquare(pos.grid, fr, fc, None), tr, tc, Some(queen)),
         lastMovedPiece := Some(queen))
  }

  function MovedPiece(piece: Piece, tr: int, tc: int): Piece
  {
    piece.(row := tr, col := tc, hasMoved := true)
  }

  /** The regular move: the piece, now knowing its square and marked as moved, replaces the destination. */
  function Relocate(pos: Position, piece: Piece, fr: int, fc: int, tr: int, tc: int): (pos': Position)
    requires WellFormed(pos) && IsValidPosition(fr, fc) && IsValidPosition(tr, tc)
    ensures WellFormed(pos')
  {
    var moved := MovedPiece(piece, tr, tc);
    pos.(grid := SetSquare(SetSquare(pos.grid, tr, tc, Some(moved)), fr, fc, None),
         lastMovedPiece := Some(moved))
  }

  /** move_piece on a non-empty source square. */
  function Moved(pos: Position, fr: int, fc: int, tr: int, tc: int): (pos': Position)
    requires WellFormed(pos) && IsValidPosition(fr, fc) && IsValidPosition(tr, tc)
    requires pos.grid[fr][fc].Some?
    ensures WellFormed(pos')
  {
    var piece := pos.grid[fr][fc].value;
    var reset := pos.(enPassantTarget := None);
    var afterKing := if piece.kind == King then KingMoveEffects(reset, piece, fr, fc, tr, tc) else reset;
    var afterRook := if piece.kind == Rook then RookMoveEffects(afterKing, piece, fr, fc) else afterKing;
    if piece.kind == Pawn then
      var afterPawn := PawnMoveEffects(afterRook, fr, fc, tr, tc);
      if tr == 0 || tr == 7 then Promote(afterPawn, piece, fr, fc, tr, tc)
      else Relocate(afterPawn, piece, fr, fc, tr, tc)
    else Relocate(afterRook, piece, fr, fc, tr, tc)
  }

  // ----------------------------------------------------------------------------------
  // What a move changes

  /** Every square move_piece may write: source, destination, the castling rook's squares, the square of a pawn taken en passant. */
  function WrittenSquares(pos: Position, fr: int, fc: int, tr: int, tc: int): set<Square>
    requires WellFormed(pos) && IsValidPosition(fr, fc) && IsValidPosition(tr, tc)
    requires pos.grid[fr][fc].Some?
  {
    var piece := pos.grid[fr][fc].value;
    {(fr, fc), (tr, tc)}
    + (if piece.kind == King && Abs(fc - tc) == 2 then
         (if tc > fc then {(fr, 7), (fr, 5)} else {(fr, 0), (fr, 3)})
       else {})
    + (if piece.kind == Pawn && Abs(fc - tc) == 1 && pos.grid[tr][tc].None? then {(fr, tc)} else {})
  }

  /** Squares outside WrittenSquares are untouched by a move. */
  lemma MovedFrame(pos: Position, fr: int, fc: int, tr: int, tc: int)
    requires WellFormed(pos) && IsValidPosition(fr, fc) && IsValidPosition(tr, tc)
    requires pos.grid[fr][fc].Some?
    ensures forall r, c | 0 <= r < BOARD_SIZE && 0 <= c < BOARD_SIZE && (r, c) !in WrittenSquares(pos, fr, fc, tr, tc) ::
              Moved(pos, fr, fc, tr, tc).grid[r][c] == pos.grid[r][c]
  {
    forall r, c | 0 <= r < BOARD_SIZE && 0 <= c < BOARD_SIZE && (r, c) !in WrittenSquares(pos, fr, fc, tr, tc) {
      MovedFrameAt(pos, fr, fc, tr, tc, r, c);
    }
  }

  /** One square at a time: a square move_piece does not write keeps its piece. */
  lemma MovedFrameAt(pos: Position, fr: int, fc: int, tr: int, tc: int, r: int, c: int)
    requires WellFormed(pos) && IsValidPosition(fr, fc) && IsValidPosition(tr, tc)
    requires pos.grid[fr][fc].Some?
    requires IsValidPosition(r, c) && (r, c) !in WrittenSquares(pos, fr, fc, tr, tc)
    ensures Moved(pos, fr, fc, tr, tc).grid[r][c] == pos.grid[r][c]
  {
    var piece := pos.grid[fr][fc].value;
    assert (r, c) != (fr, fc) && (r, c) != (tr, tc);
    var reset := pos.(enPassantTarget := None);
    var afterKing := if piece.kind == King then KingMoveEffects(reset, piece, fr, fc, tr, tc) else reset;
    if piece.kind == King && Abs(fc - tc) == 2 {
      if tc > fc {
        assert (r, c) != (fr, 7) && (r, c) != (fr, 5);
      } else {
        assert (r, c) != (fr, 0) && (r, c) != (fr, 3);
      }
    }
    assert afterKing.grid[r][c] == pos.grid[r][c];
    var afterRook := if piece.kind == Rook then RookMoveEffects(afterKing, piece, fr, fc) else afterKing;
    assert afterRook.grid == afterKing.grid;
    if piece.kind == Pawn {
      if Abs(fc - tc) == 1 && afterRook.grid[tr][tc].None? {
        assert (r, c) != (fr, tc);
      }
      assert PawnMoveEffects(afterRook, fr, fc, tr, tc).grid[r][c] == pos.grid[r][c];
    }
  }

  /**
    The regular move (anything but a promotion): the destination holds the mover, now
    knowing its square and marked as moved, the source is empty, and the mover is recorded
    as the last moved piece.
   */
  lemma MovedRelocates(pos: Position, fr: int, fc: int, tr: int, tc: int)
    requires WellFormed(pos) && IsValidPosition(fr, fc) && IsValidPosition(tr, tc)
    requires pos.grid[fr][fc].Some? && (fr, fc) != (tr, tc)
    requires !(pos.grid[fr][fc].value.kind == Pawn && (tr == 0 || tr == 7))
    ensures var moved := Moved(pos, fr, fc, tr, tc);
            var mover := pos.grid[fr][fc].value.(row := tr, col := tc, hasMoved := true);
            moved.grid[tr][tc] == Some(mover) && moved.grid[fr][fc] == None
            && moved.lastMovedPiece == Some(mover)
  {
  }

  /** A pawn reaching row 0 or 7 is replaced by a fresh queen of its colour, which counts as unmoved. */
  lemma MovedPromotes(pos: Position, fr: int, fc: int, tr: int, tc: int)
    requires WellFormed(pos) && IsValidPosition(fr, fc) && IsValidPosition(tr, tc)
    requires pos.grid[fr][fc].Some? && (fr, fc) != (tr, tc)
    requires pos.grid[fr][fc].value.kind == Pawn && (tr == 0 || tr == 7)
    ensures var moved := Moved(pos, fr, fc, tr, tc);
            var queen := Piece(pos.grid[fr][fc].value.color, Queen, tr, tc, false);
            moved.grid[tr][tc] == Some(queen) && moved.grid[fr][fc] == None
            && moved.lastMovedPiece == Some(queen)
  {
  }

  /**
    A king move updates that colour's cached king square and leaves the other's; castling
    from column 4 brings the corner rook (or nothing, if the corner is empty) next to the
    king and empties the corner.
   */
  lemma MovedKing(pos: Position, fr: int, fc: int, tr: int, tc: int)
    requires WellFormed(pos) && IsValidPosition(fr, fc) && IsValidPosition(tr, tc)
    requires pos.grid[fr][fc].Some? && pos.grid[fr][fc].value.kind == King
    ensures var moved := Moved(pos, fr, fc, tr, tc);
            var color := pos.grid[fr][fc].value.color;
            KingPos(moved, color) == (tr, tc)
            && KingPos(moved, Opponent(color)) == KingPos(pos, Opponent(color))
    ensures fc == 4 && tc == 6 ==>
              var moved := Moved(pos, fr, fc, tr, tc);
              moved.grid[fr][5] == Rehomed(pos.grid[fr][7], fr, 5) && moved.grid[fr][7] == None
    ensures fc == 4 && tc == 2 ==>
              var moved := Moved(pos, fr, fc, tr, tc);
              moved.grid[fr][3] == Rehomed(pos.grid[fr][0], fr, 3) && moved.grid[fr][0] == None
  {
  }

  /** Any other move leaves both cached king squares alone. */
  lemma MovedKeepsOtherKingSquares(pos: Position, fr: int, fc: int, tr: int, tc: int)
    requires WellFormed(pos) && IsValidPosition(fr, fc) && IsValidPosition(tr, tc)
    requires pos.grid[fr][fc].Some? && pos.grid[fr][fc].value.kind != King
    ensures forall c: Color :: KingPos(Moved(pos, fr, fc, tr, tc), c) == KingPos(pos, c)
  {
  }

  /** Moving a king of colour k clears k's kingside right; so does moving k's rook off k's kingside corner. */
  predicate ClearsKingside(piece: Piece, fr: int, fc: int, k: Color)
  {
    piece.color == k && (piece.kind == King || (piece.kind == Rook && (fr, fc) == KingsideCorner(k)))
  }

  predicate ClearsQueenside(piece: Piece, fr: int, fc: int, k: Color)
  {
    piece.color == k && (piece.kind == King || (piece.kind == Rook && (fr, fc) == QueensideCorner(k)))
  }

  /**
    Castling rights after a move: a right survives exactly when it held before and the move
    is neither a king move of that colour nor that colour's rook leaving the wing's corner.
    So rights never come back, and capturing a rook on its corner does not clear them.
   */
  lemma MovedCastlingRights(pos: Position, fr: int, fc: int, tr: int, tc: int, k: Color)
    requires WellFormed(pos) && IsValidPosition(fr, fc) && IsValidPosition(tr, tc)
    requires pos.grid[fr][fc].Some?
    ensures var piece := pos.grid[fr][fc].value;
            var before := pos.castlingRights[k];
            Moved(pos, fr, fc, tr, tc).castlingRights[k]
            == Rights(before.kingside && !ClearsKingside(piece, fr, fc, k),
                      before.queenside && !ClearsQueenside(piece, fr, fc, k))
  {
  }

  /** The en-passant target afterwards is the landing square of a pawn's two-row move, and otherwise none. */
  lemma MovedEnPassantTarget(pos: Position, fr: int, fc: int, tr: int, tc: int)
    requires WellFormed(pos) && IsValidPosition(fr, fc) && IsValidPosition(tr, tc)
    requires pos.grid[fr][fc].Some?
    ensures Moved(pos, fr, fc, tr, tc).enPassantTarget ==
              if pos.grid[fr][fc].value.kind == Pawn && Abs(fr - tr) == 2 then Some((tr, tc)) else None
  {
  }

  /** A pawn moving one column aside onto an empty square removes whatever stood beside it on its own row. */
  lemma MovedEnPassantCapture(pos: Position, fr: int, fc: int, tr: int, tc: int)
    requires WellFormed(pos) && IsValidPosition(fr, fc) && IsValidPosition(tr, tc)
    requires pos.grid[fr][fc].Some? && pos.grid[fr][fc].value.kind == Pawn
    requires Abs(fc - tc) == 1 && pos.grid[tr][tc].None? && fr != tr
    ensures Moved(pos, fr, fc, tr, tc).grid[fr][tc] == None
  {
  }

  // ----------------------------------------------------------------------------------
  // Moves keep the board invariant

  /** Writing one square keeps the invariant if the newcomer knows its square and is no king with a right off its home. */
  lemma SetSquareKeepsConsistent(pos: Position, r: int, c: int, v: Option<Piece>)
    requires Consistent(pos) && IsValidPosition(r, c)
    requires v.Some? ==> v.value.row == r && v.value.col == c
    requires v.Some? && v.value.kind == King && HasCastlingRight(pos.castlingRights[v.value.color])
             ==> (r, c) == HomeSquare(v.value.color)
    ensures Consistent(pos.(grid := SetSquare(pos.grid, r, c, v)))
  {
  }

  /** Replacing the rights by ones that grant castling to no colour that lacked it keeps the invariant. */
  lemma FewerRightsKeepConsistent(pos: Position, rights: map<Color, Rights>)
    requires Consistent(pos)
    requires forall k: Color :: k in rights
    requires forall k: Color :: HasCastlingRight(rights[k]) ==> HasCastlingRight(pos.castlingRights[k])
    ensures Consistent(pos.(castlingRights := rights))
  {
  }

  lemma KingMoveEffectsKeepConsistent(pos: Position, king: Piece, fr: int, fc: int, tr: int, tc: int)
    requires Consistent(pos) && IsValidPosition(fr, fc) && IsValidPosition(tr, tc)
    ensures var pos' := KingMoveEffects(pos, king, fr, fc, tr, tc);
            Consistent(pos') && pos'.castlingRights[king.color] == Rights(false, false)
  {
    var cached := if king.color == White then pos.(whiteKingPos := (tr, tc)) else pos.(blackKingPos := (tr, tc));
    var cleared := cached.(castlingRights := cached.castlingRights[king.color := Rights(false, false)]);
    FewerRightsKeepConsistent(cached, cleared.castlingRights);
    if Abs(fc - tc) == 2 {
      var from, to := if tc > fc then 7 else 0, if tc > fc then 5 else 3;
      var rook := Rehomed(cleared.grid[fr][from], fr, to);
      SetSquareKeepsConsistent(cleared, fr, to, rook);
      var mid := cleared.(grid := SetSquare(cleared.grid, fr, to, rook));
      SetSquareKeepsConsistent(mid, fr, from, None);
    }
  }

  lemma RookMoveEffectsKeepConsistent(pos: Position, rook: Piece, fr: int, fc: int)
    requires Consistent(pos)
    ensures Consistent(RookMoveEffects(pos, rook, fr, fc))
  {
    var rights := pos.castlingRights[rook.color];
    if (fr, fc) == QueensideCorner(rook.color) {
      FewerRightsKeepConsistent(pos, pos.castlingRights[rook.color := rights.(queenside := false)]);
    } else if (fr, fc) == KingsideCorner(rook.color) {
      FewerRightsKeepConsistent(pos, pos.castlingRights[rook.color := rights.(kingside := false)]);
    }
  }

  lemma PawnMoveEffectsKeepConsistent(pos: Position, fr: int, fc: int, tr: int, tc: int)
    requires Consistent(pos) && IsValidPosition(fr, fc) && IsValidPosition(tr, tc)
    ensures Consistent(PawnMoveEffects(pos, fr, fc, tr, tc))
  {
    var marked := if Abs(fr - tr) == 2 then pos.(enPassantTarget := Some((tr, tc))) else pos;
    if Abs(fc - tc) == 1 && marked.grid[tr][tc].None? {
      SetSquareKeepsConsistent(marked, fr, tc, None);
    }
  }

  /** move_piece keeps the board invariant. */
  lemma MovedConsistent(pos: Position, fr: int, fc: int, tr: int, tc: int)
    requires Consistent(pos) && IsValidPosition(fr, fc) && IsValidPosition(tr, tc)
    requires pos.grid[fr][fc].Some?
    ensures Consistent(Moved(pos, fr, fc, tr, tc))
  {
    var piece := pos.grid[fr][fc].value;
    var reset := pos.(enPassantTarget := None);
    var afterKing := if piece.kind == King then KingMoveEffects(reset, piece, fr, fc, tr, tc) else reset;
    if piece.kind == King {
      KingMoveEffectsKeepConsistent(reset, piece, fr, fc, tr, tc);
    }
    var afterRook := if piece.kind == Rook then RookMoveEffects(afterKing, piece, fr, fc) else afterKing;
    if piece.kind == Rook {
      RookMoveEffectsKeepConsistent(afterKing, piece, fr, fc);
    }
    var last := afterRook;
    if piece.kind == Pawn {
      PawnMoveEffectsKeepConsistent(afterRook, fr, fc, tr, tc);
      last := PawnMoveEffects(afterRook, fr, fc, tr, tc);
    }
    if piece.kind == Pawn && (tr == 0 || tr == 7) {
      var queen := PromotedQueen(piece, tr, tc);
      SetSquareKeepsConsistent(last, fr, fc, None);
      var cleared := last.(grid := SetSquare(last.grid, fr, fc, None));
      SetSquareKeepsConsistent(cleared, tr, tc, Some(queen));
      assert Moved(pos, fr, fc, tr, tc)
          == cleared.(grid := SetSquare(cleared.grid, tr, tc, Some(queen)), lastMovedPiece := Some(queen));
    } else {
      var mover := MovedPiece(piece, tr, tc);
      SetSquareKeepsConsistent(last, tr, tc, Some(mover));
      var placed := last.(grid := SetSquare(last.grid, tr, tc, Some(mover)));
      SetSquareKeepsConsistent(placed, fr, fc, None);
      assert Moved(pos, fr, fc, tr, tc)
          == placed.(grid := SetSquare(placed.grid, fr, fc, None), lastMovedPiece := Some(mover));
    }
  }

  /** The move overwrites no king other than the mover itself. */
  predicate OverwritesNoKing(pos: Position, fr: int, fc: int, tr: int, tc: int)
    requires WellFormed(pos) && IsValidPosition(fr, fc) && IsValidPosition(tr, tc)
    requires pos.grid[fr][fc].Some?
  {
    forall s | s in WrittenSquares(pos, fr, fc, tr, tc) && s != (fr, fc) ::
      IsValidPosition(s.0, s.1) && !(pos.grid[s.0][s.1].Some? && pos.grid[s.0][s.1].value.kind == King)
  }

  /** The cached king squares stay right after any non-null move that captures no king. */
  lemma MovedKeepsKingCache(pos: Position, fr: int, fc: int, tr: int, tc: int)
    requires WellFormed(pos) && KingCacheOk(pos) && IsValidPosition(fr, fc) && IsValidPosition(tr, tc)
    requires pos.grid[fr][fc].Some? && (fr, fc) != (tr, tc)
    requires OverwritesNoKing(pos, fr, fc, tr, tc)
    ensures KingCacheOk(Moved(pos, fr, fc, tr, tc))
  {
    var piece := pos.grid[fr][fc].value;
    var moved := Moved(pos, fr, fc, tr, tc);
    MovedFrame(pos, fr, fc, tr, tc);
    if piece.kind == King {
      MovedKing(pos, fr, fc, tr, tc);
      MovedRelocates(pos, fr, fc, tr, tc);
    } else {
      MovedKeepsOtherKingSquares(pos, fr, fc, tr, tc);
    }
    forall k: Color
      ensures IsValidPosition(KingPos(moved, k).0, KingPos(moved, k).1)
              && IsKingOf(moved.grid[KingPos(moved, k).0][KingPos(moved, k).1], k)
    {
      if !(piece.kind == King && piece.color == k) {
        var sq := KingPos(pos, k);
        assert IsKingOf(pos.grid[sq.0][sq.1], k);
        assert sq !in WrittenSquares(pos, fr, fc, tr, tc);
      }
    }
  }

  // ----------------------------------------------------------------------------------
  // The starting position

  /** Back-rank kinds by column: rook, knight, bishop, queen, king, bishop, knight, rook. */
  function BackRankKind(c: int): Kind
  {
    if c == 0 || c == 7 then Rook
    else if c == 1 || c == 6 then Knight
    else if c == 2 || c == 5 then Bishop
    else if c == 3 then Queen
    else King
  }

  /** What setup_pieces puts on a square: Black on rows 0 and 1, White on rows 6 and 7. */
  function StartingPiece(r: int, c: int): Option<Piece>
  {
    if r == 0 then Some(Piece(Black, BackRankKind(c), 0, c, false))
    else if r == 1 then Some(Piece(Black, Pawn, 1, c, false))
    else if r == 6 then Some(Piece(White, Pawn, 6, c, false))
    else if r == 7 then Some(Piece(White, BackRankKind(c), 7, c, false))
    else None
  }

  /** A freshly constructed board. */
  predicate IsInitialPosition(pos: Position)
  {
    WellFormed(pos)
    && (forall r, c | 0 <= r < BOARD_SIZE && 0 <= c < BOARD_SIZE :: pos.grid[r][c] == StartingPiece(r, c))
    && pos.whiteKingPos == (7, 4) && pos.blackKingPos == (0, 4)
    && (forall k: Color :: pos.castlingRights[k] == Rights(true, true))
    && pos.enPassantTarget == None && pos.lastMovedPiece == None
  }

  /** The starting position satisfies the board invariant and its cached king squares hold the kings. */
  lemma InitialPositionConsistent(pos: Position)
    requires IsInitialPosition(pos)
    ensures Consistent(pos) && KingCacheOk(pos)
  {
    assert pos.grid[7][4] == StartingPiece(7, 4);
    assert pos.grid[0][4] == StartingPiece(0, 4);
  }
}
