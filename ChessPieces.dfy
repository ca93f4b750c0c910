/**
  Pseudo-legal move generation: for each kind of piece, the squares it may move to by its
  movement geometry alone, read from a board snapshot. Each generator is specified by a
  function (the list of squares, in the order they are produced) and implemented by a
  method that walks the same direction lists with the same loops and early exits.

  This module is the "check_king_safety = False" mode: the king's castling squares are
  offered on geometry and castling rights alone. The mode with the safety test needs the
  board's check simulation and lives in ChessRules / ChessBoard.
 */
module ChessPieces {
  import opened ChessState

  /** Row step of a pawn: White moves toward row 0, Black toward row 7. */
  function Direction(c: Color): int
  {
    if c == White then -1 else 1
  }

  /** The square is on the board and empty, or holds a piece of the other colour. */
  predicate EmptyOrEnemy(g: Grid, p: Piece, s: Square)
    requires IsGrid(g)
  {
    IsValidPosition(s.0, s.1) && (g[s.0][s.1].None? || g[s.0][s.1].value.color != p.color)
  }

  // ----------------------------------------------------------------------------------
  // Pawn

  /**
    Up to n squares straight ahead of (row, col) in row step dir, stopping at the edge of
    the board or before the first occupied square.
   */
  function PawnAdvance(g: Grid, row: int, col: int, dir: int, n: nat): seq<Square>
    requires IsGrid(g)
    decreases n
  {
    if n == 0 || !IsValidPosition(row + dir, col) || g[row + dir][col].Some? then []
    else [(row + dir, col)] + PawnAdvance(g, row + dir, col, dir, n - 1)
  }

  /** The single push, then (for an unmoved pawn) the double push, each only onto an empty square. */
  function PawnPushes(g: Grid, p: Piece): seq<Square>
    requires IsGrid(g)
  {
    PawnAdvance(g, p.row, p.col, Direction(p.color), if p.hasMoved then 1 else 2)
  }

  const PAWN_CAPTURE_OFFSETS: seq<int> := [-1, 1]

  /** The diagonal capture toward one side, offered only onto an opponent piece. */
  function PawnCapture(g: Grid, p: Piece, offset: int): seq<Square>
    requires IsGrid(g)
  {
    var r, c := p.row + Direction(p.color), p.col + offset;
    if IsValidPosition(r, c) && PieceAt(g, r, c).Some? && PieceAt(g, r, c).value.color != p.color
    then [(r, c)]
    else []
  }

  /** The captures toward the first n offsets of PAWN_CAPTURE_OFFSETS, in that order. */
  function PawnCaptures(g: Grid, p: Piece, n: nat): seq<Square>
    requires IsGrid(g) && n <= |PAWN_CAPTURE_OFFSETS|
  {
    if n == 0 then []
    else PawnCaptures(g, p, n - 1) + PawnCapture(g, p, PAWN_CAPTURE_OFFSETS[n - 1])
  }

  /** The rank a pawn must stand on to capture en passant. */
  function EnPassantRank(c: Color): int
  {
    if c == White then 3 else 4
  }

  /**
    En passant: the target is the square the double-stepped pawn landed on, so the
    capturing pawn must stand on the target's row, one column away, on its en-passant rank.
   */
  function PawnEnPassant(target: Option<Square>, p: Piece): seq<Square>
  {
    match target
    case None => []
    case Some(t) =>
      if Abs(t.1 - p.col) == 1 && p.row == t.0 && p.row == EnPassantRank(p.color)
      then [(p.row + Direction(p.color), t.1)]
      else []
  }

  function PawnMoves(g: Grid, target: Option<Square>, p: Piece): seq<Square>
    requires IsGrid(g)
  {
    PawnPushes(g, p) + PawnCaptures(g, p, |PAWN_CAPTURE_OFFSETS|) + PawnEnPassant(target, p)
  }

  /**
    A pawn's pushes, square by square: straight ahead onto an empty square, two rows only
    for an unmoved pawn whose first square ahead is empty too.
   */
  lemma PawnPushesRule(g: Grid, p: Piece, s: Square)
    requires IsGrid(g)
    ensures var dir := Direction(p.color);
      s in PawnPushes(g, p) <==>
        IsValidPosition(s.0, s.1) && s.1 == p.col && g[s.0][s.1].None?
        && (s.0 == p.row + dir
            || (s.0 == p.row + 2 * dir && !p.hasMoved
                && IsValidPosition(p.row + dir, p.col) && g[p.row + dir][p.col].None?))
  {
    var dir := Direction(p.color);
    if IsValidPosition(p.row + dir, p.col) && g[p.row + dir][p.col].None? {
      var rest := PawnAdvance(g, p.row + dir, p.col, dir, if p.hasMoved then 0 else 1);
      assert PawnPushes(g, p) == [(p.row + dir, p.col)] + rest;
      if p.hasMoved {
        assert rest == [];
      } else {
        assert rest == if IsValidPosition(p.row + 2 * dir, p.col) && g[p.row + 2 * dir][p.col].None?
                       then [(p.row + 2 * dir, p.col)] else [];
      }
    } else {
      assert PawnPushes(g, p) == [];
    }
  }

  /** A pawn's captures, square by square: one row ahead and one column aside, onto an opponent piece. */
  lemma PawnCapturesRule(g: Grid, p: Piece, s: Square)
    requires IsGrid(g)
    ensures s in PawnCaptures(g, p, |PAWN_CAPTURE_OFFSETS|) <==>
              IsValidPosition(s.0, s.1) && s.0 == p.row + Direction(p.color) && Abs(s.1 - p.col) == 1
              && g[s.0][s.1].Some? && g[s.0][s.1].value.color != p.color
  {
    assert PawnCaptures(g, p, 1) == PawnCapture(g, p, -1);
    assert PawnCaptures(g, p, 2) == PawnCaptures(g, p, 1) + PawnCapture(g, p, 1);
  }

  /** Every pawn target is one or two rows ahead and empty or enemy-occupied, or the en-passant square. */
  lemma PawnMovesShape(g: Grid, target: Option<Square>, p: Piece)
    requires IsGrid(g)
    ensures forall s | s in PawnMoves(g, target, p) ::
              (EmptyOrEnemy(g, p, s) && (s.0 == p.row + Direction(p.color) || s.0 == p.row + 2 * Direction(p.color)))
              || s in PawnEnPassant(target, p)
  {
    forall s | s in PawnMoves(g, target, p)
      ensures (EmptyOrEnemy(g, p, s) && (s.0 == p.row + Direction(p.color) || s.0 == p.row + 2 * Direction(p.color)))
              || s in PawnEnPassant(target, p)
    {
      PawnPushesRule(g, p, s);
      PawnCapturesRule(g, p, s);
    }
  }

  /** The forward pushes of get_possible_moves for a pawn. */
  method GetPawnPushes(g: Grid, p: Piece) returns (moves: seq<Square>)
    requires IsGrid(g)
    ensures moves == PawnPushes(g, p)
  {
    moves := [];
    var direction := Direction(p.color);
    var newRow := p.row + direction;
    if IsValidPosition(newRow, p.col) && PieceAt(g, newRow, p.col) == None {
      moves := moves + [(newRow, p.col)];
      if !p.hasMoved {
        newRow := p.row + 2 * direction;
        if IsValidPosition(newRow, p.col) && PieceAt(g, newRow, p.col) == None {
          moves := moves + [(newRow, p.col)];
        }
      }
    }
  }

  /** The en-passant part of get_possible_moves for a pawn. */
  method GetPawnEnPassant(target: Option<Square>, p: Piece) returns (moves: seq<Square>)
    ensures moves == PawnEnPassant(target, p)
  {
    moves := [];
    if target.Some? {
      var (targetRow, targetCol) := target.value;
      if Abs(targetCol - p.col) == 1 && p.row == targetRow {
        if p.row == EnPassantRank(p.color) {
          moves := moves + [(p.row + Direction(p.color), targetCol)];
        }
      }
    }
  }

  method GetPawnMoves(g: Grid, target: Option<Square>, p: Piece) returns (moves: seq<Square>)
    requires IsGrid(g)
    ensures moves == PawnMoves(g, target, p)
  {
    moves := GetPawnPushes(g, p);
    ghost var pushes := moves;
    var direction := Direction(p.color);
    for i := 0 to |PAWN_CAPTURE_OFFSETS|
      invariant moves == pushes + PawnCaptures(g, p, i)
    {
      ghost var before := moves;
      var newCol := p.col + PAWN_CAPTURE_OFFSETS[i];
      var newRow := p.row + direction;
      if IsValidPosition(newRow, newCol) {
        var piece := PieceAt(g, newRow, newCol);
        if piece.Some? && piece.value.color != p.color {
          moves := moves + [(newRow, newCol)];
        }
      }
      assert moves == before + PawnCapture(g, p, PAWN_CAPTURE_OFFSETS[i]);
      AppendAssoc(pushes, PawnCaptures(g, p, i), PawnCapture(g, p, PAWN_CAPTURE_OFFSETS[i]));
    }
    var enPassant := GetPawnEnPassant(target, p);
    moves := moves + enPassant;
  }

  // ----------------------------------------------------------------------------------
  // Knight and king steps: fixed offsets, each kept when empty or enemy-occupied

  const KNIGHT_OFFSETS: seq<(int, int)> :=
    [(-2, -1), (-2, 1), (-1, -2), (-1, 2), (1, -2), (1, 2), (2, -1), (2, 1)]

  const KING_DIRECTIONS: seq<(int, int)> :=
    [(0, 1), (1, 0), (0, -1), (-1, 0), (1, 1), (1, -1), (-1, 1), (-1, -1)]

  /** The square at offset d from the piece, when it is on the board and empty or enemy-occupied. */
  function StepTarget(g: Grid, p: Piece, d: (int, int)): seq<Square>
    requires IsGrid(g)
  {
    var r, c := p.row + d.0, p.col + d.1;
    if IsValidPosition(r, c) && (PieceAt(g, r, c).None? || PieceAt(g, r, c).value.color != p.color)
    then [(r, c)]
    else []
  }

  /** The step targets for the first n offsets, in order. */
  function Steps(g: Grid, p: Piece, offsets: seq<(int, int)>, n: nat): seq<Square>
    requires IsGrid(g) && n <= |offsets|
  {
    if n == 0 then []
    else Steps(g, p, offsets, n - 1) + StepTarget(g, p, offsets[n - 1])
  }

  method GetStepMoves(g: Grid, p: Piece, offsets: seq<(int, int)>) returns (moves: seq<Square>)
    requires IsGrid(g)
    ensures moves == Steps(g, p, offsets, |offsets|)
  {
    moves := [];
    for i := 0 to |offsets|
      invariant moves == Steps(g, p, offsets, i)
    {
      var (dr, dc) := offsets[i];
      var newRow, newCol := p.row + dr, p.col + dc;
      if IsValidPosition(newRow, newCol) {
        var piece := PieceAt(g, newRow, newCol);
        if piece.None? || piece.value.color != p.color {
          moves := moves + [(newRow, newCol)];
        }
      }
    }
  }

  function KnightMoves(g: Grid, p: Piece): seq<Square>
    requires IsGrid(g)
  {
    Steps(g, p, KNIGHT_OFFSETS, |KNIGHT_OFFSETS|)
  }

  method GetKnightMoves(g: Grid, p: Piece) returns (moves: seq<Square>)
    requires IsGrid(g)
    ensures moves == KnightMoves(g, p)
  {
    moves := GetStepMoves(g, p, KNIGHT_OFFSETS);
  }

  /**
    Every step target is on the board, empty or enemy-occupied, and lies at one of the
    offsets from the piece's own square; there is at most one per offset.
   */
  lemma {:induction false} StepsShape(g: Grid, p: Piece, offsets: seq<(int, int)>, n: nat)
    requires IsGrid(g) && n <= |offsets|
    ensures |Steps(g, p, offsets, n)| <= n
    ensures forall s | s in Steps(g, p, offsets, n) ::
              EmptyOrEnemy(g, p, s) && (s.0 - p.row, s.1 - p.col) in offsets
  {
    if n > 0 {
      StepsShape(g, p, offsets, n - 1);
      var d := offsets[n - 1];
      assert d in offsets;
      forall s | s in StepTarget(g, p, d)
        ensures EmptyOrEnemy(g, p, s) && (s.0 - p.row, s.1 - p.col) in offsets
      {
        assert (s.0 - p.row, s.1 - p.col) == d;
      }
    }
  }

  /** The knight offers at most eight squares, each an L-shaped jump onto an empty or enemy square. */
  lemma KnightMovesShape(g: Grid, p: Piece)
    requires IsGrid(g)
    ensures |KnightMoves(g, p)| <= 8
    ensures forall s | s in KnightMoves(g, p) ::
              EmptyOrEnemy(g, p, s) && (s.0 - p.row, s.1 - p.col) in KNIGHT_OFFSETS
  {
    StepsShape(g, p, KNIGHT_OFFSETS, |KNIGHT_OFFSETS|);
  }

  // ----------------------------------------------------------------------------------
  // Sliders: rook, bishop and queen

  const ROOK_DIRECTIONS: seq<(int, int)> := [(0, 1), (1, 0), (0, -1), (-1, 0)]
  const BISHOP_DIRECTIONS: seq<(int, int)> := [(1, 1), (1, -1), (-1, 1), (-1, -1)]
  const QUEEN_DIRECTIONS: seq<(int, int)> :=
    [(0, 1), (1, 0), (0, -1), (-1, 0), (1, 1), (1, -1), (-1, 1), (-1, -1)]

  /** The square one step of d away from s. */
  function Step(s: Square, d: (int, int)): Square
  {
    (s.0 + d.0, s.1 + d.1)
  }

  /**
    The walk from s, at distance i from the piece, one step of d at a time up to distance
    7: empty squares, then possibly one opponent piece; it stops at the edge of the board
    or before an own piece.
   */
  function Ray(g: Grid, p: Piece, d: (int, int), s: Square, i: nat): seq<Square>
    requires IsGrid(g)
    decreases 8 - i
  {
    if i >= 8 || !IsValidPosition(s.0, s.1) then []
    else match g[s.0][s.1]
      case None => [s] + Ray(g, p, d, Step(s, d), i + 1)
      case Some(q) => if q.color != p.color then [s] else []
  }

  /** The whole ray along d, starting one step from the piece. */
  function RayFrom(g: Grid, p: Piece, d: (int, int)): seq<Square>
    requires IsGrid(g)
  {
    Ray(g, p, d, Step((p.row, p.col), d), 1)
  }

  /** The rays along the first n directions, in order. */
  function Slides(g: Grid, p: Piece, dirs: seq<(int, int)>, n: nat): seq<Square>
    requires IsGrid(g) && n <= |dirs|
  {
    if n == 0 then []
    else Slides(g, p, dirs, n - 1) + RayFrom(g, p, dirs[n - 1])
  }

  /**
    One direction of the sliding scan: distances 1..7 while the squares stay on the board and
    empty. The square at distance i, (row + i * dr, col + i * dc), is reached by adding d once
    per distance.
   */
  method GetRayMoves(g: Grid, p: Piece, d: (int, int)) returns (moves: seq<Square>)
    requires IsGrid(g)
    ensures moves == RayFrom(g, p, d)
  {
    var (dr, dc) := d;
    moves := [];
    var newRow, newCol := p.row + dr, p.col + dc;
    var i := 1;
    while i < 8
      invariant 1 <= i <= 8
      invariant RayFrom(g, p, d) == moves + Ray(g, p, d, (newRow, newCol), i)
    {
      if !IsValidPosition(newRow, newCol) {
        break;
      }
      var piece := PieceAt(g, newRow, newCol);
      if piece.None? {
        assert Ray(g, p, d, (newRow, newCol), i) == [(newRow, newCol)] + Ray(g, p, d, Step((newRow, newCol), d), i + 1);
        AppendAssoc(moves, [(newRow, newCol)], Ray(g, p, d, Step((newRow, newCol), d), i + 1));
        moves := moves + [(newRow, newCol)];
      } else if piece.value.color != p.color {
        moves := moves + [(newRow, newCol)];
        break;
      } else {
        break;
      }
      newRow, newCol := newRow + dr, newCol + dc;
      i := i + 1;
    }
  }

  method GetSlidingMoves(g: Grid, p: Piece, dirs: seq<(int, int)>) returns (moves: seq<Square>)
    requires IsGrid(g)
    ensures moves == Slides(g, p, dirs, |dirs|)
  {
    moves := [];
    for k := 0 to |dirs|
      invariant moves == Slides(g, p, dirs, k)
    {
      var ray := GetRayMoves(g, p, dirs[k]);
      moves := moves + ray;
    }
  }

  function RookMoves(g: Grid, p: Piece): seq<Square>
    requires IsGrid(g)
  {
    Slides(g, p, ROOK_DIRECTIONS, |ROOK_DIRECTIONS|)
  }

  function BishopMoves(g: Grid, p: Piece): seq<Square>
    requires IsGrid(g)
  {
    Slides(g, p, BISHOP_DIRECTIONS, |BISHOP_DIRECTIONS|)
  }

  function QueenMoves(g: Grid, p: Piece): seq<Square>
    requires IsGrid(g)
  {
    Slides(g, p, QUEEN_DIRECTIONS, |QUEEN_DIRECTIONS|)
  }

  method GetRookMoves(g: Grid, p: Piece) returns (moves: seq<Square>)
    requires IsGrid(g)
    ensures moves == RookMoves(g, p)
  {
    moves := GetSlidingMoves(g, p, ROOK_DIRECTIONS);
  }

  method GetBishopMoves(g: Grid, p: Piece) returns (moves: seq<Square>)
    requires IsGrid(g)
    ensures moves == BishopMoves(g, p)
  {
    moves := GetSlidingMoves(g, p, BISHOP_DIRECTIONS);
  }

  method GetQueenMoves(g: Grid, p: Piece) returns (moves: seq<Square>)
    requires IsGrid(g)
    ensures moves == QueenMoves(g, p)
  {
    moves := GetSlidingMoves(g, p, QUEEN_DIRECTIONS);
  }

  /**
    A ray is a straight line: it starts at s, each entry is one step of d past the one
    before, and it never reaches past distance 7.
   */
  lemma {:induction false} RaySquares(g: Grid, p: Piece, d: (int, int), s: Square, i: nat)
    requires IsGrid(g) && i <= 8
    ensures var ray := Ray(g, p, d, s, i);
      && i + |ray| <= 8
      && (ray != [] ==> ray[0] == s)
      && (forall k | 0 <= k < |ray| - 1 :: ray[k + 1] == Step(ray[k], d))
    decreases 8 - i
  {
    if i < 8 && IsValidPosition(s.0, s.1) && g[s.0][s.1].None? {
      RaySquares(g, p, d, Step(s, d), i + 1);
      var rest := Ray(g, p, d, Step(s, d), i + 1);
      var ray := Ray(g, p, d, s, i);
      assert ray == [s] + rest;
      forall k | 0 <= k < |ray| - 1
        ensures ray[k + 1] == Step(ray[k], d)
      {
        if k > 0 {
          assert ray[k + 1] == rest[k] && ray[k] == rest[k - 1];
        }
      }
    }
  }

  /** Every square of a ray is on the board and empty or holds an opponent piece. */
  lemma {:induction false} RayLands(g: Grid, p: Piece, d: (int, int), s: Square, i: nat)
    requires IsGrid(g)
    ensures forall t | t in Ray(g, p, d, s, i) :: EmptyOrEnemy(g, p, t)
    decreases 8 - i
  {
    if i < 8 && IsValidPosition(s.0, s.1) && g[s.0][s.1].None? {
      RayLands(g, p, d, Step(s, d), i + 1);
      assert Ray(g, p, d, s, i) == [s] + Ray(g, p, d, Step(s, d), i + 1);
    }
  }

  /** Every entry of a ray but the last is an empty square: a slider passes only over empty squares. */
  lemma RayPassesEmpty(g: Grid, p: Piece, d: (int, int), s: Square, i: nat)
    requires IsGrid(g)
    ensures var ray := Ray(g, p, d, s, i);
      forall k | 0 <= k < |ray| - 1 :: IsValidPosition(ray[k].0, ray[k].1) && g[ray[k].0][ray[k].1].None?
  {
    forall k | 0 <= k < |Ray(g, p, d, s, i)| - 1
      ensures var ray := Ray(g, p, d, s, i);
        IsValidPosition(ray[k].0, ray[k].1) && g[ray[k].0][ray[k].1].None?
    {
      RayEntryEmpty(g, p, d, s, i, k);
    }
  }

  /** Entry k of a ray, when another entry follows it, is an empty square on the board. */
  lemma {:induction false} RayEntryEmpty(g: Grid, p: Piece, d: (int, int), s: Square, i: nat, k: nat)
    requires IsGrid(g) && k < |Ray(g, p, d, s, i)| - 1
    ensures var ray := Ray(g, p, d, s, i);
      IsValidPosition(ray[k].0, ray[k].1) && g[ray[k].0][ray[k].1].None?
    decreases k
  {
    var rest := Ray(g, p, d, Step(s, d), i + 1);
    assert Ray(g, p, d, s, i) == [s] + rest;
    if k > 0 {
      RayEntryEmpty(g, p, d, Step(s, d), i + 1, k - 1);
    }
  }

  /**
    A ray that does not end on a capture stops because the square after it lies beyond
    distance 7, off the board, or holds an own piece.
   */
  lemma {:induction false} RayStops(g: Grid, p: Piece, d: (int, int), s: Square, i: nat)
    requires IsGrid(g)
    ensures var ray := Ray(g, p, d, s, i);
      ray == [] || (IsValidPosition(ray[|ray| - 1].0, ray[|ray| - 1].1) && g[ray[|ray| - 1].0][ray[|ray| - 1].1].None?) ==>
        var next := if ray == [] then s else Step(ray[|ray| - 1], d);
        i + |ray| >= 8 || !IsValidPosition(next.0, next.1)
        || (g[next.0][next.1].Some? && g[next.0][next.1].value.color == p.color)
    decreases 8 - i
  {
    if i < 8 && IsValidPosition(s.0, s.1) && g[s.0][s.1].None? {
      RayStops(g, p, d, Step(s, d), i + 1);
      var rest := Ray(g, p, d, Step(s, d), i + 1);
      var ray := Ray(g, p, d, s, i);
      assert ray == [s] + rest;
      if rest != [] {
        assert ray[|ray| - 1] == rest[|rest| - 1];
      }
    }
  }

  /** Every slider target is on the board and empty or enemy-occupied. */
  lemma {:induction false} SlidesLandOnEmptyOrEnemy(g: Grid, p: Piece, dirs: seq<(int, int)>, n: nat)
    requires IsGrid(g) && n <= |dirs|
    ensures forall s | s in Slides(g, p, dirs, n) :: EmptyOrEnemy(g, p, s)
  {
    if n > 0 {
      SlidesLandOnEmptyOrEnemy(g, p, dirs, n - 1);
      RayLands(g, p, dirs[n - 1], Step((p.row, p.col), dirs[n - 1]), 1);
    }
  }

  /** Sliding along the first n directions of d1 + d2, n <= |d1|, only looks at d1. */
  lemma {:induction false} SlidesPrefix(g: Grid, p: Piece, d1: seq<(int, int)>, d2: seq<(int, int)>, n: nat)
    requires IsGrid(g) && n <= |d1|
    ensures Slides(g, p, d1 + d2, n) == Slides(g, p, d1, n)
  {
    if n > 0 {
      SlidesPrefix(g, p, d1, d2, n - 1);
      assert (d1 + d2)[n - 1] == d1[n - 1];
    }
  }

  /** Sliding along d1 + d2 gives the rays of d1 followed by the rays of the first n directions of d2. */
  lemma {:induction false} SlidesAppend(g: Grid, p: Piece, d1: seq<(int, int)>, d2: seq<(int, int)>, n: nat)
    requires IsGrid(g) && n <= |d2|
    ensures Slides(g, p, d1 + d2, |d1| + n) == Slides(g, p, d1, |d1|) + Slides(g, p, d2, n)
  {
    if n == 0 {
      SlidesPrefix(g, p, d1, d2, |d1|);
    } else {
      SlidesAppend(g, p, d1, d2, n - 1);
      var ray := RayFrom(g, p, d2[n - 1]);
      assert (d1 + d2)[|d1| + n - 1] == d2[n - 1];
      AppendAssoc(Slides(g, p, d1, |d1|), Slides(g, p, d2, n - 1), ray);
    }
  }

  /** The queen's moves are exactly the rook's moves followed by the bishop's moves. */
  lemma QueenIsRookThenBishop(g: Grid, p: Piece)
    requires IsGrid(g)
    ensures QueenMoves(g, p) == RookMoves(g, p) + BishopMoves(g, p)
  {
    assert QUEEN_DIRECTIONS == ROOK_DIRECTIONS + BISHOP_DIRECTIONS;
    SlidesAppend(g, p, ROOK_DIRECTIONS, BISHOP_DIRECTIONS, |BISHOP_DIRECTIONS|);
  }

  // ----------------------------------------------------------------------------------
  // King, with check_king_safety = False

  predicate UnmovedRookAt(g: Grid, row: int, col: int)
    requires IsGrid(g)
  {
    PieceAt(g, row, col).Some? && PieceAt(g, row, col).value.kind == Rook
    && !PieceAt(g, row, col).value.hasMoved
  }

  /** Columns lo..hi-1 of the row are all empty (off-board squares count as empty). */
  predicate EmptyBetween(g: Grid, row: int, lo: int, hi: int)
    requires IsGrid(g)
    decreases hi - lo
  {
    lo >= hi || (PieceAt(g, row, lo) == None && EmptyBetween(g, row, lo + 1, hi))
  }

  /** The scan agrees with "every square in lo..hi-1 is empty". */
  lemma {:induction false} EmptyBetweenAll(g: Grid, row: int, lo: int, hi: int)
    requires IsGrid(g)
    ensures EmptyBetween(g, row, lo, hi) <==> forall c | lo <= c < hi :: PieceAt(g, row, c) == None
    decreases hi - lo
  {
    if lo < hi {
      EmptyBetweenAll(g, row, lo + 1, hi);
    }
  }

  /** Columns col+1..6 empty and an unmoved rook (of either colour) on column 7. */
  predicate KingsideOpen(g: Grid, p: Piece)
    requires IsGrid(g)
  {
    EmptyBetween(g, p.row, p.col + 1, 7) && UnmovedRookAt(g, p.row, 7)
  }

  /** Columns 1..col-1 empty and an unmoved rook (of either colour) on column 0. */
  predicate QueensideOpen(g: Grid, p: Piece)
    requires IsGrid(g)
  {
    EmptyBetween(g, p.row, 1, p.col) && UnmovedRookAt(g, p.row, 0)
  }

  predicate KingsideGeometry(pos: Position, p: Piece)
    requires WellFormed(pos)
  {
    pos.castlingRights[p.color].kingside && KingsideOpen(pos.grid, p)
  }

  predicate QueensideGeometry(pos: Position, p: Piece)
    requires WellFormed(pos)
  {
    pos.castlingRights[p.color].queenside && QueensideOpen(pos.grid, p)
  }

  /** Castling squares offered without any safety test (even for a king that has moved). */
  function CastlingGeometry(pos: Position, p: Piece): seq<Square>
    requires WellFormed(pos)
  {
    (if KingsideGeometry(pos, p) then [(p.row, p.col + 2)] else [])
    + (if QueensideGeometry(pos, p) then [(p.row, p.col - 2)] else [])
  }

  function KingPseudoMoves(pos: Position, p: Piece): seq<Square>
    requires WellFormed(pos)
  {
    Steps(pos.grid, p, KING_DIRECTIONS, |KING_DIRECTIONS|) + CastlingGeometry(pos, p)
  }

  method GetKingPseudoMoves(pos: Position, p: Piece) returns (moves: seq<Square>)
    requires WellFormed(pos)
    ensures moves == KingPseudoMoves(pos, p)
  {
    moves := GetStepMoves(pos.grid, p, KING_DIRECTIONS);
    EmptyBetweenAll(pos.grid, p.row, p.col + 1, 7);
    EmptyBetweenAll(pos.grid, p.row, 1, p.col);
    if pos.castlingRights[p.color].kingside {
      if forall c | p.col + 1 <= c < 7 :: PieceAt(pos.grid, p.row, c) == None {
        var rook := PieceAt(pos.grid, p.row, 7);
        if rook.Some? && rook.value.kind == Rook && !rook.value.hasMoved {
          moves := moves + [(p.row, p.col + 2)];
        }
      }
    }
    if pos.castlingRights[p.color].queenside {
      if forall c | 1 <= c < p.col :: PieceAt(pos.grid, p.row, c) == None {
        var rook := PieceAt(pos.grid, p.row, 0);
        if rook.Some? && rook.value.kind == Rook && !rook.value.hasMoved {
          moves := moves + [(p.row, p.col - 2)];
        }
      }
    }
  }

  /** King targets are one-square steps onto empty or enemy squares, or castling squares. */
  lemma KingPseudoMovesShape(pos: Position, p: Piece)
    requires WellFormed(pos)
    ensures forall s | s in KingPseudoMoves(pos, p) ::
              (EmptyOrEnemy(pos.grid, p, s) && (s.0 - p.row, s.1 - p.col) in KING_DIRECTIONS)
              || s in CastlingGeometry(pos, p)
  {
    StepsShape(pos.grid, p, KING_DIRECTIONS, |KING_DIRECTIONS|);
  }

  // ----------------------------------------------------------------------------------
  // Dispatch on the kind of piece

  /** get_possible_moves(board, check_king_safety=False), as used by the check scan. */
  function PseudoMoves(pos: Position, p: Piece): seq<Square>
    requires WellFormed(pos)
  {
    match p.kind
    case Pawn => PawnMoves(pos.grid, pos.enPassantTarget, p)
    case Rook => RookMoves(pos.grid, p)
    case Knight => KnightMoves(pos.grid, p)
    case Bishop => BishopMoves(pos.grid, p)
    case Queen => QueenMoves(pos.grid, p)
    case King => KingPseudoMoves(pos, p)
  }

  /**
    Every pseudo-legal target lies on the board and is empty or enemy-occupied, except the
    en-passant square of a pawn and the castling squares of a king.
   */
  lemma PseudoMovesShape(pos: Position, p: Piece)
    requires WellFormed(pos)
    ensures forall s | s in PseudoMoves(pos, p) ::
              EmptyOrEnemy(pos.grid, p, s)
              || (p.kind == Pawn && s in PawnEnPassant(pos.enPassantTarget, p))
              || (p.kind == King && s in CastlingGeometry(pos, p))
  {
    match p.kind
    case Pawn => PawnMovesShape(pos.grid, pos.enPassantTarget, p);
    case Rook => SlidesLandOnEmptyOrEnemy(pos.grid, p, ROOK_DIRECTIONS, |ROOK_DIRECTIONS|);
    case Knight => KnightMovesShape(pos.grid, p);
    case Bishop => SlidesLandOnEmptyOrEnemy(pos.grid, p, BISHOP_DIRECTIONS, |BISHOP_DIRECTIONS|);
    case Queen => SlidesLandOnEmptyOrEnemy(pos.grid, p, QUEEN_DIRECTIONS, |QUEEN_DIRECTIONS|);
    case King => KingPseudoMovesShape(pos, p);
  }

  method GetPseudoMoves(pos: Position, p: Piece) returns (moves: seq<Square>)
    requires WellFormed(pos)
    ensures moves == PseudoMoves(pos, p)
  {
    match p.kind
    case Pawn => moves := GetPawnMoves(pos.grid, pos.enPassantTarget, p);
    case Rook => moves := GetRookMoves(pos.grid, p);
    case Knight => moves := GetKnightMoves(pos.grid, p);
    case Bishop => moves := GetBishopMoves(pos.grid, p);
    case Queen => moves := GetQueenMoves(pos.grid, p);
    case King => moves := GetKingPseudoMoves(pos, p);
  }
}
