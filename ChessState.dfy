/**
  The values the chess rule engine works on: colours, piece kinds, pieces that carry their
  own coordinates, the 8x8 grid of optional pieces, and a snapshot of everything a
  ChessBoard holds (grid, cached king squares, castling rights, en-passant target and the
  last moved piece).
 */
module ChessState {

  datatype Option<T> = None | Some(value: T)

  datatype Color = White | Black

  /** The other side. */
  function Opponent(c: Color): (o: Color)
    ensures o != c
  {
    if c == White then Black else White
  }

  datatype Kind = Pawn | Rook | Knight | Bishop | Queen | King

  /** A piece value: it stores its own square and whether it has moved. */
  datatype Piece = Piece(color: Color, kind: Kind, row: int, col: int, hasMoved: bool)

  /** A (row, column) pair; row 0 is Black's back rank, row 7 White's. */
  type Square = (int, int)

  /** Rows of squares, row-major. */
  type Grid = seq<seq<Option<Piece>>>

  const BOARD_SIZE := 8

  function Abs(x: int): nat
  {
    if x < 0 then -x else x
  }

  /** The grid has eight rows of eight squares. */
  predicate IsGrid(g: Grid)
  {
    |g| == BOARD_SIZE && forall r | 0 <= r < BOARD_SIZE :: |g[r]| == BOARD_SIZE
  }

  predicate IsValidPosition(row: int, col: int)
  {
    0 <= row < BOARD_SIZE && 0 <= col < BOARD_SIZE
  }

  /** Eight rows of eight empty squares. */
  function EmptyGrid(): (g: Grid)
    ensures IsGrid(g)
    ensures forall r, c | 0 <= r < BOARD_SIZE && 0 <= c < BOARD_SIZE :: g[r][c] == None
  {
    seq(BOARD_SIZE, _ => seq(BOARD_SIZE, _ => None))
  }

  /** The piece on a square, or None for an empty or off-board square. */
  function PieceAt(g: Grid, row: int, col: int): Option<Piece>
    requires IsGrid(g)
  {
    if IsValidPosition(row, col) then g[row][col] else None
  }

  /** The grid with one square replaced. */
  function SetSquare(g: Grid, row: int, col: int, v: Option<Piece>): (g': Grid)
    requires IsGrid(g) && IsValidPosition(row, col)
    ensures IsGrid(g')
    ensures g'[row][col] == v
    ensures forall r, c | 0 <= r < BOARD_SIZE && 0 <= c < BOARD_SIZE && (r != row || c != col) ::
              g'[r][c] == g[r][c]
  {
    g[row := g[row][col := v]]
  }

  /** Two grids that agree on every square are the same grid. */
  lemma GridExtensionality(g1: Grid, g2: Grid)
    requires IsGrid(g1) && IsGrid(g2)
    requires forall r, c | 0 <= r < BOARD_SIZE && 0 <= c < BOARD_SIZE :: g1[r][c] == g2[r][c]
    ensures g1 == g2
  {
    forall r | 0 <= r < BOARD_SIZE
      ensures g1[r] == g2[r]
    {
      assert forall c | 0 <= c < BOARD_SIZE :: g1[r][c] == g2[r][c];
    }
  }

  /** Sequence concatenation is associative. */
  lemma AppendAssoc<T>(a: seq<T>, b: seq<T>, c: seq<T>)
    ensures (a + b) + c == a + (b + c)
  {
  }

  /** Per colour, whether castling is still allowed on each wing. */
  datatype Rights = Rights(kingside: bool, queenside: bool)

  /** Everything a ChessBoard object holds, as one value. */
  datatype Position = Position(
    grid: Grid,
    whiteKingPos: Square,
    blackKingPos: Square,
    castlingRights: map<Color, Rights>,
    enPassantTarget: Option<Square>,
    lastMovedPiece: Option<Piece>)

  /** The shape every position has: an 8x8 grid and castling rights for both colours. */
  predicate WellFormed(pos: Position)
  {
    IsGrid(pos.grid) && forall c: Color :: c in pos.castlingRights
  }

  /** The cached square of the king of the given colour. */
  function KingPos(pos: Position, c: Color): Square
  {
    if c == White then pos.whiteKingPos else pos.blackKingPos
  }
}
