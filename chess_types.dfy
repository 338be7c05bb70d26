/** Pieces, colours, squares, the 8x8 grid and the error kinds of the chess engine. */
module ChessTypes {

  /** Side length of the board. */
  const BoardSize: int := 8

  datatype PieceType = Empty | Pawn | Rook | Knight | Bishop | Queen | King

  /** NoColor is the colour of an empty square; it is neither player. */
  datatype PieceColor = NoColor | White | Black

  datatype ChessPiece = ChessPiece(kind: PieceType, color: PieceColor)

  /** The content of a square that holds no piece. */
  const EmptySquare: ChessPiece := ChessPiece(Empty, NoColor)

  predicate IsPlayer(c: PieceColor) {
    c == White || c == Black
  }

  /** A (rank, file) pair; rank 0 is White's back rank, file 0 is file 'a'. */
  datatype Coord = Coord(rank: int, file: int)

  /** A move request: a source square and a destination square. */
  datatype Move = Move(source: Coord, dest: Coord)

  /** One error kind per exception class; all of them are a ChessException. */
  datatype ChessError = InvalidFormat | OutsideBoard | InvalidMove

  /** The result of an operation that either succeeds or raises one error. */
  datatype Outcome = Pass | Fail(error: ChessError)

  /** The text that each exception's what() reports. */
  function Message(e: ChessError): string {
    match e
    case InvalidFormat => "Invalid move. \n"
    case OutsideBoard => "Position is outside the board. \n"
    case InvalidMove => "Invalid move. \n"
  }

  /** A format error and an illegal move read the same to the player; only the bounds error differs. */
  lemma MessagesShared()
    ensures Message(InvalidFormat) == Message(InvalidMove)
    ensures Message(OutsideBoard) != Message(InvalidMove)
  {
    assert Message(OutsideBoard)[0] != Message(InvalidMove)[0];
  }

  /** The board: BoardSize ranks of BoardSize squares each. */
  type Grid = g: seq<seq<ChessPiece>> | |g| == BoardSize && forall r | 0 <= r < |g| :: |g[r]| == BoardSize
    witness seq(BoardSize, _ => seq(BoardSize, _ => ChessPiece(Empty, NoColor)))

  predicate OnBoard(c: Coord) {
    0 <= c.rank < BoardSize && 0 <= c.file < BoardSize
  }

  /** The square at c. */
  function At(g: Grid, c: Coord): ChessPiece
    requires OnBoard(c)
  {
    g[c.rank][c.file]
  }

  /** The board with square c replaced by p. */
  function SetAt(g: Grid, c: Coord, p: ChessPiece): (h: Grid)
    requires OnBoard(c)
    ensures forall d :: OnBoard(d) ==> At(h, d) == if d == c then p else At(g, d)
  {
    g[c.rank := g[c.rank][c.file := p]]
  }

  /** A board with no pieces. */
  function EmptyGrid(): (g: Grid)
    ensures forall c :: OnBoard(c) ==> At(g, c) == EmptySquare
  {
    seq(BoardSize, _ => seq(BoardSize, _ => EmptySquare))
  }

  /** Two boards with the same content on every square are the same board. */
  lemma GridExt(g: Grid, h: Grid)
    requires forall c :: OnBoard(c) ==> At(g, c) == At(h, c)
    ensures g == h
  {
    forall r | 0 <= r < BoardSize
      ensures g[r] == h[r]
    {
      forall f | 0 <= f < BoardSize
        ensures g[r][f] == h[r][f]
      {
        assert At(g, Coord(r, f)) == At(h, Coord(r, f));
      }
    }
  }
}
