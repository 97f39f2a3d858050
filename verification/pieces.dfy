/** The value types the move generator works on: team colours, piece types,
    pieces, board positions and moves. */
module ChessPieces {

  /** An optional value; `None` stands for the source's `null`. */
  datatype Option<T> = None | Some(value: T)

  datatype TeamColor = White | Black

  /** The six kinds of chess piece, in the order the source declares them. */
  datatype PieceType = King | Queen | Bishop | Knight | Rook | Pawn

  /** A piece is its colour and its type; `color` and `kind` are the two getters. */
  datatype Piece = Piece(color: TeamColor, kind: PieceType)

  /** A square, 1-indexed: `row` is the rank, `col` the file. */
  datatype Position = Position(row: int, col: int)

  /** A move from `start` to `end`, with the piece type a pawn promotes to, if any. */
  datatype Move = Move(start: Position, end: Position, promotion: Option<PieceType>)

  predicate OnBoard(p: Position) {
    1 <= p.row <= 8 && 1 <= p.col <= 8
  }

  function Opponent(c: TeamColor): (r: TeamColor)
    ensures r != c
  {
    match c
    case White => Black
    case Black => White
  }

  /** Piece equality compares the colour and the type and nothing else, so it
      coincides with equality of the two values. */
  function PieceEquals(a: Piece, b: Piece): (r: bool)
    ensures r <==> a == b
  {
    a.color == b.color && a.kind == b.kind
  }
}
