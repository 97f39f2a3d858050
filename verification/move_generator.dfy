/** The move generator as the source runs it: a list of moves grown one
    append at a time while offsets are tried and rays are walked square by
    square. Every method here only reads the board, and each is proved to
    produce exactly what the matching function of MoveRules describes. */
module MoveGenerator {
  import opened ChessPieces
  import opened Board
  import opened MoveRules

  /** The per-square rule for king and knight: appends a move to `to` when it
      is empty or holds an enemy, and nothing when it holds an own piece. */
  method KingAndKnightMoves(board: ChessBoard, myPosition: Position, moves: seq<Move>, piece: Piece, to: Position)
    returns (moves': seq<Move>)
    requires board.Valid() && OnBoard(to)
    ensures moves' == moves + Landing(board.Cells(), myPosition, piece.color, to)
    ensures |moves'| <= |moves| + 1
    ensures |moves'| == |moves| + 1 <==> Enterable(board.Cells(), to, piece.color)
  {
    var occupant := board.GetPiece(to);
    if occupant.Some? {
      if occupant.value.color != piece.color {
        moves' := moves + [Move(myPosition, to, None)];
      } else {
        moves' := moves;
      }
    } else {
      moves' := moves + [Move(myPosition, to, None)];
    }
  }

  /** The per-square rule for sliding pieces: appends like
      `KingAndKnightMoves`, and reports whether the square is occupied, that
      is, whether the ray ends here. */
  method QueenRookAndBishopMoves(board: ChessBoard, myPosition: Position, moves: seq<Move>, piece: Piece, to: Position)
    returns (moves': seq<Move>, blocked: bool)
    requires board.Valid() && OnBoard(to)
    ensures moves' == moves + Landing(board.Cells(), myPosition, piece.color, to)
    ensures blocked <==> !Vacant(board.Cells(), to)
  {
    var occupant := board.GetPiece(to);
    if occupant.None? {
      moves' := moves + [Move(myPosition, to, None)];
      blocked := false;
    } else {
      if occupant.value.color != piece.color {
        moves' := moves + [Move(myPosition, to, None)];
      } else {
        moves' := moves;
      }
      blocked := true;
    }
  }

  /** Tries every offset of a stepping piece whose target is on the board. */
  method StepMoves(board: ChessBoard, myPosition: Position, piece: Piece, offsets: seq<Offset>)
    returns (moves: seq<Move>)
    requires board.Valid()
    ensures moves == Steps(board.Cells(), myPosition, piece.color, offsets)
  {
    moves := [];
    for i := 0 to |offsets|
      invariant moves == Steps(board.Cells(), myPosition, piece.color, offsets[..i])
    {
      assert offsets[..i + 1][..i] == offsets[..i];
      var to := Step(myPosition, offsets[i]);
      if OnBoard(to) {
        moves := KingAndKnightMoves(board, myPosition, moves, piece, to);
      }
    }
    assert offsets[..|offsets|] == offsets;
  }

  /** Walks one ray outward from `myPosition` until the edge of the board or
      the first occupied square, appending to `moves`. */
  method WalkRay(board: ChessBoard, myPosition: Position, moves: seq<Move>, piece: Piece, d: Offset)
    returns (moves': seq<Move>)
    requires board.Valid() && OnBoard(myPosition) && IsDirection(d)
    ensures moves' == moves + Ray(board.Cells(), myPosition, piece.color, d, myPosition)
  {
    ghost var g := board.Cells();
    moves' := moves;
    var cur := myPosition;
    while OnBoard(Step(cur, d))
      invariant OnBoard(cur)
      invariant moves' + Ray(g, myPosition, piece.color, d, cur) == moves + Ray(g, myPosition, piece.color, d, myPosition)
      decreases Room(cur.row, d.0) + Room(cur.col, d.1)
    {
      cur := Step(cur, d);
      var blocked;
      moves', blocked := QueenRookAndBishopMoves(board, myPosition, moves', piece, cur);
      if blocked {
        break;
      }
    }
  }

  /** Walks every ray of a sliding piece, in table order. */
  method SlideMoves(board: ChessBoard, myPosition: Position, piece: Piece, dirs: seq<Offset>)
    returns (moves: seq<Move>)
    requires board.Valid() && OnBoard(myPosition) && AllDirections(dirs)
    ensures moves == Slides(board.Cells(), myPosition, piece.color, dirs)
  {
    moves := [];
    for i := 0 to |dirs|
      invariant moves == Slides(board.Cells(), myPosition, piece.color, dirs[..i])
    {
      assert dirs[..i + 1][..i] == dirs[..i];
      moves := WalkRay(board, myPosition, moves, piece, dirs[i]);
    }
    assert dirs[..|dirs|] == dirs;
  }

  /** Appends a pawn move to `to`, expanded into the four promotions when
      `to` is on the far rank. */
  method AddPawnMove(myPosition: Position, moves: seq<Move>, to: Position, color: TeamColor)
    returns (moves': seq<Move>)
    ensures moves' == moves + PawnLanding(myPosition, to, color)
    ensures |moves'| == |moves| + (if to.row == PromotionRank(color) then 4 else 1)
  {
    if to.row == PromotionRank(color) {
      moves' := moves + [Move(myPosition, to, Some(Queen))];
      moves' := moves' + [Move(myPosition, to, Some(Rook))];
      moves' := moves' + [Move(myPosition, to, Some(Bishop))];
      moves' := moves' + [Move(myPosition, to, Some(Knight))];
    } else {
      moves' := moves + [Move(myPosition, to, None)];
    }
  }

  /** The pawn's forward steps: the single step (or its four promotions)
      when the square ahead is empty, and from the starting rank the double
      step when the square beyond is empty too. */
  method PawnForwardMoves(board: ChessBoard, myPosition: Position, piece: Piece)
    returns (moves: seq<Move>)
    requires board.Valid() && PawnCanAdvance(myPosition, piece.color)
    ensures moves == PawnForward(board.Cells(), myPosition, piece.color)
  {
    moves := [];
    var row := myPosition.row + Forward(piece.color);
    var newPosition := Position(row, myPosition.col);
    var newPositionForward := Position(row + Forward(piece.color), myPosition.col);
    if board.GetPiece(newPosition).None? {
      if row == PromotionRank(piece.color) {
        moves := AddPawnMove(myPosition, moves, newPosition, piece.color);
      } else {
        moves := moves + [Move(myPosition, newPosition, None)];
        if myPosition.row == StartRank(piece.color) {
          if board.GetPiece(newPositionForward).None? {
            moves := moves + [Move(myPosition, newPositionForward, None)];
          }
        }
      }
    }
  }

  /** One diagonal capture: taken only when the file is on the board and the
      square holds a piece of the other colour. */
  method PawnCaptureMove(board: ChessBoard, myPosition: Position, moves: seq<Move>, piece: Piece, row: int, column: int)
    returns (moves': seq<Move>)
    requires board.Valid() && 1 <= row <= 8
    ensures moves' == moves + PawnCapture(board.Cells(), myPosition, piece.color, Position(row, column))
  {
    moves' := moves;
    if 1 <= column <= 8 {
      var occupant := board.GetPiece(Position(row, column));
      if occupant.Some? && occupant.value.color == Opponent(piece.color) {
        moves' := AddPawnMove(myPosition, moves, Position(row, column), piece.color);
      }
    }
  }

  /** The pawn branch: forward steps, then the two diagonal captures. */
  method PawnMoves(board: ChessBoard, myPosition: Position, piece: Piece)
    returns (moves: seq<Move>)
    requires board.Valid() && PawnCanAdvance(myPosition, piece.color)
    ensures moves == PawnRule(board.Cells(), myPosition, piece.color)
  {
    var row := myPosition.row + Forward(piece.color);
    var first := if piece.color == White then myPosition.col - 1 else myPosition.col + 1;
    var second := if piece.color == White then myPosition.col + 1 else myPosition.col - 1;
    moves := PawnForwardMoves(board, myPosition, piece);
    moves := PawnCaptureMove(board, myPosition, moves, piece, row, first);
    moves := PawnCaptureMove(board, myPosition, moves, piece, row, second);
  }

  /** Every pseudo-legal move of the piece on `myPosition`. */
  method PieceMoves(board: ChessBoard, myPosition: Position) returns (moves: seq<Move>)
    requires board.Valid() && CanQuery(board.Cells(), myPosition)
    ensures moves == Moves(board.Cells(), myPosition)
  {
    var piece := board.GetPiece(myPosition).value;
    match piece.kind
    case King =>
      moves := StepMoves(board, myPosition, piece, KingOffsets);
    case Knight =>
      moves := StepMoves(board, myPosition, piece, KnightOffsets);
    case Queen =>
      moves := SlideMoves(board, myPosition, piece, QueenDirections);
    case Rook =>
      moves := SlideMoves(board, myPosition, piece, RookDirections);
    case Bishop =>
      moves := SlideMoves(board, myPosition, piece, BishopDirections);
    case Pawn =>
      moves := PawnMoves(board, myPosition, piece);
  }
}
