# Chess move generation, modelled in Dafny

This project models the core of a small Java chess engine: the `ChessBoard`
class (an 8x8 array of pieces with `addPiece`, `getPiece`, `resetBoard` and
value equality) and `ChessPiece.pieceMoves`, which lists the pseudo-legal
moves of the piece on a square (king and knight steps, queen, rook and
bishop rays, pawn steps, captures and promotions). Moves that would leave
the mover's own king in check are not filtered out there, and neither is
filtering modelled here.

The project has five modules:

- `ChessPieces` (`pieces.dfy`): the values. These are the team colour, the
  piece type, a piece (its colour and type), a 1-indexed position and a
  move. `Option` stands for a Java reference that may be `null`.
- `Board` (`board.dfy`): the `ChessBoard` class over an `array2`, and the
  abstract value `Grid` of its 64 squares. `Cells()` connects the two.
  `resetBoard` is proved to produce the standard starting layout whatever
  the board held before. `equals` is proved to be square-by-square equality.
- `MoveRules` (`move_rules.dfy`): what `pieceMoves` returns, as functions of
  a `Grid`.
  - Stepping pieces try a table of offsets (`Steps`).
  - Sliding pieces walk a table of rays (`Ray`, `Slides`).
  - Pawns have forward steps and captures (`PawnForward`, `PawnRule`).
  - The tables list the directions in the order the Java code tries them.
    The result is therefore the same sequence, in the same order.
- `MoveGenerator` (`move_generator.dfy`): `pieceMoves` and its two helpers,
  as imperative methods. They grow a list of moves one append at a time and
  walk rays with a `while` loop that stops at the first occupied square.
  Each method is proved to return exactly the matching `MoveRules` function.
- `MoveProperties` (`move_properties.dfy`): declarative descriptions of each
  kind of movement, proved equal to the rules. From these follow the
  generator's promises:
  - every move starts on the queried square;
  - every move ends on the board, never on a piece of the mover's colour;
  - a ray stops at its first occupied square and takes that square only if
    it holds an enemy;
  - a queen moves as a rook and a bishop together;
  - promotions come in fours, and only for pawns reaching the far rank;
  - no move is listed twice.
  It also proves concrete positions: a lone king, a knight in the corner,
  and a pawn about to promote.

The 32-bit `int`s of the Java code hold only values between -1 and 10 (a
knight on rank or file 1 computes -1; on rank 8 it computes 10). Nothing can
overflow, so the model uses unbounded integers.

## Model

| member | source | states |
|---|---|---|
| ChessPieces.PieceEquals | shared/src/main/java/chess/ChessPiece.java:26-33 | two pieces are equal exactly when their colours and types agree, that is, when they are the same value |
| Board.GridExtensionality | shared/src/main/java/chess/ChessBoard.java:85 | two board contents that agree on all 64 on-board squares are the same value (the deep comparison `equals` relies on) |
| Board.ChessBoard.constructor | shared/src/main/java/chess/ChessBoard.java:18-22 | a new board is an 8x8 array with every square empty |
| Board.ChessBoard.AddPiece | shared/src/main/java/chess/ChessBoard.java:30-32 | after the call the given square holds the given piece (or is empty for `null`) and every other square is unchanged |
| Board.ChessBoard.GetPiece | shared/src/main/java/chess/ChessBoard.java:41-43 | returns the content of the square in the board's abstract contents, or `None` for an empty square |
| Board.ChessBoard.SetBackRank | shared/src/main/java/chess/ChessBoard.java:50-57 | one array row becomes rook, knight, bishop, queen, king, bishop, knight, rook of one colour and the other rows are untouched (also the writes at lines 69-76) |
| Board.ChessBoard.ResetBoard | shared/src/main/java/chess/ChessBoard.java:49-77 | afterwards every square holds its piece of the standard starting layout; the result does not depend on the previous contents |
| Board.ChessBoard.Equals | shared/src/main/java/chess/ChessBoard.java:79-86 | two boards are equal exactly when every on-board square holds equal pieces, and exactly when their abstract contents are equal |
| Board.ChessBoard.CellsAgree | shared/src/main/java/chess/ChessBoard.java:85 | element-wise agreement of the two arrays, agreement of `getPiece` on every square, and equality of the contents are the same condition |
| MoveRules.Ray | shared/src/main/java/chess/ChessPiece.java:162-167 | every move of a ray starts on the queried square, carries no promotion and ends on an on-board square without an own piece |
| MoveGenerator.KingAndKnightMoves | shared/src/main/java/chess/ChessPiece.java:457-468 | appends exactly one plain move when the target is empty or holds an enemy and nothing when it holds an own piece |
| MoveGenerator.QueenRookAndBishopMoves | shared/src/main/java/chess/ChessPiece.java:442-455 | appends like the king/knight helper and returns true exactly when the square is occupied |
| MoveGenerator.StepMoves | shared/src/main/java/chess/ChessPiece.java:76-157 | the king and knight branches return the moves of their offset table, offsets on the board only, in the source's order |
| MoveGenerator.WalkRay | shared/src/main/java/chess/ChessPiece.java:160-167 | one `while` loop appends exactly the moves of one ray: empty squares up to the edge or the first occupied square, that square only if it holds an enemy |
| MoveGenerator.SlideMoves | shared/src/main/java/chess/ChessPiece.java:159-302 | the queen, rook and bishop branches return the moves of their rays in table order |
| MoveGenerator.AddPawnMove | shared/src/main/java/chess/ChessPiece.java:314-325 | a pawn move onto the far rank is appended as the four promotions (queen, rook, bishop, knight), any other as one plain move |
| MoveGenerator.PawnForwardMoves | shared/src/main/java/chess/ChessPiece.java:313-333 | returns the pawn's forward moves: nothing if the square ahead is occupied, else the step (or its promotions), plus the double step from the starting rank over an empty square |
| MoveGenerator.PawnCaptureMove | shared/src/main/java/chess/ChessPiece.java:334-352 | a diagonal capture is appended only when the file is on the board and the square holds a piece of the other colour |
| MoveGenerator.PawnMoves | shared/src/main/java/chess/ChessPiece.java:304-438 | the pawn branch returns forward moves, then the capture to file - 1 and then file + 1 for White (the reverse for Black) |
| MoveGenerator.PieceMoves | shared/src/main/java/chess/ChessPiece.java:73-440 | `pieceMoves` returns exactly the move sequence `Moves` of the piece on the queried square |
| MoveProperties.RayComplete | shared/src/main/java/chess/ChessPiece.java:162-167 | every square a ray can reach (all squares before it empty, itself without an own piece) is a destination |
| MoveProperties.RaySound | shared/src/main/java/chess/ChessPiece.java:162-167 | every destination of a ray is such a reachable square |
| MoveProperties.RayExactly | shared/src/main/java/chess/ChessPiece.java:162-167 | a ray holds exactly the plain moves to its reachable squares |
| MoveProperties.SlidesIncludeRay | shared/src/main/java/chess/ChessPiece.java:159-302 | every move of every ray of a sliding piece is one of its moves |
| MoveProperties.SlidesFromRay | shared/src/main/java/chess/ChessPiece.java:159-302 | every move of a sliding piece comes from one of its rays |
| MoveProperties.SlidesMembership | shared/src/main/java/chess/ChessPiece.java:159-302 | the moves of a sliding piece are exactly the union of the moves of its rays |
| MoveProperties.SlidesExactly | shared/src/main/java/chess/ChessPiece.java:159-302 | a sliding piece moves to step k of a ray exactly when that square has no own piece and every earlier square of the ray is empty |
| MoveProperties.StepsExactly | shared/src/main/java/chess/ChessPiece.java:76-157 | a king or knight moves to an offset's target exactly when the target is on the board and holds no own piece |
| MoveProperties.PawnForwardExactly | shared/src/main/java/chess/ChessPiece.java:313-333 | forward moves are exactly the single step onto an empty square and the double step from the starting rank over two empty squares, with promotion on the far rank |
| MoveProperties.PawnCaptureExactly | shared/src/main/java/chess/ChessPiece.java:334-352 | a capture to a square is offered exactly when it holds an enemy, with promotion on the far rank |
| MoveProperties.PawnExactly | shared/src/main/java/chess/ChessPiece.java:304-438 | a pawn's moves are exactly the single step, the double step and the diagonal captures of an enemy, each promoting on the far rank |
| MoveProperties.QueenIsRookAndBishop | shared/src/main/java/chess/ChessPiece.java:159-302 | sliding along the queen's eight rays reaches exactly what sliding along the rook's and the bishop's rays reaches |
| MoveProperties.QueenMovesAsRookAndBishop | shared/src/main/java/chess/ChessPiece.java:159-228 | the moves of a queen, as a set, are the moves of a rook and a bishop on its square |
| MoveProperties.MovesSound | shared/src/main/java/chess/ChessPiece.java:73-440 | every move starts on the queried square and ends on an on-board square other than it that holds no own piece; only a pawn reaching its far rank promotes |
| MoveProperties.RayStopsAtBlocker | shared/src/main/java/chess/ChessPiece.java:164-166 | no square beyond the first occupied square of a ray is a destination |
| MoveProperties.BlockerCapturedOnlyIfEnemy | shared/src/main/java/chess/ChessPiece.java:442-455 | the first occupied square of a ray is a destination exactly when it holds an enemy piece |
| MoveProperties.StepsAllLand | shared/src/main/java/chess/ChessPiece.java:457-468 | when every offset's target is empty, a stepping piece makes one plain move per offset, in table order |
| MoveProperties.KingMovesOnEmptyNeighbourhood | shared/src/main/java/chess/ChessPiece.java:76-111 | a lone king away from the edges makes one plain move per offset, in the source's order |
| MoveProperties.LoneKingHasEightMoves | shared/src/main/java/chess/ChessPiece.java:76-111 | a lone king away from the edges has eight moves, whose destinations are exactly the adjacent squares |
| MoveProperties.StepsOffBoardTail | shared/src/main/java/chess/ChessPiece.java:113-157 | offsets whose targets are off the board add nothing |
| MoveProperties.CornerKnightHasTwoMoves | shared/src/main/java/chess/ChessPiece.java:113-157 | a lone knight on (1,1) has exactly the moves to (3,2) and (2,3), in that order |
| MoveProperties.BlockedPawnOnlyCaptures | shared/src/main/java/chess/ChessPiece.java:313 | a pawn whose square ahead is occupied, by either colour, makes no move along its file |
| MoveProperties.StartingPawnStepsOneOrTwo | shared/src/main/java/chess/ChessPiece.java:323-331 | a pawn on its starting rank with the two squares ahead empty has both the single and the double step |
| MoveProperties.DoubleStepOnlyFromStart | shared/src/main/java/chess/ChessPiece.java:326-331 | a two-square move is made only from the starting rank, over an empty square, onto an empty square |
| MoveProperties.LoneWhitePawnPromotes | shared/src/main/java/chess/ChessPiece.java:313-322 | a lone white pawn on rank 7 has exactly the four promotions of its step to rank 8 |
| MoveProperties.PawnPromotionsComeInFours | shared/src/main/java/chess/ChessPiece.java:314-322 | a pawn's move to a square is offered with all four promotions or with none, never promoting to king or pawn, never unpromoted on the far rank |
| MoveProperties.PromotionsComeInFours | shared/src/main/java/chess/ChessPiece.java:73-440 | the same for the moves of any piece: promotions come in fours, never to king or pawn, and a pawn never reaches its far rank unpromoted |
| MoveProperties.RayNoDuplicates | shared/src/main/java/chess/ChessPiece.java:162-167 | one ray never lists the same move twice, because each step lands farther out |
| MoveProperties.SlidesNoDuplicates | shared/src/main/java/chess/ChessPiece.java:159-302 | rays in distinct directions share no move, so a sliding piece lists no move twice |
| MoveProperties.StepsNoDuplicates | shared/src/main/java/chess/ChessPiece.java:76-157 | distinct offsets give distinct targets, so a king or knight lists no move twice |
| MoveProperties.PawnNoDuplicates | shared/src/main/java/chess/ChessPiece.java:304-438 | the forward moves and the two captures are disjoint and none repeats |
| MoveProperties.MovesNoDuplicates | shared/src/main/java/chess/ChessPiece.java:73-440 | the list `pieceMoves` returns never holds the same move twice |

## Left out

- `hashCode` of both classes is not modelled. It plays no part in move generation or equality.
- Equality as a Java `Object` (`null` or another class) is left out. `PieceEquals` and `Equals` compare two values of the same type.
- `ChessPosition` and `ChessMove` are not part of this model beyond their fields. They are taken as value types with structural equality.
- The `ChessGame` class is not part of this model. Its `TeamColor` enum is modelled as `ChessPieces.TeamColor`.
- A piece with a `null` colour or a `null` type cannot be represented. The Java constructor accepts one, but nothing in the core creates one.
- Board.ChessBoard.AddPiece / GetPiece: the position must be on the board (precondition `OnBoard`). Off the board the Java code throws an array index out of bounds exception, which the model does not represent.
- MoveGenerator.PieceMoves: a position off the board, an empty square, and a pawn already on its far rank are excluded by the precondition (`CanQuery`). On those the Java code throws (an array index out of bounds, or a null dereference) instead of returning.
- The Java code spells each offset and each ray out as its own block of code. The model uses one table per piece type instead, with the same directions in the same order, and one loop over the table.
- Board.ChessBoard.ResetBoard: the sixteen single-square back-rank writes are grouped into two calls of `SetBackRank`, with the same writes in the same order.
- The moves are a `seq<Move>` local to the generator, not a Java `ArrayList` that could be aliased. Nothing outside `pieceMoves` sees the list before it is returned.
