/** What `pieceMoves` computes, as functions of a board value: the moves of
    stepping pieces (king, knight), of sliding pieces (queen, rook, bishop)
    and of pawns. The imperative generator in module MoveGenerator is proved
    to return exactly `Moves`. */
module MoveRules {
  import opened ChessPieces
  import opened Board

  /** A (row, column) displacement. */
  type Offset = (int, int)

  /** The king's eight unit steps, in the order the source tries them. */
  const KingOffsets: seq<Offset> := [(1, 0), (1, 1), (0, 1), (-1, 1), (-1, 0), (-1, -1), (0, -1), (1, -1)]

  /** The knight's eight jumps, in the order the source tries them. */
  const KnightOffsets: seq<Offset> := [(2, 1), (1, 2), (-1, 2), (-2, 1), (-2, -1), (-1, -2), (1, -2), (2, -1)]

  /** The queen's eight rays, in the order the source walks them. */
  const QueenDirections: seq<Offset> := [(1, 0), (1, 1), (0, 1), (-1, 1), (-1, 0), (-1, -1), (0, -1), (1, -1)]

  /** The rook's four orthogonal rays, in the order the source walks them. */
  const RookDirections: seq<Offset> := [(1, 0), (0, 1), (-1, 0), (0, -1)]

  /** The bishop's four diagonal rays, in the order the source walks them. */
  const BishopDirections: seq<Offset> := [(1, 1), (-1, 1), (-1, -1), (1, -1)]

  function Step(p: Position, d: Offset): Position {
    Position(p.row + d.0, p.col + d.1)
  }

  /** A unit direction of a ray: each component in {-1, 0, 1}, not both 0. */
  predicate IsDirection(d: Offset) {
    -1 <= d.0 <= 1 && -1 <= d.1 <= 1 && d != (0, 0)
  }

  predicate AllDirections(dirs: seq<Offset>) {
    forall i | 0 <= i < |dirs| :: IsDirection(dirs[i])
  }

  predicate Vacant(g: Grid, p: Position) {
    OnBoard(p) && At(g, p).None?
  }

  /** `p` is on the board and does not hold a piece of colour `color`. */
  predicate Enterable(g: Grid, p: Position, color: TeamColor) {
    OnBoard(p) && (At(g, p).None? || At(g, p).value.color != color)
  }

  /** `p` is on the board and holds a piece of the other colour. */
  predicate EnemyAt(g: Grid, p: Position, color: TeamColor) {
    OnBoard(p) && At(g, p).Some? && At(g, p).value.color == Opponent(color)
  }

  /** What one candidate square contributes for a non-pawn mover: a plain
      move if the square is empty or holds an enemy, nothing if it holds a
      piece of the mover's own colour. */
  function Landing(g: Grid, from: Position, color: TeamColor, to: Position): seq<Move>
    requires OnBoard(to)
  {
    if At(g, to).None? || At(g, to).value.color != color then [Move(from, to, None)] else []
  }

  /** The moves of a stepping piece: every offset whose target is on the
      board contributes its `Landing`, offsets taken in table order. */
  function Steps(g: Grid, from: Position, color: TeamColor, offsets: seq<Offset>): seq<Move>
    decreases |offsets|
  {
    if offsets == [] then []
    else
      var to := Step(from, offsets[|offsets| - 1]);
      Steps(g, from, color, offsets[..|offsets| - 1]) + (if OnBoard(to) then Landing(g, from, color, to) else [])
  }

  /** How many squares lie beyond coordinate `x` in direction `s`. */
  function Room(x: int, s: int): nat
    requires 1 <= x <= 8
  {
    if s > 0 then 8 - x else if s < 0 then x - 1 else 0
  }

  /** The moves along one ray, continuing from the square `cur` already
      passed: stop at the edge; an empty square is added and the walk goes
      on; an occupied square ends the ray, added only if it holds an enemy. */
  function Ray(g: Grid, from: Position, color: TeamColor, d: Offset, cur: Position): (r: seq<Move>)
    requires OnBoard(cur) && IsDirection(d)
    ensures forall m | m in r :: m.start == from && m.promotion == None && Enterable(g, m.end, color)
    decreases Room(cur.row, d.0) + Room(cur.col, d.1)
  {
    var next := Step(cur, d);
    if !OnBoard(next) then []
    else if At(g, next).None? then [Move(from, next, None)] + Ray(g, from, color, d, next)
    else Landing(g, from, color, next)
  }

  /** The moves of a sliding piece: its rays from `from`, in table order. */
  function Slides(g: Grid, from: Position, color: TeamColor, dirs: seq<Offset>): seq<Move>
    requires OnBoard(from) && AllDirections(dirs)
    decreases |dirs|
  {
    if dirs == [] then []
    else Slides(g, from, color, dirs[..|dirs| - 1]) + Ray(g, from, color, dirs[|dirs| - 1], from)
  }

  /** +1 for White, who advances toward rank 8; -1 for Black. */
  function Forward(color: TeamColor): int {
    if color == White then 1 else -1
  }

  function StartRank(color: TeamColor): int {
    if color == White then 2 else 7
  }

  /** The far rank, where a pawn promotes. */
  function PromotionRank(color: TeamColor): int {
    if color == White then 8 else 1
  }

  /** The four promotions of one pawn move, in the source's order. */
  function Promotions(from: Position, to: Position): seq<Move> {
    [Move(from, to, Some(Queen)), Move(from, to, Some(Rook)), Move(from, to, Some(Bishop)), Move(from, to, Some(Knight))]
  }

  /** A pawn move to `to`: four promotions on the far rank, else one plain move. */
  function PawnLanding(from: Position, to: Position, color: TeamColor): seq<Move> {
    if to.row == PromotionRank(color) then Promotions(from, to) else [Move(from, to, None)]
  }

  /** A diagonal capture, made only onto a square holding an enemy. */
  function PawnCapture(g: Grid, from: Position, color: TeamColor, to: Position): seq<Move> {
    if EnemyAt(g, to, color) then PawnLanding(from, to, color) else []
  }

  /** The square ahead is reachable only if the pawn is not already on its
      promotion rank. */
  predicate PawnCanAdvance(from: Position, color: TeamColor) {
    OnBoard(from) && from.row != PromotionRank(color)
  }

  /** A pawn's forward moves: nothing if the square ahead is occupied; the
      four promotions if it is on the far rank; otherwise the single step,
      followed by the double step when the pawn is on its starting rank and
      the square two ahead is empty too. */
  function PawnForward(g: Grid, from: Position, color: TeamColor): seq<Move>
    requires PawnCanAdvance(from, color)
  {
    var ahead := Position(from.row + Forward(color), from.col);
    var twoAhead := Position(from.row + 2 * Forward(color), from.col);
    if At(g, ahead).Some? then []
    else if ahead.row == PromotionRank(color) then Promotions(from, ahead)
    else [Move(from, ahead, None)] +
         (if from.row == StartRank(color) && At(g, twoAhead).None? then [Move(from, twoAhead, None)] else [])
  }

  /** The moves of a pawn: its forward moves, then the two diagonal captures
      (file - 1 first for White, file + 1 first for Black). */
  function PawnRule(g: Grid, from: Position, color: TeamColor): seq<Move>
    requires PawnCanAdvance(from, color)
  {
    var row := from.row + Forward(color);
    var first := if color == White then from.col - 1 else from.col + 1;
    var second := if color == White then from.col + 1 else from.col - 1;
    PawnForward(g, from, color) + PawnCapture(g, from, color, Position(row, first))
                                + PawnCapture(g, from, color, Position(row, second))
  }

  /** The queries the source answers: an occupied on-board square, and a
      pawn not yet on its promotion rank. */
  predicate CanQuery(g: Grid, from: Position) {
    OnBoard(from) && At(g, from).Some? &&
    (At(g, from).value.kind == Pawn ==> PawnCanAdvance(from, At(g, from).value.color))
  }

  /** Every pseudo-legal move of the piece on `from`, dispatched on its type. */
  function Moves(g: Grid, from: Position): seq<Move>
    requires CanQuery(g, from)
  {
    var piece := At(g, from).value;
    match piece.kind
    case King => Steps(g, from, piece.color, KingOffsets)
    case Knight => Steps(g, from, piece.color, KnightOffsets)
    case Queen => Slides(g, from, piece.color, QueenDirections)
    case Rook => Slides(g, from, piece.color, RookDirections)
    case Bishop => Slides(g, from, piece.color, BishopDirections)
    case Pawn => PawnRule(g, from, piece.color)
  }
}
