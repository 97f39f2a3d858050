/** What the generated moves satisfy: each movement family described
    declaratively and proved equal to the rules, and from that the promises
    of the generator (moves stay on the board, never land on an own piece,
    rays end at the first blocker, the queen moves as rook and bishop
    together, promotions come in fours, no move is listed twice). */
module MoveProperties {
  import opened ChessPieces
  import opened Board
  import opened MoveRules

  /** `k` times the unit step `s` (-1, 0 or 1). */
  function Scale(k: int, s: int): int {
    if s > 0 then k else if s < 0 then -k else 0
  }

  /** The square `k` steps from `p` along direction `d`. */
  function Shift(p: Position, d: Offset, k: int): Position {
    Position(p.row + Scale(k, d.0), p.col + Scale(k, d.1))
  }

  /** Every square strictly between steps `j` and `k` of the ray is empty. */
  ghost predicate ClearBetween(g: Grid, from: Position, d: Offset, j: int, k: int) {
    forall i | j < i < k :: Vacant(g, Shift(from, d, i))
  }

  /** Step `k` of the ray from `from` can be entered from step `j`: it lies
      beyond `j`, it is on the board and holds no own piece, and everything
      in between is empty. */
  ghost predicate RayReaches(g: Grid, from: Position, color: TeamColor, d: Offset, j: int, k: int) {
    j < k && Enterable(g, Shift(from, d, k), color) && ClearBetween(g, from, d, j, k)
  }

  /** One more step along `d` from step `j` is step `j + 1`. */
  lemma StepShift(p: Position, d: Offset, j: int)
    requires IsDirection(d)
    ensures Step(Shift(p, d, j), d) == Shift(p, d, j + 1)
  {
  }

  /** Reaching step `k` from step `j + 1`, with step `j + 1` empty, is
      reaching it from step `j`. */
  lemma ReachesExtend(g: Grid, from: Position, color: TeamColor, d: Offset, j: int, k: int)
    requires Vacant(g, Shift(from, d, j + 1)) && RayReaches(g, from, color, d, j + 1, k)
    ensures RayReaches(g, from, color, d, j, k)
  {
  }

  /** Every square the ray can reach is on it. */
  lemma {:induction false} RayComplete(g: Grid, from: Position, color: TeamColor, d: Offset, j: int, k: int)
    requires IsDirection(d) && OnBoard(Shift(from, d, j))
    requires RayReaches(g, from, color, d, j, k)
    ensures Move(from, Shift(from, d, k), None) in Ray(g, from, color, d, Shift(from, d, j))
    decreases k - j
  {
    StepShift(from, d, j);
    if k != j + 1 {
      assert Vacant(g, Shift(from, d, j + 1));
      RayComplete(g, from, color, d, j + 1, k);
    }
  }

  /** Every move on the ray goes to a square the ray can reach. */
  lemma {:induction false} RaySound(g: Grid, from: Position, color: TeamColor, d: Offset, j: int, m: Move)
    requires IsDirection(d) && OnBoard(Shift(from, d, j))
    requires m in Ray(g, from, color, d, Shift(from, d, j))
    ensures exists k :: m == Move(from, Shift(from, d, k), None) && RayReaches(g, from, color, d, j, k)
    decreases Room(Shift(from, d, j).row, d.0) + Room(Shift(from, d, j).col, d.1)
  {
    var next := Shift(from, d, j + 1);
    StepShift(from, d, j);
    if OnBoard(next) && At(g, next).None? && m != Move(from, next, None) {
      RaySound(g, from, color, d, j + 1, m);
      var k :| m == Move(from, Shift(from, d, k), None) && RayReaches(g, from, color, d, j + 1, k);
      ReachesExtend(g, from, color, d, j, k);
    } else {
      assert RayReaches(g, from, color, d, j, j + 1);
    }
  }

  /** A ray from `from` holds exactly the moves to the squares it reaches. */
  lemma RayExactly(g: Grid, from: Position, color: TeamColor, d: Offset, m: Move)
    requires OnBoard(from) && IsDirection(d)
    ensures m in Ray(g, from, color, d, from) <==>
            exists k :: m == Move(from, Shift(from, d, k), None) && RayReaches(g, from, color, d, 0, k)
  {
    assert Shift(from, d, 0) == from;
    if m in Ray(g, from, color, d, from) {
      RaySound(g, from, color, d, 0, m);
    }
    if exists k :: m == Move(from, Shift(from, d, k), None) && RayReaches(g, from, color, d, 0, k) {
      var k :| m == Move(from, Shift(from, d, k), None) && RayReaches(g, from, color, d, 0, k);
      RayComplete(g, from, color, d, 0, k);
    }
  }

  /** Every move of every ray of a sliding piece is one of its moves. */
  lemma {:induction false} SlidesIncludeRay(g: Grid, from: Position, color: TeamColor, dirs: seq<Offset>, i: int, m: Move)
    requires OnBoard(from) && AllDirections(dirs) && 0 <= i < |dirs|
    requires m in Ray(g, from, color, dirs[i], from)
    ensures m in Slides(g, from, color, dirs)
    decreases |dirs|
  {
    var n := |dirs| - 1;
    if i < n {
      SlidesIncludeRay(g, from, color, dirs[..n], i, m);
    }
  }

  /** Every move of a sliding piece comes from one of its rays. */
  lemma {:induction false} SlidesFromRay(g: Grid, from: Position, color: TeamColor, dirs: seq<Offset>, m: Move)
    requires OnBoard(from) && AllDirections(dirs)
    requires m in Slides(g, from, color, dirs)
    ensures exists i | 0 <= i < |dirs| :: m in Ray(g, from, color, dirs[i], from)
    decreases |dirs|
  {
    var n := |dirs| - 1;
    if m !in Ray(g, from, color, dirs[n], from) {
      SlidesFromRay(g, from, color, dirs[..n], m);
      var i :| 0 <= i < n && m in Ray(g, from, color, dirs[..n][i], from);
      assert dirs[..n][i] == dirs[i];
    }
  }

  /** The moves of a sliding piece are those of its rays, taken together. */
  lemma SlidesMembership(g: Grid, from: Position, color: TeamColor, dirs: seq<Offset>, m: Move)
    requires OnBoard(from) && AllDirections(dirs)
    ensures m in Slides(g, from, color, dirs) <==> exists i | 0 <= i < |dirs| :: m in Ray(g, from, color, dirs[i], from)
  {
    if m in Slides(g, from, color, dirs) {
      SlidesFromRay(g, from, color, dirs, m);
    }
    if exists i | 0 <= i < |dirs| :: m in Ray(g, from, color, dirs[i], from) {
      var i :| 0 <= i < |dirs| && m in Ray(g, from, color, dirs[i], from);
      SlidesIncludeRay(g, from, color, dirs, i, m);
    }
  }

  /** A sliding piece moves to step `k` of one of its rays exactly when
      everything before it on that ray is empty and it holds no own piece. */
  lemma SlidesExactly(g: Grid, from: Position, color: TeamColor, dirs: seq<Offset>, m: Move)
    requires OnBoard(from) && AllDirections(dirs)
    ensures m in Slides(g, from, color, dirs) <==>
            exists i, k | 0 <= i < |dirs| :: m == Move(from, Shift(from, dirs[i], k), None) && RayReaches(g, from, color, dirs[i], 0, k)
  {
    SlidesMembership(g, from, color, dirs, m);
    if m in Slides(g, from, color, dirs) {
      var i :| 0 <= i < |dirs| && m in Ray(g, from, color, dirs[i], from);
      RayExactly(g, from, color, dirs[i], m);
    }
    if exists i, k | 0 <= i < |dirs| :: m == Move(from, Shift(from, dirs[i], k), None) && RayReaches(g, from, color, dirs[i], 0, k) {
      var i, k :| 0 <= i < |dirs| && m == Move(from, Shift(from, dirs[i], k), None) && RayReaches(g, from, color, dirs[i], 0, k);
      RayExactly(g, from, color, dirs[i], m);
    }
  }

  /** A stepping piece moves to the target of one of its offsets exactly when
      that target is on the board and holds no own piece. */
  lemma {:induction false} StepsExactly(g: Grid, from: Position, color: TeamColor, offsets: seq<Offset>, m: Move)
    ensures m in Steps(g, from, color, offsets) <==>
            exists i | 0 <= i < |offsets| :: m == Move(from, Step(from, offsets[i]), None) && Enterable(g, Step(from, offsets[i]), color)
    decreases |offsets|
  {
    if offsets != [] {
      var n := |offsets| - 1;
      var init := offsets[..n];
      StepsExactly(g, from, color, init, m);
      if exists i | 0 <= i < |init| :: m == Move(from, Step(from, init[i]), None) && Enterable(g, Step(from, init[i]), color) {
        var i :| 0 <= i < |init| && m == Move(from, Step(from, init[i]), None) && Enterable(g, Step(from, init[i]), color);
        assert offsets[i] == init[i];
      }
      if exists i | 0 <= i < |offsets| :: m == Move(from, Step(from, offsets[i]), None) && Enterable(g, Step(from, offsets[i]), color) {
        var i :| 0 <= i < |offsets| && m == Move(from, Step(from, offsets[i]), None) && Enterable(g, Step(from, offsets[i]), color);
        if i < n {
          assert init[i] == offsets[i];
        }
      }
    }
  }

  /** The promotion a pawn move carries: one of the four promotion types on
      the far rank, none elsewhere. */
  ghost predicate PromotionFits(color: TeamColor, m: Move) {
    if m.end.row == PromotionRank(color) then m.promotion in {Some(Queen), Some(Rook), Some(Bishop), Some(Knight)}
    else m.promotion == None
  }

  /** A single step onto the empty square directly ahead. */
  ghost predicate SingleStep(g: Grid, from: Position, color: TeamColor, m: Move) {
    m.end == Position(from.row + Forward(color), from.col) && Vacant(g, m.end)
  }

  /** A double step from the starting rank over two empty squares. */
  ghost predicate DoubleStep(g: Grid, from: Position, color: TeamColor, m: Move) {
    m.end == Position(from.row + 2 * Forward(color), from.col) && from.row == StartRank(color) &&
    Vacant(g, Position(from.row + Forward(color), from.col)) && Vacant(g, m.end)
  }

  /** A capture of an enemy piece one rank ahead and one file to either side. */
  ghost predicate DiagonalCapture(g: Grid, from: Position, color: TeamColor, m: Move) {
    m.end.row == from.row + Forward(color) && (m.end.col == from.col - 1 || m.end.col == from.col + 1) &&
    EnemyAt(g, m.end, color)
  }

  lemma PawnForwardExactly(g: Grid, from: Position, color: TeamColor, m: Move)
    requires PawnCanAdvance(from, color)
    ensures m in PawnForward(g, from, color) <==>
            m.start == from && PromotionFits(color, m) && (SingleStep(g, from, color, m) || DoubleStep(g, from, color, m))
  {
  }

  lemma PawnCaptureExactly(g: Grid, from: Position, color: TeamColor, to: Position, m: Move)
    ensures m in PawnCapture(g, from, color, to) <==>
            m.start == from && m.end == to && PromotionFits(color, m) && EnemyAt(g, to, color)
  {
  }

  /** The pawn rules stated square by square: a single step onto an empty
      square, a double step from the starting rank over two empty squares, or
      a capture of an enemy piece one file to either side, promoting on the
      far rank. */
  lemma PawnExactly(g: Grid, from: Position, color: TeamColor, m: Move)
    requires PawnCanAdvance(from, color)
    ensures m in PawnRule(g, from, color) <==>
            m.start == from && PromotionFits(color, m) &&
            (SingleStep(g, from, color, m) || DoubleStep(g, from, color, m) || DiagonalCapture(g, from, color, m))
  {
    var row := from.row + Forward(color);
    var first := if color == White then from.col - 1 else from.col + 1;
    var second := if color == White then from.col + 1 else from.col - 1;
    PawnForwardExactly(g, from, color, m);
    PawnCaptureExactly(g, from, color, Position(row, first), m);
    PawnCaptureExactly(g, from, color, Position(row, second), m);
    assert m in PawnRule(g, from, color) <==>
           m in PawnForward(g, from, color) || m in PawnCapture(g, from, color, Position(row, first)) ||
           m in PawnCapture(g, from, color, Position(row, second));
  }

  /** Two rays from one square never meet again: a square `k` steps along
      `d` is `k'` steps along `d'` only for the same direction and distance. */
  lemma ShiftInjective(p: Position, d: Offset, k: int, d': Offset, k': int)
    requires IsDirection(d) && IsDirection(d') && k >= 1 && k' >= 1
    requires Shift(p, d, k) == Shift(p, d', k')
    ensures d == d' && k == k'
  {
  }

  lemma SlidingTablesAreDirections()
    ensures AllDirections(RookDirections) && AllDirections(BishopDirections) && AllDirections(QueenDirections)
  {
  }

  /** Sliding along every direction of `dirs` reaches nothing that sliding
      along the directions of `dirs1` or of `dirs2` does not. */
  lemma SlidesCovered(g: Grid, from: Position, color: TeamColor, dirs: seq<Offset>, dirs1: seq<Offset>, dirs2: seq<Offset>, m: Move)
    requires OnBoard(from) && AllDirections(dirs) && AllDirections(dirs1) && AllDirections(dirs2)
    requires forall d | d in dirs :: d in dirs1 || d in dirs2
    requires m in Slides(g, from, color, dirs)
    ensures m in Slides(g, from, color, dirs1) || m in Slides(g, from, color, dirs2)
  {
    SlidesMembership(g, from, color, dirs, m);
    SlidesMembership(g, from, color, dirs1, m);
    SlidesMembership(g, from, color, dirs2, m);
    var i :| 0 <= i < |dirs| && m in Ray(g, from, color, dirs[i], from);
    assert dirs[i] in dirs;
  }

  /** The moves of a queen are exactly those of a rook and of a bishop on the
      same square, taken together. */
  lemma QueenIsRookAndBishop(g: Grid, from: Position, color: TeamColor, m: Move)
    requires OnBoard(from)
    ensures AllDirections(QueenDirections) && AllDirections(RookDirections) && AllDirections(BishopDirections)
    ensures m in Slides(g, from, color, QueenDirections) <==>
            m in Slides(g, from, color, RookDirections) || m in Slides(g, from, color, BishopDirections)
  {
    SlidingTablesAreDirections();
    if m in Slides(g, from, color, QueenDirections) {
      SlidesCovered(g, from, color, QueenDirections, RookDirections, BishopDirections, m);
    }
    if m in Slides(g, from, color, RookDirections) {
      SlidesCovered(g, from, color, RookDirections, QueenDirections, QueenDirections, m);
    }
    if m in Slides(g, from, color, BishopDirections) {
      SlidesCovered(g, from, color, BishopDirections, QueenDirections, QueenDirections, m);
    }
  }

  /** The ray directions of a sliding piece type. */
  function DirectionsOf(kind: PieceType): seq<Offset>
    requires kind in {Queen, Rook, Bishop}
  {
    match kind
    case Queen => QueenDirections
    case Rook => RookDirections
    case Bishop => BishopDirections
  }

  /** What every generated move satisfies: it starts on the queried square,
      it ends on the board on a square that does not hold a piece of the
      mover's colour (so never on the queried square itself), and only a pawn
      reaching its far rank carries a promotion. */
  lemma MovesSound(g: Grid, from: Position, m: Move)
    requires CanQuery(g, from) && m in Moves(g, from)
    ensures m.start == from
    ensures Enterable(g, m.end, At(g, from).value.color) && m.end != from
    ensures m.promotion.Some? ==> At(g, from).value.kind == Pawn && m.end.row == PromotionRank(At(g, from).value.color)
  {
    var piece := At(g, from).value;
    SlidingTablesAreDirections();
    match piece.kind
    case King =>
      StepsExactly(g, from, piece.color, KingOffsets, m);
    case Knight =>
      StepsExactly(g, from, piece.color, KnightOffsets, m);
    case Queen =>
      SlidesExactly(g, from, piece.color, QueenDirections, m);
    case Rook =>
      SlidesExactly(g, from, piece.color, RookDirections, m);
    case Bishop =>
      SlidesExactly(g, from, piece.color, BishopDirections, m);
    case Pawn =>
      PawnExactly(g, from, piece.color, m);
  }

  /** Along each ray of a sliding piece, nothing beyond the first occupied
      square is ever a destination. */
  lemma RayStopsAtBlocker(g: Grid, from: Position, d: Offset, b: int, k: int, m: Move)
    requires CanQuery(g, from) && At(g, from).value.kind in {Queen, Rook, Bishop}
    requires d in DirectionsOf(At(g, from).value.kind)
    requires 1 <= b < k && OnBoard(Shift(from, d, b)) && At(g, Shift(from, d, b)).Some?
    requires m in Moves(g, from)
    ensures m.end != Shift(from, d, k)
  {
    var piece := At(g, from).value;
    var dirs := DirectionsOf(piece.kind);
    SlidingTablesAreDirections();
    SlidesExactly(g, from, piece.color, dirs, m);
    var i, k' :| 0 <= i < |dirs| && m == Move(from, Shift(from, dirs[i], k'), None) && RayReaches(g, from, piece.color, dirs[i], 0, k');
    if m.end == Shift(from, d, k) {
      ShiftInjective(from, d, k, dirs[i], k');
      assert false;
    }
  }

  /** The first occupied square of a ray is a destination exactly when it
      holds an enemy piece. */
  lemma BlockerCapturedOnlyIfEnemy(g: Grid, from: Position, d: Offset, b: int)
    requires CanQuery(g, from) && At(g, from).value.kind in {Queen, Rook, Bishop}
    requires d in DirectionsOf(At(g, from).value.kind)
    requires b >= 1 && OnBoard(Shift(from, d, b)) && At(g, Shift(from, d, b)).Some?
    requires ClearBetween(g, from, d, 0, b)
    ensures Move(from, Shift(from, d, b), None) in Moves(g, from) <==>
            At(g, Shift(from, d, b)).value.color != At(g, from).value.color
  {
    var piece := At(g, from).value;
    var dirs := DirectionsOf(piece.kind);
    var m := Move(from, Shift(from, d, b), None);
    SlidingTablesAreDirections();
    SlidesExactly(g, from, piece.color, dirs, m);
    if m in Moves(g, from) {
      var i, k :| 0 <= i < |dirs| && m == Move(from, Shift(from, dirs[i], k), None) && RayReaches(g, from, piece.color, dirs[i], 0, k);
      ShiftInjective(from, d, b, dirs[i], k);
    }
    if At(g, Shift(from, d, b)).value.color != piece.color {
      var i :| 0 <= i < |dirs| && dirs[i] == d;
      assert RayReaches(g, from, piece.color, dirs[i], 0, b);
    }
  }

  /** When every offset lands on an empty square, a stepping piece makes one
      plain move per offset, in table order. */
  lemma {:induction false} StepsAllLand(g: Grid, from: Position, color: TeamColor, offsets: seq<Offset>)
    requires forall i | 0 <= i < |offsets| :: Vacant(g, Step(from, offsets[i]))
    ensures Steps(g, from, color, offsets) == seq(|offsets|, i requires 0 <= i < |offsets| => Move(from, Step(from, offsets[i]), None))
    decreases |offsets|
  {
    if offsets != [] {
      var n := |offsets| - 1;
      var init := offsets[..n];
      assert forall i | 0 <= i < n :: init[i] == offsets[i];
      StepsAllLand(g, from, color, init);
      assert Vacant(g, Step(from, offsets[n]));
    }
  }

  /** The king's offsets are exactly the eight unit directions. */
  lemma KingOffsetsAreDirections(d: Offset)
    ensures d in KingOffsets <==> IsDirection(d)
  {
  }

  /** With every neighbouring square empty, a king makes one plain move per
      offset, in table order. */
  lemma KingMovesOnEmptyNeighbourhood(g: Grid, from: Position, color: TeamColor)
    requires 2 <= from.row <= 7 && 2 <= from.col <= 7
    requires At(g, from) == Some(Piece(color, King))
    requires forall p | OnBoard(p) && p != from :: At(g, p).None?
    ensures CanQuery(g, from)
    ensures Moves(g, from) == seq(8, i requires 0 <= i < 8 => Move(from, Step(from, KingOffsets[i]), None))
  {
    forall i | 0 <= i < |KingOffsets|
      ensures Vacant(g, Step(from, KingOffsets[i]))
    {
      assert IsDirection(KingOffsets[i]);
    }
    StepsAllLand(g, from, color, KingOffsets);
  }

  /** The plain moves to the targets of a table reach a square exactly when
      its displacement from `from` is in the table. */
  lemma PlainMovesReach(from: Position, t: seq<Offset>, p: Position)
    ensures var moves := seq(|t|, i requires 0 <= i < |t| => Move(from, Step(from, t[i]), None));
            (exists m | m in moves :: m.end == p) <==> (p.row - from.row, p.col - from.col) in t
  {
    var moves := seq(|t|, i requires 0 <= i < |t| => Move(from, Step(from, t[i]), None));
    var d := (p.row - from.row, p.col - from.col);
    if exists m | m in moves :: m.end == p {
      var m :| m in moves && m.end == p;
      var i :| 0 <= i < |t| && moves[i] == m;
      assert t[i] == d;
    }
    if d in t {
      var i :| 0 <= i < |t| && t[i] == d;
      assert moves[i].end == p;
    }
  }

  /** A king alone on the board, away from the edges, has eight moves, one
      to each adjacent square. */
  lemma LoneKingHasEightMoves(g: Grid, from: Position, color: TeamColor)
    requires 2 <= from.row <= 7 && 2 <= from.col <= 7
    requires At(g, from) == Some(Piece(color, King))
    requires forall p | OnBoard(p) && p != from :: At(g, p).None?
    ensures CanQuery(g, from) && |Moves(g, from)| == 8
    ensures forall m | m in Moves(g, from) :: m.start == from && m.promotion == None
    ensures forall p :: (exists m | m in Moves(g, from) :: m.end == p) <==>
                        p != from && -1 <= p.row - from.row <= 1 && -1 <= p.col - from.col <= 1
  {
    KingMovesOnEmptyNeighbourhood(g, from, color);
    forall p
      ensures (exists m | m in Moves(g, from) :: m.end == p) <==>
              p != from && -1 <= p.row - from.row <= 1 && -1 <= p.col - from.col <= 1
    {
      PlainMovesReach(from, KingOffsets, p);
      KingOffsetsAreDirections((p.row - from.row, p.col - from.col));
    }
  }

  /** Offsets whose targets are off the board contribute nothing. */
  lemma {:induction false} StepsOffBoardTail(g: Grid, from: Position, color: TeamColor, offsets: seq<Offset>, n: int)
    requires 0 <= n <= |offsets|
    requires forall i | n <= i < |offsets| :: !OnBoard(Step(from, offsets[i]))
    ensures Steps(g, from, color, offsets) == Steps(g, from, color, offsets[..n])
    decreases |offsets|
  {
    if n < |offsets| {
      var last := |offsets| - 1;
      assert offsets[..last][..n] == offsets[..n];
      StepsOffBoardTail(g, from, color, offsets[..last], n);
    } else {
      assert offsets[..n] == offsets;
    }
  }

  /** A knight alone in the corner (1,1) has exactly the moves to (3,2) and
      (2,3). */
  lemma CornerKnightHasTwoMoves(g: Grid, color: TeamColor)
    requires At(g, Position(1, 1)) == Some(Piece(color, Knight))
    requires forall p | OnBoard(p) && p != Position(1, 1) :: At(g, p).None?
    ensures CanQuery(g, Position(1, 1))
    ensures Moves(g, Position(1, 1)) == [Move(Position(1, 1), Position(3, 2), None), Move(Position(1, 1), Position(2, 3), None)]
  {
    var from := Position(1, 1);
    StepsOffBoardTail(g, from, color, KnightOffsets, 2);
    assert KnightOffsets[..2] == [(2, 1), (1, 2)];
    assert [(2, 1), (1, 2)][..1] == [(2, 1)];
    assert [(2, 1)][..0] == [];
    assert At(g, Position(3, 2)).None? && At(g, Position(2, 3)).None?;
  }

  /** A pawn whose square ahead is occupied, by either colour, makes no
      forward move: every move it has changes file. */
  lemma BlockedPawnOnlyCaptures(g: Grid, from: Position)
    requires CanQuery(g, from) && At(g, from).value.kind == Pawn
    requires At(g, Position(from.row + Forward(At(g, from).value.color), from.col)).Some?
    ensures forall m | m in Moves(g, from) :: m.end.col != from.col
  {
    forall m | m in Moves(g, from)
      ensures m.end.col != from.col
    {
      PawnExactly(g, from, At(g, from).value.color, m);
    }
  }

  /** A pawn on its starting rank with the two squares ahead empty has both
      the single and the double step. */
  lemma StartingPawnStepsOneOrTwo(g: Grid, from: Position)
    requires CanQuery(g, from) && At(g, from).value.kind == Pawn
    requires from.row == StartRank(At(g, from).value.color)
    requires Vacant(g, Position(from.row + Forward(At(g, from).value.color), from.col))
    requires Vacant(g, Position(from.row + 2 * Forward(At(g, from).value.color), from.col))
    ensures Move(from, Position(from.row + Forward(At(g, from).value.color), from.col), None) in Moves(g, from)
    ensures Move(from, Position(from.row + 2 * Forward(At(g, from).value.color), from.col), None) in Moves(g, from)
  {
    var color := At(g, from).value.color;
    PawnExactly(g, from, color, Move(from, Position(from.row + Forward(color), from.col), None));
    PawnExactly(g, from, color, Move(from, Position(from.row + 2 * Forward(color), from.col), None));
  }

  /** A pawn moves two squares only from its starting rank. */
  lemma DoubleStepOnlyFromStart(g: Grid, from: Position, m: Move)
    requires CanQuery(g, from) && At(g, from).value.kind == Pawn
    requires m in Moves(g, from) && m.end == Position(from.row + 2 * Forward(At(g, from).value.color), from.col)
    ensures from.row == StartRank(At(g, from).value.color)
    ensures Vacant(g, Position(from.row + Forward(At(g, from).value.color), from.col)) && Vacant(g, m.end)
  {
    PawnExactly(g, from, At(g, from).value.color, m);
  }

  /** A white pawn alone on rank 7 has exactly the four promotions of its
      step to rank 8. */
  lemma LoneWhitePawnPromotes(g: Grid, c: int)
    requires 1 <= c <= 8
    requires At(g, Position(7, c)) == Some(Piece(White, Pawn))
    requires forall p | OnBoard(p) && p != Position(7, c) :: At(g, p).None?
    ensures CanQuery(g, Position(7, c))
    ensures Moves(g, Position(7, c)) == Promotions(Position(7, c), Position(8, c))
  {
  }

  /** The pawn rule offers a move to a given square with all four promotion
      types or with none, never as a king or pawn, and never without
      promotion on the far rank. */
  lemma PawnPromotionsComeInFours(g: Grid, from: Position, color: TeamColor, to: Position)
    requires PawnCanAdvance(from, color)
    ensures Move(from, to, Some(Queen)) in PawnRule(g, from, color) <==> Move(from, to, Some(Rook)) in PawnRule(g, from, color)
    ensures Move(from, to, Some(Queen)) in PawnRule(g, from, color) <==> Move(from, to, Some(Bishop)) in PawnRule(g, from, color)
    ensures Move(from, to, Some(Queen)) in PawnRule(g, from, color) <==> Move(from, to, Some(Knight)) in PawnRule(g, from, color)
    ensures Move(from, to, Some(King)) !in PawnRule(g, from, color) && Move(from, to, Some(Pawn)) !in PawnRule(g, from, color)
    ensures to.row == PromotionRank(color) ==> Move(from, to, None) !in PawnRule(g, from, color)
  {
    PawnExactly(g, from, color, Move(from, to, Some(Queen)));
    PawnExactly(g, from, color, Move(from, to, Some(Rook)));
    PawnExactly(g, from, color, Move(from, to, Some(Bishop)));
    PawnExactly(g, from, color, Move(from, to, Some(Knight)));
    PawnExactly(g, from, color, Move(from, to, Some(King)));
    PawnExactly(g, from, color, Move(from, to, Some(Pawn)));
    PawnExactly(g, from, color, Move(from, to, None));
  }

  /** Promotions come in fours for every piece: a move to a given square is
      offered with all four promotion types or with none (pieces other than
      pawns never promote), never as a king or pawn, and never without
      promotion when a pawn reaches its far rank. */
  lemma PromotionsComeInFours(g: Grid, from: Position, to: Position)
    requires CanQuery(g, from)
    ensures Move(from, to, Some(Queen)) in Moves(g, from) <==> Move(from, to, Some(Rook)) in Moves(g, from)
    ensures Move(from, to, Some(Queen)) in Moves(g, from) <==> Move(from, to, Some(Bishop)) in Moves(g, from)
    ensures Move(from, to, Some(Queen)) in Moves(g, from) <==> Move(from, to, Some(Knight)) in Moves(g, from)
    ensures Move(from, to, Some(King)) !in Moves(g, from) && Move(from, to, Some(Pawn)) !in Moves(g, from)
    ensures At(g, from).value.kind == Pawn && to.row == PromotionRank(At(g, from).value.color) ==>
            Move(from, to, None) !in Moves(g, from)
  {
    var piece := At(g, from).value;
    if piece.kind == Pawn {
      PawnPromotionsComeInFours(g, from, piece.color, to);
    } else {
      if Move(from, to, Some(Queen)) in Moves(g, from) { MovesSound(g, from, Move(from, to, Some(Queen))); }
      if Move(from, to, Some(Rook)) in Moves(g, from) { MovesSound(g, from, Move(from, to, Some(Rook))); }
      if Move(from, to, Some(Bishop)) in Moves(g, from) { MovesSound(g, from, Move(from, to, Some(Bishop))); }
      if Move(from, to, Some(Knight)) in Moves(g, from) { MovesSound(g, from, Move(from, to, Some(Knight))); }
      if Move(from, to, Some(King)) in Moves(g, from) { MovesSound(g, from, Move(from, to, Some(King))); }
      if Move(from, to, Some(Pawn)) in Moves(g, from) { MovesSound(g, from, Move(from, to, Some(Pawn))); }
    }
  }

  /** The moves of a queen, as a set, are those of a rook and of a bishop
      standing on the same square. */
  lemma QueenMovesAsRookAndBishop(g: Grid, from: Position)
    requires CanQuery(g, from) && At(g, from).value.kind == Queen
    ensures AllDirections(RookDirections) && AllDirections(BishopDirections)
    ensures forall m :: m in Moves(g, from) <==>
              m in Slides(g, from, At(g, from).value.color, RookDirections) ||
              m in Slides(g, from, At(g, from).value.color, BishopDirections)
  {
    SlidingTablesAreDirections();
    forall m
      ensures m in Moves(g, from) <==>
              m in Slides(g, from, At(g, from).value.color, RookDirections) ||
              m in Slides(g, from, At(g, from).value.color, BishopDirections)
    {
      QueenIsRookAndBishop(g, from, At(g, from).value.color, m);
    }
  }

  /** No move occurs twice in `s`. */
  ghost predicate NoDuplicates(s: seq<Move>) {
    forall i, j | 0 <= i < j < |s| :: s[i] != s[j]
  }

  /** No offset occurs twice in a table. */
  ghost predicate DistinctOffsets(t: seq<Offset>) {
    forall i, j | 0 <= i < j < |t| :: t[i] != t[j]
  }

  lemma AppendNoDuplicates(a: seq<Move>, b: seq<Move>)
    requires NoDuplicates(a) && NoDuplicates(b)
    requires forall m | m in a :: m !in b
    ensures NoDuplicates(a + b)
  {
    forall i, j | 0 <= i < j < |a + b|
      ensures (a + b)[i] != (a + b)[j]
    {
      if i < |a| <= j {
        assert (a + b)[i] in a && (a + b)[j] == b[j - |a|];
      }
    }
  }

  /** A ray never lists a square twice: its squares lie ever farther out. */
  lemma {:induction false} RayNoDuplicates(g: Grid, from: Position, color: TeamColor, d: Offset, j: int)
    requires IsDirection(d) && j >= 0 && OnBoard(Shift(from, d, j))
    ensures NoDuplicates(Ray(g, from, color, d, Shift(from, d, j)))
    decreases Room(Shift(from, d, j).row, d.0) + Room(Shift(from, d, j).col, d.1)
  {
    var next := Shift(from, d, j + 1);
    StepShift(from, d, j);
    if OnBoard(next) && At(g, next).None? {
      RayNoDuplicates(g, from, color, d, j + 1);
      var rest := Ray(g, from, color, d, next);
      forall m | m in rest
        ensures m != Move(from, next, None)
      {
        RayBeyond(g, from, color, d, j + 1, m);
      }
      AppendNoDuplicates([Move(from, next, None)], rest);
    }
  }

  /** The moves of a ray continued from step `j` all lie beyond step `j`. */
  lemma RayBeyond(g: Grid, from: Position, color: TeamColor, d: Offset, j: int, m: Move)
    requires IsDirection(d) && j >= 0 && OnBoard(Shift(from, d, j))
    requires m in Ray(g, from, color, d, Shift(from, d, j))
    ensures m.end != Shift(from, d, j)
  {
    RaySound(g, from, color, d, j, m);
    var k :| m == Move(from, Shift(from, d, k), None) && RayReaches(g, from, color, d, j, k);
    ShiftInjectiveDistance(from, d, k, j);
  }

  /** Along one direction, different distances give different squares. */
  lemma ShiftInjectiveDistance(p: Position, d: Offset, k: int, k': int)
    requires IsDirection(d) && k != k'
    ensures Shift(p, d, k) != Shift(p, d, k')
  {
  }

  /** The rays of distinct directions never share a move, so a sliding piece
      lists no move twice. */
  lemma {:induction false} SlidesNoDuplicates(g: Grid, from: Position, color: TeamColor, dirs: seq<Offset>)
    requires OnBoard(from) && AllDirections(dirs) && DistinctOffsets(dirs)
    ensures NoDuplicates(Slides(g, from, color, dirs))
    decreases |dirs|
  {
    if dirs != [] {
      var n := |dirs| - 1;
      var init := dirs[..n];
      assert forall i | 0 <= i < n :: init[i] == dirs[i];
      SlidesNoDuplicates(g, from, color, init);
      assert Shift(from, dirs[n], 0) == from;
      RayNoDuplicates(g, from, color, dirs[n], 0);
      forall m | m in Slides(g, from, color, init)
        ensures m !in Ray(g, from, color, dirs[n], from)
      {
        SlidesExactly(g, from, color, init, m);
        RayExactly(g, from, color, dirs[n], m);
        var i, k :| 0 <= i < n && m == Move(from, Shift(from, init[i], k), None) && RayReaches(g, from, color, init[i], 0, k);
        if m in Ray(g, from, color, dirs[n], from) {
          var k' :| m == Move(from, Shift(from, dirs[n], k'), None) && RayReaches(g, from, color, dirs[n], 0, k');
          ShiftInjective(from, init[i], k, dirs[n], k');
          assert false;
        }
      }
      AppendNoDuplicates(Slides(g, from, color, init), Ray(g, from, color, dirs[n], from));
    }
  }

  /** Distinct offsets give distinct targets, so a stepping piece lists no
      move twice. */
  lemma {:induction false} StepsNoDuplicates(g: Grid, from: Position, color: TeamColor, offsets: seq<Offset>)
    requires DistinctOffsets(offsets)
    ensures NoDuplicates(Steps(g, from, color, offsets))
    decreases |offsets|
  {
    if offsets != [] {
      var n := |offsets| - 1;
      var init := offsets[..n];
      assert forall i | 0 <= i < n :: init[i] == offsets[i];
      StepsNoDuplicates(g, from, color, init);
      var to := Step(from, offsets[n]);
      var tail := if OnBoard(to) then Landing(g, from, color, to) else [];
      forall m | m in Steps(g, from, color, init)
        ensures m !in tail
      {
        StepsExactly(g, from, color, init, m);
      }
      AppendNoDuplicates(Steps(g, from, color, init), tail);
    }
  }

  lemma PromotionsNoDuplicates(from: Position, to: Position)
    ensures NoDuplicates(Promotions(from, to))
  {
  }

  lemma PawnForwardNoDuplicates(g: Grid, from: Position, color: TeamColor)
    requires PawnCanAdvance(from, color)
    ensures NoDuplicates(PawnForward(g, from, color))
    ensures forall m | m in PawnForward(g, from, color) :: m.end.col == from.col
  {
    PromotionsNoDuplicates(from, Position(from.row + Forward(color), from.col));
  }

  lemma PawnCaptureNoDuplicates(g: Grid, from: Position, color: TeamColor, to: Position)
    ensures NoDuplicates(PawnCapture(g, from, color, to))
    ensures forall m | m in PawnCapture(g, from, color, to) :: m.end == to
  {
    PromotionsNoDuplicates(from, to);
  }

  /** The pawn's forward moves and its two captures are pairwise disjoint
      and none repeats, so a pawn lists no move twice. */
  lemma PawnNoDuplicates(g: Grid, from: Position, color: TeamColor)
    requires PawnCanAdvance(from, color)
    ensures NoDuplicates(PawnRule(g, from, color))
  {
    var row := from.row + Forward(color);
    var first := Position(row, if color == White then from.col - 1 else from.col + 1);
    var second := Position(row, if color == White then from.col + 1 else from.col - 1);
    var forward := PawnForward(g, from, color);
    var left := PawnCapture(g, from, color, first);
    var right := PawnCapture(g, from, color, second);
    PawnForwardNoDuplicates(g, from, color);
    PawnCaptureNoDuplicates(g, from, color, first);
    PawnCaptureNoDuplicates(g, from, color, second);
    AppendNoDuplicates(forward, left);
    AppendNoDuplicates(forward + left, right);
    assert PawnRule(g, from, color) == forward + left + right;
  }

  lemma TablesAreDistinct()
    ensures DistinctOffsets(KingOffsets) && DistinctOffsets(KnightOffsets)
    ensures DistinctOffsets(QueenDirections) && DistinctOffsets(RookDirections) && DistinctOffsets(BishopDirections)
  {
  }

  /** `pieceMoves` never lists the same move twice, so the moves it returns
      are as many as the distinct moves of the piece. */
  lemma MovesNoDuplicates(g: Grid, from: Position)
    requires CanQuery(g, from)
    ensures NoDuplicates(Moves(g, from))
  {
    var piece := At(g, from).value;
    TablesAreDistinct();
    SlidingTablesAreDirections();
    match piece.kind
    case King =>
      StepsNoDuplicates(g, from, piece.color, KingOffsets);
    case Knight =>
      StepsNoDuplicates(g, from, piece.color, KnightOffsets);
    case Queen =>
      SlidesNoDuplicates(g, from, piece.color, QueenDirections);
    case Rook =>
      SlidesNoDuplicates(g, from, piece.color, RookDirections);
    case Bishop =>
      SlidesNoDuplicates(g, from, piece.color, BishopDirections);
    case Pawn =>
      PawnNoDuplicates(g, from, piece.color);
  }
}
