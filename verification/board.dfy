/** The 8x8 board: an abstract value (`Grid`) that the move rules read, and the
    `ChessBoard` class whose array the source updates in place. */
module Board {
  import opened ChessPieces

  /** The contents of a board as a value: eight rows of eight optional pieces;
      row index 0 is rank 1 and column index 0 is file 1. */
  type Grid = g: seq<seq<Option<Piece>>> | |g| == 8 && forall i | 0 <= i < |g| :: |g[i]| == 8
    witness seq(8, i => seq(8, j => None))

  /** The piece on an on-board square, if any. */
  function At(g: Grid, p: Position): Option<Piece>
    requires OnBoard(p)
  {
    g[p.row - 1][p.col - 1]
  }

  /** Two grids are the same value exactly when they agree on all 64 squares. */
  lemma {:induction false} GridExtensionality(g: Grid, h: Grid)
    requires forall p | OnBoard(p) :: At(g, p) == At(h, p)
    ensures g == h
  {
    forall i | 0 <= i < 8
      ensures g[i] == h[i]
    {
      forall j | 0 <= j < 8
        ensures g[i][j] == h[i][j]
      {
        assert At(g, Position(i + 1, j + 1)) == At(h, Position(i + 1, j + 1));
      }
    }
  }

  /** The back rank from file 1 to file 8. */
  const BackRank: seq<PieceType> := [Rook, Knight, Bishop, Queen, King, Bishop, Knight, Rook]

  /** The piece the standard starting layout puts on each square. */
  function StartingPiece(p: Position): Option<Piece>
    requires OnBoard(p)
  {
    if p.row == 1 then Some(Piece(White, BackRank[p.col - 1]))
    else if p.row == 2 then Some(Piece(White, Pawn))
    else if p.row == 7 then Some(Piece(Black, Pawn))
    else if p.row == 8 then Some(Piece(Black, BackRank[p.col - 1]))
    else None
  }

  /** An 8x8 array of optional pieces; the array itself is never replaced. */
  class ChessBoard {
    const board: array2<Option<Piece>>

    ghost predicate Valid()
    {
      board.Length0 == 8 && board.Length1 == 8
    }

    /** The abstract contents of the board. */
    ghost function Cells(): Grid
      reads board
      requires Valid()
    {
      seq(8, i requires 0 <= i < 8 reads board =>
        seq(8, j requires 0 <= j < 8 reads board => board[i, j]))
    }

    /** A new board has every square empty. */
    constructor ()
      ensures Valid() && fresh(board)
      ensures forall p | OnBoard(p) :: At(Cells(), p) == None
    {
      board := new Option<Piece>[8, 8]((i, j) => None);
    }

    /** Puts `piece` on `position`, discarding whatever was there; `None`
        clears the square. */
    method AddPiece(position: Position, piece: Option<Piece>)
      requires Valid() && OnBoard(position)
      modifies board
      ensures At(Cells(), position) == piece
      ensures forall p | OnBoard(p) && p != position :: At(Cells(), p) == At(old(Cells()), p)
    {
      board[position.row - 1, position.col - 1] := piece;
    }

    /** The piece on `position`, read without changing anything. */
    function GetPiece(position: Position): (r: Option<Piece>)
      reads board
      requires Valid() && OnBoard(position)
      ensures r == At(Cells(), position)
    {
      board[position.row - 1, position.col - 1]
    }

    /** The first `n` squares in row-major order hold their starting piece. */
    ghost predicate Filled(n: int)
      reads board
      requires Valid()
    {
      forall i, j | 0 <= i < 8 && 0 <= j < 8 && i * 8 + j < n :: board[i, j] == StartingPiece(Position(i + 1, j + 1))
    }

    /** The eight single-square writes `resetBoard` makes on a back rank:
        rook, knight, bishop, queen, king, bishop, knight, rook of `color` on
        array row `i`; the other rows are left alone. */
    method SetBackRank(i: int, color: TeamColor)
      requires Valid() && 0 <= i < 8
      modifies board
      ensures forall j | 0 <= j < 8 :: board[i, j] == Some(Piece(color, BackRank[j]))
      ensures forall r, j | 0 <= r < 8 && 0 <= j < 8 && r != i :: board[r, j] == old(board[r, j])
    {
      board[i, 0] := Some(Piece(color, Rook));
      board[i, 1] := Some(Piece(color, Knight));
      board[i, 2] := Some(Piece(color, Bishop));
      board[i, 3] := Some(Piece(color, Queen));
      board[i, 4] := Some(Piece(color, King));
      board[i, 5] := Some(Piece(color, Bishop));
      board[i, 6] := Some(Piece(color, Knight));
      board[i, 7] := Some(Piece(color, Rook));
    }

    /** Rewrites all 64 squares to the standard starting layout, whatever
        the board held before: rank 1, then rank 2, ranks 3 to 6 cleared,
        rank 7, rank 8, in row-major order. */
    method ResetBoard()
      requires Valid()
      modifies board
      ensures forall p | OnBoard(p) :: GetPiece(p) == StartingPiece(p)
    {
      SetBackRank(0, White);
      for i := 0 to 8
        invariant Filled(8 + i)
      {
        board[1, i] := Some(Piece(White, Pawn));
      }
      for k := 2 to 6
        invariant Filled(8 * k)
      {
        for l := 0 to 8
          invariant Filled(8 * k + l)
        {
          board[k, l] := None;
        }
      }
      for j := 0 to 8
        invariant Filled(48 + j)
      {
        board[6, j] := Some(Piece(Black, Pawn));
      }
      SetBackRank(7, Black);
      assert Filled(64);
    }

    /** Board equality: every one of the 64 squares holds an equal piece, or
        both are empty. */
    predicate Equals(that: ChessBoard)
      reads board, that.board
      requires Valid() && that.Valid()
      ensures Equals(that) <==> forall p | OnBoard(p) :: GetPiece(p) == that.GetPiece(p)
      ensures Equals(that) <==> Cells() == that.Cells()
    {
      CellsAgree(that);
      forall i, j | 0 <= i < 8 && 0 <= j < 8 :: board[i, j] == that.board[i, j]
    }

    /** Cell-by-cell agreement of the two arrays is equality of the two grids. */
    lemma CellsAgree(that: ChessBoard)
      requires Valid() && that.Valid()
      ensures (forall i, j | 0 <= i < 8 && 0 <= j < 8 :: board[i, j] == that.board[i, j])
              <==> Cells() == that.Cells()
      ensures (forall p | OnBoard(p) :: GetPiece(p) == that.GetPiece(p)) <==> Cells() == that.Cells()
    {
      if forall p | OnBoard(p) :: GetPiece(p) == that.GetPiece(p) {
        GridExtensionality(Cells(), that.Cells());
      }
      if forall i, j | 0 <= i < 8 && 0 <= j < 8 :: board[i, j] == that.board[i, j] {
        GridExtensionality(Cells(), that.Cells());
      }
      if Cells() == that.Cells() {
        forall i, j | 0 <= i < 8 && 0 <= j < 8
          ensures board[i, j] == that.board[i, j]
        {
          assert Cells()[i][j] == that.Cells()[i][j];
        }
      }
    }
  }
}
