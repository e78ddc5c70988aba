// The move-application step of the top-level component (App.tsx,
// handleMove): the component's state cells are the fields of class App.

module App {
  import opened ChessTypes

  /** The board with `sq` set to `x`; every other square is left alone. */
  function Place(b: Board, sq: Square, x: Option<Piece>): (placed: Board)
    requires WellFormed(b) && OnBoard(sq)
    ensures WellFormed(placed)
  {
    b[sq.0 := b[sq.0][sq.1 := x]]
  }

  /** The board after moving whatever stands on `from` to `to`: the destination is written first, then the source is cleared. */
  function MovedBoard(b: Board, from: Square, to: Square): (moved: Board)
    requires WellFormed(b) && OnBoard(from) && OnBoard(to)
    ensures WellFormed(moved)
  {
    Place(Place(b, to, At(b, from)), from, None)
  }

  /** An occupied square holding a king of either colour. */
  predicate HoldsKing(x: Option<Piece>)
  {
    x.Some? && x.value.kind == King
  }

  /**
   * Applying a move changes two squares at most: the source becomes empty,
   * the destination receives the piece that stood on the source (unless the
   * two coincide, in which case the square ends up empty), and every other
   * square keeps what it held.
   */
  lemma MovedBoardSquares(b: Board, from: Square, to: Square)
    requires WellFormed(b) && OnBoard(from) && OnBoard(to)
    ensures var moved := MovedBoard(b, from, to);
      && At(moved, from) == None
      && (to != from ==> At(moved, to) == At(b, from))
      && forall sq :: OnBoard(sq) && sq != from && sq != to ==> At(moved, sq) == At(b, sq)
  {
    var once := Place(b, to, At(b, from));
    forall sq | OnBoard(sq) && sq != to
      ensures At(once, sq) == At(b, sq)
    {
      if sq.0 == to.0 {
        assert sq.1 != to.1;
      }
    }
    forall sq | OnBoard(sq) && sq != from
      ensures At(Place(once, from, None), sq) == At(once, sq)
    {
      if sq.0 == from.0 {
        assert sq.1 != from.1;
      }
    }
  }

  /** 1 for an occupied square, 0 for an empty one. */
  function Occupancy(x: Option<Piece>): nat
  {
    if x.Some? then 1 else 0
  }

  /** The number of pieces on a row. */
  function RowPieces(row: seq<Option<Piece>>): nat
  {
    if row == [] then 0 else RowPieces(row[..|row| - 1]) + Occupancy(row[|row| - 1])
  }

  /** The number of pieces on a board. */
  function Pieces(b: Board): nat
  {
    if b == [] then 0 else Pieces(b[..|b| - 1]) + RowPieces(b[|b| - 1])
  }

  /** Writing one square of a row changes its piece count by what was removed and what was put there. */
  lemma {:induction false} RowPiecesUpdate(row: seq<Option<Piece>>, i: int, x: Option<Piece>)
    requires 0 <= i < |row|
    ensures RowPieces(row[i := x]) == RowPieces(row) - Occupancy(row[i]) + Occupancy(x)
  {
    var n := |row| - 1;
    if i < n {
      assert row[i := x][..n] == row[..n][i := x];
      RowPiecesUpdate(row[..n], i, x);
    } else {
      assert row[i := x][..n] == row[..n];
    }
  }

  /** Writing one square of a board changes its piece count the same way. */
  lemma {:induction false} PiecesPlace(b: Board, sq: Square, x: Option<Piece>)
    requires WellFormed(b) && OnBoard(sq)
    ensures Pieces(Place(b, sq, x)) == Pieces(b) - Occupancy(At(b, sq)) + Occupancy(x)
  {
    PiecesUpdate(b, sq.0, b[sq.0][sq.1 := x]);
    RowPiecesUpdate(b[sq.0], sq.1, x);
  }

  /** Replacing one row of a board changes its piece count by the difference of the two rows' counts. */
  lemma {:induction false} PiecesUpdate(b: Board, i: int, row: seq<Option<Piece>>)
    requires 0 <= i < |b|
    ensures Pieces(b[i := row]) == Pieces(b) - RowPieces(b[i]) + RowPieces(row)
  {
    var n := |b| - 1;
    if i < n {
      assert b[i := row][..n] == b[..n][i := row];
      PiecesUpdate(b[..n], i, row);
    } else {
      assert b[i := row][..n] == b[..n];
    }
  }

  /**
   * A move of a piece to another square removes exactly one piece from the
   * board when the destination was occupied (a capture) and none otherwise.
   */
  lemma MovedBoardPieces(b: Board, from: Square, to: Square)
    requires WellFormed(b) && OnBoard(from) && OnBoard(to)
    requires from != to && At(b, from).Some?
    ensures Pieces(MovedBoard(b, from, to)) == Pieces(b) - Occupancy(At(b, to))
  {
    var once := Place(b, to, At(b, from));
    PiecesPlace(b, to, At(b, from));
    PiecesPlace(once, from, None);
    MovedBoardSquares(b, from, to);
    assert At(once, from) == At(b, from) by {
      if from.0 == to.0 {
        assert from.1 != to.1;
      }
    }
  }

  /** The state cells of the top-level component that handleMove reads or writes. */
  class App {
    /** The game status shown by the overlay. */
    var status: GameStatus
    /** The current match, if any. */
    var chessMatch: Option<ChessMatch>

    /** The current match's board is eight rows of eight squares. */
    predicate Valid()
      reads this
    {
      chessMatch.Some? ==> WellFormed(chessMatch.value.board)
    }

    /** The state before logging in: in the lobby, no match. */
    constructor ()
      ensures Valid()
      ensures status == Lobby && chessMatch == None
    {
      status := Lobby;
      chessMatch := None;
    }

    /**
     * handleMove: with no match, nothing happens. Otherwise the board is
     * copied, the piece on `from` is written to `to` and `from` is cleared;
     * the turn passes to the other colour; and the game is over exactly when
     * the destination held a king of either colour (the status is otherwise
     * left as it was).
     */
    method HandleMove(from: Square, to: Square)
      requires Valid()
      requires chessMatch.Some? ==> OnBoard(from) && OnBoard(to)
      modifies this
      ensures Valid()
      ensures old(chessMatch).None? ==> chessMatch == old(chessMatch) && status == old(status)
      ensures old(chessMatch).Some? ==>
                var m := old(chessMatch).value;
                && chessMatch == Some(m.(board := MovedBoard(m.board, from, to), turn := Opponent(m.turn)))
                && status == (if HoldsKing(At(m.board, to)) then GameOver else old(status))
    {
      if chessMatch.None? {
        return;
      }
      var m: ChessMatch := chessMatch.value;
      var newBoard: Board := m.board;
      var piece: Option<Piece> := newBoard[from.0][from.1];
      var target: Option<Piece> := newBoard[to.0][to.1];
      if target.Some? && target.value.kind == King {
        status := GameOver;
      }
      newBoard := newBoard[to.0 := newBoard[to.0][to.1 := piece]];
      newBoard := newBoard[from.0 := newBoard[from.0][from.1 := None]];
      var nextTurn := if m.turn == White then Black else White;
      chessMatch := Some(m.(board := newBoard, turn := nextTurn));
    }
  }
}
