// The board component (components/ChessBoard.tsx): the selection cell and
// its click handler, the possible-moves memo, and the fog-of-war filter
// that decides which pieces are drawn.

module ChessBoardView {
  import opened ChessTypes
  import opened ChessEngine
  import opened ChessRules

  /**
   * The render filter: what each square shows. A piece is drawn only on a
   * square the user's colour can see; the user's own pieces are always
   * drawn; an enemy piece is drawn exactly when one of the user's pieces can
   * move onto its square; a square that shows nothing stays blank.
   */
  method RenderedPieces(board: Board, userColor: Color) returns (drawn: Board)
    requires WellFormed(board)
    ensures WellFormed(drawn)
    ensures forall r, c | 0 <= r < 8 && 0 <= c < 8 ::
              drawn[r][c] == (if Visible(board, userColor, (r, c)) then board[r][c] else None)
    ensures forall r, c | 0 <= r < 8 && 0 <= c < 8 && Owns(board, userColor, (r, c)) ::
              drawn[r][c] == board[r][c]
    ensures forall r, c | 0 <= r < 8 && 0 <= c < 8 && IsEnemy(board, userColor, (r, c)) ::
              drawn[r][c].Some? <==>
                exists fr, fc | 0 <= fr < 8 && 0 <= fc < 8 ::
                  Owns(board, userColor, (fr, fc)) && (r, c) in Moves(board, (fr, fc))
  {
    var visibility := CalculateVisibility(userColor, board);
    drawn := seq(8, r requires 0 <= r < 8 =>
                 seq(8, c requires 0 <= c < 8 => if (r, c) in visibility then board[r][c] else None));
    forall r, c | 0 <= r < 8 && 0 <= c < 8
      ensures Owns(board, userColor, (r, c)) ==> Visible(board, userColor, (r, c))
      ensures !Owns(board, userColor, (r, c)) ==>
                (Visible(board, userColor, (r, c)) <==>
                   exists fr, fc | 0 <= fr < 8 && 0 <= fc < 8 ::
                     Owns(board, userColor, (fr, fc)) && (r, c) in Moves(board, (fr, fc)))
    {
      VisibilityRule(board, userColor, (r, c));
    }
  }

  /** The component's selection cell. */
  class ChessBoard {
    /** The selected square, if any. */
    var selected: Option<Square>

    /** A selection is always a square of the board (it comes from a click on one). */
    predicate Valid()
      reads this
    {
      selected.Some? ==> OnBoard(selected.value)
    }

    /** The component starts with nothing selected. */
    constructor ()
      ensures Valid() && selected == None
    {
      selected := None;
    }

    /**
     * The possible-moves memo: nothing when no square is selected, otherwise
     * getPossibleMoves of the selected square; every square in it is on the
     * board and differs from the selection.
     */
    function PossibleMoves(board: Board): (moves: seq<Square>)
      reads this
      requires Valid() && WellFormed(board)
      ensures selected.None? ==> moves == []
      ensures selected.Some? ==> forall sq :: sq in moves ==> OnBoard(sq) && sq != selected.value
    {
      if selected.None? then []
      else
        MovesSound(board, selected.value);
        Moves(board, selected.value)
    }

    /**
     * handleSquareClick. Outside the user's turn in a game in progress the
     * click is ignored. With a selection, a click on one of its possible
     * moves issues that move (the `onMove` call, returned here) and clears
     * the selection. Any other click selects the clicked square when it holds
     * one of the user's pieces and clears the selection otherwise.
     */
    method HandleSquareClick(board: Board, turn: Color, userColor: Color, status: GameStatus, r: int, c: int)
      returns (issued: Option<(Square, Square)>)
      requires Valid() && WellFormed(board) && OnBoard((r, c))
      modifies this
      ensures Valid()
      ensures !(status == Playing && turn == userColor) ==> issued == None && selected == old(selected)
      ensures status == Playing && turn == userColor && old(selected).Some?
                && (r, c) in Moves(board, old(selected).value) ==>
                issued == Some((old(selected).value, (r, c))) && selected == None
      ensures status == Playing && turn == userColor
                && !(old(selected).Some? && (r, c) in Moves(board, old(selected).value)) ==>
                issued == None && selected == (if Owns(board, userColor, (r, c)) then Some((r, c)) else None)
      ensures issued.Some? ==>
                var (from, to) := issued.value;
                && OnBoard(from) && to in Moves(board, from)
                && At(board, from).Some? && OnBoard(to) && to != from
                && !Owns(board, At(board, from).value.color, to)
      ensures selected != old(selected) && selected.Some? ==> Owns(board, userColor, selected.value)
    {
      if status != Playing || turn != userColor {
        return None;
      }
      if selected.Some? {
        var possibleMoves := PossibleMoves(board);
        if (r, c) in possibleMoves {
          var from := selected.value;
          MovesSound(board, from);
          selected := None;
          return Some((from, (r, c)));
        }
      }
      var piece := board[r][c];
      if piece.Some? && piece.value.color == userColor {
        selected := Some((r, c));
      } else {
        selected := None;
      }
      return None;
    }
  }
}
