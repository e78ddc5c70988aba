// Shared vocabulary of the fog-of-war chess game: pieces, colours, the
// 8x8 board, squares and the game status (types.ts).

module ChessTypes {

  datatype Option<+T> = None | Some(value: T)

  /** 'w' and 'b'. */
  datatype Color = White | Black

  /** 'p', 'n', 'b', 'r', 'q', 'k'. */
  datatype PieceType = Pawn | Knight | Bishop | Rook | Queen | King

  datatype Piece = Piece(kind: PieceType, color: Color)

  /** A board is a sequence of rows; row 0 is black's back rank. */
  type Board = seq<seq<Option<Piece>>>

  /** A square as (row, column); the source's "r,c" string key encodes this pair. */
  type Square = (int, int)

  /** A step on the board as (row delta, column delta). */
  type Offset = (int, int)

  datatype GameStatus = Lobby | Matchmaking | Playing | GameOver

  /** The parts of a match that the move logic reads or writes. */
  datatype ChessMatch = ChessMatch(id: string, board: Board, turn: Color, history: seq<string>)

  /** Eight rows of eight squares. */
  predicate WellFormed(b: Board)
  {
    |b| == 8 && forall i :: 0 <= i < 8 ==> |b[i]| == 8
  }

  predicate OnBoard(sq: Square)
  {
    0 <= sq.0 < 8 && 0 <= sq.1 < 8
  }

  /** The piece on a square of a well-formed board. */
  function At(b: Board, sq: Square): Option<Piece>
    requires WellFormed(b) && OnBoard(sq)
  {
    b[sq.0][sq.1]
  }

  /** An on-board square that holds nothing. */
  predicate IsEmpty(b: Board, sq: Square)
    requires WellFormed(b)
  {
    OnBoard(sq) && At(b, sq).None?
  }

  /** An on-board square that holds a piece of `color`. */
  predicate Owns(b: Board, color: Color, sq: Square)
    requires WellFormed(b)
  {
    OnBoard(sq) && At(b, sq).Some? && At(b, sq).value.color == color
  }

  /** An on-board square that holds a piece of the other colour. */
  predicate IsEnemy(b: Board, color: Color, sq: Square)
    requires WellFormed(b)
  {
    OnBoard(sq) && At(b, sq).Some? && At(b, sq).value.color != color
  }

  function Opponent(c: Color): Color
  {
    if c == White then Black else White
  }
}
