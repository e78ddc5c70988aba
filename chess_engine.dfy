// Pseudo-legal move generation and fog-of-war visibility
// (services/chessEngine.ts).
//
// The specification functions (Target, Steps, Ray, Slides, Captures,
// PawnMoves, Moves) define the exact list getPossibleMoves builds, in its
// order; GetPossibleMoves and CalculateVisibility are the imperative
// procedures, proved against them. The per-piece rules are stated as lemmas
// in chess_rules.dfy.

module ChessEngine {
  import opened ChessTypes

  /** Pawns of White move towards row 0, pawns of Black towards row 7. */
  function Forward(color: Color): int
  {
    if color == White then -1 else 1
  }

  /** The row from which a pawn of `color` may advance two squares. */
  predicate OnStartRank(color: Color, row: int)
  {
    (color == White && row == 6) || (color == Black && row == 1)
  }

  const KnightOffsets: seq<Offset> :=
    [(-2, -1), (-2, 1), (-1, -2), (-1, 2), (1, -2), (1, 2), (2, -1), (2, 1)]

  const KingOffsets: seq<Offset> :=
    [(-1, -1), (-1, 0), (-1, 1), (0, -1), (0, 1), (1, -1), (1, 0), (1, 1)]

  const RookDirections: seq<Offset> := [(0, 1), (0, -1), (1, 0), (-1, 0)]

  const BishopDirections: seq<Offset> := [(1, 1), (1, -1), (-1, 1), (-1, -1)]

  const QueenDirections: seq<Offset> :=
    [(0, 1), (0, -1), (1, 0), (-1, 0), (1, 1), (1, -1), (-1, 1), (-1, -1)]

  /** Column deltas of the two diagonal pawn captures, in the order tried. */
  const CaptureColumns: seq<int> := [-1, 1]

  /** The direction table of a sliding piece; anything other than a rook or a bishop slides like a queen. */
  function Directions(kind: PieceType): seq<Offset>
  {
    if kind == Rook then RookDirections
    else if kind == Bishop then BishopDirections
    else QueenDirections
  }

  /** One of the eight unit steps. */
  predicate IsDirection(d: Offset)
  {
    -1 <= d.0 <= 1 && -1 <= d.1 <= 1 && d != (0, 0)
  }

  predicate AllDirections(dirs: seq<Offset>)
  {
    forall i :: 0 <= i < |dirs| ==> IsDirection(dirs[i])
  }

  function Shift(sq: Square, d: Offset): Square
  {
    (sq.0 + d.0, sq.1 + d.1)
  }

  /** What addIfOnBoard pushes: an on-board square that no friendly piece occupies. */
  function Target(b: Board, mover: Color, sq: Square): seq<Square>
    requires WellFormed(b)
  {
    if OnBoard(sq) && !Owns(b, mover, sq) then [sq] else []
  }

  /** Knight and king moves: addIfOnBoard applied to each offset of the table, in order. */
  function Steps(b: Board, mover: Color, src: Square, offsets: seq<Offset>): (s: seq<Square>)
    requires WellFormed(b)
  {
    if offsets == [] then []
    else
      Steps(b, mover, src, offsets[..|offsets| - 1])
        + Target(b, mover, Shift(src, offsets[|offsets| - 1]))
  }

  /** Distance to the edge in direction `d`; it bounds the length of a slide. */
  function RayMeasure(sq: Square, d: Offset): int
  {
    (if d.0 > 0 then 8 - sq.0 else if d.0 < 0 then sq.0 + 1 else 0)
      + (if d.1 > 0 then 8 - sq.1 else if d.1 < 0 then sq.1 + 1 else 0)
  }

  /**
   * The squares a slider adds in direction `d`, starting at `at`: what
   * addIfOnBoard adds there and, when it reports an empty square, the rest of
   * the slide beyond it.
   */
  function Ray(b: Board, mover: Color, at: Square, d: Offset): (ray: seq<Square>)
    requires WellFormed(b) && IsDirection(d)
    decreases RayMeasure(at, d)
  {
    Target(b, mover, at) + (if IsEmpty(b, at) then Ray(b, mover, Shift(at, d), d) else [])
  }

  /** Rook, bishop and queen moves: one slide per direction of the table, in order. */
  function Slides(b: Board, mover: Color, src: Square, dirs: seq<Offset>): (s: seq<Square>)
    requires WellFormed(b) && AllDirections(dirs)
  {
    if dirs == [] then []
    else
      var d := dirs[|dirs| - 1];
      Slides(b, mover, src, dirs[..|dirs| - 1]) + Ray(b, mover, Shift(src, d), d)
  }

  /** A pawn's diagonal: added only when an enemy piece stands there. */
  function CaptureAt(b: Board, mover: Color, sq: Square): seq<Square>
    requires WellFormed(b)
  {
    if IsEnemy(b, mover, sq) then [sq] else []
  }

  /** The pawn captures onto row `row`, one per column delta, in order. */
  function Captures(b: Board, mover: Color, row: int, col: int, columns: seq<int>): (s: seq<Square>)
    requires WellFormed(b)
  {
    if columns == [] then []
    else
      Captures(b, mover, row, col, columns[..|columns| - 1])
        + CaptureAt(b, mover, (row, col + columns[|columns| - 1]))
  }

  /** A row of eight copies of `square` (Array(8).fill). */
  function Rank(square: Option<Piece>): seq<Option<Piece>>
  {
    [square, square, square, square, square, square, square, square]
  }

  /** Rook, knight, bishop, queen, king, bishop, knight, rook. */
  function BackRank(color: Color): seq<Option<Piece>>
  {
    [Some(Piece(Rook, color)), Some(Piece(Knight, color)), Some(Piece(Bishop, color)), Some(Piece(Queen, color)),
     Some(Piece(King, color)), Some(Piece(Bishop, color)), Some(Piece(Knight, color)), Some(Piece(Rook, color))]
  }

  /** INITIAL_BOARD: Black on rows 0 and 1, White on rows 6 and 7. */
  function InitialBoard(): (b: Board)
    ensures WellFormed(b)
  {
    [BackRank(Black), Rank(Some(Piece(Pawn, Black))),
     Rank(None), Rank(None), Rank(None), Rank(None),
     Rank(Some(Piece(Pawn, White))), BackRank(White)]
  }

  /** A pawn's single push onto an empty square, then its double push from the start rank. */
  function Pushes(b: Board, mover: Color, src: Square): seq<Square>
    requires WellFormed(b) && OnBoard(src)
  {
    var dir := Forward(mover);
    var ahead := (src.0 + dir, src.1);
    var twoAhead := (src.0 + 2 * dir, src.1);
    if 0 <= ahead.0 < 8 && At(b, ahead).None? then
      [ahead] + (if OnStartRank(mover, src.0) && At(b, twoAhead).None? then [twoAhead] else [])
    else []
  }

  /** The pushes, then the two diagonal captures. */
  function PawnMoves(b: Board, mover: Color, src: Square): seq<Square>
    requires WellFormed(b) && OnBoard(src)
  {
    Pushes(b, mover, src) + Captures(b, mover, src.0 + Forward(mover), src.1, CaptureColumns)
  }

  /**
   * The list getPossibleMoves returns for the piece on `src`, in its order:
   * empty for an empty square, and never a square off the board or one that
   * holds a piece of the mover's colour.
   */
  function Moves(b: Board, src: Square): (moves: seq<Square>)
    requires WellFormed(b) && OnBoard(src)
  {
    match At(b, src)
    case None => []
    case Some(p) =>
      match p.kind
      case Pawn => PawnMoves(b, p.color, src)
      case Knight => Steps(b, p.color, src, KnightOffsets)
      case King => Steps(b, p.color, src, KingOffsets)
      case Rook | Bishop | Queen => Slides(b, p.color, src, Directions(p.kind))
  }

  /**
   * addIfOnBoard: append `sq` when it is on the board and not friendly, and
   * report whether a slide may continue past it (it was empty).
   */
  method AddIfOnBoard(board: Board, mover: Color, sq: Square, moves: seq<Square>)
    returns (grown: seq<Square>, keepGoing: bool)
    requires WellFormed(board)
    ensures grown == moves + Target(board, mover, sq)
    ensures keepGoing <==> IsEmpty(board, sq)
  {
    grown, keepGoing := moves, false;
    if 0 <= sq.0 < 8 && 0 <= sq.1 < 8 {
      var target := board[sq.0][sq.1];
      if target.None? || target.value.color != mover {
        grown := moves + [sq];
        keepGoing := target.None?;
      }
    }
  }

  /** The forEach over a knight's or a king's offset table. */
  method AddEachOffset(board: Board, mover: Color, src: Square, offsets: seq<Offset>, moves: seq<Square>)
    returns (grown: seq<Square>)
    requires WellFormed(board)
    ensures grown == moves + Steps(board, mover, src, offsets)
  {
    grown := moves;
    for i := 0 to |offsets|
      invariant grown == moves + Steps(board, mover, src, offsets[..i])
    {
      var onward;
      grown, onward := AddIfOnBoard(board, mover, (src.0 + offsets[i].0, src.1 + offsets[i].1), grown);
      assert offsets[..i + 1][..i] == offsets[..i];
    }
    assert offsets[..|offsets|] == offsets;
  }

  /** The pawn case of getPossibleMoves: pushes, then captures. */
  method AddPawnMoves(board: Board, mover: Color, src: Square, moves: seq<Square>)
    returns (grown: seq<Square>)
    requires WellFormed(board) && OnBoard(src)
    ensures grown == moves + PawnMoves(board, mover, src)
  {
    var r, c := src.0, src.1;
    var dir := if mover == White then -1 else 1;
    grown := moves;
    if 0 <= r + dir < 8 && board[r + dir][c].None? {
      grown := grown + [(r + dir, c)];
      if (mover == White && r == 6) || (mover == Black && r == 1) {
        if board[r + 2 * dir][c].None? {
          grown := grown + [(r + 2 * dir, c)];
        }
      }
    }
    assert grown == moves + Pushes(board, mover, src);
    grown := AddCaptures(board, mover, r + dir, c, grown);
  }

  /** One diagonal of the pawn's forEach: push the square when it is on the board and holds an enemy piece. */
  method AddCaptureAt(board: Board, mover: Color, sq: Square, moves: seq<Square>) returns (grown: seq<Square>)
    requires WellFormed(board)
    ensures grown == moves + CaptureAt(board, mover, sq)
  {
    grown := moves;
    var (tr, tc) := sq;
    if 0 <= tr < 8 && 0 <= tc < 8 {
      var target := board[tr][tc];
      if target.Some? && target.value.color != mover {
        grown := grown + [(tr, tc)];
      }
    }
  }

  /** Taking one more column delta appends its capture, if any. */
  lemma CapturesExtend(b: Board, mover: Color, row: int, c: int, columns: seq<int>, i: int)
    requires WellFormed(b) && 0 <= i < |columns|
    ensures Captures(b, mover, row, c, columns[..i + 1])
            == Captures(b, mover, row, c, columns[..i]) + CaptureAt(b, mover, (row, c + columns[i]))
  {
    assert columns[..i + 1][..i] == columns[..i];
  }

  /** The forEach over the two capture columns of a pawn that moves onto row `row`. */
  method AddCaptures(board: Board, mover: Color, row: int, c: int, moves: seq<Square>)
    returns (grown: seq<Square>)
    requires WellFormed(board)
    ensures grown == moves + Captures(board, mover, row, c, CaptureColumns)
  {
    grown := moves;
    for i := 0 to |CaptureColumns|
      invariant grown == moves + Captures(board, mover, row, c, CaptureColumns[..i])
    {
      CapturesExtend(board, mover, row, c, CaptureColumns, i);
      var capture := (row, c + CaptureColumns[i]);
      Associative(moves, Captures(board, mover, row, c, CaptureColumns[..i]), CaptureAt(board, mover, capture));
      grown := AddCaptureAt(board, mover, capture, grown);
    }
    assert CaptureColumns[..|CaptureColumns|] == CaptureColumns;
  }

  /** Concatenation regroups freely. */
  lemma Associative<T>(a: seq<T>, b: seq<T>, c: seq<T>)
    ensures (a + b) + c == a + (b + c)
  {
  }

  /** One loop turn of a slide: the square's own target is appended, then the rest of the ray when the square was empty. */
  lemma SlideStep(b: Board, mover: Color, at: Square, d: Offset, before: seq<Square>, more: bool)
    requires WellFormed(b) && IsDirection(d) && more == IsEmpty(b, at)
    ensures before + Ray(b, mover, at, d)
            == (before + Target(b, mover, at)) + (if more then Ray(b, mover, Shift(at, d), d) else [])
  {
    Associative(before, Target(b, mover, at), if more then Ray(b, mover, Shift(at, d), d) else []);
  }

  /** The while loop that walks one direction from `src`, pushing squares until addIfOnBoard says to stop. */
  method AddSlide(board: Board, mover: Color, src: Square, d: Offset, moves: seq<Square>)
    returns (grown: seq<Square>)
    requires WellFormed(board) && IsDirection(d)
    ensures grown == moves + Ray(board, mover, Shift(src, d), d)
  {
    var at := Shift(src, d);
    var more;
    SlideStep(board, mover, at, d, moves, IsEmpty(board, at));
    grown, more := AddIfOnBoard(board, mover, at, moves);
    while more
      invariant more ==> IsEmpty(board, at)
      invariant more ==> grown + Ray(board, mover, Shift(at, d), d) == moves + Ray(board, mover, Shift(src, d), d)
      invariant !more ==> grown == moves + Ray(board, mover, Shift(src, d), d)
      decreases RayMeasure(at, d)
    {
      at := Shift(at, d);
      SlideStep(board, mover, at, d, grown, IsEmpty(board, at));
      grown, more := AddIfOnBoard(board, mover, at, grown);
    }
  }

  /** Taking one more direction of the table appends that direction's slide. */
  lemma SlidesExtend(b: Board, mover: Color, src: Square, dirs: seq<Offset>, i: int)
    requires WellFormed(b) && AllDirections(dirs) && 0 <= i < |dirs|
    ensures AllDirections(dirs[..i]) && AllDirections(dirs[..i + 1])
    ensures Slides(b, mover, src, dirs[..i + 1])
            == Slides(b, mover, src, dirs[..i]) + Ray(b, mover, Shift(src, dirs[i]), dirs[i])
  {
    assert dirs[..i + 1][..i] == dirs[..i];
  }

  /** The forEach over a slider's direction table. */
  method AddSlides(board: Board, mover: Color, src: Square, directions: seq<Offset>, moves: seq<Square>)
    returns (grown: seq<Square>)
    requires WellFormed(board) && AllDirections(directions)
    ensures grown == moves + Slides(board, mover, src, directions)
  {
    grown := moves;
    for i := 0 to |directions|
      invariant grown == moves + Slides(board, mover, src, directions[..i])
    {
      SlidesExtend(board, mover, src, directions, i);
      Associative(moves, Slides(board, mover, src, directions[..i]),
                  Ray(board, mover, Shift(src, directions[i]), directions[i]));
      grown := AddSlide(board, mover, src, directions[i], grown);
    }
    assert directions[..|directions|] == directions;
  }

  /** getPossibleMoves(r, c, board). */
  method GetPossibleMoves(r: int, c: int, board: Board) returns (moves: seq<Square>)
    requires WellFormed(board) && OnBoard((r, c))
    ensures moves == Moves(board, (r, c))
  {
    var piece := board[r][c];
    if piece.None? {
      return [];
    }
    var p := piece.value;
    moves := [];
    match p.kind {
      case Pawn =>
        moves := AddPawnMoves(board, p.color, (r, c), moves);
      case Knight =>
        moves := AddEachOffset(board, p.color, (r, c), KnightOffsets, moves);
      case Rook | Bishop | Queen =>
        var directions :=
          if p.kind == Rook then RookDirections
          else if p.kind == Bishop then BishopDirections
          else QueenDirections;
        moves := AddSlides(board, p.color, (r, c), directions, moves);
      case King =>
        moves := AddEachOffset(board, p.color, (r, c), KingOffsets, moves);
    }
  }

  /**
   * Fog of war: `color` sees the squares of its own pieces and every square
   * one of its pieces can move to.
   */
  predicate Visible(b: Board, color: Color, sq: Square)
    requires WellFormed(b)
  {
    exists fr, fc | 0 <= fr < 8 && 0 <= fc < 8 ::
      Owns(b, color, (fr, fc)) && (sq == (fr, fc) || sq in Moves(b, (fr, fc)))
  }

  /** The part of Visible contributed by the squares scanned before (r, c) in row-major order. */
  ghost predicate SeenBefore(b: Board, color: Color, sq: Square, r: int, c: int)
    requires WellFormed(b)
  {
    exists fr, fc | 0 <= fr < 8 && 0 <= fc < 8 && (fr < r || (fr == r && fc < c)) ::
      Owns(b, color, (fr, fc)) && (sq == (fr, fc) || sq in Moves(b, (fr, fc)))
  }

  /** Scanning square (r, c) adds its own contribution and nothing else. */
  lemma SeenStep(b: Board, color: Color, r: int, c: int)
    requires WellFormed(b) && OnBoard((r, c))
    ensures forall sq :: SeenBefore(b, color, sq, r, c + 1) <==>
              SeenBefore(b, color, sq, r, c)
              || (Owns(b, color, (r, c)) && (sq == (r, c) || sq in Moves(b, (r, c))))
  {
    forall sq
      ensures SeenBefore(b, color, sq, r, c + 1) ==>
                SeenBefore(b, color, sq, r, c)
                || (Owns(b, color, (r, c)) && (sq == (r, c) || sq in Moves(b, (r, c))))
    {
      if SeenBefore(b, color, sq, r, c + 1) {
        var fr, fc :| 0 <= fr < 8 && 0 <= fc < 8 && (fr < r || (fr == r && fc < c + 1))
          && Owns(b, color, (fr, fc)) && (sq == (fr, fc) || sq in Moves(b, (fr, fc)));
        if fr < r || fc < c {
          assert SeenBefore(b, color, sq, r, c);
        }
      }
    }
  }

  /** The forEach that adds every generated move to the visible set. */
  method AddAll(visible: set<Square>, moves: seq<Square>) returns (grown: set<Square>)
    ensures forall sq :: sq in grown <==> sq in visible || sq in moves
  {
    grown := visible;
    for i := 0 to |moves|
      invariant forall sq :: sq in grown <==> sq in visible || sq in moves[..i]
    {
      assert moves[..i + 1] == moves[..i] + [moves[i]];
      grown := grown + {moves[i]};
    }
    assert moves[..|moves|] == moves;
  }

  /** calculateVisibility(color, board): the row-major scan of the board. */
  method CalculateVisibility(color: Color, board: Board) returns (visible: set<Square>)
    requires WellFormed(board)
    ensures forall sq :: sq in visible <==> Visible(board, color, sq)
  {
    visible := {};
    for r := 0 to 8
      invariant forall sq :: sq in visible <==> SeenBefore(board, color, sq, r, 0)
    {
      for c := 0 to 8
        invariant forall sq :: sq in visible <==> SeenBefore(board, color, sq, r, c)
      {
        SeenStep(board, color, r, c);
        var piece := board[r][c];
        if piece.Some? && piece.value.color == color {
          visible := visible + {(r, c)};
          var moves := GetPossibleMoves(r, c, board);
          visible := AddAll(visible, moves);
        }
      }
      forall sq ensures SeenBefore(board, color, sq, r, 8) ==> SeenBefore(board, color, sq, r + 1, 0) {
        if SeenBefore(board, color, sq, r, 8) {
          var fr, fc :| 0 <= fr < 8 && 0 <= fc < 8 && (fr < r || (fr == r && fc < 8))
            && Owns(board, color, (fr, fc)) && (sq == (fr, fc) || sq in Moves(board, (fr, fc)));
          assert fr < r + 1;
        }
      }
    }
    forall sq ensures SeenBefore(board, color, sq, 8, 0) ==> Visible(board, color, sq) {
      if SeenBefore(board, color, sq, 8, 0) {
        var fr, fc :| 0 <= fr < 8 && 0 <= fc < 8 && (fr < 8 || (fr == 8 && fc < 0))
          && Owns(board, color, (fr, fc)) && (sq == (fr, fc) || sq in Moves(board, (fr, fc)));
        assert Owns(board, color, (fr, fc)) && (sq == (fr, fc) || sq in Moves(board, (fr, fc)));
      }
    }
  }
}
