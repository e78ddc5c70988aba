// The starting position INITIAL_BOARD (services/chessEngine.ts) and the
// concrete behaviour of the move generator and the fog of war on it and on
// two small positions with a lone rook.

module InitialPosition {
  import opened ChessTypes
  import opened ChessEngine
  import opened ChessRules

  /** The order of the pieces on both back ranks, from column 0 to column 7. */
  const HomeRow: seq<PieceType> := [Rook, Knight, Bishop, Queen, King, Bishop, Knight, Rook]

  /**
   * The layout of the starting position: black's pieces on row 0 and its
   * pawns on row 1, rows 2 to 5 empty, white's pawns on row 6 and its pieces
   * on row 7, both back ranks in the same order.
   */
  lemma InitialLayout(sq: Square)
    requires OnBoard(sq)
    ensures var at := At(InitialBoard(), sq);
      && (sq.0 == 0 ==> at == Some(Piece(HomeRow[sq.1], Black)))
      && (sq.0 == 1 ==> at == Some(Piece(Pawn, Black)))
      && (2 <= sq.0 <= 5 ==> at == None)
      && (sq.0 == 6 ==> at == Some(Piece(Pawn, White)))
      && (sq.0 == 7 ==> at == Some(Piece(HomeRow[sq.1], White)))
  {
    var b := InitialBoard();
    assert b[0] == BackRank(Black) && b[7] == BackRank(White);
    assert b[sq.0][sq.1] == At(b, sq);
  }

  /** The two sides start as mirror images of each other across the middle of the board. */
  lemma InitialMirror(sq: Square)
    requires OnBoard(sq)
    ensures var mirror := (7 - sq.0, sq.1);
      && At(InitialBoard(), sq).Some? == At(InitialBoard(), mirror).Some?
      && (At(InitialBoard(), sq).Some? ==>
            At(InitialBoard(), mirror).value == Piece(At(InitialBoard(), sq).value.kind,
                                                      Opponent(At(InitialBoard(), sq).value.color)))
  {
    InitialLayout(sq);
    InitialLayout((7 - sq.0, sq.1));
  }

  /** White's knight on (7, 1) can go to (5, 0) and (5, 2) and nowhere else. */
  lemma InitialKnightMoves()
    ensures Moves(InitialBoard(), (7, 1)) == [(5, 0), (5, 2)]
  {
    var b := InitialBoard();
    var m := Piece(Knight, White).color;
    assert At(b, (7, 1)) == Some(Piece(Knight, White));
    var o := KnightOffsets;
    assert o[..8][..7] == o[..7] && o[..7][..6] == o[..6] && o[..6][..5] == o[..5];
    assert o[..5][..4] == o[..4] && o[..4][..3] == o[..3] && o[..3][..2] == o[..2];
    assert o[..2][..1] == o[..1] && o[..1][..0] == [];
    assert Steps(b, m, (7, 1), o[..1]) == [(5, 0)];
    assert Steps(b, m, (7, 1), o[..2]) == [(5, 0), (5, 2)];
    assert Steps(b, m, (7, 1), o[..3]) == [(5, 0), (5, 2)];
    assert Steps(b, m, (7, 1), o[..4]) == [(5, 0), (5, 2)];
    assert Steps(b, m, (7, 1), o[..5]) == [(5, 0), (5, 2)];
    assert Steps(b, m, (7, 1), o[..6]) == [(5, 0), (5, 2)];
    assert Steps(b, m, (7, 1), o[..7]) == [(5, 0), (5, 2)];
    assert o[..8] == o;
  }

  /** White's pawns start with a single and a double push and nothing to capture. */
  lemma InitialPawnMoves(c: int)
    requires 0 <= c < 8
    ensures Moves(InitialBoard(), (6, c)) == [(5, c), (4, c)]
  {
    var b := InitialBoard();
    InitialLayout((6, c));
    InitialLayout((5, c));
    InitialLayout((4, c));
    assert Pushes(b, White, (6, c)) == [(5, c), (4, c)];
    assert CaptureColumns[..1] == [-1] && [-1][..0] == [];
    if c > 0 {
      InitialLayout((5, c - 1));
    }
    if c < 7 {
      InitialLayout((5, c + 1));
    }
    assert Captures(b, White, 5, c, [-1]) == [];
    assert Captures(b, White, 5, c, CaptureColumns) == [];
  }

  /**
   * At the start White sees exactly its own half of the board, rows 4 to 7:
   * its own pieces and the squares its pawns can push to. No black piece is
   * visible.
   */
  lemma InitialWhiteView(sq: Square)
    ensures Visible(InitialBoard(), White, sq) <==> OnBoard(sq) && 4 <= sq.0
  {
    if OnBoard(sq) && 4 <= sq.0 {
      WhiteSeesHome(sq);
    }
    if Visible(InitialBoard(), White, sq) {
      WhiteSeesOnlyHome(sq);
    }
  }

  /** At the start White sees rows 6 and 7 through its own pieces, and rows 4 and 5 through its pawns' pushes. */
  lemma WhiteSeesHome(sq: Square)
    requires OnBoard(sq) && 4 <= sq.0
    ensures Visible(InitialBoard(), White, sq)
  {
    var b := InitialBoard();
    if sq.0 >= 6 {
      InitialLayout(sq);
      VisibilityRule(b, White, sq);
    } else {
      InitialLayout((6, sq.1));
      InitialPawnMoves(sq.1);
      assert sq in Moves(b, (6, sq.1));
    }
  }

  /** At the start nothing White sees lies beyond row 4. */
  lemma WhiteSeesOnlyHome(sq: Square)
    requires Visible(InitialBoard(), White, sq)
    ensures OnBoard(sq) && 4 <= sq.0
  {
    var b := InitialBoard();
    var fr, fc :| 0 <= fr < 8 && 0 <= fc < 8 && Owns(b, White, (fr, fc))
      && (sq == (fr, fc) || sq in Moves(b, (fr, fc)));
    VisibilityRule(b, White, sq);
    InitialLayout((fr, fc));
    if sq != (fr, fc) {
      WhiteMovesStayHome(fr, fc, sq);
    }
  }

  /** Every move of a white piece in the starting position lands on rows 4 to 7. */
  lemma WhiteMovesStayHome(fr: int, fc: int, sq: Square)
    requires 0 <= fr < 8 && 0 <= fc < 8 && Owns(InitialBoard(), White, (fr, fc))
    requires sq in Moves(InitialBoard(), (fr, fc))
    ensures 4 <= sq.0
  {
    var b := InitialBoard();
    var src := (fr, fc);
    InitialLayout(src);
    var p := At(b, src).value;
    if p.kind == Pawn {
      InitialPawnMoves(fc);
    } else if p.kind == Knight {
      KnightRule(b, src, sq);
    } else if p.kind == King {
      KingRule(b, src, sq);
    } else {
      WhiteSliderStaysHome(fc, sq);
    }
  }

  /** A white rook, bishop or queen cannot leave its back rank at the start: every neighbour is occupied or off the board. */
  lemma WhiteSliderStaysHome(fc: int, sq: Square)
    requires 0 <= fc < 8 && At(InitialBoard(), (7, fc)).Some?
    requires At(InitialBoard(), (7, fc)).value.kind in {Rook, Bishop, Queen}
    requires sq in Moves(InitialBoard(), (7, fc))
    ensures 6 <= sq.0
  {
    var b := InitialBoard();
    var src := (7, fc);
    var p := At(b, src).value;
    SliderRule(b, src, sq);
    var d, k :| d in Directions(p.kind) && SlideReaches(b, p.color, src, d, k) && sq == Along(src, d, k);
    assert IsDirection(d);
    BackRankNeighbour(fc, d);
    SlideBlocked(b, p.color, src, d, k);
  }

  /** Every neighbour of a square on White's back rank is occupied at the start, or off the board. */
  lemma BackRankNeighbour(fc: int, d: Offset)
    requires 0 <= fc < 8 && IsDirection(d)
    ensures !IsEmpty(InitialBoard(), Shift((7, fc), d))
  {
    var next := Shift((7, fc), d);
    if OnBoard(next) {
      InitialLayout(next);
    }
  }

  /** The empty board with a white rook on (3, 3) and `other` on (3, 6). */
  function RookAndPiece(other: Piece): (b: Board)
    ensures WellFormed(b)
  {
    var empty := Rank(None);
    var row := empty[3 := Some(Piece(Rook, White))][6 := Some(other)];
    [empty, empty, empty, row, empty, empty, empty, empty]
  }

  /** Sliding towards an enemy piece: the rook's slide along +column stops on it and includes it. */
  lemma RookSlideOntoEnemy()
    ensures Ray(RookAndPiece(Piece(Pawn, Black)), White, (3, 4), (0, 1)) == [(3, 4), (3, 5), (3, 6)]
  {
    var b := RookAndPiece(Piece(Pawn, Black));
    assert Ray(b, White, (3, 6), (0, 1)) == [(3, 6)];
    assert Ray(b, White, (3, 5), (0, 1)) == [(3, 5), (3, 6)];
  }

  /** Sliding towards a friendly piece: the rook's slide along +column stops just before it. */
  lemma RookSlideBeforeFriend()
    ensures Ray(RookAndPiece(Piece(Pawn, White)), White, (3, 4), (0, 1)) == [(3, 4), (3, 5)]
  {
    var b := RookAndPiece(Piece(Pawn, White));
    assert Ray(b, White, (3, 6), (0, 1)) == [];
    assert Ray(b, White, (3, 5), (0, 1)) == [(3, 5)];
  }
}
