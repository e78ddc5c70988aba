// The movement rules of services/chessEngine.ts stated independently of the
// order in which getPossibleMoves builds its list, and proved of Moves.

module ChessRules {
  import opened ChessTypes
  import opened ChessEngine

  function Abs(x: int): int
  {
    if x < 0 then -x else x
  }

  /** No square occurs twice. */
  predicate Distinct(s: seq<Square>)
  {
    forall i, j :: 0 <= i < j < |s| ==> s[i] != s[j]
  }

  /** The offset that leads from `src` to `sq`. */
  function Delta(src: Square, sq: Square): Offset
  {
    (sq.0 - src.0, sq.1 - src.1)
  }

  /** Two L-shaped squares apart. */
  predicate KnightJump(src: Square, sq: Square)
  {
    var dr, dc := Abs(sq.0 - src.0), Abs(sq.1 - src.1);
    (dr == 1 && dc == 2) || (dr == 2 && dc == 1)
  }

  /** One of the eight neighbouring squares. */
  predicate KingStep(src: Square, sq: Square)
  {
    Abs(sq.0 - src.0) <= 1 && Abs(sq.1 - src.1) <= 1 && sq != src
  }

  /** k times a component of a unit direction (-1, 0 or 1). */
  function Scaled(k: int, x: int): int
  {
    if x > 0 then k else if x < 0 then -k else 0
  }

  /** The square k steps from `sq` in the unit direction `d`. */
  function Along(sq: Square, d: Offset, k: int): Square
  {
    (sq.0 + Scaled(k, d.0), sq.1 + Scaled(k, d.1))
  }

  /** Every square strictly between `src` and the k-th square along `d` is empty. */
  predicate ClearBefore(b: Board, src: Square, d: Offset, k: int)
    requires WellFormed(b)
  {
    forall j :: 1 <= j < k ==> IsEmpty(b, Along(src, d, j))
  }

  /** The slide rule: the k-th square along `d` is reachable when it is on the board, not friendly, and the way to it is clear. */
  predicate SlideReaches(b: Board, mover: Color, src: Square, d: Offset, k: int)
    requires WellFormed(b)
  {
    1 <= k && OnBoard(Along(src, d, k)) && !Owns(b, mover, Along(src, d, k)) && ClearBefore(b, src, d, k)
  }

  // ---------------------------------------------------------------------
  // Sliders

  /** One step, then k more, is k + 1 steps. */
  lemma AlongShift(src: Square, d: Offset, k: int)
    requires IsDirection(d)
    ensures Along(Shift(src, d), d, k) == Along(src, d, k + 1)
  {
  }

  /**
   * One step of a slide: from an empty square the slide lists that square
   * and continues from the next; otherwise it lists the square when it holds
   * an enemy piece and stops.
   */
  lemma RayCons(b: Board, mover: Color, at: Square, d: Offset)
    requires WellFormed(b) && IsDirection(d)
    ensures var ray := Ray(b, mover, at, d);
      var rest := Ray(b, mover, Shift(at, d), d);
      && (IsEmpty(b, at) ==>
            |ray| == |rest| + 1 && ray[0] == at && forall i :: 1 <= i < |ray| ==> ray[i] == rest[i - 1])
      && (!IsEmpty(b, at) ==>
            || (ray == [] && (!OnBoard(at) || Owns(b, mover, at)))
            || (ray == [at] && IsEnemy(b, mover, at)))
  {
    if IsEmpty(b, at) {
      assert Ray(b, mover, at, d) == [at] + Ray(b, mover, Shift(at, d), d);
    }
  }

  /** Past its first square, a slide is the slide from the next square. */
  lemma RayTail(b: Board, mover: Color, at: Square, d: Offset, i: int)
    requires WellFormed(b) && IsDirection(d)
    requires 0 < i < |Ray(b, mover, at, d)|
    ensures IsEmpty(b, at) && i - 1 < |Ray(b, mover, Shift(at, d), d)|
    ensures Ray(b, mover, at, d)[i] == Ray(b, mover, Shift(at, d), d)[i - 1]
  {
    RayCons(b, mover, at, d);
  }

  /** The i-th square of a slide that starts at `at` lies i steps from `at`. */
  lemma {:induction false} RayAt(b: Board, mover: Color, at: Square, d: Offset, i: int)
    requires WellFormed(b) && IsDirection(d)
    requires 0 <= i < |Ray(b, mover, at, d)|
    ensures Ray(b, mover, at, d)[i] == Along(at, d, i)
    decreases i
  {
    if i > 0 {
      RayTail(b, mover, at, d, i);
      RayAt(b, mover, Shift(at, d), d, i - 1);
      AlongShift(at, d, i - 1);
    } else {
      RayCons(b, mover, at, d);
      assert Along(at, d, 0) == at;
    }
  }

  /**
   * Why a slide of n squares along `d` ends there: its n-th square holds an
   * enemy piece, or the square after it is off the board or holds a
   * friendly piece.
   */
  predicate SlideEnds(b: Board, mover: Color, src: Square, d: Offset, n: int)
    requires WellFormed(b)
  {
    || (n > 0 && IsEnemy(b, mover, Along(src, d, n)))
    || !OnBoard(Along(src, d, n + 1))
    || Owns(b, mover, Along(src, d, n + 1))
  }

  /** Every square of a slide is on the board and not friendly, and every one but the last is empty. */
  lemma {:induction false} RaySquare(b: Board, mover: Color, at: Square, d: Offset, i: int)
    requires WellFormed(b) && IsDirection(d)
    requires 0 <= i < |Ray(b, mover, at, d)|
    ensures var ray := Ray(b, mover, at, d);
      && OnBoard(ray[i]) && !Owns(b, mover, ray[i])
      && (i < |ray| - 1 ==> IsEmpty(b, ray[i]))
    decreases i
  {
    if i > 0 {
      RayTail(b, mover, at, d, i);
      RaySquare(b, mover, Shift(at, d), d, i - 1);
    } else {
      RayCons(b, mover, at, d);
    }
  }

  /**
   * A slide from `at` of n squares ends for a reason: its last square holds
   * an enemy piece, or the square after it is off the board or friendly.
   */
  predicate EndsFrom(b: Board, mover: Color, at: Square, d: Offset, n: int)
    requires WellFormed(b)
  {
    || (n > 0 && IsEnemy(b, mover, Along(at, d, n - 1)))
    || !OnBoard(Along(at, d, n))
    || Owns(b, mover, Along(at, d, n))
  }

  /** A reason to end n squares after the next square is a reason to end n + 1 squares after this one. */
  lemma EndsFromShift(b: Board, mover: Color, at: Square, d: Offset, n: int)
    requires WellFormed(b) && IsDirection(d) && 0 <= n
    requires EndsFrom(b, mover, Shift(at, d), d, n)
    ensures EndsFrom(b, mover, at, d, n + 1)
  {
    AlongShift(at, d, n);
    if n > 0 {
      AlongShift(at, d, n - 1);
    }
  }

  /** Every slide ends for a reason (EndsFrom). */
  lemma {:induction false} RayEndsFrom(b: Board, mover: Color, at: Square, d: Offset)
    requires WellFormed(b) && IsDirection(d)
    ensures EndsFrom(b, mover, at, d, |Ray(b, mover, at, d)|)
    decreases RayMeasure(at, d)
  {
    if IsEmpty(b, at) {
      RayEndsFrom(b, mover, Shift(at, d), d);
      RayEndsStep(b, mover, at, d);
    } else {
      RayEndsHere(b, mover, at, d);
    }
  }

  /** From an empty square, the slide ends for the reason the rest of it ends. */
  lemma RayEndsStep(b: Board, mover: Color, at: Square, d: Offset)
    requires WellFormed(b) && IsDirection(d) && IsEmpty(b, at)
    requires EndsFrom(b, mover, Shift(at, d), d, |Ray(b, mover, Shift(at, d), d)|)
    ensures EndsFrom(b, mover, at, d, |Ray(b, mover, at, d)|)
  {
    RayCons(b, mover, at, d);
    EndsFromShift(b, mover, at, d, |Ray(b, mover, Shift(at, d), d)|);
  }

  /** A slide that meets a square it cannot pass ends right there. */
  lemma RayEndsHere(b: Board, mover: Color, at: Square, d: Offset)
    requires WellFormed(b) && IsDirection(d) && !IsEmpty(b, at)
    ensures EndsFrom(b, mover, at, d, |Ray(b, mover, at, d)|)
  {
    RayCons(b, mover, at, d);
    assert Along(at, d, 0) == at;
  }

  /** A slide stops for a reason (SlideEnds). */
  lemma RayEnds(b: Board, mover: Color, src: Square, d: Offset)
    requires WellFormed(b) && IsDirection(d)
    ensures SlideEnds(b, mover, src, d, |Ray(b, mover, Shift(src, d), d)|)
  {
    RayEndsFrom(b, mover, Shift(src, d), d);
    EndsFromSource(b, mover, src, d, |Ray(b, mover, Shift(src, d), d)|);
  }

  /** Counting from the source instead of from the first square of the slide. */
  lemma EndsFromSource(b: Board, mover: Color, src: Square, d: Offset, n: int)
    requires WellFormed(b) && IsDirection(d) && 0 <= n
    requires EndsFrom(b, mover, Shift(src, d), d, n)
    ensures SlideEnds(b, mover, src, d, n)
  {
    AlongShift(src, d, n);
    if n > 0 {
      AlongShift(src, d, n - 1);
    }
  }

  /**
   * The exact slide-stop rule: a slide lists the consecutive squares along
   * `d` from the source, every one but the last empty, the last on the board
   * and not friendly; and it ends there because the last holds an enemy
   * piece, or because the next square is off the board or friendly.
   */
  lemma RayIsSlide(b: Board, mover: Color, src: Square, d: Offset)
    requires WellFormed(b) && IsDirection(d)
    ensures var ray := Ray(b, mover, Shift(src, d), d);
      && (forall i :: 0 <= i < |ray| ==> ray[i] == Along(src, d, i + 1))
      && ClearBefore(b, src, d, |ray|)
      && (|ray| > 0 ==> OnBoard(Along(src, d, |ray|)) && !Owns(b, mover, Along(src, d, |ray|)))
      && SlideEnds(b, mover, src, d, |ray|)
  {
    var ray := Ray(b, mover, Shift(src, d), d);
    forall i | 0 <= i < |ray|
      ensures ray[i] == Along(src, d, i + 1)
      ensures OnBoard(ray[i]) && !Owns(b, mover, ray[i]) && (i < |ray| - 1 ==> IsEmpty(b, ray[i]))
    {
      RayAt(b, mover, Shift(src, d), d, i);
      AlongShift(src, d, i);
      RaySquare(b, mover, Shift(src, d), d, i);
    }
    assert |ray| > 0 ==> ray[|ray| - 1] == Along(src, d, |ray|);
    assert ClearBefore(b, src, d, |ray|) by {
      forall j | 1 <= j < |ray|
        ensures IsEmpty(b, Along(src, d, j))
      {
        assert Along(src, d, j) == ray[j - 1];
      }
    }
    RayEnds(b, mover, src, d);
  }

  /** A square is on a slide exactly when the slide rule reaches it. */
  lemma RayMember(b: Board, mover: Color, src: Square, d: Offset, sq: Square)
    requires WellFormed(b) && IsDirection(d)
    ensures sq in Ray(b, mover, Shift(src, d), d) <==> exists k :: SlideReaches(b, mover, src, d, k) && sq == Along(src, d, k)
  {
    var ray := Ray(b, mover, Shift(src, d), d);
    RayIsSlide(b, mover, src, d);
    if sq in ray {
      var i :| 0 <= i < |ray| && ray[i] == sq;
      assert i + 1 < |ray| ==> IsEmpty(b, Along(src, d, i + 1));
      assert SlideReaches(b, mover, src, d, i + 1);
    }
    if k :| SlideReaches(b, mover, src, d, k) && sq == Along(src, d, k) {
      RayCoversReach(b, mover, src, d, k);
      assert ray[k - 1] == sq;
    }
  }

  /** A slide runs at least as far as any square the slide rule reaches. */
  lemma RayCoversReach(b: Board, mover: Color, src: Square, d: Offset, k: int)
    requires WellFormed(b) && IsDirection(d)
    requires SlideReaches(b, mover, src, d, k)
    ensures k <= |Ray(b, mover, Shift(src, d), d)|
  {
    var n := |Ray(b, mover, Shift(src, d), d)|;
    RayEnds(b, mover, src, d);
    assert 0 < n < k ==> IsEmpty(b, Along(src, d, n));
    assert n + 1 < k ==> IsEmpty(b, Along(src, d, n + 1));
  }

  /** A slide whose first square is occupied or off the board reaches that square at most. */
  lemma SlideBlocked(b: Board, mover: Color, src: Square, d: Offset, k: int)
    requires WellFormed(b) && IsDirection(d)
    requires !IsEmpty(b, Shift(src, d)) && SlideReaches(b, mover, src, d, k)
    ensures k == 1
  {
    RayCoversReach(b, mover, src, d, k);
    assert |Ray(b, mover, Shift(src, d), d)| <= 1;
  }

  /** A square is among a table's slides exactly when it is on the slide of one of its directions. */
  lemma {:induction false} SlidesMember(b: Board, mover: Color, src: Square, dirs: seq<Offset>, sq: Square)
    requires WellFormed(b) && AllDirections(dirs)
    ensures sq in Slides(b, mover, src, dirs) <==> exists d :: d in dirs && sq in Ray(b, mover, Shift(src, d), d)
  {
    if dirs != [] {
      var init := dirs[..|dirs| - 1];
      SlidesMember(b, mover, src, init, sq);
      assert forall d :: d in dirs <==> d in init || d == dirs[|dirs| - 1];
    }
  }

  /** The rook's table is exactly the four orthogonal unit steps. */
  lemma RookDirectionsOrthogonal(d: Offset)
    ensures d in RookDirections <==> IsDirection(d) && (d.0 == 0 || d.1 == 0)
  {
  }

  /** The bishop's table is exactly the four diagonal unit steps. */
  lemma BishopDirectionsDiagonal(d: Offset)
    ensures d in BishopDirections <==> IsDirection(d) && d.0 != 0 && d.1 != 0
  {
  }

  /** The queen's table is every unit step, orthogonal and diagonal. */
  lemma QueenDirectionsAll(d: Offset)
    ensures d in QueenDirections <==> IsDirection(d)
  {
  }

  /**
   * Rooks, bishops and queens: a square is a move exactly when, along one
   * direction of the piece's table, the slide rule reaches it.
   */
  lemma SliderRule(b: Board, src: Square, sq: Square)
    requires WellFormed(b) && OnBoard(src)
    requires At(b, src).Some? && At(b, src).value.kind in {Rook, Bishop, Queen}
    ensures var p := At(b, src).value;
      sq in Moves(b, src) <==>
        exists d, k :: d in Directions(p.kind) && SlideReaches(b, p.color, src, d, k) && sq == Along(src, d, k)
  {
    var p := At(b, src).value;
    var dirs := Directions(p.kind);
    SlidesMember(b, p.color, src, dirs, sq);
    forall d | d in dirs
      ensures sq in Ray(b, p.color, Shift(src, d), d) <==>
                exists k :: SlideReaches(b, p.color, src, d, k) && sq == Along(src, d, k)
    {
      RayMember(b, p.color, src, d, sq);
    }
  }

  // ---------------------------------------------------------------------
  // Knights and kings

  /** A square is among the steps of an offset table exactly when it is on the board, not friendly, and the offset leading to it is in the table. */
  lemma {:induction false} StepsMember(b: Board, mover: Color, src: Square, offsets: seq<Offset>, sq: Square)
    requires WellFormed(b)
    ensures sq in Steps(b, mover, src, offsets) <==>
              OnBoard(sq) && !Owns(b, mover, sq) && Delta(src, sq) in offsets
  {
    if offsets != [] {
      var init := offsets[..|offsets| - 1];
      StepsMember(b, mover, src, init, sq);
      assert offsets == init + [offsets[|offsets| - 1]];
    }
  }

  /** The knight's table holds exactly the eight L-shaped offsets. */
  lemma KnightOffsetsAreJumps(src: Square, sq: Square)
    ensures Delta(src, sq) in KnightOffsets <==> KnightJump(src, sq)
  {
    var o := Delta(src, sq);
    if KnightJump(src, sq) {
      if o.0 == -2 {
        assert o == KnightOffsets[if o.1 < 0 then 0 else 1];
      } else if o.0 == -1 {
        assert o == KnightOffsets[if o.1 < 0 then 2 else 3];
      } else if o.0 == 1 {
        assert o == KnightOffsets[if o.1 < 0 then 4 else 5];
      } else {
        assert o == KnightOffsets[if o.1 < 0 then 6 else 7];
      }
    }
  }

  /** Knights: exactly the on-board, non-friendly squares a knight's jump away. */
  lemma KnightRule(b: Board, src: Square, sq: Square)
    requires WellFormed(b) && OnBoard(src)
    requires At(b, src).Some? && At(b, src).value.kind == Knight
    ensures sq in Moves(b, src) <==>
              OnBoard(sq) && !Owns(b, At(b, src).value.color, sq) && KnightJump(src, sq)
  {
    StepsMember(b, At(b, src).value.color, src, KnightOffsets, sq);
    KnightOffsetsAreJumps(src, sq);
  }

  /** The king's table holds exactly the eight neighbouring offsets. */
  lemma KingOffsetsAreSteps(src: Square, sq: Square)
    ensures Delta(src, sq) in KingOffsets <==> KingStep(src, sq)
  {
    var o := Delta(src, sq);
    if KingStep(src, sq) {
      if o.0 == -1 {
        assert o == KingOffsets[o.1 + 1];
      } else if o.0 == 0 {
        assert o == KingOffsets[if o.1 < 0 then 3 else 4];
      } else {
        assert o == KingOffsets[o.1 + 6];
      }
    }
  }

  /** Kings: exactly the on-board, non-friendly neighbouring squares. */
  lemma KingRule(b: Board, src: Square, sq: Square)
    requires WellFormed(b) && OnBoard(src)
    requires At(b, src).Some? && At(b, src).value.kind == King
    ensures sq in Moves(b, src) <==>
              OnBoard(sq) && !Owns(b, At(b, src).value.color, sq) && KingStep(src, sq)
  {
    StepsMember(b, At(b, src).value.color, src, KingOffsets, sq);
    KingOffsetsAreSteps(src, sq);
  }

  // ---------------------------------------------------------------------
  // Pawns

  /**
   * Pawns: one square forward onto an empty square; two forward from the
   * start rank when both squares are empty; one square diagonally forward
   * only onto an enemy piece.
   */
  lemma PawnRule(b: Board, src: Square, sq: Square)
    requires WellFormed(b) && OnBoard(src)
    requires At(b, src).Some? && At(b, src).value.kind == Pawn
    ensures var m := At(b, src).value.color;
      var dir := Forward(m);
      sq in Moves(b, src) <==>
        || (sq == (src.0 + dir, src.1) && IsEmpty(b, sq))
        || (sq == (src.0 + 2 * dir, src.1) && OnStartRank(m, src.0)
            && IsEmpty(b, (src.0 + dir, src.1)) && IsEmpty(b, sq))
        || (sq.0 == src.0 + dir && Abs(sq.1 - src.1) == 1 && IsEnemy(b, m, sq))
  {
    var m := At(b, src).value.color;
    PawnCaptures(b, m, src.0 + Forward(m), src.1, sq);
  }

  /** A pawn captures exactly onto the two diagonal squares ahead that hold an enemy piece. */
  lemma PawnCaptures(b: Board, mover: Color, row: int, col: int, sq: Square)
    requires WellFormed(b)
    ensures sq in Captures(b, mover, row, col, CaptureColumns) <==>
              sq.0 == row && Abs(sq.1 - col) == 1 && IsEnemy(b, mover, sq)
  {
    CapturesExtend(b, mover, row, col, CaptureColumns, 0);
    CapturesExtend(b, mover, row, col, CaptureColumns, 1);
    assert CaptureColumns[..0] == [] && CaptureColumns[..2] == CaptureColumns;
  }

  // ---------------------------------------------------------------------
  // Whole move lists

  /**
   * getPossibleMoves returns nothing for an empty square, and otherwise only
   * squares on the board that hold no piece of the mover's colour (so never
   * the source square itself).
   */
  lemma MovesSound(b: Board, src: Square)
    requires WellFormed(b) && OnBoard(src)
    ensures At(b, src).None? ==> Moves(b, src) == []
    ensures At(b, src).Some? ==>
              forall sq :: sq in Moves(b, src) ==>
                OnBoard(sq) && !Owns(b, At(b, src).value.color, sq) && sq != src
  {
    if At(b, src).Some? {
      var p := At(b, src).value;
      forall sq | sq in Moves(b, src)
        ensures OnBoard(sq) && !Owns(b, p.color, sq)
      {
        match p.kind
        case Pawn => PawnRule(b, src, sq);
        case Knight => KnightRule(b, src, sq);
        case King => KingRule(b, src, sq);
        case Rook => SliderRule(b, src, sq);
        case Bishop => SliderRule(b, src, sq);
        case Queen => SliderRule(b, src, sq);
      }
    }
  }

  /** No offset occurs twice in a table. */
  predicate DistinctOffsets(offsets: seq<Offset>)
  {
    forall i, j :: 0 <= i < j < |offsets| ==> offsets[i] != offsets[j]
  }

  /** Stepping through a table without repeated offsets lists no square twice. */
  lemma {:induction false} StepsDistinct(b: Board, mover: Color, src: Square, offsets: seq<Offset>)
    requires WellFormed(b) && DistinctOffsets(offsets)
    ensures Distinct(Steps(b, mover, src, offsets))
  {
    if offsets != [] {
      var init := offsets[..|offsets| - 1];
      var last := offsets[|offsets| - 1];
      StepsDistinct(b, mover, src, init);
      var earlier := Steps(b, mover, src, init);
      forall sq | sq in earlier
        ensures sq != Shift(src, last)
      {
        StepsMember(b, mover, src, init, sq);
        assert Delta(src, sq) in init;
        assert last !in init;
      }
      DistinctExtend(earlier, Target(b, mover, Shift(src, last)));
    }
  }

  /** Appending at most one new square keeps a list free of duplicates. */
  lemma DistinctExtend(s: seq<Square>, t: seq<Square>)
    requires Distinct(s) && |t| <= 1
    requires forall x :: x in t ==> x !in s
    ensures Distinct(s + t)
  {
    if |t| == 1 {
      assert t[0] in t;
      assert forall i :: 0 <= i < |s| ==> s[i] in s;
    }
  }

  /** Knight and king move lists have no duplicates. */
  lemma StepMovesDistinct(b: Board, src: Square)
    requires WellFormed(b) && OnBoard(src)
    requires At(b, src).Some? && At(b, src).value.kind in {Knight, King}
    ensures Distinct(Moves(b, src))
  {
    var p := At(b, src).value;
    if p.kind == Knight {
      StepsDistinct(b, p.color, src, KnightOffsets);
    } else {
      StepsDistinct(b, p.color, src, KingOffsets);
    }
  }

  /** Two duplicate-free lists with no square in common concatenate to a duplicate-free list. */
  lemma DistinctAppend(s: seq<Square>, t: seq<Square>)
    requires Distinct(s) && Distinct(t)
    requires forall x :: x in s ==> x !in t
    ensures Distinct(s + t)
  {
    forall i, j | 0 <= i < j < |s + t|
      ensures (s + t)[i] != (s + t)[j]
    {
      if i < |s| && |s| <= j {
        assert s[i] in s;
        assert (s + t)[j] == t[j - |s|];
      }
    }
  }

  /** Different distances along one unit direction give different squares. */
  lemma AlongDistinct(src: Square, d: Offset, k: int, m: int)
    requires IsDirection(d) && k != m
    ensures Along(src, d, k) != Along(src, d, m)
  {
  }

  /** Walking along two different unit directions, each from the first square in its direction, never reaches the same square. */
  lemma AlongApart(src: Square, d: Offset, e: Offset, k: int, m: int)
    requires IsDirection(d) && IsDirection(e) && d != e && 0 <= k && 0 <= m
    ensures Along(Shift(src, d), d, k) != Along(Shift(src, e), e, m)
  {
  }

  /** A slide along one direction never lists a square twice. */
  lemma RayDistinct(b: Board, mover: Color, src: Square, d: Offset)
    requires WellFormed(b) && IsDirection(d)
    ensures Distinct(Ray(b, mover, Shift(src, d), d))
  {
    var ray := Ray(b, mover, Shift(src, d), d);
    forall i, j | 0 <= i < j < |ray|
      ensures ray[i] != ray[j]
    {
      RayAt(b, mover, Shift(src, d), d, i);
      RayAt(b, mover, Shift(src, d), d, j);
      AlongDistinct(Shift(src, d), d, i, j);
    }
  }

  /** Slides from one square along two different directions have no square in common. */
  lemma RaysApart(b: Board, mover: Color, src: Square, d: Offset, e: Offset, sq: Square)
    requires WellFormed(b) && IsDirection(d) && IsDirection(e) && d != e
    requires sq in Ray(b, mover, Shift(src, d), d)
    ensures sq !in Ray(b, mover, Shift(src, e), e)
  {
    var rd := Ray(b, mover, Shift(src, d), d);
    var re := Ray(b, mover, Shift(src, e), e);
    var i :| 0 <= i < |rd| && rd[i] == sq;
    RayAt(b, mover, Shift(src, d), d, i);
    forall j | 0 <= j < |re|
      ensures re[j] != sq
    {
      RayAt(b, mover, Shift(src, e), e, j);
      AlongApart(src, d, e, i, j);
    }
  }

  /** A square on the slides of some directions is not on the slide of a direction outside them. */
  lemma SlidesApart(b: Board, mover: Color, src: Square, dirs: seq<Offset>, e: Offset, sq: Square)
    requires WellFormed(b) && AllDirections(dirs) && IsDirection(e) && e !in dirs
    requires sq in Slides(b, mover, src, dirs)
    ensures sq !in Ray(b, mover, Shift(src, e), e)
  {
    SlidesMember(b, mover, src, dirs, sq);
    var d :| d in dirs && sq in Ray(b, mover, Shift(src, d), d);
    var k :| 0 <= k < |dirs| && dirs[k] == d;
    RaysApart(b, mover, src, d, e, sq);
  }

  /** A direction table without repeats yields a slider list without duplicates. */
  lemma {:induction false} SlidesDistinct(b: Board, mover: Color, src: Square, dirs: seq<Offset>)
    requires WellFormed(b) && AllDirections(dirs) && DistinctOffsets(dirs)
    ensures Distinct(Slides(b, mover, src, dirs))
  {
    if dirs != [] {
      var init := dirs[..|dirs| - 1];
      var last := dirs[|dirs| - 1];
      assert AllDirections(init);
      assert last !in init;
      SlidesDistinct(b, mover, src, init);
      RayDistinct(b, mover, src, last);
      forall sq | sq in Slides(b, mover, src, init)
        ensures sq !in Ray(b, mover, Shift(src, last), last)
      {
        SlidesApart(b, mover, src, init, last, sq);
      }
      DistinctAppend(Slides(b, mover, src, init), Ray(b, mover, Shift(src, last), last));
    }
  }

  /** A pawn's pushes are at most two different squares, both in its own column. */
  lemma PushesColumn(b: Board, mover: Color, src: Square)
    requires WellFormed(b) && OnBoard(src)
    ensures Distinct(Pushes(b, mover, src))
    ensures forall sq :: sq in Pushes(b, mover, src) ==> sq.1 == src.1
  {
  }

  /** A pawn's captures are at most two different squares, both in a neighbouring column. */
  lemma CapturesColumns(b: Board, mover: Color, row: int, col: int)
    requires WellFormed(b)
    ensures Distinct(Captures(b, mover, row, col, CaptureColumns))
    ensures forall sq :: sq in Captures(b, mover, row, col, CaptureColumns) ==> Abs(sq.1 - col) == 1
  {
    CapturesExtend(b, mover, row, col, CaptureColumns, 0);
    CapturesExtend(b, mover, row, col, CaptureColumns, 1);
    assert CaptureColumns[..0] == [] && CaptureColumns[..2] == CaptureColumns;
  }

  /**
   * A pawn's list has no duplicates: its pushes lie in its own column on two
   * different rows, its captures in the two neighbouring columns.
   */
  lemma PawnMovesDistinct(b: Board, mover: Color, src: Square)
    requires WellFormed(b) && OnBoard(src)
    ensures Distinct(PawnMoves(b, mover, src))
  {
    var row := src.0 + Forward(mover);
    PushesColumn(b, mover, src);
    CapturesColumns(b, mover, row, src.1);
    DistinctAppend(Pushes(b, mover, src), Captures(b, mover, row, src.1, CaptureColumns));
  }

  /** getPossibleMoves never lists a square twice, whatever the piece. */
  lemma MovesDistinct(b: Board, src: Square)
    requires WellFormed(b) && OnBoard(src)
    ensures Distinct(Moves(b, src))
  {
    if At(b, src).Some? {
      var p := At(b, src).value;
      match p.kind
      case Pawn => PawnMovesDistinct(b, p.color, src);
      case Knight => StepMovesDistinct(b, src);
      case King => StepMovesDistinct(b, src);
      case Rook => SlidesDistinct(b, p.color, src, RookDirections);
      case Bishop => SlidesDistinct(b, p.color, src, BishopDirections);
      case Queen => SlidesDistinct(b, p.color, src, QueenDirections);
    }
  }

  // ---------------------------------------------------------------------
  // Visibility

  /**
   * The fog-of-war rule: a colour sees the squares of its own pieces; any
   * other square (empty or enemy) is visible exactly when one of that
   * colour's pieces can move onto it; and nothing off the board is visible.
   */
  lemma VisibilityRule(b: Board, color: Color, sq: Square)
    requires WellFormed(b)
    ensures Owns(b, color, sq) ==> Visible(b, color, sq)
    ensures !Owns(b, color, sq) ==>
              (Visible(b, color, sq) <==>
                 exists fr, fc | 0 <= fr < 8 && 0 <= fc < 8 ::
                   Owns(b, color, (fr, fc)) && sq in Moves(b, (fr, fc)))
    ensures Visible(b, color, sq) ==> OnBoard(sq)
  {
    if Owns(b, color, sq) {
      assert 0 <= sq.0 < 8 && 0 <= sq.1 < 8 && Owns(b, color, (sq.0, sq.1));
    }
    if Visible(b, color, sq) {
      var fr, fc :| 0 <= fr < 8 && 0 <= fc < 8 && Owns(b, color, (fr, fc))
        && (sq == (fr, fc) || sq in Moves(b, (fr, fc)));
      MovesSound(b, (fr, fc));
    }
  }
}
