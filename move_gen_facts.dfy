/** What the generators compute, stated without their loops: each generator's
    destinations are characterised exactly, and every generator is shown to
    look only at which colour stands on each square. */
module MoveGenFacts {
  import opened ChessBoard
  import opened MoveGen

  /** The square `k` steps from `from` along `d`. */
  function Advance(from: Square, d: Offset, k: int): Square {
    Square(from.row + k * d.dr, from.col + k * d.dc)
  }

  /** Steps i, i+1, ..., k-1 from `from` along `d` are empty squares of the board. */
  ghost predicate ClearSpan(b: Board, from: Square, d: Offset, i: int, k: int) {
    forall j :: i <= j < k ==> IsEmpty(b, Advance(from, d, j))
  }

  /** A slider of `color` on `from` reaches `m` along `d`: every square strictly
      between is empty, and `m` itself is empty or holds an enemy. */
  ghost predicate SlideReaches(b: Board, from: Square, color: Color, d: Offset, m: Square) {
    exists k :: 1 <= k && m == Advance(from, d, k) && ClearSpan(b, from, d, 1, k) && EmptyOrEnemy(b, m, color)
  }

  // ---------------------------------------------------------------------------
  // Sliders

  /** One more step along `d` from step `i` is step `i + 1`. */
  lemma AdvanceStep(from: Square, d: Offset, i: int)
    ensures Shift(Advance(from, d, i), d) == Advance(from, d, i + 1)
  {
    assert (i + 1) * d.dr == i * d.dr + d.dr && (i + 1) * d.dc == i * d.dc + d.dc;
  }

  /** An empty square at step `i` in front of a clear span from `i + 1` makes
      the span clear from `i`. */
  lemma ClearSpanExtend(b: Board, from: Square, d: Offset, i: int, k: int)
    requires IsEmpty(b, Advance(from, d, i)) && ClearSpan(b, from, d, i + 1, k)
    ensures ClearSpan(b, from, d, i, k)
  {
    forall j | i <= j < k ensures IsEmpty(b, Advance(from, d, j)) {
      if j > i {
        assert i + 1 <= j < k;
      }
    }
  }

  lemma {:induction false} RaySound(b: Board, color: Color, from: Square, d: Offset, i: int, m: Square)
    requires IsUnit(d)
    requires m in Ray(b, color, Advance(from, d, i), d)
    ensures exists k :: i <= k && m == Advance(from, d, k) && ClearSpan(b, from, d, i, k) && EmptyOrEnemy(b, m, color)
    decreases RayBound(Advance(from, d, i), d)
  {
    var sq := Advance(from, d, i);
    if ColorAt(b, sq) == None && m != sq {
      AdvanceStep(from, d, i);
      assert Ray(b, color, sq, d) == [sq] + Ray(b, color, Shift(sq, d), d);
      RaySound(b, color, from, d, i + 1, m);
      var k :| i + 1 <= k && m == Advance(from, d, k) && ClearSpan(b, from, d, i + 1, k) && EmptyOrEnemy(b, m, color);
      ClearSpanExtend(b, from, d, i, k);
    } else {
      assert m == sq && ClearSpan(b, from, d, i, i);
    }
  }

  lemma {:induction false} RayComplete(b: Board, color: Color, from: Square, d: Offset, i: int, k: int)
    requires IsUnit(d) && i <= k
    requires ClearSpan(b, from, d, i, k) && EmptyOrEnemy(b, Advance(from, d, k), color)
    ensures Advance(from, d, k) in Ray(b, color, Advance(from, d, i), d)
    decreases k - i
  {
    var sq := Advance(from, d, i);
    if i < k {
      assert IsEmpty(b, sq);
      AdvanceStep(from, d, i);
      RayComplete(b, color, from, d, i + 1, k);
      assert Ray(b, color, sq, d) == [sq] + Ray(b, color, Shift(sq, d), d);
    } else {
      assert sq == Advance(from, d, k);
    }
  }

  /** Rook and bishop destinations are exactly the squares some direction of
      the table reaches with nothing in between: the first occupied square is
      included iff it holds an enemy, and nothing beyond it is. */
  lemma {:induction false} SlidesIff(b: Board, from: Square, color: Color, dirs: seq<Offset>, m: Square)
    requires forall d :: d in dirs ==> IsUnit(d)
    ensures m in Slides(b, from, color, dirs) <==> exists d :: d in dirs && SlideReaches(b, from, color, d, m)
  {
    if dirs != [] {
      var d := dirs[0];
      assert Shift(from, d) == Advance(from, d, 1);
      SlidesIff(b, from, color, dirs[1..], m);
      if m in Ray(b, color, Shift(from, d), d) {
        RaySound(b, color, from, d, 1, m);
        assert SlideReaches(b, from, color, d, m);
      }
      if SlideReaches(b, from, color, d, m) {
        var k :| 1 <= k && m == Advance(from, d, k) && ClearSpan(b, from, d, 1, k) && EmptyOrEnemy(b, m, color);
        RayComplete(b, color, from, d, 1, k);
      }
      forall e | e in dirs ensures e == d || e in dirs[1..] {
        if e != d {
          var i :| 0 <= i < |dirs| && dirs[i] == e;
          assert dirs[1..][i - 1] == e;
        }
      }
    }
  }

  lemma RookMovesIff(b: Board, from: Square, color: Color, m: Square)
    ensures m in RookMoves(b, from, color) <==> exists d :: d in RookDirections && SlideReaches(b, from, color, d, m)
  {
    SlidesIff(b, from, color, RookDirections, m);
  }

  lemma BishopMovesIff(b: Board, from: Square, color: Color, m: Square)
    ensures m in BishopMoves(b, from, color) <==> exists d :: d in BishopDirections && SlideReaches(b, from, color, d, m)
  {
    SlidesIff(b, from, color, BishopDirections, m);
  }

  /** Queen destinations are exactly the rook destinations and the bishop destinations together. */
  lemma QueenMovesIff(b: Board, from: Square, color: Color, m: Square)
    ensures m in QueenMoves(b, from, color) <==> m in RookMoves(b, from, color) || m in BishopMoves(b, from, color)
    ensures m in QueenMoves(b, from, color) <==>
      exists d :: (d in RookDirections || d in BishopDirections) && SlideReaches(b, from, color, d, m)
  {
    RookMovesIff(b, from, color, m);
    BishopMovesIff(b, from, color, m);
  }

  // ---------------------------------------------------------------------------
  // Knights and kings

  lemma {:induction false} JumpsIff(b: Board, from: Square, color: Color, offsets: seq<Offset>, m: Square)
    ensures m in Jumps(b, from, color, offsets) <==>
      exists o :: o in offsets && m == Shift(from, o) && EmptyOrEnemy(b, m, color)
  {
    if offsets != [] {
      JumpsIff(b, from, color, offsets[1..], m);
      forall o | o in offsets ensures o == offsets[0] || o in offsets[1..] {
        if o != offsets[0] {
          var i :| 0 <= i < |offsets| && offsets[i] == o;
          assert offsets[1..][i - 1] == o;
        }
      }
    }
  }

  /** Knight destinations: exactly the on-board, non-friendly squares among the eight offsets. */
  lemma KnightMovesIff(b: Board, from: Square, color: Color, m: Square)
    ensures m in KnightMoves(b, from, color) <==>
      exists o :: o in KnightOffsets && m == Shift(from, o) && EmptyOrEnemy(b, m, color)
  {
    JumpsIff(b, from, color, KnightOffsets, m);
  }

  /** King destinations: exactly the on-board, non-friendly neighbours; attacked squares are not excluded. */
  lemma KingMovesIff(b: Board, from: Square, color: Color, m: Square)
    ensures m in KingMoves(b, from, color) <==>
      exists o :: o in KingOffsets && m == Shift(from, o) && EmptyOrEnemy(b, m, color)
  {
    JumpsIff(b, from, color, KingOffsets, m);
  }

  /** Whatever stands on `from` moves by its own kind's rule. */
  lemma PseudoMovesOfPiece(b: Board, from: Square, p: Piece)
    requires OnBoard(from) && At(b, from) == Some(p)
    ensures PseudoMoves(b, from) == PieceMoves(b, from, p)
    ensures p.kind == Knight ==> PseudoMoves(b, from) == Jumps(b, from, p.color, KnightOffsets)
    ensures p.kind == King ==> PseudoMoves(b, from) == Jumps(b, from, p.color, KingOffsets)
  {
  }

  /** The jumps along two tables one after the other are the jumps of the first, then those of the second. */
  lemma {:induction false} JumpsAppend(b: Board, from: Square, color: Color, xs: seq<Offset>, ys: seq<Offset>)
    ensures Jumps(b, from, color, xs + ys) == Jumps(b, from, color, xs) + Jumps(b, from, color, ys)
  {
    if xs != [] {
      assert (xs + ys)[0] == xs[0] && (xs + ys)[1..] == xs[1..] + ys;
      JumpsAppend(b, from, color, xs[1..], ys);
      var target := Shift(from, xs[0]);
      var head := if EmptyOrEnemy(b, target, color) then [target] else [];
      AppendAssoc(head, Jumps(b, from, color, xs[1..]), Jumps(b, from, color, ys));
    } else {
      assert xs + ys == ys;
    }
  }

  /** The jumps along a table of two offsets, written out. */
  lemma JumpsPair(b: Board, from: Square, color: Color, o1: Offset, o2: Offset)
    ensures var t1, t2 := Shift(from, o1), Shift(from, o2);
      Jumps(b, from, color, [o1, o2])
        == (if EmptyOrEnemy(b, t1, color) then [t1] else []) + (if EmptyOrEnemy(b, t2, color) then [t2] else [])
  {
    var t2 := Shift(from, o2);
    var last := if EmptyOrEnemy(b, t2, color) then [t2] else [];
    assert [o1, o2][1..] == [o2] && [o2][1..] == [];
    AppendNil(last);
    assert Jumps(b, from, color, [o2]) == last;
  }

  /** Offsets that all land off the board or on a friendly piece give no jumps. */
  lemma {:induction false} NoJumps(b: Board, from: Square, color: Color, offsets: seq<Offset>)
    requires forall o :: o in offsets ==> !EmptyOrEnemy(b, Shift(from, o), color)
    ensures Jumps(b, from, color, offsets) == []
  {
    if offsets != [] {
      assert offsets[0] in offsets;
      NoJumps(b, from, color, offsets[1..]);
    }
  }

  // ---------------------------------------------------------------------------
  // Pawns

  /** A pawn steps forward only onto an empty square, and twice only from
      its starting row and only over and onto empty squares. */
  lemma PawnPushesIff(b: Board, from: Square, color: Color, m: Square)
    ensures m in PawnPushes(b, from, color) <==>
      || (m == Square(from.row + Forward(color), from.col) && IsEmpty(b, m))
      || (m == Square(from.row + 2 * Forward(color), from.col) && from.row == StartRow(color)
          && IsEmpty(b, Square(from.row + Forward(color), from.col)) && IsEmpty(b, m))
  {
    assert Forward(color) != 0;
  }

  /** A pawn moves diagonally forward only onto a square holding an enemy. */
  lemma PawnCapturesIff(b: Board, from: Square, color: Color, m: Square)
    ensures m in PawnCaptures(b, from, color, CaptureSides) <==>
      m.row == from.row + Forward(color) && (m.col == from.col - 1 || m.col == from.col + 1)
      && HoldsEnemy(b, m, color)
  {
    var d := Forward(color);
    var left := Square(from.row + d, from.col - 1);
    var right := Square(from.row + d, from.col + 1);
    assert CaptureSides[1..] == [1] && [1][1..] == [];
    var leftOnly := if HoldsEnemy(b, left, color) then [left] else [];
    var rightOnly := if HoldsEnemy(b, right, color) then [right] else [];
    assert PawnCaptures(b, from, color, [1]) == rightOnly + PawnCaptures(b, from, color, []);
    assert PawnCaptures(b, from, color, CaptureSides) == leftOnly + rightOnly;
    if m.row == from.row + d && HoldsEnemy(b, m, color) {
      if m.col == from.col - 1 {
        assert m == left && m in leftOnly;
      } else if m.col == from.col + 1 {
        assert m == right && m in rightOnly;
      }
    }
  }

  /** A pawn's destinations: the pushes and the diagonal captures. */
  lemma PawnMovesIff(b: Board, from: Square, color: Color, m: Square)
    ensures m in PawnMoves(b, from, color) <==>
      || (m == Square(from.row + Forward(color), from.col) && IsEmpty(b, m))
      || (m == Square(from.row + 2 * Forward(color), from.col) && from.row == StartRow(color)
          && IsEmpty(b, Square(from.row + Forward(color), from.col)) && IsEmpty(b, m))
      || (m.row == from.row + Forward(color) && (m.col == from.col - 1 || m.col == from.col + 1)
          && HoldsEnemy(b, m, color))
  {
    PawnPushesIff(b, from, color, m);
    PawnCapturesIff(b, from, color, m);
  }

  // ---------------------------------------------------------------------------
  // The generators read only the colour on each square

  lemma {:induction false} RayDependsOnColors(b1: Board, b2: Board, color: Color, sq: Square, d: Offset)
    requires SameColors(b1, b2) && IsUnit(d)
    ensures Ray(b1, color, sq, d) == Ray(b2, color, sq, d)
    decreases RayBound(sq, d)
  {
    if OnBoard(sq) && ColorAt(b1, sq) == None {
      RayDependsOnColors(b1, b2, color, Shift(sq, d), d);
    }
  }

  lemma {:induction false} SlidesDependOnColors(b1: Board, b2: Board, from: Square, color: Color, dirs: seq<Offset>)
    requires SameColors(b1, b2)
    requires forall d :: d in dirs ==> IsUnit(d)
    ensures Slides(b1, from, color, dirs) == Slides(b2, from, color, dirs)
  {
    if dirs != [] {
      RayDependsOnColors(b1, b2, color, Shift(from, dirs[0]), dirs[0]);
      SlidesDependOnColors(b1, b2, from, color, dirs[1..]);
    }
  }

  lemma {:induction false} JumpsDependOnColors(b1: Board, b2: Board, from: Square, color: Color, offsets: seq<Offset>)
    requires SameColors(b1, b2)
    ensures Jumps(b1, from, color, offsets) == Jumps(b2, from, color, offsets)
  {
    if offsets != [] {
      JumpsDependOnColors(b1, b2, from, color, offsets[1..]);
    }
  }

  lemma {:induction false} PawnCapturesDependOnColors(b1: Board, b2: Board, from: Square, color: Color, sides: seq<int>)
    requires SameColors(b1, b2)
    ensures PawnCaptures(b1, from, color, sides) == PawnCaptures(b2, from, color, sides)
  {
    if sides != [] {
      PawnCapturesDependOnColors(b1, b2, from, color, sides[1..]);
    }
  }

  /** A piece's destinations are the same on any two boards with the same
      colour on every square: kinds and `moved` flags of other pieces are never read. */
  lemma PieceMovesDependOnColors(b1: Board, b2: Board, from: Square, p: Piece)
    requires SameColors(b1, b2)
    ensures PieceMoves(b1, from, p) == PieceMoves(b2, from, p)
  {
    match p.kind
    case Pawn => PawnCapturesDependOnColors(b1, b2, from, p.color, CaptureSides);
    case Rook => SlidesDependOnColors(b1, b2, from, p.color, RookDirections);
    case Bishop => SlidesDependOnColors(b1, b2, from, p.color, BishopDirections);
    case Queen =>
      SlidesDependOnColors(b1, b2, from, p.color, RookDirections);
      SlidesDependOnColors(b1, b2, from, p.color, BishopDirections);
    case Knight => JumpsDependOnColors(b1, b2, from, p.color, KnightOffsets);
    case King => JumpsDependOnColors(b1, b2, from, p.color, KingOffsets);
  }
}
