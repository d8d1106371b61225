/** Facts about the starting position. As long as a side's two home ranks
    are as they were at the start, its pieces reach only the two ranks in
    front of its pawns. Hence the game starts in a legal position, white is
    not in check, and the filter keeps every opening move of either side.
    Square by square: every pawn may step one or two squares, every knight
    may jump to two squares, and no other piece can move. */
module InitialPosition {
  import opened ChessBoard
  import opened MoveGen
  import opened MoveGenFacts
  import opened Rules

  /** The rank of `color`'s pieces behind its pawns. */
  function BackRow(color: Color): int {
    if color == White then 7 else 0
  }

  /** `color`'s back rank and pawn rank hold their starting pieces, and
      `color` has no piece anywhere else. */
  ghost predicate HomeAsAtStart(b: Board, color: Color) {
    && (forall sq :: OnBoard(sq) && (sq.row == BackRow(color) || sq.row == StartRow(color)) ==>
          At(b, sq) == At(InitialBoard(), sq))
    && (forall sq :: HoldsColor(b, sq, color) ==> sq.row == BackRow(color) || sq.row == StartRow(color))
  }

  lemma StartHomes(color: Color)
    ensures HomeAsAtStart(InitialBoard(), color)
  {
  }

  /** A slider on its back rank is walled in: along every direction the
      first square is off the board or holds a piece of its own. */
  lemma RayBlockedAtHome(b: Board, color: Color, from: Square, d: Offset)
    requires HomeAsAtStart(b, color)
    requires OnBoard(from) && from.row == BackRow(color) && IsUnit(d)
    ensures Ray(b, color, Shift(from, d), d) == []
  {
    var sq := Shift(from, d);
    if OnBoard(sq) {
      assert At(b, sq) == At(InitialBoard(), sq);
      assert ColorAt(InitialBoard(), sq) == Some(color);
    }
  }

  lemma {:induction false} SlidesBlockedAtHome(b: Board, color: Color, from: Square, dirs: seq<Offset>)
    requires HomeAsAtStart(b, color)
    requires OnBoard(from) && from.row == BackRow(color)
    requires forall d :: d in dirs ==> IsUnit(d)
    ensures Slides(b, from, color, dirs) == []
  {
    if dirs != [] {
      RayBlockedAtHome(b, color, from, dirs[0]);
      SlidesBlockedAtHome(b, color, from, dirs[1..]);
    }
  }

  /** A knight's or king's jump from the back rank lands, if anywhere, on the
      rank just in front of its pawns. */
  lemma JumpFromHome(b: Board, color: Color, from: Square, offsets: seq<Offset>, m: Square)
    requires HomeAsAtStart(b, color)
    requires OnBoard(from) && from.row == BackRow(color)
    requires forall o :: o in offsets ==> -2 <= o.dr <= 2
    requires m in Jumps(b, from, color, offsets)
    ensures m.row == StartRow(color) + Forward(color)
  {
    JumpsIff(b, from, color, offsets, m);
    assert OnBoard(m) && ColorAt(b, m) != Some(color);
    assert ColorAt(InitialBoard(), m) == Some(color) <==> m.row == BackRow(color) || m.row == StartRow(color);
  }

  /** A pawn on its starting rank steps onto one of the next two ranks. */
  lemma PawnRankMovesAhead(b: Board, color: Color, from: Square, m: Square)
    requires from.row == StartRow(color)
    requires m in PawnMoves(b, from, color)
    ensures m.row == StartRow(color) + Forward(color) || m.row == StartRow(color) + 2 * Forward(color)
  {
    PawnMovesIff(b, from, color, m);
  }

  /** Only the knights of the back rank can move, onto the rank in front of the pawns. */
  lemma BackRankMovesAhead(b: Board, from: Square, p: Piece, m: Square)
    requires HomeAsAtStart(b, p.color)
    requires OnBoard(from) && from.row == BackRow(p.color) && p.kind != Pawn
    requires m in PieceMoves(b, from, p)
    ensures m.row == StartRow(p.color) + Forward(p.color)
  {
    var color := p.color;
    TablesWellFormed();
    match p.kind
    case Knight => JumpFromHome(b, color, from, KnightOffsets, m);
    case King => JumpFromHome(b, color, from, KingOffsets, m);
    case Rook => SlidesBlockedAtHome(b, color, from, RookDirections);
    case Bishop => SlidesBlockedAtHome(b, color, from, BishopDirections);
    case Queen =>
      SlidesBlockedAtHome(b, color, from, RookDirections);
      SlidesBlockedAtHome(b, color, from, BishopDirections);
  }

  /** While a side's home is as at the start, every pseudo-legal destination
      of its pieces lies on one of the two ranks in front of its pawns (rows 5
      and 4 for white, rows 2 and 3 for black). */
  lemma HomeMovesStayAhead(b: Board, from: Square, m: Square)
    requires OnBoard(from) && At(b, from).Some? && HomeAsAtStart(b, At(b, from).value.color)
    requires m in PseudoMoves(b, from)
    ensures var color := At(b, from).value.color;
      m.row == StartRow(color) + Forward(color) || m.row == StartRow(color) + 2 * Forward(color)
  {
    var p := At(b, from).value;
    assert HoldsColor(b, from, p.color);
    assert At(b, from) == At(InitialBoard(), from);
    if from.row == StartRow(p.color) {
      assert p.kind == Pawn;
      PawnRankMovesAhead(b, p.color, from, m);
    } else {
      BackRankMovesAhead(b, from, p, m);
    }
  }

  /** While the attacker's home is as at the start, it attacks no square
      outside the two ranks in front of its pawns. */
  lemma NotAttackedOutsideFront(b: Board, target: Square, attacker: Color)
    requires HomeAsAtStart(b, attacker)
    requires target.row != StartRow(attacker) + Forward(attacker)
    requires target.row != StartRow(attacker) + 2 * Forward(attacker)
    ensures !Attacked(b, target, attacker)
  {
    if Attacked(b, target, attacker) {
      var sq :| HoldsColor(b, sq, attacker) && target in PseudoMoves(b, sq);
      HomeMovesStayAhead(b, sq, target);
    }
  }

  /** The kings are found on their starting squares. */
  lemma InitialKings()
    ensures FindKing(InitialBoard(), White) == Some(Square(7, 4))
    ensures FindKing(InitialBoard(), Black) == Some(Square(0, 4))
  {
    assert IsKingOf(At(InitialBoard(), Square(7, 4)), White);
    assert IsKingOf(At(InitialBoard(), Square(0, 4)), Black);
  }

  /** The game starts in a legal position with white to move, and white is not in check. */
  lemma InitialPositionLegal()
    ensures HasKing(InitialBoard(), White) && HasKing(InitialBoard(), Black)
    ensures LegalPosition(InitialBoard(), White)
    ensures !InCheck(InitialBoard(), White)
  {
    InitialKings();
    StartHomes(White);
    StartHomes(Black);
    NotAttackedOutsideFront(InitialBoard(), Square(0, 4), White);
    NotAttackedOutsideFront(InitialBoard(), Square(7, 4), Black);
  }

  /** The filter's copy after an opening move of `color` leaves the other
      side's home as at the start. */
  lemma RelocateKeepsOtherHome(from: Square, to: Square, color: Color)
    requires HoldsColor(InitialBoard(), from, color)
    requires to in PseudoMoves(InitialBoard(), from)
    ensures OnBoard(to) && HomeAsAtStart(Relocate(InitialBoard(), from, to), Opponent(color))
  {
    var b := InitialBoard();
    StartHomes(color);
    HomeMovesStayAhead(b, from, to);
    var copy := Relocate(b, from, to);
    var o := Opponent(color);
    forall sq | OnBoard(sq) && (sq.row == BackRow(o) || sq.row == StartRow(o))
      ensures At(copy, sq) == At(b, sq)
    {
      assert sq != from && sq != to;
    }
    forall sq | HoldsColor(copy, sq, o)
      ensures sq.row == BackRow(o) || sq.row == StartRow(o)
    {
      assert sq != from && sq != to;
      assert HoldsColor(b, sq, o);
    }
  }

  /** Every opening move of either side is safe: no piece of the other side
      can reach the mover's king, wherever the move leaves it. */
  lemma StartMoveIsSafe(from: Square, to: Square)
    requires OnBoard(from) && At(InitialBoard(), from).Some?
    requires to in PseudoMoves(InitialBoard(), from)
    ensures OnBoard(to) && Safe(InitialBoard(), from, to, At(InitialBoard(), from).value.color)
  {
    var b := InitialBoard();
    var color := At(b, from).value.color;
    var o := Opponent(color);
    assert HoldsColor(b, from, color);
    assert IsKingOf(At(b, Square(BackRow(color), 4)), color);
    StartHomes(color);
    HomeMovesStayAhead(b, from, to);
    KingSurvivesRelocation(b, from, to);
    RelocateKeepsOtherHome(from, to, color);
    var copy := Relocate(b, from, to);
    var k := FindKing(copy, color).value;
    if k != to {
      assert k != from && HoldsColor(b, k, color);
    }
    assert k.row == BackRow(color) || k.row == StartRow(color)
      || k.row == StartRow(color) + Forward(color) || k.row == StartRow(color) + 2 * Forward(color);
    NotAttackedOutsideFront(copy, k, o);
  }

  /** At the start the filter keeps every pseudo-legal move of either side. */
  lemma StartMovesAllLegal(from: Square)
    requires OnBoard(from)
    ensures KingPresent(InitialBoard(), from)
    ensures LegalMoves(InitialBoard(), from) == PseudoMoves(InitialBoard(), from)
  {
    var b := InitialBoard();
    if At(b, from).Some? {
      var p := At(b, from).value;
      assert IsKingOf(At(b, Square(BackRow(p.color), 4)), p.color);
      forall m | m in PseudoMoves(b, from)
        ensures OnBoard(m) && Safe(b, from, m, p.color)
      {
        StartMoveIsSafe(from, m);
      }
      KeepSafeAll(b, from, p.color, PieceMoves(b, from, p));
    }
  }

  /** At the start the white king's pawn stands on (6,4) and (4,4) is empty. */
  lemma KingPawnSquares()
    ensures At(InitialBoard(), Square(6, 4)) == Some(Piece(Pawn, White, false))
    ensures At(InitialBoard(), Square(4, 4)) == None
  {
    assert ColorAt(InitialBoard(), Square(4, 4)) == None;
  }

  /** At the start every pawn may step one or two squares forward and has
      nothing to capture. */
  lemma PawnOpeningMoves(from: Square)
    requires OnBoard(from) && (from.row == 1 || from.row == 6)
    ensures var color := if from.row == 6 then White else Black;
      PseudoMoves(InitialBoard(), from)
        == [Square(from.row + Forward(color), from.col), Square(from.row + 2 * Forward(color), from.col)]
  {
    var b := InitialBoard();
    var color := if from.row == 6 then White else Black;
    assert At(b, from) == Some(Piece(Pawn, color, false));
    assert PawnPushes(b, from, color)
      == [Square(from.row + Forward(color), from.col), Square(from.row + 2 * Forward(color), from.col)];
    assert CaptureSides[1..] == [1] && [1][1..] == [];
    assert PawnCaptures(b, from, color, CaptureSides) == [];
  }

  /** `color`'s pieces stand exactly on its back rank and pawn rank. */
  ghost predicate FillsHome(b: Board, color: Color) {
    forall sq :: OnBoard(sq) ==> (ColorAt(b, sq) == Some(color) <==> sq.row == BackRow(color) || sq.row == StartRow(color))
  }

  /** At the start each side's pieces stand exactly on its two home ranks. */
  lemma StartFillsHome(color: Color)
    ensures FillsHome(InitialBoard(), color)
  {
  }

  /** A white knight on row 7, with white pawns filling row 6 and no white
      piece on row 5, jumps exactly to the two squares of row 5 beside its file:
      the first two offsets of the table. */
  lemma WhiteKnightJumps(b: Board, from: Square)
    requires from.row == 7 && (from.col == 1 || from.col == 6)
    requires forall c :: 0 <= c < 8 ==> ColorAt(b, Square(6, c)) == Some(White)
    requires forall c :: 0 <= c < 8 ==> ColorAt(b, Square(5, c)) != Some(White)
    ensures Jumps(b, from, White, KnightOffsets) == [Square(5, from.col - 1), Square(5, from.col + 1)]
  {
    var landing := [Square(5, from.col - 1), Square(5, from.col + 1)];
    var front := [Offset(-2, -1), Offset(-2, 1)];
    var rest := [Offset(-1, -2), Offset(-1, 2), Offset(1, -2), Offset(1, 2), Offset(2, -1), Offset(2, 1)];
    assert KnightOffsets == front + rest;
    JumpsAppend(b, from, White, front, rest);
    assert from.col - 2 < 0 || ColorAt(b, Square(6, from.col - 2)) == Some(White);
    assert from.col + 2 >= 8 || ColorAt(b, Square(6, from.col + 2)) == Some(White);
    NoJumps(b, from, White, rest);
    JumpsPair(b, from, White, Offset(-2, -1), Offset(-2, 1));
    AppendNil(landing);
  }

  /** A black knight on row 0, with black pawns filling row 1 and no black
      piece on row 2, jumps exactly to the two squares of row 2 beside its file:
      the last two offsets of the table. */
  lemma BlackKnightJumps(b: Board, from: Square)
    requires from.row == 0 && (from.col == 1 || from.col == 6)
    requires forall c :: 0 <= c < 8 ==> ColorAt(b, Square(1, c)) == Some(Black)
    requires forall c :: 0 <= c < 8 ==> ColorAt(b, Square(2, c)) != Some(Black)
    ensures Jumps(b, from, Black, KnightOffsets) == [Square(2, from.col - 1), Square(2, from.col + 1)]
  {
    var landing := [Square(2, from.col - 1), Square(2, from.col + 1)];
    var rest := [Offset(-2, -1), Offset(-2, 1), Offset(-1, -2), Offset(-1, 2), Offset(1, -2), Offset(1, 2)];
    var back := [Offset(2, -1), Offset(2, 1)];
    assert KnightOffsets == rest + back;
    JumpsAppend(b, from, Black, rest, back);
    assert from.col - 2 < 0 || ColorAt(b, Square(1, from.col - 2)) == Some(Black);
    assert from.col + 2 >= 8 || ColorAt(b, Square(1, from.col + 2)) == Some(Black);
    NoJumps(b, from, Black, rest);
    JumpsPair(b, from, Black, Offset(2, -1), Offset(2, 1));
    AppendNil(landing);
  }

  /** A king on its home square has no square to step to. */
  lemma KingJumpsAtHome(b: Board, color: Color, from: Square)
    requires FillsHome(b, color)
    requires OnBoard(from) && from.row == BackRow(color)
    ensures Jumps(b, from, color, KingOffsets) == []
  {
    NoJumps(b, from, color, KingOffsets);
  }

  /** The piece on a back-rank square at the start. */
  lemma BackRankPiece(from: Square)
    requires OnBoard(from) && (from.row == 0 || from.row == 7)
    ensures At(InitialBoard(), from) == Some(Piece(BackRank(from.col), if from.row == 7 then White else Black, false))
  {
  }

  /** A knight on its starting square, while its side fills its two home
      ranks, may jump to the two squares in front of the pawns beside its own
      file, and nowhere else. */
  lemma KnightMovesFromHome(b: Board, color: Color, from: Square)
    requires FillsHome(b, color)
    requires from.row == BackRow(color) && (from.col == 1 || from.col == 6)
    requires At(b, from).Some? && At(b, from).value.kind == Knight && At(b, from).value.color == color
    ensures var ahead := StartRow(color) + Forward(color);
      PseudoMoves(b, from) == [Square(ahead, from.col - 1), Square(ahead, from.col + 1)]
  {
    PseudoMovesOfPiece(b, from, At(b, from).value);
    var ahead := StartRow(color) + Forward(color);
    assert Jumps(b, from, color, KnightOffsets) == [Square(ahead, from.col - 1), Square(ahead, from.col + 1)] by {
      forall c | 0 <= c < 8
        ensures ColorAt(b, Square(StartRow(color), c)) == Some(color) && ColorAt(b, Square(ahead, c)) != Some(color)
      {
        assert OnBoard(Square(StartRow(color), c)) && OnBoard(Square(ahead, c));
      }
      if color == White {
        WhiteKnightJumps(b, from);
      } else {
        BlackKnightJumps(b, from);
      }
    }
  }

  /** At the start each knight may jump to the two squares in front of the
      pawns beside its own file, and nowhere else. */
  lemma KnightOpeningMoves(from: Square)
    requires (from.row == 0 || from.row == 7) && (from.col == 1 || from.col == 6)
    ensures var ahead := if from.row == 7 then 5 else 2;
      PseudoMoves(InitialBoard(), from) == [Square(ahead, from.col - 1), Square(ahead, from.col + 1)]
  {
    var color := if from.row == 7 then White else Black;
    BackRankPiece(from);
    StartFillsHome(color);
    KnightMovesFromHome(InitialBoard(), color, from);
  }

  /** While a side's home is as at the start, its rooks, bishops and queen
      on the back rank have no moves. */
  lemma SlidersStuckAtHome(b: Board, from: Square, p: Piece)
    requires HomeAsAtStart(b, p.color)
    requires OnBoard(from) && from.row == BackRow(p.color)
    requires p.kind == Rook || p.kind == Bishop || p.kind == Queen
    ensures PieceMoves(b, from, p) == []
  {
    TablesWellFormed();
    SlidesBlockedAtHome(b, p.color, from, RookDirections);
    SlidesBlockedAtHome(b, p.color, from, BishopDirections);
    AppendNil<Square>([]);
  }

  /** At the start neither king can move. */
  lemma KingStuckAtStart(from: Square)
    requires (from.row == 0 || from.row == 7) && from.col == 4
    ensures PseudoMoves(InitialBoard(), from) == []
  {
    var b := InitialBoard();
    var color := if from.row == 7 then White else Black;
    assert PseudoMoves(b, from) == Jumps(b, from, color, KingOffsets) by {
      BackRankPiece(from);
      PseudoMovesOfPiece(b, from, Piece(King, color, false));
    }
    assert Jumps(b, from, color, KingOffsets) == [] by {
      StartFillsHome(color);
      KingJumpsAtHome(b, color, from);
    }
  }

  /** At the start no rook, bishop or queen can move. */
  lemma SlidersStuckAtStart(from: Square)
    requires OnBoard(from) && (from.row == 0 || from.row == 7) && from.col != 1 && from.col != 4 && from.col != 6
    ensures PseudoMoves(InitialBoard(), from) == []
  {
    var b := InitialBoard();
    var p := Piece(BackRank(from.col), if from.row == 7 then White else Black, false);
    assert At(b, from) == Some(p) by {
      BackRankPiece(from);
    }
    assert PieceMoves(b, from, p) == [] by {
      StartHomes(p.color);
      SlidersStuckAtHome(b, from, p);
    }
  }

  /** Selecting the pawn in front of the white king at the start offers one
      or two squares forward, (5,4) and (4,4), and nothing else. */
  lemma KingPawnOpening()
    ensures KingPresent(InitialBoard(), Square(6, 4))
    ensures LegalMoves(InitialBoard(), Square(6, 4)) == [Square(5, 4), Square(4, 4)]
  {
    StartMovesAllLegal(Square(6, 4));
    PawnOpeningMoves(Square(6, 4));
  }
}
