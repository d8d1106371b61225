/** Pseudo-legal move generation: for the piece on a square, the squares its
    movement pattern reaches, ignoring whether its own king is left in check.
    Each generator is a function (its specification, listing destinations in
    the order the program pushes them) and a method with the program's loops. */
module MoveGen {
  import opened ChessBoard

  datatype Offset = Offset(dr: int, dc: int)

  function Shift(sq: Square, o: Offset): Square {
    Square(sq.row + o.dr, sq.col + o.dc)
  }

  /** One of the eight king-step directions a slider travels along. */
  predicate IsUnit(d: Offset) {
    -1 <= d.dr <= 1 && -1 <= d.dc <= 1 && d != Offset(0, 0)
  }

  const RookDirections: seq<Offset> := [Offset(0, 1), Offset(0, -1), Offset(1, 0), Offset(-1, 0)]
  const BishopDirections: seq<Offset> := [Offset(1, 1), Offset(1, -1), Offset(-1, 1), Offset(-1, -1)]
  const KnightOffsets: seq<Offset> :=
    [Offset(-2, -1), Offset(-2, 1), Offset(-1, -2), Offset(-1, 2),
     Offset(1, -2), Offset(1, 2), Offset(2, -1), Offset(2, 1)]
  const KingOffsets: seq<Offset> :=
    [Offset(-1, -1), Offset(-1, 0), Offset(-1, 1),
     Offset(0, -1), Offset(0, 1),
     Offset(1, -1), Offset(1, 0), Offset(1, 1)]
  /** The column offsets of a pawn's two diagonal captures. */
  const CaptureSides: seq<int> := [-1, 1]

  /** The direction tables hold unit steps and every offset moves at most two rows. */
  lemma TablesWellFormed()
    ensures forall d :: d in RookDirections ==> IsUnit(d)
    ensures forall d :: d in BishopDirections ==> IsUnit(d)
    ensures forall o :: o in KnightOffsets ==> -2 <= o.dr <= 2
    ensures forall o :: o in KingOffsets ==> -1 <= o.dr <= 1
  {
  }

  /** White pawns move towards row 0, black pawns towards row 7. */
  function Forward(color: Color): int {
    if color == White then -1 else 1
  }

  function StartRow(color: Color): int {
    if color == White then 6 else 1
  }

  // ---------------------------------------------------------------------------
  // Specifications

  /** The single step onto an empty square and, only behind it, the double step
      from the starting row onto an empty square. */
  function PawnPushes(b: Board, from: Square, color: Color): (moves: seq<Square>)
    ensures forall m :: m in moves ==> IsEmpty(b, m)
  {
    var ahead := Square(from.row + Forward(color), from.col);
    var twoAhead := Square(from.row + 2 * Forward(color), from.col);
    if IsEmpty(b, ahead) then
      [ahead] + (if from.row == StartRow(color) && IsEmpty(b, twoAhead) then [twoAhead] else [])
    else []
  }

  function PawnCaptures(b: Board, from: Square, color: Color, sides: seq<int>): (moves: seq<Square>)
    ensures forall m :: m in moves ==> HoldsEnemy(b, m, color)
  {
    if sides == [] then []
    else
      var target := Square(from.row + Forward(color), from.col + sides[0]);
      (if HoldsEnemy(b, target, color) then [target] else []) + PawnCaptures(b, from, color, sides[1..])
  }

  function PawnMoves(b: Board, from: Square, color: Color): (moves: seq<Square>)
    ensures forall m :: m in moves ==> EmptyOrEnemy(b, m, color)
  {
    PawnPushes(b, from, color) + PawnCaptures(b, from, color, CaptureSides)
  }

  /** Measure of how far `sq` is from leaving the board along `d`. */
  function RayBound(sq: Square, d: Offset): int {
    (if d.dr == 1 then 8 - sq.row else if d.dr == -1 then sq.row + 1 else 0)
    + (if d.dc == 1 then 8 - sq.col else if d.dc == -1 then sq.col + 1 else 0)
  }

  /** The squares a slider reaches from `sq` onwards along `d`: empty squares,
      then the first occupied square if it holds an enemy, then nothing. */
  function Ray(b: Board, color: Color, sq: Square, d: Offset): (moves: seq<Square>)
    requires IsUnit(d)
    ensures forall m :: m in moves ==> EmptyOrEnemy(b, m, color)
    decreases RayBound(sq, d)
  {
    if !OnBoard(sq) then []
    else if ColorAt(b, sq) == None then [sq] + Ray(b, color, Shift(sq, d), d)
    else if ColorAt(b, sq) != Some(color) then [sq]
    else []
  }

  function Slides(b: Board, from: Square, color: Color, dirs: seq<Offset>): (moves: seq<Square>)
    requires forall d :: d in dirs ==> IsUnit(d)
    ensures forall m :: m in moves ==> EmptyOrEnemy(b, m, color)
  {
    if dirs == [] then []
    else Ray(b, color, Shift(from, dirs[0]), dirs[0]) + Slides(b, from, color, dirs[1..])
  }

  /** The squares at the given offsets that are on the board and not friendly. */
  function Jumps(b: Board, from: Square, color: Color, offsets: seq<Offset>): (moves: seq<Square>)
    ensures forall m :: m in moves ==> EmptyOrEnemy(b, m, color)
  {
    if offsets == [] then []
    else
      var target := Shift(from, offsets[0]);
      (if EmptyOrEnemy(b, target, color) then [target] else []) + Jumps(b, from, color, offsets[1..])
  }

  function RookMoves(b: Board, from: Square, color: Color): seq<Square> {
    Slides(b, from, color, RookDirections)
  }

  function BishopMoves(b: Board, from: Square, color: Color): seq<Square> {
    Slides(b, from, color, BishopDirections)
  }

  function QueenMoves(b: Board, from: Square, color: Color): seq<Square> {
    RookMoves(b, from, color) + BishopMoves(b, from, color)
  }

  function KnightMoves(b: Board, from: Square, color: Color): seq<Square> {
    Jumps(b, from, color, KnightOffsets)
  }

  function KingMoves(b: Board, from: Square, color: Color): seq<Square> {
    Jumps(b, from, color, KingOffsets)
  }

  /** Dispatch on the kind of piece `p` standing on `from`. */
  function PieceMoves(b: Board, from: Square, p: Piece): (moves: seq<Square>)
    ensures forall m :: m in moves ==> EmptyOrEnemy(b, m, p.color)
  {
    match p.kind
    case Pawn => PawnMoves(b, from, p.color)
    case Rook => RookMoves(b, from, p.color)
    case Knight => KnightMoves(b, from, p.color)
    case Bishop => BishopMoves(b, from, p.color)
    case Queen => QueenMoves(b, from, p.color)
    case King => KingMoves(b, from, p.color)
  }

  /** The pseudo-legal destinations of whatever stands on `from`: none for an
      empty square; otherwise on-board squares other than `from` that do not
      hold a piece of the mover's colour. */
  function PseudoMoves(b: Board, from: Square): (moves: seq<Square>)
    requires OnBoard(from)
    ensures At(b, from).None? ==> moves == []
    ensures At(b, from).Some? ==>
      forall m :: m in moves ==> OnBoard(m) && m != from && EmptyOrEnemy(b, m, At(b, from).value.color)
  {
    match At(b, from)
    case None => []
    case Some(p) => PieceMoves(b, from, p)
  }

  // ---------------------------------------------------------------------------
  // The generators as the program runs them

  /** Regrouping a concatenation, stated once so that the loops below need not rediscover it. */
  lemma AppendAssoc(a: seq<Square>, b: seq<Square>, c: seq<Square>)
    ensures (a + b) + c == a + (b + c)
  {
  }

  lemma AppendNil<T>(a: seq<T>)
    ensures a + [] == a && [] + a == a
  {
  }

  /** getPawnMoves: the pushes, then the captures to the left and to the right. */
  method GetPawnMoves(b: Board, from: Square, piece: Piece) returns (moves: seq<Square>)
    requires OnBoard(from)
    ensures moves == PawnMoves(b, from, piece.color)
  {
    moves := [];
    var direction := Forward(piece.color);
    var startRow := StartRow(piece.color);
    var ahead := Square(from.row + direction, from.col);
    if 0 <= ahead.row < 8 && At(b, ahead).None? {
      moves := moves + [ahead];
      var twoAhead := Square(from.row + 2 * direction, from.col);
      if from.row == startRow && At(b, twoAhead).None? {
        moves := moves + [twoAhead];
      }
    }
    assert moves == PawnPushes(b, from, piece.color);
    var captures := PawnCaptureMoves(b, from, piece.color);
    moves := moves + captures;
  }

  /** The pawn's capture loop over the two diagonal sides. */
  method PawnCaptureMoves(b: Board, from: Square, color: Color) returns (moves: seq<Square>)
    requires OnBoard(from)
    ensures moves == PawnCaptures(b, from, color, CaptureSides)
  {
    moves := [];
    for i := 0 to |CaptureSides|
      invariant moves + PawnCaptures(b, from, color, CaptureSides[i..]) == PawnCaptures(b, from, color, CaptureSides)
    {
      var target := Square(from.row + Forward(color), from.col + CaptureSides[i]);
      ghost var done := moves;
      assert CaptureSides[i..][1..] == CaptureSides[i + 1..];
      ghost var step := if HoldsEnemy(b, target, color) then [target] else [];
      assert PawnCaptures(b, from, color, CaptureSides[i..])
        == step + PawnCaptures(b, from, color, CaptureSides[i + 1..]);
      if 0 <= target.col < 8 && 0 <= target.row < 8 {
        var occupant := At(b, target);
        if occupant.Some? && occupant.value.color != color {
          moves := moves + [target];
        }
      }
      assert moves == done + step;
      AppendAssoc(done, step, PawnCaptures(b, from, color, CaptureSides[i + 1..]));
    }
  }

  /** The inner loop of the sliding generators: walk from `start` along `d`,
      collecting empty squares, stopping at the edge or at the first occupied
      square, which is kept when it holds an enemy. */
  method WalkRay(b: Board, color: Color, start: Square, d: Offset) returns (ray: seq<Square>)
    requires IsUnit(d)
    ensures ray == Ray(b, color, start, d)
  {
    ray := [];
    var sq := start;
    while 0 <= sq.row < 8 && 0 <= sq.col < 8
      invariant ray + Ray(b, color, sq, d) == Ray(b, color, start, d)
      decreases RayBound(sq, d)
    {
      var occupant := At(b, sq);
      if occupant.Some? {
        if occupant.value.color != color {
          ray := ray + [sq];
        }
        return;
      }
      AppendAssoc(ray, [sq], Ray(b, color, Shift(sq, d), d));
      ray := ray + [sq];
      sq := Shift(sq, d);
    }
  }

  /** The sliding loop shared by rooks and bishops: one ray per direction. */
  method SlideMoves(b: Board, from: Square, color: Color, dirs: seq<Offset>) returns (moves: seq<Square>)
    requires forall d :: d in dirs ==> IsUnit(d)
    ensures moves == Slides(b, from, color, dirs)
  {
    moves := [];
    for i := 0 to |dirs|
      invariant moves + Slides(b, from, color, dirs[i..]) == Slides(b, from, color, dirs)
    {
      assert dirs[i..][1..] == dirs[i + 1..];
      var ray := WalkRay(b, color, Shift(from, dirs[i]), dirs[i]);
      AppendAssoc(moves, ray, Slides(b, from, color, dirs[i + 1..]));
      moves := moves + ray;
    }
  }

  /** The fixed-offset loop shared by knights and kings. */
  method JumpMoves(b: Board, from: Square, color: Color, offsets: seq<Offset>) returns (moves: seq<Square>)
    ensures moves == Jumps(b, from, color, offsets)
  {
    moves := [];
    for i := 0 to |offsets|
      invariant moves + Jumps(b, from, color, offsets[i..]) == Jumps(b, from, color, offsets)
    {
      var target := Shift(from, offsets[i]);
      ghost var done := moves;
      assert offsets[i..][1..] == offsets[i + 1..];
      ghost var step := if EmptyOrEnemy(b, target, color) then [target] else [];
      assert Jumps(b, from, color, offsets[i..]) == step + Jumps(b, from, color, offsets[i + 1..]);
      if 0 <= target.row < 8 && 0 <= target.col < 8 {
        var occupant := At(b, target);
        if occupant.None? || occupant.value.color != color {
          moves := moves + [target];
        }
      }
      assert moves == done + step;
      AppendAssoc(done, step, Jumps(b, from, color, offsets[i + 1..]));
    }
  }

  method GetRookMoves(b: Board, from: Square, piece: Piece) returns (moves: seq<Square>)
    ensures moves == RookMoves(b, from, piece.color)
  {
    moves := SlideMoves(b, from, piece.color, RookDirections);
  }

  method GetBishopMoves(b: Board, from: Square, piece: Piece) returns (moves: seq<Square>)
    ensures moves == BishopMoves(b, from, piece.color)
  {
    moves := SlideMoves(b, from, piece.color, BishopDirections);
  }

  method GetQueenMoves(b: Board, from: Square, piece: Piece) returns (moves: seq<Square>)
    ensures moves == QueenMoves(b, from, piece.color)
  {
    var straight := GetRookMoves(b, from, piece);
    var diagonal := GetBishopMoves(b, from, piece);
    moves := straight + diagonal;
  }

  method GetKnightMoves(b: Board, from: Square, piece: Piece) returns (moves: seq<Square>)
    ensures moves == KnightMoves(b, from, piece.color)
  {
    moves := JumpMoves(b, from, piece.color, KnightOffsets);
  }

  method GetKingMoves(b: Board, from: Square, piece: Piece) returns (moves: seq<Square>)
    ensures moves == KingMoves(b, from, piece.color)
  {
    moves := JumpMoves(b, from, piece.color, KingOffsets);
  }
}
