/** The attack oracle and the legality filter. As in the program they are
    mutually recursive through the `checkForCheck` flag: the filter asks the
    oracle about the mover's king, and the oracle asks for unfiltered moves. */
module Rules {
  import opened ChessBoard
  import opened MoveGen

  /** Row-major order, the order in which the program's nested scans visit squares. */
  predicate Precedes(a: Square, b: Square) {
    a.row < b.row || (a.row == b.row && a.col < b.col)
  }

  /** The first king of `color` at or after (r, c) in row-major order. */
  ghost function FindKingFrom(b: Board, color: Color, r: int, c: int): (k: Option<Square>)
    requires 0 <= r <= 8 && 0 <= c <= 8
    ensures k.Some? ==> OnBoard(k.value) && IsKingOf(At(b, k.value), color) && !Precedes(k.value, Square(r, c))
    ensures forall s :: OnBoard(s) && !Precedes(s, Square(r, c)) && (k.None? || Precedes(s, k.value))
                        ==> !IsKingOf(At(b, s), color)
    decreases 8 - r, 8 - c
  {
    if r == 8 then None
    else if c == 8 then FindKingFrom(b, color, r + 1, 0)
    else if IsKingOf(At(b, Square(r, c)), color) then Some(Square(r, c))
    else FindKingFrom(b, color, r, c + 1)
  }

  /** The square of the first king of `color` in row-major order, if there is one. */
  ghost function FindKing(b: Board, color: Color): (k: Option<Square>)
    ensures k.Some? <==> HasKing(b, color)
    ensures k.Some? ==> OnBoard(k.value) && IsKingOf(At(b, k.value), color)
    ensures k.Some? ==> forall s :: OnBoard(s) && Precedes(s, k.value) ==> !IsKingOf(At(b, s), color)
  {
    FindKingFrom(b, color, 0, 0)
  }

  /** The attack oracle: some piece of `byColor` has `target` among its pseudo-legal
      destinations. A pawn therefore attacks a square ahead of it when that
      square is empty, and a diagonal square only when it holds an enemy. */
  ghost predicate Attacked(b: Board, target: Square, byColor: Color) {
    exists sq :: HoldsColor(b, sq, byColor) && target in PseudoMoves(b, sq)
  }

  /** The scratch copy the filter builds: the piece on `from` placed on `to` and
      `from` emptied, with no capture bookkeeping, promotion or `moved` flag. */
  function Relocate(b: Board, from: Square, to: Square): Board
    requires OnBoard(from) && OnBoard(to)
  {
    Put(Put(b, to, At(b, from)), from, None)
  }

  /** Moving from `from` to `to` leaves a king of `color` on the board and the
      first one found not attacked by the opponent. */
  ghost predicate Safe(b: Board, from: Square, to: Square, color: Color)
    requires OnBoard(from) && OnBoard(to)
  {
    var copy := Relocate(b, from, to);
    var king := FindKing(copy, color);
    king.Some? && !Attacked(copy, king.value, Opponent(color))
  }

  /** The candidates that are safe, in their original order. */
  ghost function KeepSafe(b: Board, from: Square, color: Color, candidates: seq<Square>): (kept: seq<Square>)
    requires OnBoard(from)
    requires forall m :: m in candidates ==> OnBoard(m)
    ensures forall m :: m in kept <==> m in candidates && Safe(b, from, m, color)
  {
    if candidates == [] then []
    else (if Safe(b, from, candidates[0], color) then [candidates[0]] else [])
         + KeepSafe(b, from, color, candidates[1..])
  }

  /** When every candidate is safe the filter keeps them all. */
  lemma {:induction false} KeepSafeAll(b: Board, from: Square, color: Color, candidates: seq<Square>)
    requires OnBoard(from)
    requires forall m :: m in candidates ==> OnBoard(m) && Safe(b, from, m, color)
    ensures KeepSafe(b, from, color, candidates) == candidates
  {
    if candidates != [] {
      var head, rest := candidates[0], candidates[1..];
      assert candidates == [head] + rest;
      assert Safe(b, from, head, color);
      KeepSafeAll(b, from, color, rest);
      assert KeepSafe(b, from, color, candidates) == [head] + KeepSafe(b, from, color, rest);
    }
  }

  /** The program looks up the mover's king on every candidate board and fails
      when there is none: the filter is only asked about pieces whose king is present. */
  ghost predicate KingPresent(b: Board, from: Square)
    requires OnBoard(from)
  {
    At(b, from).Some? ==> HasKing(b, At(b, from).value.color)
  }

  /** The legal destinations: the pseudo-legal ones after which the mover's king is not attacked. */
  ghost function LegalMoves(b: Board, from: Square): (moves: seq<Square>)
    requires OnBoard(from) && KingPresent(b, from)
    ensures At(b, from).None? ==> moves == []
    ensures At(b, from).Some? ==>
      forall m :: m in moves <==> m in PseudoMoves(b, from) && Safe(b, from, m, At(b, from).value.color)
  {
    match At(b, from)
    case None => []
    case Some(p) => KeepSafe(b, from, p.color, PieceMoves(b, from, p))
  }

  /** The side to move is in check: its king is attacked by the other side. */
  ghost predicate InCheck(b: Board, player: Color)
    requires HasKing(b, player)
  {
    Attacked(b, FindKing(b, player).value, Opponent(player))
  }

  /** Some piece of `player` has a legal destination. */
  ghost predicate HasLegalMove(b: Board, player: Color)
    requires HasKing(b, player)
  {
    exists sq :: HoldsColor(b, sq, player) && LegalMoves(b, sq) != []
  }

  /** A position the game can be in with `toMove` to play: both kings are on the
      board, and the king of the side that has just moved is not attacked. */
  ghost predicate LegalPosition(b: Board, toMove: Color) {
    HasKing(b, White) && HasKing(b, Black)
    && !Attacked(b, FindKing(b, Opponent(toMove)).value, toMove)
  }

  /** On the filter's scratch copy the mover's king is still on the board: a
      pseudo-legal destination never holds a friendly piece, so the relocated
      piece cannot land on its own king. */
  lemma KingSurvivesRelocation(b: Board, from: Square, to: Square)
    requires OnBoard(from) && At(b, from).Some? && HasKing(b, At(b, from).value.color)
    requires to in PseudoMoves(b, from)
    ensures OnBoard(to) && HasKing(Relocate(b, from, to), At(b, from).value.color)
  {
    var color := At(b, from).value.color;
    var copy := Relocate(b, from, to);
    var k :| OnBoard(k) && IsKingOf(At(b, k), color);
    if k == from {
      assert IsKingOf(At(copy, to), color);
    } else {
      assert k != to;
      assert IsKingOf(At(copy, k), color);
    }
  }

  // ---------------------------------------------------------------------------
  // The scans as the program runs them

  /** The nested row-major scan with `break`s that looks up a king. */
  method LocateKing(b: Board, color: Color) returns (kingPos: Option<Square>)
    ensures kingPos == FindKing(b, color)
  {
    kingPos := None;
    for r := 0 to 8
      invariant kingPos.None? && FindKingFrom(b, color, r, 0) == FindKing(b, color)
    {
      for c := 0 to 8
        invariant kingPos.None? && FindKingFrom(b, color, r, c) == FindKing(b, color)
      {
        var occupant := At(b, Square(r, c));
        if occupant.Some? && occupant.value.kind == King && occupant.value.color == color {
          kingPos := Some(Square(r, c));
          break;
        }
      }
      if kingPos.Some? {
        break;
      }
    }
  }

  /** isSquareUnderAttack: scan every square for a piece of `byColor` that has
      `target` among its unfiltered destinations, returning at the first one. */
  method IsSquareUnderAttack(b: Board, target: Square, byColor: Color) returns (attacked: bool)
    ensures attacked == Attacked(b, target, byColor)
    decreases 1
  {
    for r := 0 to 8
      invariant forall s :: HoldsColor(b, s, byColor) && s.row < r ==> target !in PseudoMoves(b, s)
    {
      for c := 0 to 8
        invariant forall s :: HoldsColor(b, s, byColor) && Precedes(s, Square(r, c)) ==> target !in PseudoMoves(b, s)
      {
        var sq := Square(r, c);
        var piece := At(b, sq);
        if piece.Some? && piece.value.color == byColor {
          var moves := GetValidMovesForPiece(b, sq, false);
          if target in moves {
            assert HoldsColor(b, sq, byColor);
            return true;
          }
        }
        forall s | HoldsColor(b, s, byColor) && Precedes(s, Square(r, c + 1))
          ensures target !in PseudoMoves(b, s)
        {
          if s != sq {
            assert Precedes(s, Square(r, c));
          }
        }
      }
    }
    return false;
  }

  /** The filter's callback for one candidate: copy the board, relocate the
      piece, look up the mover's king on the copy and ask whether it is attacked. */
  method LeavesKingSafe(b: Board, from: Square, to: Square) returns (safe: bool)
    requires OnBoard(from) && At(b, from).Some? && HasKing(b, At(b, from).value.color)
    requires to in PseudoMoves(b, from)
    ensures OnBoard(to) && safe == Safe(b, from, to, At(b, from).value.color)
    decreases 2
  {
    var piece := At(b, from).value;
    var copy := b;
    copy := Put(copy, to, At(copy, from));
    copy := Put(copy, from, None);
    assert copy == Relocate(b, from, to);
    KingSurvivesRelocation(b, from, to);
    var kingPos := LocateKing(copy, piece.color);
    var attacked := IsSquareUnderAttack(copy, kingPos.value, Opponent(piece.color));
    safe := !attacked;
  }

  /** The program's `filter` over the candidates: keep those for which the
      callback finds the mover's king safe, in their original order. */
  method FilterSafeMoves(b: Board, from: Square, candidates: seq<Square>) returns (kept: seq<Square>)
    requires OnBoard(from) && At(b, from).Some? && HasKing(b, At(b, from).value.color)
    requires forall m :: m in candidates ==> OnBoard(m) && m in PseudoMoves(b, from)
    ensures kept == KeepSafe(b, from, At(b, from).value.color, candidates)
    decreases 3
  {
    var color := At(b, from).value.color;
    kept := [];
    for i := 0 to |candidates|
      invariant kept + KeepSafe(b, from, color, candidates[i..]) == KeepSafe(b, from, color, candidates)
    {
      var to := candidates[i];
      ghost var done := kept;
      assert candidates[i..][1..] == candidates[i + 1..];
      ghost var step := if Safe(b, from, to, color) then [to] else [];
      assert KeepSafe(b, from, color, candidates[i..]) == step + KeepSafe(b, from, color, candidates[i + 1..]);
      var safe := LeavesKingSafe(b, from, to);
      if safe {
        kept := kept + [to];
        assert step == [to];
      } else {
        assert step == [];
        AppendNil(done);
      }
      AppendAssoc(done, step, KeepSafe(b, from, color, candidates[i + 1..]));
    }
  }

  /** getValidMovesForPiece: dispatch on the piece's kind and, when
      `checkForCheck` is set, keep only the destinations after which the
      mover's king, looked up on a relocated copy, is not attacked. */
  method GetValidMovesForPiece(b: Board, from: Square, checkForCheck: bool) returns (moves: seq<Square>)
    requires OnBoard(from)
    requires checkForCheck ==> KingPresent(b, from)
    ensures moves == if checkForCheck then LegalMoves(b, from) else PseudoMoves(b, from)
    decreases if checkForCheck then 4 else 0
  {
    var occupant := At(b, from);
    if occupant.None? {
      return [];
    }
    var piece := occupant.value;
    match piece.kind {
      case Pawn => moves := GetPawnMoves(b, from, piece);
      case Rook => moves := GetRookMoves(b, from, piece);
      case Knight => moves := GetKnightMoves(b, from, piece);
      case Bishop => moves := GetBishopMoves(b, from, piece);
      case Queen => moves := GetQueenMoves(b, from, piece);
      case King => moves := GetKingMoves(b, from, piece);
    }
    assert moves == PseudoMoves(b, from);
    if checkForCheck {
      moves := FilterSafeMoves(b, from, moves);
    }
  }
}
