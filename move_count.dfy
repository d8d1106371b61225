/** How many legal moves a side has, counted square by square in the order in
    which the checkmate test scans the board. The count is positive exactly
    when the side has a legal move, and at the start each side has twenty. */
module MoveCount {
  import opened ChessBoard
  import opened MoveGen
  import opened Rules
  import opened InitialPosition

  /** The square the row-by-row, column-by-column scan visits `i`-th. */
  function ScanSquare(i: int): (sq: Square)
    requires 0 <= i < 64
    ensures OnBoard(sq) && 8 * sq.row + sq.col == i
  {
    Square(i / 8, i % 8)
  }

  /** For each square in scan order: the number of legal moves of the piece
      standing there if it is `player`'s, otherwise zero. */
  ghost function MovesPerSquare(b: Board, player: Color): (counts: seq<nat>)
    requires HasKing(b, player)
    ensures |counts| == 64
  {
    seq(64, i requires 0 <= i < 64 =>
      var sq := ScanSquare(i);
      if HoldsColor(b, sq, player) then |LegalMoves(b, sq)| else 0)
  }

  /** An on-board square is visited at index 8 * row + col. */
  lemma ScanSquareOf(sq: Square)
    requires OnBoard(sq)
    ensures ScanSquare(8 * sq.row + sq.col) == sq
  {
  }

  lemma MovesPerSquareAt(b: Board, player: Color, i: int)
    requires HasKing(b, player) && 0 <= i < 64
    ensures var sq := ScanSquare(i);
      MovesPerSquare(b, player)[i] == if HoldsColor(b, sq, player) then |LegalMoves(b, sq)| else 0
  {
  }

  function Sum(s: seq<nat>): nat {
    if s == [] then 0 else s[0] + Sum(s[1..])
  }

  /** The number of legal moves `player` has on `b`. */
  ghost function LegalMoveCount(b: Board, player: Color): nat
    requires HasKing(b, player)
  {
    Sum(MovesPerSquare(b, player))
  }

  /** A sum of counts is positive exactly when one of the counts is. */
  lemma {:induction false} SumPositiveIff(s: seq<nat>)
    ensures Sum(s) > 0 <==> exists i :: 0 <= i < |s| && s[i] > 0
  {
    if s != [] {
      SumPositiveIff(s[1..]);
      if s[0] == 0 && Sum(s) > 0 {
        var j :| 0 <= j < |s| - 1 && s[1..][j] > 0;
        assert s[j + 1] > 0;
      }
      if exists i :: 0 <= i < |s| && s[i] > 0 {
        var i :| 0 <= i < |s| && s[i] > 0;
        if i > 0 {
          assert s[1..][i - 1] > 0;
        }
      }
    }
  }

  /** Every piece of `player` with a legal move adds to the count. */
  lemma LegalMoveCounted(b: Board, player: Color, sq: Square)
    requires HasKing(b, player) && HoldsColor(b, sq, player) && LegalMoves(b, sq) != []
    ensures LegalMoveCount(b, player) > 0
  {
    var i := 8 * sq.row + sq.col;
    ScanSquareOf(sq);
    MovesPerSquareAt(b, player, i);
    SumPositiveIff(MovesPerSquare(b, player));
  }

  /** A positive count comes from some piece of `player` with a legal move. */
  lemma CountedMoveExists(b: Board, player: Color)
    requires HasKing(b, player) && LegalMoveCount(b, player) > 0
    ensures HasLegalMove(b, player)
  {
    var counts := MovesPerSquare(b, player);
    SumPositiveIff(counts);
    var i :| 0 <= i < 64 && counts[i] > 0;
    MovesPerSquareAt(b, player, i);
    assert HoldsColor(b, ScanSquare(i), player);
  }

  /** The checkmate test finds a legal move exactly when the count is positive. */
  lemma HasLegalMoveIffCount(b: Board, player: Color)
    requires HasKing(b, player)
    ensures HasLegalMove(b, player) <==> LegalMoveCount(b, player) > 0
  {
    if HasLegalMove(b, player) {
      var sq :| HoldsColor(b, sq, player) && LegalMoves(b, sq) != [];
      LegalMoveCounted(b, player, sq);
    }
    if LegalMoveCount(b, player) > 0 {
      CountedMoveExists(b, player);
    }
  }

  /** The legal moves of one square at the start: two for each pawn and each
      knight, none for any other square. */
  lemma OpeningSquareCount(sq: Square)
    requires OnBoard(sq)
    ensures KingPresent(InitialBoard(), sq)
    ensures |LegalMoves(InitialBoard(), sq)|
      == if sq.row == 1 || sq.row == 6 || ((sq.row == 0 || sq.row == 7) && (sq.col == 1 || sq.col == 6)) then 2 else 0
  {
    StartMovesAllLegal(sq);
    if sq.row == 1 || sq.row == 6 {
      PawnOpeningMoves(sq);
    } else if sq.row == 0 || sq.row == 7 {
      if sq.col == 1 || sq.col == 6 {
        KnightOpeningMoves(sq);
      } else if sq.col == 4 {
        KingStuckAtStart(sq);
      } else {
        SlidersStuckAtStart(sq);
      }
    } else {
      assert ColorAt(InitialBoard(), sq) == None;
    }
  }

  /** At the start, the moves of `color` on the square with scan index `i`:
      two on its pawn rank and on its knights' squares, none elsewhere. */
  function OpeningMovesAt(color: Color, i: int): nat {
    var pawns := 8 * StartRow(color);
    var back := 8 * BackRow(color);
    if pawns <= i < pawns + 8 || i == back + 1 || i == back + 6 then 2 else 0
  }

  /** The opening moves of `color` on the squares with scan index `i` or more. */
  function OpeningMovesFrom(color: Color, i: int): int {
    var pawns := 8 * StartRow(color);
    var back := 8 * BackRow(color);
    (if i <= pawns then 16 else if i < pawns + 8 then 2 * (pawns + 8 - i) else 0)
    + (if i <= back + 1 then 4 else if i <= back + 6 then 2 else 0)
  }

  lemma {:induction false} OpeningSum(color: Color, counts: seq<nat>, k: int)
    requires |counts| == 64 && 0 <= k <= 64
    requires forall i :: 0 <= i < 64 ==> counts[i] == OpeningMovesAt(color, i)
    ensures Sum(counts[k..]) == OpeningMovesFrom(color, k)
    decreases 64 - k
  {
    if k < 64 {
      OpeningSum(color, counts, k + 1);
      assert counts[k..][1..] == counts[k + 1..];
    }
  }

  /** At the start `color` has exactly twenty legal moves: sixteen pawn moves
      and four knight moves. */
  lemma OpeningCount(color: Color)
    ensures HasKing(InitialBoard(), color)
    ensures LegalMoveCount(InitialBoard(), color) == 20
  {
    var b := InitialBoard();
    assert IsKingOf(At(b, Square(BackRow(color), 4)), color);
    var counts := MovesPerSquare(b, color);
    forall i | 0 <= i < 64 ensures counts[i] == OpeningMovesAt(color, i) {
      var sq := ScanSquare(i);
      MovesPerSquareAt(b, color, i);
      OpeningSquareCount(sq);
      assert HoldsColor(b, sq, color) <==> sq.row == BackRow(color) || sq.row == StartRow(color);
    }
    OpeningSum(color, counts, 0);
    assert counts[0..] == counts;
  }
}
