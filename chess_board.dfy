/** The board model: pieces, squares and the 8x8 grid of optional pieces,
    with the standard starting position. Row 0 is black's back rank and
    row 7 is white's. Pieces are immutable values: a move replaces them. */
module ChessBoard {

  datatype Option<T> = None | Some(value: T)

  datatype Color = White | Black

  function Opponent(c: Color): (o: Color)
    ensures o != c
  {
    if c == White then Black else White
  }

  datatype Kind = Pawn | Knight | Bishop | Rook | Queen | King

  /** `moved` is recorded when a piece moves but never read by the rules. */
  datatype Piece = Piece(kind: Kind, color: Color, moved: bool)

  datatype Square = Square(row: int, col: int)

  predicate OnBoard(sq: Square) {
    0 <= sq.row < 8 && 0 <= sq.col < 8
  }

  type Board = b: seq<seq<Option<Piece>>> | |b| == 8 && forall r :: 0 <= r < 8 ==> |b[r]| == 8
    witness seq(8, _ => seq(8, _ => None))

  function At(b: Board, sq: Square): Option<Piece>
    requires OnBoard(sq)
  {
    b[sq.row][sq.col]
  }

  /** The board with `sq` set to `x`; every other square keeps its content. */
  function Put(b: Board, sq: Square, x: Option<Piece>): (r: Board)
    requires OnBoard(sq)
    ensures At(r, sq) == x
    ensures forall s :: OnBoard(s) && s != sq ==> At(r, s) == At(b, s)
  {
    b[sq.row := b[sq.row][sq.col := x]]
  }

  /** Two boards with the same content on every square are the same board. */
  lemma BoardsEqual(b1: Board, b2: Board)
    requires forall sq :: OnBoard(sq) ==> At(b1, sq) == At(b2, sq)
    ensures b1 == b2
  {
    forall r | 0 <= r < 8 ensures b1[r] == b2[r] {
      forall c | 0 <= c < 8 ensures b1[r][c] == b2[r][c] {
        assert At(b1, Square(r, c)) == At(b2, Square(r, c));
      }
    }
  }

  /** Occupancy as the move generators see it: only the colour of a square's piece. */
  function ColorAt(b: Board, sq: Square): Option<Color>
    requires OnBoard(sq)
  {
    match At(b, sq)
    case None => None
    case Some(p) => Some(p.color)
  }

  predicate IsEmpty(b: Board, sq: Square) {
    OnBoard(sq) && ColorAt(b, sq) == None
  }

  predicate HoldsColor(b: Board, sq: Square, color: Color) {
    OnBoard(sq) && ColorAt(b, sq) == Some(color)
  }

  predicate HoldsEnemy(b: Board, sq: Square, color: Color) {
    OnBoard(sq) && ColorAt(b, sq).Some? && ColorAt(b, sq).value != color
  }

  /** A square a piece of `color` may land on: on the board and not holding a friendly piece. */
  predicate EmptyOrEnemy(b: Board, sq: Square, color: Color) {
    OnBoard(sq) && ColorAt(b, sq) != Some(color)
  }

  predicate IsKingOf(x: Option<Piece>, color: Color) {
    x.Some? && x.value.kind == King && x.value.color == color
  }

  ghost predicate HasKing(b: Board, color: Color) {
    exists sq :: OnBoard(sq) && IsKingOf(At(b, sq), color)
  }

  /** Two boards whose squares hold the same colours (kinds and flags may differ). */
  ghost predicate SameColors(b1: Board, b2: Board) {
    forall sq :: OnBoard(sq) ==> ColorAt(b1, sq) == ColorAt(b2, sq)
  }

  /** The piece order of both back ranks, file a to file h. */
  function BackRank(col: int): Kind {
    if col == 0 || col == 7 then Rook
    else if col == 1 || col == 6 then Knight
    else if col == 2 || col == 5 then Bishop
    else if col == 3 then Queen
    else King
  }

  function StartingPiece(row: int, col: int): Option<Piece> {
    if row == 0 then Some(Piece(BackRank(col), Black, false))
    else if row == 1 then Some(Piece(Pawn, Black, false))
    else if row == 6 then Some(Piece(Pawn, White, false))
    else if row == 7 then Some(Piece(BackRank(col), White, false))
    else None
  }

  /** The standard starting position: black on rows 0-1, white on rows 6-7. */
  function InitialBoard(): (b: Board)
    ensures forall sq :: OnBoard(sq) ==> (ColorAt(b, sq) == Some(Black) <==> sq.row <= 1)
    ensures forall sq :: OnBoard(sq) ==> (ColorAt(b, sq) == Some(White) <==> sq.row >= 6)
    ensures forall sq :: OnBoard(sq) ==> (IsKingOf(At(b, sq), Black) <==> sq == Square(0, 4))
    ensures forall sq :: OnBoard(sq) ==> (IsKingOf(At(b, sq), White) <==> sq == Square(7, 4))
    ensures forall sq :: OnBoard(sq) && (sq.row == 1 || sq.row == 6) ==> At(b, sq).Some? && At(b, sq).value.kind == Pawn
    ensures forall sq :: OnBoard(sq) && At(b, sq).Some? ==> !At(b, sq).value.moved
    ensures forall c :: 0 <= c < 8 ==>
      At(b, Square(0, c)) == Some(Piece(BackRank(c), Black, false))
      && At(b, Square(7, c)) == Some(Piece(BackRank(c), White, false))
  {
    seq(8, r => seq(8, c => StartingPiece(r, c)))
  }
}
