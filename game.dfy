/** The game component: its state (board, selection, side to move, captured
    pieces, move history, check and checkmate flags), the click handler
    that selects pieces and makes moves, the check and checkmate detector
    run after every move, and the reset. What a click does is specified on
    snapshots of the state; the class carries it out field by field. */
module Game {
  import opened ChessBoard
  import opened MoveGen
  import opened Rules
  import opened Moves
  import opened InitialPosition

  /** One entry of the move history: the kind is the mover's before promotion. */
  datatype MoveRecord = MoveRecord(from: Square, to: Square, piece: Kind, captured: Option<Kind>)

  /** The whole state of the component except the clocks. */
  datatype Snapshot = Snapshot(
    board: Board, selectedSquare: Option<Square>, currentPlayer: Color, validMoves: seq<Square>,
    capturedByWhite: seq<Piece>, capturedByBlack: seq<Piece>, moveHistory: seq<MoveRecord>,
    isCheck: bool, isCheckmate: bool)

  function KindOf(x: Option<Piece>): Option<Kind> {
    match x
    case None => None
    case Some(p) => Some(p.kind)
  }

  function PieceList(x: Option<Piece>): seq<Piece> {
    match x
    case None => []
    case Some(p) => [p]
  }

  /** The state the game starts in and returns to on reset. */
  function InitialState(): Snapshot {
    Snapshot(InitialBoard(), None, White, [], [], [], [], false, false)
  }

  /** What holds between clicks: the position is legal with the side to move
      to play and no pawn stands on an end rank; a selection is a piece of
      the side to move together with its legal destinations; the check flag
      is accurate and checkmate means check with no legal move; the side to
      move alternates with the history; each side has captured only pieces
      of the other colour. */
  ghost predicate ValidState(s: Snapshot) {
    && LegalPosition(s.board, s.currentPlayer)
    && NoPawnOnEndRank(s.board)
    && (s.selectedSquare.Some? ==>
          HoldsColor(s.board, s.selectedSquare.value, s.currentPlayer)
          && s.validMoves == LegalMoves(s.board, s.selectedSquare.value))
    && (s.selectedSquare.None? ==> s.validMoves == [])
    && s.isCheck == InCheck(s.board, s.currentPlayer)
    && (s.isCheckmate <==> s.isCheck && !HasLegalMove(s.board, s.currentPlayer))
    && (s.isCheckmate ==> s.selectedSquare.None?)
    && (s.currentPlayer == White <==> |s.moveHistory| % 2 == 0)
    && (forall p :: p in s.capturedByWhite ==> p.color == Black)
    && (forall p :: p in s.capturedByBlack ==> p.color == White)
  }

  /** The move branch of a click before check detection: the capture is
      recorded for the mover, the piece moves (a pawn reaching an end rank
      becomes a queen), the move is appended to the history and the turn
      passes. The selection is left for the caller to clear. */
  function Played(s: Snapshot, from: Square, to: Square): Snapshot
    requires OnBoard(from) && OnBoard(to) && At(s.board, from).Some?
  {
    var taken := At(s.board, to);
    s.(board := ApplyMove(s.board, from, to),
       currentPlayer := Opponent(s.currentPlayer),
       moveHistory := s.moveHistory + [MoveRecord(from, to, At(s.board, from).value.kind, KindOf(taken))],
       capturedByWhite := s.capturedByWhite + (if s.currentPlayer == White then PieceList(taken) else []),
       capturedByBlack := s.capturedByBlack + (if s.currentPlayer == Black then PieceList(taken) else []))
  }

  /** The state after the move from `from` to `to`, with the check flags
      recomputed for the side that now moves; a checkmate once found stays. */
  ghost function AfterMove(s: Snapshot, from: Square, to: Square): Snapshot
    requires OnBoard(from) && OnBoard(to) && from != to && At(s.board, from).Some?
    requires HasKing(ApplyMove(s.board, from, to), Opponent(s.currentPlayer))
  {
    var p := Played(s, from, to);
    var check := InCheck(p.board, p.currentPlayer);
    p.(isCheck := check, isCheckmate := s.isCheckmate || (check && !HasLegalMove(p.board, p.currentPlayer)))
  }

  /** The state after a move, field by field. */
  lemma AfterMoveFields(s: Snapshot, from: Square, to: Square, t: Snapshot)
    requires OnBoard(from) && OnBoard(to) && from != to && At(s.board, from).Some?
    requires HasKing(ApplyMove(s.board, from, to), Opponent(s.currentPlayer))
    requires t == AfterMove(s, from, to)
    ensures t.board == ApplyMove(s.board, from, to) && t.currentPlayer == Opponent(s.currentPlayer)
    ensures t.selectedSquare == s.selectedSquare && t.validMoves == s.validMoves
    ensures t.moveHistory == s.moveHistory + [MoveRecord(from, to, At(s.board, from).value.kind, KindOf(At(s.board, to)))]
    ensures t.capturedByWhite == s.capturedByWhite + (if s.currentPlayer == White then PieceList(At(s.board, to)) else [])
    ensures t.capturedByBlack == s.capturedByBlack + (if s.currentPlayer == Black then PieceList(At(s.board, to)) else [])
    ensures t.isCheck == InCheck(t.board, t.currentPlayer)
    ensures t.isCheckmate == (s.isCheckmate || (t.isCheck && !HasLegalMove(t.board, t.currentPlayer)))
  {
  }

  /** A click on `sq`. After checkmate nothing happens. With no selection, a
      click on a piece of the side to move selects it with its legal
      destinations and any other click does nothing. With a selection, a click
      on one of its destinations makes the move, and any click clears it. */
  ghost function AfterClick(s: Snapshot, sq: Square): Snapshot
    requires ValidState(s) && OnBoard(sq)
  {
    if s.isCheckmate then s
    else if s.selectedSquare.Some? then
      if sq in s.validMoves then
        MoveIsPlayable(s, s.selectedSquare.value, sq);
        AfterMove(s, s.selectedSquare.value, sq).(selectedSquare := None, validMoves := [])
      else s.(selectedSquare := None, validMoves := [])
    else if HoldsColor(s.board, sq, s.currentPlayer) then
      s.(selectedSquare := Some(sq), validMoves := LegalMoves(s.board, sq))
    else s
  }

  /** A destination the filter allowed can be played: it is another square
      of the board, and the opponent's king is still there afterwards. */
  lemma MoveIsPlayable(s: Snapshot, from: Square, to: Square)
    requires LegalPosition(s.board, s.currentPlayer) && HoldsColor(s.board, from, s.currentPlayer)
    requires to in LegalMoves(s.board, from)
    ensures OnBoard(from) && OnBoard(to) && from != to && At(s.board, from).Some?
    ensures HasKing(ApplyMove(s.board, from, to), Opponent(s.currentPlayer))
  {
    assert to in PseudoMoves(s.board, from);
    OpponentKingRemains(s.board, from, to, s.currentPlayer);
  }

  /** The game starts in a valid state: white to move, not in check. */
  lemma InitialStateValid(s: Snapshot)
    requires s == InitialState()
    ensures ValidState(s)
  {
    InitialPositionLegal();
    InitialEndRanksClear();
  }

  /** Whatever is captured is a piece of the side not moving. */
  lemma CaptureIsEnemy(s: Snapshot, from: Square, to: Square)
    requires HoldsColor(s.board, from, s.currentPlayer) && HasKing(s.board, s.currentPlayer)
    requires to in LegalMoves(s.board, from)
    ensures OnBoard(to) && (At(s.board, to).Some? ==> At(s.board, to).value.color == Opponent(s.currentPlayer))
  {
    assert to in PseudoMoves(s.board, from);
    assert ColorAt(s.board, to) != Some(s.currentPlayer);
  }

  /** When the side to move matches the parity of the history's length, so
      does the other side once the history grows by one move. */
  lemma TurnFollowsHistory(player: Color, n: nat)
    requires player == White <==> n % 2 == 0
    ensures Opponent(player) == White <==> (n + 1) % 2 == 0
  {
  }

  /** Appending a captured piece of colour `c` to a list of such pieces. */
  lemma CapturedColors(xs: seq<Piece>, x: Option<Piece>, c: Color)
    requires forall p :: p in xs ==> p.color == c
    requires x.Some? ==> x.value.color == c
    ensures forall p :: p in xs + PieceList(x) ==> p.color == c
  {
  }

  /** A legal move from a valid state, with the selection cleared, is a valid state. */
  lemma MoveKeepsValid(s: Snapshot, from: Square, to: Square)
    requires ValidState(s) && !s.isCheckmate && HoldsColor(s.board, from, s.currentPlayer)
    requires to in LegalMoves(s.board, from)
    ensures OnBoard(from) && OnBoard(to) && from != to && At(s.board, from).Some?
    ensures HasKing(ApplyMove(s.board, from, to), Opponent(s.currentPlayer))
    ensures ValidState(AfterMove(s, from, to).(selectedSquare := None, validMoves := []))
  {
    MoveIsPlayable(s, from, to);
    var nb := ApplyMove(s.board, from, to);
    var next := Opponent(s.currentPlayer);
    var taken := At(s.board, to);
    var a := AfterMove(s, from, to);
    var t := a.(selectedSquare := None, validMoves := []);
    assert t.board == nb && t.currentPlayer == next
        && t.isCheck == InCheck(nb, next)
        && (t.isCheckmate <==> t.isCheck && !HasLegalMove(nb, next))
        && |t.moveHistory| == |s.moveHistory| + 1
        && t.capturedByWhite == s.capturedByWhite + (if s.currentPlayer == White then PieceList(taken) else [])
        && t.capturedByBlack == s.capturedByBlack + (if s.currentPlayer == Black then PieceList(taken) else [])
    by {
      AfterMoveFields(s, from, to, a);
    }
    assert LegalPosition(nb, next) && NoPawnOnEndRank(nb) by {
      LegalMoveKeepsPositionLegal(s.board, from, to, s.currentPlayer);
      MoveKeepsEndRanksClear(s.board, from, to);
    }
    assert next == White <==> |t.moveHistory| % 2 == 0 by {
      TurnFollowsHistory(s.currentPlayer, |s.moveHistory|);
    }
    assert (forall p :: p in t.capturedByWhite ==> p.color == Black)
        && (forall p :: p in t.capturedByBlack ==> p.color == White)
    by {
      CaptureIsEnemy(s, from, to);
      if s.currentPlayer == White {
        CapturedColors(s.capturedByWhite, taken, Black);
        assert t.capturedByBlack == s.capturedByBlack + [];
      } else {
        CapturedColors(s.capturedByBlack, taken, White);
        assert t.capturedByWhite == s.capturedByWhite + [];
      }
    }
  }

  /** What a click does, case by case. */
  lemma ClickCases(s: Snapshot, sq: Square)
    requires ValidState(s) && OnBoard(sq)
    ensures s.isCheckmate ==> AfterClick(s, sq) == s
    ensures !s.isCheckmate && s.selectedSquare.Some? && sq !in s.validMoves ==>
      AfterClick(s, sq) == s.(selectedSquare := None, validMoves := [])
    ensures !s.isCheckmate && s.selectedSquare.Some? && sq in s.validMoves ==>
      var from := s.selectedSquare.value;
      && OnBoard(from) && from != sq && At(s.board, from).Some?
      && HasKing(ApplyMove(s.board, from, sq), Opponent(s.currentPlayer))
      && AfterClick(s, sq) == AfterMove(s, from, sq).(selectedSquare := None, validMoves := [])
    ensures !s.isCheckmate && s.selectedSquare.None? ==>
      AfterClick(s, sq) == if HoldsColor(s.board, sq, s.currentPlayer)
        then s.(selectedSquare := Some(sq), validMoves := LegalMoves(s.board, sq)) else s
  {
    if !s.isCheckmate && s.selectedSquare.Some? && sq in s.validMoves {
      MoveIsPlayable(s, s.selectedSquare.value, sq);
    }
  }

  /** Every click keeps the state valid. */
  lemma ClickKeepsValid(s: Snapshot, sq: Square, t: Snapshot)
    requires ValidState(s) && OnBoard(sq) && t == AfterClick(s, sq)
    ensures ValidState(t)
  {
    if !s.isCheckmate && s.selectedSquare.Some? && sq in s.validMoves {
      MoveKeepsValid(s, s.selectedSquare.value, sq);
    }
  }

  /** The board changes only when the selected piece moves to one of its
      legal destinations; then the turn passes and the history grows by that
      one move. Otherwise the side to move and the history stay as they were. */
  lemma ClickPlaysOnlyLegalMoves(s: Snapshot, sq: Square)
    requires ValidState(s) && OnBoard(sq)
    ensures var t := AfterClick(s, sq);
      if t.moveHistory != s.moveHistory then
        && s.selectedSquare.Some? && sq in LegalMoves(s.board, s.selectedSquare.value)
        && t.board == ApplyMove(s.board, s.selectedSquare.value, sq)
        && t.currentPlayer == Opponent(s.currentPlayer)
        && |t.moveHistory| == |s.moveHistory| + 1 && t.moveHistory[..|s.moveHistory|] == s.moveHistory
        && t.moveHistory[|s.moveHistory|]
             == MoveRecord(s.selectedSquare.value, sq, At(s.board, s.selectedSquare.value).value.kind, KindOf(At(s.board, sq)))
      else t.board == s.board && t.currentPlayer == s.currentPlayer
  {
    var t := AfterClick(s, sq);
    ClickCases(s, sq);
    if !s.isCheckmate && s.selectedSquare.Some? && sq in s.validMoves {
      var from := s.selectedSquare.value;
      AfterMoveFields(s, from, sq, AfterMove(s, from, sq));
      var record := MoveRecord(from, sq, At(s.board, from).value.kind, KindOf(At(s.board, sq)));
      assert t.moveHistory == s.moveHistory + [record];
      assert t.moveHistory[..|s.moveHistory|] == s.moveHistory;
    }
  }

  /** The first click of a game on the pawn in front of the white king
      selects it and offers (5,4) and (4,4). */
  lemma SelectKingPawn(s: Snapshot, t: Snapshot)
    requires s == InitialState()
    requires t == s.(selectedSquare := Some(Square(6, 4)), validMoves := [Square(5, 4), Square(4, 4)])
    ensures ValidState(s) && AfterClick(s, Square(6, 4)) == t && ValidState(t)
  {
    InitialStateValid(s);
    KingPawnOpening();
    assert HoldsColor(s.board, Square(6, 4), White);
    ClickCases(s, Square(6, 4));
    ClickKeepsValid(s, Square(6, 4), t);
  }

  /** The second click, on (4,4), plays the double step: the pawn stands on
      (4,4), black is to move, the history holds that one move, the selection
      is cleared. */
  lemma PlayKingPawn(s: Snapshot, t: Snapshot)
    requires s == InitialState().(selectedSquare := Some(Square(6, 4)), validMoves := [Square(5, 4), Square(4, 4)])
    requires ValidState(s) && t == AfterClick(s, Square(4, 4))
    ensures t.board == ApplyMove(InitialBoard(), Square(6, 4), Square(4, 4))
    ensures t.currentPlayer == Black && t.selectedSquare.None?
    ensures t.moveHistory == [MoveRecord(Square(6, 4), Square(4, 4), Pawn, None)]
  {
    KingPawnSquares();
    ClickCases(s, Square(4, 4));
    AfterMoveFields(s, Square(6, 4), Square(4, 4), AfterMove(s, Square(6, 4), Square(4, 4)));
  }

  /** The detector's scan for a piece of `player` with at least one legal
      destination, stopping at the first one in row-major order. */
  method PlayerHasLegalMove(b: Board, player: Color) returns (hasValidMove: bool)
    requires HasKing(b, player)
    ensures hasValidMove == HasLegalMove(b, player)
  {
    for r := 0 to 8
      invariant forall s :: HoldsColor(b, s, player) && s.row < r ==> LegalMoves(b, s) == []
    {
      for c := 0 to 8
        invariant forall s :: HoldsColor(b, s, player) && Precedes(s, Square(r, c)) ==> LegalMoves(b, s) == []
      {
        var sq := Square(r, c);
        var occupant := At(b, sq);
        if occupant.Some? && occupant.value.color == player {
          var moves := GetValidMovesForPiece(b, sq, true);
          if |moves| > 0 {
            assert HoldsColor(b, sq, player);
            return true;
          }
        }
        forall s | HoldsColor(b, s, player) && Precedes(s, Square(r, c + 1))
          ensures LegalMoves(b, s) == []
        {
          if s != sq {
            assert Precedes(s, Square(r, c));
          }
        }
      }
    }
    return false;
  }

  class ChessGame {
    var board: Board
    var selectedSquare: Option<Square>
    var currentPlayer: Color
    var validMoves: seq<Square>
    /** Pieces captured by white and by black, in the order taken. */
    var capturedByWhite: seq<Piece>
    var capturedByBlack: seq<Piece>
    var moveHistory: seq<MoveRecord>
    var isCheck: bool
    var isCheckmate: bool

    ghost function State(): Snapshot
      reads this
    {
      Snapshot(board, selectedSquare, currentPlayer, validMoves, capturedByWhite, capturedByBlack,
        moveHistory, isCheck, isCheckmate)
    }

    ghost predicate Valid()
      reads this
    {
      ValidState(State())
    }

    constructor()
      ensures Valid() && State() == InitialState()
    {
      board := InitialBoard();
      selectedSquare := None;
      currentPlayer := White;
      validMoves := [];
      capturedByWhite := [];
      capturedByBlack := [];
      moveHistory := [];
      isCheck := false;
      isCheckmate := false;
      new;
      InitialStateValid(State());
    }

    /** resetGame, without the clocks: back to the initial state. */
    method Reset()
      modifies this
      ensures Valid() && State() == InitialState()
    {
      board := InitialBoard();
      selectedSquare := None;
      currentPlayer := White;
      validMoves := [];
      capturedByWhite := [];
      capturedByBlack := [];
      isCheck := false;
      isCheckmate := false;
      moveHistory := [];
      InitialStateValid(State());
    }

    /** checkForCheckAndCheckmate: record whether `player`'s king is attacked
        on `testBoard` and, when it is and no piece of `player` has a legal
        move, record checkmate. The checkmate flag is never cleared here. */
    method CheckForCheckAndCheckmate(testBoard: Board, player: Color)
      requires HasKing(testBoard, player)
      modifies this`isCheck, this`isCheckmate
      ensures isCheck == InCheck(testBoard, player)
      ensures isCheckmate == (old(isCheckmate) || (isCheck && !HasLegalMove(testBoard, player)))
    {
      var kingPos := LocateKing(testBoard, player);
      var inCheck := IsSquareUnderAttack(testBoard, kingPos.value, Opponent(player));
      isCheck := inCheck;
      if inCheck {
        var hasValidMove := PlayerHasLegalMove(testBoard, player);
        if !hasValidMove {
          isCheckmate := true;
        }
      }
    }

    /** The first half of the move branch of the click handler: captures,
        the new board, the history record and the turn change. */
    method PlayMove(from: Square, to: Square)
      requires OnBoard(from) && OnBoard(to) && from != to && At(board, from).Some?
      modifies this`board, this`currentPlayer, this`moveHistory, this`capturedByWhite, this`capturedByBlack
      ensures State() == Played(old(State()), from, to)
    {
      var piece := At(board, from).value;
      var capturedPiece := At(board, to);
      if capturedPiece.Some? {
        if currentPlayer == White {
          capturedByWhite := capturedByWhite + [capturedPiece.value];
          AppendNil(capturedByBlack);
        } else {
          capturedByBlack := capturedByBlack + [capturedPiece.value];
          AppendNil(capturedByWhite);
        }
      } else {
        AppendNil(capturedByWhite);
        AppendNil(capturedByBlack);
      }
      var newBoard := MovePiece(board, from, to);
      board := newBoard;
      moveHistory := moveHistory + [MoveRecord(from, to, piece.kind, KindOf(capturedPiece))];
      currentPlayer := Opponent(currentPlayer);
    }

    /** The move branch of the click handler, from the selected square to a
        destination the selection offers, followed by check detection. */
    method MakeMove(from: Square, to: Square)
      requires OnBoard(from) && OnBoard(to) && from != to && At(board, from).Some?
      requires HasKing(ApplyMove(board, from, to), Opponent(currentPlayer))
      modifies this
      ensures State() == AfterMove(old(State()), from, to)
    {
      PlayMove(from, to);
      CheckForCheckAndCheckmate(board, currentPlayer);
    }

    /** The click handler's branch with a selection: the selected piece
        moves if the clicked square is one of its destinations, and the
        selection is cleared either way. */
    method TryMove(clicked: Square)
      requires OnBoard(clicked) && selectedSquare.Some?
      requires clicked in validMoves ==>
        && OnBoard(selectedSquare.value) && selectedSquare.value != clicked
        && At(board, selectedSquare.value).Some?
        && HasKing(ApplyMove(board, selectedSquare.value, clicked), Opponent(currentPlayer))
      modifies this
      ensures State() == (if clicked in old(validMoves)
        then AfterMove(old(State()), old(selectedSquare.value), clicked)
        else old(State())).(selectedSquare := None, validMoves := [])
    {
      if clicked in validMoves {
        MakeMove(selectedSquare.value, clicked);
      }
      selectedSquare := None;
      validMoves := [];
    }

    /** The click handler's branch without a selection: a piece of the side to
        move becomes selected together with its legal destinations. */
    method SelectPiece(clicked: Square)
      requires OnBoard(clicked) && (HoldsColor(board, clicked, currentPlayer) ==> HasKing(board, currentPlayer))
      modifies this`selectedSquare, this`validMoves
      ensures State() == if HoldsColor(old(board), clicked, currentPlayer)
        then old(State()).(selectedSquare := Some(clicked), validMoves := LegalMoves(board, clicked))
        else old(State())
    {
      var piece := At(board, clicked);
      if piece.Some? && piece.value.color == currentPlayer {
        selectedSquare := Some(clicked);
        var moves := GetValidMovesForPiece(board, clicked, true);
        validMoves := moves;
      }
    }

    /** handleSquareClick on square (row, col). */
    method HandleSquareClick(row: int, col: int)
      requires Valid() && OnBoard(Square(row, col))
      modifies this
      ensures State() == AfterClick(old(State()), Square(row, col))
      ensures Valid()
    {
      ghost var s := State();
      var clicked := Square(row, col);
      ClickCases(s, clicked);
      ClickKeepsValid(s, clicked, AfterClick(s, clicked));
      if isCheckmate {
        return;
      }
      if selectedSquare.Some? {
        TryMove(clicked);
      } else {
        SelectPiece(clicked);
      }
    }
  }
}
