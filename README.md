# Chess rules engine of `chess.js`, modelled in Dafny

`chess.js` is a React component that lets two players take turns moving
pieces on an 8x8 board. It generates each piece's pseudo-legal moves,
filters out moves that would leave the mover's own king attacked, plays the
move with capture bookkeeping and promotion to a queen, and afterwards flags
check and checkmate for the side that moves next. This project models that
rules engine and proves properties of it:

- `ChessBoard` (`chess_board.dfy`) defines pieces, squares, the 8x8 board of
  optional pieces, and the starting position that `initializeBoard` builds.
- `MoveGen` (`move_gen.dfy`) has one specification function per generator.
  Each function lists the destinations in the order the program pushes
  them. Each generator is also written as a method with the program's own
  loops, and each method is proved equal to its function.
- `MoveGenFacts` (`move_gen_facts.dfy`) characterises every generator
  exactly ("`m` is a destination if and only if ..."). It also proves that
  the generators look only at the colour standing on each square.
- `Rules` (`rules.dfy`) holds the king lookup, the attack oracle
  `isSquareUnderAttack`, the legality filter and `getValidMovesForPiece`.
  As in the program, the oracle and the filter call each other through the
  `checkForCheck` flag.
- `InitialPosition` (`initial_position.dfy`) proves that the game starts in
  a legal position with neither king attacked. It also lists every opening
  move: each pawn may step one or two squares, each knight may jump to two
  squares, no other piece can move, and the filter keeps all of these moves.
- `MoveCount` (`move_count.dfy`) counts a side's legal moves square by
  square in the detector's scan order. The count is positive exactly when
  the side has a legal move, and at the start each side has twenty.
- `Moves` (`apply_move.dfy`) plays a move on the board. It proves that a
  move the filter allowed keeps both kings on the board and leaves the
  mover's king unattacked.
- `Game` (`game.dfy`) contains the component as a class `ChessGame`. Its
  fields are the component's state hooks. It has the click handler, the
  check/checkmate detector and the reset.
  - The effect of a click is specified on value snapshots (`AfterClick`,
    `AfterMove`). The class methods are proved to produce exactly that new
    state.
  - A state invariant (`ValidState`) is proved to hold initially and to
    survive every click. It says:
    - both kings are present;
    - the side that just moved is not in check;
    - no pawn stands on an end rank;
    - a selection is a piece of the side to move, listed with exactly its
      legal destinations;
    - the check flag is accurate, and checkmate means check with no legal
      move;
    - the side to move alternates with the length of the history;
    - each side's captured list holds only pieces of the other colour.
- `Checkmate` (`checkmate.dfy`) plays a mate through the click handler.
  Black's king stands on (0,4), white's king on (2,4) and white's queen on
  (1,7). White clicks the queen and then (1,4). The queen now gives check,
  covers every free square beside the black king, and is protected by
  white's king. The detector flags check and checkmate, the state is valid,
  and every later click is ignored.

Some behaviours of the program are easy to mistake for something else.
The model keeps them as the code has them:

- With a piece selected, clicking another piece of one's own colour
  does not select it (chess.js:307-308). The click only clears the
  selection, and a further click selects the new piece.
- The captured lists hold the captured piece objects, not only their
  kinds (chess.js:277).
- A selection's destinations are an ordered list in the generators'
  push order, not a set.
- The attack oracle uses the unfiltered destinations (chess.js:80).
  A pawn therefore "attacks" the empty square in front of it and,
  from its starting rank, the empty square two ahead when the square
  between is empty too (chess.js:154-156); it attacks a diagonal
  square only when an enemy stands there. For a
  king's square, which is never empty, this gives the usual answer.
- Once checkmate is flagged it is never cleared, except by reset
  (chess.js:351-353). After checkmate every click is ignored
  (chess.js:262).

## Model

| member | source | states |
|---|---|---|
| ChessBoard.InitialBoard | chess.js:17-47 | black on rows 0-1 and white on rows 6-7 exactly; the back ranks hold rook, knight, bishop, queen, king, bishop, knight, rook from column 0; the kings stand on (0,4) and (7,4) and nowhere else; rows 1 and 6 are full of pawns; no piece is marked as moved |
| MoveGen.TablesWellFormed | chess.js:175-246 | the rook and bishop direction tables hold unit steps; knight offsets move at most two rows and king offsets at most one |
| MoveGen.PseudoMoves | chess.js:91-116 | an empty square has no moves; every destination of a piece is on the board, differs from its own square and does not hold a friendly piece |
| MoveGen.GetPawnMoves | chess.js:143-171 | returns exactly the pawn's pushes followed by its captures, as `PawnMoves` lists them |
| MoveGen.PawnCaptureMoves | chess.js:158-168 | the capture loop over the left and right diagonals returns exactly the enemy-occupied diagonal squares, left first |
| MoveGen.WalkRay | chess.js:178-189 | the inner `while` returns the empty squares along the direction and then the first occupied square if it holds an enemy (`Ray`) |
| MoveGen.SlideMoves | chess.js:177-190 | the loop over the directions returns the concatenation of the rays, in table order |
| MoveGen.JumpMoves | chess.js:202-209 | the loop over fixed offsets returns the on-board offsets not holding a friendly piece, in table order |
| MoveGen.GetRookMoves | chess.js:173-193 | returns exactly the rook's rays in its four straight directions |
| MoveGen.GetBishopMoves | chess.js:214-234 | returns exactly the bishop's rays in its four diagonal directions |
| MoveGen.GetQueenMoves | chess.js:236-238 | returns the rook's moves followed by the bishop's |
| MoveGen.GetKnightMoves | chess.js:195-212 | returns exactly the knight's jumps in table order |
| MoveGen.GetKingMoves | chess.js:240-258 | returns exactly the king's one-step moves in table order |
| MoveGenFacts.RaySound | chess.js:179-189 | every square on a ray is some number of steps out, with only empty squares in between, and is empty or holds an enemy |
| MoveGenFacts.RayComplete | chess.js:179-189 | every square reached over empty squares that is itself empty or holds an enemy is on the ray |
| MoveGenFacts.SlidesIff | chess.js:177-190 | a square is a slide destination iff some direction of the table reaches it over empty squares and it is empty or holds an enemy |
| MoveGenFacts.RookMovesIff | chess.js:173-193 | rook destinations are exactly the squares reached along a straight direction with nothing in between, not friendly |
| MoveGenFacts.BishopMovesIff | chess.js:214-234 | bishop destinations are exactly the squares reached along a diagonal with nothing in between, not friendly |
| MoveGenFacts.QueenMovesIff | chess.js:236-238 | queen destinations are exactly the rook's and the bishop's |
| MoveGenFacts.JumpsIff | chess.js:202-209 | a square is a jump destination iff it is the origin shifted by a table offset, is on the board and is not friendly |
| MoveGenFacts.KnightMovesIff | chess.js:195-212 | knight destinations are exactly the eight L-shaped offsets that land on the board on a non-friendly square |
| MoveGenFacts.KingMovesIff | chess.js:240-258 | king destinations are exactly the eight neighbouring squares on the board that are not friendly |
| MoveGenFacts.PseudoMovesOfPiece | chess.js:97-116 | a square's destinations are those of the piece standing on it; a knight's are its jumps along the knight table and a king's its jumps along the king table |
| MoveGenFacts.JumpsAppend | chess.js:202-209 | the jumps along two tables one after the other are the first table's jumps followed by the second's |
| MoveGenFacts.JumpsPair | chess.js:202-209 | the jumps along a table of two offsets are each landing square that is on the board and not friendly, in table order |
| MoveGenFacts.NoJumps | chess.js:202-209 | offsets that all land off the board or on a friendly piece give no destinations |
| MoveGenFacts.PawnPushesIff | chess.js:148-156 | a push is the empty square ahead, or the square two ahead from the starting row when both squares are empty |
| MoveGenFacts.PawnCapturesIff | chess.js:158-168 | a pawn capture is exactly a diagonally forward neighbour holding an enemy |
| MoveGenFacts.PawnMovesIff | chess.js:143-171 | a pawn's destinations are exactly its pushes and its captures |
| MoveGenFacts.RayDependsOnColors | chess.js:179-189 | boards with the same colour on every square give the same ray |
| MoveGenFacts.SlidesDependOnColors | chess.js:177-190 | boards with the same colours give the same slides |
| MoveGenFacts.JumpsDependOnColors | chess.js:202-209 | boards with the same colours give the same jumps |
| MoveGenFacts.PawnCapturesDependOnColors | chess.js:158-168 | boards with the same colours give the same pawn captures |
| MoveGenFacts.PieceMovesDependOnColors | chess.js:97-116 | boards with the same colours give every piece the same destinations: kinds and `moved` flags are never read |
| Rules.FindKingFrom | chess.js:126-135 | the first king of the colour at or after a square in row-major order, with no such king between them |
| Rules.FindKing | chess.js:126-135 | a king is found iff the colour has one on the board, and the one found comes first in row-major order |
| Rules.KeepSafe | chess.js:120-138 | a candidate is kept iff its relocation leaves the mover's first king present and not attacked |
| Rules.LegalMoves | chess.js:118-139 | a legal destination is exactly a pseudo-legal one after which the mover's king is safe; an empty square has none |
| Rules.KingSurvivesRelocation | chess.js:121-123 | relocating to a pseudo-legal destination never removes the mover's own king |
| Rules.KeepSafeAll | chess.js:120-138 | when every candidate is safe the filter keeps them all, in order |
| Rules.LocateKing | chess.js:322-331 | the nested scan with its two `break`s returns exactly the first king of the colour in row-major order, or none |
| Rules.IsSquareUnderAttack | chess.js:75-88 | returns true iff some piece of the attacking colour has the square among its unfiltered destinations |
| Rules.LeavesKingSafe | chess.js:120-138 | the filter's callback returns true iff the relocated board's first king of the mover is not attacked by the opponent |
| Rules.FilterSafeMoves | chess.js:119-139 | the filter keeps exactly the safe candidates, in their original order |
| Rules.GetValidMovesForPiece | chess.js:91-142 | with the check flag it returns the legal moves, without it the pseudo-legal moves; an empty square gives none |
| InitialPosition.RayBlockedAtHome | chess.js:179-189 | while a side's two home ranks are as at the start, a slider on its back rank is blocked in every direction by its own pieces |
| InitialPosition.SlidesBlockedAtHome | chess.js:177-190 | while a side's two home ranks are as at the start, its rooks, bishops and queen have no moves |
| InitialPosition.JumpFromHome | chess.js:202-209 | while a side's two home ranks are as at the start, a knight or king jump from the back rank lands only on the rank in front of the pawns |
| InitialPosition.PawnRankMovesAhead | chess.js:143-171 | a pawn on its starting rank moves one or two ranks forward |
| InitialPosition.BackRankMovesAhead | chess.js:97-116 | while a side's two home ranks are as at the start, a back-rank piece can only move onto the rank in front of the pawns |
| InitialPosition.HomeMovesStayAhead | chess.js:97-116 | while a side's two home ranks are as at the start, every pseudo-legal destination of its pieces lies on one of the two ranks in front of its pawns |
| InitialPosition.NotAttackedOutsideFront | chess.js:75-88 | while the attacker's two home ranks are as at the start, it attacks no square outside the two ranks in front of its pawns |
| InitialPosition.InitialKings | chess.js:21-44 | the king lookup finds white's king on (7,4) and black's on (0,4) |
| InitialPosition.InitialPositionLegal | chess.js:5-7 | the game starts with both kings present, white to move, black's king not attacked and white not in check |
| InitialPosition.KingPawnOpening | chess.js:309-316 | selecting the pawn in front of the white king at the start yields exactly the legal destinations (5,4) and (4,4) |
| InitialPosition.PawnOpeningMoves | chess.js:143-171 | at the start every pawn's pseudo-legal destinations are exactly one square forward, then two; it has nothing to capture |
| InitialPosition.KingPawnSquares | chess.js:31-34 | at the start (6,4) holds an unmoved white pawn and (4,4) is empty |
| InitialPosition.StartFillsHome | chess.js:17-47 | at the start each side's pieces stand exactly on its back rank and its pawn rank |
| InitialPosition.BackRankPiece | chess.js:21-44 | at the start a back-rank square holds the unmoved piece of the back-rank order, black on row 0 and white on row 7 |
| InitialPosition.WhiteKnightJumps | chess.js:202-209 | a white knight on row 7 beside a full row of white pawns, with no white piece on row 5, jumps exactly to the two squares of row 5 beside its file |
| InitialPosition.BlackKnightJumps | chess.js:202-209 | a black knight on row 0 beside a full row of black pawns, with no black piece on row 2, jumps exactly to the two squares of row 2 beside its file |
| InitialPosition.KnightMovesFromHome | chess.js:195-212 | while a side fills its two home ranks, a knight on its starting square has exactly the two destinations in front of the pawns beside its file |
| InitialPosition.KnightOpeningMoves | chess.js:195-212 | at the start each knight's pseudo-legal destinations are exactly the two squares in front of the pawns beside its file |
| InitialPosition.KingJumpsAtHome | chess.js:240-258 | while a side fills its two home ranks, a king on its back rank has no step to make |
| InitialPosition.KingStuckAtStart | chess.js:240-258 | at the start neither king has a pseudo-legal destination |
| InitialPosition.SlidersStuckAtHome | chess.js:173-238 | while a side's home ranks are as at the start, its rooks, bishops and queen on the back rank have no destinations |
| InitialPosition.SlidersStuckAtStart | chess.js:173-238 | at the start no rook, bishop or queen has a pseudo-legal destination |
| InitialPosition.RelocateKeepsOtherHome | chess.js:121-123 | the filter's copy after any opening move of one side leaves the other side's home ranks as at the start |
| InitialPosition.StartMoveIsSafe | chess.js:119-139 | every pseudo-legal opening move of either side leaves the mover's king present and unattacked |
| InitialPosition.StartMovesAllLegal | chess.js:118-139 | at the start the filter keeps every pseudo-legal move of every piece: the legal moves equal the pseudo-legal ones |
| MoveCount.ScanSquare | chess.js:339-341 | the detector's scan visits, as its `i`-th square, the on-board square at row `i / 8` and column `i % 8` |
| MoveCount.ScanSquareOf | chess.js:339-341 | every on-board square is visited, at index 8 * row + column |
| MoveCount.MovesPerSquareAt | chess.js:341-344 | the count of a scanned square is the number of its legal moves if it holds the player's piece, otherwise zero |
| MoveCount.SumPositiveIff | chess.js:341-350 | a sum of counts is positive iff one of the counts is |
| MoveCount.LegalMoveCounted | chess.js:341-344 | a piece of the player with a legal move makes the count positive |
| MoveCount.CountedMoveExists | chess.js:341-350 | a positive count comes from a piece of the player with a legal move |
| MoveCount.HasLegalMoveIffCount | chess.js:337-353 | the detector finds a legal move iff the player's count of legal moves is positive |
| MoveCount.OpeningSquareCount | chess.js:91-139 | at the start a square's piece has exactly two legal moves on a pawn rank or a knight's square, and none elsewhere |
| MoveCount.OpeningCount | chess.js:17-47 | at the start each side has exactly twenty legal moves: sixteen pawn moves and four knight moves |
| MoveCount.OpeningSum | chess.js:341-350 | helper for `OpeningCount`: over the detector's scan from any index on, the opening counts add up to the closed form `OpeningMovesFrom` |
| Moves.ApplyMove | chess.js:281-288 | after a move the origin is empty, the destination holds the moved piece marked as moved (a pawn on an end rank as a queen), and every other square is unchanged |
| Moves.MovePiece | chess.js:269-288 | the copy-place-clear-promote sequence builds exactly `ApplyMove` |
| Moves.LandedPiece | chess.js:282-288 | the landed piece keeps its colour and is marked as moved; it stays a pawn only off the end ranks; only a pawn changes kind; it is a king iff it was one |
| Moves.MoveKeepsEndRanksClear | chess.js:285-288 | if no pawn stands on an end rank, none does after any move |
| Moves.InitialEndRanksClear | chess.js:21-44 | no pawn stands on an end rank at the start |
| Moves.FindKingAgrees | chess.js:126-135 | boards with kings of a colour on the same squares give the same king lookup |
| Moves.AttackedAgrees | chess.js:75-88 | boards with the same colours and the same attacking pieces agree on whether a square is attacked |
| Moves.EnemyKingNotCaptured | chess.js:75-88 | in a legal position the opponent's king is never a pseudo-legal destination of the side to move |
| Moves.ApplyMoveMatchesRelocate | chess.js:121-123 | the played board and the filter's relocated copy have the same colours, the same kings of the mover and the same opponent pieces |
| Moves.MoverKingSafeAfterMove | chess.js:119-139 | after a move the filter allowed, the mover's king is present and not attacked on the board actually played |
| Moves.OpponentKingRemains | chess.js:320-333 | after such a move the opponent's king is still on the board, so the detector finds it |
| Moves.LegalMoveKeepsPositionLegal | chess.js:268-304 | a legal move from a legal position gives a legal position with the other side to move |
| Game.MoveIsPlayable | chess.js:266-271 | a destination the selection offers is another on-board square, and after the move the opponent's king is present |
| Game.InitialStateValid | chess.js:5-12 | the initial state satisfies the state invariant |
| Game.CaptureIsEnemy | chess.js:271-279 | whatever stands on a legal destination is a piece of the opponent |
| Game.CapturedColors | chess.js:274-279 | appending a captured piece of a colour to a list of that colour keeps the list single-coloured |
| Game.TurnFollowsHistory | chess.js:291-300 | a move appends one record to the history and passes the turn, so the side to move keeps matching the parity of the history's length |
| Game.MoveKeepsValid | chess.js:268-308 | a legal move from a valid state, with the selection then cleared, gives a valid state |
| Game.ClickCases | chess.js:261-318 | a click after checkmate changes nothing; with a selection it plays the move if the square is offered and clears the selection; without one it selects only a piece of the side to move |
| Game.ClickKeepsValid | chess.js:261-318 | every click keeps the state invariant |
| Game.ClickPlaysOnlyLegalMoves | chess.js:264-308 | the history changes only when the selected piece moves to one of its legal destinations. Then the board is that move's board, the turn passes, and the history gains exactly one record: origin, destination, the mover's kind before promotion and the captured kind. Otherwise board and turn are unchanged |
| Game.SelectKingPawn | chess.js:309-316 | the first click of a game, on the pawn in front of the white king, selects it with the destinations (5,4) and (4,4), and the state stays valid |
| Game.PlayKingPawn | chess.js:264-308 | a second click on (4,4) plays the double step: the pawn stands on (4,4), black is to move, the history holds exactly that move, and the selection is cleared |
| Game.PlayerHasLegalMove | chess.js:337-350 | the detector's scan returns true iff some piece of the player has a legal destination |
| Game.ChessGame.constructor | chess.js:5-12 | the component starts in the initial state, and it is valid |
| Game.ChessGame.Reset | chess.js:357-368 | reset returns to the initial state, and it is valid |
| Game.ChessGame.CheckForCheckAndCheckmate | chess.js:320-355 | sets the check flag iff the player's king is attacked; sets the checkmate flag when in check with no legal move and never clears it |
| Game.ChessGame.PlayMove | chess.js:269-300 | records the capture for the mover, plays the move, appends the history record and passes the turn (`Played`) |
| Game.ChessGame.MakeMove | chess.js:268-304 | the move branch gives exactly `AfterMove`: the played state with the check flags recomputed for the next side |
| Game.ChessGame.TryMove | chess.js:264-308 | with a selection the move is made if the clicked square is offered, and the selection is cleared either way |
| Game.ChessGame.SelectPiece | chess.js:309-316 | without a selection a piece of the side to move becomes selected with exactly its legal destinations; any other click changes nothing |
| Game.ChessGame.HandleSquareClick | chess.js:261-318 | the new state is exactly `AfterClick` of the old one, and the state invariant still holds |
| Checkmate.KingStepsOnlyNear | chess.js:240-258 | every destination of a king is at most one row and one column away from it |
| Checkmate.KingReachesNeighbour | chess.js:248-255 | a king reaches each of its eight neighbouring squares that is on the board and not held by its own colour |
| Checkmate.AdvanceOnLine | chess.js:177-190 | a slide along a unit direction stays on the start square's row, column or one of its diagonals |
| Checkmate.QueenStaysOnLines | chess.js:236-238 | every destination of a queen is on its row, its column or one of its diagonals |
| Checkmate.QueenReachesNeighbour | chess.js:236-238 | a queen reaches each neighbouring square along its eight directions that is on the board and not held by its own colour |
| Checkmate.LoneKingAttacksOnlyNear | chess.js:75-88 | a side whose only piece is its king attacks only the squares next to that king |
| Checkmate.KingQueenKingPieces | chess.js:126-135 | on a board with only the two kings and a white queen, the king lookup finds each king on its square, and each side's pieces are exactly those |
| Checkmate.QueenMoveKeepsShape | chess.js:121-123 | moving the queen to an empty square, on the filter's copy or as played, leaves the two kings in place and the queen on the new square |
| Checkmate.KingStepFound | chess.js:126-135 | on the filter's copy after a black king step, the lookup finds the black king on its new square and the white king where it was |
| Checkmate.UnsafeWhenAttacked | chess.js:120-138 | a move is rejected when the mover's king, looked up on the copy, stands on an attacked square |
| Checkmate.QueenGivesCheck | chess.js:320-334 | the queen on (1,4) attacks the black king on (0,4) |
| Checkmate.FreeSquareCovered | chess.js:118-139 | the black king may not step to any free square beside it, because the queen attacks that square |
| Checkmate.QueenProtected | chess.js:118-139 | the black king may not take the queen, because white's king then attacks it |
| Checkmate.NoEscape | chess.js:118-139 | every pseudo-legal step of the black king is rejected by the filter |
| Checkmate.BlackKingStuck | chess.js:118-139 | the black king has no legal move |
| Checkmate.BlackIsMated | chess.js:320-353 | with the queen on (1,4), black is in check and has no legal move, and the position is a legal one with black to move |
| Checkmate.BeforeMateLegal | chess.js:320-334 | before the mate neither king is attacked and the position is legal with white to move |
| Checkmate.QueenSlidesToMate | chess.js:177-190 | the queen on (1,7) can slide left along its row to (1,4) |
| Checkmate.MatingMoveSafe | chess.js:118-139 | the filter keeps the queen move to (1,4), because the white king stays unattacked |
| Checkmate.MatingMoveLegal | chess.js:91-139 | (1,4) is a legal destination of the queen on (1,7) |
| Checkmate.MateInOneValid | chess.js:5-12 | the state hooks holding the position before the mate, with white to move, no selection, empty captured lists and history and both flags clear, satisfy the state invariant |
| Checkmate.SelectQueen | chess.js:309-316 | clicking the queen selects it, with (1,4) among its destinations, and the state stays valid |
| Checkmate.QueenMoveMates | chess.js:264-308 | clicking (1,4) with the queen selected plays the move, appends its record, passes the turn to black, and flags check and checkmate in a valid state |
| Checkmate.PlayMate | chess.js:261-353 | the two clicks from the position before the mate end in checkmate with black to move, and every later click returns the state unchanged (chess.js:262) |

## Left out

- Rendering, the JSX layout, `getPieceSymbol` (chess.js:65-72) and `formatTime` (chess.js:370-374) are not modelled. They only display the state.
- The clock is not modelled: the `timer` and `activeTimer` state, the interval effect (chess.js:49-62), `setActiveTimer` in the move branch and the timer lines of `resetGame`. It depends on wall-clock time and never affects the rules.
- React batches `set...` calls and state updaters run later. The model assigns the fields in order, which gives the same final state because no updater reads a field set earlier in the same click.
- The board is a value, so the program's array copies and its shared pawn objects on rows 1 and 6 are not modelled. No code path mutates a piece object in place, so the sharing has no effect.
- The JSON piece objects of knights, bishops and the queen have no `moved` field at the start. The model sets it to false because the rules never read it.
- Castling, en passant, underpromotion and stalemate are absent, as in the program. When the side to move is not in check and has no legal move, the game simply waits.
- The program fails when a king is missing, because it reads `kingPos.row` of `null`. The model requires the king instead: `HasKing` for `CheckForCheckAndCheckmate` and `PlayerHasLegalMove`, and `KingPresent` for `GetValidMovesForPiece` with the check flag. The state invariant proves that both kings are always present in play.
- Game.ChessGame.HandleSquareClick: it requires the click to be on the board and the state invariant to hold. The board's squares are the only click targets, and the invariant holds from construction on.
