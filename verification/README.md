# Chess rules engine: a Dafny model

This project models the rules engine of a small SFML chess game. The engine keeps
a position as an 8×8 grid of piece letters plus the side to move, two pairs of
castling flags, an en passant target and a history stack of `Move` records. Around
that position it does the following:

* generates pseudo-legal moves, i.e. moves that ignore check (`pseudoLegalMoves`);
* answers whether a square is attacked (`isSquareAttacked`);
* finds the mover's king and tests for check (`inCheck`);
* filters out moves that leave the king attacked, by playing each candidate on
  the board and taking it back (`legalMoves`);
* plays a move, covering en passant, castling, automatic promotion to a queen,
  the next en passant target and castling-flag revocation (`handleMove`);
* takes the last move back (`undoMove`);
* classifies the position as checkmate or stalemate (`checkGameState`).

The modules follow the engine's layers:

* `Pieces` holds piece letters, colours and the header's colour predicates.
* `Boards` holds the grid, in-bounds reads and writes, `isEmpty`, `isOpponent` and
  the starting board.
* `Positions` holds the game state, the `Move` record, the starting position, and
  the invariant `Consistent` that the starting position has and every `handleMove` keeps.
* `MoveGen` is the generator, written as the engine's nested loops over rows,
  files and directions. A set of reference predicates (`PseudoMove`) describes
  each piece's reach. The two are proved to agree.
* `Attacks` holds the attack oracle and the king search with its inner-loop
  `break`.
* `Legality` holds the legality filter. It is given both as a set and as the
  engine's in-place try-and-revert loop.
* `Execution` holds the move executor, undo and the status classification, with
  the round-trip and bookkeeping properties.
* `Findings` models the captured-piece read of `handleMove` as written, next to a
  concrete position where that read breaks undo.

Modelling choices:

* Squares are read with `At` and written with `Put`. Both are total: off the board,
  a read gives an empty square and a write is dropped.
* The engine's char codes are kept through `Letter`/`FromLetter`, and the header
  predicates are stated in terms of upper and lower case letters.
* The en passant target `(-1, -1)` is the constructor `NoTarget`.
* The castling flags are two-element boolean sequences, indexed exactly as the
  engine indexes them:
  * the generator and the king-move revocation use index `whiteToMove`, so `true`
    reads index 1;
  * a white `'R'` leaving or being taken on its corner clears index 0;
  * a black `'r'` clears index 1.
* The model does not claim that a rook move revokes its own colour's right.
* The king search keeps the engine's `break`, which leaves only the inner loop. The
  square found is therefore the first king in the last row that holds one. With no
  king the result is `(-1, -1)`, and `(-1, -1)` is never attacked.
* The engine's `legalMoves` puts a pawn back behind an en passant square without
  checking that one was there. Restoring the board exactly therefore rests on an
  invariant, `Positions.Consistent`:
  * no pawn stands on row 0 or row 7;
  * when a target is set, it lies on the row the opponent's double step skipped,
    and that pawn stands just beyond it.
* The model proves that the starting position satisfies `Consistent` and that
  every `handleMove` keeps it.
* The captured piece is read from the destination square. The code reads
  `board[y2][y2]`; see "## Findings".
* `Undo` follows the code and sets the status to `Playing`. It does not restore the
  status stored before the move; the two agree whenever moves are only played in a
  game that is still on.

## Model

| member | source | states |
|---|---|---|
| Pieces.IsWhite | include/game.hpp:93 | a piece is white exactly when its letter is upper case |
| Pieces.IsBlack | include/game.hpp:94 | a piece is black exactly when its letter is lower case |
| Pieces.SameColor | include/game.hpp:89-92 | true exactly when both squares hold pieces of one colour; then their letters agree in case |
| Pieces.SameColorSymmetric | include/game.hpp:89-92 | `sameColor` is symmetric and false whenever either argument is the empty square |
| Pieces.FromLetterLetter | include/game.hpp:63 | every piece has one of the thirteen board codes, and reading the code back gives the piece |
| Pieces.LetterFromLetter | include/game.hpp:63 | every board code read as a piece and written back gives the same code |
| Boards.At | include/game.hpp:87 | a read off the board is the empty square |
| Boards.Put | include/game.hpp:63 | a write changes the written square only, and only when it is on the board |
| Boards.BoardsEqual | include/game.hpp:63 | two boards that agree on all 64 squares are equal |
| Boards.IsEmpty | include/game.hpp:88 | empty implies in bounds; true exactly for on-board squares whose code is the blank |
| Boards.IsOpponent | include/game.hpp:95-99 | false off the board and on empty squares; for white true exactly on lower-case pieces, for black exactly on upper-case ones |
| Positions.NewRecord | include/game.hpp:26-33 | a fresh record carries the move, the moved and captured pieces and the prior flags and target, with all three special-move flags false |
| Positions.Initial | include/game.hpp:64-67 | a new game has white to move, all four castling flags set, no en passant target, empty history, play on |
| Positions.InitialConsistent | src/game.cpp:9-20 | the starting board keeps the invariant; the kings stand on e1 and e8 and the pawns fill rows 6 and 1 |
| MoveGen.PawnMovesSpec | src/game.cpp:212-230 | a pawn's candidates are exactly its push, double push from the start row through two empty squares, diagonal captures and the en passant square |
| MoveGen.KnightMovesSpec | src/game.cpp:231-238 | a knight's candidates are exactly the on-board offset squares not holding a piece of its own colour |
| MoveGen.KingStepsSpec | src/game.cpp:261-266 | a king's steps are exactly the eight neighbours on the board not holding its own colour |
| MoveGen.RaySpec | src/game.cpp:247-256 | one ray emits each empty square up to the first piece, plus that piece's square if it is an opponent |
| MoveGen.SlideMovesSpec | src/game.cpp:243-258 | a slider's candidates are the union of its rays over the bishop, rook or queen direction range |
| MoveGen.RayReachIsSlideReach | src/game.cpp:240-259 | the ray description agrees with the geometric one: same line, clear path, target empty or an opponent |
| MoveGen.RayStopsAtFirstPiece | src/game.cpp:246-256 | the first occupied square on a ray is emitted only when it holds an opponent, and no square beyond it is emitted |
| MoveGen.RayBlockedBeyond | src/game.cpp:249-255 | once a ray meets a piece, no later step of that ray is emitted |
| MoveGen.PieceMovesSpec | src/game.cpp:206-273 | the candidates from one square are those of the piece standing there, and none for an empty square or one of the other colour |
| MoveGen.ScanRowsSpec | src/game.cpp:204-205 | the scan over rows and files collects the candidates of every square on the board |
| MoveGen.ScanRowSpec | src/game.cpp:205-206 | the scan along one row collects the candidates of each square from a file on |
| MoveGen.PseudoLegalMovesSpec | src/game.cpp:202-277 | a move is generated exactly when the reference description of pseudo-legal moves admits it |
| MoveGen.PseudoLegalMovesOnBoard | src/game.cpp:202-277 | every generated move starts and ends on the board on two different squares |
| MoveGen.PseudoPawnMove | src/game.cpp:207-230 | a generated move of a pawn (with no pawns on the back rows) is a move of the mover's own pawn by pawn rules |
| Attacks.AttackedIffReached | src/game.cpp:191-197 | a square is attacked by a side exactly when some pseudo-legal move of that side ends on it; attacked squares are on the board |
| Attacks.PawnPushIsAttack | src/game.cpp:191-197 | a pawn's push square counts as attacked, as the oracle reuses the generator |
| Attacks.FirstInRow | src/game.cpp:325-327 | the search within a row returns the first file holding the king, or -1 when none does |
| Attacks.KingSearchNone | src/game.cpp:323-328 | with no king from a row on, the search keeps what it found before |
| Attacks.KingSearchLast | src/game.cpp:323-328 | the search ends on the last row holding a king, at the first such file |
| Attacks.KingSquare | src/game.cpp:322-328 | (-1, -1) exactly when there is no king; otherwise a king square that no other king follows in row order |
| Attacks.InCheck | src/game.cpp:322-330 | a side without a king is never in check; a side in check has a king standing on an attacked square |
| Attacks.InCheckSingleKing | src/game.cpp:322-330 | with a single king, check means exactly that its square is attacked |
| Legality.SimulateRevert | src/game.cpp:300-313 | trying a move and reverting it restores the board, provided an en passant victim really stood behind the target |
| Legality.LegalMoves | src/game.cpp:282-316 | the legal moves are a subset of the pseudo-legal moves of the side to move |
| Legality.LegalCastlingIsSafe | src/game.cpp:290-298 | a legal castling move starts out of check and neither passes over nor lands on an attacked square |
| Legality.CastlingRefused | src/game.cpp:293-298 | a castling move that fails any of the three safety conditions is not legal |
| Legality.EnPassantVictimPresent | src/game.cpp:224-228 | on a consistent position an en passant-shaped candidate lands on the target, one row forward, with an opponent pawn behind it |
| Legality.TrialStep | src/game.cpp:300-313 | on a consistent position one trial restores the board, and a candidate past the castling conditions is legal exactly when the king is safe on the trial board |
| Legality.TryCandidate | src/game.cpp:286-314 | on a consistent position, tried on its untouched board, one pass of the loop body returns the board unchanged and admits the candidate exactly when it is legal |
| Legality.FilterStep | src/game.cpp:286-314 | one turn of the loop tries one untried candidate; on a consistent position the kept moves are exactly the legal ones among those tried and the board is back as it was |
| Legality.FilterLegal | src/game.cpp:282-316 | the loop returns a subset of the pseudo-legal moves; on a consistent position it returns exactly the legal moves and the board unchanged |
| Execution.RecordMove | src/game.cpp:338-367 | the record keeps the move, the prior flags and target, flags en passant, castling and promotion exactly on their shapes, takes the victim square on en passant and names the rook's squares on castling |
| Execution.NewRightsSpec | src/game.cpp:385-399 | a flag stays set exactly when it was set and neither a king move (index of the mover) nor a corner rook leaving or being captured (index 0 for 'R', 1 for 'r') clears it |
| Execution.NewTarget | src/game.cpp:379-383 | a target is set exactly after a pawn moves two rows, on the pawn's file and one row from each end of the move |
| Execution.ExecuteWith | src/game.cpp:401-403 | executing a move flips the side to move, keeps the status and pushes exactly its record |
| Execution.CheckGameState | src/game.cpp:447-455 | classification changes nothing but the status |
| Execution.HandleMove | src/game.cpp:335-405 | a move that is not legal changes nothing; a legal one flips the side and grows the history by one |
| Execution.Undo | src/game.cpp:410-442 | undo of an empty history changes nothing; otherwise it pops one record and the game is in play |
| Execution.RoundTripPlain | src/game.cpp:369-377 | for an ordinary or promoting move, unplaying restores the origin (demoting a queen to the pawn) and the captured piece, and so the board |
| Execution.RoundTripEnPassant | src/game.cpp:348-354 | for en passant, unplaying empties the landing square and puts the taken pawn back behind it, restoring the board |
| Execution.RoundTripCastling | src/game.cpp:355-367 | for castling, unplaying moves the king and the rook back to their squares, restoring the board |
| Execution.BoardRoundTrip | src/game.cpp:417-435 | for a move whose squares can be restored, unplaying its record on the played board gives back the board |
| Execution.UndoExecute | src/game.cpp:410-442 | executing a restorable move and undoing it restores board, flags, target, side and history, with play resumed |
| Execution.UndoHandleMove | src/game.cpp:410-442 | after a legal move on a consistent position, undo gives back the position exactly, with play resumed |
| Execution.PseudoMoveRestorable | src/game.cpp:202-277 | every generated move of a position without back-row pawns can be taken back exactly |
| Execution.LegalRestorable | src/game.cpp:282-316 | a legal move on a consistent position is on the board, moves an own pawn and, when castling, crosses an empty square |
| Execution.ExecuteBoard | src/game.cpp:348-377 | after the move the origin is empty, the destination holds the piece or a queen of the mover on promotion, an en passant victim is gone, a castling rook has moved, and every other square is unchanged |
| Execution.ExecuteNoBackRowPawns | src/game.cpp:370-377 | promotion keeps pawns off the back rows |
| Execution.ExecuteEnPassantTarget | src/game.cpp:379-383 | after a double step the new target is the skipped square with the pawn just beyond it |
| Execution.HandleMoveConsistent | src/game.cpp:335-405 | every call of `handleMove` keeps the position consistent |
| Execution.HandleMoveRights | src/game.cpp:385-399 | no castling flag is ever raised, and a king move clears both flags at the mover's index |
| Execution.HandleMoveEnPassant | src/game.cpp:379-383 | after a legal move the target is set exactly when a pawn made its double step from its start row, and it is then the skipped square |
| Execution.ExecuteTargetIff | src/game.cpp:379-383 | the same statement for any generated move, before the status is classified |
| Execution.CheckGameStateInPlace | src/game.cpp:447-455 | classifying with the board the in-place filter leaves keeps the side and history, and on a consistent position equals `CheckGameState` |
| Execution.HandleMoveInPlace | src/game.cpp:335-405 | `handleMove` with the in-place filter and the board it leaves equals `HandleMove` on every consistent position, so the trials leave no trace there |
| Execution.ExecutedConsistent | src/game.cpp:335-403 | a legal move on a consistent position leads, before classification, to a consistent position |
| Execution.GameStateMeaning | src/game.cpp:447-455 | checkmate exactly when no move is admissible and the side is in check, stalemate when none is and it is not, play on otherwise |
| Execution.ExecuteMatchesTrial | src/game.cpp:300-305 | except for castling and promotion, the board the executor leaves is the trial board the legality filter looked at |
| Findings.AsWrittenLosesCapturedPawn | src/game.cpp:340 | with the read as written, a legal pawn capture is taken back with the captured pawn missing |
| Findings.CorrectedRestoresCapturedPawn | src/game.cpp:340 | with the destination read, the same capture is taken back exactly |

## Left out

- Rendering, textures, fonts, the window, mouse handling and the event loop. These are SFML I/O.
- The header declares `handleMoves`, `newGame` and a `GameState` of `Menu`/`Playing`/`GameOver`, but the source uses `handleMove`, `mGameState` and `CHECKMATE`/`STALEMATE`/`PLAYING`. The model follows the source bodies and uses `Status = Playing | Checkmate | Stalemate`. `newGame` is not part of this model; a fresh game is `Positions.Initial`.
- The game-over text and its centring in `checkGameState` are display only.
- Off-board reads and writes are undefined in the source. A generated move reaches one in a single case: the en passant victim read and write of `handleMove` (src/game.cpp:349-353) and its restore in `undoMove` (src/game.cpp:425-429) for a castling candidate whose e1 or e8 origin holds a pawn, where the victim row is 8 or -1. `Consistent` excludes it, since it keeps pawns off rows 0 and 7. The model reads such a square as empty and drops such a write.
- `std::set` iteration order is not modelled: `FilterLegal` picks candidates in any order. On a `Consistent` position the filter's result does not depend on the order (`FilterLegal`). Elsewhere it can, because a pawn written back after an en passant trial changes how later candidates are judged, and `FilterLegal` then states only the subset property.
- Execution.HandleMove: takes the legality filter as leaving the board unchanged. The engine's filter writes the board in place, and on a position that is not `Consistent` an en passant trial may leave a pawn behind where none stood, even for a request it then rejects. `Execution.HandleMoveInPlace` runs the filter's loop and keeps the board it returns; it is proved equal to `HandleMove` on `Consistent` positions only.
- Execution.CheckGameState: takes the filter as leaving the board unchanged, as `HandleMove` does. `Execution.CheckGameStateInPlace` keeps the filter's board, and is proved equal to it on `Consistent` positions only.
- Legality.FilterLegal: only proved to return exactly the legal moves, with the board unchanged, on a consistent position. On other positions an en passant trial may put back a pawn that was never there, and only the subset property is stated.
- Execution.ExecuteMatchesTrial: connects the executed board to the trial board, but not for castling or promotion. "The mover is not in check after a legal move" is not stated in terms of the executed position, because the opponent's pseudo-legal moves also depend on the new castling flags and en passant target.
- Attacks.AttackedIffReached: the oracle counts every generated move, including pawn pushes and castling candidates. It does not count pawn diagonals to empty squares other than the en passant target; the en passant candidate is a pawn diagonal onto that empty square and is counted. On a consistent position the target lies on row 2 or row 5, never on a back row. The model keeps this and does not claim the oracle is the chess notion of attack. In particular, "attacked" in the rows of `Legality.LegalCastlingIsSafe` and `Legality.CastlingRefused` means reached by the oracle, so castling across or onto a square covered only by an opponent pawn's diagonal is accepted, as in the engine.
- Execution.Undo: sets the status to play on, as the code does, instead of restoring the status stored before the move.
- Promotion is always to a queen, as in the code. Draw rules such as repetition, the fifty-move rule and insufficient material are absent from the source.
- Whole-game scenarios (a first-move count of 20, Fool's mate, concrete stalemates) are not stated, because evaluating the generator on full boards is too costly for the verifier. One concrete position is worked through under "## Findings".

## Findings

| source | as written | input that shows it | evidently intended | confidence | as-written member | corrected member |
|---|---|---|---|---|---|---|
| src/game.cpp:340 | the captured piece is first read as `boardLogic[y2][y2]`, row y2 and column y2 | white king e1 (4,7), black king e8 (4,0), white pawn (4,4), black pawn (5,3), white to move; white plays (4,4)→(5,3). The read gives the empty (3,3), so the capture is recorded as en passant of the empty (5,4), and undo leaves (5,3) empty | `boardLogic[y2][x2]`, the destination square | high; not executed | Findings.AsWrittenLosesCapturedPawn | Findings.CorrectedRestoresCapturedPawn |
