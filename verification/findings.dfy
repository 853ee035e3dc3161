/**
 * The captured-piece read of `handleMove` as the engine writes it.
 *
 * The engine first records the captured piece as `board[y2][y2]` (row y2,
 * column y2) instead of `board[y2][x2]`. `Execute` reads the destination
 * square; this module keeps the read as written and exhibits an ordinary pawn
 * capture that the written read turns into an en passant capture of nothing,
 * so that taking the move back loses the captured pawn.
 */
module Findings {
  import opened Pieces
  import opened Boards
  import opened Positions
  import opened MoveGen
  import opened Attacks
  import opened Legality
  import opened Execution

  /** `handleMove` after the legality test, with the captured piece first read from `board[y2][y2]`. */
  function ExecuteAsWritten(s: State, m: MoveKey): State
    requires InBounds(m.0, m.1) && InBounds(m.2, m.3)
  {
    ExecuteWith(s, m, At(s.board, m.3, m.3))
  }

  function HandleMoveAsWritten(s: State, m: MoveKey): (r: State)
    ensures m !in LegalMoves(s) ==> r == s
  {
    if m !in LegalMoves(s) then s
    else
      PseudoLegalMovesOnBoard(s, s.whiteToMove, m);
      CheckGameState(ExecuteAsWritten(s, m))
  }

  const EmptyBoard: Board := [EmptyRow, EmptyRow, EmptyRow, EmptyRow, EmptyRow, EmptyRow, EmptyRow, EmptyRow]

  /** White: king e1, pawn e4 (row 4). Black: king e8, pawn f5 (row 3). White to move. */
  function CaptureExample(): State {
    var b := Put(Put(Put(Put(EmptyBoard, 4, 7, Occupied(White, King)), 4, 0, Occupied(Black, King)),
                 4, 4, Occupied(White, Pawn)), 5, 3, Occupied(Black, Pawn));
    State(b, true, [true, true], [true, true], NoTarget, [], Playing)
  }

  /** The white pawn takes the black pawn: e4 x f5. */
  const PawnCapture: MoveKey := (4, 4, 5, 3)

  /** The board once the capture is tried: only the two kings and the white pawn on f5 remain. */
  function AfterCapture(x: int, y: int): Piece {
    if x == 4 && y == 7 then Occupied(White, King)
    else if x == 4 && y == 0 then Occupied(Black, King)
    else if x == 5 && y == 3 then Occupied(White, Pawn)
    else Empty
  }

  lemma SimulatedCapture()
    ensures forall x, y :: At(Simulate(CaptureExample().board, PawnCapture), x, y) == AfterCapture(x, y)
  {
  }

  /** No black piece reaches e1 on a board holding only the two kings and a white pawn. */
  lemma E1NotAttacked(t: State)
    requires forall x, y :: At(t.board, x, y) == AfterCapture(x, y)
    ensures !IsSquareAttacked(t, 4, 7, false)
  {
    AttackedIffReached(t, 4, 7, false);
    forall x1, y1
      ensures !PseudoMove(t, false, (x1, y1, 4, 7))
    {
      assert At(t.board, x1, y1) == AfterCapture(x1, y1);
    }
  }

  /** The white king stays safe once the capture is tried. */
  lemma CaptureKeepsKingSafe()
    ensures KeepsKingSafe(CaptureExample(), PawnCapture)
  {
    var s := CaptureExample();
    var t := s.(board := Simulate(s.board, PawnCapture));
    SimulatedCapture();
    assert IsKingOf(t.board, true, 4, 7);
    forall x, y | IsKingOf(t.board, true, x, y)
      ensures x == 4 && y == 7
    {
      assert At(t.board, x, y) == AfterCapture(x, y);
    }
    InCheckSingleKing(t, true, 4, 7);
    E1NotAttacked(t);
  }

  /** The example board before the capture. */
  function BeforeCapture(x: int, y: int): Piece {
    if x == 4 && y == 4 then Occupied(White, Pawn)
    else if x == 5 && y == 3 then Occupied(Black, Pawn)
    else AfterCapture(x, y)
  }

  lemma ExampleSquares()
    ensures forall x, y :: At(CaptureExample().board, x, y) == BeforeCapture(x, y)
  {
  }

  lemma ExampleConsistent()
    ensures Consistent(CaptureExample())
  {
    ExampleSquares();
  }

  lemma CaptureIsPseudoLegal()
    ensures Consistent(CaptureExample())
    ensures PawnCapture in PseudoLegalMoves(CaptureExample(), true)
  {
    ExampleConsistent();
    ExampleSquares();
    var s := CaptureExample();
    assert PawnReach(s, true, 4, 4, 5, 3);
    assert PseudoMove(s, true, PawnCapture);
    PseudoLegalMovesSpec(s, true, PawnCapture);
  }

  /** The capture is a legal move of the example position. */
  lemma CaptureIsLegal()
    ensures Consistent(CaptureExample())
    ensures PawnCapture in LegalMoves(CaptureExample())
  {
    CaptureIsPseudoLegal();
    CaptureKeepsKingSafe();
    assert Admissible(CaptureExample(), PawnCapture);
  }

  /** As written, the capture is recorded as en passant, and the piece recorded as captured is the empty f4. */
  lemma AsWrittenRecord()
    ensures var rec := RecordMove(CaptureExample(), PawnCapture, At(CaptureExample().board, 3, 3));
            rec.wasEnPassant && rec.captured == Empty
  {
  }

  lemma AsWrittenUndo()
    ensures At(Undo(ExecuteAsWritten(CaptureExample(), PawnCapture)).board, 5, 3) == Empty
  {
    AsWrittenRecord();
  }

  /**
   * As written, the capture is recorded as an en passant capture of the empty
   * square f4, and taking it back leaves f5 empty: the black pawn is lost.
   */
  lemma AsWrittenLosesCapturedPawn()
    ensures PawnCapture in LegalMoves(CaptureExample())
    ensures At(CaptureExample().board, 5, 3) == Occupied(Black, Pawn)
    ensures At(Undo(HandleMoveAsWritten(CaptureExample(), PawnCapture)).board, 5, 3) == Empty
    ensures Undo(HandleMoveAsWritten(CaptureExample(), PawnCapture)) != CaptureExample()
  {
    CaptureIsLegal();
    AsWrittenUndo();
    var s := CaptureExample();
    var e := ExecuteAsWritten(s, PawnCapture);
    assert HandleMoveAsWritten(s, PawnCapture) == CheckGameState(e);
    assert Undo(CheckGameState(e)).board == Undo(e).board;
  }

  /** With the destination read, the same capture is taken back exactly. */
  lemma CorrectedRestoresCapturedPawn()
    ensures Undo(HandleMove(CaptureExample(), PawnCapture)) == CaptureExample()
  {
    CaptureIsLegal();
    UndoHandleMove(CaptureExample(), PawnCapture);
  }
}
