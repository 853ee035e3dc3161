/**
 * Playing and taking back moves (`handleMove`, `undoMove`, `checkGameState`).
 *
 * A move is executed in the engine's order: the undo record is filled in
 * (captured piece, en passant, castling rook, promotion), the board is
 * changed, the en passant target and the castling flags are updated, the
 * record is pushed and the side to move flips. `Undo` pops the record and
 * reverses the board changes.
 */
module Execution {
  import opened Pieces
  import opened Boards
  import opened Positions
  import opened MoveGen
  import opened Attacks
  import opened Legality

  /** The row of the pawn taken en passant, `capY` of the engine: one row behind the landing square. */
  function VictimRow(white: bool, y2: int): int {
    if white then y2 + 1 else y2 - 1
  }

  /** A pawn (of either colour) landing on row 0 or row 7. */
  predicate IsPromotion(pc: Piece, m: MoveKey) {
    pc.Occupied? && pc.kind == Pawn && (m.3 == 0 || m.3 == 7)
  }

  /** The file the castling rook starts from: h for a king moving right, a otherwise. */
  function RookFrom(m: MoveKey): int {
    if m.2 > m.0 then 7 else 0
  }

  /** The file the castling rook lands on: f for a king moving right, d otherwise. */
  function RookTo(m: MoveKey): int {
    if m.2 > m.0 then 5 else 3
  }

  /**
   * The undo record of move `m`, with `firstRead` the piece first recorded as
   * captured (the destination square, once the engine's read is corrected).
   */
  function RecordMove(s: State, m: MoveKey, firstRead: Piece): (r: Move)
    ensures (r.x1, r.y1, r.x2, r.y2) == m && r.moved == At(s.board, m.0, m.1)
    ensures r.oldCastleK == s.canCastleK && r.oldCastleQ == s.canCastleQ && r.oldEnPassant == s.enPassantTarget
    ensures r.wasEnPassant <==> IsEnPassantShape(r.moved, firstRead, m)
    ensures r.captured == if r.wasEnPassant then At(s.board, m.2, VictimRow(s.whiteToMove, m.3)) else firstRead
    ensures r.wasCastling <==> IsCastlingShape(r.moved, m)
    ensures r.wasCastling ==> r.rookY1 == m.1 && r.rookY2 == m.1
    ensures r.wasCastling ==> r.rookX1 == RookFrom(m) && r.rookX2 == RookTo(m)
    ensures r.wasPromotion <==> IsPromotion(r.moved, m)
  {
    var b := s.board;
    var pc := At(b, m.0, m.1);
    var rec := NewRecord(m, pc, firstRead, s);
    var rec1 :=
      if IsEnPassantShape(pc, firstRead, m) then
        rec.(wasEnPassant := true, captured := At(b, m.2, VictimRow(s.whiteToMove, m.3)))
      else rec;
    var rec2 :=
      if !IsCastlingShape(pc, m) then rec1
      else rec1.(wasCastling := true, rookX1 := RookFrom(m), rookY1 := m.1, rookX2 := RookTo(m), rookY2 := m.1);
    if IsPromotion(pc, m) then rec2.(wasPromotion := true) else rec2
  }

  /** The board changes of a recorded move, in the engine's order. */
  function MoveBoard(b: Board, rec: Move, white: bool): Board {
    var b1 := if rec.wasEnPassant then Put(b, rec.x2, VictimRow(white, rec.y2), Empty) else b;
    var b2 :=
      if rec.wasCastling then
        Put(Put(b1, rec.rookX1, rec.rookY1, Empty), rec.rookX2, rec.rookY2, At(b1, rec.rookX1, rec.rookY1))
      else b1;
    var b3 := Put(Put(b2, rec.x2, rec.y2, rec.moved), rec.x1, rec.y1, Empty);
    if rec.wasPromotion then Put(b3, rec.x2, rec.y2, Occupied(ColorOf(white), Queen)) else b3
  }

  /** The board changes of `undoMove`, for a record made by side `white`. */
  function UnmoveBoard(b: Board, rec: Move, white: bool): Board {
    var piece := if rec.wasPromotion then Occupied(ColorOf(white), Pawn) else rec.moved;
    var b1 := Put(Put(b, rec.x1, rec.y1, piece), rec.x2, rec.y2, rec.captured);
    var b2 :=
      if rec.wasEnPassant then
        Put(Put(b1, rec.x2, rec.y2, Empty), rec.x2, VictimRow(white, rec.y2), rec.captured)
      else b1;
    if rec.wasCastling then
      Put(Put(b2, rec.rookX2, rec.rookY2, Empty), rec.rookX1, rec.rookY1, At(b2, rec.rookX2, rec.rookY2))
    else b2
  }

  const WhiteRook: Piece := Occupied(White, Rook)
  const BlackRook: Piece := Occupied(Black, Rook)

  /**
   * The castling flags after a move. A king move clears both flags at the
   * mover's index; a white rook leaving or captured on h1 (a1) clears the
   * king-side (queen-side) flag at index 0, a black rook on h8 (a8) the flag
   * at index 1.
   */
  function NewRights(s: State, rec: Move): (Flags, Flags) {
    var w := s.whiteToMove;
    var pc := rec.moved;
    var k0 := if pc.Occupied? && pc.kind == King then s.canCastleK[Index(w) := false] else s.canCastleK;
    var q0 := if pc.Occupied? && pc.kind == King then s.canCastleQ[Index(w) := false] else s.canCastleQ;
    var k1 := if pc == WhiteRook && rec.x1 == 7 && rec.y1 == 7 then k0[0 := false] else k0;
    var q1 := if pc == WhiteRook && rec.x1 == 0 && rec.y1 == 7 then q0[0 := false] else q0;
    var k2 := if pc == BlackRook && rec.x1 == 7 && rec.y1 == 0 then k1[1 := false] else k1;
    var q2 := if pc == BlackRook && rec.x1 == 0 && rec.y1 == 0 then q1[1 := false] else q1;
    var k3 := if rec.captured == WhiteRook && rec.x2 == 7 && rec.y2 == 7 then k2[0 := false] else k2;
    var q3 := if rec.captured == WhiteRook && rec.x2 == 0 && rec.y2 == 7 then q2[0 := false] else q2;
    var k4 := if rec.captured == BlackRook && rec.x2 == 7 && rec.y2 == 0 then k3[1 := false] else k3;
    var q4 := if rec.captured == BlackRook && rec.x2 == 0 && rec.y2 == 0 then q3[1 := false] else q3;
    (k4, q4)
  }

  /** The reason for clearing king-side flag `i`: the king moved, or the rook of that corner moved or was taken. */
  predicate LosesKingSide(w: bool, rec: Move, i: int) {
    || (i == Index(w) && rec.moved.Occupied? && rec.moved.kind == King)
    || (i == 0 && ((rec.moved == WhiteRook && rec.x1 == 7 && rec.y1 == 7) || (rec.captured == WhiteRook && rec.x2 == 7 && rec.y2 == 7)))
    || (i == 1 && ((rec.moved == BlackRook && rec.x1 == 7 && rec.y1 == 0) || (rec.captured == BlackRook && rec.x2 == 7 && rec.y2 == 0)))
  }

  predicate LosesQueenSide(w: bool, rec: Move, i: int) {
    || (i == Index(w) && rec.moved.Occupied? && rec.moved.kind == King)
    || (i == 0 && ((rec.moved == WhiteRook && rec.x1 == 0 && rec.y1 == 7) || (rec.captured == WhiteRook && rec.x2 == 0 && rec.y2 == 7)))
    || (i == 1 && ((rec.moved == BlackRook && rec.x1 == 0 && rec.y1 == 0) || (rec.captured == BlackRook && rec.x2 == 0 && rec.y2 == 0)))
  }

  /** Each flag is kept exactly when it was set and no reason to clear it applies; no flag is ever raised. */
  lemma NewRightsSpec(s: State, rec: Move, i: int)
    requires 0 <= i < 2
    ensures NewRights(s, rec).0[i] <==> s.canCastleK[i] && !LosesKingSide(s.whiteToMove, rec, i)
    ensures NewRights(s, rec).1[i] <==> s.canCastleQ[i] && !LosesQueenSide(s.whiteToMove, rec, i)
  {
  }

  /** The en passant target after a move: the skipped square of a two-row pawn move, otherwise none. */
  function NewTarget(rec: Move): (t: EnPassant)
    requires InBounds(rec.x1, rec.y1) && InBounds(rec.x2, rec.y2)
    ensures t.Target? <==> rec.moved.Occupied? && rec.moved.kind == Pawn && Abs(rec.y2 - rec.y1) == 2
    ensures t.Target? ==> t.x == rec.x1 && Abs(t.y - rec.y1) == 1 && Abs(t.y - rec.y2) == 1
  {
    if rec.moved.Occupied? && rec.moved.kind == Pawn && Abs(rec.y2 - rec.y1) == 2 then
      Target(rec.x1, (rec.y1 + rec.y2) / 2)
    else NoTarget
  }

  /** The body of `handleMove` after the legality test, with the first captured-piece read given. */
  function ExecuteWith(s: State, m: MoveKey, firstRead: Piece): (r: State)
    requires InBounds(m.0, m.1) && InBounds(m.2, m.3)
    ensures r.whiteToMove == !s.whiteToMove && r.status == s.status
    ensures r.moveHistory == s.moveHistory + [RecordMove(s, m, firstRead)]
  {
    var rec := RecordMove(s, m, firstRead);
    var rights := NewRights(s, rec);
    State(MoveBoard(s.board, rec, s.whiteToMove), !s.whiteToMove, rights.0, rights.1,
          NewTarget(rec), s.moveHistory + [rec], s.status)
  }

  /** The captured piece is read from the destination square `board[y2][x2]`. */
  function Execute(s: State, m: MoveKey): State
    requires InBounds(m.0, m.1) && InBounds(m.2, m.3)
  {
    ExecuteWith(s, m, At(s.board, m.2, m.3))
  }

  /** `checkGameState`: with no legal move left, checkmate if in check and stalemate otherwise. */
  function CheckGameState(s: State): (r: State)
    ensures r == s.(status := r.status)
  {
    if LegalMoves(s) == {} then
      s.(status := if InCheck(s, s.whiteToMove) then Checkmate else Stalemate)
    else s
  }

  /** `handleMove`: a move that is not legal leaves everything as it was. */
  function HandleMove(s: State, m: MoveKey): (r: State)
    ensures m !in LegalMoves(s) ==> r == s
    ensures m in LegalMoves(s) ==> r.whiteToMove == !s.whiteToMove && |r.moveHistory| == |s.moveHistory| + 1
  {
    if m !in LegalMoves(s) then s
    else
      PseudoLegalMovesOnBoard(s, s.whiteToMove, m);
      CheckGameState(Execute(s, m))
  }

  /** `undoMove`: with an empty history nothing happens. */
  function Undo(s: State): (r: State)
    ensures |s.moveHistory| == 0 ==> r == s
    ensures |s.moveHistory| > 0 ==> r.moveHistory == s.moveHistory[..|s.moveHistory| - 1] && r.status == Playing
  {
    if |s.moveHistory| == 0 then s
    else
      var rec := s.moveHistory[|s.moveHistory| - 1];
      var w := !s.whiteToMove;
      State(UnmoveBoard(s.board, rec, w), w, rec.oldCastleK, rec.oldCastleQ, rec.oldEnPassant,
            s.moveHistory[..|s.moveHistory| - 1], Playing)
  }

  // ----------------------------------------------------------------------
  // Undo takes a move back
  // ----------------------------------------------------------------------

  /** The castling squares: the king starts on file 4 and the square the rook lands on is empty. */
  predicate CastlingSquares(b: Board, m: MoveKey) {
    && m.0 == 4 && m.1 == m.3
    && ((m.2 == 6 && At(b, 5, m.1) == Empty) || (m.2 == 2 && At(b, 3, m.1) == Empty))
  }

  /**
   * What the round trip needs of a move: two distinct squares on the board, a
   * pawn that moves belongs to the mover, and a castling-shaped move is a real
   * castling move.
   */
  predicate Restorable(s: State, m: MoveKey) {
    var pc := At(s.board, m.0, m.1);
    && InBounds(m.0, m.1) && InBounds(m.2, m.3) && (m.0 != m.2 || m.1 != m.3)
    && (pc.Occupied? && pc.kind == Pawn ==> pc.color == ColorOf(s.whiteToMove))
    && (IsCastlingShape(pc, m) ==> CastlingSquares(s.board, m))
  }

  lemma RoundTripPlain(b: Board, rec: Move, w: bool)
    requires !rec.wasEnPassant && !rec.wasCastling
    requires InBounds(rec.x1, rec.y1) && InBounds(rec.x2, rec.y2) && (rec.x1 != rec.x2 || rec.y1 != rec.y2)
    requires rec.moved == At(b, rec.x1, rec.y1) && rec.captured == At(b, rec.x2, rec.y2)
    requires rec.wasPromotion ==> rec.moved == Occupied(ColorOf(w), Pawn)
    ensures UnmoveBoard(MoveBoard(b, rec, w), rec, w) == b
  {
    var r := UnmoveBoard(MoveBoard(b, rec, w), rec, w);
    forall x, y | InBounds(x, y)
      ensures At(r, x, y) == At(b, x, y)
    {
    }
    BoardsEqual(r, b);
  }

  lemma RoundTripEnPassant(b: Board, rec: Move, w: bool)
    requires rec.wasEnPassant && !rec.wasCastling
    requires InBounds(rec.x1, rec.y1) && InBounds(rec.x2, rec.y2) && rec.x1 != rec.x2
    requires rec.moved == At(b, rec.x1, rec.y1) && At(b, rec.x2, rec.y2) == Empty
    requires rec.captured == At(b, rec.x2, VictimRow(w, rec.y2))
    requires rec.wasPromotion ==> rec.moved == Occupied(ColorOf(w), Pawn)
    ensures UnmoveBoard(MoveBoard(b, rec, w), rec, w) == b
  {
    var r := UnmoveBoard(MoveBoard(b, rec, w), rec, w);
    forall x, y | InBounds(x, y)
      ensures At(r, x, y) == At(b, x, y)
    {
    }
    BoardsEqual(r, b);
  }

  lemma RoundTripCastling(b: Board, rec: Move, w: bool)
    requires rec.wasCastling && !rec.wasEnPassant && !rec.wasPromotion
    requires 0 <= rec.y1 < 8 && rec.x1 == 4 && rec.y2 == rec.y1 && rec.rookY1 == rec.y1 && rec.rookY2 == rec.y1
    requires (rec.x2 == 6 || rec.x2 == 2) && rec.rookX1 == RookFrom((rec.x1, rec.y1, rec.x2, rec.y2))
    requires rec.rookX2 == RookTo((rec.x1, rec.y1, rec.x2, rec.y2))
    requires At(b, rec.rookX2, rec.y1) == Empty
    requires rec.moved == At(b, rec.x1, rec.y1) && rec.captured == At(b, rec.x2, rec.y2)
    ensures UnmoveBoard(MoveBoard(b, rec, w), rec, w) == b
  {
    var r := UnmoveBoard(MoveBoard(b, rec, w), rec, w);
    forall x, y | InBounds(x, y)
      ensures At(r, x, y) == At(b, x, y)
    {
    }
    BoardsEqual(r, b);
  }

  /** Undoing the board changes of a move restores the board it was played on. */
  lemma BoardRoundTrip(s: State, m: MoveKey)
    requires Restorable(s, m)
    ensures var rec := RecordMove(s, m, At(s.board, m.2, m.3));
            UnmoveBoard(MoveBoard(s.board, rec, s.whiteToMove), rec, s.whiteToMove) == s.board
  {
    var b, w := s.board, s.whiteToMove;
    var rec := RecordMove(s, m, At(b, m.2, m.3));
    if rec.wasEnPassant {
      RoundTripEnPassant(b, rec, w);
    } else if rec.wasCastling {
      RoundTripCastling(b, rec, w);
    } else {
      RoundTripPlain(b, rec, w);
    }
  }

  /** Executing a restorable move and undoing it gives back the position, with play resumed. */
  lemma UndoExecute(s: State, m: MoveKey)
    requires Restorable(s, m)
    ensures Undo(Execute(s, m)) == s.(status := Playing)
  {
    BoardRoundTrip(s, m);
    var e := Execute(s, m);
    var rec := RecordMove(s, m, At(s.board, m.2, m.3));
    assert e.moveHistory[|e.moveHistory| - 1] == rec;
    assert e.moveHistory[..|e.moveHistory| - 1] == s.moveHistory;
  }

  /** Every pseudo-legal move of a consistent position can be taken back. */
  lemma PseudoMoveRestorable(s: State, m: MoveKey)
    requires NoBackRowPawns(s.board) && PseudoMove(s, s.whiteToMove, m)
    ensures Restorable(s, m)
  {
    PseudoMoveOnBoard(s, s.whiteToMove, m);
  }

  lemma LegalRestorable(s: State, m: MoveKey)
    requires Consistent(s) && m in LegalMoves(s)
    ensures Restorable(s, m)
  {
    PseudoLegalMovesSpec(s, s.whiteToMove, m);
    PseudoMoveRestorable(s, m);
  }

  /** Playing a legal move and undoing it gives back the position, with play resumed. */
  lemma UndoHandleMove(s: State, m: MoveKey)
    requires Consistent(s) && m in LegalMoves(s)
    ensures Undo(HandleMove(s, m)) == s.(status := Playing)
  {
    LegalRestorable(s, m);
    UndoExecute(s, m);
    assert Undo(HandleMove(s, m)) == Undo(Execute(s, m));
  }

  // ----------------------------------------------------------------------
  // What a move does to the board and to the invariant
  // ----------------------------------------------------------------------

  /** The squares a move may change: its two squares, the en passant victim's and the castling rook's. */
  predicate Touched(s: State, m: MoveKey, x: int, y: int) {
    var pc := At(s.board, m.0, m.1);
    || (x == m.0 && y == m.1) || (x == m.2 && y == m.3)
    || (IsEnPassantShape(pc, At(s.board, m.2, m.3), m) && x == m.2 && y == VictimRow(s.whiteToMove, m.3))
    || (IsCastlingShape(pc, m) && y == m.1 && (x == RookFrom(m) || x == RookTo(m)))
  }

  /**
   * The board after a restorable move: the origin is empty, the destination
   * holds the moved piece (a queen of the mover after a promotion), an en
   * passant victim is gone, a castling rook has jumped to the other side of
   * the king, and every other square is unchanged.
   */
  lemma ExecuteBoard(s: State, m: MoveKey)
    requires Restorable(s, m)
    ensures At(Execute(s, m).board, m.0, m.1) == Empty
    ensures At(Execute(s, m).board, m.2, m.3) ==
              if IsPromotion(At(s.board, m.0, m.1), m) then Occupied(ColorOf(s.whiteToMove), Queen) else At(s.board, m.0, m.1)
    ensures IsEnPassantShape(At(s.board, m.0, m.1), At(s.board, m.2, m.3), m) ==>
              At(Execute(s, m).board, m.2, VictimRow(s.whiteToMove, m.3)) == Empty
    ensures IsCastlingShape(At(s.board, m.0, m.1), m) ==>
              At(Execute(s, m).board, RookFrom(m), m.1) == Empty &&
              At(Execute(s, m).board, RookTo(m), m.1) == At(s.board, RookFrom(m), m.1)
    ensures forall x, y :: InBounds(x, y) && !Touched(s, m, x, y) ==> At(Execute(s, m).board, x, y) == At(s.board, x, y)
  {
  }

  /** No move puts a pawn on a back row: a pawn arriving there is promoted, and a castling rook stays on its row. */
  lemma ExecuteNoBackRowPawns(s: State, m: MoveKey)
    requires NoBackRowPawns(s.board) && Restorable(s, m)
    ensures NoBackRowPawns(Execute(s, m).board)
  {
    ExecuteBoard(s, m);
  }

  /** A pawn's two-row move is the double step from its starting row, on its own file. */
  lemma PawnTwoRows(s: State, m: MoveKey)
    requires NoBackRowPawns(s.board) && PseudoMove(s, s.whiteToMove, m)
    requires At(s.board, m.0, m.1).Occupied? && At(s.board, m.0, m.1).kind == Pawn && Abs(m.3 - m.1) == 2
    ensures m.0 == m.2 && m.1 == PawnStartRow(s.whiteToMove) && m.3 == m.1 + 2 * Dir(s.whiteToMove)
  {
    PseudoPawnMove(s, s.whiteToMove, m);
  }

  /** After a double step the new target is the skipped square, with the pawn just beyond it. */
  lemma ExecuteEnPassantTarget(s: State, m: MoveKey)
    requires Restorable(s, m)
    requires var pc := At(s.board, m.0, m.1);
             pc.Occupied? && pc.kind == Pawn && Abs(m.3 - m.1) == 2 ==>
               m.0 == m.2 && m.1 == PawnStartRow(s.whiteToMove) && m.3 == m.1 + 2 * Dir(s.whiteToMove)
    ensures EnPassantPawnBehind(Execute(s, m))
    ensures Execute(s, m).enPassantTarget.Target? ==>
              Execute(s, m).enPassantTarget == Target(m.0, m.1 + Dir(s.whiteToMove))
  {
    ExecuteBoard(s, m);
  }

  /** A consistent position stays consistent after any move `handleMove` accepts, and after a rejected one. */
  lemma HandleMoveConsistent(s: State, m: MoveKey)
    requires Consistent(s)
    ensures Consistent(HandleMove(s, m))
  {
    if m in LegalMoves(s) {
      PseudoLegalMovesSpec(s, s.whiteToMove, m);
      PseudoMoveRestorable(s, m);
      ExecuteNoBackRowPawns(s, m);
      var pc := At(s.board, m.0, m.1);
      if pc.Occupied? && pc.kind == Pawn && Abs(m.3 - m.1) == 2 {
        PawnTwoRows(s, m);
      }
      ExecuteEnPassantTarget(s, m);
      assert HandleMove(s, m) == CheckGameState(Execute(s, m));
    }
  }

  /** A move never raises a castling flag; a king move clears both flags at the mover's index. */
  lemma HandleMoveRights(s: State, m: MoveKey, i: int)
    requires 0 <= i < 2
    ensures HandleMove(s, m).canCastleK[i] ==> s.canCastleK[i]
    ensures HandleMove(s, m).canCastleQ[i] ==> s.canCastleQ[i]
    ensures m in LegalMoves(s) && At(s.board, m.0, m.1).Occupied? && At(s.board, m.0, m.1).kind == King ==>
              !HandleMove(s, m).canCastleK[Index(s.whiteToMove)] && !HandleMove(s, m).canCastleQ[Index(s.whiteToMove)]
  {
    if m in LegalMoves(s) {
      PseudoLegalMovesOnBoard(s, s.whiteToMove, m);
      var rec := RecordMove(s, m, At(s.board, m.2, m.3));
      NewRightsSpec(s, rec, i);
      NewRightsSpec(s, rec, Index(s.whiteToMove));
      assert HandleMove(s, m) == CheckGameState(Execute(s, m));
    }
  }

  /**
   * The en passant target lasts one move: after a legal move it is set exactly
   * when that move was a pawn's double step, and it is then the skipped square.
   */
  lemma HandleMoveEnPassant(s: State, m: MoveKey)
    requires Consistent(s) && m in LegalMoves(s)
    ensures var pc := At(s.board, m.0, m.1);
            HandleMove(s, m).enPassantTarget.Target? <==>
              pc.Occupied? && pc.kind == Pawn && m.0 == m.2 && m.1 == PawnStartRow(s.whiteToMove) && m.3 == m.1 + 2 * Dir(s.whiteToMove)
    ensures HandleMove(s, m).enPassantTarget.Target? ==>
              HandleMove(s, m).enPassantTarget == Target(m.0, m.1 + Dir(s.whiteToMove))
  {
    PseudoLegalMovesSpec(s, s.whiteToMove, m);
    PseudoMoveRestorable(s, m);
    ExecuteTargetIff(s, m);
    assert HandleMove(s, m) == CheckGameState(Execute(s, m));
  }

  /** The target after executing a pseudo-legal move, stated without the legality filter. */
  lemma ExecuteTargetIff(s: State, m: MoveKey)
    requires NoBackRowPawns(s.board) && PseudoMove(s, s.whiteToMove, m) && Restorable(s, m)
    ensures var pc := At(s.board, m.0, m.1);
            Execute(s, m).enPassantTarget.Target? <==>
              pc.Occupied? && pc.kind == Pawn && m.0 == m.2 && m.1 == PawnStartRow(s.whiteToMove) && m.3 == m.1 + 2 * Dir(s.whiteToMove)
    ensures Execute(s, m).enPassantTarget.Target? ==>
              Execute(s, m).enPassantTarget == Target(m.0, m.1 + Dir(s.whiteToMove))
  {
    var pc := At(s.board, m.0, m.1);
    if pc.Occupied? && pc.kind == Pawn && Abs(m.3 - m.1) == 2 {
      PawnTwoRows(s, m);
    }
    ExecuteEnPassantTarget(s, m);
  }

  /**
   * The status after `checkGameState` on a game in play: checkmate when the
   * side to move is in check and no pseudo-legal move is admissible,
   * stalemate when it is not in check and none is, play on otherwise.
   */
  lemma GameStateMeaning(s: State)
    requires s.status == Playing
    ensures var none := forall m :: m in PseudoLegalMoves(s, s.whiteToMove) ==> !Admissible(s, m);
            && (CheckGameState(s).status == Checkmate <==> none && InCheck(s, s.whiteToMove))
            && (CheckGameState(s).status == Stalemate <==> none && !InCheck(s, s.whiteToMove))
            && (CheckGameState(s).status == Playing <==> !none)
  {
    if forall m :: m in PseudoLegalMoves(s, s.whiteToMove) ==> !Admissible(s, m) {
      assert LegalMoves(s) == {};
    } else {
      var m :| m in PseudoLegalMoves(s, s.whiteToMove) && Admissible(s, m);
      assert m in LegalMoves(s);
    }
  }

  /**
   * Apart from castling and promotion, a legal move leaves on the board
   * exactly what the legality filter's trial left there, so the position the
   * filter judged is the position reached.
   */
  lemma ExecuteMatchesTrial(s: State, m: MoveKey)
    requires Consistent(s) && m in PseudoLegalMoves(s, s.whiteToMove)
    requires !IsCastlingShape(At(s.board, m.0, m.1), m) && !IsPromotion(At(s.board, m.0, m.1), m)
    ensures InBounds(m.0, m.1) && InBounds(m.2, m.3)
    ensures Execute(s, m).board == Simulate(s.board, m)
  {
    PseudoLegalMovesOnBoard(s, s.whiteToMove, m);
    if IsEnPassantShape(At(s.board, m.0, m.1), At(s.board, m.2, m.3), m) {
      EnPassantVictimPresent(s, m);
    }
    TrialBoard(s, m);
  }

  lemma TrialBoard(s: State, m: MoveKey)
    requires InBounds(m.0, m.1) && InBounds(m.2, m.3) && (m.0 != m.2 || m.1 != m.3)
    requires !IsCastlingShape(At(s.board, m.0, m.1), m) && !IsPromotion(At(s.board, m.0, m.1), m)
    requires IsEnPassantShape(At(s.board, m.0, m.1), At(s.board, m.2, m.3), m) ==> m.3 == m.1 + Dir(s.whiteToMove)
    ensures Execute(s, m).board == Simulate(s.board, m)
  {
    var r, t := Execute(s, m).board, Simulate(s.board, m);
    forall x, y | InBounds(x, y)
      ensures At(r, x, y) == At(t, x, y)
    {
    }
    BoardsEqual(r, t);
  }

  // ----------------------------------------------------------------------
  // The engine's calls, keeping the board the filter leaves behind
  // ----------------------------------------------------------------------

  /**
   * `checkGameState` as the engine runs it: the filter tries every candidate on
   * the board in place, and the classification goes on from the board it
   * leaves. On a consistent position that board is the one it started from,
   * so the engine's call is `CheckGameState`.
   */
  method CheckGameStateInPlace(s: State) returns (r: State)
    ensures r.whiteToMove == s.whiteToMove && r.moveHistory == s.moveHistory
    ensures Consistent(s) ==> r == CheckGameState(s)
  {
    var legal, board := FilterLegal(s);
    r := s.(board := board);
    if legal == {} {
      r := r.(status := if InCheck(r, r.whiteToMove) then Checkmate else Stalemate);
    }
  }

  /**
   * `handleMove` as the engine runs it: the legality filter runs on the board
   * in place, a rejected request returns with the board the filter left, and
   * an accepted one is executed on that board and classified. On a consistent
   * position this is `HandleMove`, so the filter's trials leave no trace.
   */
  method HandleMoveInPlace(s: State, m: MoveKey) returns (r: State)
    ensures Consistent(s) ==> r == HandleMove(s, m)
  {
    var legal, board := FilterLegal(s);
    var cur := s.(board := board);
    if m !in legal {
      return cur;
    }
    PseudoLegalMovesOnBoard(s, s.whiteToMove, m);
    var next := Execute(cur, m);
    if Consistent(s) {
      ExecutedConsistent(s, m);
    }
    r := CheckGameStateInPlace(next);
  }

  /** The position a legal move leads to, before it is classified, is consistent. */
  lemma ExecutedConsistent(s: State, m: MoveKey)
    requires Consistent(s) && m in LegalMoves(s)
    ensures InBounds(m.0, m.1) && InBounds(m.2, m.3)
    ensures Consistent(Execute(s, m))
    ensures HandleMove(s, m) == CheckGameState(Execute(s, m))
  {
    HandleMoveConsistent(s, m);
    PseudoLegalMovesOnBoard(s, s.whiteToMove, m);
    var e := Execute(s, m);
    assert HandleMove(s, m) == CheckGameState(e);
    assert CheckGameState(e) == e.(status := CheckGameState(e).status);
  }
}
