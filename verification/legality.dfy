/**
 * The legality filter (`legalMoves`): the pseudo-legal moves of the side to
 * move that pass the castling safety rules and do not leave that side's king
 * attacked once the move is tried on the board.
 *
 * `LegalMoves` states the result as a set; `FilterLegal` follows the engine's
 * loop, which tries each candidate on the board in place and then puts the
 * board back, and proves that the board comes back unchanged and the result
 * is `LegalMoves` whenever the position is `Consistent`.
 */
module Legality {
  import opened Pieces
  import opened Boards
  import opened Positions
  import opened MoveGen
  import opened Attacks

  /** A pawn moving to another file onto an empty square: the engine treats it as en passant. */
  predicate IsEnPassantShape(pc: Piece, cap: Piece, m: MoveKey) {
    pc.Occupied? && pc.kind == Pawn && m.2 != m.0 && cap == Empty
  }

  /** A king (of either colour) moving two files: the engine treats it as castling. */
  predicate IsCastlingShape(pc: Piece, m: MoveKey) {
    pc.Occupied? && pc.kind == King && Abs(m.2 - m.0) == 2
  }

  /** The board while a candidate is tried: the piece moves, and an en passant victim is lifted. */
  function Simulate(b: Board, m: MoveKey): Board {
    var pc := At(b, m.0, m.1);
    var cap := At(b, m.2, m.3);
    var b1 := Put(Put(b, m.2, m.3, pc), m.0, m.1, Empty);
    if IsEnPassantShape(pc, cap, m) then Put(b1, m.2, m.1, Empty) else b1
  }

  /** Undoing the trial: the saved pieces go back, and an opponent pawn is put behind an en passant square. */
  function Revert(b: Board, m: MoveKey, pc: Piece, cap: Piece, white: bool): Board {
    var b1 := Put(Put(b, m.0, m.1, pc), m.2, m.3, cap);
    if IsEnPassantShape(pc, cap, m) then Put(b1, m.2, m.1, Occupied(Other(ColorOf(white)), Pawn)) else b1
  }

  /** Trying a move and undoing it gives back the board, provided an en passant victim was really there. */
  lemma SimulateRevert(b: Board, m: MoveKey, white: bool)
    requires InBounds(m.0, m.1) && InBounds(m.2, m.3) && (m.0 != m.2 || m.1 != m.3)
    requires IsEnPassantShape(At(b, m.0, m.1), At(b, m.2, m.3), m) ==>
               m.1 != m.3 && At(b, m.2, m.1) == Occupied(Other(ColorOf(white)), Pawn)
    ensures Revert(Simulate(b, m), m, At(b, m.0, m.1), At(b, m.2, m.3), white) == b
  {
    var r := Revert(Simulate(b, m), m, At(b, m.0, m.1), At(b, m.2, m.3), white);
    forall x, y | InBounds(x, y)
      ensures At(r, x, y) == At(b, x, y)
    {
    }
    BoardsEqual(r, b);
  }

  /** The file the king passes over when castling: the middle of its two files. */
  function PassedFile(m: MoveKey): int {
    (m.0 + m.2) / 2
  }

  /** Castling is refused out of check, through an attacked square, or onto one. */
  predicate CastlingSafe(s: State, m: MoveKey) {
    var w := s.whiteToMove;
    !InCheck(s, w) && !IsSquareAttacked(s, PassedFile(m), m.1, !w) && !IsSquareAttacked(s, m.2, m.3, !w)
  }

  /** After trying the move on the board, the mover's king is not attacked. */
  predicate KeepsKingSafe(s: State, m: MoveKey) {
    !InCheck(s.(board := Simulate(s.board, m)), s.whiteToMove)
  }

  predicate Admissible(s: State, m: MoveKey) {
    (IsCastlingShape(At(s.board, m.0, m.1), m) ==> CastlingSafe(s, m)) && KeepsKingSafe(s, m)
  }

  function LegalMoves(s: State): (r: set<MoveKey>)
    ensures r <= PseudoLegalMoves(s, s.whiteToMove)
  {
    set m | m in PseudoLegalMoves(s, s.whiteToMove) && Admissible(s, m)
  }

  /** A legal castling move starts out of check and neither crosses nor lands on an attacked square. */
  lemma LegalCastlingIsSafe(s: State, m: MoveKey)
    requires m in LegalMoves(s) && IsCastlingShape(At(s.board, m.0, m.1), m)
    ensures !InCheck(s, s.whiteToMove)
    ensures !IsSquareAttacked(s, PassedFile(m), m.1, !s.whiteToMove)
    ensures !IsSquareAttacked(s, m.2, m.3, !s.whiteToMove)
  {
    assert Admissible(s, m);
  }

  /** A pseudo-legal move that the engine would treat as en passant captures a real pawn behind the target. */
  lemma EnPassantVictimPresent(s: State, m: MoveKey)
    requires Consistent(s) && m in PseudoLegalMoves(s, s.whiteToMove)
    requires IsEnPassantShape(At(s.board, m.0, m.1), At(s.board, m.2, m.3), m)
    ensures s.enPassantTarget.Target? && s.enPassantTarget.x == m.2 && s.enPassantTarget.y == m.3
    ensures m.3 == m.1 + Dir(s.whiteToMove) && m.3 == PawnStartRow(!s.whiteToMove) + Dir(!s.whiteToMove)
    ensures At(s.board, m.2, m.1) == Occupied(Other(ColorOf(s.whiteToMove)), Pawn)
  {
    PseudoLegalMovesSpec(s, s.whiteToMove, m);
    PseudoPawnMove(s, s.whiteToMove, m);
    EnPassantPawnReach(s, m);
  }

  lemma EnPassantPawnReach(s: State, m: MoveKey)
    requires EnPassantPawnBehind(s) && PawnReach(s, s.whiteToMove, m.0, m.1, m.2, m.3)
    requires IsEnPassantShape(At(s.board, m.0, m.1), At(s.board, m.2, m.3), m)
    ensures s.enPassantTarget.Target? && s.enPassantTarget.x == m.2 && s.enPassantTarget.y == m.3
    ensures m.3 == m.1 + Dir(s.whiteToMove) && m.3 == PawnStartRow(!s.whiteToMove) + Dir(!s.whiteToMove)
    ensures At(s.board, m.2, m.1) == Occupied(Other(ColorOf(s.whiteToMove)), Pawn)
  {
  }

  /** A castling-shaped candidate that fails the safety rules is not legal. */
  lemma CastlingRefused(s: State, m: MoveKey)
    requires IsCastlingShape(At(s.board, m.0, m.1), m) && !CastlingSafe(s, m)
    ensures m !in LegalMoves(s)
  {
  }

  /**
   * One trial of the loop on a consistent position: the board comes back, and
   * a candidate that passed the castling rules is legal exactly when the king
   * is safe on the trial board.
   */
  lemma TrialStep(s: State, m: MoveKey)
    requires Consistent(s) && m in PseudoLegalMoves(s, s.whiteToMove)
    ensures Revert(Simulate(s.board, m), m, At(s.board, m.0, m.1), At(s.board, m.2, m.3), s.whiteToMove) == s.board
    ensures (IsCastlingShape(At(s.board, m.0, m.1), m) ==> CastlingSafe(s, m)) ==>
              (m in LegalMoves(s) <==> KeepsKingSafe(s, m))
  {
    var w := s.whiteToMove;
    PseudoLegalMovesOnBoard(s, w, m);
    if IsEnPassantShape(At(s.board, m.0, m.1), At(s.board, m.2, m.3), m) {
      EnPassantVictimPresent(s, m);
    }
    SimulateRevert(s.board, m, w);
  }

  /** The bookkeeping of the loop: `legal` holds the legal moves among the candidates tried so far. */
  lemma Tried<T>(legalSet: set<T>, candidates: set<T>, rest: set<T>, legal: set<T>, m: T, admitted: bool)
    requires rest <= candidates && legal == legalSet * (candidates - rest) && m in rest && (admitted <==> m in legalSet)
    ensures (if admitted then legal + {m} else legal) == legalSet * (candidates - (rest - {m}))
  {
  }

  /** Taking a tried candidate out of the set makes it smaller, so the loop ends. */
  lemma Shrinks<T>(rest: set<T>, m: T)
    requires m in rest
    ensures |rest - {m}| < |rest|
  {
  }

  lemma AllTried<T>(legalSet: set<T>, candidates: set<T>, legal: set<T>)
    requires legalSet <= candidates && legal == legalSet * (candidates - {})
    ensures legal == legalSet
  {
  }

  /**
   * One pass of the engine's loop body on the board as it stands: a castling
   * candidate that fails the safety rules is skipped, any other candidate is
   * played on the board in place, the mover's king is looked at, and the board
   * is put back.
   */
  method TryCandidate(s: State, board: Board, mv: MoveKey, ghost ok: bool) returns (admitted: bool, after: Board)
    requires ok ==> Consistent(s) && board == s.board && mv in PseudoLegalMoves(s, s.whiteToMove)
    ensures ok ==> after == s.board && (admitted <==> mv in LegalMoves(s))
  {
    var w := s.whiteToMove;
    var cur := s.(board := board);
    var pc := At(board, mv.0, mv.1);
    var cap := At(board, mv.2, mv.3);
    if IsCastlingShape(pc, mv) {
      if InCheck(cur, w) || IsSquareAttacked(cur, PassedFile(mv), mv.1, !w) || IsSquareAttacked(cur, mv.2, mv.3, !w) {
        if board == s.board {
          assert cur == s;
          CastlingRefused(s, mv);
        }
        return false, board;
      }
    }
    after := Simulate(board, mv);
    admitted := !InCheck(s.(board := after), w);
    after := Revert(after, mv, pc, cap, w);
    if Consistent(s) && board == s.board && mv in PseudoLegalMoves(s, w) {
      assert cur == s;
      TrialStep(s, mv);
    }
  }

  /**
   * One turn of the engine's loop: a candidate not yet tried is taken out of
   * `rest`, passed to `TryCandidate`, and kept in `legal` when admitted.
   */
  method FilterStep(s: State, candidates: set<MoveKey>, ghost legalSet: set<MoveKey>, ghost ok: bool,
                    rest: set<MoveKey>, legal: set<MoveKey>, board: Board)
    returns (rest': set<MoveKey>, legal': set<MoveKey>, board': Board)
    requires rest != {} && rest <= candidates && legal <= candidates
    requires candidates == PseudoLegalMoves(s, s.whiteToMove)
    requires ok ==> Consistent(s) && legalSet == LegalMoves(s) && board == s.board && legal == legalSet * (candidates - rest)
    ensures rest' <= rest && |rest'| < |rest| && legal' <= candidates
    ensures ok ==> board' == s.board && legal' == legalSet * (candidates - rest')
  {
    var mv :| mv in rest;
    var admitted;
    admitted, board' := TryCandidate(s, board, mv, ok);
    if ok {
      Tried(legalSet, candidates, rest, legal, mv, admitted);
    }
    legal' := if admitted then legal + {mv} else legal;
    Shrinks(rest, mv);
    rest' := rest - {mv};
  }

  /** The engine's loop over the pseudo-legal moves, keeping those that `TryCandidate` admits. */
  method FilterLegal(s: State) returns (legal: set<MoveKey>, board: Board)
    ensures legal <= PseudoLegalMoves(s, s.whiteToMove)
    ensures Consistent(s) ==> board == s.board && legal == LegalMoves(s)
  {
    var candidates := PseudoLegalMoves(s, s.whiteToMove);
    ghost var ok := Consistent(s);
    ghost var legalSet := if ok then LegalMoves(s) else {};
    var rest := candidates;
    legal := {};
    board := s.board;
    while rest != {}
      invariant rest <= candidates && legal <= candidates
      invariant ok ==> board == s.board && legal == legalSet * (candidates - rest)
      decreases |rest|
    {
      rest, legal, board := FilterStep(s, candidates, legalSet, ok, rest, legal, board);
    }
    if ok {
      AllTried(legalSet, candidates, legal);
    }
  }
}
