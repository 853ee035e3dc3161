/**
 * The engine's game state: board, side to move, castling flags, en passant
 * target, move history and game status, plus the `Move` record that makes a
 * move undoable.
 */
module Positions {
  import opened Pieces
  import opened Boards

  type Coord = i: int | 0 <= i < 8

  /**
   * A two-element flag array indexed by a boolean, as `canCastleK[w]` is in
   * the engine: index 1 is read for `true` (white), index 0 for `false`.
   */
  type Flags = f: seq<bool> | |f| == 2 witness [true, true]

  function Index(white: bool): (i: int)
    ensures 0 <= i < 2
  {
    if white then 1 else 0
  }

  /** The en passant target; the engine writes "no target" as (-1, -1). */
  datatype EnPassant = NoTarget | Target(x: Coord, y: Coord)

  datatype Status = Playing | Checkmate | Stalemate

  /** A move as the engine keys it: (x1, y1, x2, y2). */
  type MoveKey = (int, int, int, int)

  /** The undo record. The rook squares mean something only when `wasCastling`. */
  datatype Move = Move(
    x1: int, y1: int, x2: int, y2: int,
    moved: Piece, captured: Piece,
    wasEnPassant: bool, wasCastling: bool, wasPromotion: bool,
    rookX1: int, rookY1: int, rookX2: int, rookY2: int,
    oldCastleK: Flags, oldCastleQ: Flags,
    oldEnPassant: EnPassant)

  datatype State = State(
    board: Board,
    whiteToMove: bool,
    canCastleK: Flags,
    canCastleQ: Flags,
    enPassantTarget: EnPassant,
    moveHistory: seq<Move>,
    status: Status)

  /** A record as first filled in by the move executor: no special move yet. */
  function NewRecord(m: MoveKey, moved: Piece, captured: Piece, s: State): (r: Move)
    ensures !r.wasEnPassant && !r.wasCastling && !r.wasPromotion
    ensures (r.x1, r.y1, r.x2, r.y2) == m && r.moved == moved && r.captured == captured
    ensures r.oldCastleK == s.canCastleK && r.oldCastleQ == s.canCastleQ
    ensures r.oldEnPassant == s.enPassantTarget
  {
    Move(m.0, m.1, m.2, m.3, moved, captured, false, false, false, 0, 0, 0, 0,
         s.canCastleK, s.canCastleQ, s.enPassantTarget)
  }

  /** The state of a new game. */
  function Initial(): (s: State)
    ensures s.whiteToMove
    ensures s.canCastleK[0] && s.canCastleK[1] && s.canCastleQ[0] && s.canCastleQ[1]
    ensures s.enPassantTarget == NoTarget
    ensures s.moveHistory == [] && s.status == Playing
  {
    State(InitialBoard(), true, [true, true], [true, true], NoTarget, [], Playing)
  }

  function Dir(white: bool): int {
    if white then -1 else 1
  }

  /** WHITE_PAWN_START_ROW and BLACK_PAWN_START_ROW. */
  function PawnStartRow(white: bool): int {
    if white then 6 else 1
  }

  /** WHITE_BACK_ROW and BLACK_BACK_ROW. */
  function BackRow(white: bool): int {
    if white then 7 else 0
  }

  /** No pawn of either colour stands on row 0 or row 7. */
  predicate NoBackRowPawns(b: Board) {
    forall x, y :: 0 <= x < 8 && 0 <= y < 8 && (y == 0 || y == 7) && At(b, x, y).Occupied? ==> At(b, x, y).kind != Pawn
  }

  /**
   * When an en passant target is set, it is the square the opponent's last
   * double step skipped, and that opponent pawn stands just beyond it (seen
   * from the side to move).
   */
  predicate EnPassantPawnBehind(s: State) {
    match s.enPassantTarget
    case NoTarget => true
    case Target(ex, ey) =>
      && ey == PawnStartRow(!s.whiteToMove) + Dir(!s.whiteToMove)
      && At(s.board, ex, ey - Dir(s.whiteToMove)) == Occupied(Other(ColorOf(s.whiteToMove)), Pawn)
  }

  /** The invariant of play: the starting position has it and every `handleMove` keeps it. */
  predicate Consistent(s: State) {
    NoBackRowPawns(s.board) && EnPassantPawnBehind(s)
  }

  /** The starting position keeps the invariant; the kings stand on e1 and e8, pawns on rows 6 and 1. */
  lemma InitialConsistent()
    ensures Consistent(Initial())
    ensures At(Initial().board, 4, 7) == Occupied(White, King) && At(Initial().board, 4, 0) == Occupied(Black, King)
    ensures forall x :: 0 <= x < 8 ==> At(Initial().board, x, 6) == Occupied(White, Pawn)
    ensures forall x :: 0 <= x < 8 ==> At(Initial().board, x, 1) == Occupied(Black, Pawn)
  {
    var b := Initial().board;
    forall x, y | 0 <= x < 8 && 0 <= y < 8
      ensures At(b, x, y) == FromLetter(InitialRows[y][x])
    {
    }
  }
}
