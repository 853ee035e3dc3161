/**
 * The pseudo-legal move generator (`pseudoLegalMoves`): every move of the
 * pieces of one side that obeys the pieces' geometry and the occupancy of the
 * board, without asking whether it leaves that side's king attacked.
 *
 * The generator is written as the engine computes it (a scan of the board,
 * one move table or ray per piece); `PseudoMove` is a per-move description
 * of the same set, and `PseudoLegalMovesSpec` proves the two agree. For
 * knights, kings and sliders the description is geometric and independent of
 * the generator (`KnightReach`, `KingReach`, `SlideReach`); for pawns and
 * castling candidates (`PawnReach`, `CastleCandidate`) it restates the
 * generator's conditions one by one.
 */
module MoveGen {
  import opened Pieces
  import opened Boards
  import opened Positions

  // ----------------------------------------------------------------------
  // The generator, square by square and piece by piece
  // ----------------------------------------------------------------------

  function PawnMoves(s: State, w: bool, x: int, y: int): set<MoveKey> {
    var b := s.board;
    var ny := y + Dir(w);
    var ny2 := y + 2 * Dir(w);
    (if IsEmpty(b, x, ny) then {(x, y, x, ny)} else {})
    + (if y == PawnStartRow(w) && IsEmpty(b, x, ny) && IsEmpty(b, x, ny2) then {(x, y, x, ny2)} else {})
    + (if IsOpponent(b, x - 1, ny, w) then {(x, y, x - 1, ny)} else {})
    + (if IsOpponent(b, x + 1, ny, w) then {(x, y, x + 1, ny)} else {})
    + EnPassantCandidate(s, w, x, y)
  }

  /** Looks only at the target's coordinates, not at what stands behind it. */
  function EnPassantCandidate(s: State, w: bool, x: int, y: int): set<MoveKey> {
    match s.enPassantTarget
    case NoTarget => {}
    case Target(ex, ey) =>
      if ey == y + Dir(w) && Abs(ex - x) == 1 then {(x, y, ex as int, ey as int)} else {}
  }

  const KnightDX: seq<int> := [1, 2, 2, 1, -1, -2, -2, -1]
  const KnightDY: seq<int> := [-2, -1, 1, 2, 2, 1, -1, -2]

  function KnightMoves(b: Board, p: Piece, x: int, y: int): set<MoveKey> {
    set i | 0 <= i < 8 && InBounds(x + KnightDX[i], y + KnightDY[i])
                       && !SameColor(p, At(b, x + KnightDX[i], y + KnightDY[i]))
      :: (x, y, x + KnightDX[i], y + KnightDY[i])
  }

  /** The eight ray directions: four diagonals, then four orthogonals. */
  const Dirs: seq<(int, int)> := [(-1, -1), (-1, 1), (1, -1), (1, 1), (-1, 0), (1, 0), (0, -1), (0, 1)]

  /** First and one-past-last direction of a sliding piece: bishop 0..4, rook 4..8, queen 0..8. */
  function FirstDir(k: Kind): int {
    if k == Bishop then 0 else if k == Rook then 4 else 0
  }

  function EndDir(k: Kind): int {
    if k == Bishop then 4 else if k == Rook then 8 else 8
  }

  /** The squares x + dx*j, y + dy*j for j = j0, j0+1, ... up to the first occupied one. */
  function Ray(b: Board, w: bool, x: int, y: int, dx: int, dy: int, j: int): set<MoveKey>
    decreases 8 - j
  {
    if j >= 8 then {}
    else
      var nx := x + dx * j;
      var ny := y + dy * j;
      if !InBounds(nx, ny) then {}
      else if At(b, nx, ny) == Empty then {(x, y, nx, ny)} + Ray(b, w, x, y, dx, dy, j + 1)
      else if IsOpponent(b, nx, ny, w) then {(x, y, nx, ny)}
      else {}
  }

  function SlideMoves(b: Board, w: bool, x: int, y: int, i: int, end: int): set<MoveKey>
    requires 0 <= i && end <= 8
    decreases end - i
  {
    if i >= end then {}
    else Ray(b, w, x, y, Dirs[i].0, Dirs[i].1, 1) + SlideMoves(b, w, x, y, i + 1, end)
  }

  /** A king step by (dx, dy) lands on the board and not on a piece of the king's colour. */
  predicate StepOk(b: Board, p: Piece, x: int, y: int, dx: int, dy: int) {
    InBounds(x + dx, y + dy) && !SameColor(p, At(b, x + dx, y + dy))
  }

  function KingSteps(b: Board, p: Piece, x: int, y: int): set<MoveKey> {
    set dx, dy | -1 <= dx <= 1 && -1 <= dy <= 1 && !(dx == 0 && dy == 0) && StepOk(b, p, x, y, dx, dy)
      :: (x, y, x + dx, y + dy)
  }

  /** Castling candidates: the flag and the empty squares between king and rook, nothing else. */
  function CastleMoves(s: State, w: bool): set<MoveKey> {
    var b := s.board;
    var row := BackRow(w);
    (if s.canCastleK[Index(w)] && IsEmpty(b, 5, row) && IsEmpty(b, 6, row) then {(4, row, 6, row)} else {})
    + (if s.canCastleQ[Index(w)] && IsEmpty(b, 3, row) && IsEmpty(b, 2, row) && IsEmpty(b, 1, row)
       then {(4, row, 2, row)} else {})
  }

  /** The moves the piece on (x, y) contributes when side `w` is generated. */
  function PieceMoves(s: State, w: bool, x: int, y: int): set<MoveKey> {
    var b := s.board;
    var p := At(b, x, y);
    if p == Empty || w != IsWhite(p) then {}
    else
      match p.kind
      case Pawn => PawnMoves(s, w, x, y)
      case Knight => KnightMoves(b, p, x, y)
      case King => KingSteps(b, p, x, y) + CastleMoves(s, w)
      case _ => SlideMoves(b, w, x, y, FirstDir(p.kind), EndDir(p.kind))
  }

  function ScanRow(s: State, w: bool, x: int, y: int): set<MoveKey>
    decreases 8 - x
  {
    if x >= 8 then {} else PieceMoves(s, w, x, y) + ScanRow(s, w, x + 1, y)
  }

  function ScanRows(s: State, w: bool, y: int): set<MoveKey>
    decreases 8 - y
  {
    if y >= 8 then {} else ScanRow(s, w, 0, y) + ScanRows(s, w, y + 1)
  }

  /** `pseudoLegalMoves(w)`: the union, over all squares, of the moves of side `w`'s pieces. */
  function PseudoLegalMoves(s: State, w: bool): set<MoveKey> {
    ScanRows(s, w, 0)
  }

  // ----------------------------------------------------------------------
  // Reference description, one move at a time
  // ----------------------------------------------------------------------

  ghost predicate PawnReach(s: State, w: bool, x1: int, y1: int, x2: int, y2: int) {
    var b := s.board;
    var ny := y1 + Dir(w);
    || (x2 == x1 && y2 == ny && IsEmpty(b, x2, y2))
    || (x2 == x1 && y1 == PawnStartRow(w) && y2 == y1 + 2 * Dir(w) && IsEmpty(b, x1, ny) && IsEmpty(b, x2, y2))
    || (Abs(x2 - x1) == 1 && y2 == ny && IsOpponent(b, x2, y2, w))
    || (s.enPassantTarget.Target? && s.enPassantTarget.x == x2 && s.enPassantTarget.y == y2
        && Abs(x2 - x1) == 1 && y2 == ny)
  }

  ghost predicate KnightReach(b: Board, w: bool, x1: int, y1: int, x2: int, y2: int) {
    && InBounds(x2, y2) && !OwnPiece(b, w, x2, y2)
    && ((Abs(x2 - x1) == 1 && Abs(y2 - y1) == 2) || (Abs(x2 - x1) == 2 && Abs(y2 - y1) == 1))
  }

  ghost predicate KingReach(b: Board, w: bool, x1: int, y1: int, x2: int, y2: int) {
    && InBounds(x2, y2) && !OwnPiece(b, w, x2, y2)
    && Abs(x2 - x1) <= 1 && Abs(y2 - y1) <= 1 && (x2 != x1 || y2 != y1)
  }

  /** The move from (x, y) to the j-th square along direction `dir`. */
  function RayPoint(x: int, y: int, dir: (int, int), j: int): MoveKey {
    (x, y, x + dir.0 * j, y + dir.1 * j)
  }

  /** The k-th square along direction (dx, dy) from (x, y) is an empty square of the board. */
  ghost predicate Passable(b: Board, x: int, y: int, dx: int, dy: int, k: int) {
    IsEmpty(b, x + dx * k, y + dy * k)
  }

  /** (x2, y2) is the j-th square along (dx, dy), every square before it is empty, and it holds no own piece. */
  ghost predicate RayHit(b: Board, w: bool, x: int, y: int, dx: int, dy: int, j: int, x2: int, y2: int) {
    && 1 <= j < 8
    && x2 == x + dx * j && y2 == y + dy * j
    && InBounds(x2, y2) && !OwnPiece(b, w, x2, y2)
    && forall k :: 1 <= k < j ==> Passable(b, x, y, dx, dy, k)
  }

  /** Some ray of the piece's directions reaches (x2, y2). */
  ghost predicate RayReach(b: Board, w: bool, kind: Kind, x1: int, y1: int, x2: int, y2: int) {
    exists i, j :: FirstDir(kind) <= i < EndDir(kind) && RayHit(b, w, x1, y1, Dirs[i].0, Dirs[i].1, j, x2, y2)
  }

  function Sign(n: int): int {
    if n > 0 then 1 else if n < 0 then -1 else 0
  }

  function Distance(x1: int, y1: int, x2: int, y2: int): nat {
    if Abs(x2 - x1) >= Abs(y2 - y1) then Abs(x2 - x1) else Abs(y2 - y1)
  }

  predicate Diagonal(x1: int, y1: int, x2: int, y2: int) {
    x2 != x1 && Abs(x2 - x1) == Abs(y2 - y1)
  }

  predicate Orthogonal(x1: int, y1: int, x2: int, y2: int) {
    (x2 == x1) != (y2 == y1)
  }

  /** Every square strictly between (x1, y1) and (x2, y2) on their line is empty. */
  ghost predicate LineClear(b: Board, x1: int, y1: int, x2: int, y2: int) {
    PathClear(b, x1, y1, Sign(x2 - x1), Sign(y2 - y1), Distance(x1, y1, x2, y2))
  }

  /** The first n - 1 squares along (dx, dy) from (x, y) are empty. */
  ghost predicate PathClear(b: Board, x: int, y: int, dx: int, dy: int, n: int) {
    forall k :: 1 <= k < n ==> Passable(b, x, y, dx, dy, k)
  }

  /**
   * Bishops move along diagonals, rooks along ranks and files, queens along
   * both, over empty squares only, onto an empty square or an opponent piece.
   */
  ghost predicate SlideReach(b: Board, w: bool, kind: Kind, x1: int, y1: int, x2: int, y2: int) {
    && InBounds(x2, y2) && !OwnPiece(b, w, x2, y2)
    && (if kind == Bishop then Diagonal(x1, y1, x2, y2)
        else if kind == Rook then Orthogonal(x1, y1, x2, y2)
        else Diagonal(x1, y1, x2, y2) || Orthogonal(x1, y1, x2, y2))
    && LineClear(b, x1, y1, x2, y2)
  }

  ghost predicate CastleCandidate(s: State, w: bool, m: MoveKey) {
    var b := s.board;
    var row := BackRow(w);
    && m.0 == 4 && m.1 == row && m.3 == row
    && ((m.2 == 6 && s.canCastleK[Index(w)] && IsEmpty(b, 5, row) && IsEmpty(b, 6, row))
        || (m.2 == 2 && s.canCastleQ[Index(w)] && IsEmpty(b, 3, row) && IsEmpty(b, 2, row) && IsEmpty(b, 1, row)))
  }

  ghost predicate PieceReach(s: State, w: bool, k: Kind, x1: int, y1: int, x2: int, y2: int) {
    match k
    case Pawn => PawnReach(s, w, x1, y1, x2, y2)
    case Knight => KnightReach(s.board, w, x1, y1, x2, y2)
    case King => KingReach(s.board, w, x1, y1, x2, y2)
    case _ => SlideReach(s.board, w, k, x1, y1, x2, y2)
  }

  ghost predicate IsKingOf(b: Board, w: bool, x: int, y: int) {
    InBounds(x, y) && At(b, x, y) == Occupied(ColorOf(w), King)
  }

  ghost predicate HasKing(b: Board, w: bool) {
    exists x, y :: IsKingOf(b, w, x, y)
  }

  /**
   * A pseudo-legal move of side `w`: a piece of `w` that reaches the
   * destination by its own rule, or a castling candidate, which every king of
   * `w` on the board proposes whatever square it stands on.
   */
  ghost predicate PseudoMove(s: State, w: bool, m: MoveKey) {
    || (InBounds(m.0, m.1) && OwnPiece(s.board, w, m.0, m.1)
        && PieceReach(s, w, At(s.board, m.0, m.1).kind, m.0, m.1, m.2, m.3))
    || (HasKing(s.board, w) && CastleCandidate(s, w, m))
  }

  // ----------------------------------------------------------------------
  // The generator meets the reference description
  // ----------------------------------------------------------------------

  lemma PawnMovesSpec(s: State, w: bool, x: int, y: int, m: MoveKey)
    ensures m in PawnMoves(s, w, x, y) <==> m.0 == x && m.1 == y && PawnReach(s, w, x, y, m.2, m.3)
  {
  }

  lemma KnightMovesSpec(b: Board, w: bool, x: int, y: int, m: MoveKey)
    requires OwnPiece(b, w, x, y)
    ensures m in KnightMoves(b, At(b, x, y), x, y) <==> m.0 == x && m.1 == y && KnightReach(b, w, x, y, m.2, m.3)
  {
    var p := At(b, x, y);
    if m in KnightMoves(b, p, x, y) {
      var i :| 0 <= i < 8 && InBounds(x + KnightDX[i], y + KnightDY[i])
               && !SameColor(p, At(b, x + KnightDX[i], y + KnightDY[i]))
               && m == (x, y, x + KnightDX[i], y + KnightDY[i]);
      assert KnightReach(b, w, x, y, m.2, m.3);
    }
    if m.0 == x && m.1 == y && KnightReach(b, w, x, y, m.2, m.3) {
      var dx, dy := m.2 - x, m.3 - y;
      var i :=
        if dx == 1 && dy == -2 then 0 else if dx == 2 && dy == -1 then 1
        else if dx == 2 && dy == 1 then 2 else if dx == 1 && dy == 2 then 3
        else if dx == -1 && dy == 2 then 4 else if dx == -2 && dy == 1 then 5
        else if dx == -2 && dy == -1 then 6 else 7;
      assert KnightDX[i] == dx && KnightDY[i] == dy;
      assert m == (x, y, x + KnightDX[i], y + KnightDY[i]);
    }
  }

  lemma KingStepsSpec(b: Board, w: bool, x: int, y: int, m: MoveKey)
    requires OwnPiece(b, w, x, y)
    ensures m in KingSteps(b, At(b, x, y), x, y) <==> m.0 == x && m.1 == y && KingReach(b, w, x, y, m.2, m.3)
  {
    var p := At(b, x, y);
    if m.0 == x && m.1 == y && KingReach(b, w, x, y, m.2, m.3) {
      var dx, dy := m.2 - x, m.3 - y;
      assert StepOk(b, p, x, y, dx, dy);
      assert m == (x, y, x + dx, y + dy);
    }
  }

  /** The ray emits exactly the squares reached with an empty run before them. */
  lemma {:induction false} RaySpec(b: Board, w: bool, x: int, y: int, dx: int, dy: int, j0: int, m: MoveKey)
    requires 1 <= j0
    requires forall k :: 1 <= k < j0 ==> Passable(b, x, y, dx, dy, k)
    ensures m in Ray(b, w, x, y, dx, dy, j0) <==>
            m.0 == x && m.1 == y && exists j :: j0 <= j && RayHit(b, w, x, y, dx, dy, j, m.2, m.3)
    decreases 8 - j0
  {
    var nx, ny := x + dx * j0, y + dy * j0;
    if j0 >= 8 {
    } else if !InBounds(nx, ny) {
      assert !Passable(b, x, y, dx, dy, j0);
    } else if At(b, nx, ny) == Empty {
      assert Passable(b, x, y, dx, dy, j0);
      RaySpec(b, w, x, y, dx, dy, j0 + 1, m);
      if m == (x, y, nx, ny) {
        assert RayHit(b, w, x, y, dx, dy, j0, m.2, m.3);
      }
      if m.0 == x && m.1 == y && exists j :: j0 <= j && RayHit(b, w, x, y, dx, dy, j, m.2, m.3) {
        var j :| j0 <= j && RayHit(b, w, x, y, dx, dy, j, m.2, m.3);
        if j == j0 {
          assert m == (x, y, nx, ny);
        } else {
          assert j0 + 1 <= j;
        }
      }
    } else {
      if m == (x, y, nx, ny) && IsOpponent(b, nx, ny, w) {
        assert RayHit(b, w, x, y, dx, dy, j0, m.2, m.3);
      }
      assert !Passable(b, x, y, dx, dy, j0);
    }
  }

  lemma {:induction false} SlideMovesSpec(b: Board, w: bool, x: int, y: int, i: int, end: int, m: MoveKey)
    requires 0 <= i && end <= 8
    ensures m in SlideMoves(b, w, x, y, i, end) <==>
            m.0 == x && m.1 == y && exists d, j :: i <= d < end && RayHit(b, w, x, y, Dirs[d].0, Dirs[d].1, j, m.2, m.3)
    decreases end - i
  {
    if i < end {
      SlideMovesSpec(b, w, x, y, i + 1, end, m);
      RaySpec(b, w, x, y, Dirs[i].0, Dirs[i].1, 1, m);
      if m.0 == x && m.1 == y && exists d, j :: i <= d < end && RayHit(b, w, x, y, Dirs[d].0, Dirs[d].1, j, m.2, m.3) {
        var d, j :| i <= d < end && RayHit(b, w, x, y, Dirs[d].0, Dirs[d].1, j, m.2, m.3);
        if d == i {
          assert m in Ray(b, w, x, y, Dirs[i].0, Dirs[i].1, 1);
        } else {
          assert m in SlideMoves(b, w, x, y, i + 1, end);
        }
      }
    }
  }

  /** The direction and step count of a ray square determine its geometry. */
  lemma RayHitGeometry(b: Board, w: bool, x1: int, y1: int, d: int, j: int, x2: int, y2: int)
    requires 0 <= d < 8 && RayHit(b, w, x1, y1, Dirs[d].0, Dirs[d].1, j, x2, y2)
    ensures Sign(x2 - x1) == Dirs[d].0 && Sign(y2 - y1) == Dirs[d].1
    ensures Distance(x1, y1, x2, y2) == j
    ensures d < 4 ==> Diagonal(x1, y1, x2, y2)
    ensures 4 <= d ==> Orthogonal(x1, y1, x2, y2)
  {
    if d == 0 { assert x2 == x1 - j && y2 == y1 - j; }
    else if d == 1 { assert x2 == x1 - j && y2 == y1 + j; }
    else if d == 2 { assert x2 == x1 + j && y2 == y1 - j; }
    else if d == 3 { assert x2 == x1 + j && y2 == y1 + j; }
    else if d == 4 { assert x2 == x1 - j && y2 == y1; }
    else if d == 5 { assert x2 == x1 + j && y2 == y1; }
    else if d == 6 { assert x2 == x1 && y2 == y1 - j; }
    else { assert x2 == x1 && y2 == y1 + j; }
  }

  /** The index in `Dirs` of a diagonal or orthogonal direction. */
  function DirIndex(dx: int, dy: int): (d: int)
    requires -1 <= dx <= 1 && -1 <= dy <= 1 && (dx != 0 || dy != 0)
    ensures 0 <= d < 8 && Dirs[d] == (dx, dy)
    ensures d < 4 <==> dx != 0 && dy != 0
  {
    if dx == -1 && dy == -1 then 0 else if dx == -1 && dy == 1 then 1
    else if dx == 1 && dy == -1 then 2 else if dx == 1 && dy == 1 then 3
    else if dy == 0 then (if dx == -1 then 4 else 5)
    else if dy == -1 then 6 else 7
  }

  lemma SlideReachRayHit(b: Board, w: bool, kind: Kind, x1: int, y1: int, x2: int, y2: int) returns (d: int, j: int)
    requires kind in {Bishop, Rook, Queen} && InBounds(x1, y1)
    requires SlideReach(b, w, kind, x1, y1, x2, y2)
    ensures FirstDir(kind) <= d < EndDir(kind) && RayHit(b, w, x1, y1, Dirs[d].0, Dirs[d].1, j, x2, y2)
  {
    var dx, dy := Sign(x2 - x1), Sign(y2 - y1);
    d := DirIndex(dx, dy);
    j := Distance(x1, y1, x2, y2);
    if dx == 1 { assert x2 == x1 + j; } else if dx == -1 { assert x2 == x1 - j; }
    if dy == 1 { assert y2 == y1 + j; } else if dy == -1 { assert y2 == y1 - j; }
    assert x2 == x1 + Dirs[d].0 * j && y2 == y1 + Dirs[d].1 * j;
  }

  lemma RayReachIsSlideReach(b: Board, w: bool, kind: Kind, x1: int, y1: int, x2: int, y2: int)
    requires kind in {Bishop, Rook, Queen} && InBounds(x1, y1)
    ensures RayReach(b, w, kind, x1, y1, x2, y2) <==> SlideReach(b, w, kind, x1, y1, x2, y2)
  {
    if RayReach(b, w, kind, x1, y1, x2, y2) {
      var d, j :| FirstDir(kind) <= d < EndDir(kind) && RayHit(b, w, x1, y1, Dirs[d].0, Dirs[d].1, j, x2, y2);
      RayHitGeometry(b, w, x1, y1, d, j, x2, y2);
    }
    if SlideReach(b, w, kind, x1, y1, x2, y2) {
      var d, j := SlideReachRayHit(b, w, kind, x1, y1, x2, y2);
    }
  }

  /** Two squares of one ray at different steps are different squares. */
  lemma RayStepsDistinct(d: int, j: int, j': int)
    requires 0 <= d < 8 && j != j'
    ensures Dirs[d].0 * j != Dirs[d].0 * j' || Dirs[d].1 * j != Dirs[d].1 * j'
  {
    if d < 6 { assert Dirs[d].0 == 1 || Dirs[d].0 == -1; }
    else { assert Dirs[d].1 == 1 || Dirs[d].1 == -1; }
  }

  /**
   * A ray stops at the first occupied square: that square is produced exactly
   * when it holds an opponent piece, and no square beyond it on the ray is.
   */
  lemma RayStopsAtFirstPiece(b: Board, w: bool, x: int, y: int, d: int, k: int)
    requires 0 <= d < 8 && 1 <= k < 8
    requires forall i :: 1 <= i < k ==> Passable(b, x, y, Dirs[d].0, Dirs[d].1, i)
    requires InBounds(x + Dirs[d].0 * k, y + Dirs[d].1 * k) && At(b, x + Dirs[d].0 * k, y + Dirs[d].1 * k) != Empty
    ensures (x, y, x + Dirs[d].0 * k, y + Dirs[d].1 * k) in Ray(b, w, x, y, Dirs[d].0, Dirs[d].1, 1)
            <==> IsOpponent(b, x + Dirs[d].0 * k, y + Dirs[d].1 * k, w)
    ensures forall j :: k < j < 8 ==> RayPoint(x, y, Dirs[d], j) !in Ray(b, w, x, y, Dirs[d].0, Dirs[d].1, 1)
  {
    var dx, dy := Dirs[d].0, Dirs[d].1;
    assert !Passable(b, x, y, dx, dy, k);
    var m := (x, y, x + dx * k, y + dy * k);
    RaySpec(b, w, x, y, dx, dy, 1, m);
    if IsOpponent(b, m.2, m.3, w) {
      assert RayHit(b, w, x, y, dx, dy, k, m.2, m.3);
    }
    if m in Ray(b, w, x, y, dx, dy, 1) {
      var j' :| 1 <= j' && RayHit(b, w, x, y, dx, dy, j', m.2, m.3);
      if j' != k {
        RayStepsDistinct(d, j', k);
      }
    }
    forall j | k < j < 8
      ensures RayPoint(x, y, Dirs[d], j) !in Ray(b, w, x, y, dx, dy, 1)
    {
      RayBlockedBeyond(b, w, x, y, d, k, j);
    }
  }

  /** A square of the ray past a non-empty square is never produced. */
  lemma RayBlockedBeyond(b: Board, w: bool, x: int, y: int, d: int, k: int, j: int)
    requires 0 <= d < 8 && 1 <= k < j < 8
    requires !Passable(b, x, y, Dirs[d].0, Dirs[d].1, k)
    ensures RayPoint(x, y, Dirs[d], j) !in Ray(b, w, x, y, Dirs[d].0, Dirs[d].1, 1)
  {
    var dx, dy := Dirs[d].0, Dirs[d].1;
    var m' := RayPoint(x, y, Dirs[d], j);
    RaySpec(b, w, x, y, dx, dy, 1, m');
    forall j' | 1 <= j'
      ensures !RayHit(b, w, x, y, dx, dy, j', m'.2, m'.3)
    {
      if j' != j {
        RayStepsDistinct(d, j', j);
      }
    }
  }

  lemma PieceMovesSpec(s: State, w: bool, x: int, y: int, m: MoveKey)
    requires InBounds(x, y)
    ensures m in PieceMoves(s, w, x, y) <==>
            || (m.0 == x && m.1 == y && OwnPiece(s.board, w, x, y) && PieceReach(s, w, At(s.board, x, y).kind, x, y, m.2, m.3))
            || (IsKingOf(s.board, w, x, y) && CastleCandidate(s, w, m))
  {
    var p := At(s.board, x, y);
    if !OwnPiece(s.board, w, x, y) {
      assert PieceMoves(s, w, x, y) == {};
    } else if p.kind == Pawn {
      PawnPieceSpec(s, w, x, y, m);
    } else if p.kind == Knight {
      KnightPieceSpec(s, w, x, y, m);
    } else if p.kind == King {
      KingPieceSpec(s, w, x, y, m);
    } else {
      SlidePieceSpec(s, w, x, y, m);
    }
  }

  lemma PawnPieceSpec(s: State, w: bool, x: int, y: int, m: MoveKey)
    requires InBounds(x, y)
    requires OwnPiece(s.board, w, x, y)
    requires At(s.board, x, y).kind == Pawn
    ensures m in PieceMoves(s, w, x, y) <==>
            || (m.0 == x && m.1 == y && OwnPiece(s.board, w, x, y) && PieceReach(s, w, At(s.board, x, y).kind, x, y, m.2, m.3))
            || (IsKingOf(s.board, w, x, y) && CastleCandidate(s, w, m))
  {
    assert PieceMoves(s, w, x, y) == PawnMoves(s, w, x, y);
    PawnMovesSpec(s, w, x, y, m);
    assert PieceReach(s, w, Pawn, x, y, m.2, m.3) == PawnReach(s, w, x, y, m.2, m.3);
  }

  lemma KnightPieceSpec(s: State, w: bool, x: int, y: int, m: MoveKey)
    requires InBounds(x, y)
    requires OwnPiece(s.board, w, x, y)
    requires At(s.board, x, y).kind == Knight
    ensures m in PieceMoves(s, w, x, y) <==>
            || (m.0 == x && m.1 == y && OwnPiece(s.board, w, x, y) && PieceReach(s, w, At(s.board, x, y).kind, x, y, m.2, m.3))
            || (IsKingOf(s.board, w, x, y) && CastleCandidate(s, w, m))
  {
    assert PieceMoves(s, w, x, y) == KnightMoves(s.board, At(s.board, x, y), x, y);
    KnightMovesSpec(s.board, w, x, y, m);
  }

  lemma KingPieceSpec(s: State, w: bool, x: int, y: int, m: MoveKey)
    requires InBounds(x, y)
    requires OwnPiece(s.board, w, x, y)
    requires At(s.board, x, y).kind == King
    ensures m in PieceMoves(s, w, x, y) <==>
            || (m.0 == x && m.1 == y && OwnPiece(s.board, w, x, y) && PieceReach(s, w, At(s.board, x, y).kind, x, y, m.2, m.3))
            || (IsKingOf(s.board, w, x, y) && CastleCandidate(s, w, m))
  {
    assert PieceMoves(s, w, x, y) == KingSteps(s.board, At(s.board, x, y), x, y) + CastleMoves(s, w);
    KingStepsSpec(s.board, w, x, y, m);
  }

  lemma SlidePieceSpec(s: State, w: bool, x: int, y: int, m: MoveKey)
    requires InBounds(x, y)
    requires OwnPiece(s.board, w, x, y)
    requires At(s.board, x, y).kind in {Bishop, Rook, Queen}
    ensures m in PieceMoves(s, w, x, y) <==>
            || (m.0 == x && m.1 == y && OwnPiece(s.board, w, x, y) && PieceReach(s, w, At(s.board, x, y).kind, x, y, m.2, m.3))
            || (IsKingOf(s.board, w, x, y) && CastleCandidate(s, w, m))
  {
    var k := At(s.board, x, y).kind;
    assert PieceMoves(s, w, x, y) == SlideMoves(s.board, w, x, y, FirstDir(k), EndDir(k));
    SlideMovesSpec(s.board, w, x, y, FirstDir(k), EndDir(k), m);
    RayReachIsSlideReach(s.board, w, k, x, y, m.2, m.3);
  }

  lemma {:induction false} ScanRowSpec(s: State, w: bool, x: int, y: int, m: MoveKey)
    requires 0 <= x && 0 <= y < 8
    ensures m in ScanRow(s, w, x, y) <==> exists x' :: x <= x' < 8 && m in PieceMoves(s, w, x', y)
    decreases 8 - x
  {
    if x < 8 {
      ScanRowSpec(s, w, x + 1, y, m);
      if exists x' :: x <= x' < 8 && m in PieceMoves(s, w, x', y) {
        var x' :| x <= x' < 8 && m in PieceMoves(s, w, x', y);
        if x' > x {
          assert m in ScanRow(s, w, x + 1, y);
        }
      }
    }
  }

  lemma {:induction false} ScanRowsSpec(s: State, w: bool, y: int, m: MoveKey)
    requires 0 <= y
    ensures m in ScanRows(s, w, y) <==> exists x', y' :: 0 <= x' < 8 && y <= y' < 8 && m in PieceMoves(s, w, x', y')
    decreases 8 - y
  {
    if y < 8 {
      ScanRowsSpec(s, w, y + 1, m);
      ScanRowSpec(s, w, 0, y, m);
      if exists x', y' :: 0 <= x' < 8 && y <= y' < 8 && m in PieceMoves(s, w, x', y') {
        var x', y' :| 0 <= x' < 8 && y <= y' < 8 && m in PieceMoves(s, w, x', y');
        if y' > y {
          assert m in ScanRows(s, w, y + 1);
        } else {
          assert m in ScanRow(s, w, 0, y);
        }
      }
    }
  }

  /** The generator produces exactly the moves the reference description admits. */
  lemma PseudoLegalMovesSpec(s: State, w: bool, m: MoveKey)
    ensures m in PseudoLegalMoves(s, w) <==> PseudoMove(s, w, m)
  {
    var b := s.board;
    ScanRowsSpec(s, w, 0, m);
    if m in PseudoLegalMoves(s, w) {
      var x', y' :| 0 <= x' < 8 && 0 <= y' < 8 && m in PieceMoves(s, w, x', y');
      PieceMovesSpec(s, w, x', y', m);
    }
    if PseudoMove(s, w, m) {
      if InBounds(m.0, m.1) && OwnPiece(b, w, m.0, m.1) && PieceReach(s, w, At(b, m.0, m.1).kind, m.0, m.1, m.2, m.3) {
        PieceMovesSpec(s, w, m.0, m.1, m);
        assert m in PieceMoves(s, w, m.0, m.1);
      } else {
        var kx, ky :| IsKingOf(b, w, kx, ky);
        PieceMovesSpec(s, w, kx, ky, m);
        assert m in PieceMoves(s, w, kx, ky);
      }
    }
  }

  /** With no pawn on a back row, a pseudo-legal move that starts from a pawn is a pawn move of its owner. */
  lemma PseudoPawnMove(s: State, w: bool, m: MoveKey)
    requires NoBackRowPawns(s.board) && PseudoMove(s, w, m)
    requires At(s.board, m.0, m.1).Occupied? && At(s.board, m.0, m.1).kind == Pawn
    ensures OwnPiece(s.board, w, m.0, m.1) && PawnReach(s, w, m.0, m.1, m.2, m.3)
  {
  }

  /** Every pseudo-legal move starts and ends on the board, on two different squares. */
  lemma PseudoMoveOnBoard(s: State, w: bool, m: MoveKey)
    requires PseudoMove(s, w, m)
    ensures InBounds(m.0, m.1) && InBounds(m.2, m.3) && (m.0 != m.2 || m.1 != m.3)
  {
  }

  lemma PseudoLegalMovesOnBoard(s: State, w: bool, m: MoveKey)
    requires m in PseudoLegalMoves(s, w)
    ensures InBounds(m.0, m.1) && InBounds(m.2, m.3) && (m.0 != m.2 || m.1 != m.3)
  {
    PseudoLegalMovesSpec(s, w, m);
    PseudoMoveOnBoard(s, w, m);
  }
}
