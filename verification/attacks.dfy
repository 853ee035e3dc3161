/**
 * The attack oracle (`isSquareAttacked`) and the check test (`inCheck`).
 * A square counts as attacked when it is the destination of any pseudo-legal
 * move of the attacking side, pawn pushes and castling candidates included.
 */
module Attacks {
  import opened Pieces
  import opened Boards
  import opened Positions
  import opened MoveGen

  function IsSquareAttacked(s: State, x: int, y: int, byWhite: bool): bool {
    exists m :: m in PseudoLegalMoves(s, byWhite) && m.2 == x && m.3 == y
  }

  /** Attacked exactly when some piece of the attacker reaches the square by its own rule. */
  lemma AttackedIffReached(s: State, x: int, y: int, byWhite: bool)
    ensures IsSquareAttacked(s, x, y, byWhite) <==> exists x1, y1 :: PseudoMove(s, byWhite, (x1, y1, x, y))
    ensures IsSquareAttacked(s, x, y, byWhite) ==> InBounds(x, y)
  {
    if IsSquareAttacked(s, x, y, byWhite) {
      var m :| m in PseudoLegalMoves(s, byWhite) && m.2 == x && m.3 == y;
      PseudoLegalMovesSpec(s, byWhite, m);
      PseudoMoveOnBoard(s, byWhite, m);
      assert PseudoMove(s, byWhite, (m.0, m.1, x, y));
    }
    if exists x1, y1 :: PseudoMove(s, byWhite, (x1, y1, x, y)) {
      var x1, y1 :| PseudoMove(s, byWhite, (x1, y1, x, y));
      PseudoLegalMovesSpec(s, byWhite, (x1, y1, x, y));
    }
  }

  /** A pawn push counts as an attack on the square in front of the pawn. */
  lemma PawnPushIsAttack(s: State, x: int, y: int, byWhite: bool)
    requires InBounds(x, y) && At(s.board, x, y) == Occupied(ColorOf(byWhite), Pawn)
    requires IsEmpty(s.board, x, y + Dir(byWhite))
    ensures IsSquareAttacked(s, x, y + Dir(byWhite), byWhite)
  {
    var m := (x, y, x, y + Dir(byWhite));
    assert PawnReach(s, byWhite, x, y, x, y + Dir(byWhite));
    assert PseudoMove(s, byWhite, m);
    PseudoLegalMovesSpec(s, byWhite, m);
  }

  /**
   * The first column in row y, from x on, that holds piece k, or -1.
   */
  function FirstInRow(b: Board, k: Piece, x: int, y: int): (r: int)
    requires 0 <= x
    ensures r == -1 || (x <= r < 8 && At(b, r, y) == k)
    ensures forall x' :: x <= x' < 8 && (r == -1 || x' < r) ==> At(b, x', y) != k
    decreases 8 - x
  {
    if x >= 8 then -1
    else if At(b, x, y) == k then x
    else FirstInRow(b, k, x + 1, y)
  }

  /**
   * The engine's king search from row y on, with `found` the square found in
   * the rows before: the break leaves only the column loop, so a later row
   * holding the piece replaces the square found so far.
   */
  function KingSearch(b: Board, k: Piece, y: int, found: (int, int)): (int, int)
    requires 0 <= y
    decreases 8 - y
  {
    if y >= 8 then found
    else
      var fx := FirstInRow(b, k, 0, y);
      KingSearch(b, k, y + 1, if fx != -1 then (fx, y) else found)
  }

  /** With the piece in no row from y on, the search keeps `found`. */
  lemma {:induction false} KingSearchNone(b: Board, k: Piece, y: int, found: (int, int))
    requires 0 <= y
    requires forall y' :: y <= y' < 8 ==> FirstInRow(b, k, 0, y') == -1
    ensures KingSearch(b, k, y, found) == found
    decreases 8 - y
  {
    if y < 8 {
      assert FirstInRow(b, k, 0, y) == -1;
      KingSearchNone(b, k, y + 1, found);
    }
  }

  /** With the piece in some row from y on, the search ends on the last such row, at its first column. */
  lemma {:induction false} KingSearchLast(b: Board, k: Piece, y: int, found: (int, int), y0: int)
    requires 0 <= y <= y0 < 8 && FirstInRow(b, k, 0, y0) != -1
    ensures var r := KingSearch(b, k, y, found);
            && y0 <= r.1 < 8 && r.0 == FirstInRow(b, k, 0, r.1) != -1
            && forall y' :: r.1 < y' < 8 ==> FirstInRow(b, k, 0, y') == -1
    decreases 8 - y
  {
    var fx := FirstInRow(b, k, 0, y);
    var next := if fx != -1 then (fx, y) else found;
    assert KingSearch(b, k, y, found) == KingSearch(b, k, y + 1, next);
    if forall y' :: y + 1 <= y' < 8 ==> FirstInRow(b, k, 0, y') == -1 {
      KingSearchNone(b, k, y + 1, next);
    } else {
      var y1 :| y + 1 <= y1 < 8 && FirstInRow(b, k, 0, y1) != -1;
      if y0 == y {
        KingSearchLast(b, k, y + 1, next, y1);
      } else {
        KingSearchLast(b, k, y + 1, next, y0);
      }
    }
  }

  /**
   * The square `inCheck` takes as the king's: the first king of that colour in
   * the last row holding one, or (-1, -1) when the colour has no king.
   */
  function KingSquare(b: Board, white: bool): (r: (int, int))
    ensures r == (-1, -1) <==> !HasKing(b, white)
    ensures r != (-1, -1) ==> IsKingOf(b, white, r.0, r.1)
    ensures r != (-1, -1) ==> forall x, y :: IsKingOf(b, white, x, y) ==> y < r.1 || (y == r.1 && r.0 <= x)
  {
    KingSearchFacts(b, white);
    KingSearch(b, Occupied(ColorOf(white), King), 0, (-1, -1))
  }

  lemma KingSearchFacts(b: Board, white: bool)
    ensures var r := KingSearch(b, Occupied(ColorOf(white), King), 0, (-1, -1));
            && (r == (-1, -1) <==> !HasKing(b, white))
            && (r != (-1, -1) ==> IsKingOf(b, white, r.0, r.1))
            && (r != (-1, -1) ==> forall x, y :: IsKingOf(b, white, x, y) ==> y < r.1 || (y == r.1 && r.0 <= x))
  {
    var k := Occupied(ColorOf(white), King);
    var r := KingSearch(b, k, 0, (-1, -1));
    KingRows(b, white);
    if HasKing(b, white) {
      var y0 :| 0 <= y0 < 8 && FirstInRow(b, k, 0, y0) != -1;
      KingSearchLast(b, k, 0, (-1, -1), y0);
      forall x, y | IsKingOf(b, white, x, y)
        ensures y < r.1 || (y == r.1 && r.0 <= x)
      {
        assert FirstInRow(b, k, 0, y) != -1;
      }
    } else {
      KingSearchNone(b, k, 0, (-1, -1));
    }
  }

  /** A colour has a king exactly when some row's search finds one. */
  lemma KingRows(b: Board, white: bool)
    ensures HasKing(b, white) <==> exists y :: 0 <= y < 8 && FirstInRow(b, Occupied(ColorOf(white), King), 0, y) != -1
  {
    var k := Occupied(ColorOf(white), King);
    if HasKing(b, white) {
      var x, y :| IsKingOf(b, white, x, y);
      assert FirstInRow(b, k, 0, y) != -1;
    }
    if exists y :: 0 <= y < 8 && FirstInRow(b, k, 0, y) != -1 {
      var y :| 0 <= y < 8 && FirstInRow(b, k, 0, y) != -1;
      assert IsKingOf(b, white, FirstInRow(b, k, 0, y), y);
    }
  }

  /** `inCheck(white)`: the square found by the king search is attacked by the other side. */
  function InCheck(s: State, white: bool): (r: bool)
    ensures !HasKing(s.board, white) ==> !r
    ensures r ==> exists x, y :: IsKingOf(s.board, white, x, y) && IsSquareAttacked(s, x, y, !white)
  {
    var k := KingSquare(s.board, white);
    AttackedIffReached(s, k.0, k.1, !white);
    IsSquareAttacked(s, k.0, k.1, !white)
  }

  /** With a single king of that colour, the check test asks exactly about that king's square. */
  lemma InCheckSingleKing(s: State, white: bool, kx: int, ky: int)
    requires IsKingOf(s.board, white, kx, ky)
    requires forall x, y :: IsKingOf(s.board, white, x, y) ==> x == kx && y == ky
    ensures InCheck(s, white) <==> IsSquareAttacked(s, kx, ky, !white)
  {
    var k := KingSquare(s.board, white);
    assert k != (-1, -1);
  }
}
