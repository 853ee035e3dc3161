/**
 * The 8x8 board of the engine, indexed as `board[y][x]`: `x` is the file
 * (0 = a) and `y` the row of the array (0 = black's back row, 7 = white's).
 */
module Boards {
  import opened Pieces

  const EmptyRow: seq<Piece> := [Empty, Empty, Empty, Empty, Empty, Empty, Empty, Empty]

  type Row = r: seq<Piece> | |r| == 8 witness EmptyRow

  type Board = b: seq<Row> | |b| == 8
    witness [EmptyRow, EmptyRow, EmptyRow, EmptyRow, EmptyRow, EmptyRow, EmptyRow, EmptyRow]

  function Abs(n: int): nat {
    if n < 0 then -n else n
  }

  /** `inBounds` of the engine. */
  predicate InBounds(x: int, y: int) {
    0 <= x < 8 && 0 <= y < 8
  }

  /** The cell at (x, y); off the board nothing is there. */
  function At(b: Board, x: int, y: int): (p: Piece)
    ensures !InBounds(x, y) ==> p == Empty
  {
    if InBounds(x, y) then b[y][x] else Empty
  }

  /** `board[y][x] = p`; a write off the board changes nothing. */
  function Put(b: Board, x: int, y: int, p: Piece): (r: Board)
    ensures forall x', y' {:trigger At(r, x', y')} ::
              At(r, x', y') == if x' == x && y' == y && InBounds(x, y) then p else At(b, x', y')
  {
    if InBounds(x, y) then b[y := b[y][x := p]] else b
  }

  /** Two boards that agree on every square are the same board. */
  lemma BoardsEqual(b1: Board, b2: Board)
    requires forall x, y :: InBounds(x, y) ==> At(b1, x, y) == At(b2, x, y)
    ensures b1 == b2
  {
    forall y | 0 <= y < 8
      ensures b1[y] == b2[y]
    {
      forall x | 0 <= x < 8
        ensures b1[y][x] == b2[y][x]
      {
        assert At(b1, x, y) == At(b2, x, y);
      }
    }
  }

  /** `isEmpty` of the engine: an empty cell on the board. */
  function IsEmpty(b: Board, x: int, y: int): (r: bool)
    ensures r ==> InBounds(x, y)
    ensures r <==> InBounds(x, y) && Letter(At(b, x, y)) == ' '
  {
    InBounds(x, y) && At(b, x, y) == Empty
  }

  /** `isOpponent` of the engine: a piece of the side other than `white`. */
  function IsOpponent(b: Board, x: int, y: int, white: bool): (r: bool)
    ensures !InBounds(x, y) ==> !r
    ensures r <==> InBounds(x, y) && At(b, x, y).Occupied? && At(b, x, y).color == Other(ColorOf(white))
    ensures r <==> InBounds(x, y) && if white then IsLower(Letter(At(b, x, y))) else IsUpper(Letter(At(b, x, y)))
  {
    if !InBounds(x, y) then false
    else
      var t := At(b, x, y);
      t != Empty && (if white then IsBlack(t) else IsWhite(t))
  }

  /** A piece of side `white` stands on (x, y). */
  predicate OwnPiece(b: Board, white: bool, x: int, y: int) {
    At(b, x, y).Occupied? && At(b, x, y).color == ColorOf(white)
  }

  /** The starting position, written row by row as in the engine's table. */
  const InitialRows: seq<string> := [
    "rnbqkbnr",
    "pppppppp",
    "        ",
    "        ",
    "        ",
    "        ",
    "PPPPPPPP",
    "RNBQKBNR"
  ]

  function InitialBoard(): Board {
    seq(8, y requires 0 <= y < 8 =>
      seq(8, x requires 0 <= x < 8 => FromLetter(InitialRows[y][x])))
  }
}
