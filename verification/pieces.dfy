/**
 * Piece codes of the engine's board.
 *
 * The engine stores each board cell as one character: an upper-case letter is
 * a white piece, a lower-case letter a black piece and ' ' an empty cell. This
 * module replaces the characters by a tagged (colour, kind) value and keeps
 * the letter encoding as a pair of mappings with a round trip between them.
 */
module Pieces {

  datatype Color = White | Black

  datatype Kind = Pawn | Knight | Bishop | Rook | Queen | King

  datatype Piece = Empty | Occupied(color: Color, kind: Kind)

  /** The engine names a side by a boolean, `true` for white. */
  function ColorOf(white: bool): Color {
    if white then White else Black
  }

  function Other(c: Color): (r: Color)
    ensures r != c
  {
    if c == White then Black else White
  }

  /** Lower-case letter of a kind, as written in the engine's board table. */
  function KindLetter(k: Kind): char {
    match k
    case Pawn => 'p'
    case Knight => 'n'
    case Bishop => 'b'
    case Rook => 'r'
    case Queen => 'q'
    case King => 'k'
  }

  predicate IsUpper(c: char) { 'A' <= c <= 'Z' }

  predicate IsLower(c: char) { 'a' <= c <= 'z' }

  function ToUpper(c: char): char {
    if IsLower(c) then (c as int - 32) as char else c
  }

  function ToLower(c: char): char {
    if IsUpper(c) then (c as int + 32) as char else c
  }

  /** The character the engine stores for a piece. */
  function Letter(p: Piece): char {
    match p
    case Empty => ' '
    case Occupied(White, k) => ToUpper(KindLetter(k))
    case Occupied(Black, k) => KindLetter(k)
  }

  /** The thirteen characters that occur in the engine's board. */
  predicate IsCode(c: char) {
    c == ' ' || ToLower(c) in {'p', 'n', 'b', 'r', 'q', 'k'}
  }

  function KindOfLetter(c: char): Kind
    requires ToLower(c) in {'p', 'n', 'b', 'r', 'q', 'k'}
  {
    match ToLower(c)
    case 'p' => Pawn
    case 'n' => Knight
    case 'b' => Bishop
    case 'r' => Rook
    case 'q' => Queen
    case 'k' => King
  }

  /** Decodes a board character; anything that is not a piece letter is an empty cell. */
  function FromLetter(c: char): Piece {
    if c != ' ' && ToLower(c) in {'p', 'n', 'b', 'r', 'q', 'k'} then
      Occupied(if IsUpper(c) then White else Black, KindOfLetter(c))
    else
      Empty
  }

  lemma FromLetterLetter(p: Piece)
    ensures IsCode(Letter(p))
    ensures FromLetter(Letter(p)) == p
  {
  }

  lemma LetterFromLetter(c: char)
    requires IsCode(c)
    ensures Letter(FromLetter(c)) == c
  {
  }

  /** `isWhite` of the engine: an upper-case letter. */
  function IsWhite(p: Piece): (r: bool)
    ensures r <==> IsUpper(Letter(p))
  {
    p.Occupied? && p.color == White
  }

  /** `isBlack` of the engine: a lower-case letter. */
  function IsBlack(p: Piece): (r: bool)
    ensures r <==> IsLower(Letter(p))
  {
    p.Occupied? && p.color == Black
  }

  /** `sameColor` of the engine: two pieces of one colour; never true of an empty cell. */
  function SameColor(a: Piece, b: Piece): (r: bool)
    ensures r <==> a.Occupied? && b.Occupied? && a.color == b.color
    ensures r ==> IsUpper(Letter(a)) == IsUpper(Letter(b))
  {
    if a == Empty || b == Empty then false
    else (IsWhite(a) && IsWhite(b)) || (IsBlack(a) && IsBlack(b))
  }

  lemma SameColorSymmetric(a: Piece, b: Piece)
    ensures SameColor(a, b) == SameColor(b, a)
    ensures !SameColor(Empty, b) && !SameColor(a, Empty)
  {
  }
}
