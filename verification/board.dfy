/** Value types shared by the move generators and the engine: colours, pieces,
    squares, moves and the 8x8 board with its occupancy queries.

    The program's board, square and move classes are not part of this
    model; these are the minimal value types the generators and the engine
    read, written as immutable datatypes instead of mutable objects. */
module ChessBoard {

  datatype Option<+T> = None | Some(value: T)

  datatype Color = White | Black

  /** The colour whose pieces a `color` piece may capture. */
  function Opponent(c: Color): (e: Color)
    ensures e != c
  {
    if c == White then Black else White
  }

  datatype Kind = Pawn | Knight | Bishop | Rook | Queen | King

  /** A piece. `moved` gates the pawn double step and castling; `enPassant`
      is only ever consulted on pawns (it marks a pawn that has just made a
      two-square advance). */
  datatype Piece = Piece(kind: Kind, color: Color, moved: bool, enPassant: bool)

  /** Board coordinates: row 0 is Black's back rank, column 0 is file a. */
  datatype Square = Square(row: int, col: int)

  datatype Move = Move(initial: Square, final: Square)

  predicate InBounds(x: int) { 0 <= x < 8 }

  predicate InRange(s: Square) { InBounds(s.row) && InBounds(s.col) }

  ghost predicate IsGrid(b: seq<seq<Option<Piece>>>) {
    |b| == 8 && forall r :: 0 <= r < |b| ==> |b[r]| == 8
  }

  /** The 8x8 grid of squares, each holding at most one piece. */
  type Board = b: seq<seq<Option<Piece>>> | IsGrid(b)
    witness seq(8, _ => seq(8, _ => None))

  function At(b: Board, s: Square): Option<Piece>
    requires InRange(s)
  {
    b[s.row][s.col]
  }

  predicate IsEmpty(b: Board, s: Square)
    requires InRange(s)
  {
    At(b, s).None?
  }

  /** The square holds a piece that a `color` piece may capture. */
  predicate HasEnemy(b: Board, s: Square, color: Color)
    requires InRange(s)
  {
    At(b, s).Some? && At(b, s).value.color != color
  }

  /** The square holds a piece of `color` itself. */
  predicate HasTeam(b: Board, s: Square, color: Color)
    requires InRange(s)
  {
    At(b, s).Some? && At(b, s).value.color == color
  }

  predicate IsEmptyOrEnemy(b: Board, s: Square, color: Color)
    requires InRange(s)
  {
    IsEmpty(b, s) || HasEnemy(b, s, color)
  }

  /** Every square is exactly one of empty, enemy-held or friend-held. */
  lemma Occupancy(b: Board, s: Square, color: Color)
    requires InRange(s)
    ensures IsEmpty(b, s) || HasEnemy(b, s, color) || HasTeam(b, s, color)
    ensures !(IsEmpty(b, s) && HasEnemy(b, s, color))
    ensures !(IsEmpty(b, s) && HasTeam(b, s, color))
    ensures !(HasEnemy(b, s, color) && HasTeam(b, s, color))
  {
  }

  function MarkMoved(o: Option<Piece>): Option<Piece> {
    match o
    case None => None
    case Some(p) => Some(p.(moved := true))
  }

  /** Simplified stand-in for the board's own move execution: the occupant
      of the initial square, marked as moved, replaces whatever stood on the
      final square, and the initial square is emptied. */
  function Relocate(b: Board, m: Move): (r: Board)
    requires InRange(m.initial) && InRange(m.final)
    ensures At(r, m.final) == MarkMoved(At(b, m.initial))
    ensures m.initial != m.final ==> IsEmpty(r, m.initial)
    ensures forall s :: InRange(s) && s != m.initial && s != m.final ==> At(r, s) == At(b, s)
  {
    var cleared := b[m.initial.row := b[m.initial.row][m.initial.col := None]];
    cleared[m.final.row := cleared[m.final.row][m.final.col := MarkMoved(At(b, m.initial))]]
  }
}
