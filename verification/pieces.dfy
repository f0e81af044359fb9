/** Pseudo-legal move generation per piece kind: pawn pushes, captures and
    en passant; knight and king offset tables; bishop, rook and queen rays;
    king castling. Each generator is a pure function of the board, the piece
    and the square it stands on, and returns its candidates in the order the
    Python generators append them. */
module Pieces {
  import opened ChessBoard

  /** A displacement on the board: a ray direction or a fixed jump. */
  datatype Delta = Delta(dr: int, dc: int)

  function Shift(s: Square, d: Delta): Square {
    Square(s.row + d.dr, s.col + d.dc)
  }

  /** The material value of a kind, before the colour sign is applied. */
  function BaseValue(k: Kind): real {
    match k
    case Pawn => 1.0
    case Knight => 3.0
    case Bishop => 3.001
    case Rook => 5.0
    case Queen => 9.0
    case King => 10000.0
  }

  /** The signed material value a piece is constructed with. */
  function Value(p: Piece): (v: real)
    ensures v > 0.0 <==> p.color == White
    ensures v == BaseValue(p.kind) || v == -BaseValue(p.kind)
  {
    var sign := if p.color == White then 1.0 else -1.0;
    BaseValue(p.kind) * sign
  }

  /** The candidates a generator produces: the moving piece's own list, and
      the moves castling hands to a rook (empty for every other generator). */
  datatype Gen = Gen(own: seq<Move>, rook: seq<Move>)

  // ---------------------------------------------------------------------
  // Sliding pieces
  // ---------------------------------------------------------------------

  /** One of the eight unit directions a slider walks along. */
  predicate IsUnit(d: Delta) {
    -1 <= d.dr <= 1 && -1 <= d.dc <= 1 && (d.dr != 0 || d.dc != 0)
  }

  /** How many squares, starting at `s` itself, remain on the board when
      walking along `d`; it bounds the walk. */
  function Reach(s: Square, d: Delta): int {
    if d.dr > 0 then 8 - s.row
    else if d.dr < 0 then s.row + 1
    else if d.dc > 0 then 8 - s.col
    else s.col + 1
  }

  /** Why a walk along `d` that emitted `r`, having started at `cur`, ends:
      the last emitted square holds an enemy, or the next square is off the
      board or friend-held. */
  ghost predicate RayStops(b: Board, color: Color, cur: Square, d: Delta, r: seq<Move>)
    requires forall i :: 0 <= i < |r| ==> InRange(r[i].final)
  {
    if |r| == 0 then
      !InRange(cur) || HasTeam(b, cur, color)
    else
      var last := r[|r| - 1].final;
      HasEnemy(b, last, color) || !InRange(Shift(last, d)) || HasTeam(b, Shift(last, d), color)
  }

  /** `r` is the walk from `cur` along `d` for a `color` piece standing on
      `from`: consecutive on-board squares starting at `cur`, all empty but
      the last, the last empty or enemy-held, ending for a reason. */
  ghost predicate IsRay(b: Board, color: Color, from: Square, cur: Square, d: Delta, r: seq<Move>)
  {
    && (forall i :: 0 <= i < |r| ==> r[i].initial == from && InRange(r[i].final))
    && (|r| > 0 ==> r[0].final == cur)
    && (forall i :: 0 <= i < |r| - 1 ==> r[i + 1].final == Shift(r[i].final, d))
    && (forall i :: 0 <= i < |r| - 1 ==> IsEmpty(b, r[i].final))
    && (|r| > 0 ==> IsEmptyOrEnemy(b, r[|r| - 1].final, color))
    && RayStops(b, color, cur, d, r)
  }

  /** The walk from `cur` along `d`: empty squares are emitted and passed,
      an enemy square is emitted and ends the walk, a friendly square or
      the board edge ends it without a move. */
  function RayFrom(b: Board, color: Color, from: Square, cur: Square, d: Delta): (r: seq<Move>)
    requires IsUnit(d)
    ensures IsRay(b, color, from, cur, d, r)
    decreases Reach(cur, d)
  {
    if !InRange(cur) then []
    else if IsEmpty(b, cur) then [Move(from, cur)] + RayFrom(b, color, from, Shift(cur, d), d)
    else if HasEnemy(b, cur, color) then [Move(from, cur)]
    else []
  }

  /** The specification of a walk is complete: only the walk satisfies it. */
  lemma {:induction false} RayUnique(b: Board, color: Color, from: Square, cur: Square, d: Delta, r: seq<Move>)
    requires IsUnit(d)
    requires IsRay(b, color, from, cur, d, r)
    ensures r == RayFrom(b, color, from, cur, d)
    decreases Reach(cur, d)
  {
    if |r| == 0 {
      if InRange(cur) {
        Occupancy(b, cur, color);
      }
    } else {
      assert r[0].final == cur;
      Occupancy(b, cur, color);
      if |r| == 1 {
        if IsEmpty(b, cur) {
          var next := Shift(cur, d);
          if InRange(next) {
            Occupancy(b, next, color);
          }
          assert RayFrom(b, color, from, next, d) == [];
        }
      } else {
        assert IsEmpty(b, r[0].final);
        var tail := r[1..];
        assert IsRay(b, color, from, Shift(cur, d), d, tail);
        RayUnique(b, color, from, Shift(cur, d), d, tail);
        assert r == [r[0]] + tail;
      }
    }
  }

  /** The ray a slider on `from` casts along `d`. */
  function Ray(b: Board, color: Color, from: Square, d: Delta): (r: seq<Move>)
    requires IsUnit(d)
    ensures IsRay(b, color, from, Shift(from, d), d, r)
    ensures forall m :: m in r ==> m.initial == from && InRange(m.final) && IsEmptyOrEnemy(b, m.final, color)
  {
    var r := RayFrom(b, color, from, Shift(from, d), d);
    assert forall i :: 0 <= i < |r| ==> IsEmptyOrEnemy(b, r[i].final, color) by {
      forall i | 0 <= i < |r|
        ensures IsEmptyOrEnemy(b, r[i].final, color)
      {
        if i < |r| - 1 {
          assert IsEmpty(b, r[i].final);
        }
      }
    }
    r
  }

  predicate AllUnit(dirs: seq<Delta>) {
    forall d :: d in dirs ==> IsUnit(d)
  }

  /** The rays along `dirs`, one after another in the order given. */
  function Sliding(b: Board, color: Color, from: Square, dirs: seq<Delta>): (r: seq<Move>)
    requires AllUnit(dirs)
    ensures forall m :: m in r ==> m.initial == from && InRange(m.final) && IsEmptyOrEnemy(b, m.final, color)
  {
    if |dirs| == 0 then []
    else Ray(b, color, from, dirs[0]) + Sliding(b, color, from, dirs[1..])
  }

  /** Casting rays along two direction lists in turn is casting them along
      the concatenated list. */
  lemma {:induction false} SlidingAppend(b: Board, color: Color, from: Square, xs: seq<Delta>, ys: seq<Delta>)
    requires AllUnit(xs) && AllUnit(ys)
    ensures AllUnit(xs + ys)
    ensures Sliding(b, color, from, xs + ys) == Sliding(b, color, from, xs) + Sliding(b, color, from, ys)
    decreases |xs|
  {
    if |xs| == 0 {
      assert xs + ys == ys;
    } else {
      var zs := xs + ys;
      assert zs[0] == xs[0];
      assert zs[1..] == xs[1..] + ys;
      SlidingAppend(b, color, from, xs[1..], ys);
      var head := Ray(b, color, from, xs[0]);
      calc {
        Sliding(b, color, from, zs);
        head + Sliding(b, color, from, zs[1..]);
        head + (Sliding(b, color, from, xs[1..]) + Sliding(b, color, from, ys));
        (head + Sliding(b, color, from, xs[1..])) + Sliding(b, color, from, ys);
        Sliding(b, color, from, xs) + Sliding(b, color, from, ys);
      }
    }
  }

  const BishopDirs: seq<Delta> := [Delta(-1, 1), Delta(-1, -1), Delta(1, 1), Delta(1, -1)]
  const RookDirs: seq<Delta> := [Delta(-1, 0), Delta(0, 1), Delta(1, 0), Delta(0, -1)]
  const QueenDirs: seq<Delta> :=
    [Delta(-1, 1), Delta(-1, -1), Delta(1, 1), Delta(1, -1),
     Delta(-1, 0), Delta(0, 1), Delta(1, 0), Delta(0, -1)]

  /** A queen's moves are the bishop's rays followed by the rook's rays from
      the same square. */
  lemma QueenIsBishopThenRook(b: Board, color: Color, from: Square)
    ensures AllUnit(QueenDirs) && AllUnit(BishopDirs) && AllUnit(RookDirs)
    ensures Sliding(b, color, from, QueenDirs)
         == Sliding(b, color, from, BishopDirs) + Sliding(b, color, from, RookDirs)
  {
    assert QueenDirs == BishopDirs + RookDirs;
    SlidingAppend(b, color, from, BishopDirs, RookDirs);
  }

  // ---------------------------------------------------------------------
  // Knight and king: fixed offset tables
  // ---------------------------------------------------------------------

  const KnightJumps: seq<Delta> :=
    [Delta(-2, 1), Delta(-1, 2), Delta(1, 2), Delta(2, 1),
     Delta(2, -1), Delta(1, -2), Delta(-1, -2), Delta(-2, -1)]

  const KingSteps: seq<Delta> :=
    [Delta(-1, 0), Delta(-1, 1), Delta(0, 1), Delta(1, 1),
     Delta(1, 0), Delta(1, -1), Delta(0, -1), Delta(-1, -1)]

  /** One candidate per offset whose target is on the board and empty or
      enemy-held, in table order. */
  function Hops(b: Board, color: Color, from: Square, offsets: seq<Delta>): (r: seq<Move>)
    ensures |r| <= |offsets|
    ensures forall m :: m in r ==>
              && m.initial == from && InRange(m.final) && IsEmptyOrEnemy(b, m.final, color)
              && exists o :: o in offsets && m.final == Shift(from, o)
    ensures forall o :: o in offsets && InRange(Shift(from, o)) && IsEmptyOrEnemy(b, Shift(from, o), color)
              ==> Move(from, Shift(from, o)) in r
  {
    if |offsets| == 0 then []
    else
      var t := Shift(from, offsets[0]);
      var head := if InRange(t) && IsEmptyOrEnemy(b, t, color) then [Move(from, t)] else [];
      var tail := Hops(b, color, from, offsets[1..]);
      assert forall o :: o in offsets[1..] ==> o in offsets;
      assert forall o :: o in offsets ==> o == offsets[0] || o in offsets[1..];
      head + tail
  }

  // ---------------------------------------------------------------------
  // Pawn
  // ---------------------------------------------------------------------

  /** The row step of a pawn: White moves up the board, Black down. */
  function PawnDir(c: Color): (dir: int)
    ensures c == White ==> dir == -1
    ensures c == Black ==> dir == 1
  {
    if c == White then -1 else 1
  }

  function OneAhead(p: Piece, from: Square): Square {
    Square(from.row + PawnDir(p.color), from.col)
  }

  function TwoAhead(p: Piece, from: Square): Square {
    Square(from.row + 2 * PawnDir(p.color), from.col)
  }

  /** Forward pushes: one step if that square is on the board and empty;
      a second step only for an unmoved pawn whose two squares ahead are
      both on the board and empty. */
  function PawnPushes(b: Board, p: Piece, from: Square): (r: seq<Move>)
    requires InRange(from)
    ensures |r| <= (if p.moved then 1 else 2)
    ensures forall m :: m in r ==> m.initial == from && InRange(m.final) && IsEmpty(b, m.final)
    ensures forall m :: m in r ==> m.final == OneAhead(p, from) || m.final == TwoAhead(p, from)
    ensures Move(from, OneAhead(p, from)) in r
        <==> InRange(OneAhead(p, from)) && IsEmpty(b, OneAhead(p, from))
    ensures Move(from, TwoAhead(p, from)) in r
        <==> && !p.moved
             && InRange(OneAhead(p, from)) && IsEmpty(b, OneAhead(p, from))
             && InRange(TwoAhead(p, from)) && IsEmpty(b, TwoAhead(p, from))
    ensures |r| > 0 ==> r[0] == Move(from, OneAhead(p, from))
  {
    var one := OneAhead(p, from);
    var two := TwoAhead(p, from);
    if !InBounds(one.row) || !IsEmpty(b, one) then []
    else if p.moved || !InBounds(two.row) || !IsEmpty(b, two) then [Move(from, one)]
    else [Move(from, one), Move(from, two)]
  }

  /** An unmoved pawn with both squares ahead empty gets exactly the two
      forward moves. */
  lemma DoubleStep(b: Board, p: Piece, from: Square)
    requires InRange(from) && !p.moved
    requires InRange(OneAhead(p, from)) && IsEmpty(b, OneAhead(p, from))
    requires InRange(TwoAhead(p, from)) && IsEmpty(b, TwoAhead(p, from))
    ensures PawnPushes(b, p, from) == [Move(from, OneAhead(p, from)), Move(from, TwoAhead(p, from))]
  {
  }

  /** Diagonal captures: one row ahead, one column to either side, only onto
      enemy-held squares, the left one first. */
  function PawnCaptures(b: Board, p: Piece, from: Square): (r: seq<Move>)
    ensures |r| <= 2
    ensures forall m :: m in r ==>
              && m.initial == from && InRange(m.final) && HasEnemy(b, m.final, p.color)
              && m.final.row == from.row + PawnDir(p.color)
              && (m.final.col == from.col - 1 || m.final.col == from.col + 1)
    ensures var t := Square(from.row + PawnDir(p.color), from.col - 1);
              InRange(t) && HasEnemy(b, t, p.color) ==> Move(from, t) in r
    ensures var t := Square(from.row + PawnDir(p.color), from.col + 1);
              InRange(t) && HasEnemy(b, t, p.color) ==> Move(from, t) in r
  {
    var row := from.row + PawnDir(p.color);
    var left := Square(row, from.col - 1);
    var right := Square(row, from.col + 1);
    (if InRange(left) && HasEnemy(b, left, p.color) then [Move(from, left)] else [])
    + (if InRange(right) && HasEnemy(b, right, p.color) then [Move(from, right)] else [])
  }

  /** The row a pawn must stand on to capture en passant. */
  function EnPassantRow(c: Color): int {
    if c == White then 3 else 4
  }

  /** The row an en-passant capture lands on. */
  function EnPassantLanding(c: Color): int {
    if c == White then 2 else 5
  }

  /** `s` holds an enemy pawn whose en-passant flag is set. */
  predicate EnPassantVictim(b: Board, p: Piece, s: Square)
    requires InRange(s)
  {
    HasEnemy(b, s, p.color) && At(b, s).value.kind == Pawn && At(b, s).value.enPassant
  }

  /** The en-passant candidate past the neighbour in column `col`, if any.
      The landing square's occupancy is not consulted. */
  function EnPassantToward(b: Board, p: Piece, from: Square, col: int): seq<Move>
    requires InRange(from)
  {
    if InBounds(col) && from.row == EnPassantRow(p.color)
       && EnPassantVictim(b, p, Square(from.row, col))
    then [Move(from, Square(EnPassantLanding(p.color), col))]
    else []
  }

  /** En passant: from the pawn's fifth rank, onto the square behind an
      adjacent flagged enemy pawn, the left one first. */
  function EnPassant(b: Board, p: Piece, from: Square): (r: seq<Move>)
    requires InRange(from)
    ensures |r| <= 2
    ensures forall m :: m in r ==>
              && m.initial == from
              && from.row == EnPassantRow(p.color)
              && m.final.row == EnPassantLanding(p.color)
              && (m.final.col == from.col - 1 || m.final.col == from.col + 1)
              && InRange(m.final)
              && EnPassantVictim(b, p, Square(from.row, m.final.col))
    ensures var n := Square(from.row, from.col - 1);
              from.row == EnPassantRow(p.color) && InRange(n) && EnPassantVictim(b, p, n)
              ==> Move(from, Square(EnPassantLanding(p.color), n.col)) in r
    ensures var n := Square(from.row, from.col + 1);
              from.row == EnPassantRow(p.color) && InRange(n) && EnPassantVictim(b, p, n)
              ==> Move(from, Square(EnPassantLanding(p.color), n.col)) in r
  {
    EnPassantToward(b, p, from, from.col - 1) + EnPassantToward(b, p, from, from.col + 1)
  }

  /** All pawn candidates: pushes, then diagonal captures, then en passant. */
  function PawnMoves(b: Board, p: Piece, from: Square): (r: seq<Move>)
    requires InRange(from)
    ensures forall m :: m in r ==> m.initial == from && InRange(m.final)
    ensures forall m :: m in r <==>
              m in PawnPushes(b, p, from) || m in PawnCaptures(b, p, from) || m in EnPassant(b, p, from)
  {
    PawnPushes(b, p, from) + PawnCaptures(b, p, from) + EnPassant(b, p, from)
  }

  // ---------------------------------------------------------------------
  // King castling
  // ---------------------------------------------------------------------

  /** An unmoved rook of either colour stands on `s`. */
  predicate UnmovedRook(b: Board, s: Square)
    requires InRange(s)
  {
    At(b, s).Some? && At(b, s).value.kind == Rook && !At(b, s).value.moved
  }

  /** Columns `lo` through `hi` of `row` are all empty. */
  predicate PathClear(b: Board, row: int, lo: int, hi: int)
    requires InBounds(row) && 0 <= lo && hi < 8
  {
    forall c :: lo <= c <= hi ==> IsEmpty(b, Square(row, c))
  }

  predicate CanCastleQueenside(b: Board, p: Piece, from: Square)
    requires InRange(from)
  {
    !p.moved && UnmovedRook(b, Square(from.row, 0)) && PathClear(b, from.row, 1, 3)
  }

  predicate CanCastleKingside(b: Board, p: Piece, from: Square)
    requires InRange(from)
  {
    !p.moved && UnmovedRook(b, Square(from.row, 7)) && PathClear(b, from.row, 5, 6)
  }

  /** Castling candidates: the king's moves, and alongside each the paired
      move handed to the rook, queenside first. */
  function Castling(b: Board, p: Piece, from: Square): (r: Gen)
    requires InRange(from)
    ensures |r.own| == |r.rook| <= 2
    ensures |r.own| > 0 ==> !p.moved
    ensures Move(from, Square(from.row, 2)) in r.own <==> CanCastleQueenside(b, p, from)
    ensures Move(from, Square(from.row, 6)) in r.own <==> CanCastleKingside(b, p, from)
    ensures Move(Square(from.row, 0), Square(from.row, 3)) in r.rook <==> CanCastleQueenside(b, p, from)
    ensures Move(Square(from.row, 7), Square(from.row, 5)) in r.rook <==> CanCastleKingside(b, p, from)
    ensures forall i :: 0 <= i < |r.own| ==>
              && r.own[i].initial == from
              && (r.own[i].final == Square(from.row, 2) || r.own[i].final == Square(from.row, 6))
              && IsEmpty(b, r.own[i].final)
              && (r.own[i].final == Square(from.row, 2) <==> r.rook[i] == Move(Square(from.row, 0), Square(from.row, 3)))
              && (r.own[i].final == Square(from.row, 6) <==> r.rook[i] == Move(Square(from.row, 7), Square(from.row, 5)))
  {
    var row := from.row;
    var queenside := CanCastleQueenside(b, p, from);
    var kingside := CanCastleKingside(b, p, from);
    Gen((if queenside then [Move(from, Square(row, 2))] else [])
        + (if kingside then [Move(from, Square(row, 6))] else []),
        (if queenside then [Move(Square(row, 0), Square(row, 3))] else [])
        + (if kingside then [Move(Square(row, 7), Square(row, 5))] else []))
  }

  /** King candidates: the eight adjacent squares, then castling. */
  function KingMoves(b: Board, p: Piece, from: Square): (r: Gen)
    requires InRange(from)
    ensures |r.own| <= |KingSteps| + |r.rook|
    ensures forall m :: m in r.own ==>
              && m.initial == from && InRange(m.final) && IsEmptyOrEnemy(b, m.final, p.color)
              && ((exists o :: o in KingSteps && m.final == Shift(from, o))
                  || (!p.moved && (m.final == Square(from.row, 2) || m.final == Square(from.row, 6))))
    ensures forall o :: o in KingSteps && InRange(Shift(from, o)) && IsEmptyOrEnemy(b, Shift(from, o), p.color)
              ==> Move(from, Shift(from, o)) in r.own
    ensures CanCastleQueenside(b, p, from) ==> Move(from, Square(from.row, 2)) in r.own
    ensures CanCastleKingside(b, p, from) ==> Move(from, Square(from.row, 6)) in r.own
    ensures Move(Square(from.row, 0), Square(from.row, 3)) in r.rook <==> CanCastleQueenside(b, p, from)
    ensures Move(Square(from.row, 7), Square(from.row, 5)) in r.rook <==> CanCastleKingside(b, p, from)
  {
    var c := Castling(b, p, from);
    Gen(Hops(b, p.color, from, KingSteps) + c.own, c.rook)
  }

  // ---------------------------------------------------------------------
  // Dispatch
  // ---------------------------------------------------------------------

  /** The pseudo-legal candidates of `p` standing on `from`. */
  function PseudoMoves(b: Board, p: Piece, from: Square): (r: Gen)
    requires InRange(from)
    ensures forall m :: m in r.own ==> m.initial == from && InRange(m.final)
    ensures forall m :: m in r.rook ==> InRange(m.initial) && InRange(m.final)
    ensures p.kind != King ==> r.rook == []
    ensures p.kind == Knight ==> |r.own| <= 8 && forall m :: m in r.own ==> exists o :: o in KnightJumps && m.final == Shift(from, o)
    ensures p.kind in {Knight, Bishop, Rook, Queen, King} ==>
              forall m :: m in r.own ==> !HasTeam(b, m.final, p.color)
  {
    match p.kind
    case Pawn => Gen(PawnMoves(b, p, from), [])
    case Knight => Gen(Hops(b, p.color, from, KnightJumps), [])
    case Bishop => Gen(Sliding(b, p.color, from, BishopDirs), [])
    case Rook => Gen(Sliding(b, p.color, from, RookDirs), [])
    case Queen => Gen(Sliding(b, p.color, from, QueenDirs), [])
    case King => KingMoves(b, p, from)
  }
}
