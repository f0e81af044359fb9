/** The rules engine: turn order, move execution and the move log, the
    move-notation string, check detection, and the legality filter that
    turns pseudo-legal candidates into legal moves. */
module Engine {
  import opened ChessBoard
  import opened Pieces

  // ---------------------------------------------------------------------
  // Turn order and the move log
  // ---------------------------------------------------------------------

  /** The player to move after `c`. */
  function NextTurn(c: Color): (n: Color)
    ensures n != c
  {
    if c == Black then White else Black
  }

  /** Flipping the turn twice gives the turn back. */
  lemma NextTurnTwice(c: Color)
    ensures NextTurn(NextTurn(c)) == c
  {
  }

  /** One entry of the move history (the wall-clock timestamp is not
      modelled). `player` is the colour of the piece that moved. */
  datatype LogRecord = LogRecord(player: Color, piece: Kind, initial: Square, final: Square, notation: string)

  /** The engine's rules state: the live board, whose turn it is, the move
      history and whether moves are still accepted. */
  datatype Game = Game(board: Board, nextPlayer: Color, moveLog: seq<LogRecord>, gameActive: bool)

  /** A fresh engine on `b`: White to move, empty history, game running. */
  function NewGame(b: Board): Game {
    Game(b, White, [], true)
  }

  /** The history record of `p` making `m`: who moved what where, with a
      notation string from which the piece kind and both squares read back. */
  function LogMove(p: Piece, m: Move): (r: LogRecord)
    requires InRange(m.initial) && InRange(m.final)
    ensures r.player == p.color && r.piece == p.kind
    ensures r.initial == m.initial && r.final == m.final
    ensures ParseNotation(r.notation) == Some((r.piece, Move(r.initial, r.final)))
  {
    NotationRoundTrip(p.kind, m);

    LogRecord(p.color, p.kind, m.initial, m.final, Notation(p.kind, m))
  }

  /** Executing a move: ignored once the game is over; otherwise the board
      is updated, exactly one record is appended to the history and the turn
      passes to the other player. */
  function MakeMove(g: Game, p: Piece, m: Move): (r: Game)
    requires g.gameActive ==> InRange(m.initial) && InRange(m.final)
    ensures !g.gameActive ==> r == g
    ensures g.gameActive ==>
              && r.gameActive
              && r.board == Relocate(g.board, m)
              && r.nextPlayer != g.nextPlayer
              && |r.moveLog| == |g.moveLog| + 1
              && r.moveLog[..|g.moveLog|] == g.moveLog
              && r.moveLog[|g.moveLog|] == LogMove(p, m)
  {
    if !g.gameActive then g
    else Game(Relocate(g.board, m), NextTurn(g.nextPlayer), g.moveLog + [LogMove(p, m)], g.gameActive)
  }

  predicate AllOnBoard(ms: seq<(Piece, Move)>) {
    forall i :: 0 <= i < |ms| ==> InRange(ms[i].1.initial) && InRange(ms[i].1.final)
  }

  /** A run of moves, executed one after another. */
  function Play(g: Game, ms: seq<(Piece, Move)>): Game
    requires AllOnBoard(ms)
    decreases |ms|
  {
    if |ms| == 0 then g else Play(MakeMove(g, ms[0].0, ms[0].1), ms[1..])
  }

  lemma AllOnBoardTail(ms: seq<(Piece, Move)>)
    requires AllOnBoard(ms) && |ms| > 0
    ensures AllOnBoard(ms[1..])
  {
  }

  /** A finished game ignores any run of moves. */
  lemma {:induction false} PlayFinished(g: Game, ms: seq<(Piece, Move)>)
    requires AllOnBoard(ms) && !g.gameActive
    ensures Play(g, ms) == g
    decreases |ms|
  {
    if |ms| > 0 {
      AllOnBoardTail(ms);
      assert MakeMove(g, ms[0].0, ms[0].1) == g;
      PlayFinished(g, ms[1..]);
    }
  }

  /** From a fresh engine, a run of moves leaves one record per move, and
      White is to move again exactly after an even number of moves. */
  lemma NewGameAlternates(b: Board, ms: seq<(Piece, Move)>)
    requires AllOnBoard(ms)
    ensures |Play(NewGame(b), ms).moveLog| == |ms|
    ensures Play(NewGame(b), ms).nextPlayer == White <==> |ms| % 2 == 0
  {
    PlayAlternates(NewGame(b), ms);
  }

  lemma OddEven(n: nat)
    ensures (n + 1) % 2 == 0 <==> n % 2 == 1
  {
  }

  /** Over a run of moves in a running game, the game stays running, the
      history grows by one record per move keeping the earlier records,
      and the turn alternates. */
  lemma {:induction false} PlayAlternates(g: Game, ms: seq<(Piece, Move)>)
    requires AllOnBoard(ms) && g.gameActive
    ensures Play(g, ms).gameActive
    ensures |Play(g, ms).moveLog| == |g.moveLog| + |ms|
    ensures Play(g, ms).moveLog[..|g.moveLog|] == g.moveLog
    ensures Play(g, ms).nextPlayer == g.nextPlayer <==> |ms| % 2 == 0
    decreases |ms|
  {
    if |ms| > 0 {
      AllOnBoardTail(ms);
      var g' := MakeMove(g, ms[0].0, ms[0].1);
      var rest := ms[1..];
      PlayAlternates(g', rest);
      var r := Play(g', rest);
      assert Play(g, ms) == r;
      assert g'.nextPlayer != g.nextPlayer;
      assert r.nextPlayer == g'.nextPlayer <==> |rest| % 2 == 0;
      OddEven(|rest|);
      assert r.moveLog[..|g.moveLog|] == r.moveLog[..|g'.moveLog|][..|g.moveLog|];
    }
  }

  // ---------------------------------------------------------------------
  // Notation
  // ---------------------------------------------------------------------

  /** The piece letter: none for a pawn. */
  function Letter(k: Kind): string {
    match k
    case Pawn => ""
    case Knight => "N"
    case Bishop => "B"
    case Rook => "R"
    case Queen => "Q"
    case King => "K"
  }

  /** The file letter of a column. */
  function FileChar(col: int): (c: char)
    requires InBounds(col)
    ensures c as int == 'a' as int + col
  {
    "abcdefgh"[col]
  }

  /** The rank digit of a row: row 0 is rank 8. */
  function RankChar(row: int): (c: char)
    requires InBounds(row)
    ensures c as int == '0' as int + (8 - row)
  {
    "87654321"[row]
  }

  /** The move string `<letter><file><rank>-<file><rank>`. */
  function Notation(k: Kind, m: Move): (s: string)
    requires InRange(m.initial) && InRange(m.final)
    ensures |s| == (if k == Pawn then 5 else 6)
    ensures s[..|s| - 5] == Letter(k)
    ensures s[|s| - 5] as int == 'a' as int + m.initial.col
    ensures s[|s| - 4] as int == '0' as int + (8 - m.initial.row)
    ensures s[|s| - 3] == '-'
    ensures s[|s| - 2] as int == 'a' as int + m.final.col
    ensures s[|s| - 1] as int == '0' as int + (8 - m.final.row)
  {
    Letter(k) + [FileChar(m.initial.col), RankChar(m.initial.row), '-', FileChar(m.final.col), RankChar(m.final.row)]
  }

  function KindOfLetter(c: char): Option<Kind> {
    match c
    case 'N' => Some(Knight)
    case 'B' => Some(Bishop)
    case 'R' => Some(Rook)
    case 'Q' => Some(Queen)
    case 'K' => Some(King)
    case _ => None
  }

  function ParseFile(c: char): Option<int> {
    if 'a' <= c <= 'h' then Some(c as int - 'a' as int) else None
  }

  function ParseRank(c: char): Option<int> {
    if '1' <= c <= '8' then Some(8 - (c as int - '0' as int)) else None
  }

  /** Reads a move string back; it accepts exactly the strings `Notation`
      produces. */
  function ParseNotation(s: string): (r: Option<(Kind, Move)>)
    ensures r.Some? ==>
              && InRange(r.value.1.initial) && InRange(r.value.1.final)
              && Notation(r.value.0, r.value.1) == s
  {
    if |s| != 5 && |s| != 6 then None
    else
      var o := |s| - 5;
      var kind := if o == 0 then Some(Pawn) else KindOfLetter(s[0]);
      var f0 := ParseFile(s[o]);
      var r0 := ParseRank(s[o + 1]);
      var f1 := ParseFile(s[o + 3]);
      var r1 := ParseRank(s[o + 4]);
      if kind.None? || f0.None? || r0.None? || s[o + 2] != '-' || f1.None? || r1.None? then None
      else
        var k := kind.value;
        var m := Move(Square(r0.value, f0.value), Square(r1.value, f1.value));
        assert s[..o] == Letter(k);
        assert Notation(k, m) == s;
        Some((k, m))
  }

  /** Notation loses nothing: the piece kind and both squares can be read
      back from the string. */
  lemma NotationRoundTrip(k: Kind, m: Move)
    requires InRange(m.initial) && InRange(m.final)
    ensures ParseNotation(Notation(k, m)) == Some((k, m))
  {
  }

  // ---------------------------------------------------------------------
  // Check detection
  // ---------------------------------------------------------------------

  predicate IsKingOf(b: Board, s: Square, color: Color)
    requires InRange(s)
  {
    HasTeam(b, s, color) && At(b, s).value.kind == King
  }

  /** The first column from `col` on in which `row` holds a `color` king. */
  function KingInRow(b: Board, color: Color, row: int, col: int): (r: Option<int>)
    requires InBounds(row) && 0 <= col <= 8
    ensures r.Some? ==>
              && col <= r.value < 8 && IsKingOf(b, Square(row, r.value), color)
              && forall c :: col <= c < r.value ==> !IsKingOf(b, Square(row, c), color)
    ensures r.None? ==> forall c :: col <= c < 8 ==> !IsKingOf(b, Square(row, c), color)
    decreases 8 - col
  {
    if col == 8 then None
    else if IsKingOf(b, Square(row, col), color) then Some(col)
    else KingInRow(b, color, row, col + 1)
  }

  /** `k` is where the king scan settles among the kings in rows `lo` and
      below: it lies in the last such row that holds a king, and is the
      first king of that row. */
  ghost predicate ScanWinner(b: Board, color: Color, k: Square, lo: int) {
    forall s :: InRange(s) && lo <= s.row && IsKingOf(b, s, color) ==>
      s.row < k.row || (s.row == k.row && k.col <= s.col)
  }

  /** The king scan over rows `row` to 7, having settled on `found` so far.
      Each row that holds a king replaces the result with its first king. */
  function LocateKingFrom(b: Board, color: Color, row: int, found: Option<Square>): (r: Option<Square>)
    requires 0 <= row <= 8
    requires found.Some? ==> InRange(found.value) && found.value.row < row && IsKingOf(b, found.value, color)
    ensures r.Some? ==> InRange(r.value) && IsKingOf(b, r.value, color)
    ensures (forall s :: InRange(s) && row <= s.row ==> !IsKingOf(b, s, color)) ==> r == found
    ensures r != found ==> r.Some? && row <= r.value.row && ScanWinner(b, color, r.value, row)
    ensures r == found ==> forall s :: InRange(s) && row <= s.row ==> !IsKingOf(b, s, color)
    decreases 8 - row
  {
    if row == 8 then found
    else
      var next := match KingInRow(b, color, row, 0)
        case Some(c) => Some(Square(row, c))
        case None => found;
      LocateKingFrom(b, color, row + 1, next)
  }

  /** Where the engine finds the `color` king: rows are scanned top to
      bottom and within a row the scan stops at the first king, so with
      several kings the first king of the last row holding one wins. */
  function LocateKing(b: Board, color: Color): (r: Option<Square>)
    ensures r.None? <==> forall s :: InRange(s) ==> !IsKingOf(b, s, color)
    ensures r.Some? ==> InRange(r.value) && IsKingOf(b, r.value, color) && ScanWinner(b, color, r.value, 0)
  {
    LocateKingFrom(b, color, 0, None)
  }

  ghost predicate AtMostOneKing(b: Board, color: Color) {
    forall s, t :: InRange(s) && InRange(t) && IsKingOf(b, s, color) && IsKingOf(b, t, color) ==> s == t
  }

  /** On a board with a single `color` king the scan finds exactly it. */
  lemma LocateSoleKing(b: Board, color: Color, k: Square)
    requires InRange(k) && IsKingOf(b, k, color)
    requires AtMostOneKing(b, color)
    ensures LocateKing(b, color) == Some(k)
  {
  }

  /** The piece on `s` is an enemy of `color` and one of its pseudo-legal
      candidates lands on `target`. */
  predicate AttacksFrom(b: Board, color: Color, s: Square, target: Square)
    requires InRange(s)
  {
    HasTeam(b, s, Opponent(color))
    && exists m :: m in PseudoMoves(b, At(b, s).value, s).own && m.final == target
  }

  /** The attack scan along `row` from column `col` on. */
  function ScanRow(b: Board, color: Color, target: Square, row: int, col: int): (r: bool)
    requires InBounds(row) && 0 <= col <= 8
    ensures r <==> exists c :: col <= c < 8 && AttacksFrom(b, color, Square(row, c), target)
    decreases 8 - col
  {
    if col == 8 then false
    else AttacksFrom(b, color, Square(row, col), target) || ScanRow(b, color, target, row, col + 1)
  }

  /** The attack scan over rows `row` to 7. */
  function ScanBoard(b: Board, color: Color, target: Square, row: int): (r: bool)
    requires 0 <= row <= 8
    ensures r <==> exists s :: InRange(s) && row <= s.row && AttacksFrom(b, color, s, target)
    decreases 8 - row
  {
    if row == 8 then false
    else
      var here := ScanRow(b, color, target, row, 0);
      var later := ScanBoard(b, color, target, row + 1);
      assert here ==> exists s :: InRange(s) && row <= s.row && AttacksFrom(b, color, s, target) by {
        if here {
          var c :| 0 <= c < 8 && AttacksFrom(b, color, Square(row, c), target);
          assert InRange(Square(row, c)) && row <= Square(row, c).row;
        }
      }
      here || later
  }

  /** Whether the `color` king, as located by the king scan, is the landing
      square of some enemy piece's pseudo-legal candidate. A side with no
      king is never attacked. */
  function IsKingAttacked(b: Board, color: Color): (r: bool)
    ensures LocateKing(b, color).None? ==> !r
    ensures LocateKing(b, color).Some? ==>
              (r <==> exists s :: InRange(s) && AttacksFrom(b, color, s, LocateKing(b, color).value))
  {
    AttackedAt(b, color, LocateKing(b, color))
  }

  /** The attack test once the king scan has produced `king`: no king means
      no attack; otherwise some enemy piece must have a candidate onto it. */
  function AttackedAt(b: Board, color: Color, king: Option<Square>): (r: bool)
    ensures king.None? ==> !r
    ensures king.Some? ==> (r <==> exists s :: InRange(s) && AttacksFrom(b, color, s, king.value))
  {
    match king
    case None => false
    case Some(k) => ScanBoard(b, color, k, 0)
  }

  /** With a single `color` king on the board, it is attacked exactly when
      some enemy piece has a candidate landing on its square. */
  lemma SoleKingAttacked(b: Board, color: Color, k: Square)
    requires InRange(k) && IsKingOf(b, k, color)
    requires AtMostOneKing(b, color)
    ensures IsKingAttacked(b, color) <==> exists s :: InRange(s) && AttacksFrom(b, color, s, k)
  {
  }

  /** Whether making `m` would leave the mover's king attacked, judged on a
      separate board value with the move applied; the live board is a value
      and is untouched. */
  function InCheck(b: Board, p: Piece, m: Move): (r: bool)
    requires InRange(m.initial) && InRange(m.final)
    ensures (forall s :: InRange(s) ==> !IsKingOf(b, s, p.color)) ==> !r
  {
    NoKingAfterRelocate(b, m, p.color);
    IsKingAttacked(Relocate(b, m), p.color)
  }

  /** Moving a piece creates no king: a colour with no king keeps none. */
  lemma NoKingAfterRelocate(b: Board, m: Move, color: Color)
    requires InRange(m.initial) && InRange(m.final)
    ensures (forall s :: InRange(s) ==> !IsKingOf(b, s, color)) ==>
              forall s :: InRange(s) ==> !IsKingOf(Relocate(b, m), s, color)
  {
  }

  /** A move by any piece other than a king leaves the mover's sole king on
      its square `k`: the move is in check exactly when some enemy piece
      then has a candidate landing on `k`. */
  lemma InCheckNonKingMove(b: Board, p: Piece, m: Move, k: Square)
    requires InRange(m.initial) && InRange(m.final) && InRange(k)
    requires IsKingOf(b, k, p.color) && AtMostOneKing(b, p.color)
    requires m.initial != k && m.final != k
    requires At(b, m.initial).Some? && At(b, m.initial).value.kind != King
    ensures InCheck(b, p, m) <==> exists s :: InRange(s) && AttacksFrom(Relocate(b, m), p.color, s, k)
  {
    var r := Relocate(b, m);
    assert IsKingOf(r, k, p.color);
    forall s, t | InRange(s) && InRange(t) && IsKingOf(r, s, p.color) && IsKingOf(r, t, p.color)
      ensures s == t
    {
      assert s != m.final && t != m.final;
      assert IsKingOf(b, s, p.color) && IsKingOf(b, t, p.color);
    }
    SoleKingAttacked(r, p.color, k);
  }

  /** A king move carries the sole king to the move's final square: the move
      is in check exactly when some enemy piece then has a candidate landing
      there. */
  lemma InCheckKingMove(b: Board, p: Piece, m: Move)
    requires InRange(m.initial) && InRange(m.final) && m.initial != m.final
    requires IsKingOf(b, m.initial, p.color) && AtMostOneKing(b, p.color)
    ensures InCheck(b, p, m) <==> exists s :: InRange(s) && AttacksFrom(Relocate(b, m), p.color, s, m.final)
  {
    var r := Relocate(b, m);
    assert IsKingOf(r, m.final, p.color);
    forall s, t | InRange(s) && InRange(t) && IsKingOf(r, s, p.color) && IsKingOf(r, t, p.color)
      ensures s == t
    {
      if s != m.final {
        assert s != m.initial && IsKingOf(b, s, p.color);
      }
      if t != m.final {
        assert t != m.initial && IsKingOf(b, t, p.color);
      }
    }
    SoleKingAttacked(r, p.color, m.final);
  }

  // ---------------------------------------------------------------------
  // The legality filter
  // ---------------------------------------------------------------------

  predicate OnBoard(ms: seq<Move>) {
    forall m :: m in ms ==> InRange(m.initial) && InRange(m.final)
  }

  /** `idx` lists, in increasing order, positions in `b` whose elements
      form `a`: `a` is an ordered subsequence of `b`. */
  ghost predicate Embeds<T>(idx: seq<int>, a: seq<T>, b: seq<T>) {
    && |idx| == |a|
    && (forall j :: 0 <= j < |idx| ==> 0 <= idx[j] < |b| && a[j] == b[idx[j]])
    && (forall j, k :: 0 <= j < k < |idx| ==> idx[j] < idx[k])
  }

  /** `kept` is `cands` with exactly the candidates that leave the king in
      check removed, the rest in their original order. */
  ghost predicate KeepsLegal(b: Board, p: Piece, cands: seq<Move>, kept: seq<Move>)
    requires OnBoard(cands)
  {
    exists idx :: KeepsLegalAt(b, p, cands, kept, idx)
  }

  ghost predicate KeepsLegalAt(b: Board, p: Piece, cands: seq<Move>, kept: seq<Move>, idx: seq<int>)
    requires OnBoard(cands)
  {
    && Embeds(idx, kept, cands)
    && forall i :: 0 <= i < |cands| ==> (i in idx <==> !InCheck(b, p, cands[i]))
  }

  /** The elements of `xs` whose mark in `keep` is set, in their original
      order; `idx` records the positions they were taken from. */
  method KeepMarked<T>(xs: seq<T>, keep: seq<bool>) returns (ys: seq<T>, ghost idx: seq<int>)
    requires |keep| == |xs|
    ensures Embeds(idx, ys, xs)
    ensures forall i :: 0 <= i < |xs| ==> (i in idx <==> keep[i])
    ensures forall y :: y in ys <==> exists i :: 0 <= i < |xs| && keep[i] && xs[i] == y
  {
    ys, idx := [], [];
    var i := 0;
    while i < |xs|
      invariant 0 <= i <= |xs|
      invariant Embeds(idx, ys, xs)
      invariant forall j :: 0 <= j < |idx| ==> idx[j] < i
      invariant forall k :: 0 <= k < i ==> (k in idx <==> keep[k])
    {
      if keep[i] {
        ys, idx := ys + [xs[i]], idx + [i];
      }
      i := i + 1;
    }
    forall y
      ensures y in ys <==> exists i :: 0 <= i < |xs| && keep[i] && xs[i] == y
    {
      if y in ys {
        var j :| 0 <= j < |ys| && ys[j] == y;
        assert idx[j] in idx;
      }
      if exists i :: 0 <= i < |xs| && keep[i] && xs[i] == y {
        var i :| 0 <= i < |xs| && keep[i] && xs[i] == y;
        var j :| 0 <= j < |idx| && idx[j] == i;
        assert ys[j] == y;
      }
    }
  }

  /** Regenerates the candidates of `p` on `from` and, when
      `checkForChecks` holds, keeps only those that do not leave the
      mover's king attacked. Moves castling hands to a rook are passed on
      unfiltered. */
  method CalculateMoves(g: Game, p: Piece, from: Square, checkForChecks: bool) returns (r: Gen)
    requires InRange(from)
    ensures r.rook == PseudoMoves(g.board, p, from).rook
    ensures !checkForChecks ==> r.own == PseudoMoves(g.board, p, from).own
    ensures checkForChecks ==> KeepsLegal(g.board, p, PseudoMoves(g.board, p, from).own, r.own)
    ensures checkForChecks ==> forall m :: m in r.own <==>
              m in PseudoMoves(g.board, p, from).own && !InCheck(g.board, p, m)
  {
    var pseudo := PseudoMoves(g.board, p, from);
    if !checkForChecks {
      return pseudo;
    }
    var cands := pseudo.own;
    var keep := seq(|cands|, i requires 0 <= i < |cands| => !InCheck(g.board, p, cands[i]));
    var valid;
    ghost var idx;
    valid, idx := KeepMarked(cands, keep);
    assert KeepsLegalAt(g.board, p, cands, valid, idx);
    r := Gen(valid, pseudo.rook);
  }
}
