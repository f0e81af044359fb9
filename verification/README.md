# Chess rules core in Dafny

A functional model of the rules core of a two-player chess program. It covers
two layers.

- **Pseudo-legal move generation per piece kind** (`src/pieces.py`):
  - pawn pushes, diagonal captures and en passant;
  - the knight's and king's fixed offset tables;
  - bishop, rook and queen ray casting, modelled as one shared ray function;
  - king castling.
- **The legality and turn layer** (`src/engine.py`):
  - the check filter (`calculate_moves`, `in_check`, `is_king_attacked`);
  - the turn flip;
  - the game-active guard on `move`;
  - the move log;
  - the move-notation string.

Modules:

- `ChessBoard` (board.dfy): the value types the generators read.
  - Colours, piece kinds and pieces.
  - Squares and moves.
  - The 8x8 `Board`, a `seq<seq<Option<Piece>>>`.
  - The occupancy queries `InRange`, `IsEmpty`, `HasEnemy`, `HasTeam`. `HasTeam` is the Python code's `has_team_piece`.
  - `Relocate`, the board update used when a move is made.
- `Pieces` (pieces.dfy): one pure generator per piece kind. A generator returns a `Gen`:
  - `own` is the piece's own candidate list, in the order the Python code appends it;
  - `rook` holds the moves castling hands to a rook. The Python code appends these to the rook's list as a side effect; here they are returned instead.
- `Engine` (engine.dfy): the engine state `Game`, and these operations:
  - `NextTurn`, `MakeMove` and `Play`;
  - `Notation` with its reader `ParseNotation`;
  - the king scan `LocateKing` and the attack test `IsKingAttacked`;
  - `InCheck`, which tests a move on a separate board value;
  - `CalculateMoves`, which runs the legality filter.

Everything is a value, so `InCheck` and `IsKingAttacked` cannot change the live board. This takes the place of the `copy.deepcopy` in `in_check`. `InCheckNonKingMove` and `InCheckKingMove` state what `InCheck` means on a board with one king of the mover's colour: an enemy candidate lands on the king's square after the move.

Where the code departs from the usual chess rules or from its own comments, the model follows the code:

- Castling accepts an unmoved rook of either colour. The code tests only `isinstance(..., Rook)`.
- Castling does not check that the king's transit squares are safe.
- An en-passant candidate's landing square is not checked to be empty.
- The king-attack test counts every pseudo-legal candidate of an enemy piece. That includes en passant and castling candidates.
- With more than one king of a colour, the king scan's `break` leaves only the inner loop. So the first king of the last row that holds one is used.
- Nothing in the engine ever ends the game. The `gameActive` flag stays as it was.

## Model

| member | source | states |
|---|---|---|
| ChessBoard.Opponent | src/engine.py:109 | the enemy colour differs from the given colour |
| ChessBoard.Occupancy | src/pieces.py:146-152 | a square is exactly one of empty, enemy-held or friend-held, so the ray walk's three branches cover every case |
| ChessBoard.Relocate | src/engine.py:93-94 | the moved piece, marked as moved, stands on the final square; the initial square is empty; every other square is unchanged |
| Pieces.Value | src/pieces.py:7-8 | a piece's value is positive exactly for White, and its magnitude is the kind's base value |
| Pieces.RayFrom | src/pieces.py:139-156 | the walk emits consecutive on-board squares from its start; all but the last are empty; the last is empty or enemy-held; it ends at an enemy, the board edge or a friendly piece |
| Pieces.RayUnique | src/pieces.py:139-156 | the ray characterisation is complete: any move list meeting it is exactly the walk |
| Pieces.Ray | src/pieces.py:134-156 | a ray's moves start at the piece's square and land on board, on empty or enemy squares, never on a friendly one |
| Pieces.Sliding | src/pieces.py:131-137 | every slider move starts at the piece's square and lands on an on-board square that is empty or enemy-held |
| Pieces.SlidingAppend | src/pieces.py:134-137 | casting rays over two direction lists in turn equals casting them over the joined list |
| Pieces.QueenIsBishopThenRook | src/pieces.py:204-208 | queen moves are the bishop's four diagonal rays followed by the rook's four orthogonal rays from the same square |
| Pieces.Hops | src/pieces.py:107-120 | at most one move per offset; each destination is an offset of the start, on board and empty or enemy-held; every such offset square is offered |
| Pieces.KingMoves | src/pieces.py:248-302 | a king has at most eight adjacent moves plus castling moves; none lands on a friendly piece; every adjacent on-board square that is empty or enemy-held is offered; the rest go to column 2 or 6 of an unmoved king's row; each allowed castling offers its king move, and the rook is handed its move exactly when that castling is allowed |
| Pieces.PawnDir | src/pieces.py:34 | a pawn's row step is -1 for White and +1 for Black |
| Pieces.PawnPushes | src/pieces.py:43-59 | pushes land on empty squares in the pawn's column; a moved pawn gets at most one; one step is offered iff that square is empty; two steps only for an unmoved pawn with both squares empty, so never past an occupied first square |
| Pieces.DoubleStep | src/pieces.py:43-55 | an unmoved pawn with both squares ahead empty gets exactly the two forward moves, in order |
| Pieces.PawnCaptures | src/pieces.py:62-71 | diagonal captures land one row ahead and one column aside, only on enemy-held squares, and every such square is offered |
| Pieces.EnPassant | src/pieces.py:74-97 | offered only from row 3 (White) or 4 (Black), next to an enemy pawn whose en-passant flag is set; lands on row 2 or 5 in that pawn's column; every such neighbour yields one |
| Pieces.PawnMoves | src/pieces.py:38-97 | a pawn's candidates are exactly its pushes, diagonal captures and en-passant moves, all from its square and on board |
| Pieces.Castling | src/pieces.py:264-302 | king to column 2 iff king unmoved, unmoved rook on column 0 and columns 1-3 empty, with rook 0 to 3; king to column 6 iff king unmoved, unmoved rook on column 7 and columns 5-6 empty, with rook 7 to 5; king and rook moves are paired |
| Pieces.PseudoMoves | src/engine.py:74-75 | every candidate starts at the given square and lands on board; only kings hand moves to rooks; knights have at most eight moves, all knight jumps; no non-pawn lands on a friendly piece |
| Engine.NextTurn | src/engine.py:18-19 | the turn always passes to the other colour |
| Engine.NextTurnTwice | src/engine.py:18-19 | flipping the turn twice restores it |
| Engine.LogMove | src/engine.py:31-41 | the record names the mover's colour, its piece kind and the move's two squares, and its notation string reads back to that kind and those squares |
| Engine.MakeMove | src/engine.py:25-29 | a finished game is returned unchanged; otherwise the board is updated, exactly one record (with the move's notation) is appended, earlier records are kept and the turn flips |
| Engine.PlayFinished | src/engine.py:25-26 | a finished game ignores any run of moves |
| Engine.PlayAlternates | src/engine.py:25-41 | over a run of moves in a running game the history grows by one record per move, earlier records are kept, and the turn returns to its start exactly after an even number of moves |
| Engine.NewGameAlternates | src/engine.py:10-29 | from a fresh engine (White to move, empty history, game running) a run of moves leaves one record per move, and White is to move exactly after an even number of them |
| Engine.FileChar | src/engine.py:44-47 | the file letter of column c is 'a' + c |
| Engine.RankChar | src/engine.py:45-48 | the rank digit of row r is 8 - r |
| Engine.Notation | src/engine.py:43-59 | the string is the piece letter (none for a pawn), the from-square's file and rank, '-', and the to-square's file and rank: length 5 for pawns, 6 otherwise |
| Engine.ParseNotation | src/engine.py:43-59 | every string the reader accepts is the notation of the kind and move it returns |
| Engine.NotationRoundTrip | src/engine.py:43-59 | reading a move's notation gives back its piece kind and both squares |
| Engine.KingInRow | src/engine.py:102-105 | the inner scan finds the first king of the colour in a row, or reports that the row has none |
| Engine.LocateKingFrom | src/engine.py:101-105 | the outer scan keeps its earlier result when no later row has a king; otherwise it settles on the first king of the last row holding one |
| Engine.LocateKing | src/engine.py:99-106 | no king is found exactly when the colour has none; a found square holds that colour's king, chosen as the literal scan chooses it |
| Engine.LocateSoleKing | src/engine.py:100-106 | with a single king of the colour, the scan finds exactly its square |
| Engine.ScanRow | src/engine.py:112-121 | the row scan reports an attack iff some square of the row from the given column on holds an enemy piece with a candidate onto the target |
| Engine.ScanBoard | src/engine.py:111-122 | the board scan reports an attack iff some on-board square holds an enemy piece with a candidate onto the target |
| Engine.IsKingAttacked | src/engine.py:98-122 | false when the colour has no king; otherwise true iff some enemy piece has a pseudo-legal candidate landing on the located king square |
| Engine.AttackedAt | src/engine.py:106-122 | with no king located there is no attack; with a located king, an attack is reported iff some enemy piece has a pseudo-legal candidate onto it |
| Engine.SoleKingAttacked | src/engine.py:108-122 | with a single king, it is attacked iff some enemy piece has a candidate onto its square |
| Engine.InCheck | src/engine.py:84-96 | a colour with no king on the board is never in check after a move |
| Engine.NoKingAfterRelocate | src/engine.py:93-94 | executing a move never creates a king: a colour with none still has none |
| Engine.InCheckNonKingMove | src/engine.py:84-96 | when a non-king piece moves and the mover's sole king is elsewhere, the move is in check iff some enemy piece then has a candidate onto the king's unchanged square |
| Engine.InCheckKingMove | src/engine.py:84-96 | when the sole king itself moves, the move is in check iff some enemy piece then has a candidate onto the king's final square |
| Engine.KeepMarked | src/engine.py:78-82 | the filter loop keeps exactly the marked candidates, in their original order, as an ordered subsequence |
| Engine.CalculateMoves | src/engine.py:69-82 | without the check flag the candidates are returned unchanged; with it, exactly the candidates not leaving the king in check are kept, in original order; rook moves from castling pass through |

## Left out

- The pygame event loop, dragging, rendering, sounds and themes (`src/main.py`, `src/sidebar.py`). These are user interface and I/O.
- `Engine.save_log`. It is CSV file output.
- The wall-clock timestamp in `log_move`, and the engine's start time. These are clock reads.
- `Piece.set_texture`. It only builds asset paths.
- The hovered square. It is a user-interface hint.
- The per-piece `moves` buffers and `clear_moves`/`add_move`. Generators return their lists instead of mutating objects.
- `copy.deepcopy`. Value semantics replaces it.
- The board, square and move classes are not part of this model. Their bodies are not visible:
  - `Board.move`, `Board.valid_move` and `Board.set_true_en_passant`;
  - the engine's `valid_move` wrapper, `ai_move` and `reset`;
  - the initial position.
- Relocate: a simplified stand-in for `Board.move`. It moves the piece and marks it moved. It does not remove a pawn captured en passant, move the rook when castling, promote, or update en-passant flags. So `InCheck` judges castling and en-passant candidates on that simplified board. It also moves whatever stands on the initial square, not the piece object passed to the engine. The two agree whenever that piece stands on the move's initial square, which is how the caller uses it.
- The captured-piece snapshot the source attaches to a move's final square. A `Move` is only its two squares.
- The `"col,row"` text of a log record's positions. `LogRecord` keeps the two squares themselves, and the piece's kind in place of its name string.
- The king's `left_rook`/`right_rook` back references. Castling writes them but nothing in the modelled code reads them.
- Game-over detection (checkmate, stalemate, king capture). Nothing in the modelled code sets the game inactive.
- Attack safety of castling transit squares. The code does not implement it.
- Piece values are modelled as exact reals. Only the colour sign is computed from them, and that is exact in floating point too.
- Generators require the piece's own square to be on the board. The callers pass board squares. Python's wrap-around for negative indices is never reached that way.
