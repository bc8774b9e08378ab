# Chess rules engine: move generation and game state

This project models the core of a small Java chess engine: how each piece
generates its pseudo-legal moves (`ChessPiece.pieceMoves` and its helpers),
and how a game (`ChessGame`) filters them into legal moves, applies a move,
tracks whose turn it is, and decides check, checkmate and stalemate.

The model has four modules:

- `Chess` (`chess_types.dfy`): team colours, piece kinds, pieces, squares,
  moves, the board as a value (`Board`: 64 optional pieces in row-major
  order, read with `PieceAt` and changed with `Place`), and the mutable
  `ChessBoard` object (a 64-cell array with get, place and clear).
- `PieceMoves` (`piece_moves.dfy`): the generator. Specification functions
  (`OffsetMoves`, `Ray`, `SlideMoves`, `PawnMoves`, `PseudoMoves`) describe
  the exact list the source builds, in the source's order. The methods keep
  the source's loops (the offset tables, the `while (true)` ray walk, the
  capture loop) and are proved to return exactly that list. Lemmas say what
  the list means.
- `GameRules` (`game_rules.dfy`): the game's rules on board values. It
  covers the row-major king scan (`FirstKing`), attacked squares and check
  (`UnderAttack`, `InCheck`), the king-safety filter (`Simulate`,
  `KeepsKingSafe`, `LegalMoves`), the effect and outcome of a move
  (`Applied`, `MoveOutcome`), and checkmate and stalemate.
- `Game` (`chess_game.dfy`): the `ChessGame` class. Its fields are a board
  reference and the colour to move. Every operation is proved to compute the
  matching rule of `GameRules` on the board's current contents.

A thrown `InvalidMoveException` becomes a `Failure` result carrying the
reason. A `null` result of `validMoves` or `findKingPosition` becomes `None`.

`ChessGame.Valid()` is the game's invariant: the board has 64 cells, and no
pawn stands on its own promotion row (`WellFormed`). On such a square the
source's pawn capture scan would look one row past the edge of the board.
`MakeMove` preserves the invariant, because a pawn that reaches its
promotion row always carries a promotion and is replaced.

When a colour has no king, `findKingPosition` returns `null`. No move's end
square equals `null`, so `isInCheck` then answers false. `InCheck` models
this directly: a colour without a king is not in check. When a colour has
several kings, the first one in row-major order (row 1 first, column 1 first
within a row) is the one tested, as in the source.

After applying a move, `makeMove` checks once more whether the mover is in
check, and if so undoes the move and throws. `AppliedLeavesKingSafe` proves
that this branch is never taken. The scratch board of `validMoves` differs
from the applied board at most in the kind of the mover's own piece on the
end square (a promoted pawn), and check depends only on which colour stands
where, on the kinds of the enemy pieces, and on where the king is. The
branch is kept in `MakeMove` as the source writes it, followed by
`assert false`. The undo itself would lose a captured piece, since it clears
the end square instead of restoring it. Because the branch is unreachable,
this never shows.

## Model

| member | source | states |
|---|---|---|
| PieceMoves.PieceMoves | shared/src/main/java/chess/ChessPiece.java:55-168 | returns exactly the piece's pseudo-legal list `PseudoMoves`, in generation order; the queen's list is the rook's list followed by the bishop's |
| PieceMoves.OffsetTableMoves | shared/src/main/java/chess/ChessPiece.java:59-83 | the knight (and king) table loop returns exactly `OffsetMoves` over the table: one plain move per entry that lands on the board on an empty or enemy square |
| PieceMoves.PawnPieceMoves | shared/src/main/java/chess/ChessPiece.java:85-127 | the pawn case returns exactly the forward moves followed by the captures (`PawnMoves`) |
| PieceMoves.PawnAdvances | shared/src/main/java/chess/ChessPiece.java:86-110 | one step onto an empty square (as four promotions on the promotion row), then two steps from the start row when that square is empty too |
| PieceMoves.PawnCaptures | shared/src/main/java/chess/ChessPiece.java:112-126 | for each column offset in order (the source's -1 then 1), a diagonal step forward onto an enemy piece only, as four promotions on the promotion row: exactly `CaptureMoves` |
| PieceMoves.PawnCaptureAt | shared/src/main/java/chess/ChessPiece.java:114-125 | one offset appends the capture onto that square when it is on the board and holds an enemy, and nothing otherwise |
| PieceMoves.GetBishopMoves | shared/src/main/java/chess/ChessPiece.java:169-199 | returns exactly the four diagonal rays in table order |
| PieceMoves.GetRookMoves | shared/src/main/java/chess/ChessPiece.java:201-231 | returns exactly the four orthogonal rays in table order |
| PieceMoves.WalkRays | shared/src/main/java/chess/ChessPiece.java:173-197 | the direction loop returns the concatenation of the rays of the table (`SlideMoves`) |
| PieceMoves.WalkRay | shared/src/main/java/chess/ChessPiece.java:177-196 | the `while (true)` walk returns exactly `Ray`: empty squares in order, then the first enemy square, stopping at the edge or a friendly piece |
| PieceMoves.AddPawnPromotionMoves | shared/src/main/java/chess/ChessPiece.java:233-238 | appends the four promotions of start to end, in the order queen, rook, bishop, knight |
| PieceMoves.OffsetMoves | shared/src/main/java/chess/ChessPiece.java:68-82 | an offset table yields at most one move per entry |
| PieceMoves.OffsetMovesIff | shared/src/main/java/chess/ChessPiece.java:68-82 | a knight or king move is generated iff it is a plain move from the square to an on-board square at one of the table's offsets that is empty or holds an enemy |
| PieceMoves.RayIff | shared/src/main/java/chess/ChessPiece.java:177-196 | a ray yields a move iff it is a plain move to a square along the direction that may be landed on and every square before it on the ray is empty: no move jumps over a piece |
| PieceMoves.RaySound | shared/src/main/java/chess/ChessPiece.java:177-196 | every move of a ray is a plain move from the square to some square along the direction that may be landed on, with every square before it empty |
| PieceMoves.RayComplete | shared/src/main/java/chess/ChessPiece.java:177-196 | every square along the direction that may be landed on with all squares before it empty is reached by the ray |
| PieceMoves.SlideMovesIff | shared/src/main/java/chess/ChessPiece.java:173-197 | a direction table yields a move iff one of its rays does |
| PieceMoves.SlidingPieceMovesIff | shared/src/main/java/chess/ChessPiece.java:129-133 | bishop, rook and queen moves are exactly the plain moves along one of the piece's directions to a non-friendly square with all squares between empty |
| PieceMoves.QueenIsRookThenBishop | shared/src/main/java/chess/ChessPiece.java:129-133 | the queen's list is the rook's list followed by the bishop's |
| PieceMoves.PawnArrivalIff | shared/src/main/java/chess/ChessPiece.java:96-100 | an arrival yields a move iff it goes from start to end with a promotion exactly on the promotion row, and then one of the four kinds |
| PieceMoves.CaptureMovesIff | shared/src/main/java/chess/ChessPiece.java:112-126 | a capture is generated iff it is a diagonal step forward at one of the offsets onto an on-board enemy piece, with the promotion rule |
| PieceMoves.PawnMovesIff | shared/src/main/java/chess/ChessPiece.java:85-127 | a pawn move is generated iff it is one step onto an empty square, two steps from the start row with both squares empty, or a diagonal step onto an enemy, carrying a promotion exactly on the promotion row |
| PieceMoves.OffsetMovesSound | shared/src/main/java/chess/ChessPiece.java:68-82 | knight and king moves start on the square, end on another on-board square that is empty or enemy, and carry no promotion |
| PieceMoves.SlideMovesSound | shared/src/main/java/chess/ChessPiece.java:169-231 | sliding moves start on the square, end on another on-board square that is empty or enemy, and carry no promotion |
| PieceMoves.PawnMovesSound | shared/src/main/java/chess/ChessPiece.java:85-127 | pawn moves start on the square, end on another on-board square that is empty or enemy, and carry a promotion exactly on the promotion row |
| PieceMoves.PseudoMovesSound | shared/src/main/java/chess/ChessPiece.java:55-168 | every generated move starts on the piece's square, ends on another square of the board that is empty or holds an enemy, and carries a promotion only for a pawn reaching its promotion row |
| PieceMoves.OffsetMovesSameColors | shared/src/main/java/chess/ChessPiece.java:75-78 | the knight and king lists depend only on which colour stands on each square |
| PieceMoves.RaySameColors | shared/src/main/java/chess/ChessPiece.java:186-195 | a ray depends only on which colour stands on each square |
| PieceMoves.SlideMovesSameColors | shared/src/main/java/chess/ChessPiece.java:169-231 | the bishop and rook lists depend only on which colour stands on each square |
| PieceMoves.CaptureMovesSameColors | shared/src/main/java/chess/ChessPiece.java:112-126 | the pawn captures depend only on which colour stands on each square |
| PieceMoves.PawnMovesSameColors | shared/src/main/java/chess/ChessPiece.java:85-127 | the pawn list depends only on which colour stands on each square |
| PieceMoves.PseudoMovesSameColors | shared/src/main/java/chess/ChessPiece.java:55-168 | two boards with the same colour on every square give every piece the same list: the generator never looks at another piece's kind |
| GameRules.FirstKingFrom | shared/src/main/java/chess/ChessGame.java:209-221 | the scan from a square finds a square holding the colour's king with no such king scanned before it, or reports none when no later square holds one |
| GameRules.FirstKingIsFirst | shared/src/main/java/chess/ChessGame.java:209-221 | a king square with no king of that colour before it in row-major order is what the scan returns |
| GameRules.FirstKingNone | shared/src/main/java/chess/ChessGame.java:209-221 | with no king of the colour on the board the scan returns none |
| GameRules.FirstKingFound | shared/src/main/java/chess/ChessGame.java:209-221 | the scan finds a king exactly when the colour has one |
| GameRules.FirstKingFromSame | shared/src/main/java/chess/ChessGame.java:209-221 | boards with that colour's kings on the same squares give the same scan result |
| GameRules.SimulateKeepsPawns | shared/src/main/java/chess/ChessGame.java:63-68 | the scratch board of a pseudo-legal move puts no enemy pawn on its promotion row, so check can be asked there |
| GameRules.LegalMovesSound | shared/src/main/java/chess/ChessGame.java:54-73 | a valid move is one of the piece's pseudo-legal moves, starts on the square, ends on another on-board square that is empty or enemy, and leaves the mover not in check on the scratch board |
| GameRules.AppliedBoard | shared/src/main/java/chess/ChessGame.java:94-106 | after a successful move the start square is empty; the end square, which held no friendly piece, holds the mover, or a new piece of its colour of the promotion kind when the move carries one; every other square is unchanged |
| GameRules.AppliedKeepsShape | shared/src/main/java/chess/ChessGame.java:94-106 | moving onto a non-friendly square keeps the colour's king on the board and leaves no pawn on its promotion row when pawn moves carry a promotion exactly on that row |
| GameRules.AppliedWellFormed | shared/src/main/java/chess/ChessGame.java:81-106 | a successful move keeps the board well formed and keeps the mover's king on the board |
| GameRules.ScanMeetsIff | shared/src/main/java/chess/ChessGame.java:224-238 | the row-major scan up to a square meets a square of a set exactly when the set holds a square before that point |
| GameRules.UnderAttackScan | shared/src/main/java/chess/ChessGame.java:223-239 | a square is attacked exactly when the scan over the whole board meets an attacker |
| GameRules.KeptIff | shared/src/main/java/chess/ChessGame.java:61-71 | the filter of a move list keeps a move exactly when it is in the list and passes the test |
| GameRules.LegalMovesKept | shared/src/main/java/chess/ChessGame.java:54-73 | the valid moves of a piece are its pseudo-legal moves filtered by the king-safety test |
| GameRules.UnderAttackSameEnemies | shared/src/main/java/chess/ChessGame.java:223-239 | whether a square is attacked depends only on which colour stands where and on the enemy pieces |
| GameRules.InCheckSameEnemies | shared/src/main/java/chess/ChessGame.java:132-135 | check depends only on which colour stands where, on the enemy pieces, and on where the colour's kings stand |
| GameRules.AppliedMatchesScratch | shared/src/main/java/chess/ChessGame.java:63-68 | the applied board and the scratch board of the filter agree on colours, on enemy pieces and on the mover's kings |
| GameRules.AppliedLeavesKingSafe | shared/src/main/java/chess/ChessGame.java:108-114 | after a successful move the mover is not in check, so the undo branch of makeMove is never taken |
| GameRules.CheckmateExcludesStalemate | shared/src/main/java/chess/ChessGame.java:143-188 | a colour is never in checkmate and stalemate at once |
| GameRules.NoLegalMovesIffEveryMoveFails | shared/src/main/java/chess/ChessGame.java:143-188 | a colour has no valid move exactly when, with it to move, every move from a square of the board fails |
| Game.ChessGame.constructor | shared/src/main/java/chess/ChessGame.java:17-21 | a new game holds the given position on a fresh board, with White to move |
| Game.ChessGame.GetTeamTurn | shared/src/main/java/chess/ChessGame.java:26-28 | returns the colour to move |
| Game.ChessGame.SetTeamTurn | shared/src/main/java/chess/ChessGame.java:35-37 | sets the colour to move and keeps the board |
| Game.ChessGame.ValidMoves | shared/src/main/java/chess/ChessGame.java:54-73 | None for an empty square, otherwise exactly the set of the piece's pseudo-legal moves after which, on a copied board with the unpromoted piece moved, its colour is not in check |
| Game.ChessGame.KeepSafeMoves | shared/src/main/java/chess/ChessGame.java:61-71 | the filter loop collects exactly the listed moves that are valid moves of the piece |
| Game.ChessGame.KeepsKingSafeOnCopy | shared/src/main/java/chess/ChessGame.java:64-70 | a move is kept exactly when it is a valid move of the piece: on a copy of the board with the unpromoted piece moved, its colour is not in check |
| Game.ChessGame.MakeMove | shared/src/main/java/chess/ChessGame.java:81-118 | fails with no change when the start square holds no piece of the colour to move or the move is not valid; otherwise applies the move (with promotion) and passes the turn; the result is `MoveOutcome` and the board stays well formed |
| Game.ChessGame.IsInCheck | shared/src/main/java/chess/ChessGame.java:128-130 | true exactly when the colour's first king in row-major order is attacked |
| Game.ChessGame.IsInCheckOn | shared/src/main/java/chess/ChessGame.java:132-135 | on any well-formed board, true exactly when the colour's first king is attacked; false without a king |
| Game.ChessGame.IsInCheckmate | shared/src/main/java/chess/ChessGame.java:143-161 | true exactly when the colour is in check and none of its pieces has a valid move |
| Game.ChessGame.IsInStalemate | shared/src/main/java/chess/ChessGame.java:170-188 | true exactly when the colour is not in check and none of its pieces has a valid move |
| Game.ChessGame.HasNoValidMoves | shared/src/main/java/chess/ChessGame.java:148-160 | the square scan returns true exactly when no piece of the colour has a valid move |
| Game.ChessGame.SetBoard | shared/src/main/java/chess/ChessGame.java:195-197 | the game now uses the given board object and keeps the turn |
| Game.ChessGame.GetBoard | shared/src/main/java/chess/ChessGame.java:204-206 | returns the game's board object itself |
| Game.ChessGame.FindKingPosition | shared/src/main/java/chess/ChessGame.java:209-221 | returns the first square in row-major order holding the colour's king, or None |
| Game.ChessGame.IsPositionUnderAttack | shared/src/main/java/chess/ChessGame.java:223-239 | true exactly when some piece not of the colour has a pseudo-legal move ending on the square |
| Game.ChessGame.AttacksFrom | shared/src/main/java/chess/ChessGame.java:226-235 | true exactly when the square holds a piece not of the colour with a pseudo-legal move ending on the target |
| Game.ChessGame.CloneBoard | shared/src/main/java/chess/ChessGame.java:241-255 | returns a fresh board with the same piece on every square |

## Left out

- ChessBoard.java, ChessPosition.java, ChessMove.java and InvalidMoveException.java are not part of this model. The board is a 64-cell array with get, place and clear. Positions, moves and pieces are datatypes, and their `equals`/`hashCode` are structural equality.
- `ChessPiece.equals`, `hashCode` and `toString` (ChessPiece.java:240-256) are not modelled as members: `Piece` is a datatype, whose equality is the field-by-field comparison `equals` performs. Hashing and printing are not modelled.
- Game.ChessGame.constructor: takes the initial position as a parameter. The layout `ChessBoard.resetBoard` installs is not part of this model.
- Game.ChessGame.constructor, SetBoard: require a well-formed board (no pawn on its own promotion row). For a pawn on that row the source's capture scan reads one row past the edge, and what `ChessBoard.getPiece` does there is not part of this model.
- Game.ChessGame.ValidMoves, MakeMove: the start square must be on the board. What `getPiece` does off the board is not part of this model.
- Game.ChessGame.ValidMoves: returns a mathematical set where the source builds a `HashSet`. The order of iteration is not observable through the set.
- Game.ChessGame.IsInCheckOn: when there is no king, the source still runs the attack scan with a `null` target, which matches nothing. The model answers false without scanning. The result is the same.
- Game.ChessGame.HasNoValidMoves: the source repeats this square scan in `isInCheckmate` and in `isInStalemate`. The model writes it once and calls it from both.
- Stalemate is defined by the source without regard to whose turn it is. The model does the same. Castling, en passant and draw rules do not exist in the source and are not modelled.
- Aliasing through `SetBoard`/`GetBoard` is modelled: the game keeps the caller's board object. Changes a caller makes to that object outside the game are not modelled. Every operation requires the board to satisfy `Valid()` when it is called.
