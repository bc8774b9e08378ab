/**
  The rules ChessGame decides, stated on board values: where a colour's king
  is, whether a square is attacked, check, the king-safety filter that turns
  pseudo-legal moves into legal ones, what a move does to the board, and
  checkmate and stalemate. The class in chess_game.dfy is proved to compute
  exactly these; the lemmas here say what they mean.
*/
module GameRules {
  import opened Chess
  import opened PieceMoves

  // ---------------------------------------------------------------------
  // Kings
  // ---------------------------------------------------------------------

  predicate KingAt(b: Board, p: Position, c: TeamColor)
    requires IsSquare(p)
  {
    PieceAt(b, p) == Some(Piece(c, King))
  }

  ghost predicate HasKing(b: Board, c: TeamColor)
  {
    exists p :: IsSquare(p) && KingAt(b, p, c)
  }

  /** `p` comes before `q` in the row-major scan (row 1 first, column 1 first within a row). */
  predicate Before(p: Position, q: Position)
  {
    p.row < q.row || (p.row == q.row && p.col < q.col)
  }

  /**
    The first square, scanning row-major from (row, col), that holds
    colour c's king: it holds that king, and no square scanned before it
    does; when there is none, no square from (row, col) on holds it.
  */
  function FirstKingFrom(b: Board, c: TeamColor, row: int, col: int): (r: Option<Position>)
    requires ScanPoint(row, col)
    ensures r.Some? ==> IsSquare(r.value) && KingAt(b, r.value, c) && !Before(r.value, Position(row, col))
    ensures forall q :: IsSquare(q) && !Before(q, Position(row, col)) && (r.Some? ==> Before(q, r.value))
                        ==> !KingAt(b, q, c)
    decreases 9 - row, 9 - col
  {
    if row == 9 then None
    else if col == 9 then FirstKingFrom(b, c, row + 1, 1)
    else if KingAt(b, Position(row, col), c) then Some(Position(row, col))
    else FirstKingFrom(b, c, row, col + 1)
  }

  function FirstKing(b: Board, c: TeamColor): Option<Position>
  {
    FirstKingFrom(b, c, 1, 1)
  }

  /** A square holding c's king with no such king before it in the scan is what the scan finds. */
  lemma FirstKingIsFirst(b: Board, c: TeamColor, p: Position)
    requires IsSquare(p) && KingAt(b, p, c)
    requires forall q :: IsSquare(q) && Before(q, p) ==> !KingAt(b, q, c)
    ensures FirstKing(b, c) == Some(p)
  {
    var r := FirstKing(b, c);
    assert !Before(p, Position(1, 1));
    assert r.Some? && !Before(p, r.value);
  }

  /** With no king of colour c on the board the scan finds nothing. */
  lemma FirstKingNone(b: Board, c: TeamColor)
    requires forall q :: IsSquare(q) ==> !KingAt(b, q, c)
    ensures FirstKing(b, c) == None
  {
  }

  /** The scan finds a king exactly when the colour has one. */
  lemma FirstKingFound(b: Board, c: TeamColor)
    ensures FirstKing(b, c).Some? <==> HasKing(b, c)
  {
    if HasKing(b, c) {
      var p :| IsSquare(p) && KingAt(b, p, c);
      assert !Before(p, Position(1, 1));
    }
  }

  /** Boards with their kings of colour c on the same squares give the same first king. */
  lemma {:induction false} FirstKingFromSame(b1: Board, b2: Board, c: TeamColor, row: int, col: int)
    requires ScanPoint(row, col)
    requires forall q :: IsSquare(q) ==> (KingAt(b1, q, c) <==> KingAt(b2, q, c))
    ensures FirstKingFrom(b1, c, row, col) == FirstKingFrom(b2, c, row, col)
    decreases 9 - row, 9 - col
  {
    if row == 9 {
    } else if col == 9 {
      FirstKingFromSame(b1, b2, c, row + 1, 1);
    } else if !KingAt(b1, Position(row, col), c) {
      FirstKingFromSame(b1, b2, c, row, col + 1);
    }
  }

  // ---------------------------------------------------------------------
  // Attack and check
  // ---------------------------------------------------------------------

  /** No pawn of colour c stands on c's promotion row (where the generator may not be asked). */
  ghost predicate PawnsPlaced(b: Board, c: TeamColor)
  {
    forall p {:trigger PieceAt(b, p)} :: IsSquare(p) && PieceAt(b, p) == Some(Piece(c, Pawn)) ==> p.row != PromotionRow(c)
  }

  ghost predicate WellFormed(b: Board)
  {
    PawnsPlaced(b, White) && PawnsPlaced(b, Black)
  }

  /** Some move of the list ends on `target`. */
  predicate EndsOn(ms: seq<Move>, target: Position)
  {
    exists k :: 0 <= k < |ms| && ms[k].end == target
  }

  /** The piece on `p` is not of colour c and has a pseudo-legal move ending on `target`. */
  ghost predicate AttackerAt(b: Board, p: Position, target: Position, c: TeamColor)
    requires IsSquare(p) && PawnsPlaced(b, Opponent(c))
  {
    match PieceAt(b, p)
    case None => false
    case Some(q) => q.color != c && EndsOn(PseudoMoves(b, p, q), target)
  }

  /** `target` is attacked from the point of view of colour c: some piece not of colour c reaches it. */
  ghost predicate UnderAttack(b: Board, target: Position, c: TeamColor)
    requires PawnsPlaced(b, Opponent(c))
  {
    exists p :: IsSquare(p) && AttackerAt(b, p, target, c)
  }

  /** A point the row-major scan can stop at: before a square, or past the last one. */
  predicate ScanPoint(row: int, col: int)
  {
    (1 <= row <= 8 && 1 <= col <= 9) || (row == 9 && col == 1)
  }

  /**
    The attack scan up to (row, col), row-major: whether a square scanned
    before (row, col) holds a piece attacking `target`.
  */
  ghost predicate AttackedBefore(b: Board, target: Position, c: TeamColor, row: int, col: int)
    requires PawnsPlaced(b, Opponent(c)) && ScanPoint(row, col)
    decreases row, col
  {
    if col > 1 then AttackerAt(b, Position(row, col - 1), target, c) || AttackedBefore(b, target, c, row, col - 1)
    else if row > 1 then AttackedBefore(b, target, c, row - 1, 9)
    else false
  }

  /** The squares holding a piece that attacks `target` from colour c's point of view. */
  ghost function Attackers(b: Board, target: Position, c: TeamColor): iset<Position>
    requires PawnsPlaced(b, Opponent(c))
  {
    iset p | IsSquare(p) && AttackerAt(b, p, target, c)
  }

  /** The row-major scan up to (row, col) meets a square of `s`. */
  ghost predicate ScanMeets(s: iset<Position>, row: int, col: int)
    requires ScanPoint(row, col)
    decreases row, col
  {
    if col > 1 then Position(row, col - 1) in s || ScanMeets(s, row, col - 1)
    else if row > 1 then ScanMeets(s, row - 1, 9)
    else false
  }

  lemma {:induction false} ScanMeetsIff(s: iset<Position>, row: int, col: int)
    requires ScanPoint(row, col)
    ensures ScanMeets(s, row, col) <==> exists p :: p in s && IsSquare(p) && Before(p, Position(row, col))
    decreases row, col
  {
    if col > 1 {
      ScanMeetsIff(s, row, col - 1);
      if exists p :: p in s && IsSquare(p) && Before(p, Position(row, col)) {
        var p :| p in s && IsSquare(p) && Before(p, Position(row, col));
        if p != Position(row, col - 1) {
          assert Before(p, Position(row, col - 1));
        }
      }
    } else if row > 1 {
      ScanMeetsIff(s, row - 1, 9);
      if exists p :: p in s && IsSquare(p) && Before(p, Position(row, col)) {
        var p :| p in s && IsSquare(p) && Before(p, Position(row, col));
        assert Before(p, Position(row - 1, 9));
      }
    }
  }

  /** The attack scan is the row-major scan over the attacking squares. */
  lemma {:induction false} AttackedBeforeScan(b: Board, target: Position, c: TeamColor, row: int, col: int)
    requires PawnsPlaced(b, Opponent(c)) && ScanPoint(row, col)
    ensures AttackedBefore(b, target, c, row, col) == ScanMeets(Attackers(b, target, c), row, col)
    decreases row, col
  {
    if col > 1 {
      AttackedBeforeScan(b, target, c, row, col - 1);
    } else if row > 1 {
      AttackedBeforeScan(b, target, c, row - 1, 9);
    }
  }

  /** A square is attacked iff the scan of the whole board meets an attacker. */
  lemma UnderAttackScan(b: Board, target: Position, c: TeamColor)
    requires PawnsPlaced(b, Opponent(c))
    ensures UnderAttack(b, target, c) <==> AttackedBefore(b, target, c, 9, 1)
  {
    AttackedBeforeScan(b, target, c, 9, 1);
    ScanMeetsIff(Attackers(b, target, c), 9, 1);
  }

  /**
    Colour c is in check: the first square in the scan holding c's king is
    attacked. A colour without a king is never in check (the missing king
    square matches no move's end square).
  */
  ghost predicate InCheck(b: Board, c: TeamColor)
    requires PawnsPlaced(b, Opponent(c))
  {
    match FirstKing(b, c)
    case None => false
    case Some(k) => UnderAttack(b, k, c)
  }

  // ---------------------------------------------------------------------
  // The king-safety filter
  // ---------------------------------------------------------------------

  /** The scratch board of the filter: the unpromoted piece placed on `end`, then `start` cleared. */
  function Simulate(b: Board, start: Position, end: Position, piece: Piece): Board
    requires IsSquare(start) && IsSquare(end)
  {
    Place(Place(b, end, Some(piece)), start, None)
  }

  /**
    A pseudo-legal move puts no enemy pawn on its promotion row on the
    scratch board, so check can be asked there.
  */
  lemma SimulateKeepsPawns(b: Board, start: Position, piece: Piece, m: Move)
    requires WellFormed(b) && IsSquare(start) && PieceAt(b, start) == Some(piece)
    requires m in PseudoMoves(b, start, piece)
    ensures IsSquare(m.end)
    ensures PawnsPlaced(Simulate(b, start, m.end, piece), Opponent(piece.color))
  {
    PseudoMovesSound(b, start, piece, m);
  }

  /** The filter's test for one move: on the scratch board the mover is not in check. */
  ghost predicate KeepsKingSafe(b: Board, start: Position, piece: Piece, m: Move)
    requires WellFormed(b) && IsSquare(start) && PieceAt(b, start) == Some(piece)
    requires m in PseudoMoves(b, start, piece)
  {
    SimulateKeepsPawns(b, start, piece, m);
    !InCheck(Simulate(b, start, m.end, piece), piece.color)
  }

  /**
    ChessGame.validMoves on a board value: None for an empty square,
    otherwise the piece's pseudo-legal moves that keep its king safe.
  */
  ghost function LegalMoves(b: Board, start: Position): Option<set<Move>>
    requires WellFormed(b) && IsSquare(start)
  {
    match PieceAt(b, start)
    case None => None
    case Some(piece) =>
      Some(set m | m in PseudoMoves(b, start, piece) && KeepsKingSafe(b, start, piece, m))
  }

  /**
    A legal move is one of the piece's pseudo-legal moves: it starts on
    `start`, ends on another square of the board that is empty or holds an
    enemy, and on the scratch board the mover is not in check.
  */
  lemma LegalMovesSound(b: Board, start: Position, m: Move)
    requires WellFormed(b) && IsSquare(start)
    requires LegalMoves(b, start).Some? && m in LegalMoves(b, start).value
    ensures var piece := PieceAt(b, start).value;
      && m in PseudoMoves(b, start, piece)
      && m.start == start && IsSquare(m.end) && m.end != start
      && CanLandOn(b, piece.color, m.end)
      && PawnsPlaced(Simulate(b, start, m.end, piece), Opponent(piece.color))
      && !InCheck(Simulate(b, start, m.end, piece), piece.color)
  {
    var piece := PieceAt(b, start).value;
    PseudoMovesSound(b, start, piece, m);
  }

  /** The moves of the list `ms` that belong to `keep`, taken in list order as the filter loop takes them. */
  function Kept(ms: seq<Move>, keep: set<Move>): set<Move>
  {
    if ms == [] then {}
    else Kept(ms[..|ms| - 1], keep) + if ms[|ms| - 1] in keep then {ms[|ms| - 1]} else {}
  }

  /** One more element of the list: it is added exactly when it belongs to `keep`. */
  lemma KeptStep(ms: seq<Move>, keep: set<Move>, i: int)
    requires 0 <= i < |ms|
    ensures Kept(ms[..i + 1], keep) == Kept(ms[..i], keep) + if ms[i] in keep then {ms[i]} else {}
  {
    assert ms[..i + 1][..i] == ms[..i];
  }

  /** A move is kept from a list iff it is on the list and belongs to `keep`. */
  lemma {:induction false} KeptIff(ms: seq<Move>, keep: set<Move>, m: Move)
    ensures m in Kept(ms, keep) <==> m in ms && m in keep
    decreases |ms|
  {
    if ms != [] {
      var init := ms[..|ms| - 1];
      KeptIff(init, keep, m);
      assert ms == init + [ms[|ms| - 1]];
    }
  }

  /** Filtering a list that contains all of `keep` gives back `keep`. */
  lemma KeptAll(ms: seq<Move>, keep: set<Move>)
    requires forall m :: m in keep ==> m in ms
    ensures Kept(ms, keep) == keep
  {
    forall m ensures m in Kept(ms, keep) <==> m in keep {
      KeptIff(ms, keep, m);
    }
  }

  /** Filtering the pseudo-legal list down to the valid moves loses none of them. */
  lemma LegalMovesKept(b: Board, start: Position, piece: Piece)
    requires WellFormed(b) && IsSquare(start) && PieceAt(b, start) == Some(piece)
    ensures LegalMoves(b, start) == Some(Kept(PseudoMoves(b, start, piece), LegalMoves(b, start).value))
  {
    KeptAll(PseudoMoves(b, start, piece), LegalMoves(b, start).value);
  }

  /** A pseudo-legal move is valid iff it keeps the king safe. */
  lemma LegalMovesMember(b: Board, start: Position, piece: Piece, m: Move)
    requires WellFormed(b) && IsSquare(start) && PieceAt(b, start) == Some(piece)
    requires m in PseudoMoves(b, start, piece)
    ensures LegalMoves(b, start).Some?
    ensures m in LegalMoves(b, start).value <==> KeepsKingSafe(b, start, piece, m)
  {
  }

  // ---------------------------------------------------------------------
  // Applying a move
  // ---------------------------------------------------------------------

  datatype MoveError = NoPieceOrWrongTurn | NotALegalMove | SelfCheckAfterApply

  datatype MoveResult = Success | Failure(error: MoveError)

  /** The piece makeMove puts on the end square: the promoted piece for a pawn reaching row 8 or 1 with a promotion, else the mover. */
  function PlacedPiece(piece: Piece, move: Move): Piece
  {
    if piece.kind == Pawn && (move.end.row == 8 || move.end.row == 1) && move.promotion.Some?
    then Piece(piece.color, move.promotion.value)
    else piece
  }

  /** The board after makeMove's success path: start cleared, then the placed piece on the end square. */
  function Applied(b: Board, move: Move, piece: Piece): Board
    requires IsSquare(move.start) && IsSquare(move.end)
  {
    Place(Place(b, move.start, None), move.end, Some(PlacedPiece(piece, move)))
  }

  /** What makeMove reports, from its two validation steps in order. */
  ghost function MoveOutcome(b: Board, turn: TeamColor, move: Move): MoveResult
    requires WellFormed(b) && IsSquare(move.start)
  {
    var p := PieceAt(b, move.start);
    if p.None? || p.value.color != turn then Failure(NoPieceOrWrongTurn)
    else if move !in LegalMoves(b, move.start).value then Failure(NotALegalMove)
    else Success
  }

  /**
    After a successful move the start square is empty, the end square holds
    the mover, or a new piece of the mover's colour of the promotion kind
    when the move carries one, and every other square is unchanged. The end
    square held no piece of the mover's colour before.
  */
  lemma AppliedBoard(b: Board, turn: TeamColor, move: Move)
    requires WellFormed(b) && IsSquare(move.start)
    requires MoveOutcome(b, turn, move) == Success
    ensures IsSquare(move.end) && move.end != move.start
    ensures var piece := PieceAt(b, move.start).value;
      var after := Applied(b, move, piece);
      && piece.color == turn
      && ColorAt(b, move.end) != Some(turn)
      && PieceAt(after, move.start) == None
      && PieceAt(after, move.end)
         == Some(if move.promotion.Some? then Piece(turn, move.promotion.value) else piece)
      && (move.promotion.Some? ==> piece.kind == Pawn && move.promotion.value in PromotionKinds)
      && forall q :: IsSquare(q) && q != move.start && q != move.end ==> PieceAt(after, q) == PieceAt(b, q)
  {
    LegalMovesSound(b, move.start, move);
    PseudoMovesSound(b, move.start, PieceAt(b, move.start).value, move);
  }

  /**
    Moving a piece onto a square not held by its own colour keeps that
    colour's king on the board and leaves no pawn on its promotion row,
    provided a pawn move carries a promotion exactly when it reaches that row.
  */
  lemma AppliedKeepsShape(b: Board, move: Move, piece: Piece)
    requires WellFormed(b) && IsSquare(move.start) && IsSquare(move.end)
    requires PieceAt(b, move.start) == Some(piece)
    requires CanLandOn(b, piece.color, move.end)
    requires piece.kind == Pawn ==> PromotionFits(piece.color, move)
    ensures WellFormed(Applied(b, move, piece))
    ensures HasKing(b, piece.color) ==> HasKing(Applied(b, move, piece), piece.color)
  {
    var after := Applied(b, move, piece);
    if HasKing(b, piece.color) {
      var k :| IsSquare(k) && KingAt(b, k, piece.color);
      if k == move.start {
        assert KingAt(after, move.end, piece.color);
      } else {
        assert k != move.end;
        assert KingAt(after, k, piece.color);
      }
    }
    forall p | IsSquare(p) && PieceAt(after, p) == Some(Piece(White, Pawn)) ensures p.row != PromotionRow(White) {
    }
    forall p | IsSquare(p) && PieceAt(after, p) == Some(Piece(Black, Pawn)) ensures p.row != PromotionRow(Black) {
    }
  }

  /** A successful move keeps the board well formed and the mover's king on it. */
  lemma AppliedWellFormed(b: Board, turn: TeamColor, move: Move)
    requires WellFormed(b) && IsSquare(move.start)
    requires MoveOutcome(b, turn, move) == Success
    ensures IsSquare(move.end)
    ensures WellFormed(Applied(b, move, PieceAt(b, move.start).value))
    ensures HasKing(b, turn) ==> HasKing(Applied(b, move, PieceAt(b, move.start).value), turn)
  {
    var piece := PieceAt(b, move.start).value;
    LegalMovesSound(b, move.start, move);
    PseudoMovesSound(b, move.start, piece, move);
    AppliedKeepsShape(b, move, piece);
  }

  /**
    Two boards with the same colour on every square and the same pieces on
    every square not of colour c agree on which squares are attacked from
    c's point of view.
  */
  lemma UnderAttackSameEnemies(b1: Board, b2: Board, target: Position, c: TeamColor)
    requires PawnsPlaced(b1, Opponent(c)) && PawnsPlaced(b2, Opponent(c)) && SameColors(b1, b2)
    requires forall p :: IsSquare(p) && ColorAt(b1, p) != Some(c) ==> PieceAt(b1, p) == PieceAt(b2, p)
    ensures UnderAttack(b1, target, c) <==> UnderAttack(b2, target, c)
  {
    forall p | IsSquare(p) ensures AttackerAt(b1, p, target, c) <==> AttackerAt(b2, p, target, c) {
      if ColorAt(b1, p) != Some(c) && PieceAt(b1, p).Some? {
        PseudoMovesSameColors(b1, b2, p, PieceAt(b1, p).value);
      }
    }
  }

  /**
    Check depends only on which colour stands where, on the kinds of the
    other colour's pieces, and on where c's kings stand.
  */
  lemma InCheckSameEnemies(b1: Board, b2: Board, c: TeamColor)
    requires PawnsPlaced(b1, Opponent(c)) && PawnsPlaced(b2, Opponent(c)) && SameColors(b1, b2)
    requires forall p :: IsSquare(p) && ColorAt(b1, p) != Some(c) ==> PieceAt(b1, p) == PieceAt(b2, p)
    requires forall q :: IsSquare(q) ==> (KingAt(b1, q, c) <==> KingAt(b2, q, c))
    ensures InCheck(b1, c) <==> InCheck(b2, c)
  {
    FirstKingFromSame(b1, b2, c, 1, 1);
    if FirstKing(b1, c).Some? {
      UnderAttackSameEnemies(b1, b2, FirstKing(b1, c).value, c);
    }
  }

  /**
    The applied board differs from the filter's scratch board at most in
    the kind of the mover's own piece on the end square, and a promotion
    never creates a king.
  */
  lemma AppliedMatchesScratch(b: Board, move: Move, piece: Piece)
    requires IsSquare(move.start) && IsSquare(move.end) && move.start != move.end
    requires move.promotion.Some? ==> move.promotion.value in PromotionKinds
    ensures var after := Applied(b, move, piece);
      var scratch := Simulate(b, move.start, move.end, piece);
      && SameColors(after, scratch)
      && (forall p :: IsSquare(p) && ColorAt(after, p) != Some(piece.color) ==> PieceAt(after, p) == PieceAt(scratch, p))
      && (forall q :: IsSquare(q) ==> (KingAt(after, q, piece.color) <==> KingAt(scratch, q, piece.color)))
  {
    var after := Applied(b, move, piece);
    var scratch := Simulate(b, move.start, move.end, piece);
    assert forall q :: IsSquare(q) && q != move.end ==> PieceAt(after, q) == PieceAt(scratch, q);
  }

  /**
    The defensive re-check after a successful move never fires: the
    filter already found the mover safe on the scratch board, and the
    applied board is the same as far as check can tell.
  */
  lemma AppliedLeavesKingSafe(b: Board, turn: TeamColor, move: Move)
    requires WellFormed(b) && IsSquare(move.start)
    requires MoveOutcome(b, turn, move) == Success
    ensures IsSquare(move.end)
    ensures var after := Applied(b, move, PieceAt(b, move.start).value);
      WellFormed(after) && !InCheck(after, turn)
  {
    var piece := PieceAt(b, move.start).value;
    LegalMovesSound(b, move.start, move);
    PseudoMovesSound(b, move.start, piece, move);
    AppliedWellFormed(b, turn, move);
    AppliedMatchesScratch(b, move, piece);
    InCheckSameEnemies(Applied(b, move, piece), Simulate(b, move.start, move.end, piece), turn);
  }

  // ---------------------------------------------------------------------
  // End of the game
  // ---------------------------------------------------------------------

  /** No piece of colour c has a legal move. */
  ghost predicate NoLegalMoves(b: Board, c: TeamColor)
    requires WellFormed(b)
  {
    forall p :: IsSquare(p) && ColorAt(b, p) == Some(c) ==> LegalMoves(b, p) == Some({})
  }

  ghost predicate Checkmate(b: Board, c: TeamColor)
    requires WellFormed(b)
  {
    InCheck(b, c) && NoLegalMoves(b, c)
  }

  /** Stalemate as this engine defines it: not in check and no legal move, whoever is to move. */
  ghost predicate Stalemate(b: Board, c: TeamColor)
    requires WellFormed(b)
  {
    !InCheck(b, c) && NoLegalMoves(b, c)
  }

  lemma CheckmateExcludesStalemate(b: Board, c: TeamColor)
    requires WellFormed(b)
    ensures !(Checkmate(b, c) && Stalemate(b, c))
  {
  }

  /**
    A colour has no legal move exactly when, with that colour to move,
    every move from a square of the board fails.
  */
  lemma NoLegalMovesIffEveryMoveFails(b: Board, turn: TeamColor)
    requires WellFormed(b)
    ensures NoLegalMoves(b, turn) <==>
      forall move: Move :: IsSquare(move.start) ==> MoveOutcome(b, turn, move) != Success
  {
    if !NoLegalMoves(b, turn) {
      var p :| IsSquare(p) && ColorAt(b, p) == Some(turn) && LegalMoves(b, p) != Some({});
      assert LegalMoves(b, p).Some? && LegalMoves(b, p).value != {};
      var m :| m in LegalMoves(b, p).value;
      LegalMovesSound(b, p, m);
      assert MoveOutcome(b, turn, m) == Success;
    }
  }
}
