/**
  Pseudo-legal move generation (ChessPiece.pieceMoves and its helpers): the
  moves a piece's geometry allows from a square, ignoring whose turn it is
  and whether the mover's king is left attacked.

  The specification functions below describe, table entry by table entry,
  the list the generator builds; the methods build it with the source's
  loops and are proved to return exactly that list; the lemmas say what the
  list means (which squares, which captures, which promotions).
*/
module PieceMoves {
  import opened Chess

  // ---------------------------------------------------------------------
  // Tables
  // ---------------------------------------------------------------------

  const KnightOffsets: seq<(int, int)> :=
    [(-2, -1), (-2, 1), (2, -1), (2, 1), (-1, -2), (1, -2), (-1, 2), (1, 2)]

  const KingOffsets: seq<(int, int)> :=
    [(-1, -1), (-1, 0), (-1, 1), (0, -1), (0, 1), (1, -1), (1, 0), (1, 1)]

  const BishopDirections: seq<(int, int)> := [(1, 1), (1, -1), (-1, 1), (-1, -1)]

  const RookDirections: seq<(int, int)> := [(0, 1), (0, -1), (1, 0), (-1, 0)]

  /** Column offsets of the two diagonal pawn captures, in scan order. */
  const CaptureOffsets: seq<int> := [-1, 1]

  /** The kinds a pawn may promote to, in the order the four moves are listed. */
  const PromotionKinds: seq<PieceType> := [Queen, Rook, Bishop, Knight]

  // ---------------------------------------------------------------------
  // Specification of the generated lists
  // ---------------------------------------------------------------------

  /** A piece of colour `color` may end on `p`: the square is empty or holds an enemy. */
  predicate CanLandOn(b: Board, color: TeamColor, p: Position)
    requires IsSquare(p)
  {
    ColorAt(b, p) != Some(color)
  }

  function Offset(p: Position, d: (int, int)): Position
  {
    Position(p.row + d.0, p.col + d.1)
  }

  /** Knight and king: one move per table entry that lands on the board on a square it may land on. */
  function OffsetMoves(b: Board, from: Position, color: TeamColor, offsets: seq<(int, int)>): (r: seq<Move>)
    ensures |r| <= |offsets|
  {
    if offsets == [] then []
    else
      var prefix := OffsetMoves(b, from, color, offsets[..|offsets| - 1]);
      var to := Offset(from, offsets[|offsets| - 1]);
      if IsSquare(to) && CanLandOn(b, color, to) then prefix + [Move(from, to, None)] else prefix
  }

  /** A unit step in one of the eight directions. */
  predicate IsDirection(d: (int, int))
  {
    -1 <= d.0 <= 1 && -1 <= d.1 <= 1 && d != (0, 0)
  }

  predicate AllDirections(ds: seq<(int, int)>)
  {
    forall d :: d in ds ==> IsDirection(d)
  }

  /** `x` moved `k` steps in the unit direction `d` (written without multiplication). */
  function Step(x: int, d: int, k: int): int
  {
    if d == 1 then x + k else if d == -1 then x - k else x
  }

  /** The square `k` steps from `p` along direction `d`. */
  function Along(p: Position, d: (int, int), k: int): Position
  {
    Position(Step(p.row, d.0, k), Step(p.col, d.1, k))
  }

  /**
    The ray walk from `from` along `d`, starting at distance `k`: every empty
    square is a move and the walk goes on; an enemy square is a move and the
    walk stops; a friendly square or the edge stops it without a move.
  */
  function Ray(b: Board, from: Position, color: TeamColor, d: (int, int), k: int): seq<Move>
    requires IsSquare(from) && IsDirection(d) && 1 <= k
    decreases 8 - k
  {
    var to := Along(from, d, k);
    if !IsSquare(to) then []
    else if ColorAt(b, to).None? then [Move(from, to, None)] + Ray(b, from, color, d, k + 1)
    else if ColorAt(b, to) != Some(color) then [Move(from, to, None)]
    else []
  }

  /** Walking one more step along `d` adds `d` to the square. */
  lemma AlongNext(p: Position, d: (int, int), k: int)
    requires IsDirection(d)
    ensures Along(p, d, k + 1) == Position(Along(p, d, k).row + d.0, Along(p, d, k).col + d.1)
  {
  }

  /** A walk of at least one step leaves its square. */
  lemma AlongMoves(p: Position, d: (int, int), k: int)
    requires IsDirection(d) && 1 <= k
    ensures Along(p, d, k) != p
  {
  }

  /** From a square of the board, a walk stays on the board for at most 7 steps. */
  lemma AlongBound(p: Position, d: (int, int), k: int)
    requires IsSquare(p) && IsDirection(d) && 0 <= k && IsSquare(Along(p, d, k))
    ensures k <= 7
  {
  }

  /** One unfolding of the ray walk at an on-board square at distance k. */
  lemma RayAt(b: Board, from: Position, color: TeamColor, d: (int, int), k: int)
    requires IsSquare(from) && IsDirection(d) && 1 <= k && IsSquare(Along(from, d, k))
    ensures var to := Along(from, d, k);
      Ray(b, from, color, d, k) ==
        if ColorAt(b, to).None? then [Move(from, to, None)] + Ray(b, from, color, d, k + 1)
        else if ColorAt(b, to) != Some(color) then [Move(from, to, None)]
        else []
  {
  }

  /** Bishop, rook (and queen): the rays of a direction table, concatenated in table order. */
  function SlideMoves(b: Board, from: Position, color: TeamColor, ds: seq<(int, int)>): seq<Move>
    requires IsSquare(from) && AllDirections(ds)
  {
    if ds == [] then []
    else SlideMoves(b, from, color, ds[..|ds| - 1]) + Ray(b, from, color, ds[|ds| - 1], 1)
  }

  function BishopMoves(b: Board, from: Position, color: TeamColor): seq<Move>
    requires IsSquare(from)
  {
    SlideMoves(b, from, color, BishopDirections)
  }

  function RookMoves(b: Board, from: Position, color: TeamColor): seq<Move>
    requires IsSquare(from)
  {
    SlideMoves(b, from, color, RookDirections)
  }

  function Forward(c: TeamColor): int
  {
    if c == White then 1 else -1
  }

  function StartRow(c: TeamColor): int
  {
    if c == White then 2 else 7
  }

  function PromotionRow(c: TeamColor): int
  {
    if c == White then 8 else 1
  }

  /** The four promotion moves from `start` to `end`, in the order of PromotionKinds. */
  function PromotionMoves(start: Position, end: Position): seq<Move>
  {
    [Move(start, end, Some(Queen)), Move(start, end, Some(Rook)),
     Move(start, end, Some(Bishop)), Move(start, end, Some(Knight))]
  }

  /** A pawn arriving on `end`: four promotion moves on the promotion row, one plain move elsewhere. */
  function PawnArrival(c: TeamColor, start: Position, end: Position): seq<Move>
  {
    if end.row == PromotionRow(c) then PromotionMoves(start, end) else [Move(start, end, None)]
  }

  /** One step forward onto an empty square, then two from the start row if that square is empty too. */
  function PawnForwardMoves(b: Board, from: Position, c: TeamColor): seq<Move>
    requires IsSquare(from) && from.row != PromotionRow(c)
  {
    var one := Position(from.row + Forward(c), from.col);
    if 1 <= one.row <= 8 && ColorAt(b, one).None? then
      var two := Position(one.row + Forward(c), from.col);
      PawnArrival(c, from, one)
        + (if from.row == StartRow(c) && ColorAt(b, two).None? then [Move(from, two, None)] else [])
    else []
  }

  /** Diagonal captures for the column offsets of a table, in table order: only onto an enemy. */
  function CaptureMoves(b: Board, from: Position, c: TeamColor, offsets: seq<int>): seq<Move>
    requires IsSquare(from) && from.row != PromotionRow(c)
  {
    if offsets == [] then []
    else
      var prefix := CaptureMoves(b, from, c, offsets[..|offsets| - 1]);
      var to := Position(from.row + Forward(c), from.col + offsets[|offsets| - 1]);
      if 1 <= to.col <= 8 && ColorAt(b, to).Some? && ColorAt(b, to) != Some(c)
      then prefix + PawnArrival(c, from, to)
      else prefix
  }

  function PawnMoves(b: Board, from: Position, c: TeamColor): seq<Move>
    requires IsSquare(from) && from.row != PromotionRow(c)
  {
    PawnForwardMoves(b, from, c) + CaptureMoves(b, from, c, CaptureOffsets)
  }

  /**
    Where the generator may be asked about a piece: on the board, and a pawn
    not standing on its own promotion row (there the capture scan would look
    one row beyond the board).
  */
  predicate CanGenerate(piece: Piece, from: Position)
  {
    IsSquare(from) && (piece.kind == Pawn ==> from.row != PromotionRow(piece.color))
  }

  /** The list ChessPiece.pieceMoves returns for `piece` standing on `from`. */
  function PseudoMoves(b: Board, from: Position, piece: Piece): seq<Move>
    requires CanGenerate(piece, from)
  {
    match piece.kind
    case Knight => OffsetMoves(b, from, piece.color, KnightOffsets)
    case Pawn => PawnMoves(b, from, piece.color)
    case Queen => RookMoves(b, from, piece.color) + BishopMoves(b, from, piece.color)
    case King => OffsetMoves(b, from, piece.color, KingOffsets)
    case Bishop => BishopMoves(b, from, piece.color)
    case Rook => RookMoves(b, from, piece.color)
  }

  // ---------------------------------------------------------------------
  // What the lists mean
  // ---------------------------------------------------------------------

  /** Knight and king: a move is generated iff it is a plain move to an on-board, non-friendly table square. */
  lemma {:induction false} OffsetMovesIff(b: Board, from: Position, color: TeamColor, offsets: seq<(int, int)>, m: Move)
    ensures m in OffsetMoves(b, from, color, offsets) <==>
      m.start == from && m.promotion == None && IsSquare(m.end) && CanLandOn(b, color, m.end) &&
      exists t :: 0 <= t < |offsets| && m.end == Offset(from, offsets[t])
  {
    if offsets != [] {
      var init := offsets[..|offsets| - 1];
      OffsetMovesIff(b, from, color, init, m);
      if m.start == from && m.promotion == None && IsSquare(m.end) && CanLandOn(b, color, m.end) {
        if t :| 0 <= t < |offsets| && m.end == Offset(from, offsets[t]) {
          if t < |init| {
            assert init[t] == offsets[t];
          }
        }
      }
    }
  }

  /** Every square at distances k..j-1 along the ray is on the board and empty. */
  predicate ClearBetween(b: Board, from: Position, d: (int, int), k: int, j: int)
    decreases j - k
  {
    k >= j || (IsSquare(Along(from, d, k)) && ColorAt(b, Along(from, d, k)).None? && ClearBetween(b, from, d, k + 1, j))
  }

  /** The walk from distance k reaches distance j: the path before it is clear and the square may be landed on. */
  predicate RayReaches(b: Board, from: Position, color: TeamColor, d: (int, int), k: int, j: int)
  {
    k <= j && IsSquare(Along(from, d, j)) && CanLandOn(b, color, Along(from, d, j)) && ClearBetween(b, from, d, k, j)
  }

  /** Every move of a ray is a plain move to a square the walk reaches. */
  lemma {:induction false} RaySound(b: Board, from: Position, color: TeamColor, d: (int, int), k: int, m: Move)
    requires IsSquare(from) && IsDirection(d) && 1 <= k
    requires m in Ray(b, from, color, d, k)
    ensures m.start == from && m.promotion == None
    ensures exists j :: RayReaches(b, from, color, d, k, j) && m.end == Along(from, d, j)
    decreases 8 - k
  {
    var to := Along(from, d, k);
    assert IsSquare(to);
    RayAt(b, from, color, d, k);
    if ColorAt(b, to).None? && m != Move(from, to, None) {
      RaySound(b, from, color, d, k + 1, m);
      var j :| RayReaches(b, from, color, d, k + 1, j) && m.end == Along(from, d, j);
      assert RayReaches(b, from, color, d, k, j);
    } else {
      assert m == Move(from, to, None);
      assert RayReaches(b, from, color, d, k, k);
    }
  }

  /** Every square the walk reaches is the end of a move of the ray. */
  lemma {:induction false} RayComplete(b: Board, from: Position, color: TeamColor, d: (int, int), k: int, j: int)
    requires IsSquare(from) && IsDirection(d) && 1 <= k
    requires RayReaches(b, from, color, d, k, j)
    ensures Move(from, Along(from, d, j), None) in Ray(b, from, color, d, k)
    decreases j - k
  {
    RayAt(b, from, color, d, k);
    if k < j {
      assert IsSquare(Along(from, d, k)) && ColorAt(b, Along(from, d, k)).None?;
      assert RayReaches(b, from, color, d, k + 1, j);
      RayComplete(b, from, color, d, k + 1, j);
    }
  }

  /**
    A ray generates a move iff it is a plain move to a square along the
    direction whose predecessors on the ray are all empty: no move jumps
    over a piece, and the walk ends at the first occupied square.
  */
  lemma RayIff(b: Board, from: Position, color: TeamColor, d: (int, int), k: int, m: Move)
    requires IsSquare(from) && IsDirection(d) && 1 <= k
    ensures m in Ray(b, from, color, d, k) <==>
      m.start == from && m.promotion == None &&
      exists j :: RayReaches(b, from, color, d, k, j) && m.end == Along(from, d, j)
  {
    if m in Ray(b, from, color, d, k) {
      RaySound(b, from, color, d, k, m);
    } else if m.start == from && m.promotion == None {
      forall j | RayReaches(b, from, color, d, k, j) ensures m.end != Along(from, d, j) {
        RayComplete(b, from, color, d, k, j);
      }
    }
  }

  lemma {:induction false} SlideMovesIff(b: Board, from: Position, color: TeamColor, ds: seq<(int, int)>, m: Move)
    requires IsSquare(from) && AllDirections(ds)
    ensures m in SlideMoves(b, from, color, ds) <==> exists d :: d in ds && m in Ray(b, from, color, d, 1)
  {
    if ds != [] {
      var init := ds[..|ds| - 1];
      var last := ds[|ds| - 1];
      assert ds == init + [last];
      assert AllDirections(init);
      SlideMovesIff(b, from, color, init, m);
      assert SlideMoves(b, from, color, ds) == SlideMoves(b, from, color, init) + Ray(b, from, color, last, 1);
    }
  }

  /**
    Bishop, rook and queen moves: m is generated iff it is a plain move along
    one of the piece's directions to a square it may land on, with every
    square strictly between empty.
  */
  lemma SlidingPieceMovesIff(b: Board, from: Position, color: TeamColor, ds: seq<(int, int)>, m: Move)
    requires IsSquare(from) && AllDirections(ds)
    ensures m in SlideMoves(b, from, color, ds) <==>
      m.start == from && m.promotion == None &&
      exists d, j :: d in ds && RayReaches(b, from, color, d, 1, j) && m.end == Along(from, d, j)
  {
    SlideMovesIff(b, from, color, ds, m);
    forall d | d in ds {
      RayIff(b, from, color, d, 1, m);
    }
  }

  /** The queen's list is the rook's list followed by the bishop's. */
  lemma QueenIsRookThenBishop(b: Board, from: Position, color: TeamColor)
    requires IsSquare(from)
    ensures PseudoMoves(b, from, Piece(color, Queen))
         == PseudoMoves(b, from, Piece(color, Rook)) + PseudoMoves(b, from, Piece(color, Bishop))
  {
  }

  /** A pawn move's promotion is set exactly on the promotion row, and then names one of the four kinds. */
  predicate PromotionFits(c: TeamColor, m: Move)
  {
    if m.end.row == PromotionRow(c) then m.promotion.Some? && m.promotion.value in PromotionKinds
    else m.promotion == None
  }

  lemma PawnArrivalIff(c: TeamColor, start: Position, end: Position, m: Move)
    ensures m in PawnArrival(c, start, end) <==> m.start == start && m.end == end && PromotionFits(c, m)
  {
    if m.start == start && m.end == end && PromotionFits(c, m) && end.row == PromotionRow(c) {
      assert m.promotion.value in PromotionKinds;
      assert m in PromotionMoves(start, end);
    }
  }

  /** The diagonal-capture square for column offset `dc` holds an enemy piece. */
  predicate EnemyAhead(b: Board, from: Position, c: TeamColor, dc: int)
  {
    var to := Position(from.row + Forward(c), from.col + dc);
    IsSquare(to) && ColorAt(b, to).Some? && ColorAt(b, to) != Some(c)
  }

  lemma {:induction false} CaptureMovesIff(b: Board, from: Position, c: TeamColor, offsets: seq<int>, m: Move)
    requires IsSquare(from) && from.row != PromotionRow(c)
    ensures m in CaptureMoves(b, from, c, offsets) <==>
      m.start == from && PromotionFits(c, m) &&
      exists t :: 0 <= t < |offsets| && m.end == Position(from.row + Forward(c), from.col + offsets[t]) &&
                  EnemyAhead(b, from, c, offsets[t])
  {
    if offsets != [] {
      var init := offsets[..|offsets| - 1];
      var dc := offsets[|offsets| - 1];
      var to := Position(from.row + Forward(c), from.col + dc);
      CaptureMovesIff(b, from, c, init, m);
      PawnArrivalIff(c, from, to, m);
      assert forall t :: 0 <= t < |init| ==> init[t] == offsets[t];
    }
  }

  /**
    Pawn moves: one step forward onto an empty square; two steps only from
    the start row with both squares empty; a diagonal step only onto an
    enemy. Arrivals on the promotion row come as the four promotions and
    every other move carries none.
  */
  lemma PawnMovesIff(b: Board, from: Position, c: TeamColor, m: Move)
    requires IsSquare(from) && from.row != PromotionRow(c)
    ensures m in PawnMoves(b, from, c) <==>
      var one := Position(from.row + Forward(c), from.col);
      var two := Position(from.row + 2 * Forward(c), from.col);
      m.start == from && PromotionFits(c, m) &&
      ( (m.end == one && ColorAt(b, one).None?)
      || (m.end == two && from.row == StartRow(c) && ColorAt(b, one).None? && ColorAt(b, two).None?)
      || ((m.end == Position(one.row, from.col - 1) && EnemyAhead(b, from, c, -1))
          || (m.end == Position(one.row, from.col + 1) && EnemyAhead(b, from, c, 1))))
  {
    var one := Position(from.row + Forward(c), from.col);
    var two := Position(one.row + Forward(c), from.col);
    PawnArrivalIff(c, from, one, m);
    CaptureMovesIff(b, from, c, CaptureOffsets, m);
    if m.end == Position(one.row, from.col - 1) && EnemyAhead(b, from, c, -1) {
      assert CaptureOffsets[0] == -1;
    }
    if m.end == Position(one.row, from.col + 1) && EnemyAhead(b, from, c, 1) {
      assert CaptureOffsets[1] == 1;
    }
  }

  /** Knight and king moves: plain moves to another on-board square that is empty or holds an enemy. */
  lemma OffsetMovesSound(b: Board, from: Position, color: TeamColor, offsets: seq<(int, int)>, m: Move)
    requires forall t :: 0 <= t < |offsets| ==> offsets[t] != (0, 0)
    requires m in OffsetMoves(b, from, color, offsets)
    ensures m.start == from && IsSquare(m.end) && m.end != from && CanLandOn(b, color, m.end) && m.promotion == None
  {
    OffsetMovesIff(b, from, color, offsets, m);
  }

  lemma SlideMovesSound(b: Board, from: Position, color: TeamColor, ds: seq<(int, int)>, m: Move)
    requires IsSquare(from) && AllDirections(ds)
    requires m in SlideMoves(b, from, color, ds)
    ensures m.start == from && IsSquare(m.end) && m.end != from && CanLandOn(b, color, m.end) && m.promotion == None
  {
    SlideMovesIff(b, from, color, ds, m);
    var d :| d in ds && m in Ray(b, from, color, d, 1);
    RaySound(b, from, color, d, 1, m);
    var j :| RayReaches(b, from, color, d, 1, j) && m.end == Along(from, d, j);
    AlongMoves(from, d, j);
  }

  lemma PawnMovesSound(b: Board, from: Position, c: TeamColor, m: Move)
    requires IsSquare(from) && from.row != PromotionRow(c)
    requires m in PawnMoves(b, from, c)
    ensures m.start == from && IsSquare(m.end) && m.end != from && CanLandOn(b, c, m.end)
    ensures PromotionFits(c, m)
  {
    PawnMovesIff(b, from, c, m);
  }

  /**
    Every generated move starts on the piece's square, ends on another
    square of the board that is empty or holds an enemy, and carries a
    promotion only when a pawn reaches its promotion row.
  */
  lemma PseudoMovesSound(b: Board, from: Position, piece: Piece, m: Move)
    requires CanGenerate(piece, from)
    requires m in PseudoMoves(b, from, piece)
    ensures m.start == from && IsSquare(m.end) && m.end != from
    ensures CanLandOn(b, piece.color, m.end)
    ensures m.promotion.Some? ==>
      piece.kind == Pawn && m.end.row == PromotionRow(piece.color) && m.promotion.value in PromotionKinds
    ensures piece.kind == Pawn ==> PromotionFits(piece.color, m)
  {
    var c := piece.color;
    match piece.kind
    case Knight =>
      OffsetMovesSound(b, from, c, KnightOffsets, m);
    case King =>
      OffsetMovesSound(b, from, c, KingOffsets, m);
    case Pawn =>
      PawnMovesSound(b, from, c, m);
    case Bishop =>
      SlideMovesSound(b, from, c, BishopDirections, m);
    case Rook =>
      SlideMovesSound(b, from, c, RookDirections, m);
    case Queen =>
      if m in RookMoves(b, from, c) {
        SlideMovesSound(b, from, c, RookDirections, m);
      } else {
        SlideMovesSound(b, from, c, BishopDirections, m);
      }
  }

  // ---------------------------------------------------------------------
  // The generator looks only at which colour stands where
  // ---------------------------------------------------------------------

  ghost predicate SameColors(b1: Board, b2: Board)
  {
    forall p :: IsSquare(p) ==> ColorAt(b1, p) == ColorAt(b2, p)
  }

  lemma {:induction false} OffsetMovesSameColors(b1: Board, b2: Board, from: Position, color: TeamColor, offsets: seq<(int, int)>)
    requires SameColors(b1, b2)
    ensures OffsetMoves(b1, from, color, offsets) == OffsetMoves(b2, from, color, offsets)
  {
    if offsets != [] {
      OffsetMovesSameColors(b1, b2, from, color, offsets[..|offsets| - 1]);
    }
  }

  lemma {:induction false} RaySameColors(b1: Board, b2: Board, from: Position, color: TeamColor, d: (int, int), k: int)
    requires SameColors(b1, b2) && IsSquare(from) && IsDirection(d) && 1 <= k
    ensures Ray(b1, from, color, d, k) == Ray(b2, from, color, d, k)
    decreases 8 - k
  {
    if IsSquare(Along(from, d, k)) {
      RaySameColors(b1, b2, from, color, d, k + 1);
    }
  }

  lemma {:induction false} SlideMovesSameColors(b1: Board, b2: Board, from: Position, color: TeamColor, ds: seq<(int, int)>)
    requires SameColors(b1, b2) && IsSquare(from) && AllDirections(ds)
    ensures SlideMoves(b1, from, color, ds) == SlideMoves(b2, from, color, ds)
  {
    if ds != [] {
      SlideMovesSameColors(b1, b2, from, color, ds[..|ds| - 1]);
      RaySameColors(b1, b2, from, color, ds[|ds| - 1], 1);
    }
  }

  lemma {:induction false} CaptureMovesSameColors(b1: Board, b2: Board, from: Position, c: TeamColor, offsets: seq<int>)
    requires SameColors(b1, b2) && IsSquare(from) && from.row != PromotionRow(c)
    ensures CaptureMoves(b1, from, c, offsets) == CaptureMoves(b2, from, c, offsets)
  {
    if offsets != [] {
      CaptureMovesSameColors(b1, b2, from, c, offsets[..|offsets| - 1]);
    }
  }

  lemma PawnMovesSameColors(b1: Board, b2: Board, from: Position, c: TeamColor)
    requires SameColors(b1, b2) && IsSquare(from) && from.row != PromotionRow(c)
    ensures PawnMoves(b1, from, c) == PawnMoves(b2, from, c)
  {
    CaptureMovesSameColors(b1, b2, from, c, CaptureOffsets);
    var one := Position(from.row + Forward(c), from.col);
    var two := Position(one.row + Forward(c), from.col);
    if 1 <= one.row <= 8 {
      assert ColorAt(b1, one) == ColorAt(b2, one);
      if from.row == StartRow(c) {
        assert ColorAt(b1, two) == ColorAt(b2, two);
      }
    }
  }

  /**
    Two boards with the same colour on every square give every piece the
    same list: the generator never looks at the kind of another piece.
  */
  lemma PseudoMovesSameColors(b1: Board, b2: Board, from: Position, piece: Piece)
    requires SameColors(b1, b2) && CanGenerate(piece, from)
    ensures PseudoMoves(b1, from, piece) == PseudoMoves(b2, from, piece)
  {
    var c := piece.color;
    match piece.kind
    case Knight =>
      OffsetMovesSameColors(b1, b2, from, c, KnightOffsets);
    case King =>
      OffsetMovesSameColors(b1, b2, from, c, KingOffsets);
    case Pawn =>
      PawnMovesSameColors(b1, b2, from, c);
    case Bishop =>
      SlideMovesSameColors(b1, b2, from, c, BishopDirections);
    case Rook =>
      SlideMovesSameColors(b1, b2, from, c, RookDirections);
    case Queen =>
      SlideMovesSameColors(b1, b2, from, c, BishopDirections);
      SlideMovesSameColors(b1, b2, from, c, RookDirections);
  }

  // ---------------------------------------------------------------------
  // The generator, as the source builds its lists
  // ---------------------------------------------------------------------

  /** ChessPiece.pieceMoves: the piece's pseudo-legal moves from `myPosition`, in generation order. */
  method PieceMoves(piece: Piece, board: ChessBoard, myPosition: Position) returns (moves: seq<Move>)
    requires board.Valid() && CanGenerate(piece, myPosition)
    ensures moves == PseudoMoves(board.Contents(), myPosition, piece)
  {
    match piece.kind
    case Knight =>
      moves := OffsetTableMoves(piece.color, board, myPosition, KnightOffsets);
    case Pawn =>
      moves := PawnPieceMoves(piece.color, board, myPosition);
    case Queen =>
      var rookMoves := GetRookMoves(piece, board, myPosition);
      var bishopMoves := GetBishopMoves(piece, board, myPosition);
      moves := rookMoves + bishopMoves;
    case King =>
      moves := OffsetTableMoves(piece.color, board, myPosition, KingOffsets);
    case Bishop =>
      moves := GetBishopMoves(piece, board, myPosition);
    case Rook =>
      moves := GetRookMoves(piece, board, myPosition);
  }

  /**
    The knight and king cases of pieceMoves: for each table entry, the
    target square if it is on the board and empty or enemy-occupied.
  */
  method OffsetTableMoves(color: TeamColor, board: ChessBoard, myPosition: Position, offsets: seq<(int, int)>)
    returns (moves: seq<Move>)
    requires board.Valid()
    ensures moves == OffsetMoves(board.Contents(), myPosition, color, offsets)
  {
    ghost var b := board.Contents();
    moves := [];
    for k := 0 to |offsets|
      invariant moves == OffsetMoves(b, myPosition, color, offsets[..k])
    {
      var newRow := myPosition.row + offsets[k].0;
      var newCol := myPosition.col + offsets[k].1;
      if 1 <= newRow <= 8 && 1 <= newCol <= 8 {
        var newPosition := Position(newRow, newCol);
        var pieceAtNewPosition := board.GetPiece(newPosition);
        if pieceAtNewPosition.None? || pieceAtNewPosition.value.color != color {
          moves := moves + [Move(myPosition, newPosition, None)];
        }
      }
      assert offsets[..k + 1][..k] == offsets[..k];
    }
    assert offsets[..|offsets|] == offsets;
  }

  /**
    The pawn case of pieceMoves: the forward moves, then the diagonal
    captures for column offsets -1 and 1.
  */
  method PawnPieceMoves(color: TeamColor, board: ChessBoard, myPosition: Position) returns (moves: seq<Move>)
    requires board.Valid() && IsSquare(myPosition) && myPosition.row != PromotionRow(color)
    ensures moves == PawnMoves(board.Contents(), myPosition, color)
  {
    moves := PawnAdvances(color, board, myPosition);
    var captures := PawnCaptures(color, board, myPosition, CaptureOffsets);
    moves := moves + captures;
  }

  /** The forward part of the pawn case: one step onto an empty square, two from the start row. */
  method PawnAdvances(color: TeamColor, board: ChessBoard, myPosition: Position) returns (moves: seq<Move>)
    requires board.Valid() && IsSquare(myPosition) && myPosition.row != PromotionRow(color)
    ensures moves == PawnForwardMoves(board.Contents(), myPosition, color)
  {
    var direction := if color == White then 1 else -1;
    var startingRow := if color == White then 2 else 7;
    var promotionRow := if color == White then 8 else 1;
    var oneForward := myPosition.row + direction;
    moves := [];
    if 1 <= oneForward <= 8 {
      var newPosition := Position(oneForward, myPosition.col);
      var ahead := board.GetPiece(newPosition);
      if ahead.None? {
        if oneForward == promotionRow {
          moves := AddPawnPromotionMoves(moves, myPosition, newPosition);
        } else {
          moves := moves + [Move(myPosition, newPosition, None)];
        }
        if myPosition.row == startingRow {
          var twoForward := Position(oneForward + direction, myPosition.col);
          var twoAhead := board.GetPiece(twoForward);
          if twoAhead.None? {
            moves := moves + [Move(myPosition, twoForward, None)];
          }
        }
      }
    }
  }

  /** One more entry of the capture table appends that entry's captures. */
  lemma CaptureMovesStep(b: Board, from: Position, c: TeamColor, offsets: seq<int>, t: int)
    requires IsSquare(from) && from.row != PromotionRow(c) && 0 <= t < |offsets|
    ensures var to := Position(from.row + Forward(c), from.col + offsets[t]);
      CaptureMoves(b, from, c, offsets[..t + 1])
      == CaptureMoves(b, from, c, offsets[..t])
         + if 1 <= to.col <= 8 && ColorAt(b, to).Some? && ColorAt(b, to) != Some(c) then PawnArrival(c, from, to) else []
  {
    assert offsets[..t + 1][..t] == offsets[..t];
  }

  /** The capture loop of the pawn case: a diagonal step forward, one per column offset, only onto an enemy piece. */
  method PawnCaptures(color: TeamColor, board: ChessBoard, myPosition: Position, offsets: seq<int>) returns (moves: seq<Move>)
    requires board.Valid() && IsSquare(myPosition) && myPosition.row != PromotionRow(color)
    ensures moves == CaptureMoves(board.Contents(), myPosition, color, offsets)
  {
    ghost var b := board.Contents();
    moves := [];
    for t := 0 to |offsets|
      invariant moves == CaptureMoves(b, myPosition, color, offsets[..t])
    {
      CaptureMovesStep(b, myPosition, color, offsets, t);
      moves := PawnCaptureAt(color, board, myPosition, offsets[t], moves);
    }
    assert offsets[..|offsets|] == offsets;
  }

  /** One pass of the capture loop: the capture at column offset `colOffset`, appended to `moves`. */
  method PawnCaptureAt(color: TeamColor, board: ChessBoard, myPosition: Position, colOffset: int, moves: seq<Move>)
    returns (result: seq<Move>)
    requires board.Valid() && IsSquare(myPosition) && myPosition.row != PromotionRow(color)
    ensures var to := Position(myPosition.row + Forward(color), myPosition.col + colOffset);
      result == moves + if 1 <= to.col <= 8 && ColorAt(board.Contents(), to).Some? && ColorAt(board.Contents(), to) != Some(color)
                        then PawnArrival(color, myPosition, to) else []
  {
    var direction := if color == White then 1 else -1;
    var promotionRow := if color == White then 8 else 1;
    var oneForward := myPosition.row + direction;
    result := moves;
    if 1 <= myPosition.col + colOffset <= 8 {
      var capturePosition := Position(oneForward, myPosition.col + colOffset);
      var pieceAtCapture := board.GetPiece(capturePosition);
      if pieceAtCapture.Some? && pieceAtCapture.value.color != color {
        if oneForward == promotionRow {
          result := AddPawnPromotionMoves(result, myPosition, capturePosition);
        } else {
          result := result + [Move(myPosition, capturePosition, None)];
        }
      }
    }
  }

  /** ChessPiece.getBishopMoves: the four diagonal rays, in table order. */
  method GetBishopMoves(piece: Piece, board: ChessBoard, myPosition: Position) returns (moves: seq<Move>)
    requires board.Valid() && IsSquare(myPosition)
    ensures moves == BishopMoves(board.Contents(), myPosition, piece.color)
  {
    moves := WalkRays(piece.color, board, myPosition, BishopDirections);
  }

  /** ChessPiece.getRookMoves: the four orthogonal rays, in table order. */
  method GetRookMoves(piece: Piece, board: ChessBoard, myPosition: Position) returns (moves: seq<Move>)
    requires board.Valid() && IsSquare(myPosition)
    ensures moves == RookMoves(board.Contents(), myPosition, piece.color)
  {
    moves := WalkRays(piece.color, board, myPosition, RookDirections);
  }

  /** The direction loop shared by getBishopMoves and getRookMoves. */
  method WalkRays(color: TeamColor, board: ChessBoard, myPosition: Position, directions: seq<(int, int)>)
    returns (moves: seq<Move>)
    requires board.Valid() && IsSquare(myPosition) && AllDirections(directions)
    ensures moves == SlideMoves(board.Contents(), myPosition, color, directions)
  {
    moves := [];
    for t := 0 to |directions|
      invariant moves == SlideMoves(board.Contents(), myPosition, color, directions[..t])
    {
      var ray := WalkRay(color, board, myPosition, directions[t]);
      moves := moves + ray;
      assert directions[..t + 1][..t] == directions[..t];
    }
    assert directions[..|directions|] == directions;
  }

  /**
    One step of the ray walk at distance k, appended to the moves found so
    far: past the edge nothing is added; an empty square is added and the
    walk goes on; an enemy square is added and the walk stops; a friendly
    square stops it.
  */
  lemma RayStep(b: Board, from: Position, color: TeamColor, d: (int, int), k: int, moves: seq<Move>)
    requires IsSquare(from) && IsDirection(d) && 1 <= k
    ensures !IsSquare(Along(from, d, k)) ==> Ray(b, from, color, d, k) == []
    ensures IsSquare(Along(from, d, k)) && ColorAt(b, Along(from, d, k)).None? ==>
      moves + Ray(b, from, color, d, k) == (moves + [Move(from, Along(from, d, k), None)]) + Ray(b, from, color, d, k + 1)
    ensures IsSquare(Along(from, d, k)) && ColorAt(b, Along(from, d, k)).Some? ==>
      Ray(b, from, color, d, k) == if ColorAt(b, Along(from, d, k)) != Some(color) then [Move(from, Along(from, d, k), None)] else []
  {
    var to := Along(from, d, k);
    if IsSquare(to) {
      RayAt(b, from, color, d, k);
      if ColorAt(b, to).None? {
        var rest := Ray(b, from, color, d, k + 1);
        assert moves + ([Move(from, to, None)] + rest) == (moves + [Move(from, to, None)]) + rest;
      }
    }
  }

  /**
    The `while (true)` walk of one direction: step, stop at the edge, add
    an empty square and go on, add an enemy square and stop, stop at a
    friendly square.
  */
  method WalkRay(color: TeamColor, board: ChessBoard, myPosition: Position, direction: (int, int))
    returns (moves: seq<Move>)
    requires board.Valid() && IsSquare(myPosition) && IsDirection(direction)
    ensures moves == Ray(board.Contents(), myPosition, color, direction, 1)
  {
    ghost var b := board.Contents();
    ghost var whole := Ray(b, myPosition, color, direction, 1);
    moves := [];
    assert moves + Ray(b, myPosition, color, direction, 1) == whole;
    var newRow, newCol := myPosition.row, myPosition.col;
    ghost var k := 0;
    while true
      invariant 0 <= k <= 7
      invariant Position(newRow, newCol) == Along(myPosition, direction, k)
      invariant whole == moves + Ray(b, myPosition, color, direction, k + 1)
      decreases 8 - k
    {
      newRow := newRow + direction.0;
      newCol := newCol + direction.1;
      AlongNext(myPosition, direction, k);
      k := k + 1;
      RayStep(b, myPosition, color, direction, k, moves);
      if newRow < 1 || newRow > 8 || newCol < 1 || newCol > 8 {
        break;
      }
      AlongBound(myPosition, direction, k);
      var newPosition := Position(newRow, newCol);
      var pieceAtNewPosition := board.GetPiece(newPosition);
      if pieceAtNewPosition.None? {
        moves := moves + [Move(myPosition, newPosition, None)];
      } else {
        if pieceAtNewPosition.value.color != color {
          moves := moves + [Move(myPosition, newPosition, None)];
        }
        break;
      }
    }
  }

  /** ChessPiece.addPawnPromotionMoves: appends the four promotions of start->end, QUEEN, ROOK, BISHOP, KNIGHT. */
  method AddPawnPromotionMoves(moves: seq<Move>, start: Position, end: Position) returns (result: seq<Move>)
    ensures result == moves + PromotionMoves(start, end)
  {
    result := moves + [Move(start, end, Some(Queen))];
    result := result + [Move(start, end, Some(Rook))];
    result := result + [Move(start, end, Some(Bishop))];
    result := result + [Move(start, end, Some(Knight))];
  }
}
