/**
  Values shared by the move generator and the game engine: colours, piece
  kinds, pieces, squares, moves, and the 8x8 board both as a value (a
  sequence of 64 optional pieces in row-major order) and as the mutable
  board object the game owns.
*/
module Chess {

  datatype Option<T> = None | Some(value: T)

  datatype TeamColor = White | Black

  datatype PieceType = King | Queen | Bishop | Knight | Rook | Pawn

  /** A piece is an immutable (colour, kind) pair; equality is structural. */
  datatype Piece = Piece(color: TeamColor, kind: PieceType)

  /** A square, 1-based; only squares with both coordinates in [1,8] exist on the board. */
  datatype Position = Position(row: int, col: int)

  /** A move from one square to another, with the kind a pawn promotes to, if any. */
  datatype Move = Move(start: Position, end: Position, promotion: Option<PieceType>)

  function Opponent(c: TeamColor): TeamColor
  {
    if c == White then Black else White
  }

  predicate OnBoard(row: int, col: int)
  {
    1 <= row <= 8 && 1 <= col <= 8
  }

  predicate IsSquare(p: Position)
  {
    OnBoard(p.row, p.col)
  }

  /** Row-major cell index of a square. */
  function Index(p: Position): (i: nat)
    requires IsSquare(p)
    ensures i < 64
  {
    (p.row - 1) * 8 + (p.col - 1)
  }

  lemma IndexInjective(p: Position, q: Position)
    requires IsSquare(p) && IsSquare(q) && p != q
    ensures Index(p) != Index(q)
  {
  }

  /** Every cell of the board is some square's cell. */
  lemma IndexOnto(i: int)
    requires 0 <= i < 64
    ensures var p := Position(i / 8 + 1, i % 8 + 1); IsSquare(p) && Index(p) == i
  {
  }

  /** The board as a value: 64 cells, row-major, each empty or holding a piece. */
  type Board = b: seq<Option<Piece>> | |b| == 64 witness seq(64, _ => None)

  function PieceAt(b: Board, p: Position): Option<Piece>
    requires IsSquare(p)
  {
    b[Index(p)]
  }

  /** Two boards that agree on every square are the same board. */
  lemma BoardsEqual(b1: Board, b2: Board)
    requires forall p :: IsSquare(p) ==> PieceAt(b1, p) == PieceAt(b2, p)
    ensures b1 == b2
  {
    forall i | 0 <= i < 64 ensures b1[i] == b2[i] {
      IndexOnto(i);
      assert PieceAt(b1, Position(i / 8 + 1, i % 8 + 1)) == PieceAt(b2, Position(i / 8 + 1, i % 8 + 1));
    }
  }

  /** The colour standing on a square, if any: all that capture and blocking rules look at. */
  function ColorAt(b: Board, p: Position): Option<TeamColor>
    requires IsSquare(p)
  {
    match PieceAt(b, p)
    case None => None
    case Some(q) => Some(q.color)
  }

  /** The board with one square set to `x` and every other square unchanged. */
  function Place(b: Board, p: Position, x: Option<Piece>): (r: Board)
    requires IsSquare(p)
    ensures PieceAt(r, p) == x
    ensures forall q :: IsSquare(q) && q != p ==> PieceAt(r, q) == PieceAt(b, q)
  {
    forall q | IsSquare(q) && q != p ensures Index(q) != Index(p) {
      IndexInjective(q, p);
    }
    b[Index(p) := x]
  }

  /**
    The mutable board the game owns: 64 cells in row-major order. Only the
    three primitives the engine uses are given (look up, place, clear).
  */
  class ChessBoard {
    const squares: array<Option<Piece>>

    ghost predicate Valid()
    {
      squares.Length == 64
    }

    function Contents(): Board
      reads squares
      requires Valid()
    {
      squares[..]
    }

    /** An empty board. */
    constructor ()
      ensures Valid() && fresh(squares)
      ensures forall p :: IsSquare(p) ==> PieceAt(Contents(), p).None?
    {
      squares := new Option<Piece>[64](_ => None);
    }

    /** A board holding the given position. */
    constructor Of(b: Board)
      ensures Valid() && fresh(squares)
      ensures Contents() == b
    {
      squares := new Option<Piece>[64](i requires 0 <= i < 64 => b[i]);
    }

    method GetPiece(p: Position) returns (x: Option<Piece>)
      requires Valid() && IsSquare(p)
      ensures x == PieceAt(Contents(), p)
    {
      x := squares[Index(p)];
    }

    method AddPiece(p: Position, piece: Piece)
      requires Valid() && IsSquare(p)
      modifies squares
      ensures Valid()
      ensures Contents() == Place(old(Contents()), p, Some(piece))
    {
      squares[Index(p)] := Some(piece);
    }

    method RemovePiece(p: Position)
      requires Valid() && IsSquare(p)
      modifies squares
      ensures Valid()
      ensures Contents() == Place(old(Contents()), p, None)
    {
      squares[Index(p)] := None;
    }
  }
}
