/**
  The game object: a board reference and the colour to move. Every
  operation is proved to compute the corresponding rule of GameRules on the
  board's current contents; a failed move is a Failure result in place of
  an InvalidMoveException and leaves the game as it was.
*/
module Game {
  import opened Chess
  import opened PieceMoves
  import opened GameRules

  class ChessGame {
    var board: ChessBoard
    var teamTurn: TeamColor

    /** The board has its 64 cells and no pawn stands on its own promotion row. */
    ghost predicate Valid()
      reads this, board, board.squares
    {
      board.Valid() && WellFormed(board.Contents())
    }

    /** A game on the given position with White to move. */
    constructor (initial: Board)
      requires WellFormed(initial)
      ensures Valid() && fresh(board) && fresh(board.squares)
      ensures board.Contents() == initial && teamTurn == White
    {
      board := new ChessBoard.Of(initial);
      teamTurn := White;
    }

    function GetTeamTurn(): (team: TeamColor)
      reads this
      ensures team == teamTurn
    {
      teamTurn
    }

    method SetTeamTurn(team: TeamColor)
      modifies this
      ensures teamTurn == team && board == old(board)
    {
      teamTurn := team;
    }

    /** Replaces the board reference; the game then shares the caller's board. */
    method SetBoard(newBoard: ChessBoard)
      requires newBoard.Valid() && WellFormed(newBoard.Contents())
      modifies this
      ensures Valid() && board == newBoard && teamTurn == old(teamTurn)
    {
      board := newBoard;
    }

    function GetBoard(): (current: ChessBoard)
      reads this
      ensures current == board
    {
      board
    }

    /**
      The moves of the piece on `startPosition` that do not leave its own
      king attacked, or None when the square is empty.
    */
    method ValidMoves(startPosition: Position) returns (r: Option<set<Move>>)
      requires Valid() && IsSquare(startPosition)
      ensures r == LegalMoves(board.Contents(), startPosition)
    {
      var piece := board.GetPiece(startPosition);
      if piece.None? {
        return None;
      }
      var possibleMoves := PieceMoves.PieceMoves(piece.value, board, startPosition);
      var validMoves := KeepSafeMoves(startPosition, piece.value, possibleMoves);
      LegalMovesKept(board.Contents(), startPosition, piece.value);
      return Some(validMoves);
    }

    /** The filter loop of validMoves: the moves of the list that keep the king safe. */
    method KeepSafeMoves(startPosition: Position, piece: Piece, possibleMoves: seq<Move>) returns (validMoves: set<Move>)
      requires Valid() && IsSquare(startPosition) && PieceAt(board.Contents(), startPosition) == Some(piece)
      requires possibleMoves == PseudoMoves(board.Contents(), startPosition, piece)
      ensures LegalMoves(board.Contents(), startPosition).Some?
      ensures validMoves == Kept(possibleMoves, LegalMoves(board.Contents(), startPosition).value)
    {
      ghost var legal := LegalMoves(board.Contents(), startPosition).value;
      validMoves := {};
      for i := 0 to |possibleMoves|
        invariant validMoves == Kept(possibleMoves[..i], legal)
      {
        var move := possibleMoves[i];
        var safe := KeepsKingSafeOnCopy(startPosition, piece, move);
        KeptStep(possibleMoves, legal, i);
        if safe {
          validMoves := validMoves + {move};
        }
      }
      assert possibleMoves[..|possibleMoves|] == possibleMoves;
    }

    /**
      The filter's test for one move: the move is tried on a copy of the
      board (the piece placed on the end square, its start square cleared)
      and kept when its colour is then not in check.
    */
    method KeepsKingSafeOnCopy(startPosition: Position, piece: Piece, move: Move) returns (safe: bool)
      requires Valid() && IsSquare(startPosition) && PieceAt(board.Contents(), startPosition) == Some(piece)
      requires move in PseudoMoves(board.Contents(), startPosition, piece)
      ensures LegalMoves(board.Contents(), startPosition).Some?
      ensures safe <==> move in LegalMoves(board.Contents(), startPosition).value
    {
      ghost var b := board.Contents();
      LegalMovesMember(b, startPosition, piece, move);
      SimulateKeepsPawns(b, startPosition, piece, move);
      var tempBoard := CloneBoard();
      tempBoard.AddPiece(move.end, piece);
      tempBoard.RemovePiece(startPosition);
      assert tempBoard.Contents() == Simulate(b, startPosition, move.end, piece);
      var inCheck := IsInCheckOn(piece.color, tempBoard);
      safe := !inCheck;
    }

    /**
      Plays `move` for the colour to move. It fails, changing nothing, when
      the start square holds no piece of that colour or the move is not
      among the piece's valid moves; otherwise the piece (or its promotion)
      goes to the end square and the turn passes to the other colour.
    */
    method MakeMove(move: Move) returns (result: MoveResult)
      requires Valid() && IsSquare(move.start)
      modifies this, board.squares
      ensures Valid() && board == old(board)
      ensures result == MoveOutcome(old(board.Contents()), old(teamTurn), move)
      ensures result == Success ==>
        && IsSquare(move.end)
        && board.Contents() == Applied(old(board.Contents()), move, PieceAt(old(board.Contents()), move.start).value)
        && teamTurn == Opponent(old(teamTurn))
      ensures result != Success ==> board.Contents() == old(board.Contents()) && teamTurn == old(teamTurn)
    {
      ghost var before := board.Contents();
      var start := move.start;
      var piece := board.GetPiece(start);
      if piece.None? || piece.value.color != teamTurn {
        return Failure(NoPieceOrWrongTurn);
      }
      var validMoves := ValidMoves(start);
      if validMoves.None? || move !in validMoves.value {
        return Failure(NotALegalMove);
      }
      LegalMovesSound(before, start, move);
      var end := move.end;

      board.RemovePiece(start);
      if piece.value.kind == Pawn && (end.row == 8 || end.row == 1) && move.promotion.Some? {
        board.AddPiece(end, Piece(piece.value.color, move.promotion.value));
      } else {
        board.AddPiece(end, piece.value);
      }
      AppliedWellFormed(before, teamTurn, move);

      var inCheck := IsInCheck(piece.value.color);
      if inCheck {
        ghost var applied := board.Contents();
        board.AddPiece(start, piece.value);
        board.RemovePiece(end);
        // The scratch board of ValidMoves already showed the king safe here.
        AppliedLeavesKingSafe(before, teamTurn, move);
        assert false;
        return Failure(SelfCheckAfterApply);
      }

      teamTurn := if teamTurn == White then Black else White;
      result := Success;
    }

    method IsInCheck(teamColor: TeamColor) returns (r: bool)
      requires Valid()
      ensures r == InCheck(board.Contents(), teamColor)
    {
      r := IsInCheckOn(teamColor, board);
    }

    /** Check on any board: the first king of the colour in row-major order is attacked. */
    static method IsInCheckOn(teamColor: TeamColor, b: ChessBoard) returns (r: bool)
      requires b.Valid() && PawnsPlaced(b.Contents(), Opponent(teamColor))
      ensures r == InCheck(b.Contents(), teamColor)
    {
      var kingPosition := FindKingPosition(teamColor, b);
      match kingPosition
      case None =>
        r := false;
      case Some(king) =>
        r := IsPositionUnderAttack(king, teamColor, b);
    }

    /** In check, and no piece of the colour has a valid move. */
    method IsInCheckmate(teamColor: TeamColor) returns (r: bool)
      requires Valid()
      ensures r == Checkmate(board.Contents(), teamColor)
    {
      var inCheck := IsInCheck(teamColor);
      if !inCheck {
        return false;
      }
      r := HasNoValidMoves(teamColor);
    }

    /** Not in check, and no piece of the colour has a valid move. */
    method IsInStalemate(teamColor: TeamColor) returns (r: bool)
      requires Valid()
      ensures r == Stalemate(board.Contents(), teamColor)
    {
      var inCheck := IsInCheck(teamColor);
      if inCheck {
        return false;
      }
      r := HasNoValidMoves(teamColor);
    }

    /** The square scan shared by the checkmate and stalemate tests. */
    method HasNoValidMoves(teamColor: TeamColor) returns (r: bool)
      requires Valid()
      ensures r == NoLegalMoves(board.Contents(), teamColor)
    {
      ghost var b := board.Contents();
      for row := 1 to 9
        invariant forall p :: IsSquare(p) && p.row < row && ColorAt(b, p) == Some(teamColor) ==> LegalMoves(b, p) == Some({})
      {
        for col := 1 to 9
          invariant forall p :: IsSquare(p) && Before(p, Position(row, col)) && ColorAt(b, p) == Some(teamColor)
                                ==> LegalMoves(b, p) == Some({})
        {
          var pos := Position(row, col);
          var piece := board.GetPiece(pos);
          if piece.Some? && piece.value.color == teamColor {
            var moves := ValidMoves(pos);
            if moves.Some? && moves.value != {} {
              return false;
            }
          }
        }
      }
      return true;
    }

    /** The first square in row-major order holding the colour's king, if any. */
    static method FindKingPosition(teamColor: TeamColor, b: ChessBoard) returns (r: Option<Position>)
      requires b.Valid()
      ensures r == FirstKing(b.Contents(), teamColor)
    {
      ghost var contents := b.Contents();
      for row := 1 to 9
        invariant forall q :: IsSquare(q) && q.row < row ==> !KingAt(contents, q, teamColor)
      {
        for col := 1 to 9
          invariant forall q :: IsSquare(q) && Before(q, Position(row, col)) ==> !KingAt(contents, q, teamColor)
        {
          var pos := Position(row, col);
          var piece := b.GetPiece(pos);
          if piece.Some? && piece.value.kind == King && piece.value.color == teamColor {
            FirstKingIsFirst(contents, teamColor, pos);
            return Some(pos);
          }
        }
      }
      FirstKingNone(contents, teamColor);
      return None;
    }

    /** Whether a piece not of `teamColor` has a move ending on `position`. */
    static method IsPositionUnderAttack(position: Position, teamColor: TeamColor, b: ChessBoard) returns (r: bool)
      requires b.Valid() && PawnsPlaced(b.Contents(), Opponent(teamColor))
      ensures r == UnderAttack(b.Contents(), position, teamColor)
    {
      ghost var contents := b.Contents();
      for row := 1 to 9
        invariant !AttackedBefore(contents, position, teamColor, row, 1)
      {
        for col := 1 to 9
          invariant !AttackedBefore(contents, position, teamColor, row, col)
        {
          var attacks := AttacksFrom(Position(row, col), position, teamColor, b);
          if attacks {
            UnderAttackScan(contents, position, teamColor);
            return true;
          }
        }
      }
      UnderAttackScan(contents, position, teamColor);
      return false;
    }

    /** The body of the attack scan for one square: an enemy piece there with a move ending on `position`. */
    static method AttacksFrom(pos: Position, position: Position, teamColor: TeamColor, b: ChessBoard) returns (r: bool)
      requires b.Valid() && IsSquare(pos) && PawnsPlaced(b.Contents(), Opponent(teamColor))
      ensures r == AttackerAt(b.Contents(), pos, position, teamColor)
    {
      var piece := b.GetPiece(pos);
      if piece.Some? && piece.value.color != teamColor {
        var moves := PieceMoves.PieceMoves(piece.value, b, pos);
        for i := 0 to |moves|
          invariant forall k :: 0 <= k < i ==> moves[k].end != position
        {
          if moves[i].end == position {
            return true;
          }
        }
      }
      return false;
    }

    /** A fresh board holding a copy of every piece of the game's board. */
    method CloneBoard() returns (newBoard: ChessBoard)
      requires board.Valid()
      ensures fresh(newBoard) && fresh(newBoard.squares) && newBoard.Valid()
      ensures newBoard.Contents() == board.Contents()
    {
      newBoard := new ChessBoard();
      for row := 1 to 9
        invariant newBoard.Valid() && fresh(newBoard.squares)
        invariant forall p :: IsSquare(p) ==>
          PieceAt(newBoard.Contents(), p) == if p.row < row then PieceAt(board.Contents(), p) else None
      {
        for col := 1 to 9
          invariant newBoard.Valid() && fresh(newBoard.squares)
          invariant forall p :: IsSquare(p) ==>
            PieceAt(newBoard.Contents(), p) == if Before(p, Position(row, col)) then PieceAt(board.Contents(), p) else None
        {
          var pos := Position(row, col);
          var piece := board.GetPiece(pos);
          if piece.Some? {
            newBoard.AddPiece(pos, Piece(piece.value.color, piece.value.kind));
          } else {
            newBoard.RemovePiece(pos);
          }
        }
      }
      BoardsEqual(newBoard.Contents(), board.Contents());
    }
  }
}
