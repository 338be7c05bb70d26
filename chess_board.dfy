/** The ChessBoard object: the board, the side to move and the two king caches, updated in place. */
module ChessGame {
  import opened ChessTypes
  import opened Notation
  import opened Rules
  import opened Engine

  /** The sixteen back-rank writes, in the order the board initialization makes them. */
  function BackRanksOver(g: Grid): Grid {
    var g := SetAt(SetAt(SetAt(SetAt(g, Coord(0, 0), ChessPiece(Rook, White)), Coord(0, 7), ChessPiece(Rook, White)),
                         Coord(7, 0), ChessPiece(Rook, Black)), Coord(7, 7), ChessPiece(Rook, Black));
    var g := SetAt(SetAt(SetAt(SetAt(g, Coord(0, 1), ChessPiece(Knight, White)), Coord(0, 6), ChessPiece(Knight, White)),
                         Coord(7, 1), ChessPiece(Knight, Black)), Coord(7, 6), ChessPiece(Knight, Black));
    var g := SetAt(SetAt(SetAt(SetAt(g, Coord(0, 2), ChessPiece(Bishop, White)), Coord(0, 5), ChessPiece(Bishop, White)),
                         Coord(7, 2), ChessPiece(Bishop, Black)), Coord(7, 5), ChessPiece(Bishop, Black));
    var g := SetAt(SetAt(g, Coord(0, 3), ChessPiece(Queen, White)), Coord(7, 3), ChessPiece(Queen, Black));
    SetAt(SetAt(g, Coord(0, 4), ChessPiece(King, White)), Coord(7, 4), ChessPiece(King, Black))
  }

  /** The back-rank writes set ranks 1 and 8 to the starting arrangement and keep every other square. */
  lemma BackRanksOverAt(g: Grid)
    ensures forall c :: OnBoard(c) ==>
              At(BackRanksOver(g), c) == if c.rank == 0 || c.rank == 7 then StartingPiece(c.rank, c.file) else At(g, c)
  {
    forall c | OnBoard(c)
      ensures At(BackRanksOver(g), c) == if c.rank == 0 || c.rank == 7 then StartingPiece(c.rank, c.file) else At(g, c)
    {
    }
  }

  /** Pawn ranks written over g0, then the back ranks, give the starting arrangement over g0. */
  lemma PawnsThenBackRanks(g0: Grid, g1: Grid)
    requires forall c :: OnBoard(c) ==>
               At(g1, c) == if c.rank == 1 || c.rank == 6 then StartingPiece(c.rank, c.file) else At(g0, c)
    ensures BackRanksOver(g1) == Initialized(g0)
  {
    BackRanksOverAt(g1);
    GridExt(BackRanksOver(g1), Initialized(g0));
  }

  class ChessBoard {
    var board: Grid
    var currentPlayer: PieceColor
    var whiteKingPosition: Coord
    var blackKingPosition: Coord

    /** The object's fields as a value. */
    ghost function State(): GameState
      reads this
    {
      GameState(board, currentPlayer, whiteKingPosition, blackKingPosition)
    }

    /** The invariant of a game in progress (it holds once the board is initialized). */
    ghost predicate Valid()
      reads this
    {
      ValidGame(State())
    }

    /** An empty board, White to move, kings cached at e1 and e8. */
    constructor ()
      ensures State() == FreshState()
    {
      board := EmptyGrid();
      currentPlayer := White;
      whiteKingPosition := Coord(0, 4);
      blackKingPosition := Coord(7, 4);
    }

    /** Writes one square of the board. */
    method SetSquare(c: Coord, piece: ChessPiece)
      requires OnBoard(c)
      modifies this
      ensures board == SetAt(old(board), c, piece)
      ensures currentPlayer == old(currentPlayer)
      ensures whiteKingPosition == old(whiteKingPosition) && blackKingPosition == old(blackKingPosition)
    {
      board := SetAt(board, c, piece);
    }

    /** Writes the standard arrangement over ranks 1, 2, 7 and 8; the middle ranks are left as they are. */
    method InitializeBoard()
      modifies this
      ensures board == Initialized(old(board))
      ensures currentPlayer == old(currentPlayer)
      ensures whiteKingPosition == old(whiteKingPosition) && blackKingPosition == old(blackKingPosition)
      ensures old(State()) == FreshState() ==> State() == StartingState() && Valid()
    {
      ghost var g0 := board;
      for i := 0 to BoardSize
        invariant currentPlayer == old(currentPlayer)
        invariant whiteKingPosition == old(whiteKingPosition) && blackKingPosition == old(blackKingPosition)
        invariant forall c :: OnBoard(c) ==>
                    At(board, c) == if (c.rank == 1 || c.rank == 6) && c.file < i then StartingPiece(c.rank, c.file)
                                    else At(g0, c)
      {
        SetSquare(Coord(1, i), ChessPiece(Pawn, White));
        SetSquare(Coord(6, i), ChessPiece(Pawn, Black));
      }

      ghost var g1 := board;
      SetSquare(Coord(0, 0), ChessPiece(Rook, White));
      SetSquare(Coord(0, 7), ChessPiece(Rook, White));
      SetSquare(Coord(7, 0), ChessPiece(Rook, Black));
      SetSquare(Coord(7, 7), ChessPiece(Rook, Black));

      SetSquare(Coord(0, 1), ChessPiece(Knight, White));
      SetSquare(Coord(0, 6), ChessPiece(Knight, White));
      SetSquare(Coord(7, 1), ChessPiece(Knight, Black));
      SetSquare(Coord(7, 6), ChessPiece(Knight, Black));

      SetSquare(Coord(0, 2), ChessPiece(Bishop, White));
      SetSquare(Coord(0, 5), ChessPiece(Bishop, White));
      SetSquare(Coord(7, 2), ChessPiece(Bishop, Black));
      SetSquare(Coord(7, 5), ChessPiece(Bishop, Black));

      SetSquare(Coord(0, 3), ChessPiece(Queen, White));
      SetSquare(Coord(7, 3), ChessPiece(Queen, Black));

      SetSquare(Coord(0, 4), ChessPiece(King, White));
      SetSquare(Coord(7, 4), ChessPiece(King, Black));

      assert board == BackRanksOver(g1);
      PawnsThenBackRanks(g0, g1);
      if old(State()) == FreshState() {
        StartingStateValid();
      }
    }

    /** Rank or file move: scans the squares strictly between, then tests the destination's colour. */
    method ValidateRookMove(src: Coord, dst: Coord) returns (ok: bool)
      requires OnBoard(src) && OnBoard(dst) && src != dst
      ensures ok == RookMoveOk(board, currentPlayer, src, dst)
    {
      if src.rank == dst.rank || src.file == dst.file {
        if src.rank == dst.rank {
          var step := if dst.file > src.file then 1 else -1;
          var file := src.file + step;
          ghost var k := 1;
          while file != dst.file
            invariant 1 <= k <= Distance(src, dst)
            invariant Between(src, dst, k) == Coord(src.rank, file)
            invariant forall j :: 0 < j < k ==> At(board, Between(src, dst, j)).kind == Empty
            decreases Distance(src, dst) - k
          {
            if board[src.rank][file].kind != Empty {
              return false;
            }
            file := file + step;
            k := k + 1;
          }
        }
        if src.file == dst.file {
          var step := if dst.rank > src.rank then 1 else -1;
          var rank := src.rank + step;
          ghost var k := 1;
          while rank != dst.rank
            invariant 1 <= k <= Distance(src, dst)
            invariant Between(src, dst, k) == Coord(rank, src.file)
            invariant forall j :: 0 < j < k ==> At(board, Between(src, dst, j)).kind == Empty
            decreases Distance(src, dst) - k
          {
            if board[rank][src.file].kind != Empty {
              return false;
            }
            rank := rank + step;
            k := k + 1;
          }
        }
        return board[dst.rank][dst.file].color != currentPlayer;
      }
      return false;
    }

    /** Diagonal move: scans the squares strictly between, then tests the destination's colour. */
    method ValidateBishopMove(src: Coord, dst: Coord) returns (ok: bool)
      requires OnBoard(src) && OnBoard(dst) && src != dst
      ensures ok == BishopMoveOk(board, currentPlayer, src, dst)
    {
      if Abs(dst.rank - src.rank) == Abs(dst.file - src.file) {
        assert Distance(src, dst) == Abs(dst.rank - src.rank);
        var rankStep := if dst.rank > src.rank then 1 else -1;
        var fileStep := if dst.file > src.file then 1 else -1;
        var rank, file := src.rank + rankStep, src.file + fileStep;
        ghost var k := 1;
        while rank != dst.rank
          invariant 1 <= k <= Distance(src, dst)
          invariant Between(src, dst, k) == Coord(rank, file)
          invariant forall j :: 0 < j < k ==> At(board, Between(src, dst, j)).kind == Empty
          decreases Distance(src, dst) - k
        {
          if board[rank][file].kind != Empty {
            return false;
          }
          rank, file := rank + rankStep, file + fileStep;
          k := k + 1;
        }
        return board[dst.rank][dst.file].color != currentPlayer;
      }
      return false;
    }

    /** Rook first; when the rook rule refuses, the bishop rule decides. */
    method ValidateQueenMove(src: Coord, dst: Coord) returns (ok: bool)
      requires OnBoard(src) && OnBoard(dst) && src != dst
      ensures ok == QueenMoveOk(board, currentPlayer, src, dst)
    {
      QueenIsRookOrBishop(board, currentPlayer, src, dst);
      ok := ValidateRookMove(src, dst);
      if !ok {
        ok := ValidateBishopMove(src, dst);
      }
    }

    /** Bounds, ownership of both squares, then the rule of the moving piece. */
    method ValidateMove(src: Coord, dst: Coord) returns (r: Outcome)
      requires IsPlayer(currentPlayer)
      ensures r == Rules.ValidateMove(board, currentPlayer, src, dst)
    {
      if !OnBoard(src) {
        return Fail(OutsideBoard);
      }
      if !OnBoard(dst) {
        return Fail(OutsideBoard);
      }
      var sourcePiece := board[src.rank][src.file];
      var destPiece := board[dst.rank][dst.file];
      if sourcePiece.color != currentPlayer {
        return Fail(InvalidMove);
      }
      if destPiece.color == currentPlayer {
        return Fail(InvalidMove);
      }
      var ok: bool;
      match sourcePiece.kind {
        case Pawn => ok := PawnMoveOk(board, currentPlayer, src, dst);
        case Rook => ok := ValidateRookMove(src, dst);
        case Knight => ok := KnightMoveOk(board, currentPlayer, src, dst);
        case Bishop => ok := ValidateBishopMove(src, dst);
        case Queen => ok := ValidateQueenMove(src, dst);
        case King => ok := KingMoveOk(board, currentPlayer, src, dst);
        case Empty => ok := false;
      }
      r := if ok then Pass else Fail(InvalidMove);
    }

    /** The cached king square of a colour; in a valid game it holds that colour's king. */
    function GetKingPosition(color: PieceColor): (p: Coord)
      reads this
      ensures p == KingPos(State(), color)
      ensures Valid() && IsPlayer(color) ==> OnBoard(p) && At(board, p) == ChessPiece(King, color)
    {
      if color == White then whiteKingPosition else blackKingPosition
    }

    /** Moves the king cache of a colour to pos. */
    method UpdateKingPosition(pos: Coord, color: PieceColor)
      modifies this
      ensures State() == WithKing(old(State()), color, pos)
    {
      if color == White {
        whiteKingPosition := pos;
      } else {
        blackKingPosition := pos;
      }
    }

    /** Passes the turn to the other player. */
    method SwitchTurn()
      requires IsPlayer(currentPlayer)
      modifies this
      ensures State() == old(State()).(turn := GetOpponent(old(currentPlayer)))
    {
      currentPlayer := GetOpponent(currentPlayer);
    }

    /** Whether the side to move stands in check; the turn is flipped for the scan and flipped back. */
    method IsCheck() returns (check: bool)
      requires IsPlayer(currentPlayer)
      modifies this
      ensures State() == old(State())
      ensures check == InCheck(old(State()))
    {
      ghost var s0 := State();
      ghost var target := KingPos(s0, s0.turn);
      SwitchTurn();
      for i := 0 to BoardSize
        invariant State() == s0.(turn := GetOpponent(s0.turn))
        invariant forall r, f :: 0 <= r < i && 0 <= f < BoardSize ==>
                    Rules.ValidateMove(board, currentPlayer, Coord(r, f), target) != Pass
      {
        for j := 0 to BoardSize
          invariant State() == s0.(turn := GetOpponent(s0.turn))
          invariant forall r, f :: ((0 <= r < i && 0 <= f < BoardSize) || (r == i && 0 <= f < j)) ==>
                      Rules.ValidateMove(board, currentPlayer, Coord(r, f), target) != Pass
        {
          var v := ValidateMove(Coord(i, j), GetKingPosition(GetOpponent(currentPlayer)));
          if v == Pass {
            SwitchTurn();
            return true;
          }
        }
      }
      SwitchTurn();
      return false;
    }

    /** Parses and validates the move, applies it, and rolls it back when the mover stands in check;
        otherwise the turn passes. */
    method MakeMove(move: string) returns (r: Outcome)
      requires Valid()
      modifies this
      ensures Valid()
      ensures r == MoveOutcome(old(State()), move)
      ensures State() == Play(old(State()), move)
    {
      ghost var s0 := State();
      r := ValidateMoveFormat(move);
      if r != Pass {
        return;
      }
      var m := ConvertAlgebraicToCoords(move);
      var source, dest := m.source, m.dest;
      r := ValidateMove(source, dest);
      if r != Pass {
        return;
      }

      var sourcePiece := board[source.rank][source.file];
      var destPiece := board[dest.rank][dest.file];
      SetSquare(source, EmptySquare);
      SetSquare(dest, sourcePiece);
      if sourcePiece.kind == King {
        UpdateKingPosition(dest, sourcePiece.color);
      }
      assert State() == Apply(s0, source, dest);

      var check := IsCheck();
      if check {
        SetSquare(source, sourcePiece);
        SetSquare(dest, destPiece);
        if sourcePiece.kind == King {
          UpdateKingPosition(source, sourcePiece.color);
        }
        UndoApply(s0, source, dest);
        return Fail(InvalidMove);
      }

      SwitchTurn();
      CommitPreservesValid(s0, source, dest);
    }

    /** Tries one move: when it is legal it is played on the board, the mover's check is tested and the
        move is undone. True when the move is legal and leaves the mover out of check. */
    method TryMove(source: Coord, dest: Coord) returns (escape: bool)
      requires Valid()
      modifies this
      ensures State() == old(State())
      ensures escape == EscapeVia(old(State()), source, dest)
    {
      ghost var s0 := State();
      var v := ValidateMove(source, dest);
      if v != Pass {
        return false;
      }
      var sourcePiece := board[source.rank][source.file];
      var destPiece := board[dest.rank][dest.file];
      SetSquare(source, EmptySquare);
      SetSquare(dest, sourcePiece);
      if sourcePiece.kind == King {
        UpdateKingPosition(dest, currentPlayer);
      }
      assert State() == Apply(s0, source, dest);

      var check := IsCheck();
      SetSquare(source, sourcePiece);
      SetSquare(dest, destPiece);
      if sourcePiece.kind == King {
        UpdateKingPosition(source, currentPlayer);
      }
      UndoApply(s0, source, dest);
      return !check;
    }

    /** True when no move of the side to move, tried on the board and undone, leaves it out of check.
        The board, the king caches and the turn come back as they were. */
    method IsCheckmate() returns (mate: bool)
      requires Valid()
      modifies this
      ensures State() == old(State())
      ensures mate == !HasEscape(old(State()))
    {
      ghost var s0 := State();
      for i := 0 to BoardSize
        invariant State() == s0
        invariant forall a, b :: 0 <= a < i && 0 <= b < BoardSize ==> !EscapeFrom(s0, Coord(a, b))
      {
        for j := 0 to BoardSize
          invariant State() == s0
          invariant forall a, b :: ((0 <= a < i && 0 <= b < BoardSize) || (a == i && 0 <= b < j)) ==>
                      !EscapeFrom(s0, Coord(a, b))
        {
          var source := Coord(i, j);
          var sourcePiece := board[i][j];
          if sourcePiece.color == currentPlayer {
            for k := 0 to BoardSize
              invariant State() == s0
              invariant forall c, d :: 0 <= c < k && 0 <= d < BoardSize ==> !EscapeVia(s0, source, Coord(c, d))
            {
              for l := 0 to BoardSize
                invariant State() == s0
                invariant forall c, d :: ((0 <= c < k && 0 <= d < BoardSize) || (c == k && 0 <= d < l)) ==>
                            !EscapeVia(s0, source, Coord(c, d))
              {
                var escape := TryMove(source, Coord(k, l));
                if escape {
                  return false;
                }
              }
            }
          }
        }
      }
      return true;
    }
  }
}
