/** The game state as a value: threat detection, applying and committing a move, the checkmate search
    and the invariant that a well-run game keeps. */
module Engine {
  import opened ChessTypes
  import opened Notation
  import opened Rules

  /** The board, the side to move and the cached square of each king. */
  datatype GameState = GameState(grid: Grid, turn: PieceColor, whiteKing: Coord, blackKing: Coord)

  /** The cached king square of a colour; any colour but White reads Black's. */
  function KingPos(s: GameState, color: PieceColor): Coord {
    if color == White then s.whiteKing else s.blackKing
  }

  /** The state with the king cache of a colour set to pos; any colour but White writes Black's. */
  function WithKing(s: GameState, color: PieceColor, pos: Coord): (t: GameState)
    ensures t.grid == s.grid && t.turn == s.turn
    ensures color == White ==> t.whiteKing == pos && t.blackKing == s.blackKing
    ensures color != White ==> t.blackKing == pos && t.whiteKing == s.whiteKing
  {
    if color == White then s.(whiteKing := pos) else s.(blackKing := pos)
  }

  /** Some piece of `side` may legally move onto target. */
  ghost function Attacked(g: Grid, side: PieceColor, target: Coord): (a: bool)
    requires IsPlayer(side)
    ensures a ==> OnBoard(target) && At(g, target).color != side
  {
    exists r, f :: 0 <= r < BoardSize && 0 <= f < BoardSize && ValidateMove(g, side, Coord(r, f), target) == Pass
  }

  /** The side to move is in check: the opponent reaches its cached king square. */
  ghost function InCheck(s: GameState): (c: bool)
    requires IsPlayer(s.turn)
    ensures c ==> OnBoard(KingPos(s, s.turn)) && At(s.grid, KingPos(s, s.turn)).color != GetOpponent(s.turn)
  {
    Attacked(s.grid, GetOpponent(s.turn), KingPos(s, s.turn))
  }

  /** The piece on src moves to dst, src is cleared, and a moving king updates its colour's cache.
      The turn does not change. */
  function Apply(s: GameState, src: Coord, dst: Coord): (t: GameState)
    requires OnBoard(src) && OnBoard(dst)
    ensures t.turn == s.turn
    ensures forall c :: OnBoard(c) ==>
              At(t.grid, c) == if c == dst then At(s.grid, src) else if c == src then EmptySquare else At(s.grid, c)
    ensures var p := At(s.grid, src);
            t.whiteKing == (if p.kind == King && p.color == White then dst else s.whiteKing) &&
            t.blackKing == (if p.kind == King && p.color != White then dst else s.blackKing)
  {
    var piece := At(s.grid, src);
    var grid := SetAt(SetAt(s.grid, src, EmptySquare), dst, piece);
    if piece.kind == King then WithKing(s.(grid := grid), piece.color, dst) else s.(grid := grid)
  }

  /** A move that passed every test: applied, then the turn passes to the opponent. */
  function Commit(s: GameState, src: Coord, dst: Coord): (t: GameState)
    requires OnBoard(src) && OnBoard(dst) && IsPlayer(s.turn)
    ensures IsPlayer(t.turn) && t.turn != s.turn
    ensures forall c :: OnBoard(c) ==>
              At(t.grid, c) == if c == dst then At(s.grid, src) else if c == src then EmptySquare else At(s.grid, c)
    ensures var p := At(s.grid, src);
            t.whiteKing == (if p.kind == King && p.color == White then dst else s.whiteKing) &&
            t.blackKing == (if p.kind == King && p.color != White then dst else s.blackKing)
  {
    Apply(s, src, dst).(turn := GetOpponent(s.turn))
  }

  /** What an attempt to play the move text returns: a format error, a bounds or rule error,
      an illegal move when the mover would stand in check, or success. */
  ghost function MoveOutcome(s: GameState, move: string): (r: Outcome)
    requires IsPlayer(s.turn)
    ensures r == Fail(InvalidFormat) <==> ValidateMoveFormat(move) != Pass
    ensures r == Fail(OutsideBoard) <==>
              ValidateMoveFormat(move) == Pass &&
              !(OnBoard(ConvertAlgebraicToCoords(move).source) && OnBoard(ConvertAlgebraicToCoords(move).dest))
  {
    if ValidateMoveFormat(move) != Pass then ValidateMoveFormat(move)
    else
      var m := ConvertAlgebraicToCoords(move);
      var v := ValidateMove(s.grid, s.turn, m.source, m.dest);
      if v != Pass then v
      else if InCheck(Apply(s, m.source, m.dest)) then Fail(InvalidMove)
      else Pass
  }

  /** The state after an attempt to play the move text: committed on success, untouched otherwise. */
  ghost function Play(s: GameState, move: string): (t: GameState)
    requires IsPlayer(s.turn)
    ensures IsPlayer(t.turn)
    ensures MoveOutcome(s, move) == Pass <==> t.turn != s.turn
    ensures MoveOutcome(s, move) != Pass ==> t == s
  {
    if MoveOutcome(s, move) == Pass then
      var m := ConvertAlgebraicToCoords(move);
      Commit(s, m.source, m.dest)
    else s
  }

  /** Every square is consistent: empty exactly when it has no colour. */
  ghost predicate WellFormed(g: Grid) {
    forall c :: OnBoard(c) ==> (At(g, c).kind == Empty <==> At(g, c).color == NoColor)
  }

  /** pos is on the board, holds the king of color, and no other square does. */
  ghost predicate KingCached(g: Grid, color: PieceColor, pos: Coord) {
    OnBoard(pos) && At(g, pos) == ChessPiece(King, color) &&
    forall c :: OnBoard(c) && At(g, c) == ChessPiece(King, color) ==> c == pos
  }

  /** The invariant of a game in progress: a player to move, consistent squares, each king cache
      pointing at that side's only king, and the side that just moved not left in check. */
  ghost predicate ValidGame(s: GameState) {
    IsPlayer(s.turn) && WellFormed(s.grid) &&
    KingCached(s.grid, White, s.whiteKing) && KingCached(s.grid, Black, s.blackKing) &&
    !Attacked(s.grid, s.turn, KingPos(s, GetOpponent(s.turn)))
  }

  /** A legal move of the side to move after which it is not in check. */
  ghost predicate EscapeVia(s: GameState, src: Coord, dst: Coord)
    requires IsPlayer(s.turn)
  {
    ValidateMove(s.grid, s.turn, src, dst) == Pass && !InCheck(Apply(s, src, dst))
  }

  /** Some move from src does not leave the side to move in check. */
  ghost predicate EscapeFrom(s: GameState, src: Coord)
    requires IsPlayer(s.turn)
  {
    exists k, l :: 0 <= k < BoardSize && 0 <= l < BoardSize && EscapeVia(s, src, Coord(k, l))
  }

  /** The side to move has some move that does not leave it in check. */
  ghost predicate HasEscape(s: GameState)
    requires IsPlayer(s.turn)
  {
    exists r, f :: 0 <= r < BoardSize && 0 <= f < BoardSize && EscapeFrom(s, Coord(r, f))
  }

  /** The back-rank piece on a file: rooks, knights, bishops, then queen and king. */
  function BackRankPiece(file: int): PieceType {
    if file == 0 || file == 7 then Rook
    else if file == 1 || file == 6 then Knight
    else if file == 2 || file == 5 then Bishop
    else if file == 3 then Queen
    else King
  }

  /** The ranks that the standard arrangement fills. */
  predicate IsHomeRank(rank: int) {
    rank == 0 || rank == 1 || rank == 6 || rank == 7
  }

  /** The standard starting arrangement, square by square. */
  function StartingPiece(rank: int, file: int): ChessPiece {
    if rank == 1 then ChessPiece(Pawn, White)
    else if rank == 6 then ChessPiece(Pawn, Black)
    else if rank == 0 then ChessPiece(BackRankPiece(file), White)
    else if rank == 7 then ChessPiece(BackRankPiece(file), Black)
    else EmptySquare
  }

  /** The board after the arrangement is written over g: the home ranks are set, the others kept. */
  function Initialized(g: Grid): (h: Grid)
    ensures forall c :: OnBoard(c) ==>
              At(h, c) == if IsHomeRank(c.rank) then StartingPiece(c.rank, c.file) else At(g, c)
  {
    seq(BoardSize, r requires 0 <= r < BoardSize =>
      seq(BoardSize, f requires 0 <= f < BoardSize => if IsHomeRank(r) then StartingPiece(r, f) else g[r][f]))
  }

  /** The state the constructor leaves: no pieces, White to move, kings cached at e1 and e8. */
  function FreshState(): GameState {
    GameState(EmptyGrid(), White, Coord(0, 4), Coord(7, 4))
  }

  /** The state once the arrangement is written onto a fresh board. */
  function StartingState(): GameState {
    FreshState().(grid := Initialized(EmptyGrid()))
  }

  /** The constructor alone does not give a valid game: the cached king squares are empty. */
  lemma FreshStateNotValid()
    ensures !ValidGame(FreshState())
  {
    assert At(FreshState().grid, Coord(0, 4)) == EmptySquare;
  }

  lemma StartingAt(c: Coord)
    requires OnBoard(c)
    ensures At(StartingState().grid, c) == StartingPiece(c.rank, c.file)
  {
  }

  /** No White piece reaches e8 from the starting arrangement. */
  lemma StartingBlackKingSafe()
    ensures !Attacked(StartingState().grid, White, Coord(7, 4))
  {
    var g := StartingState().grid;
    forall r, f | 0 <= r < BoardSize && 0 <= f < BoardSize
      ensures ValidateMove(g, White, Coord(r, f), Coord(7, 4)) != Pass
    {
      StartingAt(Coord(r, f));
      StartingAt(Coord(7, 4));
    }
  }

  lemma StartingWellFormed()
    ensures WellFormed(StartingState().grid)
  {
    forall c | OnBoard(c)
      ensures At(StartingState().grid, c).kind == Empty <==> At(StartingState().grid, c).color == NoColor
    {
      StartingAt(c);
    }
  }

  lemma StartingKingsCached()
    ensures KingCached(StartingState().grid, White, Coord(0, 4))
    ensures KingCached(StartingState().grid, Black, Coord(7, 4))
  {
    StartingAt(Coord(0, 4));
    StartingAt(Coord(7, 4));
    forall c | OnBoard(c)
      ensures At(StartingState().grid, c) == StartingPiece(c.rank, c.file)
    {
      StartingAt(c);
    }
  }

  /** The starting position satisfies the invariant of a game in progress. */
  lemma StartingStateValid()
    ensures ValidGame(StartingState())
  {
    StartingWellFormed();
    StartingKingsCached();
    StartingBlackKingSafe();
  }

  /** After 1. e4 no Black piece reaches White's king on e1. */
  lemma OpeningKingSafe()
    ensures !Attacked(Apply(StartingState(), Coord(1, 4), Coord(3, 4)).grid, Black, Coord(0, 4))
  {
    var g := Apply(StartingState(), Coord(1, 4), Coord(3, 4)).grid;
    forall r, f | 0 <= r < BoardSize && 0 <= f < BoardSize
      ensures ValidateMove(g, Black, Coord(r, f), Coord(0, 4)) != Pass
    {
      StartingAt(Coord(r, f));
      StartingAt(Coord(0, 4));
    }
  }

  /** From the starting position "e2 e4" is accepted: the pawn stands on e4, e2 is empty and Black moves.
      Typing the same text again is refused, since e2 no longer holds a piece of the side to move. */
  lemma OpeningMove()
    ensures MoveOutcome(StartingState(), "e2 e4") == Pass
    ensures var t := Play(StartingState(), "e2 e4");
            t.turn == Black && At(t.grid, Coord(3, 4)) == ChessPiece(Pawn, White) &&
            At(t.grid, Coord(1, 4)) == EmptySquare &&
            MoveOutcome(t, "e2 e4") == Fail(InvalidMove)
  {
    FormatExamples();
    var s := StartingState();
    StartingAt(Coord(1, 4));
    StartingAt(Coord(2, 4));
    StartingAt(Coord(3, 4));
    assert ValidateMove(s.grid, White, Coord(1, 4), Coord(3, 4)) == Pass;
    OpeningKingSafe();
  }

  /** Text that passes the lexical check can still name a square off the board: upper-case letters and
      out-of-range letters are refused by the bounds check, before any rule is consulted. */
  lemma LexicalThenBounds()
    ensures MoveOutcome(StartingState(), "E2 E4") == Fail(OutsideBoard)
    ensures MoveOutcome(StartingState(), "i9 e4") == Fail(OutsideBoard)
  {
    FormatExamples();
  }

  /** Undoing an applied move square by square, and the king cache back to src, gives the state back. */
  lemma UndoApply(s: GameState, src: Coord, dst: Coord)
    requires ValidGame(s) && ValidateMove(s.grid, s.turn, src, dst) == Pass
    ensures var t := Apply(s, src, dst);
            SetAt(SetAt(t.grid, src, At(s.grid, src)), dst, At(s.grid, dst)) == s.grid
    ensures At(s.grid, src).kind == King ==>
              WithKing(Apply(s, src, dst), s.turn, src).(grid := s.grid) == s && At(s.grid, src).color == s.turn
    ensures At(s.grid, src).kind != King ==> Apply(s, src, dst).(grid := s.grid) == s
  {
    var t := Apply(s, src, dst);
    GridExt(SetAt(SetAt(t.grid, src, At(s.grid, src)), dst, At(s.grid, dst)), s.grid);
    if At(s.grid, src).kind == King {
      assert At(s.grid, src) == ChessPiece(King, s.turn);
      assert KingPos(s, s.turn) == src;
    }
  }

  /** A committed move keeps the invariant: the mover was not left in check, so no king can be captured
      and both caches still point at their kings. */
  lemma CommitPreservesValid(s: GameState, src: Coord, dst: Coord)
    requires ValidGame(s)
    requires ValidateMove(s.grid, s.turn, src, dst) == Pass
    requires !InCheck(Apply(s, src, dst))
    ensures ValidGame(Commit(s, src, dst))
  {
    var mover := s.turn;
    var other := GetOpponent(mover);
    var piece := At(s.grid, src);
    var t := Commit(s, src, dst);
    assert src == Coord(src.rank, src.file);
    assert dst != KingPos(s, other);
    assert t.turn == other && GetOpponent(other) == mover;
    assert KingCached(t.grid, mover, KingPos(t, mover)) by {
      if piece.kind == King {
        assert KingPos(s, mover) == src;
      } else {
        assert KingPos(s, mover) != dst && KingPos(s, mover) != src;
      }
    }
    assert KingCached(t.grid, other, KingPos(t, other)) by {
      assert KingPos(t, other) == KingPos(s, other);
    }
    assert KingCached(t.grid, White, t.whiteKing) && KingCached(t.grid, Black, t.blackKing);
  }

  /** Attempting a move never breaks the invariant, whether it is committed or rejected. */
  lemma PlayPreservesValid(s: GameState, move: string)
    requires ValidGame(s)
    ensures ValidGame(Play(s, move))
  {
    if MoveOutcome(s, move) == Pass {
      var m := ConvertAlgebraicToCoords(move);
      CommitPreservesValid(s, m.source, m.dest);
    }
  }

  /** An accepted move changes only its two squares, moves the king cache only when a king moved,
      and passes the turn; a rejected one changes nothing. */
  lemma PlayFrame(s: GameState, move: string)
    requires IsPlayer(s.turn)
    ensures MoveOutcome(s, move) != Pass ==> Play(s, move) == s
    ensures MoveOutcome(s, move) == Pass ==>
      var m := ConvertAlgebraicToCoords(move);
      var t := Play(s, move);
      var p := At(s.grid, m.source);
      t.turn == GetOpponent(s.turn) && m.source != m.dest &&
      At(t.grid, m.source) == EmptySquare && At(t.grid, m.dest) == p &&
      (forall c :: OnBoard(c) && c != m.source && c != m.dest ==> At(t.grid, c) == At(s.grid, c)) &&
      (p.kind == King ==> KingPos(t, s.turn) == m.dest && KingPos(t, GetOpponent(s.turn)) == KingPos(s, GetOpponent(s.turn))) &&
      (p.kind != King ==> t.whiteKing == s.whiteKing && t.blackKing == s.blackKing)
  {
  }

  /** In a valid game an accepted move never lands on the opponent's king. */
  lemma NoKingCapture(s: GameState, move: string)
    requires ValidGame(s) && MoveOutcome(s, move) == Pass
    ensures ConvertAlgebraicToCoords(move).dest != KingPos(s, GetOpponent(s.turn))
    ensures At(s.grid, ConvertAlgebraicToCoords(move).dest).kind != King
  {
    var m := ConvertAlgebraicToCoords(move);
    assert m.source == Coord(m.source.rank, m.source.file);
  }

  /** A move escapes check exactly when the engine would accept its text. */
  lemma EscapeIffAccepted(s: GameState, m: Move)
    requires IsPlayer(s.turn) && OnBoard(m.source) && OnBoard(m.dest)
    ensures EscapeVia(s, m.source, m.dest) <==> MoveOutcome(s, MoveText(m)) == Pass
  {
    ParseMoveText(m);
  }

  /** Black to move with the king on a8; White has a queen on b6 and the king on e1. */
  function StalemateState(): GameState {
    var g := SetAt(SetAt(SetAt(EmptyGrid(), Coord(7, 0), ChessPiece(King, Black)),
                         Coord(5, 1), ChessPiece(Queen, White)), Coord(0, 4), ChessPiece(King, White));
    GameState(g, Black, Coord(0, 4), Coord(7, 0))
  }

  lemma StalemateAt(c: Coord)
    requires OnBoard(c)
    ensures At(StalemateState().grid, c) ==
              if c == Coord(7, 0) then ChessPiece(King, Black)
              else if c == Coord(5, 1) then ChessPiece(Queen, White)
              else if c == Coord(0, 4) then ChessPiece(King, White)
              else EmptySquare
  {
  }

  /** The stalemate position is a valid game in which Black is not in check. */
  lemma StalemateValidNotInCheck()
    ensures ValidGame(StalemateState()) && !InCheck(StalemateState())
  {
    var g := StalemateState().grid;
    forall c | OnBoard(c)
      ensures At(g, c).kind == Empty <==> At(g, c).color == NoColor
      ensures At(g, c).kind == King ==> c == Coord(7, 0) || c == Coord(0, 4)
    {
      StalemateAt(c);
    }
    forall r, f | 0 <= r < BoardSize && 0 <= f < BoardSize
      ensures ValidateMove(g, White, Coord(r, f), Coord(7, 0)) != Pass
      ensures ValidateMove(g, Black, Coord(r, f), Coord(0, 4)) != Pass
    {
      StalemateAt(Coord(r, f));
      StalemateAt(Coord(7, 0));
      StalemateAt(Coord(0, 4));
    }
  }

  /** Each step of the Black king lands on a square the queen reaches. */
  lemma StalemateKingStepChecked(dst: Coord)
    requires dst == Coord(6, 0) || dst == Coord(6, 1) || dst == Coord(7, 1)
    ensures InCheck(Apply(StalemateState(), Coord(7, 0), dst))
  {
    var s := StalemateState();
    StalemateAt(Coord(7, 0));
    StalemateAt(Coord(5, 1));
    StalemateAt(Coord(6, 1));
    StalemateAt(dst);
    var t := Apply(s, Coord(7, 0), dst);
    assert At(t.grid, Coord(5, 1)) == ChessPiece(Queen, White);
    if dst == Coord(7, 1) {
      assert At(t.grid, Coord(6, 1)).kind == Empty;
    }
    assert ValidateMove(t.grid, White, Coord(5, 1), dst) == Pass;
  }

  /** Black has no move that leaves it out of check, although it is not in check now: the search
      behind isCheckmate reports checkmate for this stalemate. */
  lemma StalemateReadsAsCheckmate()
    ensures ValidGame(StalemateState()) && !InCheck(StalemateState()) && !HasEscape(StalemateState())
  {
    StalemateValidNotInCheck();
    var s := StalemateState();
    forall r, f, k, l | 0 <= r < BoardSize && 0 <= f < BoardSize && 0 <= k < BoardSize && 0 <= l < BoardSize
      ensures !EscapeVia(s, Coord(r, f), Coord(k, l))
    {
      StalemateAt(Coord(r, f));
      StalemateAt(Coord(k, l));
      if Coord(r, f) == Coord(7, 0) && ValidateMove(s.grid, Black, Coord(r, f), Coord(k, l)) == Pass {
        StalemateKingStepChecked(Coord(k, l));
      }
    }
  }

  /** When no move is legal at all there is no escape, in check or not: stalemate reads as checkmate. */
  lemma NoLegalMoveNoEscape(s: GameState)
    requires IsPlayer(s.turn)
    requires forall r, f, k, l :: ValidateMove(s.grid, s.turn, Coord(r, f), Coord(k, l)) != Pass
    ensures !HasEscape(s)
  {
  }
}
