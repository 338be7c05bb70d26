/** Per-piece movement rules and the generic legality check, as functions of the board and the side to move. */
module Rules {
  import opened ChessTypes

  /** The other player. */
  function GetOpponent(player: PieceColor): (r: PieceColor)
    requires IsPlayer(player)
    ensures IsPlayer(r) && r != player
  {
    if player == White then Black else White
  }

  function Abs(x: int): nat {
    if x < 0 then -x else x
  }

  /** The coordinate k steps from a toward b; a itself when a == b. */
  function Toward(a: int, b: int, k: int): int {
    if b > a then a + k else if b < a then a - k else a
  }

  /** The number of king steps from src to dst along a line. */
  function Distance(src: Coord, dst: Coord): nat {
    var dr := Abs(dst.rank - src.rank);
    var df := Abs(dst.file - src.file);
    if dr >= df then dr else df
  }

  /** src and dst are distinct and share a rank, a file or a diagonal. */
  predicate IsLine(src: Coord, dst: Coord) {
    src != dst &&
    (src.rank == dst.rank || src.file == dst.file || Abs(dst.rank - src.rank) == Abs(dst.file - src.file))
  }

  /** The square k steps from src toward dst. */
  function Between(src: Coord, dst: Coord, k: int): (c: Coord)
    ensures OnBoard(src) && OnBoard(dst) && IsLine(src, dst) && 0 <= k <= Distance(src, dst) ==> OnBoard(c)
    ensures IsLine(src, dst) && k == Distance(src, dst) ==> c == dst
  {
    Coord(Toward(src.rank, dst.rank, k), Toward(src.file, dst.file, k))
  }

  /** Every square strictly between src and dst on their line is empty. */
  predicate PathClear(g: Grid, src: Coord, dst: Coord)
    requires OnBoard(src) && OnBoard(dst) && IsLine(src, dst)
  {
    forall k :: 0 < k < Distance(src, dst) ==> At(g, Between(src, dst, k)).kind == Empty
  }

  /** One step forward, two from the start rank over an empty square, or one diagonal step onto an opponent piece.
      The direction and start rank come from the colour of the moving piece. */
  function PawnMoveOk(g: Grid, player: PieceColor, src: Coord, dst: Coord): (ok: bool)
    requires OnBoard(src) && OnBoard(dst) && IsPlayer(player)
    ensures ok ==> src != dst && Abs(dst.file - src.file) <= 1
    ensures ok && dst.file == src.file ==> At(g, dst).kind == Empty
    ensures ok && dst.file != src.file ==>
              At(g, dst).color == GetOpponent(player) && dst.rank - src.rank == Forward(At(g, src).color)
    ensures ok && dst.rank - src.rank != Forward(At(g, src).color) ==>
              src.rank == PawnStartRank(At(g, src).color) && dst.rank - src.rank == 2 * Forward(At(g, src).color)
  {
    var dir := if At(g, src).color == White then 1 else -1;
    var initialRank := if At(g, src).color == White then 1 else 6;
    (dst.rank == src.rank + dir && dst.file == src.file && At(g, dst).kind == Empty)
    || (src.rank == initialRank && dst.rank == src.rank + 2 * dir && dst.file == src.file
        && At(g, dst).kind == Empty && At(g, Coord(src.rank + dir, src.file)).kind == Empty)
    || (dst.rank == src.rank + dir && (dst.file == src.file + 1 || dst.file == src.file - 1)
        && At(g, dst).color == GetOpponent(player))
  }

  /** Same rank or file, nothing in between, destination not of the side to move. */
  function RookMoveOk(g: Grid, player: PieceColor, src: Coord, dst: Coord): (ok: bool)
    requires OnBoard(src) && OnBoard(dst) && src != dst
    ensures ok ==> QueenMoveOk(g, player, src, dst) && At(g, dst).color != player
    ensures (src.rank == dst.rank || src.file == dst.file) && Distance(src, dst) == 1 && At(g, dst).color != player ==>
              ok
  {
    (src.rank == dst.rank || src.file == dst.file) && PathClear(g, src, dst) && At(g, dst).color != player
  }

  /** An L-shaped jump. The colour test binds to the (1, 2) shape only, as C++ operator precedence has it. */
  function KnightMoveOk(g: Grid, player: PieceColor, src: Coord, dst: Coord): (ok: bool)
    requires OnBoard(src) && OnBoard(dst)
    ensures ok ==> src != dst && !IsLine(src, dst) && Distance(src, dst) == 2
  {
    var rankDiff := Abs(dst.rank - src.rank);
    var fileDiff := Abs(dst.file - src.file);
    (rankDiff == 2 && fileDiff == 1) || (rankDiff == 1 && fileDiff == 2 && At(g, dst).color != player)
  }

  /** Same diagonal, nothing in between, destination not of the side to move. */
  function BishopMoveOk(g: Grid, player: PieceColor, src: Coord, dst: Coord): (ok: bool)
    requires OnBoard(src) && OnBoard(dst) && src != dst
    ensures ok ==> QueenMoveOk(g, player, src, dst) && src.rank != dst.rank && src.file != dst.file
    ensures Abs(dst.rank - src.rank) == 1 && Abs(dst.file - src.file) == 1 && At(g, dst).color != player ==> ok
  {
    Abs(dst.rank - src.rank) == Abs(dst.file - src.file) && PathClear(g, src, dst) && At(g, dst).color != player
  }

  /** Any rank, file or diagonal, nothing in between, destination not of the side to move. */
  function QueenMoveOk(g: Grid, player: PieceColor, src: Coord, dst: Coord): (ok: bool)
    requires OnBoard(src) && OnBoard(dst)
    ensures ok ==> src != dst && At(g, dst).color != player
    ensures src != dst && Distance(src, dst) == 1 && At(g, dst).color != player ==> ok
  {
    IsLine(src, dst) && PathClear(g, src, dst) && At(g, dst).color != player
  }

  /** At most one square in each direction, destination not of the side to move. */
  function KingMoveOk(g: Grid, player: PieceColor, src: Coord, dst: Coord): (ok: bool)
    requires OnBoard(src) && OnBoard(dst)
    ensures ok <==> Distance(src, dst) <= 1 && At(g, dst).color != player
  {
    Abs(dst.rank - src.rank) <= 1 && Abs(dst.file - src.file) <= 1 && At(g, dst).color != player
  }

  /** The rule of the piece standing on src. */
  function PieceRuleAllows(g: Grid, player: PieceColor, src: Coord, dst: Coord): (ok: bool)
    requires OnBoard(src) && OnBoard(dst) && IsPlayer(player) && src != dst
    ensures ok ==> At(g, src).kind != Empty
    ensures At(g, src).kind == Queen ==> (ok <==> RookMoveOk(g, player, src, dst) || BishopMoveOk(g, player, src, dst))
    ensures At(g, src).kind in {Rook, Bishop, Queen, King} ==> (ok ==> At(g, dst).color != player)
  {
    match At(g, src).kind
    case Pawn => PawnMoveOk(g, player, src, dst)
    case Rook => RookMoveOk(g, player, src, dst)
    case Knight => KnightMoveOk(g, player, src, dst)
    case Bishop => BishopMoveOk(g, player, src, dst)
    case Queen => QueenMoveOk(g, player, src, dst)
    case King => KingMoveOk(g, player, src, dst)
    case Empty => false
  }

  /** Bounds first, then ownership of both squares, then the rule of the moving piece. */
  function ValidateMove(g: Grid, player: PieceColor, src: Coord, dst: Coord): (r: Outcome)
    requires IsPlayer(player)
    ensures !OnBoard(src) || !OnBoard(dst) ==> r == Fail(OutsideBoard)
    ensures OnBoard(src) && OnBoard(dst) ==> r == Pass || r == Fail(InvalidMove)
    ensures OnBoard(src) && OnBoard(dst) && (At(g, src).color != player || At(g, dst).color == player) ==>
              r == Fail(InvalidMove)
    ensures r == Pass ==> OnBoard(src) && OnBoard(dst) && src != dst
                          && At(g, src).color == player && At(g, dst).color != player
  {
    if !OnBoard(src) || !OnBoard(dst) then Fail(OutsideBoard)
    else if At(g, src).color != player then Fail(InvalidMove)
    else if At(g, dst).color == player then Fail(InvalidMove)
    else if PieceRuleAllows(g, player, src, dst) then Pass
    else Fail(InvalidMove)
  }

  /** The direction in which the player's pawns advance. */
  function Forward(player: PieceColor): int {
    if player == White then 1 else -1
  }

  /** The rank from which the player's pawns may advance two squares. */
  function PawnStartRank(player: PieceColor): int {
    if player == White then 1 else 6
  }

  /** A pawn of the side to move has exactly three kinds of legal move (onto a square not of its own side). */
  lemma PawnLegalIff(g: Grid, player: PieceColor, src: Coord, dst: Coord)
    requires IsPlayer(player) && OnBoard(src) && OnBoard(dst)
    requires At(g, src) == ChessPiece(Pawn, player)
    ensures ValidateMove(g, player, src, dst) == Pass <==>
      At(g, dst).color != player && (
      (dst == Coord(src.rank + Forward(player), src.file) && At(g, dst).kind == Empty)
      || (src.rank == PawnStartRank(player) && dst == Coord(src.rank + 2 * Forward(player), src.file)
          && At(g, dst).kind == Empty && At(g, Coord(src.rank + Forward(player), src.file)).kind == Empty)
      || (dst.rank == src.rank + Forward(player) && Abs(dst.file - src.file) == 1
          && At(g, dst).color == GetOpponent(player)))
  {
  }

  /** The knight predicate on its own lets a (2, 1) jump land on the mover's own piece and refuses a (1, 2) one. */
  lemma KnightPrecedence(g: Grid, player: PieceColor, src: Coord, dst: Coord)
    requires OnBoard(src) && OnBoard(dst) && At(g, dst).color == player
    ensures Abs(dst.rank - src.rank) == 2 && Abs(dst.file - src.file) == 1 ==> KnightMoveOk(g, player, src, dst)
    ensures Abs(dst.rank - src.rank) == 1 && Abs(dst.file - src.file) == 2 ==> !KnightMoveOk(g, player, src, dst)
  {
  }

  /** Behind the generic own-side check, a knight moves iff (|dr|, |df|) is (2, 1) or (1, 2). */
  lemma KnightLegalIff(g: Grid, player: PieceColor, src: Coord, dst: Coord)
    requires IsPlayer(player) && OnBoard(src) && OnBoard(dst)
    requires At(g, src) == ChessPiece(Knight, player)
    ensures ValidateMove(g, player, src, dst) == Pass <==>
      At(g, dst).color != player &&
      ((Abs(dst.rank - src.rank) == 2 && Abs(dst.file - src.file) == 1) ||
       (Abs(dst.rank - src.rank) == 1 && Abs(dst.file - src.file) == 2))
  {
  }

  /** A king moves iff it steps at most one square each way onto a square not of its own side. */
  lemma KingLegalIff(g: Grid, player: PieceColor, src: Coord, dst: Coord)
    requires IsPlayer(player) && OnBoard(src) && OnBoard(dst)
    requires At(g, src) == ChessPiece(King, player)
    ensures ValidateMove(g, player, src, dst) == Pass <==>
      Abs(dst.rank - src.rank) <= 1 && Abs(dst.file - src.file) <= 1 && At(g, dst).color != player
  {
  }

  /** A rook of the side to move is accepted iff the rook rule allows the move and it is not onto its own side. */
  lemma RookLegalIff(g: Grid, player: PieceColor, src: Coord, dst: Coord)
    requires IsPlayer(player) && OnBoard(src) && OnBoard(dst)
    requires At(g, src) == ChessPiece(Rook, player)
    ensures ValidateMove(g, player, src, dst) == Pass <==>
      src != dst && At(g, dst).color != player && RookMoveOk(g, player, src, dst)
  {
  }

  /** A bishop of the side to move is accepted iff the bishop rule allows the move and it is not onto its own side. */
  lemma BishopLegalIff(g: Grid, player: PieceColor, src: Coord, dst: Coord)
    requires IsPlayer(player) && OnBoard(src) && OnBoard(dst)
    requires At(g, src) == ChessPiece(Bishop, player)
    ensures ValidateMove(g, player, src, dst) == Pass <==>
      src != dst && At(g, dst).color != player && BishopMoveOk(g, player, src, dst)
  {
  }

  /** A queen of the side to move is accepted iff the rook rule or the bishop rule allows the move. */
  lemma QueenLegalIff(g: Grid, player: PieceColor, src: Coord, dst: Coord)
    requires IsPlayer(player) && OnBoard(src) && OnBoard(dst)
    requires At(g, src) == ChessPiece(Queen, player)
    ensures ValidateMove(g, player, src, dst) == Pass <==>
      src != dst && At(g, dst).color != player && (RookMoveOk(g, player, src, dst) || BishopMoveOk(g, player, src, dst))
  {
  }

  /** The queen's geometric rule agrees with "rook, else bishop". */
  lemma QueenIsRookOrBishop(g: Grid, player: PieceColor, src: Coord, dst: Coord)
    requires OnBoard(src) && OnBoard(dst) && src != dst
    ensures QueenMoveOk(g, player, src, dst) <==> RookMoveOk(g, player, src, dst) || BishopMoveOk(g, player, src, dst)
  {
  }
}
