/** Move text of the fixed form "e2 e4": lexical check and conversion to board coordinates. */
module Notation {
  import opened ChessTypes

  /** isalpha in the "C" locale. */
  predicate IsAlpha(c: char) {
    'a' <= c <= 'z' || 'A' <= c <= 'Z'
  }

  /** isdigit. */
  predicate IsDigit(c: char) {
    '0' <= c <= '9'
  }

  /** Accepts exactly letter, digit, space, letter, digit; anything else is a format error. */
  function ValidateMoveFormat(move: string): (r: Outcome)
    ensures r == Pass || r == Fail(InvalidFormat)
    ensures r == Pass ==> |move| == 5 && move[2] == ' '
  {
    if |move| != 5 || !IsAlpha(move[0]) || !IsDigit(move[1]) || move[2] != ' '
       || !IsAlpha(move[3]) || !IsDigit(move[4])
    then Fail(InvalidFormat)
    else Pass
  }

  /** File = letter - 'a' and rank = digit - '1', for both squares; no range check here. */
  function ConvertAlgebraicToCoords(move: string): (m: Move)
    requires |move| >= 5
    ensures OnBoard(m.source) <==> 'a' <= move[0] <= 'h' && '1' <= move[1] <= '8'
    ensures OnBoard(m.dest) <==> 'a' <= move[3] <= 'h' && '1' <= move[4] <= '8'
  {
    var sourceFile := move[0] as int - 'a' as int;
    var destFile := move[3] as int - 'a' as int;
    var sourceRank := move[1] as int - '1' as int;
    var destRank := move[4] as int - '1' as int;
    Move(Coord(sourceRank, sourceFile), Coord(destRank, destFile))
  }

  /** The algebraic name of an on-board square, such as "e2". */
  function SquareText(c: Coord): (s: string)
    requires OnBoard(c)
    ensures |s| == 2 && 'a' <= s[0] <= 'h' && '1' <= s[1] <= '8'
  {
    [('a' as int + c.file) as char, ('1' as int + c.rank) as char]
  }

  /** The move text a player types for m. */
  function MoveText(m: Move): (s: string)
    requires OnBoard(m.source) && OnBoard(m.dest)
    ensures |s| == 5
  {
    SquareText(m.source) + " " + SquareText(m.dest)
  }

  /** Every on-board move has a text form that passes the format check and converts back to it. */
  lemma ParseMoveText(m: Move)
    requires OnBoard(m.source) && OnBoard(m.dest)
    ensures ValidateMoveFormat(MoveText(m)) == Pass
    ensures ConvertAlgebraicToCoords(MoveText(m)) == m
  {
    var s := MoveText(m);
    assert s[0] == SquareText(m.source)[0] && s[1] == SquareText(m.source)[1];
    assert s[2] == ' ';
    assert s[3] == SquareText(m.dest)[0] && s[4] == SquareText(m.dest)[1];
  }

  /** Accepted text whose squares are on the board is exactly the text of the move it converts to. */
  lemma MoveTextOfParse(move: string)
    requires ValidateMoveFormat(move) == Pass
    requires OnBoard(ConvertAlgebraicToCoords(move).source) && OnBoard(ConvertAlgebraicToCoords(move).dest)
    ensures MoveText(ConvertAlgebraicToCoords(move)) == move
  {
    var t := MoveText(ConvertAlgebraicToCoords(move));
    assert |t| == |move|;
    forall i | 0 <= i < 5
      ensures t[i] == move[i]
    {
    }
  }

  /** The lexical check lets out-of-range letters and digits through; only lengths and shapes fail. */
  lemma FormatExamples()
    ensures ValidateMoveFormat("e2 e4") == Pass
    ensures ConvertAlgebraicToCoords("e2 e4") == Move(Coord(1, 4), Coord(3, 4))
    ensures ValidateMoveFormat("e2e4") == Fail(InvalidFormat)
    ensures ValidateMoveFormat("i9 e4") == Pass
    ensures !OnBoard(ConvertAlgebraicToCoords("i9 e4").source)
    ensures ValidateMoveFormat("E2 E4") == Pass
    ensures !OnBoard(ConvertAlgebraicToCoords("E2 E4").source) && !OnBoard(ConvertAlgebraicToCoords("E2 E4").dest)
  {
  }
}
