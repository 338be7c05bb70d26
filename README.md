# Chess rules engine (ChessBoard) in Dafny

This project models the rules engine of a two-player terminal chess game written in C++ (`chess.cpp`, `chess.hpp`). The engine is one object, `ChessBoard`, with four fields: an 8x8 board of pieces, the side to move, and a cached square for each king. On top of that object it offers:

- **Move-text parsing.** `validateMoveFormat` accepts exactly the shape "e2 e4". `convertAlgebraicToCoords` turns the text into a source and a destination (rank, file) pair with no range check.
- **Move legality.** `validateMove` first checks bounds, then that the source belongs to the side to move and the destination does not. It then hands over to the rule of the moving piece. Rook and bishop scan the squares in between for blockers, and the queen is "rook, else bishop".
- **Check detection.** `isCheck` flips the turn and asks whether any square's piece may move onto the king square of the original side. It flips the turn back before returning.
- **Turn engine.** `makeMove` applies a move in place. When the mover is then in check it rolls the move back, king cache included, and raises an illegal-move error. Otherwise it passes the turn. `isCheckmate` tries every (source, destination) pair by simulating the move, testing for check and reverting.

Layout:

- `chess_types.dfy` (module `ChessTypes`): piece kinds, the three colours, squares, the `Grid` type (8 ranks of 8 squares), and the error kinds. The three exception classes become one `ChessError` datatype, and a throwing call becomes an `Outcome` (`Pass` or `Fail(error)`).
- `notation.dfy` (module `Notation`): the lexical check, the conversion, and the encoder `MoveText`, which is the inverse of the conversion.
- `rules.dfy` (module `Rules`): the per-piece rules and `ValidateMove` as functions of the board and the side to move.
- `engine.dfy` (module `Engine`): the object's state as a value, `GameState`, together with:
  - threat detection (`Attacked`, `InCheck`);
  - applying and committing a move (`Apply`, `Commit`);
  - what `makeMove` returns and leaves behind (`MoveOutcome`, `Play`);
  - the existence of an escape (`EscapeVia`, `EscapeFrom`, `HasEscape`);
  - the starting arrangement;
  - the invariant `ValidGame` and the lemmas about it.
- `chess_board.dfy` (module `ChessGame`): class `ChessBoard` with the four source fields. Its methods update them in place and are proved against the functions above. `State()` reads the fields as a `GameState`, and `Valid()` is `ValidGame(State())`.

The class invariant `ValidGame` requires all of the following:

- the side to move is a player;
- every square is empty exactly when it has no colour;
- each king cache points at the only square holding that colour's king;
- the side to move cannot reach the king of the side that just moved, so the last mover did not leave itself in check. The side to move may itself be in check.

The last clause is what `makeMove`'s self-check test re-establishes after every accepted move. It is also what makes capturing a king impossible, so the king caches stay correct. The invariant holds after the constructor followed by `initializeBoard`, but not after the constructor alone: that board is empty, yet the caches point at e1 and e8.

`initializeBoard` writes only ranks 1, 2, 7 and 8 and leaves the middle ranks as they were, so `Initialized(g)` keeps the middle ranks of `g`. On the constructor's empty board the result is the standard arrangement.

## Model

| member | source | states |
|---|---|---|
| Rules.GetOpponent | chess.cpp:4-7 | For a player colour the result is the other player, and it is a player. |
| ChessTypes.MessagesShared | chess.hpp:80-96 | The format error and the illegal-move error report the same text, and the outside-board error reports a different one. |
| ChessGame.ChessBoard.constructor | chess.cpp:9 | The new object has an empty board, White to move, and kings cached at (0,4) and (7,4). |
| Engine.FreshStateNotValid | chess.cpp:9 | The constructor's state alone breaks the invariant, because the cached king squares are empty. |
| ChessGame.ChessBoard.InitializeBoard | chess.cpp:11-41 | The board becomes the arrangement written over the old board: ranks 0, 1, 6 and 7 as in standard chess, the other ranks unchanged. Turn and king caches are untouched. From the constructor's state the result is the starting state, and it is valid. |
| ChessGame.BackRanksOverAt | chess.cpp:20-40 | The sixteen back-rank writes give ranks 0 and 7 the starting pieces and keep every other square. |
| ChessGame.PawnsThenBackRanks | chess.cpp:13-40 | The pawn loop followed by the back-rank writes yields exactly the arrangement over the original board. |
| Engine.StartingWellFormed | chess.cpp:11-41 | In the starting arrangement every square is empty exactly when it has no colour. |
| Engine.StartingKingsCached | chess.cpp:9-41 | In the starting arrangement (0,4) holds the only White king and (7,4) the only Black king, which matches the constructor's caches. |
| Engine.StartingBlackKingSafe | chess.cpp:11-41 | In the starting arrangement no White piece may legally move onto e8. |
| Engine.StartingStateValid | chess.cpp:9-41 | The constructor followed by the initialization gives a state satisfying the game invariant. |
| Notation.ValidateMoveFormat | chess.cpp:76-85 | The result is success or a format error, never another error. Success implies length 5 with a space in the middle. |
| Notation.ConvertAlgebraicToCoords | chess.cpp:87-98 | The source is on the board iff its letter is in a..h and its digit in 1..8, and likewise for the destination. |
| Notation.ParseMoveText | chess.cpp:76-98 | For every on-board move, its text passes the format check and converts back to the same move. |
| Notation.MoveTextOfParse | chess.cpp:76-98 | Accepted text whose squares are on the board is exactly the text of the move it converts to. |
| Notation.FormatExamples | chess.cpp:76-98 | "e2 e4" passes and gives (1,4) to (3,4). "e2e4" is a format error. "i9 e4" passes the format check, but its source is off the board. "E2 E4" passes the format check too, since upper-case letters are letters, but both its squares are off the board. |
| Rules.PawnMoveOk | chess.cpp:100-135 | An allowed pawn move leaves its square, shifts at most one file, never lands on an occupied square straight ahead, and captures only an opponent piece one rank forward. Any move other than one rank forward is two ranks from the start rank of the pawn's colour. |
| Rules.PawnLegalIff | chess.cpp:100-135 | A pawn of the side to move is accepted iff the destination is not its own side's and one of three cases holds: one empty step forward; two empty steps from the start rank with the middle square empty; or one diagonal step onto an opponent piece. White moves +1 from rank 1, Black moves -1 from rank 6. |
| Rules.RookMoveOk | chess.cpp:137-184 | An allowed rook move is also a queen move onto a square not of the mover. A one-square step along a rank or file onto such a square is always allowed. |
| Rules.RookLegalIff | chess.cpp:137-184 | Through the generic check, a rook of the side to move is accepted iff the squares differ, the destination is not its own side's and the rook rule allows the move. |
| ChessGame.ChessBoard.ValidateRookMove | chess.cpp:137-184 | The scanning loop returns true iff source and destination share a rank or a file, every square strictly between them is empty, and the destination is not of the side to move. |
| Rules.KnightMoveOk | chess.cpp:186-203 | An allowed knight jump leaves its square, is on no rank, file or diagonal, and is two king steps long. |
| Rules.KnightPrecedence | chess.cpp:186-203 | The knight rule taken alone lets a (2,1) jump land on the mover's own piece and refuses a (1,2) one. The colour test binds to the second shape only. |
| Rules.KnightLegalIff | chess.cpp:186-203 | Behind the generic own-side check, a knight is accepted iff (abs dr, abs df) is (2,1) or (1,2) and the destination is not its own side's. |
| Rules.BishopMoveOk | chess.cpp:205-240 | An allowed bishop move is a queen move that changes both rank and file. A one-square diagonal step onto a square not of the mover is always allowed. |
| Rules.BishopLegalIff | chess.cpp:205-240 | Through the generic check, a bishop of the side to move is accepted iff the squares differ, the destination is not its own side's and the bishop rule allows the move. |
| ChessGame.ChessBoard.ValidateBishopMove | chess.cpp:205-240 | The diagonal scan returns true iff abs dr = abs df, every square strictly between is empty, and the destination is not of the side to move. |
| Rules.QueenMoveOk | chess.cpp:242-253 | An allowed queen move leaves its square onto a square not of the mover. Every one-square step onto such a square is allowed. |
| Rules.QueenLegalIff | chess.cpp:242-253 | Through the generic check, a queen of the side to move is accepted iff the squares differ, the destination is not its own side's, and the rook rule or the bishop rule allows the move. |
| ChessGame.ChessBoard.ValidateQueenMove | chess.cpp:242-253 | The result is the queen rule: same rank, file or diagonal, a clear path, and a destination not of the side to move. |
| Rules.QueenIsRookOrBishop | chess.cpp:242-253 | The queen rule holds iff the rook rule or the bishop rule holds. |
| Rules.KingMoveOk | chess.cpp:255-270 | The king rule holds iff the destination is at most one king step away and is not of the mover. |
| Rules.KingLegalIff | chess.cpp:255-270 | A king is accepted iff it moves at most one square each way onto a square not of its own side. |
| Rules.PieceRuleAllows | chess.cpp:301-324 | The dispatch on the moving piece refuses an empty square. For a queen it holds iff the rook or bishop rule holds. For a rook, bishop, queen or king it never allows a move onto the mover's own side. |
| Rules.ValidateMove | chess.cpp:272-325 | Off-board coordinates fail with the bounds error before any other test. On the board the only error is an illegal move. A source not of the side to move, or a destination of it, is refused. Success implies both squares are on the board and distinct, the source is the mover's and the destination is not. |
| ChessGame.ChessBoard.ValidateMove | chess.cpp:272-325 | The method, with its scanning loops, returns exactly the rule function's outcome on the current board and side to move. |
| ChessGame.ChessBoard.GetKingPosition | chess.cpp:327-337 | It returns the cache of the colour, and any colour but White reads Black's. In a valid game the square is on the board and holds that colour's king. |
| ChessGame.ChessBoard.UpdateKingPosition | chess.cpp:339-349 | Only the cache of the colour changes, and any colour but White writes Black's. |
| ChessGame.ChessBoard.SwitchTurn | chess.cpp:479-482 | Only the side to move changes, and it becomes the opponent. |
| Engine.Attacked | chess.cpp:354-367 | A square some piece of a side may move onto is on the board and does not hold that side's piece. |
| Engine.InCheck | chess.cpp:351-370 | When the side to move is in check, its cached king square is on the board and holds no opponent piece. |
| ChessGame.ChessBoard.IsCheck | chess.cpp:351-370 | The state is unchanged on both return paths. The result is true iff some square's piece, moving for the opponent, passes the legality check onto the cached king square of the side to move. |
| Engine.MoveOutcome | chess.cpp:372-406 | A format error is returned iff the text fails the format check. A bounds error is returned iff the text passes but a square is off the board. |
| Engine.Apply | chess.cpp:384-393 | The destination gets the source piece and the source becomes empty, while every other square keeps its content. A king's cache follows the king, and the turn is unchanged. |
| ChessGame.ChessBoard.SetSquare | chess.cpp:387-388 | One square write: the board becomes the old board with that square replaced. Turn and king caches are unchanged. |
| Engine.Commit | chess.cpp:384-408 | After an accepted move the turn passes to the other player. The destination holds the source piece, the source is empty and every other square is kept. A king's cache follows the king. |
| Engine.Play | chess.cpp:372-411 | The state after a move attempt has a player to move. The turn changes iff the move is accepted, and a rejected attempt leaves the state exactly as it was. |
| Engine.UndoApply | chess.cpp:395-404 | Restoring the two squares and, for a king, the cache gives back the exact state before the move. |
| ChessGame.ChessBoard.MakeMove | chess.cpp:372-411 | From a valid game: it returns the outcome of the move text; the new state is the committed move on success and the old state on every error; the game stays valid. |
| Engine.PlayFrame | chess.cpp:372-411 | A rejected move leaves the state exactly as it was. An accepted move changes only its two distinct squares: the source is cleared and the destination gets the source piece. The king cache moves iff a king moved, and the turn passes to the opponent. |
| Engine.CommitPreservesValid | chess.cpp:384-408 | A legal move that does not leave the mover in check keeps the game invariant, both king caches included. |
| Engine.PlayPreservesValid | chess.cpp:372-411 | Attempting any move text from a valid game leaves a valid game, whether the move is accepted or rejected. |
| Engine.NoKingCapture | chess.cpp:372-411 | In a valid game an accepted move never lands on a king square. |
| Engine.OpeningKingSafe | chess.cpp:351-370 | After 1. e4 from the starting arrangement no Black piece reaches e1. |
| Engine.OpeningMove | chess.cpp:372-411 | From the starting state "e2 e4" is accepted. Afterwards the pawn is on (3,4), (1,4) is empty and Black is to move. Repeating the text is then refused as an illegal move. |
| Engine.LexicalThenBounds | chess.cpp:372-382 | From the starting state, "E2 E4" and "i9 e4" pass the lexical check and then fail with the bounds error. |
| ChessGame.ChessBoard.TryMove | chess.cpp:428-464 | One trial of isCheckmate's inner loop leaves the state unchanged. It returns true iff the move is legal and, once applied, leaves the mover out of check. |
| ChessGame.ChessBoard.IsCheckmate | chess.cpp:413-477 | The state is unchanged. The result is true iff the side to move has no move that is legal and leaves it out of check. |
| Engine.EscapeIffAccepted | chess.cpp:372-411 | An on-board move is an escape as isCheckmate counts it iff makeMove would accept its text. |
| Engine.NoLegalMoveNoEscape | chess.cpp:413-477 | When no move is legal at all there is no escape, whether or not the side is in check. isCheckmate then reports checkmate, so stalemate reads as checkmate. |
| Engine.StalemateValidNotInCheck | chess.cpp:351-370 | The position with Black's king on a8, White's queen on b6 and White's king on e1, Black to move, is a valid game and Black is not in check. |
| Engine.StalemateKingStepChecked | chess.cpp:351-370 | In that position each of the Black king's three steps, to a7, b7 or b8, lands on a square the queen reaches. |
| Engine.StalemateReadsAsCheckmate | chess.cpp:413-477 | That stalemate is a valid game with Black not in check, yet no Black move escapes, so the checkmate search reports true for it. |

## Left out

- `displayBoard` and `play`: terminal output and the interactive input loop are I/O and are not modelled.
- Exception objects: the message strings are modelled only as the `Message` function, to state that two errors share their text. `what()`, `std::exception` inheritance and the try/catch control flow become the `Outcome` datatype. `validateQueenMove` catching the rook's exception becomes "rook, else bishop".
- Castling, en passant, promotion, draws and repetition: the code does not implement them.
- The stalemate conflation in `isCheckmate` is kept as the code has it, and `Engine.NoLegalMoveNoEscape` states it in general. `Engine.StalemateReadsAsCheckmate` exhibits a stalemate for which the search reports true. It is not corrected.
- ChessGame.ChessBoard.ValidateRookMove: requires source and destination to differ. On a direct same-square call the code picks step -1 and scans away from the square toward file (or rank) 0. It throws at the first piece it meets, and indexes off the board when it meets none. `validateMove` never makes such a call, because a source of the mover's colour can never also be a destination not of it.
- ChessGame.ChessBoard.ValidateBishopMove: requires source and destination to differ. On a direct same-square call the code scans the down-left diagonal away from the square. It throws at the first piece it meets, and indexes off the board when it meets none. `validateMove` never makes such a call, for the same reason as the rook.
- Rules.GetOpponent: requires a player colour. The code returns White for the no-colour value, but it only ever calls the function with a player.
- The unused `isQueen` parameter of the rook and bishop checks is dropped.
- `isalpha` and `isdigit` are modelled in the "C" locale on Dafny characters. Other locales and signed-char effects are not modelled.
- The `vector<vector<ChessPiece>>` board is modelled as a sequence of sequences of fixed size 8 that the methods reassign. Square writes are modelled as whole-board updates, so aliasing through references into the board is not modelled.
- Integer overflow of `int` coordinates is not modelled. The values come from characters minus letters, so they fit in a byte.
- ChessGame.ChessBoard.InitializeBoard: it ensures the game invariant only when called on the constructor's state. From another board, the untouched middle ranks may break it.
- No checkmate sequence is proved. Only the first move from the starting position and its replay are proved, by `Engine.OpeningMove`.
