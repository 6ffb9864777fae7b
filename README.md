# TicTacToeJ in Dafny

A model of the core of TicTacToeJ, a console tic-tac-toe game, with proofs
about it. Three Java classes are modelled:

- `Game`: a board of nine spaces. It restores a board after validating it,
  finds the winner and the next player, and makes moves, refusing a bad one
  with a reason.
- `REPL`: reads one command line (`new`, `move <piece> <location>`, anything
  else), runs it against the current game and answers with a message. It also
  draws the board as ASCII art and reports the game's status.
- `InvalidMoveException`: the error a refused move raises. It carries the
  reason, the piece and the index, and sometimes a cause.

The modules follow the program:

| module | file | what it holds |
|---|---|---|
| `Results` | `results.dfy` | `Option` and `Result` |
| `Text` | `text.dfy` | joining strings, ASCII lower-casing, decimal rendering of an `int` |
| `Pieces` | `pieces.dfy` | `Cell`, one of `Empty`, `X`, `O`: the Java `Boolean` `null` / `PIECE_X` / `PIECE_O`; `PieceName` |
| `InvalidMoves` | `invalid_moves.dfy` | `InvalidMoveException` as a value |
| `Rules` | `rules.dfy` | the rules of `Game` as functions of the nine cells, with their properties |
| `Engine` | `game.dfy` | `class Game` over an `array<Cell>`; each method is proved to compute its `Rules` function |
| `Console` | `console.dfy` | the REPL's text as functions: board drawing, status, command responses; `class Repl` with its methods |
| `Scenarios` | `scenarios.dfy` | the REPL test commands, evaluated on the model |

A `Game` method works on the array step by step, as the Java does. Its
`ensures` ties the result, or the new array contents, to a function in
`Rules`. The lemmas in `Rules` then prove what that function means:

- `Winner` is the owner of the first completed line.
- `NextPlayer` is X or O by the piece counts, and nobody once the game is over.
- `MoveError` gives the first of move's checks that fails, in the code's order.
- A move keeps a valid board valid.

The `Repl` methods are tied to the functions `Response` and `BoardAfter` in
the same way. Both functions are defined on the cells.

## Model

| member | source | states |
|---|---|---|
| `Pieces.PieceName` | src/main/java/com/jtse/tictactoe/Game.java:213-215 | the name is "empty" exactly for an empty space; a mark's name is the mark in single quotes |
| `Pieces.PieceNameInjective` | src/main/java/com/jtse/tictactoe/Game.java:213-215 | different values have different names |
| `InvalidMoves.NewInvalidMove` | src/main/java/com/jtse/tictactoe/InvalidMoveException.java:10-14 | the three-argument constructor keeps the message, piece and index as given, a null piece and an out-of-range index included, and records no cause |
| `InvalidMoves.NewInvalidMoveWithCause` | src/main/java/com/jtse/tictactoe/InvalidMoveException.java:16-20 | the four-argument constructor keeps the message, piece and index as given and records the given cause |
| `InvalidMoves.InvalidMove.GetMessage` | src/main/java/com/jtse/tictactoe/InvalidMoveException.java:10-20 | returns the reason given to either constructor (the constructors' ensures prove it) |
| `InvalidMoves.InvalidMove.GetPiece` | src/main/java/com/jtse/tictactoe/InvalidMoveException.java:25-27 | returns the piece given to either constructor, Empty (null) included |
| `InvalidMoves.InvalidMove.GetIdx` | src/main/java/com/jtse/tictactoe/InvalidMoveException.java:32-34 | returns the index given to either constructor, an out-of-range one included |
| `InvalidMoves.InvalidMove.ToString` | src/main/java/com/jtse/tictactoe/InvalidMoveException.java:37-39 | the text starts with Throwable's own rendering, then ": ", the piece's name and " at idx ", and ends with digits that read back as the index |
| `InvalidMoves.InvalidMove.Suffix` | src/main/java/com/jtse/tictactoe/InvalidMoveException.java:38 | the part the class adds is ": <piece name> at idx " followed by digits that read back as the index, negative ones included |
| `Text.Lower` | src/main/java/com/jtse/tictactoe/REPL.java:104 | lower-casing keeps the length, maps each character, and leaves no upper-case ASCII letter |
| `Text.IntToStringRoundTrip` | src/main/java/com/jtse/tictactoe/InvalidMoveException.java:38 | the decimal text of every int reads back as that int |
| `Text.NatToStringRoundTrip` | src/main/java/com/jtse/tictactoe/InvalidMoveException.java:38 | the digits of a natural number are non-empty, all digits, and denote the number |
| `Rules.Count` | src/main/java/com/jtse/tictactoe/Game.java:47-60 | the tally of one value never exceeds the number of spaces |
| `Rules.CountIsMultiplicity` | src/main/java/com/jtse/tictactoe/Game.java:47-60 | the tally of a value is the number of spaces holding it |
| `Rules.CountsPartition` | src/main/java/com/jtse/tictactoe/Game.java:47-60 | the empty, X and O tallies add up to the board length |
| `Rules.CountPositiveIffPresent` | src/main/java/com/jtse/tictactoe/Game.java:155 | a tally is positive exactly when some space holds that value, so a zero empty-count means a full board |
| `Rules.CountAfterUpdate` | src/main/java/com/jtse/tictactoe/Game.java:202 | writing a piece into one space moves one unit of tally from the old value to the piece |
| `Rules.BoardError` | src/main/java/com/jtse/tictactoe/Game.java:63-75 | validation reports no error exactly for nine spaces with X zero or one piece ahead of O |
| `Rules.AcceptedBoards` | src/main/java/com/jtse/tictactoe/Game.java:63-75 | validation accepts exactly nine-space boards where X has as many pieces as O or one more, and gives each rule's own message exactly when that rule fails, length first |
| `Rules.SeqOwner` | src/main/java/com/jtse/tictactoe/Game.java:102-113 | a sequence with an owner is non-empty and its owner is on every indexed space |
| `Rules.SeqOwnerIsUniformMark` | src/main/java/com/jtse/tictactoe/Game.java:102-113 | mark m owns a sequence exactly when the sequence is non-empty and every indexed space holds m |
| `Rules.FirstOwnerIsEarliest` | src/main/java/com/jtse/tictactoe/Game.java:134-138 | the search returns the owner of the earliest owned sequence, and null exactly when no sequence is owned |
| `Rules.LineOwnerIsHolder` | src/main/java/com/jtse/tictactoe/Game.java:124-133 | a winning line has an owner exactly when one mark fills it, and the owner is that mark |
| `Rules.Winner` | src/main/java/com/jtse/tictactoe/Game.java:115-139 | a winner owns one of the eight lines, and nobody has won exactly when no line has an owner |
| `Rules.WinnerIsFirstCompletedLine` | src/main/java/com/jtse/tictactoe/Game.java:115-139 | the winner is m exactly when m fills some line and no earlier line, in the order rows, columns, diagonals, is filled |
| `Rules.NoWinnerIffNoCompletedLine` | src/main/java/com/jtse/tictactoe/Game.java:115-139 | there is no winner exactly when no line is filled by one mark |
| `Rules.NextPlayer` | src/main/java/com/jtse/tictactoe/Game.java:141-162 | nobody is due exactly when someone has won or every space is taken |
| `Rules.GameOverIff` | src/main/java/com/jtse/tictactoe/Game.java:141-162 | there is no next player exactly when the game is won or every space is taken; winner and next player are never both set |
| `Rules.NextPlayerOnAcceptedBoard` | src/main/java/com/jtse/tictactoe/Game.java:150-162 | during play on an accepted board, X moves when the counts are equal and O when X is one ahead, and some space is free |
| `Rules.TurnFromCounts` | src/main/java/com/jtse/tictactoe/Game.java:150-162 | on any board with no completed line, nobody is due when no space is free, else O when X has more pieces, else X |
| `Rules.StatusOf` | src/main/java/com/jtse/tictactoe/Game.java:23-29 | won exactly when there is a winner, in progress exactly when there is a next player, a draw exactly when there is neither, which is a full board with no winner |
| `Rules.Judge` | src/main/java/com/jtse/tictactoe/Game.java:183-206 | the move is legal exactly when the piece is given, it is that piece's turn and the index names an empty space; a win refusal names the winner, an out-of-turn refusal names the mover while the other player is due, and an invalid location is an index off the board |
| `Rules.Explain` | src/main/java/com/jtse/tictactoe/Game.java:185-204 | the reason text of each of move's refusals, which is never empty; only a legal move has the empty text |
| `Rules.MoveError` | src/main/java/com/jtse/tictactoe/Game.java:183-206 | no exception exactly for a legal move; an exception carries a non-empty message that reads back as the first of move's tests that failed |
| `Rules.ApplyMove` | src/main/java/com/jtse/tictactoe/Game.java:200-202 | the board keeps nine spaces and every space but idx; idx changes only when it was empty, to the piece of the player who was due |
| `Rules.ExplainRoundTrip` | src/main/java/com/jtse/tictactoe/Game.java:183-206 | the reason texts of move's checks are pairwise distinct: the text gives back the check and the mark it names |
| `Rules.ReasonExplainsJudge` | src/main/java/com/jtse/tictactoe/Game.java:183-206 | the message of a refused move is the text of the first failing check, and a check that names a mark names X or O |
| `Rules.MoveSucceedsIff` | src/main/java/com/jtse/tictactoe/Game.java:183-206 | a move is made exactly when the piece is given, it is that piece's turn, and the index names an empty space |
| `Rules.RejectionCarriesAttempt` | src/main/java/com/jtse/tictactoe/Game.java:183-206 | a refusal carries the attempted piece and index; it has a cause exactly when the index is off the board, and the cause names that index and the length 9 |
| `Rules.ReasonsBeforeTheTurn` | src/main/java/com/jtse/tictactoe/Game.java:185-195 | "piece must be specified" exactly for a null piece; "<m> has already won" exactly when m has won; "the game is a draw" exactly on a drawn board; in each case only after the earlier checks pass |
| `Rules.OutOfTurnReason` | src/main/java/com/jtse/tictactoe/Game.java:196-198 | "<m> has moved out of turn" exactly when m moves while the other player is due, whatever the index, even one off the board |
| `Rules.LocationReasons` | src/main/java/com/jtse/tictactoe/Game.java:200-204 | "invalid location" and "the space is already occupied" exactly for the player who is due, with an index off the board or on a taken space; no reason exactly when the move is made |
| `Rules.FinishedGameRejectsEveryMove` | src/main/java/com/jtse/tictactoe/Game.java:187-195 | a won or drawn game refuses every move and keeps its board |
| `Rules.MoveChangesOnlyTarget` | src/main/java/com/jtse/tictactoe/Game.java:200-202 | a move writes no space but idx; a made move writes the piece there; a refused move changes nothing |
| `Rules.MovePreservesAcceptance` | src/main/java/com/jtse/tictactoe/Game.java:192-202 | a move on a board that passes validation leaves one that passes validation |
| `Rules.MoveAlternatesPlayers` | src/main/java/com/jtse/tictactoe/Game.java:157-161 | after a made move on an accepted board, the next player is the other player or nobody |
| `Rules.PlayPreservesAcceptance` | src/main/java/com/jtse/tictactoe/Game.java:183-206 | any series of moves, made or refused, from an accepted board ends on an accepted board |
| `Rules.EmptyBoardOpens` | src/main/java/com/jtse/tictactoe/Game.java:43 | the empty board passes validation, has no winner, and X is due |
| `Rules.NewGameXMovesFirst` | src/main/java/com/jtse/tictactoe/Game.java:43 | the empty board is accepted, has no winner and X to move, and every board reached from it by moves is accepted |
| `Engine.Game.constructor` | src/main/java/com/jtse/tictactoe/Game.java:77-80 | a new game has its own nine-space board, all empty, with X to move |
| `Engine.Game.Restore` | src/main/java/com/jtse/tictactoe/Game.java:82-96 | fails exactly when validation fails, with validation's message; otherwise the game holds exactly the given cells |
| `Engine.Game.PieceCounts` | src/main/java/com/jtse/tictactoe/Game.java:45-60 | the one-pass tally equals the count of each value, and the three add up to the length |
| `Engine.Game.ValidateBoard` | src/main/java/com/jtse/tictactoe/Game.java:62-75 | returns validation's message, the first failing rule's; no message means nine spaces and X zero or one ahead of O |
| `Engine.Game.GetBoard` | src/main/java/com/jtse/tictactoe/Game.java:98-100 | the nine cells of the board, space by space |
| `Engine.Game.WinnerForSeq` | src/main/java/com/jtse/tictactoe/Game.java:102-113 | the loop returns the sequence's owner; a non-null result fills every indexed space |
| `Engine.Game.FindWinner` | src/main/java/com/jtse/tictactoe/Game.java:115-139 | the loop over the eight lines returns the winner, the owner of the first completed line |
| `Engine.Game.FindNextPlayer` | src/main/java/com/jtse/tictactoe/Game.java:141-162 | returns the next player; a non-null result means no winner and a free space |
| `Engine.Game.Move` | src/main/java/com/jtse/tictactoe/Game.java:164-206 | returns the exception of the first failing check, or none; the new board is the model's move result; other spaces are unchanged; a made move puts the piece on a space that was empty; validity is preserved |
| `Console.DrawPiece` | src/main/java/com/jtse/tictactoe/REPL.java:116-119 | each piece is drawn as one character, and that character reads back as the piece |
| `Console.BoardArt` | src/main/java/com/jtse/tictactoe/REPL.java:129-144 | drawBoard's text for the cells: the three row lines joined by the rule line; BoardArtRows, BoardArtPicture and BoardArtRoundTrip prove its shape and that it determines the board |
| `Console.RowLineShape` | src/main/java/com/jtse/tictactoe/REPL.java:135-141 | a row is three spaces of indent and padding, the three pieces separated by a bar with a blank on each side, then a blank and a newline |
| `Console.BoardArtRows` | src/main/java/com/jtse/tictactoe/REPL.java:143 | the drawing is the three rows joined by the rule line |
| `Console.BoardArtPicture` | src/test/java/com/jtse/tictactoe/REPLTest.java:180-187 | the drawing is the test's expected picture produced from the nine drawn pieces |
| `Console.ReadRowLine` | src/main/java/com/jtse/tictactoe/REPL.java:136-140 | each row is 14 characters, and its pieces read back from offsets 3, 7 and 11 |
| `Console.BoardArtRoundTrip` | src/main/java/com/jtse/tictactoe/REPL.java:121-144 | the drawing determines the board: reading it back gives the nine cells |
| `Console.GameStatus` | src/main/java/com/jtse/tictactoe/REPL.java:151-163 | "<m> wins!" when m has won, "The game is a draw" on a draw, "<m> goes next" when m is due |
| `Console.GameStatusNamesStatus` | src/main/java/com/jtse/tictactoe/REPL.java:146-163 | "<m> wins!", "The game is a draw" and "<m> goes next" each appear exactly in their game state |
| `Console.NewGameStatus` | src/test/java/com/jtse/tictactoe/REPLTest.java:48-53 | a new game's status is "'X' goes next" |
| `Console.Respond` | src/main/java/com/jtse/tictactoe/REPL.java:179 | a null or empty message becomes "OK"; any other message is returned unchanged; the answer is never empty |
| `Console.InvalidCommandMessage` | src/main/java/com/jtse/tictactoe/REPL.java:95-97 | "Invalid command: " followed by exactly the command name as given |
| `Console.SymbolPiece` | src/main/java/com/jtse/tictactoe/REPL.java:64-65 | a piece token names a mark, X exactly for x in either case and O otherwise |
| `Console.MoveMessage` | src/main/java/com/jtse/tictactoe/REPL.java:61-84 | the move command throws exactly when the line runs out of tokens; any message it gives is non-empty; a well-formed move gives no message exactly when the engine accepts it |
| `Console.MoveBoard` | src/main/java/com/jtse/tictactoe/REPL.java:61-84 | the move command keeps nine spaces and changes none but the named location |
| `Console.Response` | src/main/java/com/jtse/tictactoe/REPL.java:165-182 | an answer is never empty; a well-formed move line is answered "OK" exactly when the engine accepts the move |
| `Console.BoardAfter` | src/main/java/com/jtse/tictactoe/REPL.java:165-182 | "new" leaves the empty board; any other line keeps nine spaces and changes none but the location a move line names |
| `Console.NewCommandStartsOver` | src/main/java/com/jtse/tictactoe/REPL.java:45-51 | "new" in any letter case answers "OK" and leaves an empty board with X to move |
| `Console.UnknownCommandLeavesGame` | src/main/java/com/jtse/tictactoe/REPL.java:87-112 | any other first word than new and move is answered "Invalid command: " with the lower-cased word, and the board is kept |
| `Console.MoveCommandForwardsEngine` | src/main/java/com/jtse/tictactoe/REPL.java:77-83 | a well-formed move is answered with exactly the engine's reason when refused, and "OK" with the engine's new board when made |
| `Console.ResponseIsNeverEmpty` | src/main/java/com/jtse/tictactoe/REPL.java:174-182 | eval never answers with an empty string; it throws exactly for a blank line or a move line that runs out of tokens, and then the board is unchanged |
| `Console.EvalPreservesAcceptance` | src/main/java/com/jtse/tictactoe/REPL.java:174-182 | no command turns a board that passes validation into one that does not |
| `Console.Repl.constructor` | src/main/java/com/jtse/tictactoe/REPL.java:26 | the REPL starts with its own new game, an empty board |
| `Console.Repl.NewCommand` | src/main/java/com/jtse/tictactoe/REPL.java:45-51 | replaces the game with a fresh one on an empty board and returns no message |
| `Console.Repl.MoveCommand` | src/main/java/com/jtse/tictactoe/REPL.java:61-84 | the reply is the model's move message for the arguments; the board becomes the model's board after them |
| `Console.Repl.Eval` | src/main/java/com/jtse/tictactoe/REPL.java:165-182 | the response and new board are exactly the model's; only "new" replaces the game object |
| `Console.Repl.DrawBoard` | src/main/java/com/jtse/tictactoe/REPL.java:121-144 | the loop over the rows returns the drawing of the current board |
| `Console.Repl.FindGameStatus` | src/main/java/com/jtse/tictactoe/REPL.java:146-163 | returns the status text of the current board |
| `Scenarios.LegalMoveLine` | src/main/java/com/jtse/tictactoe/REPL.java:61-84 | a move line for the player who is due, onto a free space, answers "OK" and places that mark there |
| `Scenarios.OutOfTurnLine` | src/main/java/com/jtse/tictactoe/REPL.java:77-80 | a move line by the player who is not due is refused with "<m> has moved out of turn" and keeps the board |
| `Scenarios.WonGameLine` | src/main/java/com/jtse/tictactoe/REPL.java:77-80 | after m has won, every move line is refused with "<m> has already won" and keeps the board |
| `Scenarios.DrawnGameLine` | src/main/java/com/jtse/tictactoe/REPL.java:77-80 | on a drawn board every move line is refused with "the game is a draw" and keeps the board |
| `Scenarios.NotAPieceLine` | src/main/java/com/jtse/tictactoe/REPL.java:63-68 | a piece token other than x or o is reported back in lower case as not a valid piece, and the board is kept |
| `Scenarios.NotALocationLine` | src/main/java/com/jtse/tictactoe/REPL.java:70-75 | a location token that is not an integer is reported back in lower case as not a valid location, and the board is kept |
| `Scenarios.DiagonalWon` | src/test/java/com/jtse/tictactoe/REPLTest.java:96-101 | X filling 0, 4 and 8 is the winner |
| `Scenarios.FullBoardDrawn` | src/test/java/com/jtse/tictactoe/REPLTest.java:138-143 | the full board of the second test game is a draw |
| `Scenarios.NonsenseCommand` | src/test/java/com/jtse/tictactoe/REPLTest.java:42-47 | "foo bar baz" answers "Invalid command: foo" and keeps the empty board |
| `Scenarios.BadPiece` | src/test/java/com/jtse/tictactoe/REPLTest.java:54-59 | "move foo 0" answers that foo is not a valid piece and keeps the board |
| `Scenarios.BadLocation` | src/test/java/com/jtse/tictactoe/REPLTest.java:60-65 | "move X blah" answers that blah is not a valid location and keeps the board |
| `Scenarios.UpperCaseMove` | src/test/java/com/jtse/tictactoe/REPLTest.java:72-77 | "MOVE O 1" after X's first move answers "OK" and places O at 1 |
| `Scenarios.SecondMoveByO` | src/test/java/com/jtse/tictactoe/REPLTest.java:78-83 | O's second move in a row answers "'O' has moved out of turn" and keeps the board |
| `Scenarios.WinningMove` | src/test/java/com/jtse/tictactoe/REPLTest.java:96-101 | "move x 8" answers "OK" and completes the diagonal |
| `Scenarios.WonStatus` | src/test/java/com/jtse/tictactoe/REPLTest.java:96-101 | the status after the win is "'X' wins!" |
| `Scenarios.MoveAfterWin` | src/test/java/com/jtse/tictactoe/REPLTest.java:102-107 | a move after X's win answers "'X' has already won" and keeps the board |
| `Scenarios.LastSpace` | src/test/java/com/jtse/tictactoe/REPLTest.java:138-143 | "move X 5" fills the last space and answers "OK" |
| `Scenarios.DrawnStatus` | src/test/java/com/jtse/tictactoe/REPLTest.java:138-143 | the status of the full board is "The game is a draw" |
| `Scenarios.MoveAfterDraw` | src/test/java/com/jtse/tictactoe/REPLTest.java:144-149 | a move on the drawn board answers "the game is a draw" and keeps the board |

## Left out

- `REPL.run`, the console loop, is left out. It does I/O: it prints the board and the status, reads a line, stops on `exit`, and prints a stack trace for an escaped exception. The REPL constructor's input and output streams go with it.
- Scanner tokenising, the `[xo]` pattern match and `nextInt` are left out. A command line arrives already split: `CommandLine` is `Blank` or a first word plus `MoveArgs`. `MoveArgs` is one of four things: a piece token and an int, a token that is no piece, a piece token and a further token, or too few tokens. The piece tokens are typed: `PieceSymbol` holds only x or o in either case, and `OtherToken` holds anything else. The model does not check that tokens are free of whitespace, nor that the token after a piece is not an integer in `NotALocation`. The index in `Located` is any `int`. So locale group separators, non-ASCII digits and `nextInt`'s 32-bit range check are not modelled. An out-of-range number would reach the model as `NotALocation`, as it does in Java.
- `Text.Lower` maps only ASCII letters. Java's Unicode lower-casing is not modelled.
- `InvalidMoves.InvalidMove.ToString`: the `Throwable.toString` prefix is the parameter `throwableText`. It is the JVM's class-name-and-message text, not modelled; only the part the class adds is.
- `Engine.Game.Restore` returns `Err(message)` where the Java throws `InvalidBoardException`, which is not part of this model.
- A `null` board array passed to `Game(Boolean[])`, which would make Java throw `NullPointerException`, is not modelled.
- `Engine.Game.Restore` copies the cells and `Engine.Game.GetBoard` returns a value. The Java shares the caller's array, so a later write through either alias shows up in the other; that aliasing is not modelled.
- Boolean identity is left out. Move's turn test `nextPlayer != piece` compares object references. The canonical boxed `Boolean.FALSE`/`TRUE` make it agree with value equality for the values the REPL and tests pass. The model compares values.
- `pieceCounts`' `HashMap` is a `Tally` of three counts; the map mechanics are not modelled.
- Move's index is an unbounded `int`. Java's `int` range matters only through `nextInt`, which is left out above.
- The checked `throws Exception` of `eval` is modelled only for what can escape: `NoSuchElementException` from Scanner (`Thrown`).

