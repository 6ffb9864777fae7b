/** The REPL: the text the console shows for a board (drawBoard, drawPiece,
    findGameStatus) and the evaluation of one command line against the REPL's
    current game (eval with its new, move and invalid commands). */
module Console {
  import opened Results
  import opened Text
  import opened Pieces
  import opened InvalidMoves
  import opened Rules
  import opened Engine

  /** drawPiece: one character per space, and no two pieces look alike. */
  function DrawPiece(piece: Cell): (s: string)
    ensures |s| == 1 && ReadPiece(s[0]) == piece
  {
    match piece
    case Empty => " "
    case X => "X"
    case O => "O"
  }

  /** Reads one drawn space back. */
  function ReadPiece(c: char): Cell
  {
    if c == 'X' then X else if c == 'O' then O else Empty
  }

  /** The stream stage of drawBoard: each drawn piece with a space on each side. */
  function Padded(cells: seq<Cell>): seq<string>
  {
    seq(|cells|, k requires 0 <= k < |cells| => " " + DrawPiece(cells[k]) + " ")
  }

  /** The text drawBoard puts before each row and the line it puts between rows. */
  const Indent := "  "
  const Rule := Indent + "---+---+---\n"

  /** Row r of the drawing: its three spaces separated by bars, indented and
      ended with a newline. */
  function RowLine(b: seq<Cell>, r: int): string
    requires |b| == 9 && 0 <= r < 3
  {
    Indent + Join(Padded(b[3 * r..3 * r + 3]), "|") + "\n"
  }

  /** drawBoard's result for the cells b: the three rows joined by the rule. */
  function BoardArt(b: seq<Cell>): string
    requires |b| == 9
  {
    Join([RowLine(b, 0), RowLine(b, 1), RowLine(b, 2)], Rule)
  }

  /** Reads the three spaces back out of one 14-character row, from
      offsets 3, 7 and 11. */
  function ReadRow(row: string): seq<Cell>
    requires |row| == 14
  {
    [ReadPiece(row[3]), ReadPiece(row[7]), ReadPiece(row[11])]
  }

  /** Reads the nine spaces back out of a drawing: rows and rules are 14
      characters each, so the rows start at 0, 28 and 56. */
  function ReadArt(art: string): Option<seq<Cell>>
  {
    if |art| != 70 then None
    else Some(ReadRow(art[..14]) + ReadRow(art[28..42]) + ReadRow(art[56..]))
  }

  /** Joining three parts puts the separator between each two. */
  lemma JoinThree(a: string, b: string, c: string, sep: string)
    ensures Join([a, b, c], sep) == a + sep + (b + sep + c)
  {
    assert [a, b, c][1..] == [b, c];
    assert [b, c][1..] == [c];
    assert Join([c], sep) == c;
    assert Join([b, c], sep) == b + sep + c;
  }

  /** One row of the drawing, written out: "   a | b | c \n". */
  lemma RowLineShape(b: seq<Cell>, r: int)
    requires |b| == 9 && 0 <= r < 3
    ensures RowLine(b, r) == "   " + DrawPiece(b[3 * r]) + " | " + DrawPiece(b[3 * r + 1]) + " | " + DrawPiece(b[3 * r + 2]) + " \n"
  {
    var p0, p1, p2 := " " + DrawPiece(b[3 * r]) + " ", " " + DrawPiece(b[3 * r + 1]) + " ", " " + DrawPiece(b[3 * r + 2]) + " ";
    assert Padded(b[3 * r..3 * r + 3]) == [p0, p1, p2];
    JoinThree(p0, p1, p2, "|");
  }

  /** The drawing is the three rows with a rule between each two. */
  lemma BoardArtRows(b: seq<Cell>)
    requires |b| == 9
    ensures BoardArt(b) == RowLine(b, 0) + Rule + (RowLine(b, 1) + Rule + RowLine(b, 2))
  {
    JoinThree(RowLine(b, 0), RowLine(b, 1), RowLine(b, 2), Rule);
  }

  /** The drawing is exactly the one the REPL's tests expect: three rows of
      the form "   a | b | c \n" separated by "  ---+---+---\n". */
  lemma BoardArtPicture(b: seq<Cell>)
    requires |b| == 9
    ensures BoardArt(b) ==
      ("   " + DrawPiece(b[0]) + " | " + DrawPiece(b[1]) + " | " + DrawPiece(b[2]) + " \n")
      + "  ---+---+---\n"
      + ("   " + DrawPiece(b[3]) + " | " + DrawPiece(b[4]) + " | " + DrawPiece(b[5]) + " \n")
      + "  ---+---+---\n"
      + ("   " + DrawPiece(b[6]) + " | " + DrawPiece(b[7]) + " | " + DrawPiece(b[8]) + " \n")
  {
    BoardArtRows(b);
    RowLineShape(b, 0);
    RowLineShape(b, 1);
    RowLineShape(b, 2);
    Assemble(RowLine(b, 0), RowLine(b, 1), RowLine(b, 2),
      DrawPiece(b[0]), DrawPiece(b[1]), DrawPiece(b[2]), DrawPiece(b[3]), DrawPiece(b[4]),
      DrawPiece(b[5]), DrawPiece(b[6]), DrawPiece(b[7]), DrawPiece(b[8]));
  }

  /** The string step of BoardArtPicture, over the rows' own texts. */
  lemma Assemble(r0: string, r1: string, r2: string,
                 d0: string, d1: string, d2: string, d3: string, d4: string,
                 d5: string, d6: string, d7: string, d8: string)
    requires r0 == "   " + d0 + " | " + d1 + " | " + d2 + " \n"
    requires r1 == "   " + d3 + " | " + d4 + " | " + d5 + " \n"
    requires r2 == "   " + d6 + " | " + d7 + " | " + d8 + " \n"
    ensures r0 + Rule + (r1 + Rule + r2) ==
      ("   " + d0 + " | " + d1 + " | " + d2 + " \n")
      + "  ---+---+---\n"
      + ("   " + d3 + " | " + d4 + " | " + d5 + " \n")
      + "  ---+---+---\n"
      + ("   " + d6 + " | " + d7 + " | " + d8 + " \n")
  {
    assert Rule == "  ---+---+---\n";
    assert r0 + Rule + (r1 + Rule + r2) == r0 + Rule + r1 + Rule + r2;
  }

  /** Each row reads back as the three spaces it shows. */
  lemma ReadRowLine(b: seq<Cell>, r: int)
    requires |b| == 9 && 0 <= r < 3
    ensures |RowLine(b, r)| == 14 && ReadRow(RowLine(b, r)) == b[3 * r..3 * r + 3]
  {
    RowLineShape(b, r);
  }

  /** The rows of three 14-character rows joined by a 14-character rule. */
  lemma RowsSlices(art: string, r0: string, r1: string, r2: string, rule: string)
    requires |r0| == 14 && |r1| == 14 && |r2| == 14 && |rule| == 14
    requires art == r0 + rule + (r1 + rule + r2)
    ensures |art| == 70 && art[..14] == r0 && art[28..42] == r1 && art[56..] == r2
  {
  }

  /** The drawing determines the board: reading it back gives every space. */
  lemma BoardArtRoundTrip(b: seq<Cell>)
    requires |b| == 9
    ensures ReadArt(BoardArt(b)) == Some(b)
  {
    BoardArtRows(b);
    ReadRowLine(b, 0);
    ReadRowLine(b, 1);
    ReadRowLine(b, 2);
    assert |Rule| == 14;
    RowsSlices(BoardArt(b), RowLine(b, 0), RowLine(b, 1), RowLine(b, 2), Rule);
    assert b == b[0..3] + b[3..6] + b[6..9];
  }

  /** findGameStatus: the winner, a draw, or whose turn it is. */
  function GameStatus(b: seq<Cell>): (status: string)
    requires |b| == 9
    ensures match StatusOf(b)
      case Won(w) => status == PieceName(w) + " wins!"
      case Draw => status == "The game is a draw"
      case InProgress(p) => status == PieceName(p) + " goes next"
  {
    var winner := Winner(b);
    if winner != Empty then PieceName(winner) + " wins!"
    else
      var nextPlayer := NextPlayer(b);
      if nextPlayer == Empty then "The game is a draw" else PieceName(nextPlayer) + " goes next"
  }

  /** The status text names exactly the state of the game: a win by m, a
      draw, or m to move, and each text comes from exactly that state. */
  lemma GameStatusNamesStatus(b: seq<Cell>, m: Cell)
    requires |b| == 9 && m != Empty
    ensures GameStatus(b) == PieceName(m) + " wins!" <==> StatusOf(b) == Won(m)
    ensures GameStatus(b) == "The game is a draw" <==> StatusOf(b) == Draw
    ensures GameStatus(b) == PieceName(m) + " goes next" <==> StatusOf(b) == InProgress(m)
  {
    var s := GameStatus(b);
    if Winner(b) != Empty {
      assert s[|s| - 1] == '!';
      PieceNameInjective(Winner(b), m);
      assert s == PieceName(m) + " wins!" ==> s[..3] == PieceName(m);
    } else if NextPlayer(b) != Empty {
      assert s[|s| - 1] == 't';
      PieceNameInjective(NextPlayer(b), m);
      assert s == PieceName(m) + " goes next" ==> s[..3] == PieceName(m);
    }
  }

  /** The status of a new game. */
  lemma NewGameStatus()
    ensures GameStatus(EmptyBoard) == "'X' goes next"
  {
    NewGameXMovesFirst([]);
  }

  /** eval's rule for the command's result: no message, or an empty one,
      is reported as "OK"; any other message is reported unchanged. */
  function Respond(message: Option<string>): (response: string)
    ensures response != ""
    ensures message.None? ==> response == "OK"
    ensures message.Some? ==> response == (if message.value == "" then "OK" else message.value)
  {
    if message.None? || message.value == "" then "OK" else message.value
  }

  /** A token that matches [xo] once lower-cased. */
  type PieceSymbol = s: string | Lower(s) == "x" || Lower(s) == "o" witness "x"

  /** A token that does not match [xo] once lower-cased. */
  type OtherToken = s: string | Lower(s) != "x" && Lower(s) != "o" witness "foo"

  /** What Scanner reads, for a move command, after the command name.
      Tokens are kept as typed; the model lower-cases them, as parseCommand
      lower-cases the whole line before scanning. */
  datatype MoveArgs =
    | Located(symbol: PieceSymbol, idx: int)        // a token matching [xo], then an int
    | NotAPiece(token: OtherToken)                  // the next token does not match [xo]
    | NotALocation(symbol: PieceSymbol, location: string) // a piece, then a token that is not an int
    | Exhausted                                // the line ends before a token the command reads

  /** A command line: Blank when it holds no token at all, otherwise its first
      token and what the rest of the line scans as. */
  datatype CommandLine = Blank | Words(name: string, moveArgs: MoveArgs)

  /** The exception eval lets escape: Scanner.next on a line with no token left. */
  datatype Thrown = NoSuchElement

  /** The piece a matched symbol stands for. */
  function SymbolPiece(symbol: PieceSymbol): (piece: Cell)
    ensures piece != Empty
    ensures piece == X <==> Lower(symbol) == "x"
  {
    if Lower(symbol) == "x" then X else O
  }

  /** InvalidCommand.call. */
  function InvalidCommandMessage(name: string): (message: string)
    ensures |message| == |"Invalid command: "| + |name|
    ensures message[..|"Invalid command: "|] == "Invalid command: " && message[|"Invalid command: "|..] == name
  {
    "Invalid command: " + name
  }

  /** MoveCommand.call on the cells b: the engine's reason when it rejects
      the move, the scanner's complaint when an argument is malformed. */
  function MoveMessage(b: seq<Cell>, args: MoveArgs): (reply: Result<Option<string>, Thrown>)
    requires |b| == 9
    ensures reply.Err? <==> args.Exhausted?
    ensures reply.Ok? && reply.value.Some? ==> reply.value.value != ""
    ensures args.Located? ==> (reply == Ok(None) <==> MoveError(b, SymbolPiece(args.symbol), args.idx).None?)
  {
    match args
    case Located(symbol, idx) =>
      var error := MoveError(b, SymbolPiece(symbol), idx);
      if error.Some? then Ok(Some(error.value.GetMessage())) else Ok(None)
    case NotAPiece(token) =>
      Ok(Some("move: " + Lower(token) + " is not a valid piece (must be X or O)"))
    case NotALocation(_, token) =>
      Ok(Some("move: " + Lower(token) + " is not a valid location (must be between 0 and 8)"))
    case Exhausted => Err(NoSuchElement)
  }

  /** The cells after MoveCommand.call. */
  function MoveBoard(b: seq<Cell>, args: MoveArgs): (r: seq<Cell>)
    requires |b| == 9
    ensures |r| == 9
    ensures forall k :: 0 <= k < 9 && !(args.Located? && k == args.idx) ==> r[k] == b[k]
  {
    if args.Located? then ApplyMove(b, SymbolPiece(args.symbol), args.idx) else b
  }

  /** eval's result on the cells b: the parsed command's message under the
      "OK" rule, or the exception that escapes. */
  function Response(b: seq<Cell>, line: CommandLine): (response: Result<string, Thrown>)
    requires |b| == 9
    ensures response.Ok? ==> response.value != ""
    ensures line.Words? && Lower(line.name) == "move" && line.moveArgs.Located? ==>
      (response == Ok("OK") <==> MoveError(b, SymbolPiece(line.moveArgs.symbol), line.moveArgs.idx).None?)
  {
    match line
    case Blank => Err(NoSuchElement)
    case Words(name, args) =>
      if Lower(name) == "new" then Ok(Respond(None))
      else if Lower(name) == "move" then
        match MoveMessage(b, args)
        case Ok(message) => Ok(Respond(message))
        case Err(e) => Err(e)
      else Ok(Respond(Some(InvalidCommandMessage(Lower(name)))))
  }

  /** The REPL's cells after eval. */
  function BoardAfter(b: seq<Cell>, line: CommandLine): (r: seq<Cell>)
    requires |b| == 9
    ensures |r| == 9
    ensures StartsNewGame(line) ==> r == EmptyBoard
    ensures !StartsNewGame(line) ==>
      forall k :: 0 <= k < 9 && !(line.Words? && line.moveArgs.Located? && k == line.moveArgs.idx) ==> r[k] == b[k]
  {
    match line
    case Blank => b
    case Words(name, args) =>
      if Lower(name) == "new" then EmptyBoard
      else if Lower(name) == "move" then MoveBoard(b, args)
      else b
  }

  /** Whether eval of line replaces the game. */
  predicate StartsNewGame(line: CommandLine)
  {
    line.Words? && Lower(line.name) == "new"
  }

  /** The new command, in any letter case, answers "OK" and leaves an empty
      board on which X moves next. */
  lemma NewCommandStartsOver(b: seq<Cell>, name: string, args: MoveArgs)
    requires |b| == 9 && Lower(name) == "new"
    ensures Response(b, Words(name, args)) == Ok("OK")
    ensures BoardAfter(b, Words(name, args)) == EmptyBoard
    ensures GameStatus(BoardAfter(b, Words(name, args))) == "'X' goes next"
  {
    NewGameStatus();
  }

  /** A first token other than new and move is reported back, lower-cased,
      as an invalid command, and the game is left as it was. */
  lemma UnknownCommandLeavesGame(b: seq<Cell>, name: string, args: MoveArgs)
    requires |b| == 9 && Lower(name) != "new" && Lower(name) != "move"
    ensures Response(b, Words(name, args)) == Ok("Invalid command: " + Lower(name))
    ensures BoardAfter(b, Words(name, args)) == b
  {
  }

  /** A well-formed move is answered with exactly the engine's reason when
      the engine rejects it, and with "OK" when it is played. */
  lemma MoveCommandForwardsEngine(b: seq<Cell>, name: string, symbol: PieceSymbol, idx: int)
    requires |b| == 9 && Lower(name) == "move"
    ensures var piece := SymbolPiece(symbol);
      var line := Words(name, Located(symbol, idx));
      match MoveError(b, piece, idx)
      case Some(e) => Response(b, line) == Ok(Reason(b, piece, idx)) && e.GetMessage() == Reason(b, piece, idx)
                      && BoardAfter(b, line) == b
      case None => Response(b, line) == Ok("OK") && BoardAfter(b, line) == ApplyMove(b, piece, idx)
  {
    var piece := SymbolPiece(symbol);
    ReasonExplainsJudge(b, piece, idx);
    RejectionCarriesAttempt(b, piece, idx);
    MoveChangesOnlyTarget(b, piece, idx);
    if MoveError(b, piece, idx).Some? {
      ExplainRoundTrip(Judge(b, piece, idx));
      assert Reason(b, piece, idx) != "";
    }
  }

  /** eval never answers with an empty string, and it throws exactly when
      the line has no command or a move command runs out of tokens. */
  lemma ResponseIsNeverEmpty(b: seq<Cell>, line: CommandLine)
    requires |b| == 9
    ensures Response(b, line).Ok? ==> Response(b, line).value != ""
    ensures Response(b, line).Err? <==>
      line.Blank? || (Lower(line.name) == "move" && line.moveArgs.Exhausted?)
    ensures Response(b, line).Err? ==> BoardAfter(b, line) == b
  {
  }

  /** Evaluating a command never turns a board that passes validation into
      one that does not. */
  lemma EvalPreservesAcceptance(b: seq<Cell>, line: CommandLine)
    requires Accepted(b)
    ensures Accepted(BoardAfter(b, line))
  {
    match line
    case Blank =>
    case Words(name, args) =>
      if Lower(name) == "new" {
        NewGameXMovesFirst([]);
      } else if Lower(name) == "move" && args.Located? {
        MovePreservesAcceptance(b, SymbolPiece(args.symbol), args.idx);
      }
  }

  /** The REPL: the game that commands act on. */
  class Repl {
    var game: Game

    ghost predicate Valid()
      reads this, game
    {
      game.Valid()
    }

    /** REPL(in, out): starts with a new game. */
    constructor ()
      ensures Valid() && fresh(game) && fresh(game.board)
      ensures game.board[..] == EmptyBoard
    {
      game := new Game();
    }

    /** NewCommand.call: replaces the game with a new one; no message. */
    method NewCommand() returns (message: Option<string>)
      modifies this
      ensures Valid() && fresh(game) && fresh(game.board)
      ensures game.board[..] == EmptyBoard
      ensures message == None
    {
      game := new Game();
      message := None;
    }

    /** MoveCommand.call, given what its scanner reads. */
    method MoveCommand(args: MoveArgs) returns (reply: Result<Option<string>, Thrown>)
      requires Valid()
      modifies game.board
      ensures Valid()
      ensures reply == MoveMessage(old(game.board[..]), args)
      ensures game.board[..] == MoveBoard(old(game.board[..]), args)
    {
      match args
      case Located(symbol, idx) =>
        var piece := SymbolPiece(symbol);
        var error := game.Move(piece, idx);
        if error.Some? {
          return Ok(Some(error.value.GetMessage()));
        }
        return Ok(None);
      case NotAPiece(token) =>
        return Ok(Some("move: " + Lower(token) + " is not a valid piece (must be X or O)"));
      case NotALocation(_, token) =>
        return Ok(Some("move: " + Lower(token) + " is not a valid location (must be between 0 and 8)"));
      case Exhausted =>
        return Err(NoSuchElement);
    }

    /** eval: runs the command the line names and applies the "OK" rule to
        its message. */
    method Eval(line: CommandLine) returns (response: Result<string, Thrown>)
      requires Valid()
      modifies this, game.board
      ensures Valid()
      ensures response == Response(old(game.board[..]), line)
      ensures game.board[..] == BoardAfter(old(game.board[..]), line)
      ensures StartsNewGame(line) ==> fresh(game) && fresh(game.board)
      ensures !StartsNewGame(line) ==> game == old(game)
    {
      if line.Blank? {
        return Err(NoSuchElement);
      }
      var commandName := Lower(line.name);
      var message: Option<string>;
      if commandName == "new" {
        message := NewCommand();
      } else if commandName == "move" {
        var reply := MoveCommand(line.moveArgs);
        if reply.Err? {
          return Err(reply.error);
        }
        message := reply.value;
      } else {
        message := Some(InvalidCommandMessage(commandName));
      }
      if message.None? || message.value == "" {
        return Ok("OK");
      }
      return Ok(message.value);
    }

    /** drawBoard: builds the rows three spaces at a time and joins them. */
    method DrawBoard() returns (art: string)
      requires Valid()
      ensures art == BoardArt(game.board[..])
    {
      var space := Indent;
      var board := game.GetBoard();
      assert board == game.board[..];
      var rows: seq<string> := [];
      var i := 0;
      while i < |board|
        invariant 0 <= i <= 9 && i % 3 == 0
        invariant |rows| == i / 3
        invariant forall r :: 0 <= r < |rows| ==> rows[r] == RowLine(board, r)
      {
        var row := Join(Padded(board[i..i + 3]), "|");
        rows := rows + [space + row + "\n"];
        i := i + 3;
      }
      assert rows == [RowLine(board, 0), RowLine(board, 1), RowLine(board, 2)];
      art := Join(rows, space + "---+---+---\n");
    }

    /** findGameStatus on the current game. */
    method FindGameStatus() returns (status: string)
      requires Valid()
      ensures status == GameStatus(game.board[..])
    {
      var winner := game.FindWinner();
      if winner != Empty {
        return PieceName(winner) + " wins!";
      }
      var nextPlayer := game.FindNextPlayer();
      if nextPlayer == Empty {
        return "The game is a draw";
      } else {
        return PieceName(nextPlayer) + " goes next";
      }
    }
  }
}
