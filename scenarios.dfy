/** Commands from the REPL's own tests, evaluated on the model: each
    command's response and the board it leaves. The general lemmas say
    what a move line does in each state of the game; the board lemmas
    establish the state of each concrete board the tests reach. */
module Scenarios {
  import opened Results
  import opened Text
  import opened Pieces
  import opened Rules
  import opened Console

  // ---------------------------------------------------------------------
  // A move line in each state of the game
  // ---------------------------------------------------------------------

  /** A move by the player whose turn it is, to an empty space, is answered
      "OK" and places that player's mark there. */
  lemma LegalMoveLine(b: seq<Cell>, name: string, symbol: PieceSymbol, idx: int)
    requires |b| == 9 && Lower(name) == "move"
    requires NextPlayer(b) == SymbolPiece(symbol) && 0 <= idx < 9 && b[idx] == Empty
    ensures Response(b, Words(name, Located(symbol, idx))) == Ok("OK")
    ensures BoardAfter(b, Words(name, Located(symbol, idx))) == b[idx := SymbolPiece(symbol)]
  {
    MoveCommandForwardsEngine(b, name, symbol, idx);
    MoveSucceedsIff(b, SymbolPiece(symbol), idx);
  }

  /** A move by m when it is the other player's turn is refused, whatever the
      location, and names m. */
  lemma OutOfTurnLine(b: seq<Cell>, name: string, symbol: PieceSymbol, idx: int, m: Cell)
    requires |b| == 9 && Lower(name) == "move"
    requires m != Empty && SymbolPiece(symbol) == m && NextPlayer(b) == Other(m)
    ensures Response(b, Words(name, Located(symbol, idx))) == Ok(PieceName(m) + " has moved out of turn")
    ensures BoardAfter(b, Words(name, Located(symbol, idx))) == b
  {
    MoveCommandForwardsEngine(b, name, symbol, idx);
    OutOfTurnReason(b, m, idx, m);
  }

  /** Once m has won, every move line is refused with m's win. */
  lemma WonGameLine(b: seq<Cell>, name: string, symbol: PieceSymbol, idx: int, m: Cell)
    requires |b| == 9 && Lower(name) == "move" && m != Empty && Winner(b) == m
    ensures Response(b, Words(name, Located(symbol, idx))) == Ok(PieceName(m) + " has already won")
    ensures BoardAfter(b, Words(name, Located(symbol, idx))) == b
  {
    var piece := SymbolPiece(symbol);
    assert piece != Empty;
    MoveCommandForwardsEngine(b, name, symbol, idx);
    ReasonsBeforeTheTurn(b, piece, idx, m);
  }

  /** On a drawn board every move line is refused with the draw. */
  lemma DrawnGameLine(b: seq<Cell>, name: string, symbol: PieceSymbol, idx: int)
    requires |b| == 9 && Lower(name) == "move" && StatusOf(b) == Draw
    ensures Response(b, Words(name, Located(symbol, idx))) == Ok("the game is a draw")
    ensures BoardAfter(b, Words(name, Located(symbol, idx))) == b
  {
    var piece := SymbolPiece(symbol);
    assert piece != Empty;
    MoveCommandForwardsEngine(b, name, symbol, idx);
    ReasonsBeforeTheTurn(b, piece, idx, X);
  }

  /** A move whose piece token is not x or o is answered with the
      lower-cased token and leaves the board as it was. */
  lemma NotAPieceLine(b: seq<Cell>, name: string, token: OtherToken)
    requires |b| == 9 && Lower(name) == "move"
    ensures Response(b, Words(name, NotAPiece(token)))
      == Ok("move: " + Lower(token) + " is not a valid piece (must be X or O)")
    ensures BoardAfter(b, Words(name, NotAPiece(token))) == b
  {
    assert |"move: " + Lower(token) + " is not a valid piece (must be X or O)"| > 0;
  }

  /** A move whose location token is not an integer is answered with the
      lower-cased token and leaves the board as it was. */
  lemma NotALocationLine(b: seq<Cell>, name: string, symbol: PieceSymbol, token: string)
    requires |b| == 9 && Lower(name) == "move"
    ensures Response(b, Words(name, NotALocation(symbol, token)))
      == Ok("move: " + Lower(token) + " is not a valid location (must be between 0 and 8)")
    ensures BoardAfter(b, Words(name, NotALocation(symbol, token))) == b
  {
    assert |"move: " + Lower(token) + " is not a valid location (must be between 0 and 8)"| > 0;
  }

  // ---------------------------------------------------------------------
  // The boards the tests reach
  // ---------------------------------------------------------------------

  /** X at 0: no line, one X, no O. */
  lemma AfterOneX(b: seq<Cell>)
    requires b == [X, Empty, Empty, Empty, Empty, Empty, Empty, Empty, Empty]
    ensures forall k :: 0 <= k < 8 ==> !LineWon(b, k)
    ensures multiset(b)[Empty] == 8 && multiset(b)[X] == 1 && multiset(b)[O] == 0
  {
  }

  /** X at 0, O at 1: no line, one piece each. */
  lemma AfterOneEach(b: seq<Cell>)
    requires b == [X, O, Empty, Empty, Empty, Empty, Empty, Empty, Empty]
    ensures forall k :: 0 <= k < 8 ==> !LineWon(b, k)
    ensures multiset(b)[Empty] == 7 && multiset(b)[X] == 1 && multiset(b)[O] == 1
  {
  }

  /** X at 0 and 4, O at 1 and 5: no line, two pieces each. */
  lemma AfterTwoEach(b: seq<Cell>)
    requires b == [X, O, Empty, Empty, X, O, Empty, Empty, Empty]
    ensures forall k :: 0 <= k < 8 ==> !LineWon(b, k)
    ensures multiset(b)[Empty] == 5 && multiset(b)[X] == 2 && multiset(b)[O] == 2
  {
  }

  /** X holds the diagonal 0, 4, 8: X has won. */
  lemma DiagonalWon(b: seq<Cell>)
    requires b == [X, O, Empty, Empty, X, O, Empty, Empty, X]
    ensures Winner(b) == X
  {
    WinnerIsFirstCompletedLine(b, X);
    assert LineHolds(b, 6, X);
    assert !LineWon(b, 0) && !LineWon(b, 1) && !LineWon(b, 2);
    assert !LineWon(b, 3) && !LineWon(b, 4) && !LineWon(b, 5);
  }

  /** Eight pieces and no line: four each, and space 5 still empty. */
  lemma AfterEightMoves(b: seq<Cell>)
    requires b == [X, O, X, O, X, Empty, O, X, O]
    ensures forall k :: 0 <= k < 8 ==> !LineWon(b, k)
    ensures multiset(b)[Empty] == 1 && multiset(b)[X] == 4 && multiset(b)[O] == 4
  {
  }

  /** A full board with no line: a draw. */
  lemma FullBoardDrawn(b: seq<Cell>)
    requires b == [X, O, X, O, X, X, O, X, O]
    ensures StatusOf(b) == Draw
  {
    NoWinnerIffNoCompletedLine(b);
    assert !LineWon(b, 0) && !LineWon(b, 1) && !LineWon(b, 2) && !LineWon(b, 3);
    assert !LineWon(b, 4) && !LineWon(b, 5) && !LineWon(b, 6) && !LineWon(b, 7);
    assert Winner(b) == Empty;
    assert forall i :: 0 <= i < 9 ==> b[i] != Empty;
  }

  // ---------------------------------------------------------------------
  // The test commands
  // ---------------------------------------------------------------------

  /** "foo bar baz" names no command. */
  lemma NonsenseCommand(b: seq<Cell>)
    requires b == EmptyBoard
    ensures Response(b, Words("foo", NotAPiece("bar"))) == Ok("Invalid command: foo")
    ensures BoardAfter(b, Words("foo", NotAPiece("bar"))) == b
  {
    LowerKeepsLowerCase("foo");
    UnknownCommandLeavesGame(b, "foo", NotAPiece("bar"));
    assert "Invalid command: " + "foo" == "Invalid command: foo";
  }

  /** "move foo 0": foo is not a piece. */
  lemma BadPiece(b: seq<Cell>)
    requires b == EmptyBoard
    ensures Response(b, Words("move", NotAPiece("foo")))
      == Ok("move: foo" + " is not a valid piece (must be X or O)")
    ensures BoardAfter(b, Words("move", NotAPiece("foo"))) == b
  {
    LowerKeepsLowerCase("foo");
    LowerKeepsLowerCase("move");
    NotAPieceLine(b, "move", "foo");
    assert "move: " + "foo" == "move: foo";
  }

  /** "move X blah": blah is not a location. */
  lemma BadLocation(b: seq<Cell>)
    requires b == EmptyBoard
    ensures Response(b, Words("move", NotALocation("X", "blah")))
      == Ok("move: blah" + " is not a valid location (must be between 0 and 8)")
    ensures BoardAfter(b, Words("move", NotALocation("X", "blah"))) == b
  {
    LowerKeepsLowerCase("blah");
    LowerKeepsLowerCase("move");
    NotALocationLine(b, "move", "X", "blah");
    assert "move: " + "blah" == "move: blah";
  }

  /** "MOVE O 1" after X's first move: the command name is read in any case. */
  lemma UpperCaseMove(b: seq<Cell>)
    requires b == [X, Empty, Empty, Empty, Empty, Empty, Empty, Empty, Empty]
    ensures Response(b, Words("MOVE", Located("O", 1))) == Ok("OK")
    ensures BoardAfter(b, Words("MOVE", Located("O", 1))) == [X, O, Empty, Empty, Empty, Empty, Empty, Empty, Empty]
  {
    AfterOneX(b);
    TurnFromCounts(b, 8, 1, 0);
    TestTokens();
    LegalMoveLine(b, "MOVE", "O", 1);
  }

  /** "move O 2": O may not move twice in a row, even to a free space. */
  lemma SecondMoveByO(b: seq<Cell>)
    requires b == [X, O, Empty, Empty, Empty, Empty, Empty, Empty, Empty]
    ensures Response(b, Words("move", Located("O", 2))) == Ok("'O' has moved out of turn")
    ensures BoardAfter(b, Words("move", Located("O", 2))) == b
  {
    AfterOneEach(b);
    TurnFromCounts(b, 7, 1, 1);
    TestTokens();
    OutOfTurnLine(b, "move", "O", 2, O);
    OutOfTurnText();
  }

  /** The command and piece tokens of the tests, lower-cased. */
  lemma TestTokens()
    ensures Lower("move") == "move" && Lower("MOVE") == "move"
    ensures Lower("x") == "x" && Lower("X") == "x" && Lower("O") == "o"
  {
    LowerKeepsLowerCase("move");
    LowerKeepsLowerCase("x");
    assert Lower("MOVE") == "move";
  }

  /** The text of O's move out of turn. */
  lemma OutOfTurnText()
    ensures PieceName(O) + " has moved out of turn" == "'O' has moved out of turn"
  {
  }

  /** "move x 8": X completes the diagonal 0, 4, 8 and wins. */
  lemma WinningMove(b: seq<Cell>)
    requires b == [X, O, Empty, Empty, X, O, Empty, Empty, Empty]
    ensures Response(b, Words("move", Located("x", 8))) == Ok("OK")
    ensures BoardAfter(b, Words("move", Located("x", 8))) == [X, O, Empty, Empty, X, O, Empty, Empty, X]
  {
    AfterTwoEach(b);
    TurnFromCounts(b, 5, 2, 2);
    TestTokens();
    LegalMoveLine(b, "move", "x", 8);
  }

  /** After X's winning move the status reads "'X' wins!". */
  lemma WonStatus(b: seq<Cell>)
    requires b == [X, O, Empty, Empty, X, O, Empty, Empty, X]
    ensures GameStatus(b) == "'X' wins!"
  {
    DiagonalWon(b);
    GameStatusNamesStatus(b, X);
    assert PieceName(X) + " wins!" == "'X' wins!";
  }

  /** "move O 2" once X has won: refused with X's win. */
  lemma MoveAfterWin(b: seq<Cell>)
    requires b == [X, O, Empty, Empty, X, O, Empty, Empty, X]
    ensures Response(b, Words("move", Located("O", 2))) == Ok("'X' has already won")
    ensures BoardAfter(b, Words("move", Located("O", 2))) == b
  {
    DiagonalWon(b);
    TestTokens();
    WonGameLine(b, "move", "O", 2, X);
    assert PieceName(X) + " has already won" == "'X' has already won";
  }

  /** "move X 5": X takes the last free space without completing a line. */
  lemma LastSpace(b: seq<Cell>)
    requires b == [X, O, X, O, X, Empty, O, X, O]
    ensures Response(b, Words("move", Located("X", 5))) == Ok("OK")
    ensures BoardAfter(b, Words("move", Located("X", 5))) == [X, O, X, O, X, X, O, X, O]
  {
    AfterEightMoves(b);
    TurnFromCounts(b, 1, 4, 4);
    TestTokens();
    LegalMoveLine(b, "move", "X", 5);
  }

  /** The full board's status reads "The game is a draw". */
  lemma DrawnStatus(b: seq<Cell>)
    requires b == [X, O, X, O, X, X, O, X, O]
    ensures GameStatus(b) == "The game is a draw"
  {
    FullBoardDrawn(b);
    GameStatusNamesStatus(b, X);
  }

  /** "move O 2" on the drawn board: refused with the draw. */
  lemma MoveAfterDraw(b: seq<Cell>)
    requires b == [X, O, X, O, X, X, O, X, O]
    ensures Response(b, Words("move", Located("O", 2))) == Ok("the game is a draw")
    ensures BoardAfter(b, Words("move", Located("O", 2))) == b
  {
    FullBoardDrawn(b);
    TestTokens();
    DrawnGameLine(b, "move", "O", 2);
  }
}
