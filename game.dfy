/** The Game class: one board, stored as an array of nine cells that move
    updates in place. Each method does what the Java method does, step by
    step, and is proved to compute the corresponding function of Rules. */
module Engine {
  import opened Results
  import opened Pieces
  import opened InvalidMoves
  import opened Rules

  class Game {
    /** The nine spaces. The Java class keeps (and getBoard hands out) the
        very array it was restored from; here the Game owns its array. */
    var board: array<Cell>

    /** The board has exactly nine spaces. */
    ghost predicate Valid()
      reads this
    {
      board.Length == 9
    }

    /** Game(): a new game with an empty board. */
    constructor ()
      ensures Valid() && fresh(board)
      ensures board[..] == EmptyBoard
      ensures Accepted(board[..]) && NextPlayer(board[..]) == X
    {
      board := new Cell[9](_ => Empty);
      new;
      assert board[..] == EmptyBoard;
      NewGameXMovesFirst([]);
    }

    /** Game(Boolean[]): restores a game from saved cells, or fails with the
        reason validation gives. */
    static method Restore(cells: seq<Cell>) returns (r: Result<Game, string>)
      ensures r.Err? <==> !Accepted(cells)
      ensures r.Err? ==> Some(r.error) == BoardError(cells)
      ensures r.Ok? ==> fresh(r.value) && fresh(r.value.board) && r.value.Valid()
      ensures r.Ok? ==> r.value.board[..] == cells
    {
      var error := ValidateBoard(cells);
      if error.Some? {
        return Err(error.value);
      }
      var game := new Game();
      var a := new Cell[9];
      forall i | 0 <= i < 9 {
        a[i] := cells[i];
      }
      assert a[..] == cells;
      game.board := a;
      return Ok(game);
    }

    /** pieceCounts: one pass over the board tallying empty spaces, X's and O's. */
    static method PieceCounts(b: seq<Cell>) returns (counts: Tally)
      ensures counts == Tally(Count(b, Empty), Count(b, X), Count(b, O))
      ensures counts.empty + counts.x + counts.o == |b|
    {
      counts := Tally(0, 0, 0);
      for i := 0 to |b|
        invariant counts == Tally(Count(b[..i], Empty), Count(b[..i], X), Count(b[..i], O))
      {
        assert b[..i + 1][..i] == b[..i];
        match b[i]
        case Empty => counts := counts.(empty := counts.empty + 1);
        case X => counts := counts.(x := counts.x + 1);
        case O => counts := counts.(o := counts.o + 1);
      }
      assert b[..|b|] == b;
      CountsPartition(b);
    }

    /** validateBoard: the length check, then the two turn checks on the counts. */
    static method ValidateBoard(b: seq<Cell>) returns (error: Option<string>)
      ensures error == BoardError(b)
      ensures error.None? ==> |b| == 9 && 0 <= Count(b, X) - Count(b, O) <= 1
    {
      if |b| != 9 {
        return Some("board must have exactly 9 elements");
      }
      var numPieces := PieceCounts(b);
      if numPieces.x - numPieces.o > 1 {
        return Some("'X' has moved out of turn");
      }
      if numPieces.o - numPieces.x > 0 {
        return Some("'O' has moved out of turn");
      }
      return None;
    }

    /** getBoard: the current cells. */
    method GetBoard() returns (cells: seq<Cell>)
      requires Valid()
      ensures |cells| == 9
      ensures forall i :: 0 <= i < 9 ==> cells[i] == board[i]
    {
      cells := board[..];
    }

    /** winnerForSeq: walks the indexed spaces, stopping at the first empty
        one or the first one that differs from the spaces before it. */
    method WinnerForSeq(idxs: seq<Index>) returns (winner: Cell)
      requires Valid()
      ensures winner == SeqOwner(board[..], idxs)
      ensures winner != Empty ==> |idxs| > 0 && forall k :: 0 <= k < |idxs| ==> board[idxs[k]] == winner
    {
      winner := Empty;
      for i := 0 to |idxs|
        invariant i == 0 <==> winner == Empty
        invariant winner != Empty ==> forall k :: 0 <= k < i ==> board[idxs[k]] == winner
      {
        if board[idxs[i]] == Empty {
          return Empty;
        } else if winner == Empty {
          winner := board[idxs[i]];
        } else if winner != board[idxs[i]] {
          return Empty;
        }
      }
    }

    /** findWinner: the owner of the first of the eight lines that one mark fills. */
    method FindWinner() returns (winner: Cell)
      requires Valid()
      ensures winner == Winner(board[..])
    {
      var seqs := WinningLines;
      for k := 0 to |seqs|
        invariant FirstOwner(board[..], seqs[k..]) == Winner(board[..])
      {
        assert seqs[k..][1..] == seqs[k + 1..];
        var w := WinnerForSeq(seqs[k]);
        if w != Empty {
          return w;
        }
      }
      return Empty;
    }

    /** findNextPlayer: nobody once the game is won or the board is full,
        otherwise O when X has more pieces and X when it does not. */
    method FindNextPlayer() returns (next: Cell)
      requires Valid()
      ensures next == NextPlayer(board[..])
      ensures next != Empty ==> Winner(board[..]) == Empty && exists i :: 0 <= i < 9 && board[i] == Empty
    {
      var winner := FindWinner();
      if winner != Empty {
        return Empty;
      }
      var counts := PieceCounts(board[..]);
      if counts.empty == 0 {
        return Empty;
      }
      CountPositiveIffPresent(board[..], Empty);
      if counts.x > counts.o {
        return O;
      } else {
        return X;
      }
    }

    /** move: places piece at idx when every check passes, otherwise returns
        the exception for the first that fails and leaves the board alone.
        The range test stands for the ArrayIndexOutOfBoundsException that
        reading board[idx] raises and that the Java code catches. */
    method Move(piece: Cell, idx: int) returns (error: Option<InvalidMove>)
      requires Valid()
      modifies board
      ensures Valid()
      ensures error == MoveError(old(board[..]), piece, idx)
      ensures board[..] == ApplyMove(old(board[..]), piece, idx)
      ensures forall k :: 0 <= k < 9 && k != idx ==> board[k] == old(board[k])
      ensures error.None? ==> 0 <= idx < 9 && old(board[idx]) == Empty && board[idx] == piece
      ensures Accepted(old(board[..])) ==> Accepted(board[..])
    {
      if Accepted(board[..]) {
        MovePreservesAcceptance(board[..], piece, idx);
      }
      if piece == Empty {
        return Some(NewInvalidMove("piece must be specified", piece, idx));
      }
      var winner := FindWinner();
      if winner != Empty {
        return Some(NewInvalidMove(PieceName(winner) + " has already won", piece, idx));
      }
      var nextPlayer := FindNextPlayer();
      if nextPlayer == Empty {
        return Some(NewInvalidMove("the game is a draw", piece, idx));
      }
      if nextPlayer != piece {
        return Some(NewInvalidMove(PieceName(piece) + " has moved out of turn", piece, idx));
      }
      if !(0 <= idx < board.Length) {
        return Some(NewInvalidMoveWithCause("invalid location", IndexOutOfBounds(idx, board.Length), piece, idx));
      }
      if board[idx] != Empty {
        return Some(NewInvalidMove("the space is already occupied", piece, idx));
      }
      board[idx] := piece;
      return None;
    }
  }
}
