/** InvalidMoveException as a value: the reason text, the optional cause, and
    the piece and index of the rejected move. */
module InvalidMoves {
  import opened Results
  import opened Pieces
  import opened Text

  /** The cause the engine attaches to an out-of-range index: the
      ArrayIndexOutOfBoundsException raised by reading board[index]. */
  datatype Cause = IndexOutOfBounds(index: int, length: nat)

  datatype InvalidMove = InvalidMove(message: string, cause: Option<Cause>, piece: Cell, idx: int)
  {
    /** Throwable.getMessage: the reason given to the constructor. */
    function GetMessage(): string
    {
      message
    }

    /** The piece value that attempted to move (possibly Empty, Java's null). */
    function GetPiece(): Cell
    {
      piece
    }

    /** The position the piece attempted to move to (possibly out of range). */
    function GetIdx(): int
    {
      idx
    }

    /** The text toString appends to Throwable's own rendering: ": ", the
        piece's name, " at idx ", then digits that read back as the index,
        negative ones included. */
    function Suffix(): (s: string)
      ensures var head := ": " + PieceName(piece) + " at idx ";
        |head| <= |s| && s[..|head|] == head && ParseInt(s[|head|..]) == Some(idx)
    {
      var head := ": " + PieceName(piece) + " at idx ";
      IntToStringRoundTrip(idx);
      assert (head + IntToString(idx))[|head|..] == IntToString(idx);
      head + IntToString(idx)
    }

    /** toString: Throwable.toString (class name and message, passed in as
        throwableText), then ": ", the piece's name, " at idx " and the
        index in decimal, which reads back as the index. */
    function ToString(throwableText: string): (s: string)
      ensures var n := |throwableText| + |": " + PieceName(piece) + " at idx "|;
        n <= |s| && s[..|throwableText|] == throwableText
        && s[|throwableText|..n] == ": " + PieceName(piece) + " at idx "
        && ParseInt(s[n..]) == Some(idx)
    {
      var s := throwableText + Suffix();
      assert s[..|throwableText|] == throwableText && s[|throwableText|..] == Suffix();
      s
    }
  }

  /** InvalidMoveException(String, Boolean, int): keeps the message, the piece
      and the index as given, an Empty piece and an out-of-range index
      included, and records no cause. */
  function NewInvalidMove(message: string, piece: Cell, idx: int): (e: InvalidMove)
    ensures e.GetMessage() == message && e.GetPiece() == piece && e.GetIdx() == idx
    ensures e.cause == None
  {
    InvalidMove(message, None, piece, idx)
  }

  /** InvalidMoveException(String, Throwable, Boolean, int): keeps the
      message, the piece and the index as given and records the cause. */
  function NewInvalidMoveWithCause(message: string, cause: Cause, piece: Cell, idx: int): (e: InvalidMove)
    ensures e.GetMessage() == message && e.GetPiece() == piece && e.GetIdx() == idx
    ensures e.cause == Some(cause)
  {
    InvalidMove(message, Some(cause), piece, idx)
  }
}
