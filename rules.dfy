/** The rules of Game.java as functions of the nine cells: piece counting,
    board validation, win detection, turn inference and the outcome of a
    move. The class Engine.Game computes these with loops and is proved
    against them. */
module Rules {
  import opened Results
  import opened Pieces
  import opened InvalidMoves

  /** A board location, 0-2 the top row, 3-5 the middle row, 6-8 the bottom row. */
  type Index = i: int | 0 <= i < 9

  const EmptyBoard: seq<Cell> := [Empty, Empty, Empty, Empty, Empty, Empty, Empty, Empty, Empty]

  /** The other player's mark. */
  function Other(m: Cell): Cell
  {
    match m
    case X => O
    case O => X
    case Empty => Empty
  }

  // ---------------------------------------------------------------------
  // Counting pieces (pieceCounts)
  // ---------------------------------------------------------------------

  /** The number of spaces of b holding c. */
  function Count(b: seq<Cell>, c: Cell): (n: nat)
    ensures n <= |b|
  {
    if b == [] then 0 else Count(b[..|b| - 1], c) + (if b[|b| - 1] == c then 1 else 0)
  }

  /** The three counts pieceCounts reports together. */
  datatype Tally = Tally(empty: nat, x: nat, o: nat)

  /** The empty, X and O counts add up to the length of the board. */
  lemma {:induction false} CountsPartition(b: seq<Cell>)
    ensures Count(b, Empty) + Count(b, X) + Count(b, O) == |b|
  {
    if b != [] {
      CountsPartition(b[..|b| - 1]);
    }
  }

  /** Each count is the multiplicity of that value among the cells. */
  lemma {:induction false} CountIsMultiplicity(b: seq<Cell>, c: Cell)
    ensures Count(b, c) == multiset(b)[c]
  {
    if b != [] {
      var front := b[..|b| - 1];
      CountIsMultiplicity(front, c);
      assert b == front + [b[|b| - 1]];
    }
  }

  /** A value is counted at least once exactly when some cell holds it. */
  lemma {:induction false} CountPositiveIffPresent(b: seq<Cell>, c: Cell)
    ensures Count(b, c) > 0 <==> exists i :: 0 <= i < |b| && b[i] == c
  {
    if b != [] {
      var front := b[..|b| - 1];
      CountPositiveIffPresent(front, c);
      if Count(front, c) > 0 {
        var i :| 0 <= i < |front| && front[i] == c;
        assert b[i] == c;
      }
      if exists i :: 0 <= i < |b| && b[i] == c {
        var i :| 0 <= i < |b| && b[i] == c;
        if i < |front| {
          assert front[i] == c;
        }
      }
    }
  }

  /** Writing p into cell i moves one unit of count from the old value to p. */
  lemma {:induction false} CountAfterUpdate(b: seq<Cell>, i: int, p: Cell, c: Cell)
    requires 0 <= i < |b|
    ensures Count(b[i := p], c) == Count(b, c) - (if b[i] == c then 1 else 0) + (if p == c then 1 else 0)
  {
    var n := |b|;
    var front := b[..n - 1];
    if i == n - 1 {
      assert b[i := p][..n - 1] == front;
    } else {
      assert b[i := p][..n - 1] == front[i := p];
      CountAfterUpdate(front, i, p, c);
    }
  }

  // ---------------------------------------------------------------------
  // Board validation (validateBoard, used by Game(Boolean[]))
  // ---------------------------------------------------------------------

  /** validateBoard: the first failed check's reason, or None for a board
      that may be restored. The length is checked first. */
  function BoardError(b: seq<Cell>): (error: Option<string>)
    ensures error.None? <==> |b| == 9 && 0 <= Count(b, X) - Count(b, O) <= 1
  {
    if |b| != 9 then Some("board must have exactly 9 elements")
    else if Count(b, X) - Count(b, O) > 1 then Some("'X' has moved out of turn")
    else if Count(b, O) - Count(b, X) > 0 then Some("'O' has moved out of turn")
    else None
  }

  /** A board that passes validation. */
  ghost predicate Accepted(b: seq<Cell>)
  {
    BoardError(b).None?
  }

  /** Validation accepts exactly the nine-cell boards on which X has made as
      many moves as O or one more, and names the failing rule otherwise. */
  lemma AcceptedBoards(b: seq<Cell>)
    ensures Accepted(b) <==> |b| == 9 && 0 <= Count(b, X) - Count(b, O) <= 1
    ensures |b| != 9 <==> BoardError(b) == Some("board must have exactly 9 elements")
    ensures BoardError(b) == Some("'X' has moved out of turn") <==> |b| == 9 && Count(b, X) > Count(b, O) + 1
    ensures BoardError(b) == Some("'O' has moved out of turn") <==> |b| == 9 && Count(b, O) > Count(b, X)
  {
  }

  // ---------------------------------------------------------------------
  // Win detection (winnerForSeq, findWinner)
  // ---------------------------------------------------------------------

  /** The eight triples checked for a win, in the order they are checked:
      three rows, three columns, two diagonals. */
  const WinningLines: seq<seq<Index>> :=
    [[0, 1, 2], [3, 4, 5], [6, 7, 8], [0, 3, 6], [1, 4, 7], [2, 5, 8], [0, 4, 8], [2, 4, 6]]

  /** winnerForSeq: the common value of the indexed spaces when they are all
      occupied by the same mark, otherwise Empty. */
  function SeqOwner(b: seq<Cell>, idxs: seq<Index>): (owner: Cell)
    requires |b| == 9
    ensures owner != Empty ==> |idxs| > 0 && forall k :: 0 <= k < |idxs| ==> b[idxs[k]] == owner
  {
    if |idxs| > 0 && b[idxs[0]] != Empty && forall k :: 0 <= k < |idxs| ==> b[idxs[k]] == b[idxs[0]]
    then b[idxs[0]]
    else Empty
  }

  /** The owner of the first owned sequence among lines, or Empty. */
  function FirstOwner(b: seq<Cell>, lines: seq<seq<Index>>): Cell
    requires |b| == 9
  {
    if lines == [] then Empty
    else if SeqOwner(b, lines[0]) != Empty then SeqOwner(b, lines[0])
    else FirstOwner(b, lines[1..])
  }

  /** findWinner: the owner of the first of the eight lines that is owned;
      Empty exactly when no line is owned. */
  function Winner(b: seq<Cell>): (winner: Cell)
    requires |b| == 9
    ensures winner != Empty ==> exists k :: 0 <= k < 8 && SeqOwner(b, WinningLines[k]) == winner
    ensures winner == Empty <==> forall k :: 0 <= k < 8 ==> SeqOwner(b, WinningLines[k]) == Empty
  {
    FirstOwnerIsEarliest(b, WinningLines);
    FirstOwner(b, WinningLines)
  }

  /** A sequence is owned by m exactly when it is non-empty and every indexed
      space holds m. */
  lemma SeqOwnerIsUniformMark(b: seq<Cell>, idxs: seq<Index>, m: Cell)
    requires |b| == 9 && m != Empty
    ensures SeqOwner(b, idxs) == m <==> |idxs| > 0 && forall k :: 0 <= k < |idxs| ==> b[idxs[k]] == m
  {
  }

  /** FirstOwner reports the owner of the earliest owned sequence, and Empty
      exactly when no sequence is owned. */
  lemma {:induction false} FirstOwnerIsEarliest(b: seq<Cell>, lines: seq<seq<Index>>)
    requires |b| == 9
    ensures FirstOwner(b, lines) != Empty ==>
      exists k :: 0 <= k < |lines| && SeqOwner(b, lines[k]) == FirstOwner(b, lines)
        && forall j :: 0 <= j < k ==> SeqOwner(b, lines[j]) == Empty
    ensures FirstOwner(b, lines) == Empty <==> forall k :: 0 <= k < |lines| ==> SeqOwner(b, lines[k]) == Empty
  {
    if lines != [] {
      var rest := lines[1..];
      FirstOwnerIsEarliest(b, rest);
      if SeqOwner(b, lines[0]) == Empty {
        if FirstOwner(b, rest) != Empty {
          var k :| 0 <= k < |rest| && SeqOwner(b, rest[k]) == FirstOwner(b, rest)
            && forall j :: 0 <= j < k ==> SeqOwner(b, rest[j]) == Empty;
          assert SeqOwner(b, lines[k + 1]) == FirstOwner(b, lines);
          assert forall j :: 0 <= j < k + 1 ==> SeqOwner(b, lines[j]) == Empty by {
            forall j | 0 <= j < k + 1 ensures SeqOwner(b, lines[j]) == Empty {
              if j > 0 {
                assert lines[j] == rest[j - 1];
              }
            }
          }
        } else {
          forall k | 0 <= k < |lines| ensures SeqOwner(b, lines[k]) == Empty {
            if k > 0 {
              assert lines[k] == rest[k - 1];
            }
          }
        }
      }
    }
  }

  /** Line k of WinningLines is completely filled with m. */
  predicate LineHolds(b: seq<Cell>, k: int, m: Cell)
    requires |b| == 9 && 0 <= k < 8
  {
    b[WinningLines[k][0]] == m && b[WinningLines[k][1]] == m && b[WinningLines[k][2]] == m
  }

  /** Some mark completely fills line k. */
  predicate LineWon(b: seq<Cell>, k: int)
    requires |b| == 9 && 0 <= k < 8
  {
    LineHolds(b, k, X) || LineHolds(b, k, O)
  }

  lemma LineOwnerIsHolder(b: seq<Cell>, k: int)
    requires |b| == 9 && 0 <= k < 8
    ensures SeqOwner(b, WinningLines[k]) != Empty <==> LineWon(b, k)
    ensures LineWon(b, k) ==> LineHolds(b, k, SeqOwner(b, WinningLines[k]))
  {
    var l := WinningLines[k];
    assert |l| == 3;
    if LineWon(b, k) {
      assert forall j :: 0 <= j < 3 ==> b[l[j]] == b[l[0]];
    }
  }

  /** findWinner returns mark m exactly when m fills some line and no earlier
      line (in the order rows, columns, diagonals) is filled. */
  lemma WinnerIsFirstCompletedLine(b: seq<Cell>, m: Cell)
    requires |b| == 9 && m != Empty
    ensures Winner(b) == m <==>
      exists k :: 0 <= k < 8 && LineHolds(b, k, m) && forall j :: 0 <= j < k ==> !LineWon(b, j)
  {
    FirstOwnerIsEarliest(b, WinningLines);
    forall k | 0 <= k < 8 {
      LineOwnerIsHolder(b, k);
    }
    if exists k :: 0 <= k < 8 && LineHolds(b, k, m) && forall j :: 0 <= j < k ==> !LineWon(b, j) {
      var k :| 0 <= k < 8 && LineHolds(b, k, m) && forall j :: 0 <= j < k ==> !LineWon(b, j);
      assert SeqOwner(b, WinningLines[k]) == m;
      if Winner(b) == Empty {
        assert false;
      }
      var k' :| 0 <= k' < 8 && SeqOwner(b, WinningLines[k']) == Winner(b)
        && forall j :: 0 <= j < k' ==> SeqOwner(b, WinningLines[j]) == Empty;
      assert !(k' < k) && !(k < k');
    }
  }

  /** findWinner returns null exactly when no line is filled by one mark. */
  lemma NoWinnerIffNoCompletedLine(b: seq<Cell>)
    requires |b| == 9
    ensures Winner(b) == Empty <==> forall k :: 0 <= k < 8 ==> !LineWon(b, k)
  {
    FirstOwnerIsEarliest(b, WinningLines);
    forall k | 0 <= k < 8 {
      LineOwnerIsHolder(b, k);
    }
  }

  // ---------------------------------------------------------------------
  // Turn inference (findNextPlayer) and game status
  // ---------------------------------------------------------------------

  /** findNextPlayer: Empty once there is a winner or no empty space;
      otherwise O if X has more pieces, else X. */
  function NextPlayer(b: seq<Cell>): (next: Cell)
    requires |b| == 9
    ensures next == Empty <==> Winner(b) != Empty || forall i :: 0 <= i < 9 ==> b[i] != Empty
  {
    CountPositiveIffPresent(b, Empty);
    if Winner(b) != Empty then Empty
    else if Count(b, Empty) == 0 then Empty
    else if Count(b, X) > Count(b, O) then O
    else X
  }

  /** The game is over (no next player) exactly when it has been won or no
      space is empty; findWinner and findNextPlayer are never both non-null. */
  lemma GameOverIff(b: seq<Cell>)
    requires |b| == 9
    ensures NextPlayer(b) == Empty <==> Winner(b) != Empty || forall i :: 0 <= i < 9 ==> b[i] != Empty
    ensures Winner(b) == Empty || NextPlayer(b) == Empty
  {
    CountPositiveIffPresent(b, Empty);
  }

  /** On an accepted board that is still in play, X moves when the counts are
      equal and O when X is one ahead, and some space is empty. */
  lemma NextPlayerOnAcceptedBoard(b: seq<Cell>)
    requires Accepted(b) && NextPlayer(b) != Empty
    ensures NextPlayer(b) == X <==> Count(b, X) == Count(b, O)
    ensures NextPlayer(b) == O <==> Count(b, X) == Count(b, O) + 1
    ensures exists i :: 0 <= i < 9 && b[i] == Empty
  {
    CountPositiveIffPresent(b, Empty);
  }

  /** The piece counts of a concrete board, read off its multiset. */
  lemma CountsOf(b: seq<Cell>)
    ensures Count(b, Empty) == multiset(b)[Empty]
    ensures Count(b, X) == multiset(b)[X] && Count(b, O) == multiset(b)[O]
  {
    CountIsMultiplicity(b, Empty);
    CountIsMultiplicity(b, X);
    CountIsMultiplicity(b, O);
  }

  /** With no completed line and the counts given, the turn follows from
      the counts: nobody on a full board, else O when X is ahead, else X. */
  lemma TurnFromCounts(b: seq<Cell>, empty: nat, x: nat, o: nat)
    requires |b| == 9 && forall k :: 0 <= k < 8 ==> !LineWon(b, k)
    requires multiset(b)[Empty] == empty && multiset(b)[X] == x && multiset(b)[O] == o
    ensures Winner(b) == Empty
    ensures NextPlayer(b) == (if empty == 0 then Empty else if x > o then O else X)
  {
    NoWinnerIffNoCompletedLine(b);
    CountsOf(b);
  }

  /** The three states of a game. */
  datatype Status = Won(winner: Cell) | Draw | InProgress(next: Cell)

  /** The status the class comment describes: won when findWinner is non-null,
      in progress when findNextPlayer is non-null, a draw when both are null. */
  function StatusOf(b: seq<Cell>): (s: Status)
    requires |b| == 9
    ensures s.Won? <==> Winner(b) != Empty
    ensures s.InProgress? <==> NextPlayer(b) != Empty
    ensures s.Draw? <==> Winner(b) == Empty && NextPlayer(b) == Empty
    ensures s.Draw? <==> Winner(b) == Empty && forall i :: 0 <= i < 9 ==> b[i] != Empty
  {
    GameOverIff(b);
    if Winner(b) != Empty then Won(Winner(b))
    else if NextPlayer(b) == Empty then Draw
    else InProgress(NextPlayer(b))
  }

  // ---------------------------------------------------------------------
  // Moves (move)
  // ---------------------------------------------------------------------

  /** The outcome of move's checks: the first one that fails, or Legal. */
  datatype Verdict =
    | Unspecified            // the piece is null
    | AlreadyWon(winner: Cell) // findWinner is non-null
    | GameDrawn              // no winner and no next player
    | OutOfTurn(mover: Cell) // the piece is not findNextPlayer
    | InvalidLocation        // board[idx] is out of bounds
    | Occupied               // board[idx] is not empty
    | Legal

  /** move's checks, in the order the engine makes them. The location is
      only examined after the turn check: reading board[idx] is what raises
      the out-of-bounds exception that becomes "invalid location". */
  function Judge(b: seq<Cell>, piece: Cell, idx: int): (v: Verdict)
    requires |b| == 9
    ensures Reachable(v)
    ensures v == Legal <==> piece != Empty && piece == NextPlayer(b) && 0 <= idx < 9 && b[idx] == Empty
    ensures v.AlreadyWon? ==> v.winner == Winner(b)
    ensures v.OutOfTurn? ==> v.mover == piece && NextPlayer(b) == Other(piece)
    ensures v == InvalidLocation ==> !(0 <= idx < 9)
  {
    if piece == Empty then Unspecified
    else if Winner(b) != Empty then AlreadyWon(Winner(b))
    else if NextPlayer(b) == Empty then GameDrawn
    else if NextPlayer(b) != piece then OutOfTurn(piece)
    else if !(0 <= idx < 9) then InvalidLocation
    else if b[idx] != Empty then Occupied
    else Legal
  }

  /** The reason text of each verdict ("" for a legal move). */
  function Explain(v: Verdict): (reason: string)
    ensures reason == "" <==> v == Legal
  {
    match v
    case Unspecified => "piece must be specified"
    case AlreadyWon(w) => PieceName(w) + " has already won"
    case GameDrawn => "the game is a draw"
    case OutOfTurn(p) => PieceName(p) + " has moved out of turn"
    case InvalidLocation => "invalid location"
    case Occupied => "the space is already occupied"
    case Legal => ""
  }

  /** move's result: None when the move is made, otherwise the exception it
      throws, carrying the reason, the piece and the index. */
  function MoveError(b: seq<Cell>, piece: Cell, idx: int): (error: Option<InvalidMove>)
    requires |b| == 9
    ensures error.None? <==> Judge(b, piece, idx) == Legal
    ensures error.Some? ==>
      error.value.GetMessage() != "" && VerdictOf(error.value.GetMessage()) == Judge(b, piece, idx)
  {
    ExplainRoundTrip(Judge(b, piece, idx));
    match Judge(b, piece, idx)
    case Legal => None
    case InvalidLocation =>
      Some(NewInvalidMoveWithCause(Explain(InvalidLocation), IndexOutOfBounds(idx, 9), piece, idx))
    case v => Some(NewInvalidMove(Explain(v), piece, idx))
  }

  /** The board after move: unchanged on a rejection, otherwise only cell idx
      is written. */
  function ApplyMove(b: seq<Cell>, piece: Cell, idx: int): (r: seq<Cell>)
    requires |b| == 9
    ensures |r| == 9
    ensures forall k :: 0 <= k < 9 && k != idx ==> r[k] == b[k]
    ensures 0 <= idx < 9 && r[idx] != b[idx] ==> b[idx] == Empty && r[idx] == piece && piece == NextPlayer(b)
  {
    if MoveError(b, piece, idx).None? then b[idx := piece] else b
  }

  /** The reason move gives, or "" when it succeeds. */
  function Reason(b: seq<Cell>, piece: Cell, idx: int): string
    requires |b| == 9
  {
    match MoveError(b, piece, idx)
    case Some(e) => e.GetMessage()
    case None => ""
  }

  /** The verdicts the checks can produce name an actual mark. */
  predicate Reachable(v: Verdict)
  {
    (v.AlreadyWon? ==> v.winner != Empty) && (v.OutOfTurn? ==> v.mover != Empty)
  }

  /** Recovers a verdict from its reason text, telling the texts apart by
      their length and, for the two that name a mark, by that mark. */
  function VerdictOf(reason: string): Verdict
  {
    if |reason| == 23 then Unspecified
    else if |reason| == 19 then AlreadyWon(if reason[1] == 'X' then X else O)
    else if |reason| == 18 then GameDrawn
    else if |reason| == 25 then OutOfTurn(if reason[1] == 'X' then X else O)
    else if |reason| == 16 then InvalidLocation
    else if |reason| == 29 then Occupied
    else Legal
  }

  /** Distinct verdicts have distinct reason texts: the text determines the
      verdict. */
  lemma ExplainRoundTrip(v: Verdict)
    requires Reachable(v)
    ensures VerdictOf(Explain(v)) == v
  {
    match v
    case AlreadyWon(w) =>
      assert Explain(v) == PieceName(w) + " has already won";
    case OutOfTurn(p) =>
      assert Explain(v) == PieceName(p) + " has moved out of turn";
    case _ =>
  }

  /** The reason is the text of the verdict, and the checks only produce
      verdicts that name a mark. */
  lemma ReasonExplainsJudge(b: seq<Cell>, piece: Cell, idx: int)
    requires |b| == 9
    ensures Reason(b, piece, idx) == Explain(Judge(b, piece, idx))
    ensures Reachable(Judge(b, piece, idx))
  {
  }

  /** A move is made exactly when a mark is given, it is that mark's turn
      (so nobody has won and the game is not drawn), and idx names an empty
      space. */
  lemma MoveSucceedsIff(b: seq<Cell>, piece: Cell, idx: int)
    requires |b| == 9
    ensures MoveError(b, piece, idx).None? <==>
      piece != Empty && piece == NextPlayer(b) && 0 <= idx < 9 && b[idx] == Empty
  {
  }

  /** Every rejection carries the piece and index of the attempt and one of
      the fixed reasons; only an out-of-range index carries a cause. */
  lemma RejectionCarriesAttempt(b: seq<Cell>, piece: Cell, idx: int)
    requires |b| == 9
    ensures MoveError(b, piece, idx).Some? ==>
      var e := MoveError(b, piece, idx).value;
      e.GetPiece() == piece && e.GetIdx() == idx && e.GetMessage() == Explain(Judge(b, piece, idx))
      && (e.cause.Some? <==> Judge(b, piece, idx) == InvalidLocation)
      && (e.cause.Some? ==> e.cause.value == IndexOutOfBounds(idx, 9))
  {
  }

  /** The reasons for an unspecified piece and a finished game are each given
      exactly under their own condition: the piece is checked first, then
      whether mark m has won, then whether the game is drawn. */
  lemma ReasonsBeforeTheTurn(b: seq<Cell>, piece: Cell, idx: int, m: Cell)
    requires |b| == 9 && m != Empty
    ensures Reason(b, piece, idx) == "piece must be specified" <==> piece == Empty
    ensures Reason(b, piece, idx) == PieceName(m) + " has already won" <==> piece != Empty && Winner(b) == m
    ensures Reason(b, piece, idx) == "the game is a draw" <==> piece != Empty && StatusOf(b) == Draw
  {
    ReasonExplainsJudge(b, piece, idx);
    ExplainRoundTrip(Judge(b, piece, idx));
    ExplainRoundTrip(AlreadyWon(m));
  }

  /** The turn is checked before the location: a move out of turn by mark m
      is reported as such whatever idx is, even an index off the board. */
  lemma OutOfTurnReason(b: seq<Cell>, piece: Cell, idx: int, m: Cell)
    requires |b| == 9 && m != Empty
    ensures Reason(b, piece, idx) == PieceName(m) + " has moved out of turn" <==>
      piece == m && NextPlayer(b) == Other(m)
  {
    ReasonExplainsJudge(b, piece, idx);
    ExplainRoundTrip(Judge(b, piece, idx));
    ExplainRoundTrip(OutOfTurn(m));
  }

  /** Only the player whose turn it is gets a verdict on the location:
      "invalid location" off the board, "the space is already occupied" on a
      taken space, and no reason at all for a move that is made. */
  lemma LocationReasons(b: seq<Cell>, piece: Cell, idx: int)
    requires |b| == 9
    ensures Reason(b, piece, idx) == "invalid location" <==>
      piece != Empty && piece == NextPlayer(b) && !(0 <= idx < 9)
    ensures Reason(b, piece, idx) == "the space is already occupied" <==>
      piece != Empty && piece == NextPlayer(b) && 0 <= idx < 9 && b[idx] != Empty
    ensures Reason(b, piece, idx) == "" <==> MoveError(b, piece, idx).None?
  {
    ReasonExplainsJudge(b, piece, idx);
    ExplainRoundTrip(Judge(b, piece, idx));
    GameOverIff(b);
  }

  /** A won or drawn game rejects every move and keeps its board. */
  lemma FinishedGameRejectsEveryMove(b: seq<Cell>, piece: Cell, idx: int)
    requires |b| == 9 && !StatusOf(b).InProgress?
    ensures MoveError(b, piece, idx).Some?
    ensures ApplyMove(b, piece, idx) == b
  {
  }

  /** A move writes at most cell idx, and on success writes the piece there. */
  lemma MoveChangesOnlyTarget(b: seq<Cell>, piece: Cell, idx: int)
    requires |b| == 9
    ensures forall k :: 0 <= k < 9 && k != idx ==> ApplyMove(b, piece, idx)[k] == b[k]
    ensures MoveError(b, piece, idx).None? ==> ApplyMove(b, piece, idx)[idx] == piece
    ensures MoveError(b, piece, idx).Some? ==> ApplyMove(b, piece, idx) == b
  {
  }

  /** A move on an accepted board leaves an accepted board: the piece placed
      is the one findNextPlayer names, so the counts stay in balance. */
  lemma MovePreservesAcceptance(b: seq<Cell>, piece: Cell, idx: int)
    requires Accepted(b)
    ensures Accepted(ApplyMove(b, piece, idx))
  {
    if MoveError(b, piece, idx).None? {
      CountAfterUpdate(b, idx, piece, X);
      CountAfterUpdate(b, idx, piece, O);
    }
  }

  /** Players alternate: after a successful move on an accepted board, if the
      game goes on, the other player moves next. */
  lemma MoveAlternatesPlayers(b: seq<Cell>, piece: Cell, idx: int)
    requires Accepted(b) && MoveError(b, piece, idx).None?
    ensures var after := ApplyMove(b, piece, idx);
      NextPlayer(after) == Empty || NextPlayer(after) == Other(piece)
  {
    NextPlayerOnAcceptedBoard(b);
    CountAfterUpdate(b, idx, piece, X);
    CountAfterUpdate(b, idx, piece, O);
  }

  /** An attempted move: the arguments of one call of move. */
  datatype Attempt = Attempt(piece: Cell, idx: int)

  /** The board after a series of move calls, whether each succeeds or not. */
  function Play(b: seq<Cell>, attempts: seq<Attempt>): (r: seq<Cell>)
    requires |b| == 9
    ensures |r| == 9
    decreases |attempts|
  {
    if attempts == [] then b
    else Play(ApplyMove(b, attempts[0].piece, attempts[0].idx), attempts[1..])
  }

  /** Every board reached by calls of move from an accepted board is accepted. */
  lemma {:induction false} PlayPreservesAcceptance(b: seq<Cell>, attempts: seq<Attempt>)
    requires Accepted(b)
    ensures Accepted(Play(b, attempts))
    decreases |attempts|
  {
    if attempts != [] {
      MovePreservesAcceptance(b, attempts[0].piece, attempts[0].idx);
      PlayPreservesAcceptance(ApplyMove(b, attempts[0].piece, attempts[0].idx), attempts[1..]);
    }
  }

  /** The empty board is accepted, nobody has won, and X moves. */
  lemma EmptyBoardOpens(b: seq<Cell>)
    requires b == EmptyBoard
    ensures Accepted(b) && Winner(b) == Empty && NextPlayer(b) == X
  {
    assert Count(b, X) == 0 && Count(b, O) == 0 by {
      CountPositiveIffPresent(b, X);
      CountPositiveIffPresent(b, O);
    }
    assert Count(b, Empty) > 0 by {
      CountPositiveIffPresent(b, Empty);
      assert b[0] == Empty;
    }
    NoWinnerIffNoCompletedLine(b);
    assert !LineWon(b, 0) && !LineWon(b, 1) && !LineWon(b, 2) && !LineWon(b, 3);
    assert !LineWon(b, 4) && !LineWon(b, 5) && !LineWon(b, 6) && !LineWon(b, 7);
    assert Winner(b) == Empty;
  }

  /** A new game has nine empty spaces, no winner, and X to move; every board
      reached from it is accepted. */
  lemma NewGameXMovesFirst(attempts: seq<Attempt>)
    ensures Accepted(EmptyBoard) && Winner(EmptyBoard) == Empty && NextPlayer(EmptyBoard) == X
    ensures Accepted(Play(EmptyBoard, attempts))
  {
    EmptyBoardOpens(EmptyBoard);
    PlayPreservesAcceptance(EmptyBoard, attempts);
  }
}
