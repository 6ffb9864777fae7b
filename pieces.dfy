/** The contents of one board space and its human-readable name
    (Game.PIECE_X, Game.PIECE_O and Game.pieceName). */
module Pieces {

  /** A board space: Java's Boolean, where null is an empty space,
      PIECE_X (false) is an X and PIECE_O (true) is an O. */
  datatype Cell = Empty | X | O

  /** Game.pieceName: "empty" for an empty space, otherwise the mark in quotes. */
  function PieceName(piece: Cell): (name: string)
    ensures name == "empty" <==> piece == Empty
    ensures piece != Empty ==> |name| == 3 && name[0] == '\'' && name[2] == '\''
    ensures piece == X ==> name[1] == 'X'
    ensures piece == O ==> name[1] == 'O'
  {
    match piece
    case Empty => "empty"
    case X => "'X'"
    case O => "'O'"
  }

  /** Different values have different names, so a message naming a piece
      identifies it. */
  lemma PieceNameInjective(a: Cell, b: Cell)
    ensures PieceName(a) == PieceName(b) ==> a == b
  {
  }
}
