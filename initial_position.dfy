/**
 * The rules on the starting position and on positions a few moves into a
 * game, as concrete checks of the model.
 */
module InitialPosition {
  import opened Board
  import opened Piece
  import opened Pieces

  /** The starting position after 1.e4: the pawn on (6, 4) now stands on (4, 4). */
  function AfterE4(): (b: Board)
    ensures WellFormed(b)
  {
    InitialBoard[6 := InitialBoard[6][4 := ""]][4 := InitialBoard[4][4 := "P"]]
  }

  /** The starting position with white's kingside bishop and knight gone. */
  function KingsideCleared(): (b: Board)
    ensures WellFormed(b)
  {
    InitialBoard[7 := ["R", "N", "B", "Q", "K", "", "", "R"]]
  }

  lemma PawnMovesFromStart()
    ensures PawnIsValidMove(White, 6, 4, 4, 4, InitialBoard)
    ensures PawnIsValidMove(White, 6, 4, 5, 4, InitialBoard)
    ensures !PawnIsValidMove(White, 6, 4, 3, 4, InitialBoard)
    ensures !PawnIsValidMove(White, 6, 4, 5, 5, InitialBoard)
    ensures PawnIsValidMove(Black, 1, 3, 3, 3, InitialBoard)
    ensures !PawnIsValidMove(Black, 1, 3, 2, 4, InitialBoard)
  {
  }

  lemma KnightMovesFromStart()
    ensures KnightIsValidMove(White, 7, 6, 5, 5, InitialBoard)
    ensures KnightIsValidMove(Black, 0, 1, 2, 2, InitialBoard)
    ensures !KnightIsValidMove(White, 7, 6, 6, 4, InitialBoard)
  {
  }

  /** At the start every sliding piece is hemmed in by its own pawns and pieces. */
  lemma SlidersBlockedAtStart()
    ensures !BishopRule(White, 7, 2, 5, 4, InitialBoard)
    ensures !RookRule(White, 7, 0, 5, 0, InitialBoard)
    ensures !QueenRule(Black, 0, 3, 2, 3, InitialBoard)
  {
    assert !EmptyStep(InitialBoard, 7, 2, 5, 4, 1);
    assert !EmptyStep(InitialBoard, 7, 0, 5, 0, 1);
    assert !EmptyStep(InitialBoard, 0, 3, 2, 3, 1);
  }

  /** After 1.e4 the kingside bishop has an open diagonal and the queen a path to h5. */
  lemma SlidersAfterE4()
    ensures BishopRule(White, 7, 5, 4, 2, AfterE4())
    ensures QueenRule(White, 7, 3, 3, 7, AfterE4())
    ensures !BishopRule(White, 7, 5, 7, 5, AfterE4())
  {
  }

  /**
   * Castling reads only the fixed columns of the home rank, never the king's
   * start column: a king on column 2 "castles" onto its own queen on column 4.
   */
  lemma KingCastlesOntoOwnPiece()
    ensures var b := InitialBoard[7 := ["R", "", "K", "", "Q", "", "", "R"]];
            KingIsValidMove(White, 7, 2, 7, 4, b) && IsTeammate(White, b[7][4])
  {
  }

  /** Castling needs the squares towards the rook cleared. */
  lemma CastlingFromStart()
    ensures !KingIsValidMove(White, 7, 4, 7, 6, InitialBoard)
    ensures KingIsValidMove(White, 7, 4, 7, 6, KingsideCleared())
    ensures !KingIsValidMove(White, 7, 4, 7, 2, KingsideCleared())
    ensures !KingIsValidMove(White, 7, 4, 6, 4, InitialBoard)
  {
  }
}
