/**
 * The earlier rule set: the same teammate test and pawn rule as the complete
 * one (the text is identical, so Piece.IsTeammate and Pieces.PawnIsValidMove
 * model both), a king without castling, and a bishop without the guard against
 * a zero-length move.
 *
 * Without that guard the bishop's scan can leave the board. Its lookups are
 * modelled as JavaScript performs them: a row outside the board is
 * `undefined`, and indexing it throws a TypeError; a column outside the board
 * reads `undefined`, which is not the empty string, so the scan reports the
 * path blocked.
 */
module LegacyPieces {
  import opened Board
  import opened Piece
  import Pieces

  /** The earlier king: one square in any direction onto a non-teammate square. */
  function LegacyKingIsValidMove(color: Color, r1: int, c1: int, r2: int, c2: int, b: Board): (r: bool)
    requires IsBoard(b) && OnBoard(r1, c1) && OnBoard(r2, c2)
    ensures r ==> Pieces.KingIsValidMove(color, r1, c1, r2, c2, b)
    ensures r ==> !IsTeammate(color, b[r2][c2])
  {
    var rowDiff := Abs(r1 - r2);
    var colDiff := Abs(c1 - c2);
    if rowDiff <= 1 && colDiff <= 1 then !IsTeammate(color, b[r2][c2])
    else false
  }

  /**
   * The earlier king never moves more than one square in any direction, and a
   * one-square move is legal exactly onto a non-teammate square: it is the
   * complete king rule without castling.
   */
  lemma LegacyKingHasNoCastling(color: Color, r1: int, c1: int, r2: int, c2: int, b: Board)
    requires IsBoard(b) && OnBoard(r1, c1) && OnBoard(r2, c2)
    ensures LegacyKingIsValidMove(color, r1, c1, r2, c2, b) ==> Abs(r1 - r2) <= 1 && Abs(c1 - c2) <= 1
    ensures Abs(r1 - r2) <= 1 && Abs(c1 - c2) <= 1 ==>
              (LegacyKingIsValidMove(color, r1, c1, r2, c2, b) <==> !IsTeammate(color, b[r2][c2]))
    ensures LegacyKingIsValidMove(color, r1, c1, r2, c2, b) ==
              (Pieces.KingIsValidMove(color, r1, c1, r2, c2, b) && Abs(c1 - c2) <= 1 && Abs(r1 - r2) <= 1)
  {
  }

  /** How a JavaScript call of the rule ends: with a returned boolean or with a thrown TypeError. */
  datatype Completion = Normal(value: bool) | TypeError

  /** How the bishop's path scan ends. */
  datatype ScanEnd = Reached | Blocked | Crashed

  /**
   * The bishop's scan from (row, col), stepping by (rowStep, colStep) until the
   * row equals r2. It ends: Reached when the row equals r2; Crashed when the
   * row is off the board; Blocked at a column off the board or an occupied
   * square.
   */
  function LegacyScan(b: Board, row: int, col: int, rowStep: int, colStep: int, r2: int): ScanEnd
    requires IsBoard(b)
    requires rowStep == 1 || rowStep == -1
    decreases if rowStep == 1 then 8 - row else row + 1
  {
    if row == r2 then Reached
    else if !(0 <= row < 8) then Crashed
    else if !(0 <= col < 8) || b[row][col] != "" then Blocked
    else LegacyScan(b, row + rowStep, col + colStep, rowStep, colStep, r2)
  }

  /**
   * A scan that starts on the board, no further than r2 in its own direction,
   * meets r2 before it can leave the board, so it never crashes.
   */
  lemma {:induction false} ScanTowardsEnd(b: Board, row: int, col: int, rowStep: int, colStep: int, r2: int)
    requires IsBoard(b) && 0 <= r2 < 8
    requires rowStep == 1 || rowStep == -1
    ensures 0 <= row < 8 && ((rowStep == 1 && row <= r2) || (rowStep == -1 && row >= r2)) ==>
              LegacyScan(b, row, col, rowStep, colStep, r2) != Crashed
    decreases if rowStep == 1 then 8 - row else row + 1
  {
    if 0 <= row < 8 && ((rowStep == 1 && row <= r2) || (rowStep == -1 && row >= r2)) && row != r2 && 0 <= col < 8 && b[row][col] == "" {
      ScanTowardsEnd(b, row + rowStep, col + colStep, rowStep, colStep, r2);
    }
  }

  /**
   * The outcome of the earlier bishop rule. It returns true only for a
   * diagonal move onto a non-teammate square, and it throws only for a move
   * to the bishop's own square.
   */
  function LegacyBishopOutcome(color: Color, r1: int, c1: int, r2: int, c2: int, b: Board): (r: Completion)
    requires IsBoard(b) && OnBoard(r1, c1) && OnBoard(r2, c2)
    ensures r == Normal(true) ==> Abs(r1 - r2) == Abs(c1 - c2) && !IsTeammate(color, b[r2][c2])
    ensures r == TypeError ==> (r1, c1) == (r2, c2)
  {
    if Abs(r1 - r2) != Abs(c1 - c2) then Normal(false)
    else
      var rowStep := if r2 > r1 then 1 else -1;
      var colStep := if c2 > c1 then 1 else -1;
      ScanTowardsEnd(b, r1 + rowStep, c1 + colStep, rowStep, colStep, r2);
      match LegacyScan(b, r1 + rowStep, c1 + colStep, rowStep, colStep, r2)
      case Reached => Normal(!IsTeammate(color, b[r2][c2]))
      case Blocked => Normal(false)
      case Crashed => TypeError
  }

  method LegacyBishopIsValidMove(color: Color, r1: int, c1: int, r2: int, c2: int, b: Board) returns (r: Completion)
    requires IsBoard(b) && OnBoard(r1, c1) && OnBoard(r2, c2)
    ensures r == LegacyBishopOutcome(color, r1, c1, r2, c2, b)
  {
    var rowDiff := Abs(r1 - r2);
    var colDiff := Abs(c1 - c2);
    if rowDiff != colDiff {
      return Normal(false);
    }
    var rowStep := if r2 > r1 then 1 else -1;
    var colStep := if c2 > c1 then 1 else -1;
    var currentRow := r1 + rowStep;
    var currentCol := c1 + colStep;
    while currentRow != r2
      invariant LegacyScan(b, currentRow, currentCol, rowStep, colStep, r2)
             == LegacyScan(b, r1 + rowStep, c1 + colStep, rowStep, colStep, r2)
      decreases if rowStep == 1 then 8 - currentRow else currentRow + 1
    {
      if !(0 <= currentRow < 8) {
        // boardState[currentRow] is undefined; reading a column of it throws
        return TypeError;
      }
      if !(0 <= currentCol < 8) || b[currentRow][currentCol] != "" {
        return Normal(false);
      }
      currentRow := currentRow + rowStep;
      currentCol := currentCol + colStep;
    }
    return Normal(!IsTeammate(color, b[r2][c2]));
  }

  /**
   * On a non-zero diagonal the scan stays on the board and reaches the end
   * exactly when the squares from step k up to the end are empty.
   */
  lemma {:induction false} ScanAlongDiagonal(b: Board, r1: int, c1: int, r2: int, c2: int, k: int)
    requires IsBoard(b) && OnBoard(r1, c1) && OnBoard(r2, c2)
    requires Abs(r1 - r2) == Abs(c1 - c2) && r1 != r2
    requires 1 <= k <= Abs(r1 - r2)
    ensures var rowStep := if r2 > r1 then 1 else -1;
            var colStep := if c2 > c1 then 1 else -1;
            LegacyScan(b, Pieces.Along(r1, r2 - r1, k), Pieces.Along(c1, c2 - c1, k), rowStep, colStep, r2)
            == if forall j :: k <= j < Abs(r1 - r2) ==> Pieces.EmptyStep(b, r1, c1, r2, c2, j) then Reached else Blocked
    decreases Abs(r1 - r2) - k
  {
    var rowStep := if r2 > r1 then 1 else -1;
    var colStep := if c2 > c1 then 1 else -1;
    if k < Abs(r1 - r2) {
      ScanAlongDiagonal(b, r1, c1, r2, c2, k + 1);
      assert Pieces.Along(r1, r2 - r1, k) + rowStep == Pieces.Along(r1, r2 - r1, k + 1);
      assert Pieces.Along(c1, c2 - c1, k) + colStep == Pieces.Along(c1, c2 - c1, k + 1);
      if !Pieces.EmptyStep(b, r1, c1, r2, c2, k) {
        assert !(forall j :: k <= j < Abs(r1 - r2) ==> Pieces.EmptyStep(b, r1, c1, r2, c2, j));
      }
    }
  }

  /** For any move other than a zero-length one, the earlier bishop agrees with the complete one. */
  lemma LegacyBishopAgrees(color: Color, r1: int, c1: int, r2: int, c2: int, b: Board)
    requires IsBoard(b) && OnBoard(r1, c1) && OnBoard(r2, c2)
    requires (r1, c1) != (r2, c2)
    ensures LegacyBishopOutcome(color, r1, c1, r2, c2, b) == Normal(Pieces.BishopRule(color, r1, c1, r2, c2, b))
  {
    if Abs(r1 - r2) == Abs(c1 - c2) {
      ScanAlongDiagonal(b, r1, c1, r2, c2, 1);
    }
  }

  /**
   * A zero-length move never returns true: the scan walks up and to the left
   * and either meets an occupied square, steps off a column (false), or steps
   * off the top row (TypeError).
   */
  lemma {:induction false} LegacyScanUpLeft(b: Board, row: int, col: int, r: int)
    requires IsBoard(b) && row < r && r < 8
    ensures LegacyScan(b, row, col, -1, -1, r) != Reached
    decreases row + 1
  {
    if 0 <= row && 0 <= col < 8 && b[row][col] == "" {
      LegacyScanUpLeft(b, row - 1, col - 1, r);
    }
  }

  lemma LegacyBishopZeroMove(color: Color, r: int, c: int, b: Board)
    requires IsBoard(b) && OnBoard(r, c)
    ensures LegacyBishopOutcome(color, r, c, r, c, b) != Normal(true)
    ensures r == 0 ==> LegacyBishopOutcome(color, r, c, r, c, b) == TypeError
  {
    LegacyScanUpLeft(b, r - 1, c - 1, r);
  }

  /**
   * The earlier bishop is not symmetric under the colour swap: a zero-length
   * scan always walks towards row 0, so the black bishop on (0, 2) throws while
   * its mirror, the white bishop on (7, 2) of the swapped board, is blocked.
   */
  lemma LegacyBishopNotMirrored()
    ensures LegacyBishopOutcome(Black, 0, 2, 0, 2, InitialBoard) == TypeError
    ensures LegacyBishopOutcome(White, 7, 2, 7, 2, Flip(InitialBoard)) == Normal(false)
  {
    InitialBoardWellFormed();
    assert Flip(InitialBoard)[6][1] == SwapCase(InitialBoard[1][1]);
  }

  /** On the starting position, asking the black bishop on (0, 2) to move to its own square throws. */
  lemma LegacyBishopThrowsOnInitialBoard()
    ensures LegacyBishopOutcome(Black, 0, 2, 0, 2, InitialBoard) == TypeError
  {
    LegacyBishopZeroMove(Black, 0, 2, InitialBoard);
  }
}
