/**
 * The complete rule set: one move-legality rule per piece kind, for a move
 * from (r1, c1) to (r2, c2) by a piece of colour `color`. The rules ignore
 * check; the board is only read.
 *
 * Pawn, King and Knight are conditional expressions over board lookups and
 * are functions here. Bishop, Rook and Queen scan the path with a loop; each is
 * a method proved against a declarative rule (BishopRule, RookRule,
 * QueenRule) stated with `ClearBetween`.
 */
module Pieces {
  import opened Board
  import opened Piece

  // ---------------------------------------------------------------------------
  // Pawn

  /** The row direction a pawn moves in: up the board for white, down for black. */
  function Direction(color: Color): int
  {
    if color == White then -1 else 1
  }

  /** The row a pawn starts on, the only row it may advance two squares from. */
  function PawnHomeRow(color: Color): int
  {
    if color == White then 6 else 1
  }

  /**
   * A pawn moves one square forward, two from its home row, or one
   * diagonally forward onto an enemy piece; straight moves need empty squares.
   */
  function PawnIsValidMove(color: Color, r1: int, c1: int, r2: int, c2: int, b: Board): (r: bool)
    requires IsBoard(b) && OnBoard(r1, c1) && OnBoard(r2, c2)
    ensures r ==> || (r2 - r1 == Direction(color) && Abs(c2 - c1) <= 1)
                  || (r2 - r1 == 2 * Direction(color) && c1 == c2 && r1 == PawnHomeRow(color))
    ensures r ==> !IsTeammate(color, b[r2][c2])
    ensures r ==> (b[r2][c2] == "" <==> c1 == c2)
  {
    var direction := Direction(color);
    var rowDiff := r2 - r1;
    var colDiff := Abs(c2 - c1);
    var target := b[r2][c2];
    if colDiff == 0 && rowDiff == direction then
      target == ""
    else if colDiff == 0 && rowDiff == direction * 2 && r1 == PawnHomeRow(color) then
      target == "" && b[r1 + direction][c1] == ""
    else if colDiff == 1 && rowDiff == direction then
      target != "" && !IsTeammate(color, target)
    else
      false
  }

  /** One square straight ahead is legal exactly onto an empty square. */
  lemma PawnSingleStep(color: Color, r1: int, c: int, r2: int, b: Board)
    requires IsBoard(b) && OnBoard(r1, c) && OnBoard(r2, c)
    requires r2 == r1 + Direction(color)
    ensures PawnIsValidMove(color, r1, c, r2, c, b) <==> b[r2][c] == ""
  {
  }

  /** Whatever the distance, a pawn moving straight never lands on an occupied square. */
  lemma PawnNeverCapturesStraight(color: Color, r1: int, c: int, r2: int, b: Board)
    requires IsBoard(b) && OnBoard(r1, c) && OnBoard(r2, c)
    requires PawnIsValidMove(color, r1, c, r2, c, b)
    ensures b[r2][c] == ""
    ensures r2 == r1 + Direction(color) || r2 == r1 + 2 * Direction(color)
  {
  }

  /**
   * Two squares straight ahead is legal exactly from the home row with both the
   * square passed over and the destination empty.
   */
  lemma PawnDoubleStep(color: Color, r1: int, c: int, r2: int, b: Board)
    requires IsBoard(b) && OnBoard(r1, c) && OnBoard(r2, c)
    requires r2 == r1 + 2 * Direction(color)
    ensures PawnIsValidMove(color, r1, c, r2, c, b) <==>
              r1 == PawnHomeRow(color) && b[r1 + Direction(color)][c] == "" && b[r2][c] == ""
  {
  }

  /** One square diagonally forward is legal exactly onto an enemy piece. */
  lemma PawnCapture(color: Color, r1: int, c1: int, r2: int, c2: int, b: Board)
    requires WellFormed(b) && OnBoard(r1, c1) && OnBoard(r2, c2)
    requires r2 == r1 + Direction(color) && Abs(c2 - c1) == 1
    ensures PawnIsValidMove(color, r1, c1, r2, c2, b) <==>
              Decode(b[r2][c2]).value.Occupied? && Decode(b[r2][c2]).value.color == Other(color)
  {
  }

  /** Every other displacement is illegal, whatever the board holds. */
  lemma PawnOtherGeometry(color: Color, r1: int, c1: int, r2: int, c2: int, b: Board)
    requires IsBoard(b) && OnBoard(r1, c1) && OnBoard(r2, c2)
    requires !(c1 == c2 && (r2 - r1 == Direction(color) || r2 - r1 == 2 * Direction(color)))
    requires !(Abs(c2 - c1) == 1 && r2 - r1 == Direction(color))
    ensures !PawnIsValidMove(color, r1, c1, r2, c2, b)
  {
  }

  // ---------------------------------------------------------------------------
  // King

  /** The rank a king castles on. */
  function KingHomeRow(color: Color): int
  {
    if color == White then 7 else 0
  }

  /**
   * A king steps one square in any direction, or castles: two columns along
   * its home rank towards an own rook with the squares between empty.
   */
  function KingIsValidMove(color: Color, r1: int, c1: int, r2: int, c2: int, b: Board): (r: bool)
    requires IsBoard(b) && OnBoard(r1, c1) && OnBoard(r2, c2)
    ensures r ==> (Abs(r1 - r2) <= 1 && Abs(c1 - c2) <= 1) || (r1 == r2 == KingHomeRow(color) && Abs(c1 - c2) == 2)
    ensures r && Abs(c1 - c2) == 2 ==> b[r1][if c2 > c1 then 7 else 0] == RookLetter(color)
    ensures r && Abs(c1 - c2) <= 1 ==> !IsTeammate(color, b[r2][c2])
  {
    var rowDiff := Abs(r1 - r2);
    var colDiff := Abs(c1 - c2);
    if rowDiff <= 1 && colDiff <= 1 then
      !IsTeammate(color, b[r2][c2])
    else if r1 == KingHomeRow(color) && r2 == KingHomeRow(color) && colDiff == 2 && rowDiff == 0 then
      if c2 > c1 then
        // kingside
        if b[r1][5] != "" || b[r1][6] != "" then false
        else b[r1][7] == RookLetter(color)
      else
        // queenside
        if b[r1][1] != "" || b[r1][2] != "" || b[r1][3] != "" then false
        else b[r1][0] == RookLetter(color)
    else
      false
  }

  /** A step of at most one square in each direction is legal exactly onto a non-teammate square. */
  lemma KingOneStep(color: Color, r1: int, c1: int, r2: int, c2: int, b: Board)
    requires IsBoard(b) && OnBoard(r1, c1) && OnBoard(r2, c2)
    requires Abs(r1 - r2) <= 1 && Abs(c1 - c2) <= 1
    ensures KingIsValidMove(color, r1, c1, r2, c2, b) <==> !IsTeammate(color, b[r2][c2])
  {
  }

  /**
   * Any longer king move is legal exactly when it is a two-square shift along
   * the home rank with the squares towards the corner empty and the own rook
   * letter in that corner. The king's start column is not consulted.
   */
  lemma KingCastling(color: Color, r1: int, c1: int, r2: int, c2: int, b: Board)
    requires IsBoard(b) && OnBoard(r1, c1) && OnBoard(r2, c2)
    requires Abs(r1 - r2) > 1 || Abs(c1 - c2) > 1
    ensures KingIsValidMove(color, r1, c1, r2, c2, b) <==>
              && r1 == r2 == KingHomeRow(color)
              && Abs(c1 - c2) == 2
              && (c2 > c1 ==> b[r1][5] == "" && b[r1][6] == "" && b[r1][7] == RookLetter(color))
              && (c2 < c1 ==> b[r1][1] == "" && b[r1][2] == "" && b[r1][3] == "" && b[r1][0] == RookLetter(color))
  {
  }

  // ---------------------------------------------------------------------------
  // Knight

  /** A knight jumps two squares one way and one the other, onto any non-teammate square. */
  function KnightIsValidMove(color: Color, r1: int, c1: int, r2: int, c2: int, b: Board): (r: bool)
    requires IsBoard(b) && OnBoard(r1, c1) && OnBoard(r2, c2)
    ensures r <==> (Abs(r1 - r2), Abs(c1 - c2)) in {(2, 1), (1, 2)} && !IsTeammate(color, b[r2][c2])
  {
    var rowDiff := Abs(r1 - r2);
    var colDiff := Abs(c1 - c2);
    var isTwoByOne := rowDiff == 2 && colDiff == 1;
    var isOneByTwo := rowDiff == 1 && colDiff == 2;
    if !isTwoByOne && !isOneByTwo then false
    else !IsTeammate(color, b[r2][c2])
  }

  /** A knight consults no square of the board but its destination. */
  lemma KnightJump(color: Color, r1: int, c1: int, r2: int, c2: int, b: Board, b': Board)
    requires IsBoard(b) && IsBoard(b') && OnBoard(r1, c1) && OnBoard(r2, c2)
    requires b'[r2][c2] == b[r2][c2]
    ensures KnightIsValidMove(color, r1, c1, r2, c2, b') == KnightIsValidMove(color, r1, c1, r2, c2, b)
  {
  }

  // ---------------------------------------------------------------------------
  // Sliding pieces: the squares strictly between two squares on a line

  /** On one rank, file or diagonal. */
  predicate Aligned(r1: int, c1: int, r2: int, c2: int)
  {
    r1 == r2 || c1 == c2 || Abs(r1 - r2) == Abs(c1 - c2)
  }

  /** The number of one-square steps from start to end along their line. */
  function Dist(r1: int, c1: int, r2: int, c2: int): nat
  {
    if Abs(r1 - r2) > Abs(c1 - c2) then Abs(r1 - r2) else Abs(c1 - c2)
  }

  /** The coordinate `k` steps from `x` towards a target `d` away (no move when d is 0). */
  function Along(x: int, d: int, k: int): int
  {
    if d > 0 then x + k else if d < 0 then x - k else x
  }

  /** The square `k` steps from start towards end, strictly between the two, is empty. */
  predicate EmptyStep(b: Board, r1: int, c1: int, r2: int, c2: int, k: int)
    requires IsBoard(b) && OnBoard(r1, c1) && OnBoard(r2, c2) && Aligned(r1, c1, r2, c2)
    requires 0 < k < Dist(r1, c1, r2, c2)
  {
    b[Along(r1, r2 - r1, k)][Along(c1, c2 - c1, k)] == ""
  }

  /** Every square strictly between start and end is empty. */
  predicate ClearBetween(b: Board, r1: int, c1: int, r2: int, c2: int)
    requires IsBoard(b) && OnBoard(r1, c1) && OnBoard(r2, c2) && Aligned(r1, c1, r2, c2)
  {
    forall k :: 0 < k < Dist(r1, c1, r2, c2) ==> EmptyStep(b, r1, c1, r2, c2, k)
  }

  /** A bishop moves a non-zero distance along a diagonal, over empty squares, onto a non-teammate square. */
  predicate BishopRule(color: Color, r1: int, c1: int, r2: int, c2: int, b: Board)
    requires IsBoard(b) && OnBoard(r1, c1) && OnBoard(r2, c2)
  {
    && Abs(r1 - r2) == Abs(c1 - c2) && r1 != r2
    && ClearBetween(b, r1, c1, r2, c2)
    && !IsTeammate(color, b[r2][c2])
  }

  /** A rook moves along a rank or a file, over empty squares, onto a non-teammate square. */
  predicate RookRule(color: Color, r1: int, c1: int, r2: int, c2: int, b: Board)
    requires IsBoard(b) && OnBoard(r1, c1) && OnBoard(r2, c2)
  {
    && (r1 == r2 || c1 == c2)
    && ClearBetween(b, r1, c1, r2, c2)
    && !IsTeammate(color, b[r2][c2])
  }

  /** A queen moves along a diagonal, rank or file, over empty squares, onto a non-teammate square. */
  predicate QueenRule(color: Color, r1: int, c1: int, r2: int, c2: int, b: Board)
    requires IsBoard(b) && OnBoard(r1, c1) && OnBoard(r2, c2)
  {
    && Aligned(r1, c1, r2, c2)
    && ClearBetween(b, r1, c1, r2, c2)
    && !IsTeammate(color, b[r2][c2])
  }

  method BishopIsValidMove(color: Color, r1: int, c1: int, r2: int, c2: int, b: Board) returns (r: bool)
    requires IsBoard(b) && OnBoard(r1, c1) && OnBoard(r2, c2)
    ensures r == BishopRule(color, r1, c1, r2, c2, b)
  {
    var rowDiff := Abs(r1 - r2);
    var colDiff := Abs(c1 - c2);
    if rowDiff != colDiff {
      return false;
    }
    if rowDiff == 0 {
      return false;
    }
    var rowStep := if r2 > r1 then 1 else -1;
    var colStep := if c2 > c1 then 1 else -1;
    var currentRow := r1 + rowStep;
    var currentCol := c1 + colStep;
    ghost var k := 1;
    while currentRow != r2
      invariant 1 <= k <= rowDiff
      invariant currentRow == Along(r1, r2 - r1, k) && currentCol == Along(c1, c2 - c1, k)
      invariant forall j :: 0 < j < k ==> EmptyStep(b, r1, c1, r2, c2, j)
      decreases rowDiff - k
    {
      if b[currentRow][currentCol] != "" {
        assert !EmptyStep(b, r1, c1, r2, c2, k);
        return false;
      }
      currentRow := currentRow + rowStep;
      currentCol := currentCol + colStep;
      k := k + 1;
    }
    return !IsTeammate(color, b[r2][c2]);
  }

  /**
   * The path scan shared by the rook and the queen: step from the start
   * towards the end one square at a time (a step of 0 on an axis that does not
   * change) and stop at the first occupied square.
   */
  method SlidePathClear(r1: int, c1: int, r2: int, c2: int, b: Board) returns (clear: bool)
    requires IsBoard(b) && OnBoard(r1, c1) && OnBoard(r2, c2) && Aligned(r1, c1, r2, c2)
    ensures clear == ClearBetween(b, r1, c1, r2, c2)
  {
    var rowStep := if r1 == r2 then 0 else if r2 > r1 then 1 else -1;
    var colStep := if c1 == c2 then 0 else if c2 > c1 then 1 else -1;
    var currentRow := r1 + rowStep;
    var currentCol := c1 + colStep;
    ghost var n: int := Dist(r1, c1, r2, c2);
    ghost var k := 1;
    while currentRow != r2 || currentCol != c2
      invariant 1 <= k <= n || (n == 0 && k == 1)
      invariant currentRow == Along(r1, r2 - r1, k) && currentCol == Along(c1, c2 - c1, k)
      invariant forall j :: 0 < j < k ==> EmptyStep(b, r1, c1, r2, c2, j)
      decreases n - k
    {
      if b[currentRow][currentCol] != "" {
        assert !EmptyStep(b, r1, c1, r2, c2, k);
        return false;
      }
      currentRow := currentRow + rowStep;
      currentCol := currentCol + colStep;
      k := k + 1;
    }
    return true;
  }

  method RookIsValidMove(color: Color, r1: int, c1: int, r2: int, c2: int, b: Board) returns (r: bool)
    requires IsBoard(b) && OnBoard(r1, c1) && OnBoard(r2, c2)
    ensures r == RookRule(color, r1, c1, r2, c2, b)
  {
    var rowDiff := Abs(r1 - r2);
    var colDiff := Abs(c1 - c2);
    if colDiff != 0 && rowDiff != 0 {
      return false;
    }
    var clear := SlidePathClear(r1, c1, r2, c2, b);
    if !clear {
      return false;
    }
    return !IsTeammate(color, b[r2][c2]);
  }

  method QueenIsValidMove(color: Color, r1: int, c1: int, r2: int, c2: int, b: Board) returns (r: bool)
    requires IsBoard(b) && OnBoard(r1, c1) && OnBoard(r2, c2)
    ensures r == QueenRule(color, r1, c1, r2, c2, b)
  {
    var rowDiff := Abs(r1 - r2);
    var colDiff := Abs(c1 - c2);
    var isDiagonal := rowDiff == colDiff;
    var isStraight := rowDiff == 0 || colDiff == 0;
    if !isDiagonal && !isStraight {
      return false;
    }
    var clear := SlidePathClear(r1, c1, r2, c2, b);
    if !clear {
      return false;
    }
    return !IsTeammate(color, b[r2][c2]);
  }

  /** The queen's rule is the union of the bishop's and the rook's. */
  lemma QueenIsBishopOrRook(color: Color, r1: int, c1: int, r2: int, c2: int, b: Board)
    requires IsBoard(b) && OnBoard(r1, c1) && OnBoard(r2, c2)
    ensures QueenRule(color, r1, c1, r2, c2, b) == (BishopRule(color, r1, c1, r2, c2, b) || RookRule(color, r1, c1, r2, c2, b))
  {
  }

  /** The bishop never accepts a zero-length move. */
  lemma BishopRejectsZeroMove(color: Color, r: int, c: int, b: Board)
    requires IsBoard(b) && OnBoard(r, c)
    ensures !BishopRule(color, r, c, r, c, b)
  {
  }

  /**
   * A zero-length rook move is judged only by the start square itself, so it
   * is rejected whenever a piece of the rook's colour (the rook) stands there.
   */
  lemma RookZeroMove(color: Color, r: int, c: int, b: Board)
    requires IsBoard(b) && OnBoard(r, c)
    ensures RookRule(color, r, c, r, c, b) <==> !IsTeammate(color, b[r][c])
    ensures b[r][c] == Letter(Occupied(Rook, color)) ==> !RookRule(color, r, c, r, c, b)
  {
  }

  // ---------------------------------------------------------------------------
  // Dispatch over the piece kinds

  /** The rule of a piece of the given kind and colour. */
  predicate IsValidMove(kind: Kind, color: Color, r1: int, c1: int, r2: int, c2: int, b: Board)
    requires IsBoard(b) && OnBoard(r1, c1) && OnBoard(r2, c2)
  {
    match kind
    case Pawn => PawnIsValidMove(color, r1, c1, r2, c2, b)
    case Knight => KnightIsValidMove(color, r1, c1, r2, c2, b)
    case Bishop => BishopRule(color, r1, c1, r2, c2, b)
    case Rook => RookRule(color, r1, c1, r2, c2, b)
    case Queen => QueenRule(color, r1, c1, r2, c2, b)
    case King => KingIsValidMove(color, r1, c1, r2, c2, b)
  }

  /** Asks the piece of the given kind whether the move is valid, running the path scans. */
  method CheckMove(kind: Kind, color: Color, r1: int, c1: int, r2: int, c2: int, b: Board) returns (valid: bool)
    requires IsBoard(b) && OnBoard(r1, c1) && OnBoard(r2, c2)
    ensures valid == IsValidMove(kind, color, r1, c1, r2, c2, b)
  {
    match kind
    case Pawn => valid := PawnIsValidMove(color, r1, c1, r2, c2, b);
    case Knight => valid := KnightIsValidMove(color, r1, c1, r2, c2, b);
    case Bishop => valid := BishopIsValidMove(color, r1, c1, r2, c2, b);
    case Rook => valid := RookIsValidMove(color, r1, c1, r2, c2, b);
    case Queen => valid := QueenIsValidMove(color, r1, c1, r2, c2, b);
    case King => valid := KingIsValidMove(color, r1, c1, r2, c2, b);
  }

  /** No rule lets a piece land on a square held by its own side. */
  lemma NeverCapturesTeammate(kind: Kind, color: Color, r1: int, c1: int, r2: int, c2: int, b: Board)
    requires IsBoard(b) && OnBoard(r1, c1) && OnBoard(r2, c2)
    requires IsValidMove(kind, color, r1, c1, r2, c2, b)
    requires !(kind == King && Abs(c1 - c2) == 2)
    ensures !IsTeammate(color, b[r2][c2])
  {
  }
}
