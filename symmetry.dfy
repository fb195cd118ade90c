/**
 * Colour symmetry of the complete rule set: reflecting the board top to bottom
 * (row r becomes row 7 - r) and swapping the colour of every piece turns a
 * legal move of one side into the mirrored legal move of the other side.
 */
module Symmetry {
  import opened Board
  import opened Piece
  import opened Pieces

  /** Swapping the colour twice gives the square back. */
  lemma SwapCaseTwice(s: string)
    requires Decode(s).Some?
    ensures SwapCase(SwapCase(s)) == s
  {
    match Decode(s).value
    case Empty =>
    case Occupied(k, c) =>
      LetterOfDecode(s, Occupied(k, c));
      assert Decode(SwapCase(s)) == Some(Occupied(k, Other(c)));
  }

  /** A square holds the rook letter of one colour exactly when its swap holds the other colour's. */
  lemma SwapCaseRook(s: string, color: Color)
    requires Decode(s).Some?
    ensures SwapCase(s) == RookLetter(Other(color)) <==> s == RookLetter(color)
  {
    if SwapCase(s) == RookLetter(Other(color)) {
      SwapCaseTwice(s);
      assert SwapCase(RookLetter(Other(color))) == RookLetter(color);
    }
  }

  /** The mirrored board holds, at every mirrored square, the colour-swapped string. */
  lemma FlipAt(b: Board, r: int, c: int)
    requires WellFormed(b) && OnBoard(r, c)
    ensures Flip(b)[7 - r][c] == SwapCase(b[r][c])
    ensures Flip(b)[7 - r][c] == "" <==> b[r][c] == ""
    ensures forall me: Color :: IsTeammate(Other(me), Flip(b)[7 - r][c]) == IsTeammate(me, b[r][c])
  {
    forall me: Color ensures IsTeammate(Other(me), Flip(b)[7 - r][c]) == IsTeammate(me, b[r][c]) {
      TeammateSwap(me, b[r][c]);
    }
  }

  lemma PawnMirror(color: Color, r1: int, c1: int, r2: int, c2: int, b: Board)
    requires WellFormed(b) && OnBoard(r1, c1) && OnBoard(r2, c2)
    ensures PawnIsValidMove(Other(color), 7 - r1, c1, 7 - r2, c2, Flip(b)) == PawnIsValidMove(color, r1, c1, r2, c2, b)
  {
    FlipAt(b, r2, c2);
    if c1 == c2 && r2 - r1 == 2 * Direction(color) && r1 == PawnHomeRow(color) {
      FlipAt(b, r1 + Direction(color), c1);
    }
  }

  lemma KnightMirror(color: Color, r1: int, c1: int, r2: int, c2: int, b: Board)
    requires WellFormed(b) && OnBoard(r1, c1) && OnBoard(r2, c2)
    ensures KnightIsValidMove(Other(color), 7 - r1, c1, 7 - r2, c2, Flip(b)) == KnightIsValidMove(color, r1, c1, r2, c2, b)
  {
    FlipAt(b, r2, c2);
  }

  lemma KingMirror(color: Color, r1: int, c1: int, r2: int, c2: int, b: Board)
    requires WellFormed(b) && OnBoard(r1, c1) && OnBoard(r2, c2)
    ensures KingIsValidMove(Other(color), 7 - r1, c1, 7 - r2, c2, Flip(b)) == KingIsValidMove(color, r1, c1, r2, c2, b)
  {
    FlipAt(b, r2, c2);
    if Abs(r1 - r2) <= 1 && Abs(c1 - c2) <= 1 {
    } else if r1 == KingHomeRow(color) && r2 == r1 && Abs(c1 - c2) == 2 {
      if c2 > c1 {
        FlipAt(b, r1, 5);
        FlipAt(b, r1, 6);
        FlipAt(b, r1, 7);
        SwapCaseRook(b[r1][7], color);
      } else {
        FlipAt(b, r1, 1);
        FlipAt(b, r1, 2);
        FlipAt(b, r1, 3);
        FlipAt(b, r1, 0);
        SwapCaseRook(b[r1][0], color);
      }
    }
  }

  /** The squares between two mirrored squares are the mirrors of the squares between them. */
  lemma ClearBetweenMirror(r1: int, c1: int, r2: int, c2: int, b: Board)
    requires WellFormed(b) && OnBoard(r1, c1) && OnBoard(r2, c2) && Aligned(r1, c1, r2, c2)
    ensures ClearBetween(Flip(b), 7 - r1, c1, 7 - r2, c2) == ClearBetween(b, r1, c1, r2, c2)
  {
    var f, m1, m2 := Flip(b), 7 - r1, 7 - r2;
    var n := Dist(r1, c1, r2, c2);
    assert Dist(m1, c1, m2, c2) == n;
    forall k | 0 < k < n
      ensures EmptyStep(f, m1, c1, m2, c2, k) == EmptyStep(b, r1, c1, r2, c2, k)
    {
      assert Along(m1, m2 - m1, k) == 7 - Along(r1, r2 - r1, k);
      FlipAt(b, Along(r1, r2 - r1, k), Along(c1, c2 - c1, k));
    }
    if ClearBetween(b, r1, c1, r2, c2) {
      assert forall k :: 0 < k < n ==> EmptyStep(f, m1, c1, m2, c2, k);
    } else {
      var k :| 0 < k < n && !EmptyStep(b, r1, c1, r2, c2, k);
      assert !EmptyStep(f, m1, c1, m2, c2, k);
    }
  }

  lemma BishopMirror(color: Color, r1: int, c1: int, r2: int, c2: int, b: Board)
    requires WellFormed(b) && OnBoard(r1, c1) && OnBoard(r2, c2)
    ensures BishopRule(Other(color), 7 - r1, c1, 7 - r2, c2, Flip(b)) == BishopRule(color, r1, c1, r2, c2, b)
  {
    FlipAt(b, r2, c2);
    if Aligned(r1, c1, r2, c2) {
      ClearBetweenMirror(r1, c1, r2, c2, b);
    }
  }

  lemma RookMirror(color: Color, r1: int, c1: int, r2: int, c2: int, b: Board)
    requires WellFormed(b) && OnBoard(r1, c1) && OnBoard(r2, c2)
    ensures RookRule(Other(color), 7 - r1, c1, 7 - r2, c2, Flip(b)) == RookRule(color, r1, c1, r2, c2, b)
  {
    FlipAt(b, r2, c2);
    if Aligned(r1, c1, r2, c2) {
      ClearBetweenMirror(r1, c1, r2, c2, b);
    }
  }

  lemma QueenMirror(color: Color, r1: int, c1: int, r2: int, c2: int, b: Board)
    requires WellFormed(b) && OnBoard(r1, c1) && OnBoard(r2, c2)
    ensures QueenRule(Other(color), 7 - r1, c1, 7 - r2, c2, Flip(b)) == QueenRule(color, r1, c1, r2, c2, b)
  {
    FlipAt(b, r2, c2);
    if Aligned(r1, c1, r2, c2) {
      ClearBetweenMirror(r1, c1, r2, c2, b);
    }
  }

  /**
   * For every piece kind, a move is legal for one colour exactly when the
   * mirrored move is legal for the other colour on the mirrored board.
   */
  lemma MoveMirror(kind: Kind, color: Color, r1: int, c1: int, r2: int, c2: int, b: Board)
    requires WellFormed(b) && OnBoard(r1, c1) && OnBoard(r2, c2)
    ensures IsValidMove(kind, Other(color), 7 - r1, c1, 7 - r2, c2, Flip(b)) == IsValidMove(kind, color, r1, c1, r2, c2, b)
  {
    match kind
    case Pawn => PawnMirror(color, r1, c1, r2, c2, b);
    case Knight => KnightMirror(color, r1, c1, r2, c2, b);
    case Bishop => BishopMirror(color, r1, c1, r2, c2, b);
    case Rook => RookMirror(color, r1, c1, r2, c2, b);
    case Queen => QueenMirror(color, r1, c1, r2, c2, b);
    case King => KingMirror(color, r1, c1, r2, c2, b);
  }
}
