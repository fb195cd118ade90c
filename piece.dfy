/**
 * The base piece: a colour, the teammate test every rule uses on a
 * destination square, the default move rule and the empty pawn stub of the
 * earliest version.
 */
module Piece {
  import opened Board

  /** toUpperCase on one character, for the ASCII letters the board holds. */
  function UpperChar(ch: char): char
  {
    if 'a' <= ch <= 'z' then (ch as int - 32) as char else ch
  }

  function ToUpperCase(s: string): (u: string)
    ensures |u| == |s|
  {
    seq(|s|, i requires 0 <= i < |s| => UpperChar(s[i]))
  }

  /**
   * Whether the string on a square belongs to the side of colour `me`: an
   * empty square never does; otherwise the square is white when it equals its
   * own upper-case form.
   */
  function IsTeammate(me: Color, target: string): (r: bool)
    ensures target == "" ==> !r
    ensures Decode(target).Some? && Decode(target).value.Occupied? ==>
              (r <==> Decode(target).value.color == me)
  {
    if target == "" then false
    else (target == ToUpperCase(target)) == (me == White)
  }

  /** A piece letter is a teammate exactly of its own colour. */
  lemma TeammateOfLetter(me: Color, k: Kind, c: Color)
    ensures IsTeammate(me, Letter(Occupied(k, c))) <==> c == me
  {
  }

  /** For any non-empty square, exactly one of the two colours calls it a teammate. */
  lemma TeammateComplementary(target: string)
    requires target != ""
    ensures IsTeammate(White, target) != IsTeammate(Black, target)
  {
  }

  /** Swapping the colour of the target and of the asker leaves the answer unchanged. */
  lemma TeammateSwap(me: Color, target: string)
    requires Decode(target).Some?
    ensures IsTeammate(Other(me), SwapCase(target)) == IsTeammate(me, target)
  {
    match Decode(target).value
    case Empty =>
    case Occupied(k, c) =>
      assert Decode(SwapCase(target)) == Some(Occupied(k, Other(c)));
  }

  /** A JavaScript return value: a method with an empty body returns undefined. */
  datatype JsValue = Undefined | Bool(b: bool)

  predicate Truthy(v: JsValue)
  {
    v.Bool? && v.b
  }

  /** The base class's move rule: no move is legal. */
  function DefaultIsValidMove(startRow: int, startCol: int, endRow: int, endCol: int, b: Board): (r: bool)
    ensures !r
  {
    false
  }

  /** The pawn stub of the base file: returns undefined, so no move is accepted. */
  function PawnStubIsValidMove(r1: int, c1: int, r2: int, c2: int, b: Board): (r: JsValue)
    ensures !Truthy(r)
  {
    Undefined
  }
}
