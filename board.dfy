/**
 * The board representation shared by every piece rule: an 8x8 grid of
 * one-character strings. An upper-case letter is a white piece, a lower-case
 * letter a black piece, and the empty string an empty square. Row 0 is black's
 * back rank and row 7 white's.
 *
 * The rules compare cells as strings; the `Cell` datatype below is the
 * abstraction used to state what those strings mean.
 */
module Board {

  datatype Option<T> = None | Some(value: T)

  datatype Color = White | Black

  datatype Kind = Pawn | Knight | Bishop | Rook | Queen | King

  datatype Cell = Empty | Occupied(kind: Kind, color: Color)

  function Other(c: Color): Color
  {
    if c == White then Black else White
  }

  /** The upper-case letter of a piece kind. */
  function KindChar(k: Kind): char
  {
    match k
    case Pawn => 'P'
    case Knight => 'N'
    case Bishop => 'B'
    case Rook => 'R'
    case Queen => 'Q'
    case King => 'K'
  }

  /** The letter of a piece: upper case for white, lower case for black. */
  function PieceChar(k: Kind, c: Color): char
  {
    if c == White then KindChar(k) else (KindChar(k) as int + 32) as char
  }

  function DecodeChar(ch: char): Option<Cell>
  {
    match ch
    case 'P' => Some(Occupied(Pawn, White))
    case 'N' => Some(Occupied(Knight, White))
    case 'B' => Some(Occupied(Bishop, White))
    case 'R' => Some(Occupied(Rook, White))
    case 'Q' => Some(Occupied(Queen, White))
    case 'K' => Some(Occupied(King, White))
    case 'p' => Some(Occupied(Pawn, Black))
    case 'n' => Some(Occupied(Knight, Black))
    case 'b' => Some(Occupied(Bishop, Black))
    case 'r' => Some(Occupied(Rook, Black))
    case 'q' => Some(Occupied(Queen, Black))
    case 'k' => Some(Occupied(King, Black))
    case _ => None
  }

  /** The cell a board string stands for; None for a string that is not one of the 13 cell strings. */
  function Decode(s: string): Option<Cell>
  {
    if s == "" then Some(Empty)
    else if |s| == 1 then DecodeChar(s[0])
    else None
  }

  /** The board string of a cell; decoding it gives the cell back. */
  function Letter(c: Cell): (s: string)
    ensures Decode(s) == Some(c)
    ensures s == "" <==> c == Empty
  {
    match c
    case Empty => ""
    case Occupied(k, col) => [PieceChar(k, col)]
  }

  /** Decoding is injective: a string that decodes to a cell is that cell's letter. */
  lemma LetterOfDecode(s: string, c: Cell)
    requires Decode(s) == Some(c)
    ensures Letter(c) == s
  {
    if s != "" {
      assert |s| == 1 && s == [s[0]];
    }
  }

  /** The string the rules compare a corner square against when castling. */
  function RookLetter(c: Color): string
  {
    Letter(Occupied(Rook, c))
  }

  type Board = seq<seq<string>>

  /** An 8x8 grid. */
  predicate IsBoard(b: Board)
  {
    |b| == 8 && forall r :: 0 <= r < 8 ==> |b[r]| == 8
  }

  /** An 8x8 grid whose every cell is one of the 12 piece letters or empty. */
  predicate WellFormed(b: Board)
  {
    IsBoard(b) && forall r, c :: 0 <= r < 8 && 0 <= c < 8 ==> Decode(b[r][c]).Some?
  }

  predicate OnBoard(r: int, c: int)
  {
    0 <= r < 8 && 0 <= c < 8
  }

  function Abs(x: int): nat
  {
    if x < 0 then -x else x
  }

  /** The same piece in the other colour; empty and unknown strings are unchanged. */
  function SwapCase(s: string): (t: string)
    ensures t == "" <==> s == ""
  {
    match Decode(s)
    case Some(Occupied(k, c)) => Letter(Occupied(k, Other(c)))
    case _ => s
  }

  /**
   * The colour-swapped board: row r becomes row 7 - r and every piece changes
   * colour, so a white piece at (r, c) becomes a black piece at (7 - r, c).
   */
  function Flip(b: Board): (f: Board)
    requires IsBoard(b)
    ensures IsBoard(f)
    ensures forall r, c :: 0 <= r < 8 && 0 <= c < 8 ==> f[7 - r][c] == SwapCase(b[r][c])
  {
    seq(8, i requires 0 <= i < 8 => seq(8, j requires 0 <= j < 8 => SwapCase(b[7 - i][j])))
  }

  /** The starting position the game sets up. */
  const InitialBoard: Board := [
    ["r", "n", "b", "q", "k", "b", "n", "r"],
    ["p", "p", "p", "p", "p", "p", "p", "p"],
    ["", "", "", "", "", "", "", ""],
    ["", "", "", "", "", "", "", ""],
    ["", "", "", "", "", "", "", ""],
    ["", "", "", "", "", "", "", ""],
    ["P", "P", "P", "P", "P", "P", "P", "P"],
    ["R", "N", "B", "Q", "K", "B", "N", "R"]
  ]

  lemma InitialBoardWellFormed()
    ensures WellFormed(InitialBoard)
  {
  }
}
