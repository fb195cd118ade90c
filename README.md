# Chess piece move rules

A Dafny model of the move-legality rules of a small browser chess game. The
game keeps the position as an 8x8 grid of one-character strings: an upper-case
letter is a white piece (`P N B R Q K`), a lower-case letter a black piece, and
`""` an empty square. Row 0 is black's back rank and row 7 white's. Each piece
class has an `isValidMove(r1, c1, r2, c2, boardState)` that says whether moving
from (r1, c1) to (r2, c2) is allowed. These rules ignore check. The board is
only read.

The repository has three versions of these rules, and each is a module here:

- `Piece` (src/piece.js): the base class. It has the teammate test on a target
  square, the default rule that rejects every move, and an empty pawn stub.
  The teammate test has the same text in all three files
  (pieces.js:5-11, src/pieces.js:5-11, src/piece.js:5-11), so it is modelled
  once, as `Piece.IsTeammate`.
- `Pieces` (pieces.js): the complete rule set for pawn, king (with castling
  geometry), knight, bishop, rook and queen, plus a dispatch over the piece
  kind. This replaces the class hierarchy. Pawn, king and knight are functions.
  Bishop, rook and queen scan the path with a `while` loop. Each of those is a
  method proved equal to a declarative rule (`BishopRule`, `RookRule`,
  `QueenRule`), and each rule is stated with `ClearBetween`: every square
  strictly between start and end is empty. The rook and the queen have the
  same scan text (pieces.js:129-141 and 164-177), so one method,
  `SlidePathClear`, models both.
- `LegacyPieces` (src/pieces.js): the earlier version. It has a king without
  castling and a bishop without the zero-length guard. Its pawn has the same
  text as the complete version's pawn (src/pieces.js:17-44 and pieces.js:17-44),
  so `Pieces.PawnIsValidMove` models both.

Three more modules support these:

- `Board` holds the data model. It declares `Color`, `Kind` and the `Cell`
  abstraction (`Empty | Occupied(kind, color)`). `Decode` and `Letter` convert
  between the board strings and cells. It also holds the starting position
  (src/app.js:12-21) and the colour-swapped board `Flip`.
- `Symmetry` proves that every rule of the complete set (pieces.js) is invariant
  under a colour swap. The earlier bishop is not, because its zero-length scan
  always walks towards row 0 (`LegacyPieces.LegacyBishopNotMirrored`).
- `InitialPosition` checks the rules on concrete positions.

Cells are compared as strings, exactly as the JavaScript compares them
(`== ""`, `== "R"`). `toUpperCase` is modelled on ASCII letters.

Coordinates are required to be on the board. The game passes only clicked
squares, so the complete rules never index outside the grid. The earlier
bishop can leave the board on its own. For that rule, lookups follow
JavaScript:

- A row outside the grid is `undefined`, and indexing it throws a `TypeError`.
- A column outside the grid reads `undefined`. That is not `""`, so the scan
  reports the path as blocked.

The model follows the code where it departs from the rules of chess:

- In chess a rook or queen must move at least one square. The code accepts a
  zero-length rook or queen move whenever the start square does not hold a
  piece of the mover's colour (`Pieces.RookZeroMove`).
- In chess a king castles only from its original square. The code's castling
  rule never looks at the king's start column. A king on (7, 0) moving to
  (7, 2) is judged by the kingside squares 5, 6 and 7. Such a move can land
  on a piece of the king's own colour (`InitialPosition.KingCastlesOntoOwnPiece`),
  so `Pieces.NeverCapturesTeammate` excludes two-column king moves.
- No pawn rule knows en passant.

## Model

| member | source | states |
|---|---|---|
| `Board.Letter` | src/app.js:12-21 | each cell has one board string: `""` exactly for the empty cell, the piece letter otherwise, and decoding it gives the cell back |
| `Board.LetterOfDecode` | src/app.js:12-21 | the convention is one-to-one: a string that decodes to a cell is that cell's letter |
| `Board.InitialBoardWellFormed` | src/app.js:12-21 | the starting position holds only the 12 piece letters and empty squares |
| `Piece.IsTeammate` | src/piece.js:5-11 | an empty square is never a teammate; a piece letter is a teammate exactly of its own colour (upper case white, lower case black) |
| `Piece.TeammateOfLetter` | pieces.js:5-11 | the letter of a piece of colour c is a teammate of colour `me` exactly when c = me |
| `Piece.TeammateComplementary` | src/piece.js:8-10 | for every non-empty string, exactly one of white and black calls it a teammate |
| `Piece.TeammateSwap` | src/pieces.js:5-11 | swapping the colour of the asker and of the target square leaves the answer unchanged |
| `Piece.DefaultIsValidMove` | src/piece.js:12-14 | the base rule rejects every move |
| `Piece.PawnStubIsValidMove` | src/piece.js:17-19 | the stub returns undefined, which is falsy, so it accepts no move |
| `Pieces.PawnIsValidMove` | pieces.js:18-43 | a legal pawn move goes one row forward (straight or diagonally), or two rows straight from the home row; it never lands on a teammate; it lands on an empty square exactly when it goes straight. The earlier pawn (src/pieces.js:18-43) has the same text. Its exact cases are `PawnSingleStep`, `PawnDoubleStep`, `PawnCapture` and `PawnOtherGeometry` |
| `Pieces.PawnSingleStep` | pieces.js:27-30 | one square forward (row -1 for white, +1 for black) is legal exactly onto an empty square |
| `Pieces.PawnNeverCapturesStraight` | pieces.js:27-36 | a legal straight pawn move goes one or two rows forward and never onto an occupied square |
| `Pieces.PawnDoubleStep` | pieces.js:32-36 | two squares forward is legal exactly from row 6 (white) or 1 (black) with the passed and destination squares empty |
| `Pieces.PawnCapture` | pieces.js:38-41 | one square diagonally forward is legal exactly onto a piece of the other colour |
| `Pieces.PawnOtherGeometry` | pieces.js:19-43 | every other displacement is illegal on every board |
| `Pieces.KingIsValidMove` | pieces.js:47-88 | a legal king move is a step of at most one square, or a two-column shift along the home rank; a castling move needs the own rook letter in the corner it heads for, and a step never lands on a teammate. Its exact cases are `KingOneStep` and `KingCastling` |
| `Pieces.KingOneStep` | pieces.js:51-54 | a move of at most one row and one column is legal exactly when the destination is not a teammate |
| `Pieces.KingCastling` | pieces.js:56-87 | any longer king move is legal exactly when it is a two-column shift on the home rank (7 white, 0 black): kingside with columns 5 and 6 empty and the own rook letter on column 7, queenside with columns 1, 2 and 3 empty and the own rook letter on column 0 |
| `Pieces.KnightIsValidMove` | pieces.js:185-200 | legal exactly for displacements (2,1) or (1,2) onto a non-teammate square |
| `Pieces.KnightJump` | pieces.js:185-200 | the knight reads no square but its destination: two boards that agree there give the same answer |
| `Pieces.BishopIsValidMove` | pieces.js:92-117 | the scan terminates, indexes only on-board squares, and returns true exactly for a non-zero diagonal move with every square strictly between empty and a non-teammate destination |
| `Pieces.SlidePathClear` | pieces.js:128-141 | the rook and queen scan terminates, stays on the board, and returns true exactly when every square strictly between start and end is empty |
| `Pieces.RookIsValidMove` | pieces.js:121-145 | returns true exactly for a move along a rank or file with every square strictly between empty and a non-teammate destination |
| `Pieces.QueenIsValidMove` | pieces.js:149-181 | returns true exactly for a move along a diagonal, rank or file with every square strictly between empty and a non-teammate destination |
| `Pieces.QueenIsBishopOrRook` | pieces.js:148-182 | on every board the queen's rule is the bishop's rule or the rook's rule |
| `Pieces.BishopRejectsZeroMove` | pieces.js:96-98 | the bishop rejects a move to its own square |
| `Pieces.RookZeroMove` | pieces.js:125-144 | a zero-length rook move is judged by the start square alone, so it is rejected while the rook stands there |
| `Pieces.CheckMove` | pieces.js:17-201 | asking the piece of a kind to validate a move, with the path scans run, answers that kind's rule |
| `Pieces.NeverCapturesTeammate` | pieces.js:38-200 | apart from a two-column king move, no legal move lands on a square of the mover's own colour |
| `LegacyPieces.LegacyKingIsValidMove` | src/pieces.js:47-55 | every move the earlier king accepts is accepted by the complete king and lands on a non-teammate square. `LegacyKingHasNoCastling` gives the exact cases |
| `LegacyPieces.LegacyKingHasNoCastling` | src/pieces.js:46-56 | the earlier king never moves more than one square; a one-square move is legal exactly onto a non-teammate square; it is the complete king rule without castling |
| `LegacyPieces.ScanTowardsEnd` | src/pieces.js:73-79 | a scan that starts on the board and heads towards the target row meets it before it leaves the board, so it never throws |
| `LegacyPieces.LegacyBishopOutcome` | src/pieces.js:59-83 | the earlier bishop returns true only for a diagonal move onto a non-teammate square, and throws a TypeError only for a move to its own square |
| `LegacyPieces.LegacyBishopIsValidMove` | src/pieces.js:58-84 | the earlier bishop's loop, with JavaScript's out-of-range lookups, ends exactly as the scan function `LegacyScan` says |
| `LegacyPieces.ScanAlongDiagonal` | src/pieces.js:67-79 | on a non-zero diagonal the earlier scan stays on the board and reaches the end exactly when the remaining squares between are empty |
| `LegacyPieces.LegacyBishopAgrees` | src/pieces.js:58-83 | for every move other than a zero-length one, the earlier bishop returns the complete bishop's answer and never throws |
| `LegacyPieces.LegacyScanUpLeft` | src/pieces.js:73-79 | a scan walking up and to the left never reaches a row below its start |
| `LegacyPieces.LegacyBishopZeroMove` | src/pieces.js:64-79 | a zero-length move never returns true; from row 0 it throws a TypeError |
| `LegacyPieces.LegacyBishopThrowsOnInitialBoard` | src/pieces.js:67-75 | on the starting position, the black bishop on (0, 2) asked to move to (0, 2) throws |
| `LegacyPieces.LegacyBishopNotMirrored` | src/pieces.js:64-79 | the earlier bishop breaks colour symmetry: the black bishop's zero-length move on (0, 2) throws, while the mirrored white move on (7, 2) of the colour-swapped board returns false |
| `Symmetry.PawnMirror` | pieces.js:19-42 | the white and black pawn rules mirror each other under row r to 7 - r with letter case swapped |
| `Symmetry.KnightMirror` | pieces.js:185-200 | the knight rule is invariant under the colour swap |
| `Symmetry.KingMirror` | pieces.js:47-88 | the king rule, castling included, is invariant under the colour swap |
| `Symmetry.ClearBetweenMirror` | pieces.js:100-113 | a path is clear exactly when its mirrored path on the mirrored board is clear |
| `Symmetry.BishopMirror` | pieces.js:92-117 | the bishop rule is invariant under the colour swap |
| `Symmetry.RookMirror` | pieces.js:121-145 | the rook rule is invariant under the colour swap |
| `Symmetry.QueenMirror` | pieces.js:149-181 | the queen rule is invariant under the colour swap |
| `Symmetry.MoveMirror` | pieces.js:17-201 | for every piece kind, a move is legal for one colour exactly when the mirrored move is legal for the other colour on the colour-swapped board |
| `InitialPosition.PawnMovesFromStart` | pieces.js:19-42 | on the starting position white may play (6,4) to (4,4) or (5,4) but not three squares or diagonally onto an empty square; black may play (1,3) to (3,3) |
| `InitialPosition.KnightMovesFromStart` | pieces.js:185-200 | knights may jump out at the start, but not onto their own pawns |
| `InitialPosition.SlidersBlockedAtStart` | pieces.js:100-113 | at the start, bishop, rook and queen are blocked by their own pieces |
| `InitialPosition.SlidersAfterE4` | pieces.js:92-181 | after the king's pawn advances, the kingside bishop and the queen have open lines |
| `InitialPosition.KingCastlesOntoOwnPiece` | pieces.js:56-85 | since castling reads only the fixed columns, a white king on (7, 2) may move to (7, 4) onto its own queen |
| `InitialPosition.CastlingFromStart` | pieces.js:56-85 | castling is refused while a piece stands between king and rook, and accepted once the kingside is cleared |

## Findings

| source | as written | input that shows it | evidently intended | confidence | as-written member | corrected member |
|---|---|---|---|---|---|---|
| src/pieces.js:63-79 | The bishop does not reject a zero-length move. The row step becomes -1 and the loop waits for the row to return to r2, which never happens. The scan walks up and to the left until an occupied square or a column off the board returns false, or until row -1, where indexing `undefined` throws a TypeError. | `new Bishop("black").isValidMove(0, 2, 0, 2, boardState)` on the starting position | reject a move to the bishop's own square with false, as the guard at pieces.js:98 does | not executed | `LegacyPieces.LegacyBishopThrowsOnInitialBoard` | `Pieces.BishopIsValidMove` |

## Left out

- Attack detection, check safety, checkmate and stalemate, en passant, promotion, castling-rights history, turn order and move application. None of the modelled files implements them.
- app.js and src/app.js: DOM rendering, the flip button and click handling. This includes the piece registry, which gives only pawns and kings a rule and accepts every other move. The starting position from src/app.js:12-21 is kept as `Board.InitialBoard`.
- The selection guard (src/app.js:72-81): it is input handling.
- JavaScript classes and dynamic dispatch: the piece's colour is a parameter, and the subclass is a `Kind` matched by `Pieces.IsValidMove` and `Pieces.CheckMove`. The earlier version defines no knight, rook or queen, so it gets no dispatch.
- Off-board coordinates passed to the rules: every member requires on-board squares. The callers pass only clicked squares. The earlier bishop's own walk off the board is modelled.
- Unicode `toUpperCase`: only ASCII letters change case. The symmetry lemmas are stated for boards of the 12 piece letters and empty squares.
