# Pseudo-legal chess move generation, modelled in Dafny

This project models a small chess move generator. Its three parts are:

- **Pieces** (`src/pieces.py`): six kinds, each with a symbol and a material value. A mutable piece object carries a colour, a position string and a `has_moved` flag. A factory builds a piece from the name of its kind, in any letter case, and rejects unknown names.
- **Board** (`src/board.py`): an 8x8 grid of optional piece references, indexed `[rank][file]`. The board also holds a move history and the side to move. Square names (`"e4"`) and `(file, rank)` coordinates convert into each other. `get_piece` reads a square, and is empty off the board. `place_piece` writes a piece into the square its own position names. `setup_standard_game` lays out the 32 pieces of the initial position.
- **Move generation** (`src/move_generator.py`): a `Move` value with optional en-passant annotations. The scan covers the whole board, rank 0 to 7 and file 0 to 7 within a rank, and keeps the pieces of one colour. Each piece's moves are dispatched by its kind. Two rules exist, the pawn rule and the knight rule.

Modules and files:

| file | module | contents |
|---|---|---|
| `wrappers.dfy` | `Wrappers` | `Option`, `Result` |
| `pieces.dfy` | `Pieces` | kinds, symbols, values, the name lookup, the `Piece` class, `CreatePiece` |
| `moves.dfy` | `Moves` | the `Move` datatype |
| `board.dfy` | `Boards` | square names, the value view `Grid`, the `Board` class |
| `move_generator.dfy` | `MoveGeneration` | the rules as functions on a `Grid`, and the `MoveGenerator` class whose methods are proved to compute them |
| `move_properties.dfy` | `MoveProperties` | square-by-square descriptions of the rules and the lemmas that tie them to the functions |
| `scenarios.dfy` | `MoveScenarios` | concrete positions and their exact move lists |

The board is a class over an `array2<Piece?>`. The generator only reads the board. Each generator method is therefore specified against a pure function of `Board.Snapshot()`. The snapshot is the grid as a map from `(file, rank)` to the fields of the piece standing there. The source builds pawn moves in one method; the model splits it into three methods for pushes, captures and en passant. The scan's inner loop and its loop body also get methods of their own (`ScanRank`, `ScanSquare`). This keeps each proof small. The order in which moves are appended is unchanged.

Colours are plain strings, as in the source. The pawn direction is +1 for `"white"` and -1 for every other string. Only `"white"` on rank 1 and `"black"` on rank 6 may push two squares.

Faithful quirks of the en-passant rule, which the model keeps as written:
- only the last history entry is looked at;
- the colour of the pawn standing on its end square is not checked;
- the destination square is not checked for emptiness;
- the two-square test compares the rank *digits* of the two square names.

`MoveScenarios.EnPassantIgnoresColourAndDestination` shows the second and third of these quirks on a concrete position.

## Model

| member | source | states |
|---|---|---|
| Pieces.Symbol | src/pieces.py:38-71 | each kind's symbol is one upper-case letter |
| Pieces.SymbolsDistinct | src/pieces.py:38-71 | two kinds have the same symbol exactly when they are the same kind |
| Pieces.Value | src/pieces.py:38-71 | values are at most 9; only the king is worth 0 and only the queen 9 |
| Pieces.KindNamed | src/pieces.py:85-96 | success gives the kind whose table name equals the lower-cased argument; failure happens only when no kind has that name, and its message is "Unknown piece type: " followed by the argument as given |
| Pieces.KindNamedAnyCase | src/pieces.py:86-94 | any spelling whose lower-case form is a kind's name finds that kind |
| Pieces.UpperCaseNamesAccepted | src/pieces.py:86-94 | "PAWN", "Knight", "BiShOp", "ROOK", "QUEEN" and "KING" find their kinds |
| Pieces.KelvinSignSpellsKing | src/pieces.py:94 | a name starting with U+212A KELVIN SIGN lower-cases to "king" or "knight" and finds that kind |
| Pieces.UnknownNamesRejected | src/pieces.py:94-96 | "Pawns", "" and " king" are rejected with the message naming them as given |
| Pieces.NamesDistinct | src/pieces.py:86-93 | the lookup table has six different keys |
| Pieces.Piece.constructor | src/pieces.py:4-13 | a new piece has the given kind, colour and position and has not moved |
| Pieces.Piece.Move | src/pieces.py:15-27 | the position becomes the new one, the moved flag becomes true, the colour is unchanged |
| Pieces.CreatePiece | src/pieces.py:74-100 | fails exactly when the name is unknown, with the message; otherwise a fresh unmoved piece of the named kind, colour and position |
| Boards.Coordinates | src/board.py:33-37 | the rank read from a decodable name lies between -1 and 8 |
| Boards.Position | src/board.py:29-31 | a two-character name, a file letter then a rank digit; '1'..'8' and on the board for squares of the board; decoding it gives back the coordinates |
| Boards.PositionOfCoordinates | src/board.py:29-37 | the name of a board square's decoded coordinates is the name itself, up to its first two characters |
| Boards.PositionInjective | src/board.py:29-31 | different coordinates have different names |
| Boards.PieceAt | src/board.py:44-49 | empty whenever the decoded square lies off the board; a found piece is one of the grid's pieces |
| Boards.PieceAtPosition | src/board.py:44-49 | looking up a board square by its name gives what the grid holds there |
| Boards.Board.constructor | src/board.py:4-9 | all 64 squares empty, empty history, white to move |
| Boards.Board.Snapshot | src/board.py:7 | every occupied square of the value view is a square of the board |
| Boards.Board.GetPiece | src/board.py:44-49 | null off the board; otherwise the reference in the square, which agrees with the value view |
| Boards.Board.PlacePiece | src/board.py:39-42 | the piece is written into the square its position names, overwriting any occupant; the other 63 squares are unchanged; reading that position returns the piece |
| Boards.Board.PlaceNewPiece | src/board.py:15-27 | a fresh unmoved piece of the kind and colour, whose position names the square, stands there; no other square changes |
| Boards.Board.PlaceBackRank | src/board.py:19-27 | rook, knight, bishop, queen, king, bishop, knight, rook of the colour on files 0 to 7 of the row, each naming its own square; other rows unchanged |
| Boards.Board.SetupStandardGame | src/board.py:11-27 | white pawns on rank 1 and black pawns on rank 6 of every file; back ranks 0 (white) and 7 (black); every placed piece fresh, unmoved and naming its own square; ranks 2 to 5 untouched |
| MoveGeneration.MoveGenerator.constructor | src/move_generator.py:24-25 | the generator reads the given board |
| MoveGeneration.MoveGenerator.GenerateMoves | src/move_generator.py:27-46 | the result is the scan of the snapshot for the given colour, or for the side to move when none is given |
| MoveGeneration.MoveGenerator.ScanRank | src/move_generator.py:36-44 | the moves of one rank, file 0 to 7 |
| MoveGeneration.MoveGenerator.ScanSquare | src/move_generator.py:37-44 | the moves of the piece on one square when it has the colour, none otherwise |
| MoveGeneration.MoveGenerator.GeneratePieceMoves | src/move_generator.py:48-54 | a pawn gets the pawn rule, a knight the knight rule |
| MoveGeneration.MoveGenerator.GeneratePawnMoves | src/move_generator.py:65-121 | pushes, then captures, then en passant |
| MoveGeneration.MoveGenerator.GeneratePawnPushes | src/move_generator.py:73-86 | the pushes of the pawn rule on the snapshot |
| MoveGeneration.MoveGenerator.GeneratePawnCaptures | src/move_generator.py:88-96 | the captures towards file offsets -1 and +1 on the snapshot |
| MoveGeneration.MoveGenerator.GenerateEnPassant | src/move_generator.py:98-117 | the en-passant capture of the snapshot and history |
| MoveGeneration.MoveGenerator.GenerateKnightMoves | src/move_generator.py:123-144 | the jumps over the eight offsets in their fixed order on the snapshot |
| MoveProperties.PushesReach | src/move_generator.py:73-86 | a push is a plain move onto an empty square one ahead, or two ahead from the start rank over an empty square |
| MoveProperties.CaptureReaches | src/move_generator.py:88-96 | a diagonal move lands one file aside and one rank ahead, on a piece of another colour |
| MoveProperties.PawnReachesGenerated | src/move_generator.py:73-96 | every square the pawn reaches by those rules is the end of a generated push or capture |
| MoveProperties.PawnStepsExact | src/move_generator.py:73-96 | pushes and captures are exactly the plain moves to the squares the pawn reaches |
| MoveProperties.PawnMovesExact | src/move_generator.py:65-121 | the pawn's moves without the en-passant flag are exactly the plain moves to the squares it reaches, in both directions |
| MoveProperties.EnPassantExact | src/move_generator.py:100-117 | at most one en-passant move. It exists exactly when the last move ends on a pawn, its rank digits differ by 2, and the mover stands on that rank one file away. It goes from the mover's square to the victim's file one rank ahead, with the flag set and the victim's square as the captured square |
| MoveProperties.EnPassantLandsOnSkippedSquare | src/move_generator.py:108-116 | when the victim came from two ranks ahead of the mover, the destination is the square it passed over |
| MoveProperties.KnightJumpsMembers | src/move_generator.py:129-142 | a move of the first n offsets is the jump by one of them |
| MoveProperties.KnightJumpsBound | src/move_generator.py:129-142 | at most one move per offset |
| MoveProperties.KnightMovesAtMostEight | src/move_generator.py:129-142 | a knight has at most eight moves |
| MoveProperties.KnightJumpReaches | src/move_generator.py:131-142 | each jump lands on the board, one file and two ranks or two files and one rank away, not on a piece of the knight's colour |
| MoveProperties.KnightMovesExact | src/move_generator.py:123-144 | the knight's moves are exactly the plain moves to such squares, in both directions |
| MoveProperties.PieceMovesStartAtPiece | src/move_generator.py:78-142 | every move of a piece starts at the piece's position |
| MoveProperties.RankMovesMembers | src/move_generator.py:36-44 | a move found on a rank is a move of a piece of the colour on one of its files, and conversely |
| MoveProperties.ScanMovesMembers | src/move_generator.py:35-44 | the same over the first n ranks |
| MoveProperties.AllMovesMembers | src/move_generator.py:32-46 | a move is generated for a colour exactly when it is a move of a piece of that colour on the board |
| MoveProperties.AllMovesStartOnOwnPieces | src/move_generator.py:41-44 | every generated move starts at the position of a piece of the colour asked for |
| MoveProperties.RankWithoutColour | src/move_generator.py:36-44 | a rank without a piece of the colour contributes nothing |
| MoveProperties.RankWithOnePiece | src/move_generator.py:36-44 | a rank with one piece of the colour contributes exactly that piece's moves |
| MoveProperties.ScanStopsAt | src/move_generator.py:35-44 | ranks without pieces of the colour add nothing to the scan |
| MoveProperties.NoPiecesNoScanMoves | src/move_generator.py:35-46 | with no piece of the colour the partial scans are empty |
| MoveProperties.NoPiecesNoMoves | src/move_generator.py:32-46 | a colour without pieces has no moves |
| MoveScenarios.KnightFromCentre | src/move_generator.py:129-142 | a lone knight on d4 moves to e6, f5, f3, e2, c2, b3, b5, c6 in that order |
| MoveScenarios.KnightFromCorner | src/move_generator.py:129-142 | a lone knight on a1 moves to b3 and c2 |
| MoveScenarios.KnightBlockedByOwnPiece | src/move_generator.py:138-142 | a knight on a1 does not land on its own pawn on b3 and does take the other colour's pawn on c2 |
| MoveScenarios.WhitePawnFromStart | src/move_generator.py:73-86 | a white pawn on e2 moves to e3 and e4 |
| MoveScenarios.BlackPawnFromStart | src/move_generator.py:73-86 | a black pawn on e7 moves to e6 and e5 |
| MoveScenarios.OtherColourPawn | src/move_generator.py:71-86 | a pawn of colour "red" on e7 moves down to e6 only |
| MoveScenarios.PawnBlocked | src/move_generator.py:75-78 | a piece on e3 leaves the pawn on e2 without moves |
| MoveScenarios.PawnCapturesOnlyOtherColour | src/move_generator.py:80-96 | a piece on e4 stops the double push; d3 of the other colour is captured, f3 of its own is not |
| MoveScenarios.EnPassantAfterDoublePush | src/move_generator.py:100-117 | after d7-d5 the white pawn on e5 has e6 and the en-passant capture onto d6 of d5 |
| MoveScenarios.NoEnPassantAfterSinglePush | src/move_generator.py:104-106 | after d6-d5 it has only e6 |
| MoveScenarios.EnPassantIgnoresColourAndDestination | src/move_generator.py:104-117 | after the white move d3-d5 the white pawn on e5 still gets an en-passant capture onto d6, occupied by a black knight, after the ordinary capture of that knight |
| MoveScenarios.KnightFromB1 | src/move_generator.py:129-142 | the knight on b1 of the example moves to c3, d2, a3 |
| MoveScenarios.PawnFromA2 | src/move_generator.py:73-96 | the pawn on a2 of the example moves to a3 and a4 |
| MoveScenarios.ScanTwoRanks | src/move_generator.py:35-46 | with the colour's pieces on one square of rank 0 and one of rank 1, the scan gives the first piece's moves and then the second's |
| MoveScenarios.ScanOrder | src/move_generator.py:35-46 | a white knight on b1 and pawn on a2 give b1-c3, b1-d2, b1-a3, a2-a3, a2-a4 |

## Left out

- Bishop, rook, queen and king moves: the dispatch calls `generate_bishop_moves`, `generate_rook_moves`, `generate_queen_moves` and `generate_king_moves`, which no source file defines. `GenerateMoves` therefore requires that every piece of the colour is a pawn or a knight (`Generable`), and `GeneratePieceMoves` requires it of its piece (`CanGenerate`). No rule is invented for the other kinds, so the standard starting position cannot be handed to the generator.
- The fallback `return []` of `generate_piece_moves` (src/move_generator.py:63) is for objects of none of the six classes, such as a plain `Piece`; `Kind` has no such value.
- Promotion: a comment only (src/move_generator.py:119).
- Check detection and legality filtering do not exist in the source.
- Applying a move to the board and appending to the move history: no source code does this, so the history is an input to the generator.
- `create_piece` called with a class object instead of a name (src/pieces.py:97-98) is not modelled; `CreatePiece` takes the name only.
- The `__str__` and `__repr__` debug strings of pieces and moves are left out.
- Python errors on malformed square names are kept out by preconditions: `OnBoard` on the position of a placed piece and of a piece that generates moves, and `HistoryReadable` on the last history entry when a pawn generates moves. These errors are `IndexError` on short names, `ValueError` from `int()` on non-digits, and negative-index wrap-around in `place_piece`.
- MoveGeneration.MoveGenerator.GeneratePieceMoves: a piece whose position names no square of the board is excluded by precondition. The source would still compute moves from the decoded numbers.
- Boards.Decodable: only the ASCII digits '0' to '9' are accepted as rank characters. Python's `int()` also accepts other Unicode decimal digits.
- Boards.Position: defined for files 0 to 7 and ranks -1 to 8 only, the range every caller uses. `chr(file + 97)` accepts other files, and `str(rank + 1)` gives multi-digit or signed ranks elsewhere.
- Pieces.Lower: only 'A' to 'Z' and U+212A KELVIN SIGN are folded; other characters are left as they are. Python's `str.lower` maps more characters. No other character lower-cases to a plain ASCII letter on its own, so the answer of the six-name lookup is the same.
- The truth test `if piece` of the scan is modelled as `piece != null`, since piece objects are always true in Python.
- Aliasing between board squares and pieces is modelled through references. A piece moved with `Piece.Move` but not placed again keeps its old square, and its moves start from its new position string, as in the source.
