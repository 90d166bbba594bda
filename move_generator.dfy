/** Pseudo-legal move generation: the pawn and knight rules, the dispatch on
    a piece's kind, and the scan of the whole board for one colour. The
    generator only reads the board. Each rule is written twice: as a
    function on a snapshot of the board, which the generator's methods are
    proved to compute, and as an independent description of the squares it
    reaches, which lemmas tie to the function. */
module MoveGeneration {
  import opened Wrappers
  import opened Pieces
  import opened Moves
  import opened Boards

  function Abs(x: int): nat
  {
    if x < 0 then -x else x
  }

  /** +1 for "white", -1 for every other colour string. */
  function Direction(color: Color): int
  {
    if color == White then 1 else -1
  }

  /** The rank from which a pawn of this colour may push two squares. */
  predicate OnStartRank(color: Color, rank: int)
  {
    (color == White && rank == 1) || (color == Black && rank == 6)
  }

  /** The en-passant rule can read the last history entry: its end square
      decodes, and so does its start square when a pawn stands on the end
      square (only then is the start square looked at). */
  predicate HistoryReadable(g: Grid, history: seq<Move>)
  {
    |history| > 0 ==>
      var last := history[|history| - 1];
      Decodable(last.endPos) &&
      (PieceAt(g, last.endPos).Some? && PieceAt(g, last.endPos).value.kind == Pawn ==> Decodable(last.startPos))
  }

  // The pawn rule on a snapshot, in the order the source builds its list.

  /** The single push onto an empty square ahead, followed, from the start
      rank, by the double push when the square two ahead is empty too. */
  function Pushes(g: Grid, p: PieceData): seq<Move>
    requires OnBoard(p.position)
  {
    var (file, rank) := Coordinates(p.position);
    var dir := Direction(p.color);
    if 0 <= rank + dir < 8 && PieceAt(g, Position(file, rank + dir)).None? then
      [Plain(p.position, Position(file, rank + dir))] +
      (if OnStartRank(p.color, rank) && 0 <= rank + 2 * dir < 8 && PieceAt(g, Position(file, rank + 2 * dir)).None?
       then [Plain(p.position, Position(file, rank + 2 * dir))]
       else [])
    else
      []
  }

  const CaptureOffsets: seq<int> := [-1, 1]

  /** The diagonal capture towards one side. */
  function Capture(g: Grid, p: PieceData, fileOffset: int): seq<Move>
    requires OnBoard(p.position)
  {
    var (file, rank) := Coordinates(p.position);
    var newFile := file + fileOffset;
    var newRank := rank + Direction(p.color);
    if 0 <= newFile < 8 && 0 <= newRank < 8 then
      var target := PieceAt(g, Position(newFile, newRank));
      if target.Some? && target.value.color != p.color then [Plain(p.position, Position(newFile, newRank))] else []
    else
      []
  }

  /** The captures for the first n file offsets. */
  function Captures(g: Grid, p: PieceData, n: nat): seq<Move>
    requires OnBoard(p.position) && n <= |CaptureOffsets|
  {
    if n == 0 then [] else Captures(g, p, n - 1) + Capture(g, p, CaptureOffsets[n - 1])
  }

  /** The en-passant capture offered by the last history entry: a pawn now
      stands on its end square, its two rank digits differ by 2, and the
      moving pawn stands beside it on the same rank. Neither the colour of
      that pawn nor the emptiness of the destination is looked at. */
  function EnPassant(g: Grid, history: seq<Move>, p: PieceData): seq<Move>
    requires OnBoard(p.position) && HistoryReadable(g, history)
  {
    if |history| == 0 then []
    else
      var last := history[|history| - 1];
      var lastPiece := PieceAt(g, last.endPos);
      if lastPiece.Some? && lastPiece.value.kind == Pawn &&
         Abs(DigitValue(last.startPos[1]) - DigitValue(last.endPos[1])) == 2 then
        var (lastFile, lastRank) := Coordinates(last.endPos);
        var (file, rank) := Coordinates(p.position);
        if Abs(file - lastFile) == 1 && rank == lastRank then
          [Move(p.position, Position(lastFile, rank + Direction(p.color)), Some(true), Some(last.endPos))]
        else
          []
      else
        []
  }

  function PawnMoves(g: Grid, history: seq<Move>, p: PieceData): seq<Move>
    requires OnBoard(p.position) && HistoryReadable(g, history)
  {
    Pushes(g, p) + Captures(g, p, |CaptureOffsets|) + EnPassant(g, history, p)
  }

  // The knight rule on a snapshot.

  const KnightOffsets: seq<(int, int)> := [(1, 2), (2, 1), (2, -1), (1, -2), (-1, -2), (-2, -1), (-2, 1), (-1, 2)]

  /** The jump by one offset, onto an empty square or one held by a piece of
      another colour. */
  function KnightJump(g: Grid, p: PieceData, offset: (int, int)): seq<Move>
    requires OnBoard(p.position)
  {
    var (file, rank) := Coordinates(p.position);
    var newFile := file + offset.0;
    var newRank := rank + offset.1;
    if 0 <= newFile < 8 && 0 <= newRank < 8 then
      var target := PieceAt(g, Position(newFile, newRank));
      if target.None? || target.value.color != p.color then [Plain(p.position, Position(newFile, newRank))] else []
    else
      []
  }

  /** The jumps for the first n offsets. */
  function KnightJumps(g: Grid, p: PieceData, n: nat): seq<Move>
    requires OnBoard(p.position) && n <= |KnightOffsets|
  {
    if n == 0 then [] else KnightJumps(g, p, n - 1) + KnightJump(g, p, KnightOffsets[n - 1])
  }

  function KnightMoves(g: Grid, p: PieceData): seq<Move>
    requires OnBoard(p.position)
  {
    KnightJumps(g, p, |KnightOffsets|)
  }

  // Dispatch and the whole-board scan.

  /** The kinds whose rule exists: the source dispatches bishops, rooks,
      queens and kings to methods it never defines. */
  predicate HasRule(k: Kind)
  {
    k == Pawn || k == Knight
  }

  /** What generating the moves of one piece needs. */
  predicate CanGenerate(g: Grid, history: seq<Move>, p: PieceData)
  {
    HasRule(p.kind) && OnBoard(p.position) && (p.kind == Pawn ==> HistoryReadable(g, history))
  }

  function PieceMoves(g: Grid, history: seq<Move>, p: PieceData): seq<Move>
    requires CanGenerate(g, history, p)
  {
    if p.kind == Pawn then PawnMoves(g, history, p) else KnightMoves(g, p)
  }

  /** Every piece of the colour can be generated for. */
  predicate Generable(g: Grid, history: seq<Move>, color: Color)
  {
    forall sq :: sq in g && g[sq].color == color ==> CanGenerate(g, history, g[sq])
  }

  /** The moves of the piece of the given colour on (file, rank), if any. */
  function SquareMoves(g: Grid, history: seq<Move>, color: Color, file: int, rank: int): seq<Move>
    requires InRange((file, rank)) && Generable(g, history, color)
  {
    var piece := PieceAt(g, Position(file, rank));
    if piece.Some? && piece.value.color == color then PieceMoves(g, history, g[(file, rank)]) else []
  }

  /** The moves found on files 0 .. n-1 of one rank, file by file. */
  function RankMoves(g: Grid, history: seq<Move>, color: Color, rank: int, n: nat): seq<Move>
    requires 0 <= rank < 8 && n <= 8 && Generable(g, history, color)
  {
    if n == 0 then [] else RankMoves(g, history, color, rank, n - 1) + SquareMoves(g, history, color, n - 1, rank)
  }

  /** The moves found on ranks 0 .. n-1, rank by rank. */
  function ScanMoves(g: Grid, history: seq<Move>, color: Color, n: nat): seq<Move>
    requires n <= 8 && Generable(g, history, color)
  {
    if n == 0 then [] else ScanMoves(g, history, color, n - 1) + RankMoves(g, history, color, n - 1, 8)
  }

  function AllMoves(g: Grid, history: seq<Move>, color: Color): seq<Move>
    requires Generable(g, history, color)
  {
    ScanMoves(g, history, color, 8)
  }

  class MoveGenerator {
    const board: Board

    constructor (board: Board)
      ensures this.board == board
    {
      this.board := board;
    }

    /** All moves of the given colour, or of the side to move when no
        colour is given, in scan order: rank 0 to 7, and file 0 to 7 within
        a rank. */
    method GenerateMoves(color: Option<Color>) returns (allMoves: seq<Move>)
      requires board.Valid()
      requires Generable(board.Snapshot(), board.moveHistory, if color.Some? then color.value else board.activeColor)
      ensures Generable(board.Snapshot(), board.moveHistory, if color.Some? then color.value else board.activeColor)
      ensures allMoves == AllMoves(board.Snapshot(), board.moveHistory, if color.Some? then color.value else board.activeColor)
    {
      var side := if color.Some? then color.value else board.activeColor;
      ghost var g := board.Snapshot();
      ghost var history := board.moveHistory;
      allMoves := [];
      for rank := 0 to 8
        invariant board.Snapshot() == g && board.moveHistory == history
        invariant allMoves == ScanMoves(g, history, side, rank)
      {
        var rankMoves := ScanRank(side, rank);
        allMoves := allMoves + rankMoves;
      }
    }

    /** The inner loop of the scan: the moves of the pieces of one colour
        standing on one rank, file by file. */
    method ScanRank(side: Color, rank: int) returns (rankMoves: seq<Move>)
      requires board.Valid() && 0 <= rank < 8 && Generable(board.Snapshot(), board.moveHistory, side)
      ensures Generable(board.Snapshot(), board.moveHistory, side)
      ensures rankMoves == RankMoves(board.Snapshot(), board.moveHistory, side, rank, 8)
    {
      ghost var g := board.Snapshot();
      ghost var history := board.moveHistory;
      rankMoves := [];
      for file := 0 to 8
        invariant board.Snapshot() == g && board.moveHistory == history
        invariant rankMoves == RankMoves(g, history, side, rank, file)
      {
        var squareMoves := ScanSquare(side, file, rank);
        rankMoves := rankMoves + squareMoves;
      }
    }

    /** The body of the scan for one square: the moves of the piece standing
        there when it has the colour asked for, and none otherwise. */
    method ScanSquare(side: Color, file: int, rank: int) returns (squareMoves: seq<Move>)
      requires board.Valid() && InRange((file, rank)) && Generable(board.Snapshot(), board.moveHistory, side)
      ensures Generable(board.Snapshot(), board.moveHistory, side)
      ensures squareMoves == SquareMoves(board.Snapshot(), board.moveHistory, side, file, rank)
    {
      ghost var g := board.Snapshot();
      ghost var history := board.moveHistory;
      var position := Position(file, rank);
      var piece := board.GetPiece(position);
      PieceAtPosition(g, file, rank);
      if piece != null && piece.color == side {
        assert PieceAt(g, position) == Some(g[(file, rank)]) && g[(file, rank)] == piece.Data();
        ghost var data := piece.Data();
        squareMoves := GeneratePieceMoves(piece);
        assert board.Snapshot() == g && board.moveHistory == history && piece.Data() == data;
      } else {
        squareMoves := [];
      }
    }

    /** The moves of one piece, by its kind. */
    method GeneratePieceMoves(piece: Piece) returns (moves: seq<Move>)
      requires board.Valid() && CanGenerate(board.Snapshot(), board.moveHistory, piece.Data())
      ensures CanGenerate(board.Snapshot(), board.moveHistory, piece.Data())
      ensures moves == PieceMoves(board.Snapshot(), board.moveHistory, piece.Data())
    {
      if piece.kind == Pawn {
        moves := GeneratePawnMoves(piece);
      } else {
        moves := GenerateKnightMoves(piece);
      }
    }

    /** The pawn rule: pushes, then captures, then the en-passant capture. */
    method GeneratePawnMoves(pawn: Piece) returns (moves: seq<Move>)
      requires board.Valid() && OnBoard(pawn.position) && HistoryReadable(board.Snapshot(), board.moveHistory)
      ensures OnBoard(pawn.position) && HistoryReadable(board.Snapshot(), board.moveHistory)
      ensures moves == PawnMoves(board.Snapshot(), board.moveHistory, pawn.Data())
    {
      ghost var g := board.Snapshot();
      ghost var p := pawn.Data();
      moves := GeneratePawnPushes(pawn);
      assert board.Snapshot() == g && pawn.Data() == p;
      var captures := GeneratePawnCaptures(pawn);
      assert board.Snapshot() == g && pawn.Data() == p;
      moves := moves + captures;
      var enPassant := GenerateEnPassant(pawn);
      assert board.Snapshot() == g && pawn.Data() == p;
      moves := moves + enPassant;
    }

    /** The single push, and from the start rank the double push, each onto
        an empty square. */
    method GeneratePawnPushes(pawn: Piece) returns (moves: seq<Move>)
      requires board.Valid() && OnBoard(pawn.position)
      ensures OnBoard(pawn.position)
      ensures moves == Pushes(board.Snapshot(), pawn.Data())
    {
      moves := [];
      var (file, rank) := Coordinates(pawn.position);
      var direction := Direction(pawn.color);
      var newRank := rank + direction;
      if 0 <= newRank < 8 {
        var newPos := Position(file, newRank);
        if board.GetPiece(newPos) == null {
          moves := moves + [Plain(pawn.position, newPos)];
          if OnStartRank(pawn.color, rank) {
            newRank := rank + 2 * direction;
            if 0 <= newRank < 8 {
              newPos := Position(file, newRank);
              if board.GetPiece(newPos) == null {
                moves := moves + [Plain(pawn.position, newPos)];
              }
            }
          }
        }
      }
    }

    /** The diagonal captures, towards file offset -1 and then +1, of a piece
        of another colour. */
    method GeneratePawnCaptures(pawn: Piece) returns (moves: seq<Move>)
      requires board.Valid() && OnBoard(pawn.position)
      ensures OnBoard(pawn.position)
      ensures moves == Captures(board.Snapshot(), pawn.Data(), |CaptureOffsets|)
    {
      ghost var g := board.Snapshot();
      ghost var p := pawn.Data();
      moves := [];
      var (file, rank) := Coordinates(pawn.position);
      var direction := Direction(pawn.color);
      var fileOffsets := [-1, 1];
      assert fileOffsets == CaptureOffsets;
      for i := 0 to |fileOffsets|
        invariant moves == Captures(g, p, i)
      {
        ghost var before := moves;
        var newFile := file + fileOffsets[i];
        var newRank := rank + direction;
        if 0 <= newFile < 8 && 0 <= newRank < 8 {
          var newPos := Position(newFile, newRank);
          var target := board.GetPiece(newPos);
          if target != null && target.color != pawn.color {
            assert PieceAt(g, newPos) == Some(target.Data());
            moves := moves + [Plain(pawn.position, newPos)];
          } else {
            assert PieceAt(g, newPos).None? || PieceAt(g, newPos).value.color == p.color;
          }
        }
        assert moves == before + Capture(g, p, CaptureOffsets[i]);
      }
    }

    /** The en-passant capture offered by the last move of the history. */
    method GenerateEnPassant(pawn: Piece) returns (moves: seq<Move>)
      requires board.Valid() && OnBoard(pawn.position) && HistoryReadable(board.Snapshot(), board.moveHistory)
      ensures OnBoard(pawn.position) && HistoryReadable(board.Snapshot(), board.moveHistory)
      ensures moves == EnPassant(board.Snapshot(), board.moveHistory, pawn.Data())
    {
      moves := [];
      var (file, rank) := Coordinates(pawn.position);
      var direction := Direction(pawn.color);
      if |board.moveHistory| > 0 {
        var lastMove := board.moveHistory[|board.moveHistory| - 1];
        var lastPiece := board.GetPiece(lastMove.endPos);
        if lastPiece != null && lastPiece.kind == Pawn &&
           Abs(DigitValue(lastMove.startPos[1]) - DigitValue(lastMove.endPos[1])) == 2 {
          var (lastFile, lastRank) := Coordinates(lastMove.endPos);
          if Abs(file - lastFile) == 1 && rank == lastRank {
            var newPos := Position(lastFile, rank + direction);
            moves := [Move(pawn.position, newPos, Some(true), Some(lastMove.endPos))];
          }
        }
      }
    }

    /** The knight rule: the eight jumps in a fixed order, each onto an empty
        square or one held by a piece of another colour. */
    method GenerateKnightMoves(knight: Piece) returns (moves: seq<Move>)
      requires board.Valid() && OnBoard(knight.position)
      ensures OnBoard(knight.position)
      ensures moves == KnightMoves(board.Snapshot(), knight.Data())
    {
      ghost var g := board.Snapshot();
      ghost var p := knight.Data();
      moves := [];
      var (file, rank) := Coordinates(knight.position);
      var offsets := [(1, 2), (2, 1), (2, -1), (1, -2), (-1, -2), (-2, -1), (-2, 1), (-1, 2)];
      assert offsets == KnightOffsets;
      for i := 0 to |offsets|
        invariant moves == KnightJumps(g, p, i)
      {
        ghost var before := moves;
        var (fileOffset, rankOffset) := offsets[i];
        assert (fileOffset, rankOffset) == KnightOffsets[i];
        var newFile := file + fileOffset;
        var newRank := rank + rankOffset;
        if 0 <= newFile < 8 && 0 <= newRank < 8 {
          var newPos := Position(newFile, newRank);
          var target := board.GetPiece(newPos);
          if target == null || target.color != knight.color {
            assert PieceAt(g, newPos).None? || PieceAt(g, newPos).value.color != p.color;
            assert KnightJump(g, p, KnightOffsets[i]) == [Plain(p.position, newPos)];
            moves := moves + [Plain(knight.position, newPos)];
          } else {
            assert PieceAt(g, newPos) == Some(target.Data());
            assert KnightJump(g, p, KnightOffsets[i]) == [];
          }
        } else {
          assert KnightJump(g, p, KnightOffsets[i]) == [];
        }
        assert moves == before + KnightJump(g, p, KnightOffsets[i]);
      }
    }
  }
}
