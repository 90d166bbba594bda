/** What the move rules promise, stated square by square and independently of
    the order in which the generator builds its lists, and proved about the
    functions the generator's methods compute. */
module MoveProperties {
  import opened Wrappers
  import opened Pieces
  import opened Moves
  import opened Boards
  import opened MoveGeneration

  // ---------------------------------------------------------------------
  // Pawns

  /** The squares a pawn reaches without en passant: one step forward onto
      an empty square; two steps forward from its start rank when both
      squares are empty; one step diagonally forward onto a square held by a
      piece of another colour. */
  predicate PawnReaches(g: Grid, p: PieceData, file: int, rank: int)
    requires OnBoard(p.position)
  {
    var (f0, r0) := Coordinates(p.position);
    var dir := Direction(p.color);
    InRange((file, rank)) &&
    ((file == f0 && rank == r0 + dir && At(g, file, rank).None?) ||
     (file == f0 && rank == r0 + 2 * dir && OnStartRank(p.color, r0) &&
      At(g, f0, r0 + dir).None? && At(g, file, rank).None?) ||
     ((file == f0 - 1 || file == f0 + 1) && rank == r0 + dir &&
      At(g, file, rank).Some? && At(g, file, rank).value.color != p.color))
  }

  /** A move without annotations from the piece's position to a square of
      the board. */
  predicate PlainStepTo(m: Move, p: PieceData)
  {
    m.startPos == p.position && m.isEnPassant == None && m.capturedPos == None && OnBoard(m.endPos)
  }

  /** Each push is a plain move to a square the pawn reaches. */
  lemma PushesReach(g: Grid, p: PieceData)
    requires OnBoard(p.position)
    ensures forall m :: m in Pushes(g, p) ==>
              PlainStepTo(m, p) && PawnReaches(g, p, Coordinates(m.endPos).0, Coordinates(m.endPos).1)
  {
    var (f0, r0) := Coordinates(p.position);
    var dir := Direction(p.color);
    if 0 <= r0 + dir < 8 {
      PieceAtPosition(g, f0, r0 + dir);
      if 0 <= r0 + 2 * dir < 8 {
        PieceAtPosition(g, f0, r0 + 2 * dir);
      }
    }
    forall m | m in Pushes(g, p)
      ensures PlainStepTo(m, p) && PawnReaches(g, p, Coordinates(m.endPos).0, Coordinates(m.endPos).1)
    {
      if m == Pushes(g, p)[0] {
        assert Coordinates(m.endPos) == (f0, r0 + dir);
      } else {
        assert Coordinates(m.endPos) == (f0, r0 + 2 * dir);
      }
    }
  }

  /** Each diagonal capture is a plain move to a square the pawn reaches. */
  lemma CaptureReaches(g: Grid, p: PieceData, fileOffset: int)
    requires OnBoard(p.position) && (fileOffset == -1 || fileOffset == 1)
    ensures forall m :: m in Capture(g, p, fileOffset) ==>
              PlainStepTo(m, p) && PawnReaches(g, p, Coordinates(m.endPos).0, Coordinates(m.endPos).1)
  {
    var (f0, r0) := Coordinates(p.position);
    var dir := Direction(p.color);
    if Capture(g, p, fileOffset) != [] {
      PieceAtPosition(g, f0 + fileOffset, r0 + dir);
      var m := Capture(g, p, fileOffset)[0];
      assert Coordinates(m.endPos) == (f0 + fileOffset, r0 + dir);
    }
  }

  /** Every square the pawn reaches is the end of a push or a diagonal
      capture. */
  lemma PawnReachesGenerated(g: Grid, p: PieceData, file: int, rank: int)
    requires OnBoard(p.position) && PawnReaches(g, p, file, rank)
    ensures Plain(p.position, Position(file, rank)) in Pushes(g, p) + Captures(g, p, |CaptureOffsets|)
  {
    var (f0, r0) := Coordinates(p.position);
    var dir := Direction(p.color);
    assert Captures(g, p, |CaptureOffsets|) == Capture(g, p, -1) + Capture(g, p, 1) by {
      assert Captures(g, p, 1) == Capture(g, p, -1);
    }
    PieceAtPosition(g, file, rank);
    if file == f0 - 1 {
      assert Capture(g, p, -1) == [Plain(p.position, Position(file, rank))];
    } else if file == f0 + 1 {
      assert Capture(g, p, 1) == [Plain(p.position, Position(file, rank))];
    } else if rank == r0 + dir {
      assert Pushes(g, p)[0] == Plain(p.position, Position(file, rank));
    } else {
      PieceAtPosition(g, f0, r0 + dir);
      assert Pushes(g, p)[1] == Plain(p.position, Position(file, rank));
    }
  }

  /** The pushes and diagonal captures of a pawn are exactly the plain moves
      to the squares it reaches. */
  lemma PawnStepsExact(g: Grid, p: PieceData)
    requires OnBoard(p.position)
    ensures forall m :: m in Pushes(g, p) + Captures(g, p, |CaptureOffsets|) ==>
              PlainStepTo(m, p) && PawnReaches(g, p, Coordinates(m.endPos).0, Coordinates(m.endPos).1)
    ensures forall file, rank :: PawnReaches(g, p, file, rank) ==>
              Plain(p.position, Position(file, rank)) in Pushes(g, p) + Captures(g, p, |CaptureOffsets|)
  {
    assert Captures(g, p, |CaptureOffsets|) == Capture(g, p, -1) + Capture(g, p, 1) by {
      assert Captures(g, p, 1) == Capture(g, p, -1);
    }
    PushesReach(g, p);
    CaptureReaches(g, p, -1);
    CaptureReaches(g, p, 1);
    forall file, rank | PawnReaches(g, p, file, rank)
      ensures Plain(p.position, Position(file, rank)) in Pushes(g, p) + Captures(g, p, |CaptureOffsets|)
    {
      PawnReachesGenerated(g, p, file, rank);
    }
  }

  /** The moves of a pawn that are not en passant are exactly the plain
      moves to the squares it reaches. */
  lemma PawnMovesExact(g: Grid, history: seq<Move>, p: PieceData)
    requires OnBoard(p.position) && HistoryReadable(g, history)
    ensures forall m :: m in PawnMoves(g, history, p) && m.isEnPassant == None ==>
              PlainStepTo(m, p) && PawnReaches(g, p, Coordinates(m.endPos).0, Coordinates(m.endPos).1)
    ensures forall file, rank :: InRange((file, rank)) ==>
              (Plain(p.position, Position(file, rank)) in PawnMoves(g, history, p) <==> PawnReaches(g, p, file, rank))
  {
    PawnStepsExact(g, p);
    var regular := Pushes(g, p) + Captures(g, p, |CaptureOffsets|);
    assert PawnMoves(g, history, p) == regular + EnPassant(g, history, p);
    forall m | m in EnPassant(g, history, p)
      ensures m.isEnPassant == Some(true)
    {
    }
  }

  /** The en-passant capture is a diagonal step forward onto the file of
      the pawn that made the last move, taking that pawn off the square
      beside the mover. It is offered exactly when that pawn moved two ranks
      and now stands on the mover's rank, one file away. */
  lemma EnPassantExact(g: Grid, history: seq<Move>, p: PieceData)
    requires OnBoard(p.position) && HistoryReadable(g, history)
    ensures |EnPassant(g, history, p)| <= 1
    ensures forall m :: m in EnPassant(g, history, p) ==>
              var last := history[|history| - 1];
              OnBoard(last.endPos) &&
              PieceAt(g, last.endPos).Some? && PieceAt(g, last.endPos).value.kind == Pawn &&
              Abs(DigitValue(last.startPos[1]) - DigitValue(last.endPos[1])) == 2 &&
              Coordinates(p.position).1 == Coordinates(last.endPos).1 &&
              Abs(Coordinates(p.position).0 - Coordinates(last.endPos).0) == 1 &&
              m.startPos == p.position && m.isEnPassant == Some(true) && m.capturedPos == Some(last.endPos) &&
              Decodable(m.endPos) &&
              Coordinates(m.endPos) == (Coordinates(last.endPos).0, Coordinates(p.position).1 + Direction(p.color))
    ensures |history| > 0 && OnBoard(history[|history| - 1].endPos) &&
            PieceAt(g, history[|history| - 1].endPos).Some? &&
            PieceAt(g, history[|history| - 1].endPos).value.kind == Pawn &&
            Abs(DigitValue(history[|history| - 1].startPos[1]) - DigitValue(history[|history| - 1].endPos[1])) == 2 &&
            Coordinates(p.position).1 == Coordinates(history[|history| - 1].endPos).1 &&
            Abs(Coordinates(p.position).0 - Coordinates(history[|history| - 1].endPos).0) == 1
            ==> |EnPassant(g, history, p)| == 1
  {
  }

  /** When the pawn that made the last move came from beyond the mover, as a
      pawn of the other side does, the en-passant destination is the square
      it skipped. */
  lemma EnPassantLandsOnSkippedSquare(g: Grid, history: seq<Move>, p: PieceData)
    requires OnBoard(p.position) && HistoryReadable(g, history)
    requires EnPassant(g, history, p) != []
    requires Decodable(history[|history| - 1].startPos)
    requires Coordinates(history[|history| - 1].startPos).1 == Coordinates(p.position).1 + 2 * Direction(p.color)
    ensures var last := history[|history| - 1];
            Decodable(EnPassant(g, history, p)[0].endPos) &&
            Coordinates(EnPassant(g, history, p)[0].endPos).0 == Coordinates(last.endPos).0 &&
            2 * Coordinates(EnPassant(g, history, p)[0].endPos).1 == Coordinates(last.startPos).1 + Coordinates(last.endPos).1
  {
    EnPassantExact(g, history, p);
    assert EnPassant(g, history, p)[0] in EnPassant(g, history, p);
  }

  // ---------------------------------------------------------------------
  // Knights

  /** The squares a knight reaches: one file and two ranks away, or two
      files and one rank away, on the board, and not held by a piece of its
      own colour. */
  predicate KnightReaches(g: Grid, p: PieceData, file: int, rank: int)
    requires OnBoard(p.position)
  {
    var (f0, r0) := Coordinates(p.position);
    InRange((file, rank)) &&
    ((Abs(file - f0) == 1 && Abs(rank - r0) == 2) || (Abs(file - f0) == 2 && Abs(rank - r0) == 1)) &&
    (At(g, file, rank).None? || At(g, file, rank).value.color != p.color)
  }

  /** The jumps for the first n offsets are the jumps for each of them. */
  lemma {:induction false} KnightJumpsMembers(g: Grid, p: PieceData, n: nat)
    requires OnBoard(p.position) && n <= |KnightOffsets|
    ensures forall m :: m in KnightJumps(g, p, n) <==> exists i :: 0 <= i < n && m in KnightJump(g, p, KnightOffsets[i])
  {
    if n > 0 {
      KnightJumpsMembers(g, p, n - 1);
    }
  }

  /** There is at most one jump per offset. */
  lemma {:induction false} KnightJumpsBound(g: Grid, p: PieceData, n: nat)
    requires OnBoard(p.position) && n <= |KnightOffsets|
    ensures |KnightJumps(g, p, n)| <= n
  {
    if n > 0 {
      KnightJumpsBound(g, p, n - 1);
    }
  }

  /** A knight has at most eight moves. */
  lemma KnightMovesAtMostEight(g: Grid, p: PieceData)
    requires OnBoard(p.position)
    ensures |KnightMoves(g, p)| <= 8
  {
    KnightJumpsBound(g, p, |KnightOffsets|);
  }

  /** The jump by one offset is a plain move to a square the knight
      reaches. */
  lemma KnightJumpReaches(g: Grid, p: PieceData, i: nat)
    requires OnBoard(p.position) && i < |KnightOffsets|
    ensures forall m :: m in KnightJump(g, p, KnightOffsets[i]) ==>
              PlainStepTo(m, p) && KnightReaches(g, p, Coordinates(m.endPos).0, Coordinates(m.endPos).1)
  {
    var (f0, r0) := Coordinates(p.position);
    var (df, dr) := KnightOffsets[i];
    if KnightJump(g, p, KnightOffsets[i]) != [] {
      PieceAtPosition(g, f0 + df, r0 + dr);
      var m := KnightJump(g, p, KnightOffsets[i])[0];
      assert Coordinates(m.endPos) == (f0 + df, r0 + dr);
    }
  }

  /** The moves of a knight are exactly the plain moves to the squares it
      reaches. */
  lemma KnightMovesExact(g: Grid, p: PieceData)
    requires OnBoard(p.position)
    ensures forall m :: m in KnightMoves(g, p) ==>
              PlainStepTo(m, p) && KnightReaches(g, p, Coordinates(m.endPos).0, Coordinates(m.endPos).1)
    ensures forall file, rank :: InRange((file, rank)) ==>
              (Plain(p.position, Position(file, rank)) in KnightMoves(g, p) <==> KnightReaches(g, p, file, rank))
  {
    var (f0, r0) := Coordinates(p.position);
    KnightJumpsMembers(g, p, |KnightOffsets|);
    forall m | m in KnightMoves(g, p)
      ensures PlainStepTo(m, p) && KnightReaches(g, p, Coordinates(m.endPos).0, Coordinates(m.endPos).1)
    {
      var i :| 0 <= i < |KnightOffsets| && m in KnightJump(g, p, KnightOffsets[i]);
      KnightJumpReaches(g, p, i);
    }
    forall file, rank | InRange((file, rank))
      ensures Plain(p.position, Position(file, rank)) in KnightMoves(g, p) <==> KnightReaches(g, p, file, rank)
    {
      var m := Plain(p.position, Position(file, rank));
      if KnightReaches(g, p, file, rank) {
        var i := KnightOffsetIndex(file - f0, rank - r0);
        PieceAtPosition(g, file, rank);
        assert m in KnightJump(g, p, KnightOffsets[i]);
      }
      if m in KnightMoves(g, p) {
        assert Coordinates(m.endPos) == (file, rank);
      }
    }
  }

  /** The index of a knight offset in the fixed list. */
  function KnightOffsetIndex(df: int, dr: int): (i: nat)
    requires (Abs(df) == 1 && Abs(dr) == 2) || (Abs(df) == 2 && Abs(dr) == 1)
    ensures i < |KnightOffsets| && KnightOffsets[i] == (df, dr)
  {
    if df == 1 && dr == 2 then 0
    else if df == 2 && dr == 1 then 1
    else if df == 2 && dr == -1 then 2
    else if df == 1 && dr == -2 then 3
    else if df == -1 && dr == -2 then 4
    else if df == -2 && dr == -1 then 5
    else if df == -2 && dr == 1 then 6
    else 7
  }

  // ---------------------------------------------------------------------
  // Dispatch and the whole-board scan

  /** Every move of a piece starts on the piece's own square. */
  lemma PieceMovesStartAtPiece(g: Grid, history: seq<Move>, p: PieceData)
    requires CanGenerate(g, history, p)
    ensures forall m :: m in PieceMoves(g, history, p) ==> m.startPos == p.position
  {
    if p.kind == Pawn {
      PawnMovesExact(g, history, p);
      EnPassantExact(g, history, p);
      assert PawnMoves(g, history, p) == Pushes(g, p) + Captures(g, p, |CaptureOffsets|) + EnPassant(g, history, p);
      forall m | m in PieceMoves(g, history, p)
        ensures m.startPos == p.position
      {
        if m.isEnPassant != None {
          PawnStepsExact(g, p);
          assert m in EnPassant(g, history, p);
        }
      }
    } else {
      KnightMovesExact(g, p);
    }
  }

  /** The moves found on the first n files of a rank are those of the
      pieces of the colour standing there. */
  lemma {:induction false} RankMovesMembers(g: Grid, history: seq<Move>, color: Color, rank: int, n: nat)
    requires 0 <= rank < 8 && n <= 8 && Generable(g, history, color)
    ensures forall m :: m in RankMoves(g, history, color, rank, n) <==>
              exists file :: 0 <= file < n && m in SquareMoves(g, history, color, file, rank)
  {
    if n > 0 {
      RankMovesMembers(g, history, color, rank, n - 1);
    }
  }

  /** The moves found on the first n ranks are those of the pieces of the
      colour standing there. */
  lemma {:induction false} ScanMovesMembers(g: Grid, history: seq<Move>, color: Color, n: nat)
    requires n <= 8 && Generable(g, history, color)
    ensures forall m :: m in ScanMoves(g, history, color, n) <==>
              exists rank, file :: 0 <= rank < n && 0 <= file < 8 && m in SquareMoves(g, history, color, file, rank)
  {
    if n > 0 {
      ScanMovesMembers(g, history, color, n - 1);
      RankMovesMembers(g, history, color, n - 1, 8);
    }
  }

  /** A move is generated for a colour exactly when it is a move of some
      piece of that colour standing on the board. */
  lemma AllMovesMembers(g: Grid, history: seq<Move>, color: Color)
    requires Generable(g, history, color)
    ensures forall m :: m in AllMoves(g, history, color) <==>
              exists sq :: sq in g && InRange(sq) && g[sq].color == color && m in PieceMoves(g, history, g[sq])
  {
    ScanMovesMembers(g, history, color, 8);
    forall m | m in AllMoves(g, history, color)
      ensures exists sq :: sq in g && InRange(sq) && g[sq].color == color && m in PieceMoves(g, history, g[sq])
    {
      var rank, file :| 0 <= rank < 8 && 0 <= file < 8 && m in SquareMoves(g, history, color, file, rank);
      PieceAtPosition(g, file, rank);
      assert (file, rank) in g;
    }
    forall m, sq | sq in g && InRange(sq) && g[sq].color == color && m in PieceMoves(g, history, g[sq])
      ensures m in AllMoves(g, history, color)
    {
      PieceAtPosition(g, sq.0, sq.1);
      assert m in SquareMoves(g, history, color, sq.0, sq.1);
    }
  }

  /** Every generated move starts on the square of a piece of the colour
      asked for. */
  lemma AllMovesStartOnOwnPieces(g: Grid, history: seq<Move>, color: Color)
    requires Generable(g, history, color)
    ensures forall m :: m in AllMoves(g, history, color) ==>
              exists sq :: sq in g && InRange(sq) && g[sq].color == color && m.startPos == g[sq].position
  {
    AllMovesMembers(g, history, color);
    forall m | m in AllMoves(g, history, color)
      ensures exists sq :: sq in g && InRange(sq) && g[sq].color == color && m.startPos == g[sq].position
    {
      var sq :| sq in g && InRange(sq) && g[sq].color == color && m in PieceMoves(g, history, g[sq]);
      PieceMovesStartAtPiece(g, history, g[sq]);
    }
  }

  /** A rank holding no piece of the colour yields no moves. */
  lemma {:induction false} RankWithoutColour(g: Grid, history: seq<Move>, color: Color, rank: int, n: nat)
    requires 0 <= rank < 8 && n <= 8 && Generable(g, history, color)
    requires forall sq :: sq in g && g[sq].color == color ==> sq.1 != rank
    ensures RankMoves(g, history, color, rank, n) == []
  {
    if n > 0 {
      RankWithoutColour(g, history, color, rank, n - 1);
      PieceAtPosition(g, n - 1, rank);
    }
  }

  /** A rank holding exactly one piece of the colour yields exactly that
      piece's moves. */
  lemma {:induction false} RankWithOnePiece(g: Grid, history: seq<Move>, color: Color, file: int, rank: int, n: nat)
    requires InRange((file, rank)) && n <= 8 && Generable(g, history, color)
    requires (file, rank) in g && g[(file, rank)].color == color
    requires forall sq :: sq in g && g[sq].color == color && sq.1 == rank ==> sq.0 == file
    ensures RankMoves(g, history, color, rank, n) == if file < n then PieceMoves(g, history, g[(file, rank)]) else []
  {
    if n > 0 {
      RankWithOnePiece(g, history, color, file, rank, n - 1);
      PieceAtPosition(g, n - 1, rank);
    }
  }

  /** Ranks k and above holding no piece of the colour add nothing to the
      scan. */
  lemma {:induction false} ScanStopsAt(g: Grid, history: seq<Move>, color: Color, k: nat, n: nat)
    requires k <= n <= 8 && Generable(g, history, color)
    requires forall sq :: sq in g && g[sq].color == color ==> sq.1 < k
    ensures ScanMoves(g, history, color, n) == ScanMoves(g, history, color, k)
  {
    if n > k {
      ScanStopsAt(g, history, color, k, n - 1);
      RankWithoutColour(g, history, color, n - 1, 8);
    }
  }

  lemma {:induction false} NoPiecesNoScanMoves(g: Grid, history: seq<Move>, color: Color, n: nat)
    requires n <= 8 && forall sq :: sq in g ==> g[sq].color != color
    ensures Generable(g, history, color)
    ensures ScanMoves(g, history, color, n) == []
  {
    if n > 0 {
      NoPiecesNoScanMoves(g, history, color, n - 1);
      RankWithoutColour(g, history, color, n - 1, 8);
    }
  }

  /** A colour with no piece on the board has no moves. */
  lemma NoPiecesNoMoves(g: Grid, history: seq<Move>, color: Color)
    requires forall sq :: sq in g ==> g[sq].color != color
    ensures Generable(g, history, color)
    ensures AllMoves(g, history, color) == []
  {
    NoPiecesNoScanMoves(g, history, color, 8);
  }
}
