/** Concrete positions and the exact move lists the rules give for them. */
module MoveScenarios {
  import opened Wrappers
  import opened Pieces
  import opened Moves
  import opened Boards
  import opened MoveGeneration
  import opened MoveProperties

  /** The knight's moves, one offset after the other. */
  lemma KnightMovesUnrolled(g: Grid, p: PieceData)
    requires OnBoard(p.position)
    ensures KnightMoves(g, p) ==
              KnightJump(g, p, (1, 2)) + KnightJump(g, p, (2, 1)) + KnightJump(g, p, (2, -1)) + KnightJump(g, p, (1, -2)) +
              KnightJump(g, p, (-1, -2)) + KnightJump(g, p, (-2, -1)) + KnightJump(g, p, (-2, 1)) + KnightJump(g, p, (-1, 2))
  {
    assert KnightJumps(g, p, 1) == KnightJump(g, p, (1, 2));
    assert KnightJumps(g, p, 2) == KnightJumps(g, p, 1) + KnightJump(g, p, (2, 1));
    assert KnightJumps(g, p, 3) == KnightJumps(g, p, 2) + KnightJump(g, p, (2, -1));
    assert KnightJumps(g, p, 4) == KnightJumps(g, p, 3) + KnightJump(g, p, (1, -2));
    assert KnightJumps(g, p, 5) == KnightJumps(g, p, 4) + KnightJump(g, p, (-1, -2));
    assert KnightJumps(g, p, 6) == KnightJumps(g, p, 5) + KnightJump(g, p, (-2, -1));
    assert KnightJumps(g, p, 7) == KnightJumps(g, p, 6) + KnightJump(g, p, (-2, 1));
  }

  /** A lone knight on d4 has all eight moves, in the order of the offset
      list. */
  lemma KnightFromCentre()
    ensures var knight := PieceData(Knight, White, "d4", false);
            KnightMoves(map[(3, 3) := knight], knight) ==
              [Plain("d4", "e6"), Plain("d4", "f5"), Plain("d4", "f3"), Plain("d4", "e2"),
               Plain("d4", "c2"), Plain("d4", "b3"), Plain("d4", "b5"), Plain("d4", "c6")]
  {
    var knight := PieceData(Knight, White, "d4", false);
    var g := map[(3, 3) := knight];
    KnightMovesUnrolled(g, knight);
    assert KnightJump(g, knight, (1, 2)) == [Plain("d4", "e6")];
    assert KnightJump(g, knight, (2, 1)) == [Plain("d4", "f5")];
    assert KnightJump(g, knight, (2, -1)) == [Plain("d4", "f3")];
    assert KnightJump(g, knight, (1, -2)) == [Plain("d4", "e2")];
    assert KnightJump(g, knight, (-1, -2)) == [Plain("d4", "c2")];
    assert KnightJump(g, knight, (-2, -1)) == [Plain("d4", "b3")];
    assert KnightJump(g, knight, (-2, 1)) == [Plain("d4", "b5")];
    assert KnightJump(g, knight, (-1, 2)) == [Plain("d4", "c6")];
  }

  /** A lone knight in the corner a1 has two moves. */
  lemma KnightFromCorner()
    ensures var knight := PieceData(Knight, Black, "a1", false);
            KnightMoves(map[(0, 0) := knight], knight) == [Plain("a1", "b3"), Plain("a1", "c2")]
  {
    var knight := PieceData(Knight, Black, "a1", false);
    var g := map[(0, 0) := knight];
    KnightMovesUnrolled(g, knight);
    assert KnightJump(g, knight, (1, 2)) == [Plain("a1", "b3")];
    assert KnightJump(g, knight, (2, 1)) == [Plain("a1", "c2")];
  }

  /** A knight does not land on a piece of its own colour but does land on
      one of the other colour. */
  lemma KnightBlockedByOwnPiece()
    ensures var knight := PieceData(Knight, White, "a1", false);
            var g := map[(0, 0) := knight, (1, 2) := PieceData(Pawn, White, "b3", false),
                         (2, 1) := PieceData(Pawn, Black, "c2", false)];
            KnightMoves(g, knight) == [Plain("a1", "c2")]
  {
    var knight := PieceData(Knight, White, "a1", false);
    var g := map[(0, 0) := knight, (1, 2) := PieceData(Pawn, White, "b3", false),
                 (2, 1) := PieceData(Pawn, Black, "c2", false)];
    KnightMovesUnrolled(g, knight);
    assert KnightJump(g, knight, (1, 2)) == [];
    assert KnightJump(g, knight, (2, 1)) == [Plain("a1", "c2")];
  }

  /** From its start rank a white pawn pushes one or two squares upwards. */
  lemma WhitePawnFromStart()
    ensures var pawn := PieceData(Pawn, White, "e2", false);
            PawnMoves(map[(4, 1) := pawn], [], pawn) == [Plain("e2", "e3"), Plain("e2", "e4")]
  {
    var pawn := PieceData(Pawn, White, "e2", false);
    var g := map[(4, 1) := pawn];
    assert Pushes(g, pawn) == [Plain("e2", "e3"), Plain("e2", "e4")];
    assert Captures(g, pawn, 1) == [];
    assert Captures(g, pawn, 2) == [];
  }

  /** From its start rank a black pawn pushes one or two squares downwards. */
  lemma BlackPawnFromStart()
    ensures var pawn := PieceData(Pawn, Black, "e7", false);
            PawnMoves(map[(4, 6) := pawn], [], pawn) == [Plain("e7", "e6"), Plain("e7", "e5")]
  {
    var pawn := PieceData(Pawn, Black, "e7", false);
    var g := map[(4, 6) := pawn];
    assert Pushes(g, pawn) == [Plain("e7", "e6"), Plain("e7", "e5")];
    assert Captures(g, pawn, 1) == [];
    assert Captures(g, pawn, 2) == [];
  }

  /** A pawn whose colour is neither "white" nor "black" moves downwards and
      never pushes two squares. */
  lemma OtherColourPawn()
    ensures var pawn := PieceData(Pawn, "red", "e7", false);
            PawnMoves(map[(4, 6) := pawn], [], pawn) == [Plain("e7", "e6")]
  {
    var pawn := PieceData(Pawn, "red", "e7", false);
    var g := map[(4, 6) := pawn];
    assert Pushes(g, pawn) == [Plain("e7", "e6")];
    assert Captures(g, pawn, 1) == [];
    assert Captures(g, pawn, 2) == [];
  }

  /** A piece on the square ahead blocks both pushes. */
  lemma PawnBlocked()
    ensures var pawn := PieceData(Pawn, White, "e2", false);
            var g := map[(4, 1) := pawn, (4, 2) := PieceData(Knight, Black, "e3", false)];
            PawnMoves(g, [], pawn) == []
  {
    var pawn := PieceData(Pawn, White, "e2", false);
    var g := map[(4, 1) := pawn, (4, 2) := PieceData(Knight, Black, "e3", false)];
    assert Pushes(g, pawn) == [];
    assert Captures(g, pawn, 1) == [];
    assert Captures(g, pawn, 2) == [];
  }

  /** A piece two squares ahead blocks only the double push; a piece of the
      other colour diagonally ahead is captured, one of the pawn's own
      colour is not. */
  lemma PawnCapturesOnlyOtherColour()
    ensures var pawn := PieceData(Pawn, White, "e2", false);
            var g := map[(4, 1) := pawn, (4, 3) := PieceData(Knight, White, "e4", false),
                         (3, 2) := PieceData(Knight, Black, "d3", false), (5, 2) := PieceData(Knight, White, "f3", false)];
            PawnMoves(g, [], pawn) == [Plain("e2", "e3"), Plain("e2", "d3")]
  {
    var pawn := PieceData(Pawn, White, "e2", false);
    var g := map[(4, 1) := pawn, (4, 3) := PieceData(Knight, White, "e4", false),
                 (3, 2) := PieceData(Knight, Black, "d3", false), (5, 2) := PieceData(Knight, White, "f3", false)];
    assert Pushes(g, pawn) == [Plain("e2", "e3")];
    assert Captures(g, pawn, 1) == [Plain("e2", "d3")];
    assert Captures(g, pawn, 2) == [Plain("e2", "d3")];
  }

  /** After a black pawn's double push d7-d5, the white pawn on e5 may take
      it en passant onto d6. */
  lemma EnPassantAfterDoublePush()
    ensures var pawn := PieceData(Pawn, White, "e5", true);
            var g := map[(4, 4) := pawn, (3, 4) := PieceData(Pawn, Black, "d5", true)];
            PawnMoves(g, [Plain("d7", "d5")], pawn) ==
              [Plain("e5", "e6"), Move("e5", "d6", Some(true), Some("d5"))]
  {
    var pawn := PieceData(Pawn, White, "e5", true);
    var g := map[(4, 4) := pawn, (3, 4) := PieceData(Pawn, Black, "d5", true)];
    assert Pushes(g, pawn) == [Plain("e5", "e6")];
    assert Captures(g, pawn, 1) == [];
    assert Captures(g, pawn, 2) == [];
    assert EnPassant(g, [Plain("d7", "d5")], pawn) == [Move("e5", "d6", Some(true), Some("d5"))];
  }

  /** After a single push d6-d5 there is no en-passant capture. */
  lemma NoEnPassantAfterSinglePush()
    ensures var pawn := PieceData(Pawn, White, "e5", true);
            var g := map[(4, 4) := pawn, (3, 4) := PieceData(Pawn, Black, "d5", true)];
            PawnMoves(g, [Plain("d6", "d5")], pawn) == [Plain("e5", "e6")]
  {
    var pawn := PieceData(Pawn, White, "e5", true);
    var g := map[(4, 4) := pawn, (3, 4) := PieceData(Pawn, Black, "d5", true)];
    assert Pushes(g, pawn) == [Plain("e5", "e6")];
    assert Captures(g, pawn, 1) == [];
    assert Captures(g, pawn, 2) == [];
    assert EnPassant(g, [Plain("d6", "d5")], pawn) == [];
  }

  /** The en-passant rule looks at neither the colour of the pawn that made
      the last move nor the destination square: a white pawn that moved
      d3-d5 can be taken by the white pawn on e5, onto d6 even though a black
      knight stands there, after the ordinary capture of that knight. */
  lemma EnPassantIgnoresColourAndDestination()
    ensures var pawn := PieceData(Pawn, White, "e5", true);
            var g := map[(4, 4) := pawn, (3, 4) := PieceData(Pawn, White, "d5", true),
                         (3, 5) := PieceData(Knight, Black, "d6", true)];
            PawnMoves(g, [Plain("d3", "d5")], pawn) ==
              [Plain("e5", "e6"), Plain("e5", "d6"), Move("e5", "d6", Some(true), Some("d5"))]
  {
    var pawn := PieceData(Pawn, White, "e5", true);
    var g := map[(4, 4) := pawn, (3, 4) := PieceData(Pawn, White, "d5", true),
                 (3, 5) := PieceData(Knight, Black, "d6", true)];
    assert Pushes(g, pawn) == [Plain("e5", "e6")];
    assert Captures(g, pawn, 1) == [Plain("e5", "d6")];
    assert Captures(g, pawn, 2) == [Plain("e5", "d6")];
    assert EnPassant(g, [Plain("d3", "d5")], pawn) == [Move("e5", "d6", Some(true), Some("d5"))];
  }

  /** The knight on b1 of the scan example. */
  lemma KnightFromB1()
    ensures var knight := PieceData(Knight, White, "b1", false);
            var g := map[(1, 0) := knight, (0, 1) := PieceData(Pawn, White, "a2", false)];
            KnightMoves(g, knight) == [Plain("b1", "c3"), Plain("b1", "d2"), Plain("b1", "a3")]
  {
    var knight := PieceData(Knight, White, "b1", false);
    var g := map[(1, 0) := knight, (0, 1) := PieceData(Pawn, White, "a2", false)];
    KnightMovesUnrolled(g, knight);
    assert KnightJump(g, knight, (1, 2)) == [Plain("b1", "c3")];
    assert KnightJump(g, knight, (2, 1)) == [Plain("b1", "d2")];
    assert KnightJump(g, knight, (-1, 2)) == [Plain("b1", "a3")];
  }

  /** The pawn on a2 of the scan example. */
  lemma PawnFromA2()
    ensures var pawn := PieceData(Pawn, White, "a2", false);
            var g := map[(1, 0) := PieceData(Knight, White, "b1", false), (0, 1) := pawn];
            PawnMoves(g, [], pawn) == [Plain("a2", "a3"), Plain("a2", "a4")]
  {
    var pawn := PieceData(Pawn, White, "a2", false);
    var g := map[(1, 0) := PieceData(Knight, White, "b1", false), (0, 1) := pawn];
    assert Pushes(g, pawn) == [Plain("a2", "a3"), Plain("a2", "a4")];
    assert Captures(g, pawn, 2) == [] by {
      assert Captures(g, pawn, 1) == [];
    }
  }

  /** With pieces of the colour only on one square of rank 0 and one of
      rank 1, the scan gives the moves of the first and then those of the
      second. */
  lemma ScanTwoRanks(g: Grid, history: seq<Move>, color: Color, file0: int, file1: int)
    requires 0 <= file0 < 8 && 0 <= file1 < 8 && Generable(g, history, color)
    requires (file0, 0) in g && g[(file0, 0)].color == color && (file1, 1) in g && g[(file1, 1)].color == color
    requires forall sq :: sq in g && g[sq].color == color ==> sq == (file0, 0) || sq == (file1, 1)
    ensures AllMoves(g, history, color) == PieceMoves(g, history, g[(file0, 0)]) + PieceMoves(g, history, g[(file1, 1)])
  {
    RankWithOnePiece(g, history, color, file0, 0, 8);
    RankWithOnePiece(g, history, color, file1, 1, 8);
    ScanStopsAt(g, history, color, 2, 8);
    assert ScanMoves(g, history, color, 1) == PieceMoves(g, history, g[(file0, 0)]);
  }

  /** The scan visits rank 0 before rank 1, so the moves of the knight on b1
      come before those of the pawn on a2. */
  lemma ScanOrder()
    ensures var g := map[(1, 0) := PieceData(Knight, White, "b1", false), (0, 1) := PieceData(Pawn, White, "a2", false)];
            Generable(g, [], White) &&
            AllMoves(g, [], White) ==
              [Plain("b1", "c3"), Plain("b1", "d2"), Plain("b1", "a3"), Plain("a2", "a3"), Plain("a2", "a4")]
  {
    var knight := PieceData(Knight, White, "b1", false);
    var pawn := PieceData(Pawn, White, "a2", false);
    var g := map[(1, 0) := knight, (0, 1) := pawn];
    assert Generable(g, [], White);
    KnightFromB1();
    PawnFromA2();
    ScanTwoRanks(g, [], White, 1, 0);
  }
}
