/** The board: square names and coordinates, the 8x8 grid of optional piece
    references, the move history and the side to move. */
module Boards {
  import opened Wrappers
  import opened Pieces
  import opened Moves

  /** A square as (file, rank), both counted from 0. */
  type Square = (int, int)

  predicate InRange(sq: Square)
  {
    0 <= sq.0 < 8 && 0 <= sq.1 < 8
  }

  /** A square name whose rank character is a decimal digit, so that its
      coordinates can be read off. */
  predicate Decodable(pos: string)
  {
    |pos| >= 2 && '0' <= pos[1] <= '9'
  }

  function DigitValue(c: char): int
    requires '0' <= c <= '9'
  {
    c as int - '0' as int
  }

  /** File from the first character ('a' is 0), rank from the second ('1' is
      0); characters after the second are ignored, and the result may lie
      off the board. */
  function Coordinates(pos: string): (sq: Square)
    requires Decodable(pos)
    ensures -1 <= sq.1 <= 8
  {
    (pos[0] as int - 'a' as int, DigitValue(pos[1]) - 1)
  }

  /** A square name that decodes to a square of the board. */
  predicate OnBoard(pos: string)
  {
    Decodable(pos) && InRange(Coordinates(pos))
  }

  /** The name of a square: a file letter and a rank digit. Ranks -1 and 8
      give the off-board digits '0' and '9'. */
  function Position(file: int, rank: int): (pos: string)
    requires 0 <= file < 8 && -1 <= rank <= 8
    ensures |pos| == 2 && 'a' <= pos[0] <= 'h' && '0' <= pos[1] <= '9'
    ensures InRange((file, rank)) ==> '1' <= pos[1] <= '8' && OnBoard(pos)
    ensures Decodable(pos) && Coordinates(pos) == (file, rank)
  {
    [(file + 'a' as int) as char, (rank + 1 + '0' as int) as char]
  }

  /** On the board, names and coordinates are inverse: a decodable name
      whose coordinates are in range is the name of those coordinates, up to
      the characters after the second. */
  lemma PositionOfCoordinates(pos: string)
    requires OnBoard(pos)
    ensures Position(Coordinates(pos).0, Coordinates(pos).1) == pos[..2]
  {
    var name := Position(Coordinates(pos).0, Coordinates(pos).1);
    assert name[0] == pos[0] && name[1] == pos[1];
  }

  /** Different squares have different names. */
  lemma PositionInjective(f1: int, r1: int, f2: int, r2: int)
    requires 0 <= f1 < 8 && -1 <= r1 <= 8 && 0 <= f2 < 8 && -1 <= r2 <= 8
    requires Position(f1, r1) == Position(f2, r2)
    ensures f1 == f2 && r1 == r2
  {
    assert Coordinates(Position(f1, r1)) == Coordinates(Position(f2, r2));
  }

  /** The occupied squares of a board at one moment, as a value: each square
      of the grid that holds a piece maps to that piece's fields. */
  type Grid = map<Square, PieceData>

  function At(g: Grid, file: int, rank: int): Option<PieceData>
  {
    if (file, rank) in g then Some(g[(file, rank)]) else None
  }

  /** The board lookup on a value: empty for any name whose coordinates lie
      off the board. */
  function PieceAt(g: Grid, pos: string): (r: Option<PieceData>)
    requires Decodable(pos)
    ensures !InRange(Coordinates(pos)) ==> r == None
    ensures r.Some? ==> OnBoard(pos) && r.value in g.Values
  {
    var (file, rank) := Coordinates(pos);
    if InRange((file, rank)) then At(g, file, rank) else None
  }

  /** The name lookup agrees with the square lookup on every square of the
      board. */
  lemma PieceAtPosition(g: Grid, file: int, rank: int)
    requires InRange((file, rank))
    ensures PieceAt(g, Position(file, rank)) == At(g, file, rank)
  {
  }

  function AllSquares(): set<Square>
  {
    set file: int, rank: int | 0 <= file < 8 && 0 <= rank < 8 :: (file, rank)
  }

  class Board {
    /** squares[rank, file]; null is an empty square. */
    const squares: array2<Piece?>
    var moveHistory: seq<Move>
    var activeColor: Color

    predicate Valid()
    {
      squares.Length0 == 8 && squares.Length1 == 8
    }

    /** An empty board, no history, white to move. */
    constructor ()
      ensures Valid() && fresh(squares)
      ensures forall rank, file :: 0 <= rank < 8 && 0 <= file < 8 ==> squares[rank, file] == null
      ensures moveHistory == [] && activeColor == White
    {
      squares := new Piece?[8, 8]((rank, file) => null);
      moveHistory := [];
      activeColor := White;
    }

    /** The pieces on the board. */
    ghost function Pieces(): set<Piece>
      reads squares
      requires Valid()
    {
      set rank, file | 0 <= rank < 8 && 0 <= file < 8 && squares[rank, file] != null :: squares[rank, file]
    }

    /** The grid as a value, keyed by (file, rank). */
    ghost function Snapshot(): (g: Grid)
      reads squares, Pieces()
      requires Valid()
      ensures forall sq :: sq in g ==> InRange(sq)
    {
      map sq | sq in AllSquares() && squares[sq.1, sq.0] != null :: squares[sq.1, sq.0].Data()
    }

    /** The piece on the named square, or null when the square is empty or
        its coordinates lie off the board. */
    function GetPiece(pos: string): (p: Piece?)
      reads squares, Pieces()
      requires Valid() && Decodable(pos)
      ensures !InRange(Coordinates(pos)) ==> p == null
      ensures p == null <==> PieceAt(Snapshot(), pos) == None
      ensures p != null ==> PieceAt(Snapshot(), pos) == Some(p.Data())
    {
      var (file, rank) := Coordinates(pos);
      if 0 <= file < 8 && 0 <= rank < 8 then
        assert (file, rank) in AllSquares();
        squares[rank, file]
      else
        null
    }

    /** Writes the piece into the square its own position names, replacing
        whatever was there; nothing else changes. */
    method PlacePiece(piece: Piece)
      requires Valid() && OnBoard(piece.position)
      modifies squares
      ensures squares[Coordinates(piece.position).1, Coordinates(piece.position).0] == piece
      ensures forall rank, file :: 0 <= rank < 8 && 0 <= file < 8 && (file, rank) != Coordinates(piece.position) ==>
                squares[rank, file] == old(squares[rank, file])
      ensures GetPiece(piece.position) == piece
    {
      var (file, rank) := Coordinates(piece.position);
      squares[rank, file] := piece;
    }

    /** Builds a new unmoved piece standing on (file, rank) and places it:
        one line of the standard layout. */
    method PlaceNewPiece(kind: Kind, color: Color, file: int, rank: int)
      requires Valid() && InRange((file, rank))
      modifies squares
      ensures fresh(squares[rank, file]) && Holds(squares[rank, file], file, rank, kind, color)
      ensures forall r, f :: 0 <= r < 8 && 0 <= f < 8 && (f, r) != (file, rank) ==> squares[r, f] == old(squares[r, f])
    {
      var piece := new Piece(kind, color, Position(file, rank));
      PlacePiece(piece);
    }

    /** Places one side's rook, knight, bishop, queen, king, bishop, knight
        and rook on files 0 to 7 of the given rank: the body of the back-rank
        loop of the standard layout. */
    method PlaceBackRank(color: Color, row: int)
      requires Valid() && 0 <= row < 8
      modifies squares
      ensures forall f :: 0 <= f < 8 ==> Holds(squares[row, f], f, row, BackRank(f), color) && fresh(squares[row, f])
      ensures forall r, f :: 0 <= r < 8 && 0 <= f < 8 && r != row ==> squares[r, f] == old(squares[r, f])
    {
      PlaceNewPiece(Rook, color, 0, row);
      PlaceNewPiece(Knight, color, 1, row);
      PlaceNewPiece(Bishop, color, 2, row);
      PlaceNewPiece(Queen, color, 3, row);
      PlaceNewPiece(King, color, 4, row);
      PlaceNewPiece(Bishop, color, 5, row);
      PlaceNewPiece(Knight, color, 6, row);
      PlaceNewPiece(Rook, color, 7, row);
      assert Holds(squares[row, 0], 0, row, Rook, color) && Holds(squares[row, 1], 1, row, Knight, color);
      assert Holds(squares[row, 2], 2, row, Bishop, color) && Holds(squares[row, 3], 3, row, Queen, color);
      assert Holds(squares[row, 4], 4, row, King, color) && Holds(squares[row, 5], 5, row, Bishop, color);
      assert Holds(squares[row, 6], 6, row, Knight, color) && Holds(squares[row, 7], 7, row, Rook, color);
      forall f | 0 <= f < 8
        ensures Holds(squares[row, f], f, row, BackRank(f), color) && fresh(squares[row, f])
      {
        assert f == 0 || f == 1 || f == 2 || f == 3 || f == 4 || f == 5 || f == 6 || f == 7;
      }
    }

    /** Lays out the standard starting position: pawns on ranks 1 and 6,
        the back ranks 0 (white) and 7 (black) in the order rook, knight,
        bishop, queen, king, bishop, knight, rook. Ranks 2 to 5 are left as
        they were. */
    method SetupStandardGame()
      requires Valid()
      modifies squares
      ensures forall file :: 0 <= file < 8 ==> Holds(squares[1, file], file, 1, Pawn, White) && Holds(squares[6, file], file, 6, Pawn, Black)
      ensures forall file :: 0 <= file < 8 ==> Holds(squares[0, file], file, 0, BackRank(file), White) && Holds(squares[7, file], file, 7, BackRank(file), Black)
      ensures forall rank, file :: 0 <= rank < 8 && 0 <= file < 8 && (rank == 0 || rank == 1 || rank == 6 || rank == 7) ==>
                fresh(squares[rank, file])
      ensures forall rank, file :: 2 <= rank < 6 && 0 <= file < 8 ==> squares[rank, file] == old(squares[rank, file])
    {
      for file := 0 to 8
        invariant forall f :: 0 <= f < file ==> Holds(squares[1, f], f, 1, Pawn, White) && Holds(squares[6, f], f, 6, Pawn, Black)
        invariant forall f :: 0 <= f < file ==> fresh(squares[1, f]) && fresh(squares[6, f])
        invariant forall rank, f :: 0 <= rank < 8 && 0 <= f < 8 && !((rank == 1 || rank == 6) && f < file) ==>
                    squares[rank, f] == old(squares[rank, f])
      {
        PlaceNewPiece(Pawn, White, file, 1);
        PlaceNewPiece(Pawn, Black, file, 6);
      }
      var sides := [(White, 0), (Black, 7)];
      for i := 0 to |sides|
        invariant forall f :: 0 <= f < 8 ==> Holds(squares[1, f], f, 1, Pawn, White) && Holds(squares[6, f], f, 6, Pawn, Black)
        invariant forall f :: 0 <= f < 8 ==> fresh(squares[1, f]) && fresh(squares[6, f])
        invariant i >= 1 ==> forall f :: 0 <= f < 8 ==> Holds(squares[0, f], f, 0, BackRank(f), White) && fresh(squares[0, f])
        invariant i >= 2 ==> forall f :: 0 <= f < 8 ==> Holds(squares[7, f], f, 7, BackRank(f), Black) && fresh(squares[7, f])
        invariant forall rank, f :: 2 <= rank < 6 && 0 <= f < 8 ==> squares[rank, f] == old(squares[rank, f])
      {
        var (color, row) := sides[i];
        PlaceBackRank(color, row);
      }
    }
  }

  /** The reference p is an unmoved piece of the given kind and colour whose
      position names the square (file, rank). */
  ghost predicate Holds(p: Piece?, file: int, rank: int, kind: Kind, color: Color)
    requires InRange((file, rank))
    reads p
  {
    p != null && p.kind == kind && p.color == color && p.position == Position(file, rank) && !p.hasMoved
  }

  /** The kind that starts on each file of a back rank. */
  function BackRank(file: int): Kind
  {
    match file
    case 0 => Rook
    case 1 => Knight
    case 2 => Bishop
    case 3 => Queen
    case 4 => King
    case 5 => Bishop
    case 6 => Knight
    case _ => Rook
  }
}
