/** Chess pieces: the six kinds with their symbols and material values, the
    mutable piece object, and the factory that builds a piece from the name
    of its kind. */
module Pieces {
  import opened Wrappers

  datatype Kind = Pawn | Knight | Bishop | Rook | Queen | King

  /** Colours are the strings "white" and "black"; nothing stops a caller from
      passing another string, and the move rules treat every string other
      than "white" like "black" when they pick a direction. */
  type Color = string

  const White: Color := "white"
  const Black: Color := "black"

  /** The one-letter symbol of each kind. */
  function Symbol(k: Kind): (c: char)
    ensures 'A' <= c <= 'Z'
  {
    match k
    case Pawn => 'P'
    case Knight => 'N'
    case Bishop => 'B'
    case Rook => 'R'
    case Queen => 'Q'
    case King => 'K'
  }

  /** No two kinds share a symbol, so a symbol identifies its kind. */
  lemma SymbolsDistinct(k1: Kind, k2: Kind)
    ensures Symbol(k1) == Symbol(k2) <==> k1 == k2
  {
    match k1
    case Pawn =>
    case Knight =>
    case Bishop =>
    case Rook =>
    case Queen =>
    case King =>
  }

  /** The material value of each kind; the king carries 0 as a placeholder. */
  function Value(k: Kind): (v: nat)
    ensures v == 0 <==> k == King
    ensures v <= 9
    ensures v == 9 <==> k == Queen
  {
    match k
    case Pawn => 1
    case Knight => 3
    case Bishop => 3
    case Rook => 5
    case Queen => 9
    case King => 0
  }

  /** The key under which the factory's lookup table lists each kind. */
  function Name(k: Kind): string
  {
    match k
    case Pawn => "pawn"
    case Knight => "knight"
    case Bishop => "bishop"
    case Rook => "rook"
    case Queen => "queen"
    case King => "king"
  }

  /** Lower-casing of one character, as far as it matters for matching the
      six all-ASCII names: 'A'..'Z' and U+212A KELVIN SIGN (which lower-cases
      to 'k'); every other character is left as it is. */
  function LowerChar(c: char): char
  {
    if 'A' <= c <= 'Z' then (c as int - 'A' as int + 'a' as int) as char
    else if c == '\U{212A}' then 'k'
    else c
  }

  function Lower(s: string): (r: string)
    ensures |r| == |s|
    ensures forall i :: 0 <= i < |s| ==> r[i] == LowerChar(s[i])
  {
    seq(|s|, i requires 0 <= i < |s| => LowerChar(s[i]))
  }

  /** The factory's name lookup: the kind whose name equals the lower-cased
      argument, or an error that names the argument as given. */
  function KindNamed(pieceType: string): (r: Result<Kind, string>)
    ensures r.Success? ==> Name(r.value) == Lower(pieceType)
    ensures r.Failure? ==> forall k :: Name(k) != Lower(pieceType)
    ensures r.Failure? ==> r.error == "Unknown piece type: " + pieceType
  {
    var key := Lower(pieceType);
    if key == "pawn" then Success(Pawn)
    else if key == "knight" then Success(Knight)
    else if key == "bishop" then Success(Bishop)
    else if key == "rook" then Success(Rook)
    else if key == "queen" then Success(Queen)
    else if key == "king" then Success(King)
    else Failure("Unknown piece type: " + pieceType)
  }

  /** Every spelling of a kind's name, in any mix of letter cases, finds that
      kind. */
  lemma KindNamedAnyCase(pieceType: string, k: Kind)
    requires Lower(pieceType) == Name(k)
    ensures KindNamed(pieceType) == Success(k)
  {
    var r := KindNamed(pieceType);
    if r.Success? {
      match k
      case Pawn =>
      case Knight =>
      case Bishop =>
      case Rook =>
      case Queen =>
      case King =>
    }
  }

  /** The upper-case spelling of each name is accepted. */
  lemma UpperCaseNamesAccepted()
    ensures KindNamed("PAWN") == Success(Pawn)
    ensures KindNamed("Knight") == Success(Knight)
    ensures KindNamed("BiShOp") == Success(Bishop)
    ensures KindNamed("ROOK") == Success(Rook)
    ensures KindNamed("QUEEN") == Success(Queen)
    ensures KindNamed("KING") == Success(King)
  {
    KindNamedAnyCase("PAWN", Pawn);
    KindNamedAnyCase("Knight", Knight);
    KindNamedAnyCase("BiShOp", Bishop);
    KindNamedAnyCase("ROOK", Rook);
    KindNamedAnyCase("QUEEN", Queen);
    KindNamedAnyCase("KING", King);
  }

  /** The KELVIN SIGN lower-cases to 'k', so it spells the king's name. */
  lemma KelvinSignSpellsKing()
    ensures KindNamed("\U{212A}ing") == Success(King)
    ensures KindNamed("\U{212A}NIGHT") == Success(Knight)
  {
    KindNamedAnyCase("\U{212A}ing", King);
    KindNamedAnyCase("\U{212A}NIGHT", Knight);
  }

  /** A name that is not one of the six, in any case, is rejected with a
      message that repeats it as given. */
  lemma UnknownNamesRejected()
    ensures KindNamed("Pawns") == Failure("Unknown piece type: Pawns")
    ensures KindNamed("") == Failure("Unknown piece type: ")
    ensures KindNamed(" king") == Failure("Unknown piece type:  king")
  {
    var pawns := Lower("Pawns");
    assert |pawns| == 5 && pawns[0] == 'p' && pawns[4] == 's';
    assert pawns != Name(Queen) && pawns != Name(Pawn);
    assert Lower("") == [];
    var king := Lower(" king");
    assert |king| == 5 && king[0] == ' ';
    assert king != Name(Queen);
    assert KindNamed("Pawns").Failure? && KindNamed("").Failure? && KindNamed(" king").Failure?;
    assert "Unknown piece type: " + "Pawns" == "Unknown piece type: Pawns";
    assert "Unknown piece type: " + "" == "Unknown piece type: ";
    assert "Unknown piece type: " + " king" == "Unknown piece type:  king";
  }

  /** No two kinds share a name, so the lookup has at most one answer. */
  lemma NamesDistinct(k1: Kind, k2: Kind)
    ensures Name(k1) == Name(k2) <==> k1 == k2
  {
    if Name(k1) == Name(k2) {
      assert Name(k1)[0] == Name(k2)[0] && |Name(k1)| == |Name(k2)|;
    }
  }

  /** The fields of a piece at one moment, as a value. */
  datatype PieceData = PieceData(kind: Kind, color: Color, position: string, hasMoved: bool)

  /** A piece: its kind is fixed by its class, its colour is set once, and
      its position and moved flag change when it moves. */
  class Piece {
    const kind: Kind
    var color: Color
    var position: string
    var hasMoved: bool

    constructor (kind: Kind, color: Color, position: string)
      ensures this.kind == kind && this.color == color && this.position == position
      ensures !hasMoved
    {
      this.kind := kind;
      this.color := color;
      this.position := position;
      hasMoved := false;
    }

    /** Moves the piece without any check of the new square. The moved flag
        is set and never cleared: no member of this model assigns false to it
        outside the constructor. */
    method Move(newPosition: string)
      modifies this`position, this`hasMoved
      ensures position == newPosition && hasMoved
      ensures color == old(color)
    {
      position := newPosition;
      hasMoved := true;
    }

    function Data(): PieceData
      reads this
    {
      PieceData(kind, color, position, hasMoved)
    }
  }

  /** Builds a fresh, unmoved piece of the named kind, or reports the unknown
      name. */
  method CreatePiece(pieceType: string, color: Color, position: string) returns (r: Result<Piece, string>)
    ensures r.Failure? <==> KindNamed(pieceType).Failure?
    ensures r.Failure? ==> r.error == "Unknown piece type: " + pieceType
    ensures r.Success? ==> fresh(r.value) && Name(r.value.kind) == Lower(pieceType)
    ensures r.Success? ==> r.value.color == color && r.value.position == position && !r.value.hasMoved
  {
    var kind := KindNamed(pieceType);
    if kind.Failure? {
      return Failure(kind.error);
    }
    var piece := new Piece(kind.value, color, position);
    r := Success(piece);
  }
}
