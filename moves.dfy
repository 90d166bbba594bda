/** The move value handed out by the generator and kept in the board's
    history. */
module Moves {
  import opened Wrappers

  /** A move from one square name to another. The two en-passant annotations
      are absent on every move except those built by the en-passant rule,
      which sets both. */
  datatype Move = Move(startPos: string, endPos: string, isEnPassant: Option<bool>, capturedPos: Option<string>)

  /** A move without annotations. */
  function Plain(startPos: string, endPos: string): Move
  {
    Move(startPos, endPos, None, None)
  }
}
