/** The ways a load can fail. Each one aborts the whole load: no partial
    record is ever produced. */
module Errors {
  import opened Pieces
  import opened Lines

  datatype LoadError =
    /** Line 0 is not a version line `V[\d.]+`; `found` is that line. */
    | NotCsa(found: string)
    /** A board move whose source square holds the blank code " * ". */
    | EmptySource(move: Move)
    /** A drop of a kind that cannot be held in hand. */
    | UnknownDrop(side: Side, piece: string)

  datatype Result<T> = Ok(value: T) | Err(error: LoadError)
}
