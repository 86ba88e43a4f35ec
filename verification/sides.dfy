/** The two columns whose scroll offsets are coordinated. */
module Sides {

  datatype Side = Left | Right

  /** The column a scroll event on `side` propagates to. */
  function Other(side: Side): (other: Side)
    ensures other != side
  {
    match side
    case Left => Right
    case Right => Left
  }
}
