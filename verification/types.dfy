/** Shared records of the hedge engine: order intents, position snapshots and
    fill outcomes, as declared in src/types/index.ts, plus the two failure-
    compatible wrappers the model uses for the source's thrown errors. */
module Types {

  datatype Option<+T> = None | Some(value: T)

  /** A call that either yields a value or throws an error. */
  datatype Result<+T, +E> = Success(value: T) | Failure(error: E)

  /** Direction of a market order ('buy' | 'sell'). */
  datatype Side = Buy | Sell

  function Opposite(s: Side): Side
  {
    match s
    case Buy => Sell
    case Sell => Buy
  }

  datatype Venue = Paradex | Lighter

  /** One submitted market order, as the abstract connector logs it. */
  datatype Order = Order(venue: Venue, side: Side, size: real, reduceOnly: bool)

  function Abs(x: real): real
  {
    if x < 0.0 then -x else x
  }

  /** The change of the venue's signed position if the order fills completely. */
  function SignedDelta(o: Order): real
  {
    if o.side == Buy then o.size else -o.size
  }

  /** PositionInfo: the two signed venue positions; the net position is derived. */
  datatype Positions = Positions(paradex: real, lighter: real)
  {
    function Net(): real
    {
      paradex + lighter
    }
  }

  /** FillStatus: which legs of an opening pair were observed as filled. */
  datatype FillStatus = FillStatus(bothFilled: bool, paradexFilled: bool, lighterFilled: bool)
}
