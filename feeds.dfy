// The decoded feed the report is rendered from: the fields of the GeoJSON
// summary feed that the renderer reads, in the shape the decoder yields.
module Feeds {

  datatype Option<T> = None | Some(value: T)

  /** A JSON number as the decoder yields it: an int when the feed writes it
      without a fraction or exponent (`10`), a float otherwise (`10.0`).
      The two print differently. */
  datatype Num = IntNum(i: int) | FloatNum(r: real)

  /** The number a Num stands for, which the sign tests compare. */
  function Value(x: Num): real {
    match x
    case IntNum(i) => i as real
    case FloatNum(r) => r
  }

  /** One earthquake: `properties` (alert, mag, place, time, felt) and
      `geometry` (type, coordinates as longitude, latitude, depth). JSON
      null is None; floats are exact reals. */
  datatype Event = Event(
    alert: Option<string>,
    mag: Num,
    place: string,
    time: int,              // epoch milliseconds
    geometryType: string,
    longitude: Num,
    latitude: Num,
    depth: Num,             // kilometres
    felt: Option<int>)

  /** A feed: `metadata.generated` (epoch milliseconds) and `features` in
      the order received. */
  datatype Feed = Feed(generated: int, features: seq<Event>)
}
