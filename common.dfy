/**
 Values shared by the weather server and the browser client: optional
 values, results with an HTTP status, the truthiness test both programs
 apply to coordinates, and the location records exchanged between them.
 */
module Common {

  datatype Option<+T> = None | Some(value: T) {
    function GetOr(default: T): T
    {
      match this
      case Some(v) => v
      case None => default
    }
  }

  /** An error answer carries the HTTP status and the `error` message. */
  datatype Result<+T> = Ok(value: T) | Err(status: int, message: string)

  /**
   Python's `latitude and longitude` and JavaScript's `lat && lon` both
   treat a missing coordinate and a coordinate of exactly 0 alike.
   */
  predicate IsTruthy(x: Option<real>)
  {
    x.Some? && x.value != 0.0
  }

  /** A string parameter is truthy when present and non-empty. */
  predicate IsNonEmpty(s: Option<string>)
  {
    s.Some? && s.value != ""
  }

  /** The fallback place of both programs (Lahore). */
  const DefaultLatitude: real := 31.525309
  const DefaultLongitude: real := 74.299928

  /** One autocomplete suggestion, as the server shapes it and the client keeps it. */
  datatype Location = Location(
    name: string,
    country: string,
    latitude: real,
    longitude: real,
    display: string)

  function Min(a: int, b: int): int
  {
    if a <= b then a else b
  }

  /** JavaScript's `Math.round`: the nearest integer, halves rounded up. */
  function RoundHalfUp(x: real): (r: int)
    ensures r as real <= x + 0.5 < r as real + 1.0
  {
    (x + 0.5).Floor
  }

  lemma RoundHalfUpMonotone(x: real, y: real)
    requires x <= y
    ensures RoundHalfUp(x) <= RoundHalfUp(y)
  {
  }
}
