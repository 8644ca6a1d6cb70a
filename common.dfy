/** Shared value types of the ProPortal model: optional values, HTTP replies,
    captured GPS points and quantity results. */
module Common {

  /** A JavaScript value that may be `null`/`undefined`. */
  datatype Option<+T> = None | Some(value: T) {
    function GetOr(default: T): T {
      match this
      case Some(v) => v
      case None => default
    }
  }

  /** What a serverless handler returns: a success status with a payload,
      or an error status with the `error` message of the JSON body. */
  datatype Reply<+T> = Ok(status: int, value: T) | Error(status: int, message: string)

  /** JavaScript truthiness of an optional string: present and non-empty. */
  predicate Truthy(s: Option<string>) {
    s.Some? && s.value != ""
  }

  /** `a || b` on strings: the first one when it is non-empty. */
  function OrElse(a: string, b: string): (r: string)
    ensures r == a || r == b
    ensures r == "" ==> a == "" && b == ""
  {
    if a != "" then a else b
  }

  /** A location sample kept as a vertex: latitude, longitude, horizontal
      accuracy in meters and the fix's timestamp in epoch milliseconds. */
  datatype GeoPoint = GeoPoint(lat: real, lng: real, accuracy: real, timestamp: int)

  /** A volume estimate: cubic yards and tons. */
  datatype Qty = Qty(cubicYards: real, tons: real)
}
