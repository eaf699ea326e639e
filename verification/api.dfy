/**
 * What the pages see of the HTTP API: a request either resolves with a body
 * or is rejected, possibly carrying a `message` in the error response body.
 * The network itself is not modelled; every outcome is an input.
 */
module Api {

  datatype Option<T> = None | Some(value: T)

  /** The settled result of one awaited `api.*` call. */
  datatype Outcome<T> = Resolved(data: T) | Rejected(serverMessage: Option<string>)

  /**
   * `err.response?.data?.message || fallback`: the server's message when it
   * sent a non-empty one (the empty string is falsy), the fallback otherwise.
   */
  function MessageOr(serverMessage: Option<string>, fallback: string): (m: string)
    ensures serverMessage.Some? && serverMessage.value != "" ==> m == serverMessage.value
    ensures serverMessage.None? || serverMessage.value == "" ==> m == fallback
    ensures fallback != "" ==> m != ""
  {
    match serverMessage
    case Some(msg) => if msg != "" then msg else fallback
    case None => fallback
  }
}

/** The GeoJSON geometry the server stores for places (RFC 7946, section 3.1.2, Point). */
module GeoJson {

  /** `{ type, coordinates }`; section 3.1.1 of RFC 7946 puts longitude first. */
  datatype Geometry = Geometry(kind: string, coordinates: seq<real>)

  const PointKind := "Point"
}

/** What the pages receive from the browser's file picker. */
module Browser {
  /** A picked file; its bytes are never looked at by the modelled code. */
  datatype ImageFile = ImageFile(name: string, size: nat)
}
