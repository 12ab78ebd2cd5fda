/** Small failure-carrying datatypes shared by the cart and catalog modules. */
module Wrappers {

  /** Stands for a value that may be absent: a missing product lookup,
      a `null` token read from local storage. */
  datatype Option<+T> = None | Some(value: T)

  /** How one network call settled: a 2xx response and its body, an HTTP
      error response carrying the backend's `message`, or no response at
      all (the backend is unreachable or returned something unreadable). */
  datatype Outcome<+T> = Success(data: T) | ResponseError(message: string) | TransportError
}
