/** What the relay and the client share about HTTP. */
module Http {
  /** The media type both sides write and look for. */
  const JsonType: string := "application/json"

  /** `response.ok`: a status in the 2xx range. */
  predicate IsOk(status: int) {
    200 <= status <= 299
  }
}
