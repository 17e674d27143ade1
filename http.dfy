/** What a `fetch` call can come back with, as the backends inspect it. */
module Http {
  import opened Records

  /**
   * `NetworkError`: `fetch` itself rejected. `Response(status, body)`: a
   * response arrived; `body` is what `response.json()` yields, `None` when
   * it rejects.
   */
  datatype Reply<B> = NetworkError | Response(status: int, body: Option<B>) {
    /** `response.ok`. */
    predicate IsOk() {
      Response? && 200 <= status <= 299
    }
  }
}
