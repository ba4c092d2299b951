/** Option: the model's stand-in for JavaScript's `null` / `undefined`. */
module Wrappers {
  datatype Option<+T> = None | Some(value: T)
}

/**
 * Outcomes of calls to the REST API. No request is performed by the model:
 * what an awaited axios call yields is an input of the operation that issued it.
 */
module Http {
  import opened Wrappers

  /** The body of a successful response, or a thrown error whose `response.data.message` may be absent. */
  datatype Reply<+T> = Ok(value: T) | Err(message: Option<string>)

  /** A paged listing: one page of items and the server's `pagination.hasMore`. */
  datatype Page<+T> = Page(items: seq<T>, hasMore: bool)

  /**
   * `error.response?.data?.message || fallback`: the server's message is
   * preferred, but a missing or empty one (an empty string is falsy) gives the fallback.
   */
  function ErrorText(message: Option<string>, fallback: string): (text: string)
    ensures message.Some? && message.value != "" ==> text == message.value
    ensures message.None? || message.value == "" ==> text == fallback
    ensures fallback != "" ==> text != ""
  {
    if message.Some? && message.value != "" then message.value else fallback
  }
}
