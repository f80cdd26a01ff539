/**
  What a handler gets back from the database and what it sends to the
  client. Database calls are outside the model: each one is an input
  `Fetch`, which either failed (the awaited promise rejected or the callback
  received an error) or delivered a value.
 */
module Http {

  datatype Fetch<+T> = FetchError | Fetched(value: T)

  /** A JSON response body: the payload, `{ error: ... }` or `{ message: ... }`. */
  datatype Body<+T> = Json(value: T) | ErrorText(error: string) | MessageText(message: string)

  datatype Reply<+T> = Reply(status: int, body: Body<T>)
}
