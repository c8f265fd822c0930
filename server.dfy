/** How a request to the REST server ended, as the pages see it. */
module Server {
  import opened Optional

  /**
   * `Ok` carries the response data; `Failed` carries `err.response?.data?.message`,
   * absent when the server sent none (or the request never reached it).
   */
  datatype Reply<+T> = Ok(data: T) | Failed(message: Option<string>)
}
