/** Value types shared by the search cache, the job store and the routes. */
module Common {

  /** JavaScript's `null`/`undefined` next to a present value. */
  datatype Option<+T> = None | Some(value: T)

  /** A call that either returns a value or throws an `Error` with a message. */
  datatype Result<+T, +E> = Success(value: T) | Failure(error: E)

  /** A YouTube search hit as `searchVideo` builds it: id, title, channel and thumbnail url. */
  datatype VideoMatch = VideoMatch(id: string, title: string, channel: string, thumbnail: Option<string>)

  /** JavaScript truthiness of an optional string: present and not empty. */
  predicate Truthy(s: Option<string>) {
    s.Some? && s.value != ""
  }
}
