/** Values shared by the server route and the client: the `Todo` record, the
    optional and fallible results the code passes around, and an HTTP
    response reduced to its status code and its (already decoded) body. */
module Base {

  datatype Option<+T> = None | Some(value: T)
  {
    function GetOr(default: T): T
    {
      match this
      case Some(v) => v
      case None => default
    }
  }

  datatype Result<+T, +E> = Success(value: T) | Failure(error: E)

  /** The `Todo` interface: an integer id (positive in the store, see `StoreInvariant`), a title and a completion flag. */
  datatype Todo = Todo(id: int, title: string, completed: bool)

  /** An HTTP response: its status code and its JSON body. */
  datatype Response<+B> = Response(status: int, body: B)

  /** The Fetch API's `response.ok`: the status is in the range 200-299. */
  predicate IsOk(status: int)
  {
    200 <= status <= 299
  }
}
