/** What a route handler sends back: a status code and a JSON body, an
    `{ error }` body, or no body at all. An error passed on with `next(e)`
    reaches the default error handler, which answers 500 with its message. */
module Http {
  import opened Values

  datatype Body<+T> = Json(value: T) | Error(message: string) | NoContent

  datatype Response<+T> = Response(status: int, body: Body<T>)

  const Ok200: int := 200
  const Created201: int := 201
  const NoContent204: int := 204
  const BadRequest400: int := 400
  const NotFound404: int := 404
  const ServerError500: int := 500

  /** `res.json(value)`, or the 500 an error thrown by the repository turns into. */
  function JsonOrFailure<T>(r: Result<T>): (resp: Response<T>)
    ensures r.Ok? ==> resp == Response(Ok200, Json(r.value))
    ensures r.Err? ==> resp == Response(ServerError500, Error(r.message))
  {
    match r
    case Ok(v) => Response(Ok200, Json(v))
    case Err(m) => Response(ServerError500, Error(m))
  }
}
