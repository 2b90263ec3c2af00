/**
 * The HTTP responses the Express controllers send: a status code and a JSON
 * body that is either `{ error, message }` or `{ success: true, data, ... }`.
 * The data type is a parameter, so that each controller keeps the value its
 * service returned.
 */
module Responses {
  import opened Wrappers

  datatype Body<D> =
    | Failed(error: string, message: string)
    | Succeeded(data: D, note: Option<string>, count: Option<nat>)

  datatype Response<D> = Response(status: nat, body: Body<D>)

  const OK := 200
  const CREATED := 201
  const BAD_REQUEST := 400
  const NOT_FOUND := 404
  const INTERNAL_ERROR := 500

  function BadRequest<D>(message: string): Response<D> {
    Response(BAD_REQUEST, Failed("Bad Request", message))
  }

  function NotFound<D>(message: string): Response<D> {
    Response(NOT_FOUND, Failed("Not Found", message))
  }

  function InternalError<D>(message: string): Response<D> {
    Response(INTERNAL_ERROR, Failed("Internal Server Error", message))
  }

  /** `res.status(201).json({ success: true, data, message })`. */
  function Created<D>(data: D, message: string): Response<D> {
    Response(CREATED, Succeeded(data, Some(message), None))
  }

  /** `res.json({ success: true, data })`: status 200. */
  function Ok<D>(data: D): Response<D> {
    Response(OK, Succeeded(data, None, None))
  }

  /**
   * The relationship endpoints: a service error is a 500 carrying its message, a null
   * result is a 404 with `notFound`, anything else is returned as data.
   */
  function RelationshipsResponse<T>(outcome: Result<Option<T>, string>, notFound: string): (r: Response<T>)
    ensures r.status == NOT_FOUND <==> outcome == Success(None)
    ensures r.status == NOT_FOUND ==> r.body == Failed("Not Found", notFound)
    ensures r.status == OK <==> outcome.Success? && outcome.value.Some?
    ensures r.status == OK ==> r.body.Succeeded? && r.body.data == outcome.value.value
    ensures r.status == INTERNAL_ERROR <==> outcome.Failure?
    ensures outcome.Failure? ==> r.body.Failed? && r.body.message == outcome.error
  {
    match outcome
    case Failure(m) => InternalError(m)
    case Success(None) => NotFound(notFound)
    case Success(Some(v)) => Ok(v)
  }

  /**
   * The list endpoints (`getAllUsers`, `getAllTransactions`, `getTransactionsByUser`):
   * `{ success: true, data, count: data.length }`, or a 500 on a service error.
   */
  function ListResponse<T>(outcome: Result<seq<T>, string>): (r: Response<seq<T>>)
    ensures outcome.Success? <==> r.status == OK
    ensures outcome.Success? ==> r.body.Succeeded? && r.body.data == outcome.value
    ensures r.body.Succeeded? ==> r.body.count == Some(|r.body.data|)
    ensures outcome.Failure? ==> r == InternalError(outcome.error)
  {
    match outcome
    case Success(items) => Response(OK, Succeeded(items, None, Some(|items|)))
    case Failure(m) => InternalError(m)
  }
}
