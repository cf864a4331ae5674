/** The fallback route handler and the single error boundary. */
module ErrorHandler {
  import opened Wrappers
  import opened Http

  /** `notFoundHandler`: any unmatched route. */
  function NotFoundHandler(): (r: Response)
    ensures r.status == 404 && r.body == ErrorMessage("Route not found")
  {
    Response(404, ErrorMessage("Route not found"))
  }

  /** `errorHandler`: an application error is surfaced with its own status
      and message; anything else becomes a fixed 500. */
  function HandleError(e: Error): (r: Response)
    ensures e.AppError? ==> r.status == e.status && r.body == ErrorMessage(e.message)
    ensures e.Unexpected? ==> r.status == 500 && r.body == ErrorMessage("Internal Server Error")
  {
    if e.AppError? then Response(e.status, ErrorMessage(e.message))
    else Response(500, ErrorMessage("Internal Server Error"))
  }

  /** What the client receives from a handler: its own response, or the
      error handler's response to what it passed to `next`. */
  function Settle(outcome: Result<Response, Error>): (r: Response)
    ensures outcome.Ok? ==> r == outcome.value
    ensures outcome.Err? ==> r == HandleError(outcome.error)
  {
    match outcome
    case Ok(resp) => resp
    case Err(e) => HandleError(e)
  }

  /** What reaches the client once the error boundary has run: a 500
      exactly when the handler answered 500 itself, threw something that is
      not an application error, or threw an application error whose status
      is 500; an application error's status and message arrive unchanged;
      and nothing of an unexpected error's detail arrives. */
  lemma ClientStatus(outcome: Result<Response, Error>, other: string)
    ensures Settle(outcome).status == 500 <==>
      || (outcome.Ok? && outcome.value.status == 500)
      || (outcome.Err? && outcome.error.Unexpected?)
      || (outcome.Err? && outcome.error.AppError? && outcome.error.status == 500)
    ensures outcome.Err? && outcome.error.AppError? ==>
      Settle(outcome) == Response(outcome.error.status, ErrorMessage(outcome.error.message))
    ensures outcome.Err? && outcome.error.Unexpected? ==>
      Settle(outcome) == Settle(Err(Unexpected(other)))
  {
  }

  /** The detail of an unexpected error never reaches the client: any two
      such errors get the same response, and it is never an application
      error's message. */
  lemma UnexpectedIsOpaque(d1: string, d2: string, e: Error)
    requires e.AppError? && e.status != 500
    ensures HandleError(Unexpected(d1)) == HandleError(Unexpected(d2))
    ensures HandleError(Unexpected(d1)) != HandleError(e)
  {
  }

  /** The not-found error of the product handlers reaches the client as 404
      with its message. */
  lemma ProductNotFoundResponse()
    ensures Settle(Err(ProductNotFound)) == Response(404, ErrorMessage("Product not found"))
  {
  }
}
