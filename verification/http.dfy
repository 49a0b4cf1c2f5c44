/** What a callback handler sends back through `res.status(...).json(...)`, and what it asks of the storefront. */
module Http {
  import opened Wrappers
  import opened Storefront

  /** An HTTP status and a JSON body; `res.json` alone answers with status 200. */
  datatype Response<B> = Response(status: int, body: B)

  /** The `{success: true, message?}` / `{success: false, error}` bodies of the Express and Jenga handlers. */
  datatype Body = Success(message: string) | SuccessNoMessage | Failure(error: string)

  /** A handler either answers, or throws out of itself (its promise rejects). */
  datatype Outcome = Replied(response: Response<Body>) | Threw(message: string)

  /** A handler's outcome together with the storefront update it requested, if any (requested even when that update then fails). */
  datatype Handled = Handled(outcome: Outcome, update: Option<OrderUpdate>)

  const OK := 200
  const BadRequest := 400
  const InternalServerError := 500
}
