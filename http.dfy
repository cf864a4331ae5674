/** Responses and errors as values: what the handlers pass to `res.json`,
    `res.status(...)`, `res.end()` or `next(err)`. */
module Http {
  import opened Records

  /** The JSON body of a response. */
  datatype Payload =
    | ErrorMessage(error: string)                                      // { error }
    | OneRecord(record: Record)                                        // a product
    | PageOf(total: nat, page: int, limit: int, data: seq<Record>)     // { total, page, limit, data }
    | Tally(total: nat, counts: map<string, nat>)                      // { total, counts }
    | NoBody                                                           // res.end()

  datatype Response = Response(status: int, body: Payload)

  /** A classified application error carries its own status and message;
      anything else that is thrown is unexpected. */
  datatype Error = AppError(status: int, message: string) | Unexpected(detail: string)

  /** `new NotFoundError('Product not found')`. */
  const ProductNotFound: Error := AppError(404, "Product not found")
}
