/** The JSON response shapes the middleware and handlers emit. */
module Http {
  import opened Wrappers

  /** One `{ field, message }` entry of an `errors` array. */
  datatype FieldMessage = FieldMessage(field: string, message: string)

  /**
   * A JSON response envelope. Keys the source leaves out of an envelope are
   * `None` here.
   */
  datatype Body = Body(
    success: bool,
    message: string,
    errors: Option<seq<FieldMessage>>,
    error: Option<string>,
    stack: Option<string>,
    path: Option<string>)

  /** An HTTP status code together with the JSON body sent with it. */
  datatype Response = Response(status: int, body: Body)
}
