/**
 * `GlobalExceptionHandler`: each of the four exception classes becomes a response
 * with a fixed status and the exception's message as the body.
 */
module GlobalExceptionHandler {

  import opened Errors

  datatype HttpStatus = BadRequest | ServiceUnavailable

  /** The numeric status code. */
  function Code(s: HttpStatus): int
  {
    match s
    case BadRequest => 400
    case ServiceUnavailable => 503
  }

  /** `ResponseEntity<String>`: a status and a text body. */
  datatype ResponseEntity = ResponseEntity(status: HttpStatus, body: string)

  /**
   * The four handlers: the three validation failures are `400 Bad Request`, a failed
   * upstream call is `503 Service Unavailable`; the body is always the message.
   */
  function Handle(e: ApiError): (r: ResponseEntity)
    ensures r.body == e.message
    ensures Code(r.status) == 503 <==> e.ApiCall?
    ensures Code(r.status) == 400 <==> !e.ApiCall?
  {
    match e
    case InvalidDate(message) => ResponseEntity(BadRequest, message)
    case InvalidBaseCurrency(message) => ResponseEntity(BadRequest, message)
    case InvalidAmount(message) => ResponseEntity(BadRequest, message)
    case ApiCall(message) => ResponseEntity(ServiceUnavailable, message)
  }

  /** Two errors get the same response exactly when they are of the same status class and carry the same message. */
  lemma HandleForgetsKind(e1: ApiError, e2: ApiError)
    ensures Handle(e1) == Handle(e2) <==> e1.message == e2.message && e1.ApiCall? == e2.ApiCall?
  {
  }
}
