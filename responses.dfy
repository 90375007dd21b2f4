/** The response envelope every backend operation resolves to. The error
    types of the service (`WebResponse`, `SuccessfulResponse`) are not part of
    this model; they are represented by the two shapes a caller can observe. */
module Responses {

  /** `WebResponse<web::Json<T>>`: a JSON payload, or an error with a status
      code and a message. */
  datatype WebResponse<+T> = Ok(payload: T) | Err(code: nat, message: string)

  /** The `HttpResponse` a write operation returns: the success
      acknowledgement built by `SuccessfulResponse::ok_response(message)`, or
      an error with a status code and a message. */
  datatype HttpResponse = OkResponse(message: string) | ErrResponse(code: nat, message: string)

  /** The acknowledgement every write of the null backend returns. */
  const OkAck: HttpResponse := OkResponse("Ok")
}
