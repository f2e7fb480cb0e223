/** The JSON envelope every endpoint answers with, and the error codes it carries. */
module Api {

  datatype Status = Success | Failure

  /** The `body` of a response. */
  datatype Body =
    | EmptyBody
    | IdBody(id: string)
    | ResourceBody(
        id: string,
        facebookId: string,
        instagramId: string,
        twitterId: string,
        url: string,
        lineId: string,
        thumbnailUrl: string,
        markerUrl: string)

  /**
   * What the client receives: a `{header: {status, errorCode}, body}` JSON
   * document, the plain-text 404 of the read endpoint, the web framework's
   * own error response when the handler throws before any promise is set
   * up, or nothing at all (the handler is left waiting on a promise that
   * never settles).
   */
  datatype Response =
    | Json(status: Status, errorCode: int, body: Body)
    | NotFoundText
    | Unhandled
    | NoResponse

  const Ok := 0
  /** The create endpoint could not write the new record. */
  const CreateFailedCode := 101
  /** The read endpoint could not read the record. */
  const ReadFailedCode := 102
  /** An upload, or the record update after both uploads, failed. */
  const UploadFailedCode := 103
  /** One of the four upload inputs is missing or empty. */
  const MissingInputCode := 105

  function Succeeded(body: Body): Response {
    Json(Success, Ok, body)
  }

  function Failed(code: int): Response {
    Json(Failure, code, EmptyBody)
  }
}
