/** The Express error middleware of backend/src/middleware/errorHandler.ts:
    an ordered classification of whatever a handler threw into one HTTP
    status and one JSON `{ message }` body. Logging is left out. */
module ErrorHandler {

  /** What a handler can throw: an `HttpError`, a multer error, any other
      `Error`, or a value that is not an `Error` at all. */
  datatype Thrown =
    | HttpError(status: int, message: string)
    | MulterError(multerMessage: string)
    | PlainError(errorMessage: string)
    | NotAnError

  /** The single response every branch sends: `res.status(s).json({ message })`. */
  datatype Response = Response(status: int, message: string)

  const ImageOnlyMessage := "Only image uploads are allowed"
  const FallbackMessage := "Internal server error"

  /** `errorHandler`, branch by branch in the source's order. An
      `HttpError` keeps its own status and message. Every other error is
      answered with 400 when it is a multer error or the image-type
      rejection, and with 500 otherwise; the message is the error's own, and
      "Internal server error" for a thrown value that is not an `Error`. */
  function Handle(err: Thrown): (r: Response)
    ensures err.HttpError? ==> r == Response(err.status, err.message)
    ensures !err.HttpError? ==> (r.status == 400 <==> err.MulterError? || err == PlainError(ImageOnlyMessage))
    ensures !err.HttpError? ==> r.status == 400 || r.status == 500
    ensures err.MulterError? ==> r.message == err.multerMessage
    ensures err.PlainError? ==> r.message == err.errorMessage
    ensures err == NotAnError ==> r == Response(500, FallbackMessage)
  {
    match err
    case HttpError(status, message) => Response(status, message)
    case MulterError(message) => Response(400, message)
    case PlainError(message) =>
      if message == ImageOnlyMessage then Response(400, message) else Response(500, message)
    case NotAnError => Response(500, FallbackMessage)
  }

  /** An `HttpError` is looked at first: even one whose message is the
      image-type rejection keeps its own status. */
  lemma HttpErrorFirst(status: int)
    ensures Handle(HttpError(status, ImageOnlyMessage)).status == status
  {
  }
}
