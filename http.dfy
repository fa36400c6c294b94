/** What the components exchange with the backend, with the transport itself left out:
    every request is recorded, and its result is supplied as an `Outcome`. */
module Http {
  import opened Wrappers
  import opened JsValue

  /** An HTTP response: its status code and its decoded body (`response.data`). */
  datatype Response = Response(status: int, data: Json)

  /** A rejected request, or an error the component throws itself: the response if one
      arrived, whether the client aborted it (`code === "ECONNABORTED"`, a timeout), and
      the error's `message`. */
  datatype HttpError = HttpError(response: Option<Response>, aborted: bool, message: string)

  /** How one request ended: it resolved with a response, or it was rejected. */
  datatype Outcome = Resolved(response: Response) | Rejected(error: HttpError)

  /** `new Error(message)` thrown by the component: no response, no error code. */
  function Thrown(message: string): HttpError {
    HttpError(None, false, message)
  }

  /** `err.response?.status === code`. */
  predicate HasStatus(e: HttpError, code: int) {
    e.response.Some? && e.response.value.status == code
  }

  /** `err.response?.status`. */
  function StatusOf(e: HttpError): Option<int> {
    if e.response.Some? then Some(e.response.value.status) else None
  }

  /** `err.response?.data`: `undefined` when no response arrived. */
  function DataOf(e: HttpError): Json {
    if e.response.Some? then e.response.value.data else JUndefined
  }

  /** A file chosen in a file input: its name, MIME type and size in bytes. */
  datatype File = File(name: string, mimeType: string, size: nat)

  /** The content of a multipart file part: the chosen file, or an empty
      `application/octet-stream` blob sent under a placeholder file name. */
  datatype Upload = Chosen(file: File) | Placeholder(filename: string)

  /** One part of a `FormData` body. */
  datatype Part = TextPart(name: string, value: string) | FilePart(name: string, upload: Upload)

  datatype Body = NoBody | JsonBody(json: Json) | FormBody(parts: seq<Part>)

  datatype Verb = Get | Post

  datatype Request = Request(verb: Verb, url: string, body: Body)
}
