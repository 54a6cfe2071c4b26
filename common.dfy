/** Values shared by every pipeline stage: optional values, the answers of
    foreign calls, the errors a stage returns, and the process environment. */
module Common {

  datatype Option<+T> = None | Some(value: T)

  /** What a foreign call (an AWS service, an HTTP round trip, a JSON
      decoder) answers: a value, or an error whose text is only passed on. */
  datatype Reply<+T> = Done(value: T) | Failed(cause: string)

  /** Where in a handler an error was raised; the source wraps or returns
      the foreign error at each of these points. */
  datatype Step =
    | DetectSentiment
    | DetectKeyPhrases
    | SendRequest
    | ReadBody
    | Unmarshal
    | Download
    | LoadAwsConfig
    | InvokeModel
    | PutObject
    | PostToConnection

  /** The errors a handler returns. */
  datatype Error =
    | MissingConfig(variable: string)   // an environment variable is unset or empty
    | CallFailed(step: Step, cause: string)
    | BadStatus(step: Step, status: int)  // an HTTP status other than 200
    | NoData                            // the generation response lists no image
    | BadBase64                         // the image is not valid standard base64
    | IndexOutOfRange                   // a runtime panic: element 0 of an empty list

  datatype Result<+T> = Ok(value: T) | Err(error: Error)

  /** A byte of an HTTP body or an image. */
  type Byte = b: int | 0 <= b < 256

  /** A Lambda function's environment variables. */
  type Env = map<string, string>

  /** `os.Getenv`: the empty string when the variable is not set. */
  function Getenv(env: Env, name: string): string
  {
    if name in env then env[name] else ""
  }

  /** The HTTP status the source compares against (`http.StatusOK`). */
  const StatusOK: int := 200

  /** The answer of an HTTP round trip: a transport error, or a status with
      the result of reading the whole body (`io.ReadAll`). */
  datatype HttpReply =
    | TransportError(cause: string)
    | Response(status: int, body: Reply<seq<Byte>>)
}
