/**
 * The error values the client revisions, the event decoder, the bridge and the template
 * generator return. The typed ones mirror api/error.go, client/error.go and error.go
 * (each carries the HTTP code its constructor fixes); the others stand for the
 * `errors.New` / `fmt.Errorf` values the Go code builds, one constructor per call site.
 */
module Errors {

  datatype Error =
    // failures of the HTTP round trip itself (`hc.Do`, `hc.PostForm`)
    | TransportFailure(reason: string)
    // checkStatusOk
    | JsonDecode                                  // "json decode: ..." (non-200 body not an envelope)
    | Authentication(message: string)             // *AuthenticationError, code 401
    | TooManyRequests(message: string)            // *TooManyRequestsError, code 401
    | NoRegisteredEventListener(message: string)  // *NoRegisteredEventListenerError, code 400
    | Plain(message: string)                      // errors.New(result.ErrorMsg)
    | Envelope(errorCode: string, message: string) // fmt.Errorf("%v", result)
    // login and listener handling
    | MissingSessionCookie                        // "JSESSIONID not found in response to /login"
    | BodyDecode                                  // a 200 body that does not decode
    | EmptyBaseURL                                // "baseURL cannot be empty"
    | BadBaseURL                                  // url.Parse failed
    // domain helpers
    | UnsupportedCommand                          // "Device does not support this command"
    | NoDeviceWithLabel                           // "No device with that label"
    | AmbiguousLabel                              // "More than one device with that label"
    // event decoding
    | EventArrayDecode                            // the top-level JSON array did not decode
    | EventObjectDecode                           // an element did not decode as an object
    | UnknownEvent(eventType: string, obj: string) // "Cannot unmarshal unknown event of type ..."
    | EventFieldsDecode                           // the element did not decode as its variant
    // knx bridge
    | InvalidData(command: string)                // "Invalid data field for <command>"
    | UnhandledCommand                            // "Unhandled command"
    | DeviceFetch(url: string, cause: Error)      // "Could not GetDevice with url ...: %w"
    // template generation (log.Fatal in the source)
    | EmptyConfigURL(deviceLabel: string)               // "Empty URL for device: ..."

  /** The text `Error()` produces for the errors of checkStatusOk whose text is fixed by the source. */
  function ErrorText(e: Error): string
  {
    match e
    case Authentication(m) => "401: " + m
    case TooManyRequests(m) => "401: " + m
    case NoRegisteredEventListener(m) => "400: " + m
    case Plain(m) => m
    case Envelope(code, m) => "{" + code + " " + m + "}"
    case _ => ""
  }
}
