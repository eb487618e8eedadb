/** The backend as the pages see it: every `fetch` round trip ends in one of three
    outcomes. `Ok` carries the parsed JSON body of a 2xx response, `NotOk` the parsed
    JSON body of any other status (an empty object when the page does not read it),
    `Thrown` the message of the error the request (or reading its body) rejected with. */
module Http {
  import opened JsObjects

  const ApiBaseUrl: string := "http://localhost:5000/api"

  /** The banner a page shows when it finds no token to send. */
  const NoTokenError: string := "Authentication token not found. Please login again."

  datatype Reply<T> = Ok(body: T) | NotOk(errorBody: JsObject) | Thrown(message: string)
}
