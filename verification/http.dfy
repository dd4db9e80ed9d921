/** HTTP exchanges as plain data. Nothing here performs I/O: an exchange is
    what one request turned out to be once the client had followed its
    redirects, either a transport failure or a final response. */
module Http {
  import opened NamedValues

  /** A response status; the HTTP library accepts the three-digit codes
      100 through 999. */
  type StatusCode = n: int | 100 <= n <= 999 witness 200

  /** Status class 2xx. */
  predicate IsSuccess(s: StatusCode) { 200 <= s <= 299 }

  /** Status class 3xx. */
  predicate IsRedirection(s: StatusCode) { 300 <= s <= 399 }

  /** The two classes the login flow treats as a normal answer. */
  predicate IsSuccessOrRedirection(s: StatusCode) { IsSuccess(s) || IsRedirection(s) }

  /** Reading a response body to its end: the text, or the failure that
      interrupted the stream. */
  datatype Body = Read(text: string) | ReadFailed(detail: string)

  /** One request's fate: it could not be sent (DNS, connect, TLS, timeout),
      or a final response arrived with its status, the cookies its
      `Set-Cookie` headers carry (in header order) and its body. */
  datatype Exchange =
    | SendFailed(detail: string)
    | Received(status: StatusCode, cookies: seq<Entry>, body: Body)

  /** The fixed portal addresses the login flow talks to. */
  datatype Endpoint =
    | HomePage          // the application's home page
    | CasLoginPage      // the CAS login page that opens a session
    | LoginSubmission   // the address the credential form is posted to

  /** A request the flow issues. */
  datatype Request =
    | Get(target: Endpoint)
    | PostForm(target: Endpoint, form: map<string, string>)

  /** Parsing a constant URL: it succeeds, or fails with a parser message. */
  datatype UrlParse = Parsed | ParseFailed(detail: string)
}
