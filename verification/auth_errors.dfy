/** The closed taxonomy of authentication failures and its translation into
    gRPC statuses (src/auth/errors.rs). Variants that wrap a library error
    carry that error's display text as `detail`. */
module AuthErrors {
  import opened Rpc

  datatype AuthError =
    | CookieJarCreationFailed
    | URLParseFailed(detail: string)
    | RequestFailed(detail: string)
    | FailedToCloseRequestBody
    | FailedToCloseResponseBody
    | LoginFailed
    | AuthCookieNotFound
    | InvalidAuthResponse
    | NetworkTimeout
    | InternalError(reason: string)

  /** The variants that wrap a free-form text. */
  predicate WrapsText(e: AuthError)
  {
    e.URLParseFailed? || e.RequestFailed? || e.InternalError?
  }

  /** The text such a variant wraps. */
  function WrappedText(e: AuthError): string
    requires WrapsText(e)
  {
    match e
    case URLParseFailed(d) => d
    case RequestFailed(d) => d
    case InternalError(s) => s
  }

  /** The human-readable message of each variant. Every message is
      non-empty, and a wrapped text comes last, after a fixed lead-in. */
  function Display(e: AuthError): (m: string)
    ensures |m| > 0
    ensures WrapsText(e) ==>
      |WrappedText(e)| < |m| && m[|m| - |WrappedText(e)|..] == WrappedText(e)
  {
    match e
    case CookieJarCreationFailed => "Failed to create cookie jar"
    case URLParseFailed(d) => "Failed to parse URL: " + d
    case RequestFailed(d) => "HTTP request failed: " + d
    case FailedToCloseRequestBody => "Failed to close request body"
    case FailedToCloseResponseBody => "Failed to close response body"
    // Written in two pieces: the verifier does not look inside a string
    // literal this long, but it does see through a concatenation.
    case LoginFailed => "Login failed: " + "Invalid credentials or authentication token not found"
    case AuthCookieNotFound => "Authentication cookie not found"
    case InvalidAuthResponse => "Invalid response from authentication server"
    case NetworkTimeout => "Network timeout"
    case InternalError(s) => "Internal server error: " + s
  }

  /** No other error shares the message of a URL parse failure. */
  lemma URLParseMessageUnique(d: string, b: AuthError)
    requires Display(URLParseFailed(d)) == Display(b)
    ensures b == URLParseFailed(d)
  {
    var m := Display(URLParseFailed(d));
    assert m[..21] == "Failed to parse URL: ";
    assert m[0] == 'F' && m[10] == 'p';
    match b {
      case URLParseFailed(e) => assert m[21..] == e;
      case _ =>
    }
  }

  /** No other error shares the message of a request failure. */
  lemma RequestMessageUnique(d: string, b: AuthError)
    requires Display(RequestFailed(d)) == Display(b)
    ensures b == RequestFailed(d)
  {
    var m := Display(RequestFailed(d));
    assert m[..21] == "HTTP request failed: ";
    assert m[0] == 'H';
    match b {
      case RequestFailed(e) => assert m[21..] == e;
      case _ =>
    }
  }

  /** No other error shares the message of an internal error. */
  lemma InternalMessageUnique(r: string, b: AuthError)
    requires Display(InternalError(r)) == Display(b)
    ensures b == InternalError(r)
  {
    var m := Display(InternalError(r));
    assert m[..23] == "Internal server error: ";
    assert m[0] == 'I' && m[2] == 't';
    match b {
      case InternalError(e) => assert m[23..] == e;
      case _ =>
    }
  }

  /** Distinct errors have distinct messages, so a status message names its
      variant and its wrapped text unambiguously. */
  lemma DisplayInjective(a: AuthError, b: AuthError)
    requires Display(a) == Display(b)
    ensures a == b
  {
    match a
    case URLParseFailed(d) => URLParseMessageUnique(d, b);
    case RequestFailed(d) => RequestMessageUnique(d, b);
    case InternalError(r) => InternalMessageUnique(r, b);
    case _ =>
      match b {
        case URLParseFailed(d) => URLParseMessageUnique(d, a);
        case RequestFailed(d) => RequestMessageUnique(d, a);
        case InternalError(r) => InternalMessageUnique(r, a);
        case _ =>
      }
  }

  /** The gRPC status an error is reported as. The message is always the
      error's display text; the code partitions the variants into five
      classes, and no other code is ever produced. */
  function ToStatus(e: AuthError): (s: Status)
    ensures s.message == Display(e)
    ensures s.code == Unauthenticated <==> e.LoginFailed? || e.AuthCookieNotFound?
    ensures s.code == InvalidArgument <==> e.URLParseFailed? || e.InvalidAuthResponse?
    ensures s.code == DeadlineExceeded <==> e.NetworkTimeout?
    ensures s.code == Unavailable <==> e.RequestFailed?
    ensures s.code == Internal <==>
      || e.CookieJarCreationFailed? || e.FailedToCloseRequestBody?
      || e.FailedToCloseResponseBody? || e.InternalError?
    ensures s.code in {Unauthenticated, InvalidArgument, DeadlineExceeded, Unavailable, Internal}
  {
    match e
    case LoginFailed | AuthCookieNotFound => Status(Unauthenticated, Display(e))
    case URLParseFailed(_) | InvalidAuthResponse => Status(InvalidArgument, Display(e))
    case NetworkTimeout => Status(DeadlineExceeded, Display(e))
    case RequestFailed(_) => Status(Unavailable, Display(e))
    case _ => Status(Internal, Display(e))
  }
}
