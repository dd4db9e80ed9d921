# CAS login service — a Dafny model

This project models the decision logic of a small gRPC service that logs a
user into a university portal's CAS (Central Authentication Service) and
returns the portal's session token. The service has four parts:

- **Login flow.** It sends a bootstrap GET of the CAS login page, then POSTs
  the credential form, then GETs the application's home page. The token is
  the value of the first `MOD_AUTH_CAS` cookie that the home page sets.
- **Error taxonomy.** A closed set of authentication errors, each mapped to
  one gRPC status.
- **Bearer-token gate.** It compares the `authorization` metadata of a call
  with `"Bearer " + secret`, where the secret is configured for the whole
  process.
- **Remote login procedure.** It validates the request, runs the flow and
  turns the flow's answer into a reply or a status.

The model does no I/O. Each HTTP exchange is an input value: a send failure,
or a final response with a status, its `Set-Cookie` cookies in order, and a
body that was either read or failed while reading. The flow is a pure
function of these exchanges and the credentials. The flow's visible effects
are recorded as a trace: the requests it issues, and the warning it logs for
an unexpected bootstrap status. A statement that a step "does not run"
therefore means two things. Its request is not in the trace, and the result
does not depend on that step's exchange.

Modules, one per source file plus shared vocabulary:

| module | file | role |
|---|---|---|
| `Outcomes` | outcomes.dfy | `Option`, `Result` |
| `Text` | text.dfy | substring test used for the failure markers |
| `NamedValues` | named_values.dfy | ordered name/value lists with first-match lookup (cookies, metadata) |
| `Http` | http.dfy | status classes, exchanges, endpoints, requests |
| `Rpc` | rpc.dfy | gRPC codes and statuses |
| `AuthErrors` | auth_errors.dfy | `src/auth/errors.rs` |
| `AuthService` | auth_service.dfy | `src/auth/service.rs` |
| `Middleware` | middleware.dfy | `src/middleware.rs` |
| `AuthGrpc` | auth_grpc.dfy | `src/auth/grpc.rs` |
| `Server` | server.dfy | service wiring in `src/main.rs` |

Facts about the code that the model keeps:

- Only the echo service is gated (`src/main.rs:45-46`). The login procedure
  is served without the gate.
- The session cookie is not the only success signal. Rejection texts in the
  POST body, or a POST status outside 2xx/3xx, end the login with
  `LoginFailed` before any cookie is looked at (`src/auth/service.rs:195-203`).
- Transport errors are not tagged with the step that raised them. Each one
  becomes `RequestFailed` carrying the HTTP library's message
  (`src/auth/service.rs:106`, `:127`, `:163`, `:185`, `:220`).
- An unparsable home-page URL is reported as invalid-argument
  (`src/auth/errors.rs:50-52`).

## Model

| member | source | states |
|---|---|---|
| Text.ContainsIsSubstring | src/auth/service.rs:195 | the marker test holds exactly when the marker occurs at some position of the body (empty pattern always occurs) |
| NamedValues.IndexOfName | src/auth/service.rs:224-228 | the scan returns the position of the first cookie with the wanted name, and nothing only when no cookie has that name |
| NamedValues.Lookup | src/middleware.rs:32-35 | lookup yields a value exactly when some entry has the name, and then it is the value of the first such entry |
| AuthErrors.Display | src/auth/errors.rs:12-40 | every variant's message is non-empty, and a variant wrapping a text (URL parse error, request error, internal reason) ends its message with exactly that text |
| AuthErrors.DisplayInjective | src/auth/errors.rs:12-40 | distinct errors have distinct messages, so the message determines the variant and its wrapped text |
| AuthErrors.ToStatus | src/auth/errors.rs:44-58 | the message is the error's display text; Unauthenticated exactly for LoginFailed/AuthCookieNotFound, InvalidArgument exactly for URLParseFailed/InvalidAuthResponse, DeadlineExceeded exactly for NetworkTimeout, Unavailable exactly for RequestFailed, Internal exactly for the other four variants; no other code occurs |
| AuthService.FormData | src/auth/service.rs:72-80 | the form has exactly the keys username, password, execution, _eventId, geolocation, with the given credentials and the constants "e1s1", "submit", "" |
| AuthService.FormDataInjective | src/auth/service.rs:253-260 | the form determines the username and password it was built from |
| AuthService.FailureMarkerIsSubstring | src/auth/service.rs:195 | the marker check holds exactly when "Login failed" or "Invalid credentials" occurs in the body |
| AuthService.PerformAuthentication | src/auth/service.rs:86-207 | succeeds iff both exchanges were sent and read, the POST body has no marker, and the POST status is 2xx/3xx; an unsent or unread bootstrap gives RequestFailed and no POST; an unsent or unread POST gives RequestFailed; any other rejection gives LoginFailed; the trace is exactly: the CAS-page GET, then a warning carrying the bootstrap's own status when it is outside 2xx/3xx, then one POST of the form when the bootstrap completed |
| AuthService.ExtractAuthToken | src/auth/service.rs:210-232 | an unparsable URL gives URLParseFailed and issues nothing; otherwise exactly the home-page GET is issued; a send failure gives RequestFailed; success iff a MOD_AUTH_CAS cookie is present, with the first one's value; AuthCookieNotFound exactly when the response has none |
| AuthService.Login | src/auth/service.rs:49-68 | succeeds iff authentication is accepted and the home page sets MOD_AUTH_CAS; the returned username and password are the inputs; the token is the first such cookie's value; the home page is fetched iff authentication succeeded and the URL parsed; only RequestFailed, LoginFailed, URLParseFailed or AuthCookieNotFound can result |
| AuthService.BootstrapFailureStopsLogin | src/auth/service.rs:99-128 | a bootstrap that fails to send or read yields RequestFailed, posts nothing, fetches no home page, and later exchanges cannot change the outcome |
| AuthService.BootstrapStatusOnlyWarns | src/auth/service.rs:119-121 | the bootstrap status never changes the login's result; one outside 2xx/3xx is logged as unexpected |
| AuthService.FailureMarkerMeansLoginFailed | src/auth/service.rs:195-198 | a marker in the POST body yields LoginFailed whatever the status |
| AuthService.BadSubmissionStatusMeansLoginFailed | src/auth/service.rs:200-203 | a read POST answered outside 2xx/3xx yields LoginFailed |
| AuthService.EarlyCookiesIgnored | src/auth/service.rs:223-228 | cookies on the bootstrap or POST responses do not affect the login |
| AuthService.ExtractionFollowsAuthentication | src/auth/service.rs:58-67 | a failed authentication is the login's result and its trace; after success the login's outcome is extraction's, with the credentials attached |
| AuthService.PostCarriesCredentials | src/auth/service.rs:145-150 | any posted form is the form built from the caller's credentials |
| AuthService.HomeBodyIgnored | src/auth/service.rs:218-228 | the home page's body never affects extraction |
| AuthService.AcceptedLoginReturnsToken | src/auth/service.rs:58-67 | an accepted authentication followed by a home page whose first cookie is MOD_AUTH_CAS yields that token with the credentials |
| AuthService.RedirectingPortalScenario | src/auth/service.rs:49-68 | bootstrap 302, POST 302 without markers, home page setting MOD_AUTH_CAS=abc123: login("alice","secret") returns ("abc123","alice","secret") |
| AuthService.RejectedWithSuccessStatusScenario | src/auth/service.rs:195-198 | a 200 POST whose body contains "Invalid credentials" is LoginFailed even though the home page sets the cookie |
| AuthService.CookieOnlyOnBootstrapScenario | src/auth/service.rs:224-231 | a MOD_AUTH_CAS cookie seen only on the bootstrap gives AuthCookieNotFound |
| Middleware.ExpectedToken | src/middleware.rs:30 | the expected value is "Bearer " followed by exactly the secret |
| Middleware.UnaryEcho | src/middleware.rs:15-18 | the echo response carries exactly the request's message |
| Middleware.CheckAuth | src/middleware.rs:21-36 | no secret gives Internal "Server misconfiguration: missing auth token"; the call passes, unchanged, iff its first authorization entry equals "Bearer " + secret; otherwise Unauthenticated "No valid auth token" |
| Middleware.MissingSecretIgnoresMetadata | src/middleware.rs:22-28 | without a secret every call gets the same Internal error, whatever its metadata |
| Middleware.OnlyAuthorizationMatters | src/middleware.rs:32-35 | calls with the same authorization value get the same decision |
| Middleware.GateTable | src/middleware.rs:21-36 | secret "x": "Bearer x" passes; "Bearer y" and a missing header are Unauthenticated; an unset secret is Internal |
| AuthGrpc.Login | src/auth/grpc.rs:52-93 | empty username gives InvalidArgument "Username cannot be empty" (checked first); else empty password gives InvalidArgument "Password cannot be empty"; else the flow runs on the request's credentials, its session becomes token/username/password of the response, and its error becomes the error's status |
| AuthGrpc.EmptyFieldSkipsBackend | src/auth/grpc.rs:61-69 | with an empty field the reply is the same for every backend, and it is InvalidArgument |
| AuthGrpc.BackendSeesRequestCredentials | src/auth/grpc.rs:72-75 | with both fields set, the reply depends on the backend only through its answer for the request's own credentials |
| AuthGrpc.ValidationExamples | src/auth/grpc.rs:107-136 | ("", "password") and ("username", "") are InvalidArgument; ("", "") reports the username |
| AuthGrpc.PortalLoginReplies | src/auth/grpc.rs:72-91 | over the real flow, a success echoes the request's username and password, and a failure is InvalidArgument, Unauthenticated or Unavailable |
| AuthGrpc.RedirectingPortalReply | src/auth/grpc.rs:77-86 | the end-to-end redirecting-portal scenario answers with token abc123 and alice's credentials |
| Server.Serve | src/main.rs:45-46 | a login call gets the login handler's reply; an echo call succeeds iff the gate authorizes it, and then echoes its message |
| Server.LoginIsNotGated | src/main.rs:45 | a login call's reply does not depend on the secret or the call's metadata |
| Server.EchoIsGated | src/main.rs:46 | an echo call the gate rejects gets exactly the gate's status |

## Left out

- HTTP client configuration (`src/http/client.rs`): connection pools, timeouts, compression, the redirect limit, default headers. It is configuration, not logic. An exchange stands for the final response after the client has followed redirects. `set_common_headers` is never called by the flow.
- Cookie-jar behaviour. The jar commits cookies only once the body is drained, and it sends them on later requests. Responses are inputs, so the jar is not modelled. The body reads are kept, because their failures are errors the flow reports.
- The unsent request built at `src/auth/service.rs:95`. It has no effect.
- Request headers (Content-Type, Referer, Origin) and URL strings. A request is modelled as its method, its endpoint and, for the POST, its form.
- Parsing the constant home-page URL. It is an input (`UrlParse`) that succeeds or fails with a message.
- Logging. The bootstrap-status warning is the one exception: it is the only effect of its branch, so it appears as a trace event.
- `async`/`await`, concurrency, and the constructors `AuthService::new`, `GRPCServer::new` and `Default`, which always succeed.
- The live-network test at `src/auth/service.rs:264-274`.
- Process bootstrap in `src/main.rs`: environment loading, logger, bind address, server start, banner. Only which services are gated is kept.
- `build.rs`, the generated protobuf types and `examples/client.rs`. Messages are modelled as datatypes with the same fields.
- Reading the secret from the environment. It is a parameter, `Option<string>`. `None` covers both an unset variable and one that is not valid Unicode.
- Middleware.CheckAuth: requires the prefixed secret to be a valid header value. The source panics (`unwrap`) when it is not; that panic is not modelled. The validity rule used accepts tab and every character from space upward except DEL. Metadata keys are taken to arrive in lower case, as gRPC transmits them.
- AuthErrors.ToStatus: the texts carried by URLParseFailed and RequestFailed stand for the library errors' display strings. Their exact wording is not modelled.
