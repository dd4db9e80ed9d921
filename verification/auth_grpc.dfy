/** The remote login procedure (src/auth/grpc.rs): validates the request,
    delegates to the login flow and translates its answer. The flow is a
    parameter, `backend`, so that "the flow is not called" and "the flow is
    called with these credentials" are statements about which values of
    `backend` the reply depends on. */
module AuthGrpc {
  import opened Outcomes
  import opened Rpc
  import opened AuthErrors
  import opened Http
  import NamedValues
  import AuthService

  datatype LoginRequest = LoginRequest(username: string, password: string)
  datatype LoginResponse = LoginResponse(token: string, username: string, password: string)

  /** The login flow as seen from the remote procedure. */
  type Backend = AuthService.Credentials -> Result<AuthService.Session, AuthError>

  /** The credentials a request carries, unchanged. */
  function CredentialsOf(request: LoginRequest): AuthService.Credentials
  {
    AuthService.Credentials(request.username, request.password)
  }

  /** The remote login handler. An empty username is reported before an empty
      password; either one is an invalid argument and the flow is not run.
      Otherwise the flow's session becomes the response field for field, and
      its error becomes the matching status. */
  function Login(request: LoginRequest, backend: Backend): (r: Result<LoginResponse, Status>)
    ensures request.username == "" ==> r == Err(Status(InvalidArgument, "Username cannot be empty"))
    ensures request.username != "" && request.password == "" ==>
      r == Err(Status(InvalidArgument, "Password cannot be empty"))
    ensures request.username != "" && request.password != "" ==>
      var outcome := backend(CredentialsOf(request));
      && (r.Ok? <==> outcome.Ok?)
      && (outcome.Ok? ==> r.value == LoginResponse(outcome.value.0, outcome.value.1, outcome.value.2))
      && (outcome.Err? ==> r.error == ToStatus(outcome.error))
  {
    if request.username == "" then Err(Status(InvalidArgument, "Username cannot be empty"))
    else if request.password == "" then Err(Status(InvalidArgument, "Password cannot be empty"))
    else
      match backend(AuthService.Credentials(request.username, request.password))
      case Ok((token, username, password)) => Result.Ok(LoginResponse(token, username, password))
      case Err(e) => Err(ToStatus(e))
  }

  /** A request with an empty field is answered without the flow: any two
      backends give the same reply, and it is an invalid argument. */
  lemma EmptyFieldSkipsBackend(request: LoginRequest, backend: Backend, backend': Backend)
    requires request.username == "" || request.password == ""
    ensures Login(request, backend) == Login(request, backend')
    ensures Login(request, backend).Err? && Login(request, backend).error.code == InvalidArgument
  {
  }

  /** A complete request consults the flow only with its own credentials:
      backends that agree there give the same reply. */
  lemma BackendSeesRequestCredentials(request: LoginRequest, backend: Backend, backend': Backend)
    requires request.username != "" && request.password != ""
    requires backend(CredentialsOf(request)) == backend'(CredentialsOf(request))
    ensures Login(request, backend) == Login(request, backend')
  {
  }

  /** The two validation cases of the handler's own tests. */
  lemma ValidationExamples(backend: Backend)
    ensures Login(LoginRequest("", "password"), backend).Err?
    ensures Login(LoginRequest("", "password"), backend).error.code == InvalidArgument
    ensures Login(LoginRequest("username", ""), backend).Err?
    ensures Login(LoginRequest("username", ""), backend).error.code == InvalidArgument
    ensures Login(LoginRequest("", ""), backend) == Err(Status(InvalidArgument, "Username cannot be empty"))
  {
  }

  /** The handler wired to the CAS login flow over given portal exchanges. */
  function PortalBackend(bootstrap: Exchange, submission: Exchange, homeUrl: UrlParse, home: Exchange): Backend
  {
    (c: AuthService.Credentials) => AuthService.Login(c, bootstrap, submission, homeUrl, home).result
  }

  /** Over the real flow, a successful reply echoes the request's
      credentials, and a failure is one of three codes: invalid argument
      (validation or an unparsable URL), unauthenticated (rejected login or
      missing cookie) or unavailable (transport failure). */
  lemma PortalLoginReplies(request: LoginRequest, bootstrap: Exchange, submission: Exchange,
                           homeUrl: UrlParse, home: Exchange)
    ensures var r := Login(request, PortalBackend(bootstrap, submission, homeUrl, home));
            && (r.Ok? ==> r.value.username == request.username && r.value.password == request.password)
            && (r.Err? ==> r.error.code in {InvalidArgument, Unauthenticated, Unavailable})
  {
    if request.username != "" && request.password != "" {
      var run := AuthService.Login(CredentialsOf(request), bootstrap, submission, homeUrl, home);
      assert PortalBackend(bootstrap, submission, homeUrl, home)(CredentialsOf(request)) == run.result;
    }
  }

  /** End to end: with a portal that redirects twice and then sets
      MOD_AUTH_CAS=abc123 on the home page, the remote login of alice answers
      with that token and alice's credentials. */
  lemma RedirectingPortalReply()
    ensures Login(LoginRequest("alice", "secret"),
                  PortalBackend(Received(302, [], Read("")), Received(302, [], Read("")), Parsed,
                                Received(200, [NamedValues.Entry("MOD_AUTH_CAS", "abc123")], Read(""))))
            == Result.Ok(LoginResponse("abc123", "alice", "secret"))
  {
    AuthService.RedirectingPortalScenario();
  }
}
