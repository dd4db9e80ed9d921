/** How the two services are exposed (src/main.rs): the login service is
    added as is, and only the echo service sits behind the bearer-token
    gate. */
module Server {
  import opened Outcomes
  import opened Rpc
  import opened Middleware
  import AuthGrpc

  /** An incoming call: its metadata and the request of the procedure named. */
  datatype Call =
    | EchoCall(header: CallHeader, echo: EchoRequest)
    | LoginCall(header: CallHeader, login: AuthGrpc.LoginRequest)

  datatype Reply = Echoed(echoed: EchoResponse) | LoggedIn(session: AuthGrpc.LoginResponse)

  /** Serves one call. The secret's header-value check only matters on the
      echo path, the one place the gate runs. */
  function Serve(secret: Option<string>, call: Call, backend: AuthGrpc.Backend): (r: Result<Reply, Status>)
    requires call.EchoCall? && secret.Some? ==> ValidHeaderValue(ExpectedToken(secret.value))
    ensures call.LoginCall? ==>
      var answer := AuthGrpc.Login(call.login, backend);
      && (r.Ok? <==> answer.Ok?)
      && (r.Ok? ==> r.value == LoggedIn(answer.value))
      && (r.Err? ==> r.error == answer.error)
    ensures call.EchoCall? ==>
      && (r.Ok? <==> secret.Some? && Authorized(secret.value, call.header))
      && (r.Ok? ==> r.value == Echoed(EchoResponse(call.echo.message)))
  {
    match call
    case LoginCall(_, request) =>
      (match AuthGrpc.Login(request, backend)
       case Ok(response) => Result.Ok(LoggedIn(response))
       case Err(status) => Err(status))
    case EchoCall(header, request) =>
      match CheckAuth(secret, header)
      case Ok(_) => Result.Ok(Echoed(UnaryEcho(request)))
      case Err(status) => Err(status)
  }

  /** The login procedure is not gated: its reply does not depend on the
      secret or on the call's metadata. */
  lemma LoginIsNotGated(secret: Option<string>, secret': Option<string>, header: CallHeader,
                        header': CallHeader, request: AuthGrpc.LoginRequest, backend: AuthGrpc.Backend)
    ensures Serve(secret, LoginCall(header, request), backend) == Serve(secret', LoginCall(header', request), backend)
  {
  }

  /** The echo procedure is gated: a rejected call gets exactly the gate's
      status, so it never reaches the echo handler. */
  lemma EchoIsGated(secret: Option<string>, header: CallHeader, request: EchoRequest, backend: AuthGrpc.Backend)
    requires secret.Some? ==> ValidHeaderValue(ExpectedToken(secret.value))
    ensures CheckAuth(secret, header).Err? ==>
      Serve(secret, EchoCall(header, request), backend) == Err(CheckAuth(secret, header).error)
  {
  }
}
