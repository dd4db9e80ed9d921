/** The echo service and the static bearer-token gate (src/middleware.rs).
    The gate reads one process-wide secret; an absent secret is a server
    misconfiguration, distinct from a caller presenting a bad token. */
module Middleware {
  import opened Outcomes
  import opened NamedValues
  import opened Rpc

  /** Prefix of the expected `authorization` value. */
  const BearerPrefix: string := "Bearer "

  /** Metadata key the gate inspects. Incoming keys are lower case. */
  const AuthorizationKey: string := "authorization"

  /** The part of a call the gate sees: its metadata, in arrival order. */
  datatype CallHeader = CallHeader(metadata: seq<Entry>)

  datatype EchoRequest = EchoRequest(message: string)
  datatype EchoResponse = EchoResponse(message: string)

  /** A character the header-value parser accepts: a tab, or any character
      from the space upward except DEL. */
  predicate HeaderChar(c: char)
  {
    c == '\t' || (' ' <= c && c != '\U{7F}')
  }

  /** A string that parses as a header value. */
  predicate ValidHeaderValue(s: string)
  {
    forall i :: 0 <= i < |s| ==> HeaderChar(s[i])
  }

  /** The token a caller must present when the secret is `secret`. */
  function ExpectedToken(secret: string): (t: string)
    ensures |t| == |BearerPrefix| + |secret|
    ensures t[..|BearerPrefix|] == BearerPrefix && t[|BearerPrefix|..] == secret
  {
    BearerPrefix + secret
  }

  /** The first `authorization` entry of the call carries exactly the
      expected bearer token. */
  ghost predicate Authorized(secret: string, call: CallHeader)
  {
    exists i :: IsFirstNamed(call.metadata, AuthorizationKey, i) &&
      call.metadata[i].value == ExpectedToken(secret)
  }

  /** The echo handler answers with the message it was sent. */
  function UnaryEcho(request: EchoRequest): (response: EchoResponse)
    ensures response.message == request.message
  {
    EchoResponse(request.message)
  }

  /** The gate (middleware.rs, check_auth). `secret` is the configured
      secret, or `None` when it is not set. The configured secret must form a
      valid header value once prefixed; the source panics otherwise. */
  function CheckAuth(secret: Option<string>, call: CallHeader): (r: Result<CallHeader, Status>)
    requires secret.Some? ==> ValidHeaderValue(ExpectedToken(secret.value))
    ensures secret.None? ==> r == Err(Status(Internal, "Server misconfiguration: missing auth token"))
    ensures r.Ok? <==> secret.Some? && Authorized(secret.value, call)
    ensures r.Ok? ==> r.value == call
    ensures secret.Some? && r.Err? ==> r.error == Status(Unauthenticated, "No valid auth token")
  {
    match secret
    case None => Err(Status(Internal, "Server misconfiguration: missing auth token"))
    case Some(s) =>
      match Lookup(call.metadata, AuthorizationKey)
      case Some(t) =>
        if t == ExpectedToken(s) then Result.Ok(call) else Err(Status(Unauthenticated, "No valid auth token"))
      case None => Err(Status(Unauthenticated, "No valid auth token"))
  }

  /** The secret is checked first: without it every call gets the same
      configuration error, whatever its metadata. */
  lemma MissingSecretIgnoresMetadata(call: CallHeader, call': CallHeader)
    ensures CheckAuth(None, call) == CheckAuth(None, call')
    ensures CheckAuth(None, call).error.code == Internal
  {
  }

  /** The decision depends only on the first `authorization` entry: calls
      that agree on it are treated alike. */
  lemma OnlyAuthorizationMatters(secret: string, call: CallHeader, call': CallHeader)
    requires ValidHeaderValue(ExpectedToken(secret))
    requires Lookup(call.metadata, AuthorizationKey) == Lookup(call'.metadata, AuthorizationKey)
    ensures CheckAuth(Some(secret), call).Ok? <==> CheckAuth(Some(secret), call').Ok?
  {
  }

  /** With the secret "x": "Bearer x" passes, "Bearer y" and a missing header
      are rejected as unauthenticated, and an unset secret is an internal
      error whatever the header. */
  lemma GateTable()
    ensures CheckAuth(Some("x"), CallHeader([Entry("authorization", "Bearer x")])) ==
            Result.Ok(CallHeader([Entry("authorization", "Bearer x")]))
    ensures CheckAuth(Some("x"), CallHeader([Entry("authorization", "Bearer y")])) ==
            Err(Status(Unauthenticated, "No valid auth token"))
    ensures CheckAuth(Some("x"), CallHeader([])) == Err(Status(Unauthenticated, "No valid auth token"))
    ensures CheckAuth(None, CallHeader([Entry("authorization", "Bearer x")])).error.code == Internal
  {
    assert ExpectedToken("x") == "Bearer x";
    assert "Bearer y" != "Bearer x" by { assert "Bearer y"[7] != "Bearer x"[7]; }
    LookupCons(Entry("authorization", "Bearer x"), [], AuthorizationKey);
    LookupCons(Entry("authorization", "Bearer y"), [], AuthorizationKey);
  }
}
