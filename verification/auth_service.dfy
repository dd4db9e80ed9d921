/** The CAS login flow (src/auth/service.rs): a bootstrap GET of the CAS
    login page, a POST of the credential form, and a GET of the application's
    home page whose `Set-Cookie` headers carry the session token.

    Each of the three exchanges is an input; the flow is a pure function of
    them and of the credentials. What the flow does to the outside world is
    recorded as a trace of events: the requests it issues, in order, and the
    warning it logs for an unexpected bootstrap status. */
module AuthService {
  import opened Outcomes
  import opened Text
  import opened NamedValues
  import opened Http
  import opened AuthErrors

  /** Name of the cookie that carries the session token. */
  const AuthCookieName: string := "MOD_AUTH_CAS"

  /** Body texts the portal shows when it rejects the credentials. */
  const LoginFailedMarker: string := "Login failed"
  const InvalidCredentialsMarker: string := "Invalid credentials"

  /** The five fields of the CAS login form. */
  const FormKeys: set<string> := {"username", "password", "execution", "_eventId", "geolocation"}

  datatype Credentials = Credentials(username: string, password: string)

  /** What a successful login returns: the token and the credentials. */
  type Session = (string, string, string)

  /** An observable effect of the flow. */
  datatype Event =
    | Issued(request: Request)           // a request was handed to the HTTP client
    | UnexpectedStatus(status: StatusCode) // the bootstrap status was logged as unexpected

  /** The outcome of one stage together with the events it produced. */
  datatype Run<T> = Run(result: Result<T, AuthError>, events: seq<Event>)

  /** The credential form posted to the portal. */
  function FormData(username: string, password: string): (form: map<string, string>)
    ensures form.Keys == FormKeys
    ensures form["username"] == username && form["password"] == password
    ensures form["execution"] == "e1s1" && form["_eventId"] == "submit" && form["geolocation"] == ""
  {
    map["username" := username, "password" := password, "execution" := "e1s1",
        "_eventId" := "submit", "geolocation" := ""]
  }

  /** The form determines the credentials it was built from. */
  lemma FormDataInjective(u: string, p: string, u': string, p': string)
    requires FormData(u, p) == FormData(u', p')
    ensures u == u' && p == p'
  {
    assert FormData(u, p)["username"] == u && FormData(u', p')["username"] == u';
    assert FormData(u, p)["password"] == p && FormData(u', p')["password"] == p';
  }

  /** The body shows one of the portal's rejection texts. */
  predicate HasFailureMarker(body: string)
  {
    Contains(body, LoginFailedMarker) || Contains(body, InvalidCredentialsMarker)
  }

  /** The exchange produced a response whose body was read to the end. */
  predicate Completed(x: Exchange)
  {
    x.Received? && x.body.Read?
  }

  /** The transport failure an exchange ended with, if it did not complete. */
  function TransportDetail(x: Exchange): string
    requires !Completed(x)
  {
    if x.SendFailed? then x.detail else x.body.detail
  }

  /** The conditions under which the portal accepted the credentials. */
  ghost predicate Accepted(bootstrap: Exchange, submission: Exchange)
  {
    && Completed(bootstrap)
    && Completed(submission)
    && !(exists i :: OccursAt(submission.body.text, LoginFailedMarker, i))
    && !(exists i :: OccursAt(submission.body.text, InvalidCredentialsMarker, i))
    && (IsSuccess(submission.status) || IsRedirection(submission.status))
  }

  /** The marker test is the substring test it claims to be. */
  lemma FailureMarkerIsSubstring(body: string)
    ensures HasFailureMarker(body) <==>
      (exists i :: OccursAt(body, LoginFailedMarker, i)) ||
      (exists i :: OccursAt(body, InvalidCredentialsMarker, i))
  {
    ContainsIsSubstring(body, LoginFailedMarker);
    ContainsIsSubstring(body, InvalidCredentialsMarker);
  }

  /** Bootstrap GET then credential POST (service.rs, perform_authentication).
      The bootstrap status is only advisory; every transport or body-read
      failure is a `RequestFailed`; rejection texts in the POST's body, or a
      POST status outside 2xx/3xx, are a `LoginFailed`. */
  function PerformAuthentication(form: map<string, string>, bootstrap: Exchange, submission: Exchange): (r: Run<()>)
    ensures r.result.Ok? <==> Accepted(bootstrap, submission)
    ensures !Completed(bootstrap) ==> r.result == Err(RequestFailed(TransportDetail(bootstrap)))
    ensures Completed(bootstrap) && !Completed(submission) ==>
      r.result == Err(RequestFailed(TransportDetail(submission)))
    ensures Completed(bootstrap) && Completed(submission) && !Accepted(bootstrap, submission) ==>
      r.result == Err(LoginFailed)
    ensures r.events ==
      [Issued(Get(CasLoginPage))]
      + (if bootstrap.Received? && !IsSuccessOrRedirection(bootstrap.status)
         then [UnexpectedStatus(bootstrap.status)] else [])
      + (if Completed(bootstrap) then [Issued(PostForm(LoginSubmission, form))] else [])
    ensures Issued(PostForm(LoginSubmission, form)) in r.events <==> Completed(bootstrap)
  {
    FailureMarkerIsSubstring(if submission.Received? && submission.body.Read? then submission.body.text else "");
    var started := [Issued(Get(CasLoginPage))];
    match bootstrap
    case SendFailed(d) => Run(Err(RequestFailed(d)), started)
    case Received(status, _, body) =>
      var checked := started + (if IsSuccessOrRedirection(status) then [] else [UnexpectedStatus(status)]);
      match body
      case ReadFailed(d) => Run(Err(RequestFailed(d)), checked)
      case Read(_) =>
        var posted := checked + [Issued(PostForm(LoginSubmission, form))];
        match submission
        case SendFailed(d) => Run(Err(RequestFailed(d)), posted)
        case Received(answer, _, reply) =>
          match reply
          case ReadFailed(d) => Run(Err(RequestFailed(d)), posted)
          case Read(text) =>
            if HasFailureMarker(text) then Run(Err(LoginFailed), posted)
            else if !IsSuccessOrRedirection(answer) then Run(Err(LoginFailed), posted)
            else Run(Ok(()), posted)
  }

  /** GET of the home page and scan of its `Set-Cookie` headers for the
      session cookie (service.rs, extract_auth_token). The home page's URL is
      parsed first; the response body is never read. */
  function ExtractAuthToken(homeUrl: UrlParse, home: Exchange): (r: Run<string>)
    ensures homeUrl.ParseFailed? ==> r == Run(Err(URLParseFailed(homeUrl.detail)), [])
    ensures homeUrl.Parsed? ==> r.events == [Issued(Get(HomePage))]
    ensures homeUrl.Parsed? && home.SendFailed? ==> r.result == Err(RequestFailed(home.detail))
    ensures r.result.Ok? <==> homeUrl.Parsed? && home.Received? && HasName(home.cookies, AuthCookieName)
    ensures r.result.Ok? ==>
      exists i :: IsFirstNamed(home.cookies, AuthCookieName, i) && home.cookies[i].value == r.result.value
    ensures r.result == Err(AuthCookieNotFound) <==>
      homeUrl.Parsed? && home.Received? && !HasName(home.cookies, AuthCookieName)
  {
    match homeUrl
    case ParseFailed(d) => Run(Err(URLParseFailed(d)), [])
    case Parsed =>
      var fetched := [Issued(Get(HomePage))];
      match home
      case SendFailed(d) => Run(Err(RequestFailed(d)), fetched)
      case Received(_, cookies, _) =>
        match Lookup(cookies, AuthCookieName)
        case Some(token) => Run(Ok(token), fetched)
        case None => Run(Err(AuthCookieNotFound), fetched)
  }

  /** The whole login (service.rs, login): build the form, authenticate, and
      only then extract the token. On success the credentials come back
      exactly as given. */
  function Login(creds: Credentials, bootstrap: Exchange, submission: Exchange, homeUrl: UrlParse, home: Exchange): (r: Run<Session>)
    ensures r.result.Ok? <==>
      Accepted(bootstrap, submission) && homeUrl.Parsed? && home.Received? && HasName(home.cookies, AuthCookieName)
    ensures r.result.Ok? ==> r.result.value.1 == creds.username && r.result.value.2 == creds.password
    ensures r.result.Ok? ==>
      exists i :: IsFirstNamed(home.cookies, AuthCookieName, i) && home.cookies[i].value == r.result.value.0
    ensures Issued(Get(HomePage)) in r.events <==> Accepted(bootstrap, submission) && homeUrl.Parsed?
    ensures r.result.Err? ==>
      r.result.error.RequestFailed? || r.result.error.LoginFailed? ||
      r.result.error.URLParseFailed? || r.result.error.AuthCookieNotFound?
  {
    var auth := PerformAuthentication(FormData(creds.username, creds.password), bootstrap, submission);
    match auth.result
    case Err(e) => Run(Err(e), auth.events)
    case Ok(_) =>
      var token := ExtractAuthToken(homeUrl, home);
      match token.result
      case Err(e) => Run(Err(e), auth.events + token.events)
      case Ok(t) => Run(Ok((t, creds.username, creds.password)), auth.events + token.events)
  }

  /** A bootstrap that cannot be sent or read ends the login with
      `RequestFailed`: nothing is posted, the home page is never fetched, and
      the later exchanges cannot influence the outcome. */
  lemma BootstrapFailureStopsLogin(creds: Credentials, bootstrap: Exchange,
                                   submission: Exchange, homeUrl: UrlParse, home: Exchange,
                                   submission': Exchange, homeUrl': UrlParse, home': Exchange)
    requires !Completed(bootstrap)
    ensures Login(creds, bootstrap, submission, homeUrl, home).result == Err(RequestFailed(TransportDetail(bootstrap)))
    ensures Login(creds, bootstrap, submission, homeUrl, home) == Login(creds, bootstrap, submission', homeUrl', home')
    ensures forall e :: e in Login(creds, bootstrap, submission, homeUrl, home).events ==>
      (e.Issued? ==> !e.request.PostForm? && e.request != Get(HomePage))
  {
  }

  /** An unexpected bootstrap status is logged and nothing more: replacing it
      by any other status leaves the login's result unchanged. */
  lemma BootstrapStatusOnlyWarns(creds: Credentials, status: StatusCode, status': StatusCode,
                                 cookies: seq<Entry>, body: Body,
                                 submission: Exchange, homeUrl: UrlParse, home: Exchange)
    ensures Login(creds, Received(status, cookies, body), submission, homeUrl, home).result ==
            Login(creds, Received(status', cookies, body), submission, homeUrl, home).result
    ensures !IsSuccessOrRedirection(status) ==>
      UnexpectedStatus(status) in Login(creds, Received(status, cookies, body), submission, homeUrl, home).events
  {
  }

  /** A rejection text in the POST's body means `LoginFailed`, whatever the
      status, a 2xx or 3xx one included. */
  lemma FailureMarkerMeansLoginFailed(form: map<string, string>, bootstrap: Exchange,
                                      status: StatusCode, cookies: seq<Entry>, text: string)
    requires Completed(bootstrap)
    requires HasFailureMarker(text)
    ensures PerformAuthentication(form, bootstrap, Received(status, cookies, Read(text))).result == Err(LoginFailed)
  {
    FailureMarkerIsSubstring(text);
  }

  /** A POST answered outside 2xx/3xx means `LoginFailed`, even when the
      body carries no rejection text. */
  lemma BadSubmissionStatusMeansLoginFailed(form: map<string, string>, bootstrap: Exchange,
                                            status: StatusCode, cookies: seq<Entry>, body: Body)
    requires Completed(bootstrap)
    requires body.Read?
    requires !IsSuccessOrRedirection(status)
    ensures PerformAuthentication(form, bootstrap, Received(status, cookies, body)).result == Err(LoginFailed)
  {
  }

  /** Only the home page's cookies matter: cookies set by the bootstrap or the
      POST response never short-circuit or change the outcome. */
  lemma EarlyCookiesIgnored(creds: Credentials, bootstrap: Exchange, submission: Exchange,
                            homeUrl: UrlParse, home: Exchange, early: seq<Entry>, early': seq<Entry>)
    requires bootstrap.Received? && submission.Received?
    ensures Login(creds, bootstrap.(cookies := early), submission.(cookies := early'), homeUrl, home) ==
            Login(creds, bootstrap, submission, homeUrl, home)
  {
  }

  /** Extraction runs only after authentication succeeded: otherwise the
      login fails with the authentication error and the home exchange is
      irrelevant. When it did succeed, the login's outcome is extraction's. */
  lemma ExtractionFollowsAuthentication(creds: Credentials, bootstrap: Exchange, submission: Exchange,
                                        homeUrl: UrlParse, home: Exchange)
    ensures var auth := PerformAuthentication(FormData(creds.username, creds.password), bootstrap, submission);
            var token := ExtractAuthToken(homeUrl, home);
            var r := Login(creds, bootstrap, submission, homeUrl, home);
            && (auth.result.Err? ==> r == Run(Err(auth.result.error), auth.events))
            && (auth.result.Ok? ==> r.events == auth.events + token.events)
            && (auth.result.Ok? && token.result.Err? ==> r.result == Err(token.result.error))
            && (auth.result.Ok? && token.result.Ok? ==>
                  r.result == Ok((token.result.value, creds.username, creds.password)))
  {
  }

  /** The posted form always carries the caller's credentials. */
  lemma PostCarriesCredentials(creds: Credentials, bootstrap: Exchange, submission: Exchange,
                               homeUrl: UrlParse, home: Exchange, form: map<string, string>)
    requires Issued(PostForm(LoginSubmission, form)) in Login(creds, bootstrap, submission, homeUrl, home).events
    ensures form == FormData(creds.username, creds.password)
    ensures form["username"] == creds.username && form["password"] == creds.password
  {
  }

  /** The home page's body is never read, so it cannot affect the token. */
  lemma HomeBodyIgnored(homeUrl: UrlParse, status: StatusCode, cookies: seq<Entry>, body: Body, body': Body)
    ensures ExtractAuthToken(homeUrl, Received(status, cookies, body)) ==
            ExtractAuthToken(homeUrl, Received(status, cookies, body'))
  {
  }

  /** Whenever the portal accepts the credentials and the home page sets
      the session cookie first among its cookies, the login returns that
      cookie's value with the caller's credentials. */
  lemma AcceptedLoginReturnsToken(creds: Credentials, bootstrap: Exchange, submission: Exchange,
                                  status: StatusCode, token: string, others: seq<Entry>, body: Body)
    requires Completed(bootstrap) && Completed(submission)
    requires !HasFailureMarker(submission.body.text)
    requires IsSuccessOrRedirection(submission.status)
    ensures Login(creds, bootstrap, submission, Parsed, Received(status, [Entry(AuthCookieName, token)] + others, body)).result
            == Ok((token, creds.username, creds.password))
  {
    FailureMarkerIsSubstring(submission.body.text);
    LookupCons(Entry(AuthCookieName, token), others, AuthCookieName);
  }

  /** A portal that redirects twice without rejection text and then sets the
      session cookie on the home page logs the user in with that token. */
  lemma RedirectingPortalScenario()
    ensures Login(Credentials("alice", "secret"),
                  Received(302, [], Read("")),
                  Received(302, [], Read("")),
                  Parsed,
                  Received(200, [Entry("MOD_AUTH_CAS", "abc123")], Read(""))).result
            == Ok(("abc123", "alice", "secret"))
  {
    AcceptedLoginReturnsToken(Credentials("alice", "secret"), Received(302, [], Read("")),
                              Received(302, [], Read("")), 200, "abc123", [], Read(""));
    assert [Entry(AuthCookieName, "abc123")] + [] == [Entry("MOD_AUTH_CAS", "abc123")];
  }

  /** A 200 answer whose body says "Invalid credentials" is a failed login. */
  lemma RejectedWithSuccessStatusScenario()
    ensures Login(Credentials("alice", "wrong"),
                  Received(200, [], Read("")),
                  Received(200, [], Read("Error: Invalid credentials.")),
                  Parsed,
                  Received(200, [Entry("MOD_AUTH_CAS", "abc123")], Read(""))).result
            == Err(LoginFailed)
  {
    var creds := Credentials("alice", "wrong");
    var bootstrap := Received(200, [], Read(""));
    var text := "Error: " + InvalidCredentialsMarker + ".";
    assert text == "Error: Invalid credentials.";
    EmbeddedIsContained("Error: ", InvalidCredentialsMarker, ".");
    FailureMarkerMeansLoginFailed(FormData(creds.username, creds.password), bootstrap, 200, [], text);
    ExtractionFollowsAuthentication(creds, bootstrap, Received(200, [], Read(text)), Parsed,
                                    Received(200, [Entry("MOD_AUTH_CAS", "abc123")], Read("")));
  }

  /** A session cookie seen only on the bootstrap response does not count:
      without it on the home page the login reports `AuthCookieNotFound`. */
  lemma CookieOnlyOnBootstrapScenario()
    ensures Login(Credentials("alice", "secret"),
                  Received(200, [Entry("MOD_AUTH_CAS", "early")], Read("")),
                  Received(302, [], Read("")),
                  Parsed,
                  Received(200, [Entry("JSESSIONID", "x")], Read(""))).result
            == Err(AuthCookieNotFound)
  {
    assert Entry("JSESSIONID", "x").name != AuthCookieName;
    assert !HasName([Entry("JSESSIONID", "x")], AuthCookieName);
    assert !Contains("", LoginFailedMarker);
    assert !Contains("", InvalidCredentialsMarker);
  }
}
