/** `strava_cli/client.py`: the token file, the expiry decision, the refresh
    round trip and the access token installed on the API client.
    The clock, the environment and the answer of the remote refresh call are
    parameters; the token file is the decoded JSON object (or its absence). */
module Client {
  import opened Wrappers
  import opened JsonValues

  /** The token file used when none is given. */
  const DefaultTokenPath: string := "strava-token.json"
  /** A token is refreshed once the clock is past `expires_at` minus this many seconds. */
  const ExpiryMargin: real := 300.0
  const ClientIdVar: string := "STRAVA_CLIENT_ID"
  const ClientSecretVar: string := "STRAVA_CLIENT_SECRET"

  /** The decoded token file: the members of its top-level JSON object. */
  type TokenData = map<string, Json>
  /** The process environment, `.env` included. */
  type Environment = map<string, string>

  /** The exceptions that leave the client without a fresh token. */
  datatype ClientError =
    | TokenFileNotFound(path: string)  // FileNotFoundError
    | InvalidTokenFile                 // ValueError: access or refresh token missing
    | ExpiryNotNumber                  // TypeError from `expires_at - 300`
    | MissingClientCredentials         // ValueError: client id or secret unset
    | RefreshRequestFailed             // the remote refresh call raised
    | ResponseWithoutAccessToken       // KeyError on `token_response["access_token"]`

  /** The arguments of one call to the remote token endpoint. */
  datatype RefreshRequest = RefreshRequest(clientId: string, clientSecret: string, refreshToken: Json)

  /** What the client has done to the world: the token file on disk, the token
      installed on the API client, and the refresh calls made so far. */
  datatype Session = Session(tokenFile: Option<TokenData>, accessToken: Option<Json>, requests: seq<RefreshRequest>)

  /** `token_file or Path("strava-token.json")`: a `Path` is always truthy, so only an absent one is replaced. */
  function ResolvePath(tokenPath: Option<string>): (path: string)
    ensures tokenPath.None? ==> path == DefaultTokenPath
    ensures tokenPath.Some? ==> path == tokenPath.value
  {
    if tokenPath.Some? then tokenPath.value else DefaultTokenPath
  }

  /** `os.environ.get(name)` is truthy: set and not empty. */
  predicate EnvSet(env: Environment, name: string)
  {
    name in env && env[name] != ""
  }

  predicate HasCredentials(env: Environment)
  {
    EnvSet(env, ClientIdVar) && EnvSet(env, ClientSecretVar)
  }

  /** `expires_at and now > expires_at - 300`; `None` when `expires_at` is
      truthy but not a number, where the subtraction raises. */
  function RefreshDue(expiresAt: Json, now: real): (due: Option<bool>)
    ensures !Truthy(expiresAt) ==> due == Some(false)
    ensures due.None? <==> Truthy(expiresAt) && Number(expiresAt).None?
    ensures due == Some(true) <==>
      (Truthy(expiresAt) && Number(expiresAt).Some? && now > Number(expiresAt).value - ExpiryMargin)
  {
    if !Truthy(expiresAt) then Some(false)
    else
      match Number(expiresAt)
      case None => None
      case Some(e) => Some(now > e - ExpiryMargin)
  }

  /** What loading the token file leads to. */
  datatype Plan = Install(token: Json) | Refresh(refreshToken: Json) | Reject(error: ClientError)

  function PlanLoad(file: Option<TokenData>, path: string, now: real): (plan: Plan)
    ensures plan == Reject(TokenFileNotFound(path)) <==> file.None?
    ensures plan.Install? ==> file.Some? && plan.token == Get(file.value, "access_token") && Truthy(plan.token)
    ensures plan.Refresh? ==>
      (file.Some? && Truthy(Get(file.value, "access_token"))
       && plan.refreshToken == Get(file.value, "refresh_token") && Truthy(plan.refreshToken))
  {
    if file.None? then Reject(TokenFileNotFound(path))
    else
      var access := Get(file.value, "access_token");
      var refresh := Get(file.value, "refresh_token");
      if !Truthy(access) || !Truthy(refresh) then Reject(InvalidTokenFile)
      else
        match RefreshDue(Get(file.value, "expires_at"), now)
        case None => Reject(ExpiryNotNumber)
        case Some(due) => if due then Refresh(refresh) else Install(access)
  }

  /** `_refresh_token` on a session: the credentials are checked, the request is
      made, the response overwrites the file and its access token is installed. */
  function RefreshStep(s: Session, env: Environment, refreshToken: Json, response: Option<TokenData>)
    : (r: (Session, Outcome<ClientError>))
    ensures r.1.Pass? ==>
      (response.Some? && "access_token" in response.value
       && r.0.tokenFile == response && r.0.accessToken == Some(response.value["access_token"]))
    ensures r.1.Fail? ==> r.0.accessToken == s.accessToken
    ensures s.requests <= r.0.requests && |r.0.requests| <= |s.requests| + 1
  {
    if !HasCredentials(env) then (s, Fail(MissingClientCredentials))
    else
      var asked := s.(requests := s.requests + [RefreshRequest(env[ClientIdVar], env[ClientSecretVar], refreshToken)]);
      if response.None? then (asked, Fail(RefreshRequestFailed))
      else
        var written := asked.(tokenFile := Some(response.value));
        if "access_token" !in response.value then (written, Fail(ResponseWithoutAccessToken))
        else (written.(accessToken := Some(response.value["access_token"])), Pass)
  }

  /** `_load_and_set_token` on a session. */
  function LoadStep(s: Session, env: Environment, path: string, now: real, response: Option<TokenData>)
    : (r: (Session, Outcome<ClientError>))
    ensures r.1.Pass? ==>
      (r.0.tokenFile.Some? && "access_token" in r.0.tokenFile.value
       && r.0.accessToken == Some(r.0.tokenFile.value["access_token"]))
    ensures r.1.Fail? ==> r.0.accessToken == s.accessToken
    ensures s.requests <= r.0.requests && |r.0.requests| <= |s.requests| + 1
  {
    match PlanLoad(s.tokenFile, path, now)
    case Reject(e) => (s, Fail(e))
    case Install(token) => (s.(accessToken := Some(token)), Pass)
    case Refresh(refreshToken) => RefreshStep(s, env, refreshToken, response)
  }

  /** The wrapper object with its token file, environment and API client's token. */
  class StravaClient {
    var tokenPath: string
    var tokenFile: Option<TokenData>
    var env: Environment
    var accessToken: Option<Json>
    var refreshRequests: seq<RefreshRequest>

    function State(): Session
      reads this
    {
      Session(tokenFile, accessToken, refreshRequests)
    }

    /** The fields as `__init__` sets them before it loads the token: a fresh
        API client has no access token. */
    constructor (tokenPath: Option<string>, disk: Option<TokenData>, env: Environment)
      ensures this.tokenPath == ResolvePath(tokenPath) && this.env == env
      ensures State() == Session(disk, None, [])
    {
      this.tokenPath := ResolvePath(tokenPath);
      this.env := env;
      tokenFile := disk;
      accessToken := None;
      refreshRequests := [];
    }

    method RefreshToken(refreshToken: Json, response: Option<TokenData>) returns (outcome: Outcome<ClientError>)
      modifies this
      ensures tokenPath == old(tokenPath) && env == old(env)
      ensures (State(), outcome) == RefreshStep(old(State()), env, refreshToken, response)
    {
      if !EnvSet(env, ClientIdVar) || !EnvSet(env, ClientSecretVar) {
        return Fail(MissingClientCredentials);
      }
      refreshRequests := refreshRequests + [RefreshRequest(env[ClientIdVar], env[ClientSecretVar], refreshToken)];
      if response.None? {
        return Fail(RefreshRequestFailed);
      }
      tokenFile := Some(response.value);
      if "access_token" !in response.value {
        return Fail(ResponseWithoutAccessToken);
      }
      accessToken := Some(response.value["access_token"]);
      outcome := Pass;
    }

    method LoadAndSetToken(now: real, response: Option<TokenData>) returns (outcome: Outcome<ClientError>)
      modifies this
      ensures tokenPath == old(tokenPath) && env == old(env)
      ensures (State(), outcome) == LoadStep(old(State()), env, tokenPath, now, response)
    {
      if tokenFile.None? {
        return Fail(TokenFileNotFound(tokenPath));
      }
      var data := tokenFile.value;
      var access := Get(data, "access_token");
      var refresh := Get(data, "refresh_token");
      var expires := Get(data, "expires_at");
      if !Truthy(access) || !Truthy(refresh) {
        return Fail(InvalidTokenFile);
      }
      if Truthy(expires) {
        var e := Number(expires);
        if e.None? {
          return Fail(ExpiryNotNumber);
        }
        if now > e.value - ExpiryMargin {
          outcome := RefreshToken(refresh, response);
          return;
        }
      }
      accessToken := Some(access);
      outcome := Pass;
    }
  }

  /** `StravaClient(token_file)`: set the fields, then load the token. */
  method Connect(tokenPath: Option<string>, disk: Option<TokenData>, env: Environment, now: real, response: Option<TokenData>)
    returns (client: StravaClient, outcome: Outcome<ClientError>)
    ensures fresh(client)
    ensures client.tokenPath == ResolvePath(tokenPath) && client.env == env
    ensures (client.State(), outcome) == LoadStep(Session(disk, None, []), env, client.tokenPath, now, response)
  {
    client := new StravaClient(tokenPath, disk, env);
    outcome := client.LoadAndSetToken(now, response);
  }

  // ---------------------------------------------------------------------------
  // Properties of the token lifecycle

  /** Without a token file nothing is read, requested or installed. */
  lemma MissingFileRejected(s: Session, env: Environment, path: string, now: real, response: Option<TokenData>)
    requires s.tokenFile.None?
    ensures LoadStep(s, env, path, now, response) == (s, Fail(TokenFileNotFound(path)))
  {
  }

  /** A missing or falsy access or refresh token is rejected before any refresh. */
  lemma MissingTokenRejected(s: Session, env: Environment, path: string, now: real, response: Option<TokenData>)
    requires s.tokenFile.Some?
    requires !Truthy(Get(s.tokenFile.value, "access_token")) || !Truthy(Get(s.tokenFile.value, "refresh_token"))
    ensures LoadStep(s, env, path, now, response) == (s, Fail(InvalidTokenFile))
  {
  }

  /** A refresh is attempted exactly when both tokens are present, `expires_at`
      is a truthy number and the clock is strictly past the margin. */
  lemma RefreshIffDue(file: Option<TokenData>, path: string, now: real)
    ensures PlanLoad(file, path, now).Refresh? <==>
      && file.Some?
      && Truthy(Get(file.value, "access_token"))
      && Truthy(Get(file.value, "refresh_token"))
      && Truthy(Get(file.value, "expires_at"))
      && Number(Get(file.value, "expires_at")).Some?
      && now > Number(Get(file.value, "expires_at")).value - ExpiryMargin
    ensures PlanLoad(file, path, now).Refresh? ==>
      PlanLoad(file, path, now).refreshToken == Get(file.value, "refresh_token")
  {
  }

  /** A token that is not due (no truthy `expires_at`, or the clock not past
      the margin) leaves the file and the refresh calls alone and installs the
      stored access token. */
  lemma NotDueInstallsStoredToken(s: Session, env: Environment, path: string, now: real, response: Option<TokenData>)
    requires s.tokenFile.Some?
    requires Truthy(Get(s.tokenFile.value, "access_token")) && Truthy(Get(s.tokenFile.value, "refresh_token"))
    requires RefreshDue(Get(s.tokenFile.value, "expires_at"), now) == Some(false)
    ensures "access_token" in s.tokenFile.value
    ensures LoadStep(s, env, path, now, response)
      == (s.(accessToken := Some(s.tokenFile.value["access_token"])), Pass)
  {
  }

  /** A token that is due is refreshed with the stored refresh token; the load
      then has exactly the effect of that refresh. */
  lemma DueRefreshes(s: Session, env: Environment, path: string, now: real, response: Option<TokenData>)
    requires s.tokenFile.Some?
    requires Truthy(Get(s.tokenFile.value, "access_token")) && Truthy(Get(s.tokenFile.value, "refresh_token"))
    requires RefreshDue(Get(s.tokenFile.value, "expires_at"), now) == Some(true)
    ensures LoadStep(s, env, path, now, response)
      == RefreshStep(s, env, Get(s.tokenFile.value, "refresh_token"), response)
  {
  }

  /** At exactly `expires_at - 300`, and whenever `expires_at` is absent or
      zero, the stored access token is installed as it is. */
  lemma StoredTokenKept(s: Session, env: Environment, path: string, now: real, response: Option<TokenData>)
    requires s.tokenFile.Some?
    requires Truthy(Get(s.tokenFile.value, "access_token")) && Truthy(Get(s.tokenFile.value, "refresh_token"))
    requires var e := Get(s.tokenFile.value, "expires_at");
      e == JNull || e == JInt(0) || e == JFloat(0.0) || Number(e) == Some(now + ExpiryMargin)
    ensures "access_token" in s.tokenFile.value
    ensures LoadStep(s, env, path, now, response)
      == (s.(accessToken := Some(s.tokenFile.value["access_token"])), Pass)
  {
    var e := Get(s.tokenFile.value, "expires_at");
    assert RefreshDue(e, now) == Some(false);
    NotDueInstallsStoredToken(s, env, path, now, response);
  }

  /** Once a token is due it stays due as the clock advances. */
  lemma DueIsMonotone(expiresAt: Json, t1: real, t2: real)
    requires t1 <= t2 && RefreshDue(expiresAt, t1) == Some(true)
    ensures RefreshDue(expiresAt, t2) == Some(true)
  {
  }

  /** A refresh without both credentials changes nothing and calls nothing. */
  lemma RefreshNeedsCredentials(s: Session, env: Environment, refreshToken: Json, response: Option<TokenData>)
    requires !HasCredentials(env)
    ensures RefreshStep(s, env, refreshToken, response) == (s, Fail(MissingClientCredentials))
  {
  }

  /** A refresh succeeds exactly when the credentials are set and the response
      carries an access token; then the file is the response, the installed
      token is the response's, and exactly one request was sent. */
  lemma RefreshSucceeds(s: Session, env: Environment, refreshToken: Json, response: Option<TokenData>)
    ensures var (t, outcome) := RefreshStep(s, env, refreshToken, response);
      outcome == Pass <==> HasCredentials(env) && response.Some? && "access_token" in response.value
    ensures var (t, outcome) := RefreshStep(s, env, refreshToken, response);
      outcome == Pass ==>
        && t.tokenFile == response
        && t.accessToken == Some(response.value["access_token"])
        && t.requests == s.requests + [RefreshRequest(env[ClientIdVar], env[ClientSecretVar], refreshToken)]
  {
  }

  /** After any successful load the installed token is the token file's own
      `access_token`, whether it was stored or just refreshed. */
  lemma LoadedTokenMatchesFile(s: Session, env: Environment, path: string, now: real, response: Option<TokenData>)
    ensures var (t, outcome) := LoadStep(s, env, path, now, response);
      outcome == Pass ==>
        t.tokenFile.Some? && "access_token" in t.tokenFile.value
        && t.accessToken == Some(t.tokenFile.value["access_token"])
  {
  }

  /** A failed load leaves the installed token alone, and it leaves the file
      alone unless the refresh response was written before its access token
      turned out to be missing. */
  lemma FailureKeepsState(s: Session, env: Environment, path: string, now: real, response: Option<TokenData>)
    ensures var (t, outcome) := LoadStep(s, env, path, now, response);
      outcome.Fail? ==> t.accessToken == s.accessToken
    ensures var (t, outcome) := LoadStep(s, env, path, now, response);
      outcome.Fail? && outcome.error != ResponseWithoutAccessToken ==> t.tokenFile == s.tokenFile
  {
  }

  /** A load makes at most one refresh call. */
  lemma AtMostOneRequest(s: Session, env: Environment, path: string, now: real, response: Option<TokenData>)
    ensures var (t, _) := LoadStep(s, env, path, now, response);
      s.requests <= t.requests && |t.requests| <= |s.requests| + 1
  {
  }

  /** A refresh response without an access token has already replaced the
      file, so the next load rejects that file. */
  lemma IncompleteResponseBreaksNextLoad(s: Session, env: Environment, path: string, now: real,
                                         response: Option<TokenData>, later: real, next: Option<TokenData>)
    requires LoadStep(s, env, path, now, response).1 == Fail(ResponseWithoutAccessToken)
    ensures var (t, _) := LoadStep(s, env, path, now, response);
      LoadStep(t, env, path, later, next) == (t, Fail(InvalidTokenFile))
  {
  }
}
