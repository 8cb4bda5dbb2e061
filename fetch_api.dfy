/**
 * The API client: how `doFetch` builds a request and normalises the response,
 * the URL and header construction of every endpoint helper, and the two
 * helpers with side effects, login and signup. The network itself is an
 * oracle: each request is answered by an outcome given as a parameter, and
 * the `Network` object records the calls that were made, in order.
 */
module FetchApi {
  import opened JsValues
  import opened Platform

  /** The request `fetch(url, options)` is given. The body is kept as the value `JSON.stringify` serialises. */
  datatype Request = Request(url: string, verb: string, headers: map<string, string>, body: Option<JsValue>)

  /** What `fetch` followed by `response.json()` yields: a decoded body, or a rejection. */
  datatype FetchOutcome = Responded(json: JsValue) | Rejected(error: JsError)

  /** A call to the backend: an HTTP request, or one of the two helpers defined outside fetchAPI.ts. */
  datatype Call =
    | Http(request: Request)
    | FetchEvents(token: string)
    | DeleteEvent(id: JsValue, token: string)

  /** `http://<ip>:3133<path>`. */
  function ServerUrl(ip: string, path: string): string
  {
    "http://" + ip + ":3133" + path
  }

  /** The options `doFetch` builds: JSON content type first, then the caller's headers over it. */
  function RequestOptions(url: string, verb: string, headers: map<string, string>, body: JsValue): (r: Request)
    ensures r.url == url && r.verb == verb
    ensures r.headers.Keys == headers.Keys + {"Content-Type"}
    ensures forall h :: h in headers ==> r.headers[h] == headers[h]
    ensures "Content-Type" !in headers ==> r.headers["Content-Type"] == "application/json"
    ensures r.body.Some? <==> Truthy(body)
    ensures r.body.Some? ==> r.body.value == body
  {
    Request(url, verb, map["Content-Type" := "application/json"] + headers,
            if body.Undefined? || !Truthy(body) then None else Some(body))
  }

  /**
   * How `doFetch` treats what came back: a rejection propagates, a `null`
   * body fails on the property read, a truthy `error` (or else `errors`)
   * field is thrown as the message, and anything else is returned unchanged.
   */
  function DoFetchResult(outcome: FetchOutcome): (r: Result<JsValue>)
    ensures outcome.Rejected? ==> r == Err(outcome.error)
    ensures outcome.Responded? && Nullish(outcome.json) ==> r.Err? && r.error.name == "TypeError"
    ensures outcome.Responded? && !Nullish(outcome.json) && Truthy(Prop(outcome.json, "error"))
            ==> r == Err(Error(ToJsString(Prop(outcome.json, "error"))))
    ensures outcome.Responded? && !Nullish(outcome.json) && !Truthy(Prop(outcome.json, "error"))
            && Truthy(Prop(outcome.json, "errors"))
            ==> r == Err(Error(ToJsString(Prop(outcome.json, "errors"))))
    ensures outcome.Responded? && !Nullish(outcome.json) && !Truthy(Prop(outcome.json, "error"))
            && !Truthy(Prop(outcome.json, "errors"))
            ==> r == Ok(outcome.json)
    ensures r.Ok? ==> !Nullish(r.value)
  {
    match outcome
    case Rejected(e) => Err(e)
    case Responded(d) =>
      if Nullish(d) then Err(ReadError(d, "error"))
      else if Truthy(Prop(d, "error")) || Truthy(Prop(d, "errors")) then
        Err(Error(ToJsString(Or(Or(Prop(d, "error"), Prop(d, "errors")), Str("A server error occurred")))))
      else Ok(d)
  }

  /** The request goes to `http://<ip>:3133<path>` with exactly the JSON and bearer headers. */
  predicate Authenticated(r: Request, ip: string, path: string, token: string)
  {
    && r.url == "http://" + ip + ":3133" + path
    && r.headers == map["Content-Type" := "application/json", "Authorization" := "Bearer " + token]
  }

  function BearerHeader(token: string): map<string, string>
  {
    map["Authorization" := "Bearer " + token]
  }

  lemma BearerOptions(url: string, verb: string, token: string, body: JsValue)
    ensures RequestOptions(url, verb, BearerHeader(token), body).headers
            == map["Content-Type" := "application/json", "Authorization" := "Bearer " + token]
  {
    var h := RequestOptions(url, verb, BearerHeader(token), body).headers;
    assert h.Keys == {"Content-Type", "Authorization"};
  }

  function LoginRequest(email: string, password: string, ip: string): (r: Request)
    ensures r.url == "http://" + ip + ":3133/auth/login" && r.verb == "POST"
    ensures r.headers == map["Content-Type" := "application/json"]
    ensures r.body == Some(Obj(map["email" := Str(email), "password" := Str(password)]))
  {
    RequestOptions(ServerUrl(ip, "/auth/login"), "POST", map[],
                   Obj(map["email" := Str(email), "password" := Str(password)]))
  }

  function ProfileRequest(token: string, ip: string): (r: Request)
    ensures Authenticated(r, ip, "/auth/me", token) && r.verb == "GET" && r.body.None?
  {
    BearerOptions(ServerUrl(ip, "/auth/me"), "GET", token, Undefined);
    RequestOptions(ServerUrl(ip, "/auth/me"), "GET", BearerHeader(token), Undefined)
  }

  /** The registration body carries the four fields the screen collects, and no language. */
  function SignupRequest(firstName: string, lastName: string, email: string, password: string, ip: string): (r: Request)
    ensures r.url == "http://" + ip + ":3133/auth/register" && r.verb == "POST"
    ensures r.headers == map["Content-Type" := "application/json"]
    ensures r.body == Some(Obj(map["first_name" := Str(firstName), "last_name" := Str(lastName),
                                   "email" := Str(email), "password" := Str(password)]))
  {
    RequestOptions(ServerUrl(ip, "/auth/register"), "POST", map[],
                   Obj(map["first_name" := Str(firstName), "last_name" := Str(lastName),
                           "email" := Str(email), "password" := Str(password)]))
  }

  function UpdateProfileRequest(user: JsValue, token: string, ip: string): (r: Request)
    ensures Authenticated(r, ip, "/auth/me", token) && r.verb == "PUT"
    ensures r.body == if Truthy(user) then Some(user) else None
  {
    BearerOptions(ServerUrl(ip, "/auth/me"), "PUT", token, user);
    RequestOptions(ServerUrl(ip, "/auth/me"), "PUT", BearerHeader(token), user)
  }

  /** The current-password argument is sent as `new_password`. */
  function UpdatePasswordRequest(currentPassword: string, confirmPassword: string, token: string, ip: string): (r: Request)
    ensures Authenticated(r, ip, "/auth/me/password", token) && r.verb == "PUT"
    ensures r.body == Some(Obj(map["new_password" := Str(currentPassword), "confirm_password" := Str(confirmPassword)]))
  {
    BearerOptions(ServerUrl(ip, "/auth/me/password"), "PUT", token, Obj(map[]));
    RequestOptions(ServerUrl(ip, "/auth/me/password"), "PUT", BearerHeader(token),
                   Obj(map["new_password" := Str(currentPassword), "confirm_password" := Str(confirmPassword)]))
  }

  function LogoutRequest(token: string, ip: string): (r: Request)
    ensures Authenticated(r, ip, "/auth/logout", token) && r.verb == "POST" && r.body.None?
  {
    BearerOptions(ServerUrl(ip, "/auth/logout"), "POST", token, Undefined);
    RequestOptions(ServerUrl(ip, "/auth/logout"), "POST", BearerHeader(token), Undefined)
  }

  /** The code is pasted into the query string as it is, without URL encoding. */
  function VerifyEmailCodeRequest(code: string, token: string, ip: string): (r: Request)
    ensures Authenticated(r, ip, "/auth/verifystatus?code=" + code, token) && r.verb == "GET" && r.body.None?
  {
    BearerOptions(ServerUrl(ip, "/auth/verifystatus?code=" + code), "GET", token, Undefined);
    RequestOptions(ServerUrl(ip, "/auth/verifystatus?code=" + code), "GET", BearerHeader(token), Undefined)
  }

  function ResendVerificationRequest(email: JsValue, token: string, ip: string): (r: Request)
    ensures Authenticated(r, ip, "/auth/verifyemail", token) && r.verb == "POST"
    ensures r.body == Some(Obj(map["email" := email]))
  {
    BearerOptions(ServerUrl(ip, "/auth/verifyemail"), "POST", token, Obj(map[]));
    RequestOptions(ServerUrl(ip, "/auth/verifyemail"), "POST", BearerHeader(token), Obj(map["email" := email]))
  }

  /** `createEvent` falls back to `localhost` when no server address is configured. */
  function CreateEventRequest(event: JsValue, token: string, env: Env): (r: Request)
    ensures env.apiServerIp != "" ==> Authenticated(r, env.apiServerIp, "/events", token)
    ensures env.apiServerIp == "" ==> Authenticated(r, "localhost", "/events", token)
    ensures r.verb == "POST" && r.body == if Truthy(event) then Some(event) else None
  {
    var ip := if env.apiServerIp != "" then env.apiServerIp else "localhost";
    BearerOptions(ServerUrl(ip, "/events"), "POST", token, event);
    RequestOptions(ServerUrl(ip, "/events"), "POST", BearerHeader(token), event)
  }

  /** The backend as the client sees it: every call is recorded, and answered by the outcome given. */
  class Network {
    var calls: seq<Call>

    constructor ()
      ensures calls == []
    {
      calls := [];
    }

    /** `doFetch`: send the request, then normalise what comes back. */
    method DoFetch(request: Request, outcome: FetchOutcome) returns (r: Result<JsValue>)
      modifies this
      ensures calls == old(calls) + [Http(request)]
      ensures r == DoFetchResult(outcome)
    {
      calls := calls + [Http(request)];
      r := DoFetchResult(outcome);
    }

    /** `fetchEvents(token)`, whose body is not part of this model: its result is the outcome given. */
    method FetchEvents(token: string, outcome: Result<JsValue>) returns (r: Result<JsValue>)
      modifies this
      ensures calls == old(calls) + [Call.FetchEvents(token)]
      ensures r == outcome
    {
      calls := calls + [Call.FetchEvents(token)];
      r := outcome;
    }

    /** `deleteEvent(id, token)`, whose body is not part of this model either. */
    method DeleteEvent(id: JsValue, token: string, outcome: Result<JsValue>) returns (r: Result<JsValue>)
      modifies this
      ensures calls == old(calls) + [Call.DeleteEvent(id, token)]
      ensures r == outcome
    {
      calls := calls + [Call.DeleteEvent(id, token)];
      r := outcome;
    }
  }

  /**
   * The login step: `data.token` of the login response, refused with
   * "Invalid email or password" when it is not truthy.
   */
  function LoginToken(outcome: FetchOutcome): (r: Result<JsValue>)
    ensures r.Ok? ==> Truthy(r.value)
    ensures DoFetchResult(outcome).Err? ==> r == DoFetchResult(outcome)
    ensures DoFetchResult(outcome).Ok? && Truthy(Prop(DoFetchResult(outcome).value, "data"))
            && !Truthy(OptProp(Prop(DoFetchResult(outcome).value, "data"), "token"))
            ==> r == Err(Error("Invalid email or password"))
    ensures DoFetchResult(outcome).Ok? ==>
              var data := Prop(DoFetchResult(outcome).value, "data");
              && (r.Ok? <==> Truthy(OptProp(data, "token")))
              && (r.Ok? ==> r.value == Prop(data, "token"))
              && (Nullish(data) ==> r == Err(ReadError(data, "token")))
  {
    match DoFetchResult(outcome)
    case Err(e) => Err(e)
    case Ok(body) =>
      var loginData := Prop(body, "data");
      match ReadProp(loginData, "token")
      case Err(e) => Err(e)
      case Ok(token) => if !Truthy(token) then Err(Error("Invalid email or password")) else Ok(token)
  }

  /** What `loginAndFetchProfile` resolves to. */
  datatype LoginResult = LoginResult(profile: JsValue, token: JsValue)

  /** The profile step: `data.profile` of the profile response, paired with the token. */
  function ProfileResult(outcome: FetchOutcome, token: JsValue): (r: Result<LoginResult>)
    ensures DoFetchResult(outcome).Err? ==> r == Err(DoFetchResult(outcome).error)
    ensures r.Ok? ==> r.value.token == token
    ensures r.Ok? ==> r.value.profile == OptProp(Prop(DoFetchResult(outcome).value, "data"), "profile")
    ensures DoFetchResult(outcome).Ok? ==> (r.Ok? <==> !Nullish(Prop(DoFetchResult(outcome).value, "data")))
    ensures DoFetchResult(outcome).Ok? && Nullish(Prop(DoFetchResult(outcome).value, "data"))
            ==> r == Err(ReadError(Prop(DoFetchResult(outcome).value, "data"), "profile"))
  {
    match DoFetchResult(outcome)
    case Err(e) => Err(e)
    case Ok(body) =>
      match ReadProp(Prop(body, "data"), "profile")
      case Err(e) => Err(e)
      case Ok(profile) => Ok(LoginResult(profile, token))
  }

  /** What `loginAndFetchProfile` resolves to or throws: the login's failure, or the profile step's outcome. */
  function LoginAttempt(loginOutcome: FetchOutcome, profileOutcome: FetchOutcome): (r: Result<LoginResult>)
    ensures LoginToken(loginOutcome).Err? ==> r == Err(LoginToken(loginOutcome).error)
    ensures LoginToken(loginOutcome).Ok? ==> r == ProfileResult(profileOutcome, LoginToken(loginOutcome).value)
  {
    match LoginToken(loginOutcome)
    case Err(e) => Err(e)
    case Ok(token) => ProfileResult(profileOutcome, token)
  }

  /** The requests `loginAndFetchProfile` sends: the login, then the profile only when a token came back. */
  function LoginCalls(email: string, password: string, ip: string, loginOutcome: FetchOutcome): (calls: seq<Call>)
    ensures 1 <= |calls| <= 2 && calls[0] == Http(LoginRequest(email, password, ip))
    ensures |calls| == 2 <==> LoginToken(loginOutcome).Ok?
    ensures |calls| == 2 ==> calls[1] == Http(ProfileRequest(ToJsString(LoginToken(loginOutcome).value), ip))
  {
    [Http(LoginRequest(email, password, ip))]
    + match LoginToken(loginOutcome)
      case Err(_) => []
      case Ok(token) => [Http(ProfileRequest(ToJsString(token), ip))]
  }

  /**
   * `loginAndFetchProfile`: log in, store the token, then fetch the profile
   * with it. Without a token nothing is stored and no profile is requested.
   */
  method LoginAndFetchProfile(email: string, password: string, ip: string,
                              net: Network, storage: SecureStorage,
                              loginOutcome: FetchOutcome, profileOutcome: FetchOutcome)
    returns (r: Result<LoginResult>)
    modifies net, storage
    ensures r == LoginAttempt(loginOutcome, profileOutcome)
    ensures net.calls == old(net.calls) + LoginCalls(email, password, ip, loginOutcome)
    ensures LoginToken(loginOutcome).Err? ==> storage.userToken == old(storage.userToken)
    ensures LoginToken(loginOutcome).Ok? ==> storage.userToken == Some(ToJsString(LoginToken(loginOutcome).value))
  {
    var login := net.DoFetch(LoginRequest(email, password, ip), loginOutcome);
    var token := LoginToken(loginOutcome);
    if token.Err? {
      return Err(token.error);
    }
    storage.SaveToken(ToJsString(token.value));
    var _ := net.DoFetch(ProfileRequest(ToJsString(token.value), ip), profileOutcome);
    r := ProfileResult(profileOutcome, token.value);
  }

  /**
   * The signup step: the `data` of the registration response, or an error
   * carrying the server's `message` (or a default) when there is no data.
   */
  function SignupData(outcome: FetchOutcome): (r: Result<JsValue>)
    ensures r.Ok? ==> Truthy(r.value)
    ensures DoFetchResult(outcome).Err? ==> r == DoFetchResult(outcome)
    ensures DoFetchResult(outcome).Ok? && !Truthy(Prop(DoFetchResult(outcome).value, "data")) ==>
      var message := Prop(DoFetchResult(outcome).value, "message");
      r == Err(Error(if Truthy(message) then ToJsString(message) else "Invalid email or password"))
    ensures DoFetchResult(outcome).Ok? && Truthy(Prop(DoFetchResult(outcome).value, "data")) ==>
      r == Ok(Prop(DoFetchResult(outcome).value, "data"))
  {
    match DoFetchResult(outcome)
    case Err(e) => Err(e)
    case Ok(body) =>
      var message := Prop(body, "message");
      var data := Prop(body, "data");
      if !Truthy(data) then Err(Error(ToJsString(Or(message, Str("Invalid email or password")))))
      else Ok(data)
  }

  /** The profile signup dispatches: exactly the four fields, copied from the response data. */
  function SignupProfile(data: JsValue): (p: JsValue)
    requires !Nullish(data)
    ensures p.Obj? && p.fields.Keys == {"first_name", "last_name", "email", "is_activated"}
    ensures forall k :: k in p.fields ==> p.fields[k] == Prop(data, k)
  {
    Obj(map["first_name" := Prop(data, "first_name"), "last_name" := Prop(data, "last_name"),
            "email" := Prop(data, "email"), "is_activated" := Prop(data, "is_activated")])
  }

  /**
   * `signupAndFetchProfile`: register, store `data.token`, and dispatch the
   * profile when a dispatcher is given. On failure nothing is stored or dispatched.
   */
  method SignupAndFetchProfile(firstName: string, lastName: string, email: string, password: string,
                               ip: string, dispatchProfile: bool,
                               net: Network, storage: SecureStorage, profiles: ProfileSlice,
                               outcome: FetchOutcome)
    returns (r: Result<JsValue>)
    modifies net, storage, profiles
    ensures net.calls == old(net.calls) + [Http(SignupRequest(firstName, lastName, email, password, ip))]
    ensures r == SignupData(outcome)
    ensures r.Err? ==> storage.userToken == old(storage.userToken) && profiles.profile == old(profiles.profile)
    ensures r.Ok? ==> storage.userToken == Some(ToJsString(Prop(r.value, "token")))
    ensures r.Ok? && dispatchProfile ==> profiles.profile == SignupProfile(r.value)
    ensures r.Ok? && !dispatchProfile ==> profiles.profile == old(profiles.profile)
  {
    var _ := net.DoFetch(SignupRequest(firstName, lastName, email, password, ip), outcome);
    r := SignupData(outcome);
    if r.Err? {
      return;
    }
    storage.SaveToken(ToJsString(Prop(r.value, "token")));
    if dispatchProfile {
      profiles.SetProfile(SignupProfile(r.value));
    }
  }
}
