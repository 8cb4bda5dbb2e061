/**
 * The signup screen: the name, email, password and server checks, then
 * `signupAndFetchProfile` with the profile dispatched, the fields cleared and
 * the routing on the new account's activation flag.
 */
module SignupView {
  import opened JsValues
  import opened Validators
  import opened Platform
  import opened FetchApi

  const InvalidName := Translated("invalidFirstOrLastName")
  const InvalidEmail := Translated("invalidEmailFormat")
  const InvalidPassword := Translated("invalidPasswordFormat")
  const ServerMisconfiguration := Translated("serverMisconfiguration")

  /**
   * The checks of `validateAndSignup`, in order: first name, last name (both
   * reported as the same key), email shape, password policy, then a configured
   * server address.
   */
  function SignupCheck(firstName: string, lastName: string, email: string, password: string, env: Env): (r: Option<UiText>)
    ensures r == Some(InvalidName) <==> !FirstNameValid(firstName) || !LastNameValid(lastName)
    ensures r == Some(InvalidEmail) <==> FirstNameValid(firstName) && LastNameValid(lastName) && !IsEmail(email)
    ensures r == Some(InvalidPassword) <==>
            FirstNameValid(firstName) && LastNameValid(lastName) && IsEmail(email) && !PasswordMeetsPolicy(password)
    ensures r == Some(ServerMisconfiguration) <==>
            FirstNameValid(firstName) && LastNameValid(lastName) && IsEmail(email) && PasswordMeetsPolicy(password)
            && env.apiServerIp == ""
    ensures r.None? <==>
            FirstNameValid(firstName) && LastNameValid(lastName) && IsEmail(email) && PasswordMeetsPolicy(password)
            && env.apiServerIp != ""
  {
    if !FirstNameValid(firstName) then Some(InvalidName)
    else if !LastNameValid(lastName) then Some(InvalidName)
    else if !IsEmail(email) then Some(InvalidEmail)
    else if !PasswordMeetsPolicy(password) then Some(InvalidPassword)
    else if env.apiServerIp == "" then Some(ServerMisconfiguration)
    else None
  }

  /** A hyphen is accepted in the first name and refused in the last name. */
  lemma HyphenatedLastNameRefused(firstName: string, a: string, b: string, email: string, password: string, env: Env)
    requires LastNameValid(a) && LastNameValid(b)
    ensures SignupCheck(a + "-" + b, a, email, password, env) != Some(InvalidName)
    ensures SignupCheck(firstName, a + "-" + b, email, password, env) == Some(InvalidName)
  {
    HyphenOnlyInFirstName(a, b);
  }

  /**
   * Where a successful signup leads: `/EmailVerify` with `data.token` when
   * `data.is_activated === false`, and `/(tabs)` otherwise.
   */
  function SignupRoute(data: JsValue): (nav: Navigation)
    requires Truthy(data)
    ensures Prop(data, "is_activated") == Bool(false) ==> nav == Push("/EmailVerify", map["token" := Prop(data, "token")])
    ensures Prop(data, "is_activated") != Bool(false) ==> nav == Push("/(tabs)", map[])
  {
    if Prop(data, "is_activated") == Bool(false) then Push("/EmailVerify", map["token" := Prop(data, "token")])
    else Push("/(tabs)", map[])
  }

  /** The `catch` block's text: the thrown message, or the translated general error when it is empty. */
  function SignupFailureText(e: JsError): (t: UiText)
    ensures e.message != "" ==> t == Literal(e.message)
    ensures e.message == "" ==> t == Translated("serverGeneralError")
  {
    if e.message != "" then Literal(e.message) else Translated("serverGeneralError")
  }

  /** A registration answered without `data` reports the server's message. */
  lemma ServerMessageReported(outcome: FetchOutcome, message: string)
    requires DoFetchResult(outcome).Ok? && !Truthy(Prop(DoFetchResult(outcome).value, "data"))
    requires Prop(DoFetchResult(outcome).value, "message") == Str(message) && message != ""
    ensures SignupData(outcome).Err?
    ensures SignupFailureText(SignupData(outcome).error) == Literal(message)
  {
  }

  /** The screen's five `useState` slots. */
  class SignupScreen {
    var firstName: string
    var lastName: string
    var email: string
    var password: string
    var error: UiText

    constructor ()
      ensures firstName == "" && lastName == "" && email == "" && password == "" && error == Literal("")
    {
      firstName, lastName, email, password, error := "", "", "", "", Literal("");
    }

    /**
     * `validateAndSignup`. A refused check sets its error and changes nothing
     * else. Otherwise one registration request is sent and the password is
     * cleared in `finally`; a failure sets the error text and keeps the other
     * fields, a success stores the token, dispatches the profile, clears every
     * field and the error, then routes.
     */
    method ValidateAndSignup(env: Env, net: Network, storage: SecureStorage, profiles: ProfileSlice, router: Router,
                             outcome: FetchOutcome)
      modifies this, net, storage, profiles, router
      ensures SignupCheck(old(firstName), old(lastName), old(email), old(password), env).Some? ==>
        && error == SignupCheck(old(firstName), old(lastName), old(email), old(password), env).value
        && firstName == old(firstName) && lastName == old(lastName)
        && email == old(email) && password == old(password)
        && net.calls == old(net.calls) && storage.userToken == old(storage.userToken)
        && profiles.profile == old(profiles.profile) && router.history == old(router.history)
      ensures SignupCheck(old(firstName), old(lastName), old(email), old(password), env).None? ==>
        && password == ""
        && net.calls == old(net.calls) + [Http(SignupRequest(old(firstName), old(lastName), old(email), old(password),
                                                             RequestIp(env)))]
      ensures SignupCheck(old(firstName), old(lastName), old(email), old(password), env).None? ==>
        var r := SignupData(outcome);
        && (r.Err? ==>
              && error == SignupFailureText(r.error)
              && firstName == old(firstName) && lastName == old(lastName) && email == old(email)
              && storage.userToken == old(storage.userToken)
              && profiles.profile == old(profiles.profile) && router.history == old(router.history))
        && (r.Ok? ==>
              && firstName == "" && lastName == "" && email == "" && error == Literal("")
              && storage.userToken == Some(ToJsString(Prop(r.value, "token")))
              && profiles.profile == SignupProfile(r.value)
              && router.history == old(router.history) + [SignupRoute(r.value)])
    {
      var check := SignupCheck(firstName, lastName, email, password, env);
      if check.Some? {
        error := check.value;
        return;
      }
      var r := SignupAndFetchProfile(firstName, lastName, email, password, RequestIp(env), true,
                                     net, storage, profiles, outcome);
      ConcludeSignup(r, router);
    }

    /** Everything after `signupAndFetchProfile` settled, including the `finally` block. */
    method ConcludeSignup(r: Result<JsValue>, router: Router)
      requires r.Ok? ==> Truthy(r.value)
      modifies this, router
      ensures password == ""
      ensures r.Err? ==>
        && error == SignupFailureText(r.error)
        && firstName == old(firstName) && lastName == old(lastName) && email == old(email)
        && router.history == old(router.history)
      ensures r.Ok? ==>
        && firstName == "" && lastName == "" && email == "" && error == Literal("")
        && router.history == old(router.history) + [SignupRoute(r.value)]
    {
      if r.Err? {
        error := SignupFailureText(r.error);
      } else {
        firstName, lastName, email, password, error := "", "", "", "", Literal("");
        var data := r.value;
        if Prop(data, "is_activated") == Bool(false) {
          router.Push("/EmailVerify", map["token" := Prop(data, "token")]);
        } else {
          router.Push("/(tabs)", map[]);
        }
      }
      password := "";
    }
  }
}
