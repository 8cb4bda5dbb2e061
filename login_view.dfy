/**
 * The login screen: the email and password checks, the server-configuration
 * check, then `loginAndFetchProfile` and the routing on the profile's
 * activation flag. Errors are i18n keys or the message of what was thrown.
 */
module LoginView {
  import opened JsValues
  import opened Validators
  import opened Platform
  import opened FetchApi

  const InvalidCredentials := Translated("invalidEmailOrPassword")
  const ServerMisconfiguration := Translated("serverMisconfiguration")

  /**
   * The checks of `validateAndLogin`, in order: email shape, password policy
   * (both reported as the same key), then a configured server address.
   */
  function LoginCheck(email: string, password: string, env: Env): (r: Option<UiText>)
    ensures r == Some(InvalidCredentials) <==> !IsEmail(email) || !PasswordMeetsPolicy(password)
    ensures r == Some(ServerMisconfiguration) <==>
            IsEmail(email) && PasswordMeetsPolicy(password) && env.apiServerIp == ""
    ensures r.None? <==> IsEmail(email) && PasswordMeetsPolicy(password) && env.apiServerIp != ""
  {
    if !IsEmail(email) then Some(InvalidCredentials)
    else if !PasswordMeetsPolicy(password) then Some(InvalidCredentials)
    else if env.apiServerIp == "" then Some(ServerMisconfiguration)
    else None
  }

  /** A six-character password that the older screen accepted is refused here. */
  lemma LegacyPasswordRefused(email: string, env: Env)
    ensures LoginCheck(email, "abcdef", env) == Some(InvalidCredentials)
  {
    PolicyIsStricterThanLegacy("abcdef");
  }

  /** The profile says, with a strict `=== false`, that the account is not activated yet. */
  predicate AwaitsActivation(res: LoginResult)
  {
    Truthy(res.profile) && Prop(res.profile, "is_activated") == Bool(false)
  }

  /**
   * Where a resolved login leads: nowhere when the profile is falsy, to
   * `/EmailVerify` with the token when the account awaits activation, and to
   * `/(tabs)` otherwise.
   */
  function LoginRoute(res: LoginResult): (nav: Option<Navigation>)
    ensures nav.None? <==> !Truthy(res.profile)
    ensures nav == Some(Push("/EmailVerify", map["token" := res.token])) <==> AwaitsActivation(res)
    ensures nav == Some(Push("/(tabs)", map[])) <==> Truthy(res.profile) && !AwaitsActivation(res)
  {
    if !Truthy(res.profile) then None
    else if Prop(res.profile, "is_activated") == Bool(false) then Some(Push("/EmailVerify", map["token" := res.token]))
    else Some(Push("/(tabs)", map[]))
  }

  /** Only an explicit `false` holds the user back: a missing flag, or 0, lets them in. */
  lemma MissingActivationFlagLetsIn(fields: map<string, JsValue>, token: JsValue)
    requires "is_activated" !in fields || fields["is_activated"] == Num(0)
    ensures LoginRoute(LoginResult(Obj(fields), token)) == Some(Push("/(tabs)", map[]))
  {
  }

  /** The `catch` block's text: the thrown message, or a fixed fallback when it is empty. */
  function LoginFailureText(e: JsError): (t: UiText)
    ensures t.Literal? && t.text != ""
    ensures e.message != "" ==> t.text == e.message
    ensures e.message == "" ==> t == Literal("A server error occurred. Please try again.")
  {
    if e.message != "" then Literal(e.message) else Literal("A server error occurred. Please try again.")
  }

  /** A failed login reports "Invalid email or password" when the server sent no token. */
  lemma MissingTokenReported(loginOutcome: FetchOutcome, profileOutcome: FetchOutcome)
    requires DoFetchResult(loginOutcome).Ok?
    requires Truthy(Prop(DoFetchResult(loginOutcome).value, "data"))
    requires !Truthy(OptProp(Prop(DoFetchResult(loginOutcome).value, "data"), "token"))
    ensures LoginAttempt(loginOutcome, profileOutcome).Err?
    ensures LoginFailureText(LoginAttempt(loginOutcome, profileOutcome).error) == Literal("Invalid email or password")
  {
  }

  /** The screen's three `useState` slots. */
  class LoginScreen {
    var email: string
    var password: string
    var error: UiText

    constructor ()
      ensures email == "" && password == "" && error == Literal("")
    {
      email, password, error := "", "", Literal("");
    }

    /**
     * `validateAndLogin`. A refused check sets its error and changes nothing
     * else. Otherwise the login runs against the mission address (or the API
     * address), the password is cleared in `finally`, and the attempt ends in
     * either the thrown error or a profile update, a navigation and, unless the
     * account awaits activation, cleared fields.
     */
    method ValidateAndLogin(env: Env, net: Network, storage: SecureStorage, profiles: ProfileSlice, router: Router,
                            loginOutcome: FetchOutcome, profileOutcome: FetchOutcome)
      modifies this, net, storage, profiles, router
      ensures LoginCheck(old(email), old(password), env).Some? ==>
        && error == LoginCheck(old(email), old(password), env).value
        && email == old(email) && password == old(password)
        && net.calls == old(net.calls) && storage.userToken == old(storage.userToken)
        && profiles.profile == old(profiles.profile) && router.history == old(router.history)
      ensures LoginCheck(old(email), old(password), env).None? ==>
        && password == ""
        && net.calls == old(net.calls) + LoginCalls(old(email), old(password), RequestIp(env), loginOutcome)
        && (LoginToken(loginOutcome).Ok? ==> storage.userToken == Some(ToJsString(LoginToken(loginOutcome).value)))
        && (LoginToken(loginOutcome).Err? ==> storage.userToken == old(storage.userToken))
      ensures LoginCheck(old(email), old(password), env).None? ==>
        var r := LoginAttempt(loginOutcome, profileOutcome);
        && (r.Err? ==>
              && error == LoginFailureText(r.error) && email == old(email)
              && profiles.profile == old(profiles.profile) && router.history == old(router.history))
        && (r.Ok? ==>
              && profiles.profile == (if Truthy(r.value.profile) then r.value.profile else old(profiles.profile))
              && router.history == old(router.history) + NavigationsOf(LoginRoute(r.value))
              && (AwaitsActivation(r.value) ==> email == old(email) && error == old(error))
              && (!AwaitsActivation(r.value) ==> email == "" && error == Literal("")))
    {
      var check := LoginCheck(email, password, env);
      if check.Some? {
        error := check.value;
        return;
      }
      var r := LoginAndFetchProfile(email, password, RequestIp(env), net, storage, loginOutcome, profileOutcome);
      ConcludeLogin(r, profiles, router);
    }

    /** Everything after `loginAndFetchProfile` settled, including the `finally` block. */
    method ConcludeLogin(r: Result<LoginResult>, profiles: ProfileSlice, router: Router)
      modifies this, profiles, router
      ensures password == ""
      ensures r.Err? ==>
        && error == LoginFailureText(r.error) && email == old(email)
        && profiles.profile == old(profiles.profile) && router.history == old(router.history)
      ensures r.Ok? ==>
        && profiles.profile == (if Truthy(r.value.profile) then r.value.profile else old(profiles.profile))
        && router.history == old(router.history) + NavigationsOf(LoginRoute(r.value))
        && (AwaitsActivation(r.value) ==> email == old(email) && error == old(error))
        && (!AwaitsActivation(r.value) ==> email == "" && error == Literal(""))
    {
      if r.Err? {
        error := LoginFailureText(r.error);
      } else {
        var profile := r.value.profile;
        if Truthy(profile) {
          profiles.SetProfile(profile);
          if Prop(profile, "is_activated") == Bool(false) {
            router.Push("/EmailVerify", map["token" := r.value.token]);
            password := "";
            return;
          }
          router.Push("/(tabs)", map[]);
        }
        email, password, error := "", "", Literal("");
      }
      password := "";
    }
  }
}
