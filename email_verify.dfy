/**
 * The email verification screen: the code check followed by the activation
 * update, the resend request, and the redirect once the stored profile says
 * the account is active. The token arrives as a route parameter.
 */
module EmailVerify {
  import opened JsValues
  import opened Platform
  import opened FetchApi

  const NoServerMessage := "API server IP is not set."
  const NoUserMessage := "User information is not available."
  const WrongCodeMessage := "Invalid verification code"
  const VerifyFailedMessage := "Verification failed. Please try again."
  const VerifiedMessage := "Email verified!"
  const AlreadySentMessage := "Verification email already sent. Please check your inbox."
  const ResendFailedMessage := "Failed to resend verification email."

  /** A route parameter as `useLocalSearchParams` hands it over: missing, one string, or several. */
  datatype SearchParam = Absent | One(text: string) | Many(texts: seq<string>)

  /** The parameter as a JavaScript value. */
  function ParamValue(p: SearchParam): (v: JsValue)
    ensures v == Undefined <==> p.Absent?
    ensures p.One? ==> v == Str(p.text)
    ensures p.Many? ==> v.Arr? && |v.items| == |p.texts|
    ensures p.Many? ==> forall k :: 0 <= k < |p.texts| ==> v.items[k] == Str(p.texts[k])
  {
    match p
    case Absent => Undefined
    case One(s) => Str(s)
    case Many(xs) => Arr(seq(|xs|, k requires 0 <= k < |xs| => Str(xs[k])))
  }

  /** `Array.isArray(token) ? token[0] : token`. */
  function UserToken(p: SearchParam): (v: JsValue)
    ensures v.Undefined? || v.Str?
    ensures v.Undefined? <==> p.Absent? || p == Many([])
    ensures p.Many? && p.texts != [] ==> v == Str(p.texts[0])
  {
    match p
    case Absent => Undefined
    case One(s) => Str(s)
    case Many(xs) => if xs == [] then Undefined else Str(xs[0])
  }

  /** The normalised token is the first element of an array parameter and the parameter itself otherwise. */
  lemma UserTokenOfParamValue(p: SearchParam)
    ensures var v := ParamValue(p);
            UserToken(p) == if v.Arr? then (if v.items == [] then Undefined else v.items[0]) else v
  {
  }

  /** The token as the bearer header spells it: `${userToken}`, so a missing one becomes "undefined". */
  function TokenText(p: SearchParam): (t: string)
    ensures p.One? ==> t == p.text
    ensures p.Many? && p.texts != [] ==> t == p.texts[0]
    ensures p.Absent? || p == Many([]) ==> t == "undefined"
  {
    ToJsString(UserToken(p))
  }

  /** The flag sent by `updateProfile({ is_activated: true }, ...)`. */
  const ActivatedFlag := Obj(map["is_activated" := Bool(true)])

  /**
   * `data.success === true` of the verification response, or what was thrown
   * on the way: the request's failure, or the read of `success` on a missing `data`.
   */
  function CodeAccepted(outcome: FetchOutcome): (r: Result<bool>)
    ensures DoFetchResult(outcome).Err? ==> r == Err(DoFetchResult(outcome).error)
    ensures r.Err? <==> DoFetchResult(outcome).Err? || Nullish(Prop(DoFetchResult(outcome).value, "data"))
    ensures r == Ok(true) <==>
            && DoFetchResult(outcome).Ok?
            && var data := Prop(DoFetchResult(outcome).value, "data");
               !Nullish(data) && Prop(data, "success") == Bool(true)
  {
    match DoFetchResult(outcome)
    case Err(e) => Err(e)
    case Ok(body) =>
      match ReadProp(Prop(body, "data"), "success")
      case Err(e) => Err(e)
      case Ok(success) => Ok(success == Bool(true))
  }

  /** How `handleVerify` ends once a server address is configured. */
  datatype VerifyEnd = Verified(profile: JsValue) | CodeRefused | VerifyFailed

  /**
   * The end of a verification: the profile is updated and stored only when
   * the code was accepted and the update went through; a code the server
   * declined is reported as such; anything thrown is a failure.
   */
  function VerifyEndOf(verifyOutcome: FetchOutcome, updateOutcome: FetchOutcome): (e: VerifyEnd)
    ensures e.Verified? <==> CodeAccepted(verifyOutcome) == Ok(true) && DoFetchResult(updateOutcome).Ok?
    ensures e.Verified? ==> e.profile == Prop(DoFetchResult(updateOutcome).value, "data")
    ensures e.CodeRefused? <==> CodeAccepted(verifyOutcome) == Ok(false)
    ensures e.VerifyFailed? <==>
            CodeAccepted(verifyOutcome).Err? || (CodeAccepted(verifyOutcome) == Ok(true) && DoFetchResult(updateOutcome).Err?)
  {
    match CodeAccepted(verifyOutcome)
    case Err(_) => VerifyFailed
    case Ok(accepted) =>
      if !accepted then CodeRefused
      else
        match DoFetchResult(updateOutcome)
        case Err(_) => VerifyFailed
        case Ok(body) => Verified(Prop(body, "data"))
  }

  /** The requests `handleVerify` sends: the code check, then the activation update only for an accepted code. */
  function VerifyCalls(code: string, token: string, ip: string, verifyOutcome: FetchOutcome): (calls: seq<Call>)
    ensures |calls| == if CodeAccepted(verifyOutcome) == Ok(true) then 2 else 1
    ensures calls[0] == Http(VerifyEmailCodeRequest(code, token, ip))
    ensures |calls| == 2 ==> calls[1] == Http(UpdateProfileRequest(ActivatedFlag, token, ip))
  {
    [Http(VerifyEmailCodeRequest(code, token, ip))]
    + if CodeAccepted(verifyOutcome) == Ok(true) then [Http(UpdateProfileRequest(ActivatedFlag, token, ip))] else []
  }

  /** The activation update sends the flag, authenticated with the same token as the code check. */
  lemma ActivationSendsFlag(code: string, token: string, ip: string, verifyOutcome: FetchOutcome)
    requires CodeAccepted(verifyOutcome) == Ok(true)
    ensures var calls := VerifyCalls(code, token, ip, verifyOutcome);
            && calls[1].request.body == Some(Obj(map["is_activated" := Bool(true)]))
            && calls[1].request.headers["Authorization"] == calls[0].request.headers["Authorization"]
  {
  }

  /** A screen opened without a token sends "Bearer undefined". */
  lemma MissingTokenSentAsUndefined(code: string, ip: string)
    ensures VerifyEmailCodeRequest(code, TokenText(Absent), ip).headers["Authorization"] == "Bearer undefined"
  {
  }

  /**
   * The line `handleResend` leaves once the request was sent: the "already
   * sent" text exactly when the response's `data.message` is "Verification
   * email sent", the failure text in every other case.
   */
  function ResendMessage(outcome: FetchOutcome): (m: string)
    ensures m == AlreadySentMessage || m == ResendFailedMessage
    ensures m == AlreadySentMessage <==>
            && DoFetchResult(outcome).Ok?
            && var data := Prop(DoFetchResult(outcome).value, "data");
               !Nullish(data) && Prop(data, "message") == Str("Verification email sent")
  {
    match DoFetchResult(outcome)
    case Err(_) => ResendFailedMessage
    case Ok(body) =>
      match ReadProp(Prop(body, "data"), "message")
      case Err(_) => ResendFailedMessage
      case Ok(message) => if message == Str("Verification email sent") then AlreadySentMessage else ResendFailedMessage
  }

  /**
   * The redirect effect: to `/(tabs)`, passing the raw parameter on, when the
   * stored profile is active with a strict `=== true` and the raw parameter is truthy.
   */
  function RedirectOnActivation(user: JsValue, token: SearchParam): (nav: Option<Navigation>)
    ensures nav.Some? <==> Truthy(user) && Prop(user, "is_activated") == Bool(true) && Truthy(ParamValue(token))
    ensures nav.Some? ==> nav.value == Push("/(tabs)", map["token" := ParamValue(token)])
  {
    if Truthy(user) && Prop(user, "is_activated") == Bool(true) && Truthy(ParamValue(token)) then
      Some(Push("/(tabs)", map["token" := ParamValue(token)]))
    else None
  }

  /**
   * The effect tests the raw parameter, not the normalised token: an empty
   * array is truthy, so an active user is redirected though the requests
   * would carry no token.
   */
  lemma EmptyTokenListStillRedirects(user: JsValue)
    requires Truthy(user) && Prop(user, "is_activated") == Bool(true)
    ensures RedirectOnActivation(user, Many([])).Some?
    ensures UserToken(Many([])) == Undefined
  {
  }

  /** A profile whose flag is merely truthy, such as 1, does not redirect. */
  lemma TruthyFlagDoesNotRedirect(token: SearchParam)
    ensures RedirectOnActivation(Obj(map["is_activated" := Num(1)]), token).None?
  {
  }

  /**
   * What a settled verification leaves: on success a cleared error, the
   * success line, the returned profile stored and a push to `/(tabs)`; on a
   * refused code or a failure the matching error, no success line, and the
   * profile and navigation untouched.
   */
  predicate VerifyEffects(end: VerifyEnd, error: string, success: string,
                          profile0: JsValue, profile: JsValue, history0: seq<Navigation>, history: seq<Navigation>)
  {
    match end
    case Verified(p) =>
      error == "" && success == VerifiedMessage && profile == p && history == history0 + [Push("/(tabs)", map[])]
    case CodeRefused =>
      error == WrongCodeMessage && success == "" && profile == profile0 && history == history0
    case VerifyFailed =>
      error == VerifyFailedMessage && success == "" && profile == profile0 && history == history0
  }

  /**
   * The `try` block of `handleVerify` with its `catch`: the lines it leaves
   * (error, success) and the profile and navigation of an accepted code.
   */
  method ConfirmCode(code: string, token: string, ip: string, net: Network, profiles: ProfileSlice, router: Router,
                     verifyOutcome: FetchOutcome, updateOutcome: FetchOutcome)
    returns (error: string, success: string)
    modifies net, profiles, router
    ensures net.calls == old(net.calls) + VerifyCalls(code, token, ip, verifyOutcome)
    ensures VerifyEffects(VerifyEndOf(verifyOutcome, updateOutcome), error, success,
                          old(profiles.profile), profiles.profile, old(router.history), router.history)
  {
    error, success := "", "";
    var verify := net.DoFetch(VerifyEmailCodeRequest(code, token, ip), verifyOutcome);
    if verify.Err? || Nullish(Prop(verify.value, "data")) {
      error := VerifyFailedMessage;
    } else if Prop(Prop(verify.value, "data"), "success") != Bool(true) {
      error := WrongCodeMessage;
    } else {
      var update := net.DoFetch(UpdateProfileRequest(ActivatedFlag, token, ip), updateOutcome);
      if update.Err? {
        error := VerifyFailedMessage;
      } else {
        profiles.SetProfile(Prop(update.value, "data"));
        success := VerifiedMessage;
        router.Push("/(tabs)", map[]);
      }
    }
  }

  /** The `try` block of `handleResend` with its `catch`: one request, and the line it leaves. */
  method RequestResend(email: JsValue, token: string, ip: string, net: Network, outcome: FetchOutcome)
    returns (error: string)
    modifies net
    ensures net.calls == old(net.calls) + [Http(ResendVerificationRequest(email, token, ip))]
    ensures error == ResendMessage(outcome)
  {
    var sent := net.DoFetch(ResendVerificationRequest(email, token, ip), outcome);
    if sent.Ok? && !Nullish(Prop(sent.value, "data"))
       && Prop(Prop(sent.value, "data"), "message") == Str("Verification email sent") {
      error := AlreadySentMessage;
    } else {
      error := ResendFailedMessage;
    }
  }

  /** The screen's `useState` slots, with every `setLoading` and `setResendLoading` call recorded. */
  class EmailVerifyScreen {
    const token: SearchParam
    var code: string
    var loading: bool
    var loadingUpdates: seq<bool>
    var error: string
    var success: string
    var resendLoading: bool
    var resendLoadingUpdates: seq<bool>

    constructor (token: SearchParam)
      ensures this.token == token && code == ""
      ensures !loading && loadingUpdates == [] && error == "" && success == ""
      ensures !resendLoading && resendLoadingUpdates == []
    {
      this.token := token;
      code := "";
      loading, loadingUpdates := false, [];
      error, success := "", "";
      resendLoading, resendLoadingUpdates := false, [];
    }

    /**
     * `handleVerify`. Loading is set, the lines are cleared, and then: without
     * a server address the error says so and loading is reset twice (once
     * before `return`, once in `finally`); otherwise the code is checked and,
     * when accepted, the activation is sent, the returned profile stored and
     * the screen moves on to `/(tabs)`.
     */
    method HandleVerify(env: Env, net: Network, profiles: ProfileSlice, router: Router,
                        verifyOutcome: FetchOutcome, updateOutcome: FetchOutcome)
      modifies this, net, profiles, router
      ensures code == old(code) && resendLoading == old(resendLoading)
      ensures resendLoadingUpdates == old(resendLoadingUpdates)
      ensures !loading
      ensures env.apiServerIp == "" ==>
        && error == NoServerMessage && success == ""
        && loadingUpdates == old(loadingUpdates) + [true, false, false]
        && net.calls == old(net.calls)
        && profiles.profile == old(profiles.profile) && router.history == old(router.history)
      ensures env.apiServerIp != "" ==>
        && loadingUpdates == old(loadingUpdates) + [true, false]
        && net.calls == old(net.calls) + VerifyCalls(old(code), TokenText(token), env.apiServerIp, verifyOutcome)
      ensures env.apiServerIp != "" ==>
        VerifyEffects(VerifyEndOf(verifyOutcome, updateOutcome), error, success,
                      old(profiles.profile), profiles.profile, old(router.history), router.history)
    {
      loading, loadingUpdates := true, loadingUpdates + [true];
      error, success := "", "";
      if env.apiServerIp == "" {
        error := NoServerMessage;
        loading, loadingUpdates := false, loadingUpdates + [false];
      } else {
        error, success := ConfirmCode(code, TokenText(token), env.apiServerIp, net, profiles, router,
                                      verifyOutcome, updateOutcome);
      }
      loading, loadingUpdates := false, loadingUpdates + [false];
    }

    /**
     * `handleResend`. Without a server address, or without a stored profile,
     * the error says so and nothing is sent; otherwise the lines are cleared
     * and one resend request carries the profile's email.
     */
    method HandleResend(env: Env, profiles: ProfileSlice, net: Network, outcome: FetchOutcome)
      modifies this, net
      ensures code == old(code) && loading == old(loading) && loadingUpdates == old(loadingUpdates)
      ensures !resendLoading
      ensures env.apiServerIp == "" ==>
        && error == NoServerMessage && success == old(success)
        && resendLoadingUpdates == old(resendLoadingUpdates) + [false] && net.calls == old(net.calls)
      ensures env.apiServerIp != "" && !Truthy(profiles.profile) ==>
        && error == NoUserMessage && success == old(success)
        && resendLoadingUpdates == old(resendLoadingUpdates) + [false] && net.calls == old(net.calls)
      ensures env.apiServerIp != "" && Truthy(profiles.profile) ==>
        && net.calls == old(net.calls)
                        + [Http(ResendVerificationRequest(Prop(profiles.profile, "email"), TokenText(token),
                                                          env.apiServerIp))]
        && error == ResendMessage(outcome) && success == ""
        && resendLoadingUpdates == old(resendLoadingUpdates) + [true, false]
    {
      if env.apiServerIp == "" {
        error := NoServerMessage;
        resendLoading, resendLoadingUpdates := false, resendLoadingUpdates + [false];
        return;
      }
      var user := profiles.profile;
      if !Truthy(user) {
        error := NoUserMessage;
        resendLoading, resendLoadingUpdates := false, resendLoadingUpdates + [false];
        return;
      }
      resendLoading, resendLoadingUpdates := true, resendLoadingUpdates + [true];
      error, success := "", "";
      error := RequestResend(Prop(user, "email"), TokenText(token), env.apiServerIp, net, outcome);
      resendLoading, resendLoadingUpdates := false, resendLoadingUpdates + [false];
    }

    /** The effect on `[user, token]`: at most one push, decided by `RedirectOnActivation`. */
    method RedirectIfActivated(profiles: ProfileSlice, router: Router)
      modifies router
      ensures router.history == old(router.history) + NavigationsOf(RedirectOnActivation(profiles.profile, token))
    {
      var user := profiles.profile;
      if Truthy(user) && Prop(user, "is_activated") == Bool(true) && Truthy(ParamValue(token)) {
        router.Push("/(tabs)", map["token" := ParamValue(token)]);
      }
    }
  }
}
