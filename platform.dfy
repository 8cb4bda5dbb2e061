/**
 * The collaborators the screens talk to: the router, the token store, the
 * profile slice of the Redux store, the translated texts and the environment
 * that names the API server. Each is a single slot or an append-only history.
 */
module Platform {
  import opened JsValues

  /** `process.env`; an unset variable reads as the empty string. */
  datatype Env = Env(apiServerIp: string, missionApiServerIp: string)

  /**
   * `EXPO_PUBLIC_MISSION_API_SERVER_IP || EXPO_PUBLIC_API_SERVER_IP`: the
   * address the login and signup requests go to. The screens only check the
   * second variable, so a configured mission address silently takes precedence.
   */
  function RequestIp(env: Env): (ip: string)
    ensures env.missionApiServerIp != "" ==> ip == env.missionApiServerIp
    ensures env.missionApiServerIp == "" ==> ip == env.apiServerIp
    ensures env.apiServerIp != "" ==> ip != ""
  {
    if env.missionApiServerIp != "" then env.missionApiServerIp else env.apiServerIp
  }

  /** A text a screen shows: an i18n key passed to `t(...)`, or a literal string. */
  datatype UiText = Translated(key: string) | Literal(text: string)

  /** A navigation request: expo-router `push`/`replace`, or react-navigation `navigate`. */
  datatype Navigation =
    | Push(path: string, params: map<string, JsValue>)
    | Replace(path: string)
    | NavigateTo(name: string)

  /** The navigations an optional one amounts to. */
  function NavigationsOf(nav: Option<Navigation>): seq<Navigation>
  {
    match nav
    case None => []
    case Some(n) => [n]
  }

  /** The router, seen through the navigations it has been asked for. */
  class Router {
    var history: seq<Navigation>

    constructor ()
      ensures history == []
    {
      history := [];
    }

    method Push(path: string, params: map<string, JsValue>)
      modifies this
      ensures history == old(history) + [Navigation.Push(path, params)]
    {
      history := history + [Navigation.Push(path, params)];
    }

    method Replace(path: string)
      modifies this
      ensures history == old(history) + [Navigation.Replace(path)]
    {
      history := history + [Navigation.Replace(path)];
    }

    method Navigate(name: string)
      modifies this
      ensures history == old(history) + [NavigateTo(name)]
    {
      history := history + [NavigateTo(name)];
    }
  }

  /** The device store holding the session token under the key `userToken`. */
  class SecureStorage {
    var userToken: Option<string>

    constructor (token: Option<string>)
      ensures userToken == token
    {
      userToken := token;
    }

    /** `saveData('userToken', value)`: last write wins. */
    method SaveToken(value: string)
      modifies this
      ensures userToken == Some(value)
    {
      userToken := Some(value);
    }
  }

  /** `loadData('userToken') || ''` and `loadData('userToken') ?? ''` agree on a string store. */
  function TokenOrEmpty(t: Option<string>): (s: string)
    ensures t.None? ==> s == ""
    ensures t.Some? ==> s == t.value
  {
    match t
    case None => ""
    case Some(v) => v
  }

  /** The profile slice: one value, replaced by `setProfile`. */
  class ProfileSlice {
    var profile: JsValue

    constructor ()
      ensures profile == Null
    {
      profile := Null;
    }

    method SetProfile(p: JsValue)
      modifies this
      ensures profile == p
    {
      profile := p;
    }
  }
}
