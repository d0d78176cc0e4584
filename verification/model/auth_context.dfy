/**
 * The session provider of context/AuthContext.jsx: the signed-in user, the
 * loading flag, and the two tokens kept in `localStorage`. Every API result
 * is a parameter of the method that awaits it.
 */
module AuthContext {
  import opened Wrappers
  import opened Roles
  import opened Browser
  import ApiClient

  /** The `{ access, refresh }` pair the token endpoint returns. */
  datatype TokenPair = TokenPair(access: string, refresh: string)

  /** The stored items with both tokens removed. */
  function WithoutTokens(items: map<string, string>): (r: map<string, string>)
    ensures ACCESS_TOKEN !in r && REFRESH_TOKEN !in r
    ensures forall k :: k != ACCESS_TOKEN && k != REFRESH_TOKEN ==> (k in r <==> k in items)
    ensures forall k :: k in r ==> r[k] == items[k]
  {
    items - {ACCESS_TOKEN, REFRESH_TOKEN}
  }

  /** Removing the tokens a second time changes nothing. */
  lemma WithoutTokensIdempotent(items: map<string, string>)
    ensures WithoutTokens(WithoutTokens(items)) == WithoutTokens(items)
  {
  }

  class AuthProvider {
    var user: Option<ClientUser>
    var loading: bool
    const storage: LocalStorage

    /** `useState(null)` and `useState(true)`; the store is the browser's. */
    constructor (storage: LocalStorage)
      ensures user == None && loading
      ensures this.storage == storage
    {
      user := None;
      loading := true;
      this.storage := storage;
    }

    /** `setUser`, exposed to consumers of the context. */
    method SetUser(u: Option<ClientUser>)
      modifies this
      ensures user == u && loading == old(loading)
    {
      user := u;
    }

    /** `logout`: removes both tokens and forgets the user; `loading` is untouched. */
    method Logout()
      modifies this, storage
      ensures storage.items == WithoutTokens(old(storage.items))
      ensures user == None && loading == old(loading)
    {
      storage.RemoveItem(ACCESS_TOKEN);
      storage.RemoveItem(REFRESH_TOKEN);
      user := None;
    }

    /**
     * `fetchProfile`: `GET /api/users/me/` through the interceptor. The data
     * becomes the user; a failure logs out. Either way loading ends. `request`
     * is the config the interceptor let through.
     */
    method FetchProfile(response: Response<ClientUser>) returns (request: ApiClient.RequestConfig)
      modifies this, storage
      ensures fresh(request)
      ensures request.headers == ApiClient.WithAuthorization(map[], old(storage.items))
      ensures !loading
      ensures response.Success? ==> user == Some(response.data) && storage.items == old(storage.items)
      ensures response.Failure? ==> user == None && storage.items == WithoutTokens(old(storage.items))
    {
      var config := new ApiClient.RequestConfig("get", "/api/users/me/", map[]);
      request := ApiClient.Intercept(config, storage);
      match response {
        case Success(data) =>
          user := Some(data);
        case Failure =>
          Logout();
      }
      loading := false;
    }

    /**
     * `login`: a failed token request changes nothing and answers false. A
     * successful one stores both tokens, fetches the profile and answers true,
     * whether or not the profile fetch succeeded. `request` is the profile
     * request the interceptor let through, `null` when none was sent.
     */
    method Login(username: string, password: string, tokens: Response<TokenPair>, profile: Response<ClientUser>)
      returns (ok: bool, request: ApiClient.RequestConfig?)
      modifies this, storage
      ensures ok <==> tokens.Success?
      ensures request == null <==> tokens.Failure?
      ensures tokens.Failure? ==>
        user == old(user) && loading == old(loading) && storage.items == old(storage.items)
      ensures tokens.Success? ==> !loading && request != null && fresh(request)
      ensures tokens.Success? && tokens.data.access != "" && request != null ==>
        request.headers == map[ApiClient.AUTHORIZATION := "Bearer " + tokens.data.access]
      ensures tokens.Success? && profile.Success? ==>
        user == Some(profile.data) &&
        storage.items == old(storage.items)[ACCESS_TOKEN := tokens.data.access][REFRESH_TOKEN := tokens.data.refresh]
      ensures tokens.Success? && profile.Failure? ==>
        user == None && storage.items == WithoutTokens(old(storage.items))
    {
      match tokens {
        case Failure =>
          ok := false;
          request := null;
        case Success(pair) =>
          storage.SetItem(ACCESS_TOKEN, pair.access);
          storage.SetItem(REFRESH_TOKEN, pair.refresh);
          request := FetchProfile(profile);
          ok := true;
      }
    }

    /**
     * The mount effect: with a truthy stored access token, fetch the profile;
     * otherwise just end loading. `requested` says whether a request was made.
     */
    method Bootstrap(profile: Response<ClientUser>) returns (requested: bool)
      modifies this, storage
      ensures requested <==> IsTruthy(old(storage.GetItem(ACCESS_TOKEN)))
      ensures !loading
      ensures !requested ==> user == old(user) && storage.items == old(storage.items)
      ensures requested && profile.Success? ==> user == Some(profile.data) && storage.items == old(storage.items)
      ensures requested && profile.Failure? ==> user == None && storage.items == WithoutTokens(old(storage.items))
    {
      var token := storage.GetItem(ACCESS_TOKEN);
      if IsTruthy(token) {
        var _ := FetchProfile(profile);
        requested := true;
      } else {
        loading := false;
        requested := false;
      }
    }
  }

  /** The first render after mounting: a fresh provider runs its effect once. */
  method Mount(storage: LocalStorage, profile: Response<ClientUser>) returns (auth: AuthProvider)
    modifies storage
    ensures fresh(auth) && auth.storage == storage && !auth.loading
    ensures !IsTruthy(old(storage.GetItem(ACCESS_TOKEN))) ==>
      auth.user == None && storage.items == old(storage.items)
    ensures IsTruthy(old(storage.GetItem(ACCESS_TOKEN))) && profile.Failure? ==>
      auth.user == None && ACCESS_TOKEN !in storage.items && REFRESH_TOKEN !in storage.items
  {
    auth := new AuthProvider(storage);
    var _ := auth.Bootstrap(profile);
  }

  /** `logout` twice leaves the same state as once. */
  method LogoutTwice(auth: AuthProvider)
    modifies auth, auth.storage
    ensures auth.user == None && auth.loading == old(auth.loading)
    ensures auth.storage.items == WithoutTokens(old(auth.storage.items))
  {
    auth.Logout();
    auth.Logout();
    WithoutTokensIdempotent(old(auth.storage.items));
  }

  /** One call a consumer of the context can make. */
  datatype SessionCall =
    | LoginCall(tokens: Response<TokenPair>, profile: Response<ClientUser>)
    | LogoutCall
    | FetchProfileCall(profile: Response<ClientUser>)
    | BootstrapCall(profile: Response<ClientUser>)
    | SetUserCall(u: Option<ClientUser>)

  /**
   * `loading` never goes back to true: once it is off, any sequence of
   * session calls leaves it off.
   */
  method LoadingStaysOff(auth: AuthProvider, calls: seq<SessionCall>)
    requires !auth.loading
    modifies auth, auth.storage
    ensures !auth.loading
  {
    for i := 0 to |calls|
      invariant !auth.loading
    {
      match calls[i] {
        case LoginCall(tokens, profile) =>
          var _, _ := auth.Login("", "", tokens, profile);
        case LogoutCall =>
          auth.Logout();
        case FetchProfileCall(profile) =>
          var _ := auth.FetchProfile(profile);
        case BootstrapCall(profile) =>
          var _ := auth.Bootstrap(profile);
        case SetUserCall(u) =>
          auth.SetUser(u);
      }
    }
  }

  /** After logout, the next request the API client sends carries no bearer header. */
  method RequestAfterLogout(auth: AuthProvider, profile: Response<ClientUser>)
    returns (request: ApiClient.RequestConfig)
    modifies auth, auth.storage
    ensures ApiClient.AUTHORIZATION !in request.headers
    ensures profile.Success? ==> auth.user == Some(profile.data)
    ensures profile.Failure? ==> auth.user == None
  {
    auth.Logout();
    request := auth.FetchProfile(profile);
  }

  /** Right after a successful token exchange, the profile request is authorised with the new access token. */
  method LoginAuthorisesProfileRequest(auth: AuthProvider, pair: TokenPair, profile: Response<ClientUser>)
    returns (request: ApiClient.RequestConfig)
    requires pair.access != ""
    modifies auth, auth.storage
    ensures request.headers == map[ApiClient.AUTHORIZATION := "Bearer " + pair.access]
  {
    var ok, sent := auth.Login("", "", Success(pair), profile);
    request := sent;
  }
}
