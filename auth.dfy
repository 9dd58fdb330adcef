/**
 * The session store (js/modules/auth.js): a user counts as logged in while
 * both the `authToken` and the `user` keys hold non-empty values.
 */
module Auth {
  import opened Wrappers
  import opened Storage
  import Api

  /** checkAuthStatus, as a question about the store: both keys are truthy.
    * Being a function, it cannot change the store. */
  predicate LoggedIn(store: Store)
    reads store
    ensures LoggedIn(store) <==>
      store.authToken.Some? && store.authToken.value != "" && store.user.Some? && store.user.value != ""
  {
    Truthy(store.authToken) && Truthy(store.user)
  }

  /** login: the credential call comes first; only when it succeeds are the
    * token and the serialized user written. A failure is returned (rethrown)
    * with the keys as they were. The credential request is sent with
    * `requestHeaders`, which never carry the stored token. */
  method Login(store: Store, response: Api.Response<Api.AuthData>)
    returns (requestHeaders: map<string, string>, r: Result<Api.AuthData, string>)
    modifies store`authToken, store`user
    ensures requestHeaders == Api.LoginHeaders() && Api.Authorization !in requestHeaders
    ensures r == Api.LoginUser(response)
    ensures r.Ok? ==> store.authToken == Some(r.value.token) && store.user == Some(r.value.user)
    ensures r.Ok? && r.value.token != "" && r.value.user != "" ==> LoggedIn(store)
    ensures r.Err? ==> store.authToken == old(store.authToken) && store.user == old(store.user)
  {
    requestHeaders := Api.LoginHeaders();
    r := Api.LoginUser(response);
    if r.Err? {
      return;
    }
    store.authToken := Some(r.value.token);
    store.user := Some(r.value.user);
  }

  /** logout: both keys removed; the user is then logged out. Calling it
    * again finds nothing to remove and changes nothing. */
  method Logout(store: Store)
    modifies store`authToken, store`user
    ensures store.authToken == None && store.user == None
    ensures !LoggedIn(store)
    ensures old(store.authToken) == None && old(store.user) == None ==>
      store.authToken == old(store.authToken) && store.user == old(store.user)
  {
    store.authToken := None;
    store.user := None;
  }

  /** After logout the headers of the next request carry no Authorization
    * header, only the content type. */
  method LogoutThenHeaders(store: Store) returns (headers: map<string, string>)
    modifies store`authToken, store`user
    ensures Api.Authorization !in headers
    ensures headers == map[Api.ContentType := Api.Json]
  {
    Logout(store);
    headers := Api.GetAuthHeaders(store);
  }
}
