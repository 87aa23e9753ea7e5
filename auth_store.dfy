/**
 * The authentication store: the signed-in user, whether the session is
 * authenticated, whether the initial check is still running, and the tokens
 * kept in the browser's key-value storage (`localStorage`).
 *
 * Each action is one step; the API response it awaits is a parameter.
 */
module AuthStore {
  import opened Common

  /** What login and signup return. */
  datatype AuthResponse = AuthResponse(user: UserRecord, accessToken: string, refreshToken: string)

  /** The part of the state written to the persisted "auth-storage" entry. */
  datatype PersistedAuth = PersistedAuth(user: Option<UserRecord>, isAuthenticated: bool)

  const TokenKeys: set<string> := {"accessToken", "refreshToken", "token"}

  /** Storage after a login or signup: both tokens, and the access token
      again under "token"; every other key as it was. */
  function SignedIn(storage: map<string, string>, accessToken: string, refreshToken: string)
    : (m: map<string, string>)
    ensures "accessToken" in m && m["accessToken"] == accessToken
    ensures "refreshToken" in m && m["refreshToken"] == refreshToken
    ensures "token" in m && m["token"] == accessToken
    ensures forall k :: k !in TokenKeys ==> (k in m <==> k in storage)
    ensures forall k :: k !in TokenKeys && k in storage ==> m[k] == storage[k]
  {
    storage["accessToken" := accessToken]["refreshToken" := refreshToken]["token" := accessToken]
  }

  /** Storage after a logout or a failed check: the three token keys removed. */
  function SignedOut(storage: map<string, string>): (m: map<string, string>)
    ensures forall k :: k in m <==> k in storage && k !in TokenKeys
    ensures forall k :: k in m ==> m[k] == storage[k]
  {
    storage - TokenKeys
  }

  /** `localStorage.getItem("accessToken")` is truthy. */
  predicate HasAccessToken(storage: map<string, string>) {
    "accessToken" in storage && storage["accessToken"] != ""
  }

  /** Signing out after signing in leaves the storage as signing out alone
      would; the session's access token is readable exactly while signed in. */
  lemma SignOutUndoesSignIn(storage: map<string, string>, accessToken: string, refreshToken: string)
    ensures SignedOut(SignedIn(storage, accessToken, refreshToken)) == SignedOut(storage)
    ensures HasAccessToken(SignedIn(storage, accessToken, refreshToken)) <==> accessToken != ""
    ensures !HasAccessToken(SignedOut(storage))
  {
    var a := SignedOut(SignedIn(storage, accessToken, refreshToken));
    var b := SignedOut(storage);
    assert forall k :: k in a <==> k in b;
  }

  class Session {
    var user: Option<UserRecord>
    var isAuthenticated: bool
    var isLoading: bool
    var storage: map<string, string>

    /** The fields kept across reloads: the user and the flag, not the loading state. */
    function Persisted(): (p: PersistedAuth)
      reads this
      ensures p.user == user && p.isAuthenticated == isAuthenticated
    {
      PersistedAuth(user, isAuthenticated)
    }

    /** A fresh store: no user, not authenticated, loading. */
    constructor(storage0: map<string, string>)
      ensures user == None && !isAuthenticated && isLoading && storage == storage0
    {
      user, isAuthenticated, isLoading, storage := None, false, true, storage0;
    }

    /** A store restored from its persisted entry; it is loading until checked. */
    constructor Rehydrate(saved: PersistedAuth, storage0: map<string, string>)
      ensures Persisted() == saved && isLoading && storage == storage0
    {
      user, isAuthenticated, isLoading, storage := saved.user, saved.isAuthenticated, true, storage0;
    }

    /** Shared by login and signup: the tokens, the user, authenticated. */
    method Establish(response: AuthResponse)
      modifies this
      ensures storage == SignedIn(old(storage), response.accessToken, response.refreshToken)
      ensures user == Some(response.user) && isAuthenticated && isLoading == old(isLoading)
    {
      storage := storage["accessToken" := response.accessToken];
      storage := storage["refreshToken" := response.refreshToken];
      storage := storage["token" := response.accessToken];
      user, isAuthenticated := Some(response.user), true;
    }

    /** A rejected login changes nothing and passes the error on. */
    method Login(response: Result<AuthResponse>) returns (error: Option<ApiError>)
      modifies this
      ensures response.Ok? ==> (error == None
        && storage == SignedIn(old(storage), response.value.accessToken, response.value.refreshToken)
        && user == Some(response.value.user) && isAuthenticated && isLoading == old(isLoading))
      ensures response.Err? ==> (error == Some(response.error)
        && storage == old(storage) && user == old(user)
        && isAuthenticated == old(isAuthenticated) && isLoading == old(isLoading))
    {
      match response
      case Ok(r) =>
        Establish(r);
        error := None;
      case Err(e) =>
        error := Some(e);
    }

    method Signup(response: Result<AuthResponse>) returns (error: Option<ApiError>)
      modifies this
      ensures response.Ok? ==> (error == None
        && storage == SignedIn(old(storage), response.value.accessToken, response.value.refreshToken)
        && user == Some(response.value.user) && isAuthenticated && isLoading == old(isLoading))
      ensures response.Err? ==> (error == Some(response.error)
        && storage == old(storage) && user == old(user)
        && isAuthenticated == old(isAuthenticated) && isLoading == old(isLoading))
    {
      match response
      case Ok(r) =>
        Establish(r);
        error := None;
      case Err(e) =>
        error := Some(e);
    }

    /** Whatever the logout request answers (its errors are swallowed), the
        tokens go and the user is signed out. */
    method Logout()
      modifies this
      ensures storage == SignedOut(old(storage))
      ensures user == None && !isAuthenticated && isLoading == old(isLoading)
    {
      storage := storage - {"accessToken"};
      storage := storage - {"refreshToken"};
      storage := storage - {"token"};
      assert storage == old(storage) - TokenKeys;
      user, isAuthenticated := None, false;
    }

    /** Without an access token only the loading flag is cleared and no
        profile is requested; otherwise the profile answer signs the user
        in, or signs them out and removes the tokens. */
    method CheckAuth(profile: Result<UserRecord>) returns (requested: bool)
      modifies this
      ensures !isLoading
      ensures requested <==> HasAccessToken(old(storage))
      ensures !requested ==> storage == old(storage) && user == old(user) && isAuthenticated == old(isAuthenticated)
      ensures requested && profile.Ok? ==> storage == old(storage) && user == Some(profile.value) && isAuthenticated
      ensures requested && profile.Err? ==> storage == SignedOut(old(storage)) && user == None && !isAuthenticated
    {
      if !("accessToken" in storage && storage["accessToken"] != "") {
        isLoading := false;
        return false;
      }
      requested := true;
      match profile
      case Ok(u) =>
        user, isAuthenticated, isLoading := Some(u), true, false;
      case Err(_) =>
        storage := storage - TokenKeys;
        user, isAuthenticated, isLoading := None, false, false;
    }

    /** Writes the access token under "accessToken" and "token" (the refresh
        token is not touched) and ends loading. */
    method SetAuth(u: UserRecord, token: string)
      modifies this
      ensures storage == old(storage)["accessToken" := token]["token" := token]
      ensures "refreshToken" in storage <==> "refreshToken" in old(storage)
      ensures "refreshToken" in storage ==> storage["refreshToken"] == old(storage)["refreshToken"]
      ensures user == Some(u) && isAuthenticated && !isLoading
    {
      storage := storage["accessToken" := token]["token" := token];
      user, isAuthenticated, isLoading := Some(u), true, false;
    }
  }
}
