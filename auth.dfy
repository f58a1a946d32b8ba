/**
 * The authentication provider `src/hooks/useAuth.tsx`: a flag, a user that
 * is never set, a loading flag, and the browser's local storage, which keeps
 * the token under one key across reloads.
 */
module Auth {
  import opened Wrappers

  /** The local-storage key of the token. */
  const TokenKey: string := "authToken"

  /** The error `useAuth` throws outside a provider. */
  const OutsideProvider: string := "useAuth must be used within an AuthProvider"

  /** Local storage: string keys to string values. */
  type Storage = map<string, string>

  /** `localStorage.getItem('authToken')`: the stored string or `null`. */
  function StoredToken(storage: Storage): (t: Option<string>)
    ensures t.Some? <==> TokenKey in storage
    ensures t.Some? ==> t.value == storage[TokenKey]
  {
    if TokenKey in storage then Some(storage[TokenKey]) else None
  }

  /** A token counts when it is present and not the empty string (JavaScript truthiness). */
  predicate HasToken(storage: Storage) {
    StoredToken(storage).Some? && StoredToken(storage).value != ""
  }

  /** What the provider hands to its children. */
  datatype AuthContext = AuthContext(isAuthenticated: bool, user: Option<string>, loading: bool)

  /** `useAuth()`: the context, or the error outside a provider. */
  function UseAuth(context: Option<AuthContext>): (r: Result<AuthContext, string>)
    ensures r.Success? <==> context.Some?
    ensures r.Success? ==> r.value == context.value
    ensures r.Failure? ==> r.error == OutsideProvider
  {
    match context
    case Some(c) => Success(c)
    case None => Failure(OutsideProvider)
  }

  class AuthProvider {
    var isAuthenticated: bool
    var user: Option<string>
    var loading: bool
    var storage: Storage

    /** The first render: not authenticated, no user, loading. */
    constructor (saved: Storage)
      ensures !isAuthenticated && user == None && loading && storage == saved
    {
      isAuthenticated := false;
      user := None;
      loading := true;
      storage := saved;
    }

    function Context(): AuthContext
      reads this
    {
      AuthContext(isAuthenticated, user, loading)
    }

    /**
     * The mount effect together with `validateToken`: a truthy stored token
     * authenticates, and loading ends either way. The token check cannot
     * throw, so the branch that removes the token is never taken.
     */
    method Mount()
      modifies this
      ensures isAuthenticated == (old(isAuthenticated) || HasToken(old(storage)))
      ensures !loading
      ensures storage == old(storage) && user == old(user)
    {
      var token := StoredToken(storage);
      if token.Some? && token.value != "" {
        ValidateToken(token.value);
      } else {
        loading := false;
      }
    }

    /** `validateToken(token)` with a truthy token: the check only tests that the token is non-empty. */
    method ValidateToken(token: string)
      requires token != ""
      modifies this
      ensures isAuthenticated && !loading
      ensures storage == old(storage) && user == old(user)
    {
      if token != "" {
        isAuthenticated := true;
      }
      loading := false;
    }

    /** `login(token)`: store it and authenticate, whatever the token is. */
    method Login(token: string)
      modifies this
      ensures storage == old(storage)[TokenKey := token]
      ensures isAuthenticated
      ensures user == old(user) && loading == old(loading)
    {
      storage := storage[TokenKey := token];
      isAuthenticated := true;
    }

    /** `logout()`: remove the token, clear the flag and the user. */
    method Logout()
      modifies this
      ensures storage == old(storage) - {TokenKey}
      ensures !isAuthenticated && user == None
      ensures loading == old(loading)
    {
      storage := storage - {TokenKey};
      isAuthenticated := false;
      user := None;
    }
  }

  /** After mounting, the provider is authenticated exactly when a truthy token was saved. */
  method Load(saved: Storage) returns (context: AuthContext)
    ensures context.isAuthenticated == HasToken(saved)
    ensures !context.loading && context.user == None
  {
    var p := new AuthProvider(saved);
    p.Mount();
    context := p.Context();
  }

  /** `login(token)` followed by a reload: the session survives only for a non-empty token. */
  method LoginThenReload(saved: Storage, token: string) returns (before: AuthContext, after: AuthContext)
    ensures before.isAuthenticated
    ensures after.isAuthenticated <==> token != ""
  {
    var p := new AuthProvider(saved);
    p.Mount();
    p.Login(token);
    before := p.Context();
    after := Load(p.storage);
  }

  /** `logout()` followed by a reload: never authenticated. */
  method LogoutThenReload(saved: Storage) returns (after: AuthContext)
    ensures !after.isAuthenticated && !after.loading
  {
    var p := new AuthProvider(saved);
    p.Mount();
    p.Logout();
    after := Load(p.storage);
  }

  /** Logging in does not touch any other stored key, and logging out removes only the token. */
  lemma OtherKeysKept(storage: Storage, token: string, k: string)
    requires k != TokenKey
    ensures k in storage[TokenKey := token] <==> k in storage
    ensures k in storage ==> storage[TokenKey := token][k] == storage[k]
    ensures k in storage - {TokenKey} <==> k in storage
    ensures k in storage ==> (storage - {TokenKey})[k] == storage[k]
  {
  }
}
