/**
 * The `auth` slice of the Redux store (app/store/authSlice.ts): the session
 * token, the user decoded from it and the `isAuthenticated` flag, with the
 * browser's `localStorage` as a string-to-string map.
 *
 * `jwtDecode` is a parameter: it either yields the token's claims or throws.
 * A reducer that throws leaves the store as it was, and here it throws before
 * touching storage, so a failed decode changes nothing at all.
 */
module AuthSlice {
  import opened Common

  const TokenKey := "token"

  /** The claims the slice reads from a decoded token. */
  datatype Claims = Claims(sub: string, id: int, roles: seq<string>)

  datatype User = User(id: Option<int>, username: Option<string>, roles: seq<string>)

  const Anonymous := User(None, None, [])

  datatype AuthState = AuthState(token: Option<string>, user: User, isAuthenticated: bool)

  /** The slice together with the storage it writes. */
  datatype AuthWorld = AuthWorld(auth: AuthState, storage: map<string, string>)

  /**
   * `initialState`: in a browser the token is whatever storage holds under
   * 'token'; the user is anonymous and the session is not authenticated even
   * when a token is found.
   */
  function Initial(storage: map<string, string>, inBrowser: bool): (s: AuthState)
    ensures s.user == Anonymous && !s.isAuthenticated
    ensures s.token.Some? <==> inBrowser && TokenKey in storage
    ensures s.token.Some? ==> s.token.value == storage[TokenKey]
  {
    var token := if inBrowser && TokenKey in storage then Some(storage[TokenKey]) else None;
    AuthState(token, Anonymous, false)
  }

  /**
   * `setCredentials({token})`: the token and the flag always; for a
   * non-empty token also the decoded user and the stored token.
   */
  function ApplySetCredentials(w: AuthWorld, token: string, decode: string -> Outcome<Claims>): AuthWorld {
    if token == "" then
      AuthWorld(w.auth.(token := Some(token), isAuthenticated := true), w.storage)
    else
      match decode(token)
      case Err(_) => w
      case Ok(c) =>
        AuthWorld(AuthState(Some(token), User(Some(c.id), Some(c.sub), c.roles), true),
                  w.storage[TokenKey := token])
  }

  /** `logout()`: everything back to signed out, and the stored token removed. */
  function ApplyLogout(w: AuthWorld): AuthWorld {
    AuthWorld(AuthState(None, Anonymous, false), w.storage - {TokenKey})
  }

  /** Logging out twice is logging out once. */
  lemma LogoutIdempotent(w: AuthWorld)
    ensures ApplyLogout(ApplyLogout(w)) == ApplyLogout(w)
  {
    assert (w.storage - {TokenKey}) - {TokenKey} == w.storage - {TokenKey};
  }

  /** A logout undoes whatever a `setCredentials` before it did. */
  lemma LogoutUndoesSetCredentials(w: AuthWorld, token: string, decode: string -> Outcome<Claims>)
    ensures ApplyLogout(ApplySetCredentials(w, token, decode)) == ApplyLogout(w)
  {
    if token != "" && decode(token).Ok? {
      assert w.storage[TokenKey := token] - {TokenKey} == w.storage - {TokenKey};
    }
  }

  /**
   * A successful sign-in stores the token, so a store created afterwards
   * finds the token again, yet starts signed out and anonymous.
   */
  lemma ReloadFindsTokenButNotSession(w: AuthWorld, token: string, decode: string -> Outcome<Claims>)
    requires token != "" && decode(token).Ok?
    ensures Initial(ApplySetCredentials(w, token, decode).storage, true).token == Some(token)
    ensures !Initial(ApplySetCredentials(w, token, decode).storage, true).isAuthenticated
  {
  }

  class AuthStore {
    var token: Option<string>
    var user: User
    var isAuthenticated: bool
    /** `localStorage`. */
    var storage: map<string, string>

    function State(): AuthWorld
      reads this
    {
      AuthWorld(AuthState(token, user, isAuthenticated), storage)
    }

    /** The store created from `initialState`, over the storage found at start. */
    constructor (storage: map<string, string>, inBrowser: bool)
      ensures this.storage == storage
      ensures token == (if inBrowser && TokenKey in storage then Some(storage[TokenKey]) else None)
      ensures user == Anonymous && !isAuthenticated
      ensures State().auth == Initial(storage, inBrowser)
    {
      this.storage := storage;
      token := if inBrowser && TokenKey in storage then Some(storage[TokenKey]) else None;
      user := Anonymous;
      isAuthenticated := false;
    }

    /** The `setCredentials` reducer; `Err` when decoding the token throws. */
    method SetCredentials(newToken: string, decode: string -> Outcome<Claims>) returns (r: Outcome<()>)
      modifies this
      ensures r.Err? <==> newToken != "" && decode(newToken).Err?
      ensures r.Ok? ==> token == Some(newToken) && isAuthenticated
      ensures r.Ok? && newToken == "" ==> user == old(user) && storage == old(storage)
      ensures r.Ok? && newToken != "" ==>
        user == User(Some(decode(newToken).value.id), Some(decode(newToken).value.sub), decode(newToken).value.roles) &&
        storage == old(storage)[TokenKey := newToken]
      ensures r.Err? ==> State() == old(State())
      ensures State() == ApplySetCredentials(old(State()), newToken, decode)
    {
      if newToken != "" {
        var decoded := decode(newToken);
        if decoded.Err? {
          return Err(decoded.error);
        }
        token := Some(newToken);
        isAuthenticated := true;
        user := User(Some(decoded.value.id), Some(decoded.value.sub), decoded.value.roles);
        storage := storage[TokenKey := newToken];
      } else {
        token := Some(newToken);
        isAuthenticated := true;
      }
      r := Ok(());
    }

    /** The `logout` reducer. */
    method Logout()
      modifies this
      ensures token == None && user == Anonymous && !isAuthenticated
      ensures TokenKey !in storage
      ensures forall k :: k != TokenKey ==> (k in storage <==> k in old(storage))
      ensures forall k :: k in storage ==> storage[k] == old(storage)[k]
      ensures State() == ApplyLogout(old(State()))
    {
      token := None;
      user := Anonymous;
      isAuthenticated := false;
      storage := storage - {TokenKey};
    }
  }
}
