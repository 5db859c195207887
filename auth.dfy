/**
 * The session store (`AuthProvider` in src/context/AuthContext.jsx): the signed-in user, the
 * `loading` flag, the token kept in local storage and the `x-auth-token` header every request
 * carries. Storage and the header are fields here; the server's answers are parameters.
 *
 * A user is the object the server sent, as a map from field name to value; `{ ...data, k: v }` is
 * then `data[k := v]`.
 */
module Auth {
  import opened Wrappers
  import opened Text

  type Record = map<string, string>

  /** The answer to `POST /api/auth/login`. */
  datatype LoginAnswer =
    | LoginOk(token: string, user: Record, role: string)
    | LoginFailed(msg: Option<string>)

  /** What `login` returns to the page. */
  datatype LoginResult = Success | Failure(error: string)

  /** The body of the login request. */
  datatype Credentials = Credentials(email: string, password: string)

  const LoginErrorDefault := "Error al iniciar sesión"

  /** The error a failed login reports: the server's message, or the default when there is none. */
  function LoginError(msg: Option<string>): (e: string)
    ensures msg.Some? && msg.value != [] ==> e == msg.value
    ensures msg.None? || msg.value == [] ==> e == LoginErrorDefault
    ensures e != []
  {
    Or(msg, LoginErrorDefault)
  }

  /** `localStorage.getItem('token')` read as a truthy token. */
  predicate HasToken(stored: Option<string>) {
    stored.Some? && stored.value != []
  }

  class AuthProvider {
    var user: Option<Record>
    var loading: bool
    var storedToken: Option<string>
    var header: Option<string>

    /**
     * The store keeps the header and storage in step: a header is only ever the stored token, a
     * signed-in user always has a header, and nobody is signed in while loading.
     */
    predicate Synced()
      reads this
    {
      (header.Some? ==> header == storedToken)
      && (user.Some? ==> header.Some? && !loading)
    }

    /** Whether the provider renders the application: only once loading is over. */
    predicate ChildrenShown()
      reads this
    {
      !loading
    }

    /** The first render: loading, nobody signed in, the header not yet set, storage as the browser had it. */
    constructor (stored: Option<string>)
      ensures user.None? && loading && storedToken == stored && header.None?
      ensures Synced() && !ChildrenShown()
    {
      user := None;
      loading := true;
      storedToken := stored;
      header := None;
    }

    /**
     * `loadUser` up to the identity request: without a stored token loading simply ends and no
     * request is made (`asks` is false); with one the header is set to it first.
     */
    method LoadUser() returns (asks: bool)
      requires loading && Synced()
      modifies this
      ensures asks <==> HasToken(storedToken)
      ensures !asks ==> !loading && header == old(header)
      ensures asks ==> loading && header == storedToken
      ensures user == old(user) && storedToken == old(storedToken)
      ensures Synced()
    {
      if !HasToken(storedToken) {
        loading := false;
        return false;
      }
      header := storedToken;
      return true;
    }

    /**
     * The identity request answered: the user is the identity plus the token; or, on failure, the
     * token is removed from storage and header and nobody is signed in. Loading ends either way.
     */
    method LoadUserSettled(identity: Option<Record>)
      requires loading && HasToken(storedToken) && header == storedToken
      modifies this
      ensures !loading && ChildrenShown()
      ensures identity.Some? ==> (user == Some(identity.value["token" := old(storedToken).value])
        && storedToken == old(storedToken) && header == old(header))
      ensures identity.None? ==> user.None? && storedToken.None? && header.None?
      ensures Synced()
    {
      if identity.Some? {
        user := Some(identity.value["token" := storedToken.value]);
      } else {
        storedToken := None;
        header := None;
        user := None;
      }
      loading := false;
    }

    /**
     * `login(email, password, role)` with the server's answer. Only email and password are sent,
     * and the `role` argument plays no part in what happens.
     */
    method Login(email: string, password: string, role: string, answer: LoginAnswer)
        returns (sent: Credentials, result: LoginResult)
      requires !loading
      modifies this
      ensures sent == Credentials(email, password)
      ensures answer.LoginOk? ==> (result == Success
        && storedToken == Some(answer.token) && header == Some(answer.token)
        && user == Some(answer.user["role" := answer.role]))
      ensures answer.LoginFailed? ==> (result == Failure(LoginError(answer.msg))
        && user == old(user) && storedToken == old(storedToken) && header == old(header))
      ensures loading == old(loading)
      ensures old(Synced()) ==> Synced()
    {
      sent := Credentials(email, password);
      match answer
      case LoginOk(token, data, r) =>
        storedToken := Some(token);
        header := Some(token);
        user := Some(data["role" := r]);
        result := Success;
      case LoginFailed(msg) =>
        result := Failure(LoginError(msg));
    }

    /** `logout`: the token leaves storage and the header, and nobody is signed in. */
    method Logout()
      modifies this
      ensures user.None? && storedToken.None? && header.None?
      ensures loading == old(loading)
      ensures Synced()
    {
      storedToken := None;
      header := None;
      user := None;
    }
  }

  /** The role a user record carries, if any. */
  function RoleOf(u: Record): Option<string> {
    if "role" in u then Some(u["role"]) else None
  }

  /** After a successful login the user's role is the role the server returned, whatever the user object said. */
  lemma LoginRole(u: Record, role: string)
    ensures RoleOf(u["role" := role]) == Some(role)
    ensures forall k :: k in u && k != "role" ==> u["role" := role][k] == u[k]
  {
  }
}
