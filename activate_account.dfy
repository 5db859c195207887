/**
 * Account activation with an invitation code (`handleSubmit` in src/pages/ActivateAccount.jsx):
 * the two password checks in their order, the claim request with the code upper-cased, and the
 * page the new user is sent to.
 */
module ActivateAccount {
  import opened Wrappers
  import opened Text
  import opened Auth
  import opened Routes

  datatype ActivationForm = ActivationForm(email: string, code: string, password: string, confirmPassword: string)

  const MismatchError := "Las contraseñas no coinciden"
  const ShortError := "La contraseña debe tener al menos 6 caracteres"
  const ClaimErrorDefault := "Error al activar la cuenta"

  /** The validation error, if any: the two passwords must match, and only then is the length checked. */
  function ValidationError(f: ActivationForm): (e: Option<string>)
    ensures f.password != f.confirmPassword ==> e == Some(MismatchError)
    ensures f.password == f.confirmPassword && |f.password| < 6 ==> e == Some(ShortError)
    ensures e.None? <==> f.password == f.confirmPassword && |f.password| >= 6
  {
    if f.password != f.confirmPassword then Some(MismatchError)
    else if |f.password| < 6 then Some(ShortError)
    else None
  }

  /** The claim request: email and password as typed, the code in capitals. */
  datatype ClaimRequest = ClaimRequest(email: string, code: string, password: string)

  function ClaimOf(f: ActivationForm): (r: ClaimRequest)
    ensures r.email == f.email && r.password == f.password
    ensures r.code == Upper(f.code)
    ensures |r.code| == |f.code| && forall i :: 0 <= i < |r.code| ==> !('a' <= r.code[i] <= 'z')
  {
    UpperHasNoLowerCase(f.code);
    ClaimRequest(f.email, Upper(f.code), f.password)
  }

  /** A code typed in any case is sent as the same code. */
  lemma CodeCaseDoesNotMatter(f: ActivationForm, g: ActivationForm)
    requires f.email == g.email && f.password == g.password
    requires Upper(f.code) == Upper(g.code)
    ensures ClaimOf(f) == ClaimOf(g)
  {
  }

  /** The answer to the claim request. */
  datatype ClaimAnswer = Claimed(token: string, role: string) | ClaimFailed(msg: Option<string>)

  /** Where a new account goes: the coach area for "admin", the client dashboard for any other role. */
  function ActivationTarget(role: string): (p: string)
    ensures role == "admin" ==> p == "/admin"
    ensures role != "admin" ==> p == "/client/dashboard"
  {
    if role == "admin" then "/admin" else "/client/dashboard"
  }

  /** The route segments of the activation target, as the router matches them after `navigate`. */
  function ActivationPath(role: string): (p: seq<string>)
    ensures "/" + JoinWith(p, '/') == ActivationTarget(role)
    ensures p != [] && p[0] == (if role == "admin" then "admin" else "client")
  {
    if role == "admin" then ["admin"] else ["client", "dashboard"]
  }

  /**
   * The page's `login(token, {role})` is not awaited before `navigate`, and its arguments do not fit
   * the session store's `login(email, password, role)`, so a claim signs nobody in. A visitor who was
   * not signed in meets the guard of the target route and is sent back to "/", whatever the role.
   */
  lemma FreshActivationLandsOnSignIn(role: string)
    ensures Resolve(ActivationPath(role), false, None) == Navigate("/")
  {
  }

  /** The call the page makes to the session store's `login` after a claim: the token and the role, as given. */
  datatype LoginCall = LoginCall(token: string, role: string)

  class ActivatePage {
    var form: ActivationForm
    var error: string
    var loading: bool

    constructor ()
      ensures form == ActivationForm([], [], [], []) && error == [] && !loading
    {
      form := ActivationForm([], [], [], []);
      error := [];
      loading := false;
    }

    /** `handleChange` for one of the four inputs. */
    method Change(f: ActivationForm)
      modifies this
      ensures form == f && error == old(error) && loading == old(loading)
    {
      form := f;
    }

    /**
     * `handleSubmit` up to the request: the error is cleared; a validation error is shown and no
     * request made; otherwise `loading` is set and the claim sent. The button is disabled while loading.
     */
    method Submit() returns (req: Option<ClaimRequest>)
      requires !loading
      modifies this
      ensures ValidationError(form).Some? ==> req.None? && error == ValidationError(form).value && !loading
      ensures ValidationError(form).None? ==> req == Some(ClaimOf(form)) && error == [] && loading
      ensures form == old(form)
    {
      var v := ValidationError(form);
      if v.Some? {
        error := v.value;
        return None;
      }
      error := [];
      loading := true;
      return Some(ClaimOf(form));
    }

    /**
     * The answer: a claimed account calls `login(token, {role})` and goes to its area; a refused one
     * shows the server's message or the default. `loading` ends either way.
     */
    method Settled(answer: ClaimAnswer) returns (call: Option<LoginCall>, goTo: Option<string>)
      requires loading
      modifies this
      ensures !loading && form == old(form)
      ensures answer.Claimed? ==> (call == Some(LoginCall(answer.token, answer.role))
        && goTo == Some(ActivationTarget(answer.role)) && error == old(error))
      ensures answer.ClaimFailed? ==> call.None? && goTo.None? && error == Or(answer.msg, ClaimErrorDefault)
    {
      loading := false;
      match answer
      case Claimed(token, role) =>
        call := Some(LoginCall(token, role));
        goTo := Some(ActivationTarget(role));
      case ClaimFailed(msg) =>
        call := None;
        goTo := None;
        error := Or(msg, ClaimErrorDefault);
    }
  }
}
