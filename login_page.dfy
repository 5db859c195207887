/**
 * The sign-in page (src/pages/Login.jsx): the role chosen with the two buttons, the sign-in and
 * where it leads, and the password-reset panel.
 */
module LoginPage {
  import opened Wrappers
  import opened Text
  import opened Auth
  import opened Routes

  /** Where a successful sign-in goes, by the role button that was pressed (not by the server's role). */
  function LoginTarget(role: Option<string>): (p: string)
    ensures role == Some("admin") ==> p == "/admin/calibrantes"
    ensures role != Some("admin") ==> p == "/client/dashboard"
  {
    if role == Some("admin") then "/admin/calibrantes" else "/client/dashboard"
  }

  /**
   * The chosen button is not checked against the account: a client who signs in through the coach
   * button is sent to the coach's client list, and the route guard sends them back to "/".
   */
  lemma ClientThroughCoachButton(user: Record)
    requires RoleOf(user) == Some("client")
    ensures LoginTarget(Some("admin")) == "/admin/calibrantes"
    ensures Resolve(["admin", "calibrantes"], false, Some(user)) == Navigate("/")
  {
  }

  /** A coach signing in through the coach button reaches the client list. */
  lemma CoachThroughCoachButton(user: Record)
    requires RoleOf(user) == Some("admin")
    ensures Resolve(["admin", "calibrantes"], false, Some(user)) == Show(ClientList)
  {
  }

  datatype ResetForm = ResetForm(email: string, code: string, password: string, confirmPassword: string)

  const EmptyReset := ResetForm([], [], [], [])
  const MismatchError := "Las contraseñas no coinciden"
  const ResetErrorDefault := "Error al restablecer contraseña"
  const ConnectionError := "Error de conexión"

  /** The reset request. */
  datatype ResetRequest = ResetRequest(email: string, code: string, password: string)

  /** The reset answer: none at all (network failure, or a body that is not JSON), or a status and a message. */
  datatype ResetAnswer = Unreachable | Answered(ok: bool, msg: Option<string>)

  class Page {
    var role: Option<string>
    var email: string
    var password: string
    var error: string
    var loading: bool
    var showReset: bool
    var reset: ResetForm

    constructor ()
      ensures role.None? && email == [] && password == [] && error == [] && !loading
      ensures !showReset && reset == EmptyReset
    {
      role := None;
      email := [];
      password := [];
      error := [];
      loading := false;
      showReset := false;
      reset := EmptyReset;
    }

    /** One of the two role buttons. */
    method SelectRole(r: string)
      modifies this
      ensures role == Some(r)
      ensures error == old(error) && loading == old(loading) && showReset == old(showReset) && reset == old(reset)
      ensures email == old(email) && password == old(password)
    {
      role := Some(r);
    }

    /** "Volver atrás": back to the role choice, without the error. */
    method BackOut()
      modifies this
      ensures role.None? && error == []
      ensures loading == old(loading) && showReset == old(showReset) && reset == old(reset)
      ensures email == old(email) && password == old(password)
    {
      role := None;
      error := [];
    }

    /** `handleSubmit` up to the call: the error is cleared and `loading` set. The button is disabled while loading. */
    method Submit() returns (sent: Credentials)
      requires !loading
      modifies this
      ensures sent == Credentials(email, password) && error == [] && loading
      ensures role == old(role) && showReset == old(showReset) && reset == old(reset)
      ensures email == old(email) && password == old(password)
    {
      error := [];
      loading := true;
      sent := Credentials(email, password);
    }

    /** The result of `login`: navigation by the chosen role, or the error shown. `loading` ends either way. */
    method SubmitSettled(result: LoginResult) returns (goTo: Option<string>)
      requires loading
      modifies this
      ensures !loading
      ensures result.Success? ==> goTo == Some(LoginTarget(role)) && error == old(error)
      ensures result.Failure? ==> goTo.None? && error == result.error
      ensures role == old(role) && showReset == old(showReset) && reset == old(reset)
      ensures email == old(email) && password == old(password)
    {
      if result.Success? {
        goTo := Some(LoginTarget(role));
      } else {
        goTo := None;
        error := result.error;
      }
      loading := false;
    }

    /** "¿Olvidaste tu contraseña?": the reset panel opens without the error. */
    method OpenReset()
      modifies this
      ensures showReset && error == []
      ensures role == old(role) && loading == old(loading) && reset == old(reset)
      ensures email == old(email) && password == old(password)
    {
      showReset := true;
      error := [];
    }

    /** "Cancelar" on the reset panel. */
    method CancelReset()
      modifies this
      ensures !showReset && error == []
      ensures role == old(role) && loading == old(loading) && reset == old(reset)
      ensures email == old(email) && password == old(password)
    {
      showReset := false;
      error := [];
    }

    /** Typing the reset code: it is stored in capitals. */
    method SetResetCode(text: string)
      modifies this
      ensures reset == old(reset).(code := Upper(text))
      ensures |reset.code| == |text| && forall i :: 0 <= i < |reset.code| ==> !('a' <= reset.code[i] <= 'z')
      ensures role == old(role) && error == old(error) && loading == old(loading) && showReset == old(showReset)
      ensures email == old(email) && password == old(password)
    {
      UpperHasNoLowerCase(text);
      reset := reset.(code := Upper(text));
    }

    /** Typing in the other reset inputs. */
    method SetResetFields(email: string, password: string, confirmPassword: string)
      modifies this
      ensures reset == old(reset).(email := email, password := password, confirmPassword := confirmPassword)
      ensures role == old(role) && error == old(error) && loading == old(loading) && showReset == old(showReset)
      ensures this.email == old(this.email) && this.password == old(this.password)
    {
      reset := reset.(email := email, password := password, confirmPassword := confirmPassword);
    }

    /**
     * `handleResetSubmit` with the server's answer: mismatched passwords show an error and send
     * nothing; a successful reset closes the panel and empties it; a refused one shows the server's
     * message or the default; no answer shows the connection error.
     */
    method ResetSubmit(answer: ResetAnswer) returns (sent: Option<ResetRequest>)
      modifies this
      ensures old(reset).password != old(reset).confirmPassword ==>
        sent.None? && error == MismatchError && showReset == old(showReset) && reset == old(reset)
      ensures old(reset).password == old(reset).confirmPassword ==>
        sent == Some(ResetRequest(old(reset).email, old(reset).code, old(reset).password))
      ensures sent.Some? && answer.Answered? && answer.ok ==> !showReset && reset == EmptyReset && error == old(error)
      ensures sent.Some? && answer.Answered? && !answer.ok ==>
        error == Or(answer.msg, ResetErrorDefault) && showReset == old(showReset) && reset == old(reset)
      ensures sent.Some? && answer.Unreachable? ==> error == ConnectionError && showReset == old(showReset) && reset == old(reset)
      ensures role == old(role) && loading == old(loading)
      ensures email == old(email) && password == old(password)
    {
      if reset.password != reset.confirmPassword {
        error := MismatchError;
        return None;
      }
      sent := Some(ResetRequest(reset.email, reset.code, reset.password));
      match answer
      case Unreachable =>
        error := ConnectionError;
      case Answered(ok, msg) =>
        if ok {
          showReset := false;
          reset := EmptyReset;
        } else {
          error := Or(msg, ResetErrorDefault);
        }
    }
  }
}
