/**
 * The new-client form (src/components/NewCalibranteModal.jsx): the request built from the form,
 * the invitation code shown after creation, and the reset when the coach closes the success screen.
 */
module NewCalibrante {
  import opened Wrappers
  import opened Text
  import opened Calibrantes

  datatype ClientForm = ClientForm(name: string, surname: string, email: string, objective: string, limitations: string)

  const EmptyClientForm := ClientForm([], [], [], [], [])
  const NewStatus := "Recién llegado"
  const CreateErrorDefault := "Error al crear calibrante"

  /** The request body: the identity as typed, and a profile with the one objective, the listed limitations and the new status. */
  function NewClientPayload(f: ClientForm): (u: ClientUser)
    ensures u.name == f.name && u.surname == f.surname && u.email == f.email
    ensures u.profile.Some? && u.profile.value.objectives == [f.objective] && u.profile.value.status == NewStatus
    ensures u.profile.value.limitations == SplitList(f.limitations, ',')
  {
    ClientUser(f.name, f.surname, f.email, Some(Profile([f.objective], SplitList(f.limitations, ','), NewStatus)))
  }

  /** Each limitation sent is a non-empty, trimmed piece of the typed text between commas. */
  lemma LimitationsAreClean(f: ClientForm)
    ensures forall k :: 0 <= k < |NewClientPayload(f).profile.value.limitations| ==>
      var x := NewClientPayload(f).profile.value.limitations[k];
      x != [] && ',' !in x && IsTrimmed(x)
  {
    SplitListItems(f.limitations, ',');
  }

  /**
   * The new client's card in the list: status "Recién llegado", the typed objective (or the
   * placeholder when it is empty), the pain alert exactly when a limitation was listed, and the
   * client is found by searching for the name.
   */
  lemma NewClientCard(f: ClientForm, others: seq<ClientUser>)
    ensures var u := NewClientPayload(f);
      && StatusLabel(u) == NewStatus
      && ObjectiveLabel(u) == (if f.objective != [] then f.objective else "Sin objetivo definido")
      && (PainAlert(u) <==> SplitList(f.limitations, ',') != [])
      && u in FilterUsers(others + [u], f.name)
  {
    var u := NewClientPayload(f);
    assert u in others + [u];
    SearchByNameFinds(others + [u], u);
  }

  /** The server's answer to the creation request. */
  datatype CreateAnswer = Created(inviteCode: string) | CreateFailed(msg: Option<string>)

  class NewClientModal {
    var form: ClientForm
    var loading: bool
    var error: string
    var createdCode: string

    constructor ()
      ensures form == EmptyClientForm && !loading && error == [] && createdCode == []
    {
      form := EmptyClientForm;
      loading := false;
      error := [];
      createdCode := [];
    }

    /** `handleChange` for one of the inputs. */
    method Change(f: ClientForm)
      modifies this
      ensures form == f && loading == old(loading) && error == old(error) && createdCode == old(createdCode)
    {
      form := f;
    }

    /** `handleSubmit` up to the request. The button is disabled while loading. */
    method Submit() returns (payload: ClientUser)
      requires !loading
      modifies this
      ensures loading && error == [] && payload == NewClientPayload(form)
      ensures form == old(form) && createdCode == old(createdCode)
    {
      loading := true;
      error := [];
      payload := NewClientPayload(form);
    }

    /** The answer: the invitation code is kept for the success screen, or the error is shown. */
    method Settled(answer: CreateAnswer)
      requires loading
      modifies this
      ensures !loading && form == old(form)
      ensures answer.Created? ==> createdCode == answer.inviteCode && error == old(error)
      ensures answer.CreateFailed? ==> error == Or(answer.msg, CreateErrorDefault) && createdCode == old(createdCode)
    {
      if answer.Created? {
        createdCode := answer.inviteCode;
      } else {
        error := Or(answer.msg, CreateErrorDefault);
      }
      loading := false;
    }

    /** `handleCloseSuccess`: the code is forgotten and the form emptied, ready for the next client. */
    method CloseSuccess()
      modifies this
      ensures createdCode == [] && form == EmptyClientForm
      ensures loading == old(loading) && error == old(error)
    {
      createdCode := [];
      form := EmptyClientForm;
    }
  }
}
