/**
 * The coach's view of one client (src/pages/admin/CalibranteDetalle.jsx): the body-reading form
 * with its priority zones, the guarded deletion of the client, the private notes, and the labels
 * shown for workouts and exercises that were deleted since.
 */
module CalibranteDetalle {
  import opened Wrappers
  import opened Text
  import opened Lists

  /** The body zones the evaluation form offers. */
  const Zones: seq<string> := ["Hombro", "Raquis", "Cadera", "Rodilla", "Tobillo", "Core", "Pie", "Codo", "Muñeca"]

  /** `toggleZone(z)` on the selected zones: a selected zone is removed (every copy of it), any other is appended. */
  function ToggleZone(zones: seq<string>, z: string): (r: seq<string>)
    ensures z !in zones ==> r == zones + [z]
    ensures z in zones ==> z !in r && IsSubseq(r, zones)
    ensures forall y :: y != z ==> (y in r <==> y in zones)
    ensures z in zones ==> multiset(r) == multiset(zones)[z := 0]
  {
    if z in zones then
      var keep := (y: string) => y != z;
      FilterIsSubseq(zones, keep);
      forall y ensures y in Filter(zones, keep) <==> y in zones && y != z {
        FilterMembership(zones, keep, y);
      }
      forall y ensures multiset(Filter(zones, keep))[y] == multiset(zones)[z := 0][y] {
        FilterMultiset(zones, keep, y);
      }
      Filter(zones, keep)
    else zones + [z]
  }

  /** Toggling a zone that is not selected, twice, gives back the selection. */
  lemma ToggleAbsentTwice(zones: seq<string>, z: string)
    requires z !in zones
    ensures ToggleZone(ToggleZone(zones, z), z) == zones
  {
    var keep := (y: string) => y != z;
    FilterConcat(zones, [z], keep);
    FilterKeepsAll(zones, keep);
    assert Filter([z], keep) == [];
  }

  /** Toggling a selected zone twice moves it to the end of the selection. */
  lemma TogglePresentTwice(zones: seq<string>, z: string)
    requires z in zones
    ensures ToggleZone(ToggleZone(zones, z), z) == Filter(zones, (y: string) => y != z) + [z]
  {
  }

  /** No zone is selected twice. */
  predicate NoRepeats(zones: seq<string>) {
    forall i, j :: 0 <= i < j < |zones| ==> zones[i] != zones[j]
  }

  /** Toggling keeps the selection free of repeats and within the offered zones. */
  lemma ToggleKeepsSelectionClean(zones: seq<string>, z: string)
    requires NoRepeats(zones) && forall y :: y in zones ==> y in Zones
    requires z in Zones
    ensures NoRepeats(ToggleZone(zones, z))
    ensures forall y :: y in ToggleZone(zones, z) ==> y in Zones
  {
    if z in zones {
      FilterKeepsNoRepeats(zones, (y: string) => y != z);
    }
  }

  /** A filtered list without repeats has none either. */
  lemma {:induction false} FilterKeepsNoRepeats(s: seq<string>, p: string -> bool)
    requires NoRepeats(s)
    ensures NoRepeats(Filter(s, p))
  {
    if s != [] {
      assert NoRepeats(s[1..]) by {
        forall i, j | 0 <= i < j < |s[1..]| ensures s[1..][i] != s[1..][j] {
          assert s[1..][i] == s[i + 1] && s[1..][j] == s[j + 1];
        }
      }
      FilterKeepsNoRepeats(s[1..], p);
      var rest := Filter(s[1..], p);
      if p(s[0]) {
        assert s[0] !in s[1..];
        FilterMembership(s[1..], p, s[0]);
        var r := [s[0]] + rest;
        forall i, j | 0 <= i < j < |r| ensures r[i] != r[j] {
          if i == 0 {
            assert r[j] == rest[j - 1];
          } else {
            assert r[i] == rest[i - 1] && r[j] == rest[j - 1];
          }
        }
      }
    }
  }

  /** The body-reading form. */
  datatype EvalForm = EvalForm(kind: string, priorityZones: seq<string>, focus: string, notes: string)

  /** The form's initial contents, and what it returns to after a save. */
  const EmptyEval := EvalForm("Seguimiento", [], "", "")

  /** What a click on "delete client" led to. */
  datatype DeleteOutcome =
    | Cancelled               // the first confirmation was refused
    | WrongName               // the typed name was not the client's name (or the prompt was dismissed)
    | Deleted(goTo: string)   // deleted; the page moves to the client list
    | DeleteFailed            // the server refused

  /**
   * `handleDeleteUser` for the client's `name`, the answers to the confirmation (`confirmed`) and to
   * the prompt (`typed`, `None` when dismissed), and the server's answer `ok`.
   */
  function DeleteUser(name: string, confirmed: bool, typed: Option<string>, ok: bool): (o: DeleteOutcome)
    ensures !confirmed ==> o == Cancelled
    ensures confirmed && typed != Some(name) ==> o == WrongName
    ensures o.Deleted? ==> o.goTo == "/admin/calibrantes"
    ensures (o.Deleted? || o.DeleteFailed?) <==> confirmed && typed == Some(name)
    ensures o.Deleted? <==> confirmed && typed == Some(name) && ok
  {
    if !confirmed then Cancelled
    else if typed != Some(name) then WrongName
    else if ok then Deleted("/admin/calibrantes")
    else DeleteFailed
  }

  /** A stored note. */
  datatype Note = Note(id: string, content: string)

  /** The note request of `handleSaveNote`: an update of the edited note, or a new note for the client. */
  datatype NoteRequest = UpdateNote(noteId: string, content: string) | CreateNote(clientId: string, content: string)

  /** The text being saved: the edited note's content in edit mode, the new-note box otherwise. */
  function NoteContent(editing: Option<Note>, newNote: string): string {
    if editing.Some? then editing.value.content else newNote
  }

  /** The request `handleSaveNote` sends, if any. */
  function NoteRequestFor(clientId: string, editing: Option<Note>, newNote: string): (r: Option<NoteRequest>)
    ensures r.None? <==> IsBlank(NoteContent(editing, newNote))
    ensures r.Some? && editing.Some? ==> r.value == UpdateNote(editing.value.id, editing.value.content)
    ensures r.Some? && editing.None? ==> r.value == CreateNote(clientId, newNote)
  {
    var content := NoteContent(editing, newNote);
    if IsBlank(content) then None
    else if editing.Some? then Some(UpdateNote(editing.value.id, content))
    else Some(CreateNote(clientId, newNote))
  }

  /** A note made only of white space is never sent, whatever the mode. */
  lemma WhiteNoteNotSent(clientId: string, editing: Option<Note>, newNote: string)
    requires forall i :: 0 <= i < |NoteContent(editing, newNote)| ==> IsWhite(NoteContent(editing, newNote)[i])
    ensures NoteRequestFor(clientId, editing, newNote).None?
  {
    BlankIffAllWhite(NoteContent(editing, newNote));
  }

  /** The notes panel. */
  class NotesSection {
    const clientId: string
    var newNote: string
    var editing: Option<Note>

    constructor (clientId: string)
      ensures this.clientId == clientId && newNote == [] && editing.None?
    {
      this.clientId := clientId;
      newNote := [];
      editing := None;
    }

    /** Typing in the box: it edits the note being edited, or the new note. */
    method Type(text: string)
      modifies this
      ensures old(editing).Some? ==> editing == Some(old(editing).value.(content := text)) && newNote == old(newNote)
      ensures old(editing).None? ==> editing.None? && newNote == text
    {
      if editing.Some? {
        editing := Some(editing.value.(content := text));
      } else {
        newNote := text;
      }
    }

    /** The edit button of a note. */
    method StartEdit(n: Note)
      modifies this
      ensures editing == Some(n) && newNote == old(newNote)
    {
      editing := Some(n);
    }

    /** The "X" button beside "Actualizar". */
    method CancelEdit()
      modifies this
      ensures editing.None? && newNote == old(newNote)
    {
      editing := None;
    }

    /**
     * `handleSaveNote` with the server's answer `ok`: a blank text does nothing; otherwise the
     * request is sent, and on success edit mode ends or the new-note box is emptied, and the notes
     * are fetched again. On failure nothing changes.
     */
    method SaveNote(ok: bool) returns (req: Option<NoteRequest>, refetch: bool)
      modifies this
      ensures req == NoteRequestFor(clientId, old(editing), old(newNote))
      ensures refetch <==> req.Some? && ok
      ensures refetch && old(editing).Some? ==> editing.None? && newNote == old(newNote)
      ensures refetch && old(editing).None? ==> editing.None? && newNote == []
      ensures !refetch ==> editing == old(editing) && newNote == old(newNote)
    {
      req := NoteRequestFor(clientId, editing, newNote);
      refetch := req.Some? && ok;
      if refetch {
        if editing.Some? {
          editing := None;
        } else {
          newNote := [];
        }
      }
    }
  }

  /** The body-reading tab's form state. */
  class EvaluationPanel {
    const clientId: string
    var showForm: bool
    var form: EvalForm

    constructor (clientId: string)
      ensures this.clientId == clientId && !showForm && form == EmptyEval
    {
      this.clientId := clientId;
      showForm := false;
      form := EmptyEval;
    }

    /** A zone checkbox. */
    method ToggleZoneOf(z: string)
      modifies this
      ensures form == old(form).(priorityZones := ToggleZone(old(form).priorityZones, z))
      ensures showForm == old(showForm)
    {
      form := form.(priorityZones := ToggleZone(form.priorityZones, z));
    }

    /** `handleEvalSubmit` with the server's answer: after a save the form is hidden and emptied. */
    method Submitted(ok: bool) returns (sent: EvalForm, refetch: bool)
      modifies this
      ensures sent == old(form) && refetch == ok
      ensures ok ==> !showForm && form == EmptyEval
      ensures !ok ==> showForm == old(showForm) && form == old(form)
    {
      sent := form;
      refetch := ok;
      if ok {
        showForm := false;
        form := EmptyEval;
      }
    }
  }

  /** The name shown for an exercise of an assigned workout: "Ejercicio eliminado" once the exercise is gone. */
  function ExerciseLabel(name: Option<string>): (s: string)
    ensures name.None? || name.value == [] ==> s == "Ejercicio eliminado"
    ensures name.Some? && name.value != [] ==> s == name.value
  {
    Or(name, "Ejercicio eliminado")
  }

  /** The title shown for a logged session: "Rutina Eliminada" once the workout is gone. */
  function WorkoutLabel(title: Option<string>): (s: string)
    ensures title.None? || title.value == [] ==> s == "Rutina Eliminada"
    ensures title.Some? && title.value != [] ==> s == title.value
  {
    Or(title, "Rutina Eliminada")
  }
}
