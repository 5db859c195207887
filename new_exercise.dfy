/**
 * The new-exercise form (src/components/NewExerciseModal.jsx): its defaults, the category
 * choice, the tags read from a comma-separated field, and the reset after a save.
 */
module NewExercise {
  import opened Wrappers
  import opened Text
  import opened Ejercicios

  /** The categories the select offers. */
  const Categories: seq<string> := ["Movilidad", "Fuerza", "Respiración", "Activación", "Estiramiento", "Cardio"]

  datatype ExerciseForm = ExerciseForm(name: string, category: string, videoUrl: string, instructions: string, tags: string)

  /** The form's initial contents, and what it returns to after a save. */
  const DefaultForm := ExerciseForm([], "Movilidad", [], [], [])

  /** The request body: the form as typed, with the tags split on commas. */
  datatype ExerciseRequest = ExerciseRequest(name: string, category: string, videoUrl: string, instructions: string, tags: seq<string>)

  function RequestOf(f: ExerciseForm): (r: ExerciseRequest)
    ensures r.name == f.name && r.category == f.category && r.videoUrl == f.videoUrl && r.instructions == f.instructions
    ensures r.tags == SplitList(f.tags, ',')
  {
    ExerciseRequest(f.name, f.category, f.videoUrl, f.instructions, SplitList(f.tags, ','))
  }

  /** Every tag sent is non-empty, trimmed and free of commas; a tag list typed cleanly is sent as typed. */
  lemma TagsAreClean(f: ExerciseForm, typed: seq<string>)
    ensures forall k :: 0 <= k < |RequestOf(f).tags| ==>
      RequestOf(f).tags[k] != [] && ',' !in RequestOf(f).tags[k] && IsTrimmed(RequestOf(f).tags[k])
    ensures (forall k :: 0 <= k < |typed| ==> typed[k] != [] && ',' !in typed[k] && IsTrimmed(typed[k]))
      ==> RequestOf(f.(tags := JoinWith(typed, ','))).tags == typed
  {
    SplitListItems(f.tags, ',');
    if forall k :: 0 <= k < |typed| ==> typed[k] != [] && ',' !in typed[k] && IsTrimmed(typed[k]) {
      SplitListOfJoin(typed, ',');
    }
  }

  /** Once saved, the exercise is found in the library by any of its tags. */
  lemma FoundByTag(f: ExerciseForm, id: string, k: int)
    requires 0 <= k < |RequestOf(f).tags|
    ensures var r := RequestOf(f);
      MatchesText(Exercise(id, r.name, r.category, r.tags, Some(r.videoUrl)), r.tags[k])
  {
    var r := RequestOf(f);
    ContainsSelf(Lower(r.tags[k]));
  }

  class NewExerciseModal {
    var form: ExerciseForm
    var loading: bool

    /** The category is always one the select offers. */
    predicate Valid()
      reads this
    {
      form.category in Categories
    }

    constructor ()
      ensures form == DefaultForm && !loading && Valid()
    {
      form := DefaultForm;
      loading := false;
    }

    /** The category select. */
    method SetCategory(c: string)
      requires c in Categories
      modifies this
      ensures form == old(form).(category := c) && loading == old(loading) && Valid()
    {
      form := form.(category := c);
    }

    /** The text inputs. */
    method SetText(name: string, videoUrl: string, instructions: string, tags: string)
      modifies this
      ensures form == old(form).(name := name, videoUrl := videoUrl, instructions := instructions, tags := tags)
      ensures loading == old(loading) && (old(Valid()) ==> Valid())
    {
      form := form.(name := name, videoUrl := videoUrl, instructions := instructions, tags := tags);
    }

    /** `handleSubmit` up to the request. The button is disabled while loading. */
    method Submit() returns (req: ExerciseRequest)
      requires !loading
      modifies this
      ensures loading && req == RequestOf(form) && form == old(form)
    {
      loading := true;
      req := RequestOf(form);
    }

    /** The answer: after a save the library is told, the modal closes and the form returns to its defaults. */
    method Settled(ok: bool) returns (closes: bool)
      requires loading
      modifies this
      ensures !loading && closes == ok
      ensures ok ==> form == DefaultForm
      ensures !ok ==> form == old(form)
      ensures old(Valid()) ==> Valid()
    {
      if ok {
        form := DefaultForm;
      }
      loading := false;
      closes := ok;
    }
  }
}
