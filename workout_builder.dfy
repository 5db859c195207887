/**
 * The routine builder a coach uses to assign a workout to one client
 * (src/components/WorkoutBuilderModal.jsx): an ordered list of exercise entries that can be
 * added, removed, edited, replaced from a saved template and submitted.
 *
 * Unlike the template builder, this one accepts the same exercise several times.
 */
module WorkoutBuilder {
  import opened Wrappers
  import opened Text
  import opened Lists
  import opened Catalog

  /** One entry of the routine: the exercise id, its name for display, and its configuration. */
  datatype Entry = Entry(exercise: string, name: string, config: Config)

  /** The configuration a newly added exercise starts with: 3 sets of 10, 60s rest, no notes. */
  const DefaultConfig := Config("3", "10", "60s", "")

  /** `addExercise(ex)` on the list `l`: one entry for `ex` with the default configuration, at the end. */
  function Added(l: seq<Entry>, ex: ExerciseRef): (r: seq<Entry>)
    ensures |r| == |l| + 1 && r[..|l|] == l
    ensures r[|l|].exercise == ex.id && r[|l|].name == ex.name && r[|l|].config == DefaultConfig
  {
    l + [Entry(ex.id, ex.name, DefaultConfig)]
  }

  /** Adding the same exercise twice gives two separate entries for it. */
  lemma AddedTwice(l: seq<Entry>, ex: ExerciseRef)
    ensures var r := Added(Added(l, ex), ex);
      |r| == |l| + 2 && r[..|l|] == l && r[|l|] == r[|l| + 1] && r[|l|].exercise == ex.id
  {
    var r1 := Added(l, ex);
    assert Added(r1, ex)[..|l|] == r1[..|l|];
  }

  /** Removing the entry just added gives back the list. */
  lemma RemoveUndoesAdd(l: seq<Entry>, ex: ExerciseRef)
    ensures RemoveAt(Added(l, ex), |l|) == l
  {
    RemoveAfterAppend(l, Entry(ex.id, ex.name, DefaultConfig));
  }

  /** `updateField(i, f, v)` on the list `l`. */
  function Updated(l: seq<Entry>, i: nat, f: Field, v: string): (r: seq<Entry>)
    requires i < |l|
    ensures |r| == |l|
    ensures forall k :: 0 <= k < |l| && k != i ==> r[k] == l[k]
    ensures r[i].exercise == l[i].exercise && r[i].name == l[i].name
    ensures r[i].config.Get(f) == v
    ensures forall g :: g != f ==> r[i].config.Get(g) == l[i].config.Get(g)
  {
    l[i := l[i].(config := l[i].config.With(f, v))]
  }

  /** Writing back a field's current value changes nothing, and of two writes to a field the last one counts. */
  lemma UpdatedLaws(l: seq<Entry>, i: nat, f: Field, v: string, w: string)
    requires i < |l|
    ensures Updated(l, i, f, l[i].config.Get(f)) == l
    ensures Updated(Updated(l, i, f, v), i, f, w) == Updated(l, i, f, w)
  {
    WithLaws(l[i].config, f, v, w);
  }

  /** The builder entry for one template item; there is none when the item's exercise is missing. */
  function EntryOf(it: TemplateItem): Option<Entry> {
    match it.exercise
    case None => None
    case Some(ex) => Some(Entry(ex.id, ex.name, it.config))
  }

  /**
   * The mapping of a template's items in `handleLoadTemplate`: one entry per item, in order. The
   * mapping fails (the source throws) as soon as an item's exercise is missing.
   */
  function FromTemplate(items: seq<TemplateItem>): (r: Option<seq<Entry>>)
    ensures r.Some? <==> forall k :: 0 <= k < |items| ==> items[k].exercise.Some?
    ensures r.Some? ==> (|r.value| == |items|
      && forall k :: 0 <= k < |items| ==>
        r.value[k] == Entry(items[k].exercise.value.id, items[k].exercise.value.name, items[k].config))
  {
    if items == [] then Some([])
    else
      match (EntryOf(items[0]), FromTemplate(items[1..]))
      case (Some(e), Some(rest)) => Some([e] + rest)
      case _ => None
  }

  /** The `exercises` array of the routine request: each entry without its display name, in order. */
  function Project(l: seq<Entry>): (r: seq<PayloadItem>)
    ensures |r| == |l|
    ensures forall k :: 0 <= k < |l| ==> r[k] == PayloadItem(l[k].exercise, l[k].config)
  {
    if l == [] then [] else [PayloadItem(l[0].exercise, l[0].config)] + Project(l[1..])
  }

  /** A template item as it would be sent: its exercise id and its configuration. */
  function ItemPayload(it: TemplateItem): PayloadItem
    requires it.exercise.Some?
  {
    PayloadItem(it.exercise.value.id, it.config)
  }

  /** Loading a template and submitting it at once sends exactly the template's exercises and configurations. */
  lemma LoadThenSubmit(items: seq<TemplateItem>)
    requires forall k :: 0 <= k < |items| ==> items[k].exercise.Some?
    ensures FromTemplate(items).Some?
    ensures |Project(FromTemplate(items).value)| == |items|
    ensures forall k :: 0 <= k < |items| ==> Project(FromTemplate(items).value)[k] == ItemPayload(items[k])
  {
  }

  /** `filteredLibrary`: the library exercises whose lower-cased name includes the lower-cased search term. */
  function LibraryFilter(library: seq<ExerciseRef>, term: string): seq<ExerciseRef> {
    Filter(library, (ex: ExerciseRef) => Contains(Lower(ex.name), Lower(term)))
  }

  /** A library exercise is offered exactly when it is in the library and its name matches the term. */
  lemma LibraryFilterMembership(library: seq<ExerciseRef>, term: string, ex: ExerciseRef)
    ensures ex in LibraryFilter(library, term) <==> ex in library && Contains(Lower(ex.name), Lower(term))
  {
    FilterMembership(library, (e: ExerciseRef) => Contains(Lower(e.name), Lower(term)), ex);
  }

  /** The offered exercises keep the library's order, and an empty search offers the whole library. */
  lemma LibraryFilterOrderAndEmpty(library: seq<ExerciseRef>, term: string)
    ensures IsSubseq(LibraryFilter(library, term), library)
    ensures term == [] ==> LibraryFilter(library, term) == library
  {
    var p := (e: ExerciseRef) => Contains(Lower(e.name), Lower(term));
    FilterIsSubseq(library, p);
    if term == [] {
      forall k | 0 <= k < |library| ensures p(library[k]) {
        ContainsEmpty(Lower(library[k].name));
      }
      FilterKeepsAll(library, p);
    }
  }

  /** What `handleLoadTemplate` did. */
  datatype LoadOutcome =
    | NotFound   // no template with that id: nothing happens
    | Declined   // the replace confirmation was refused: nothing happens
    | Crashed    // the title was copied, then the mapping threw on an item whose exercise is missing
    | Loaded     // title and list replaced

  /** The routine request `handleSubmit` posts. */
  datatype WorkoutRequest = WorkoutRequest(clientId: string, title: string, exercises: seq<PayloadItem>)

  /** The open modal's state. */
  class Builder {
    const clientId: string
    var title: string
    var library: seq<ExerciseRef>
    var selected: seq<Entry>
    var loading: bool
    var searchTerm: string
    var templates: seq<Template>

    /** The modal as it is first rendered for a client. */
    constructor (clientId: string)
      ensures this.clientId == clientId
      ensures title == [] && library == [] && selected == [] && !loading && searchTerm == [] && templates == []
    {
      this.clientId := clientId;
      title := [];
      library := [];
      selected := [];
      loading := false;
      searchTerm := [];
      templates := [];
    }

    /** The fetch on opening: both lists arrived. */
    method DataLoaded(exercises: seq<ExerciseRef>, saved: seq<Template>)
      modifies this
      ensures library == exercises && templates == saved
      ensures title == old(title) && selected == old(selected) && loading == old(loading)
      ensures searchTerm == old(searchTerm)
    {
      library := exercises;
      templates := saved;
    }

    /** `handleLoadTemplate(id)`, with the answer to the replace confirmation as `confirmed`. */
    method LoadTemplate(id: string, confirmed: bool) returns (o: LoadOutcome)
      modifies this
      ensures library == old(library) && templates == old(templates)
      ensures loading == old(loading) && searchTerm == old(searchTerm)
      ensures FindTemplate(templates, id).None? ==> o == NotFound
      ensures FindTemplate(templates, id).Some? && !confirmed ==> o == Declined
      ensures o == NotFound || o == Declined ==> title == old(title) && selected == old(selected)
      ensures FindTemplate(templates, id).Some? && confirmed ==>
        var t := FindTemplate(templates, id).value;
        title == t.title
        && (FromTemplate(t.exercises).Some? ==> o == Loaded && selected == FromTemplate(t.exercises).value)
        && (FromTemplate(t.exercises).None? ==> o == Crashed && selected == old(selected))
    {
      var found := FindTemplate(templates, id);
      if found.None? {
        return NotFound;
      }
      if !confirmed {
        return Declined;
      }
      title := found.value.title;
      var mapped := FromTemplate(found.value.exercises);
      if mapped.None? {
        return Crashed;
      }
      selected := mapped.value;
      return Loaded;
    }

    /** `addExercise(ex)`: the exercise is appended and the search box cleared. */
    method AddExercise(ex: ExerciseRef)
      modifies this
      ensures selected == Added(old(selected), ex) && searchTerm == []
      ensures title == old(title) && loading == old(loading)
      ensures library == old(library) && templates == old(templates)
    {
      selected := Added(selected, ex);
      searchTerm := [];
    }

    /** `removeExercise(i)`. */
    method RemoveExercise(i: int)
      modifies this
      ensures selected == RemoveAt(old(selected), i)
      ensures title == old(title) && loading == old(loading) && searchTerm == old(searchTerm)
      ensures library == old(library) && templates == old(templates)
    {
      selected := RemoveAt(selected, i);
    }

    /** `updateField(i, f, v)`, from the inputs of the entry at `i`. */
    method UpdateField(i: nat, f: Field, v: string)
      requires i < |selected|
      modifies this
      ensures selected == Updated(old(selected), i, f, v)
      ensures title == old(title) && loading == old(loading) && searchTerm == old(searchTerm)
      ensures library == old(library) && templates == old(templates)
    {
      selected := Updated(selected, i, f, v);
    }

    /**
     * `handleSubmit` up to the request: with an empty title or no exercise nothing happens and no
     * request is made; otherwise `loading` is set and the routine is posted. The button is disabled
     * while `loading`.
     */
    method Submit() returns (req: Option<WorkoutRequest>)
      requires !loading
      modifies this
      ensures req.None? <==> old(title) == [] || old(selected) == []
      ensures req.None? ==> !loading
      ensures req.Some? ==> loading && req.value == WorkoutRequest(clientId, old(title), Project(old(selected)))
      ensures title == old(title) && selected == old(selected) && searchTerm == old(searchTerm)
      ensures library == old(library) && templates == old(templates)
    {
      if title == [] || selected == [] {
        return None;
      }
      loading := true;
      return Some(WorkoutRequest(clientId, title, Project(selected)));
    }

    /**
     * The end of `handleSubmit`: on success the parent is told and the modal closed (`closes`), and
     * the title and list are emptied; on failure they are kept. `loading` is cleared either way.
     */
    method SubmitSettled(ok: bool) returns (closes: bool)
      requires loading
      modifies this
      ensures !loading && closes == ok
      ensures ok ==> title == [] && selected == []
      ensures !ok ==> title == old(title) && selected == old(selected)
      ensures searchTerm == old(searchTerm) && library == old(library) && templates == old(templates)
    {
      if ok {
        title := [];
        selected := [];
      }
      loading := false;
      return ok;
    }
  }
}
