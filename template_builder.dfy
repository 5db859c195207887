/**
 * The template builder of the coach's programme page (`TemplateBuilderModal` in
 * src/pages/admin/Programas.jsx): the selected exercises in order, and a map from exercise id to
 * that exercise's configuration. Unlike the routine builder it refuses an exercise that is
 * already selected, so that one id never has two configurations.
 */
module TemplateBuilder {
  import opened Wrappers
  import opened Text
  import opened Lists
  import opened Catalog

  /** The configuration a newly added exercise starts with: 3 sets of 10-12, 60s rest, no notes. */
  const TemplateDefault := Config("3", "10-12", "60s", "")

  /** An object with no field: what `{ ...undefined }` spreads. */
  const NoConfig := Config("", "", "", "")

  /** A stored configuration with each missing (falsy) field replaced by the default. */
  function Defaulted(c: Config): (r: Config)
    ensures forall f :: r.Get(f) == (if c.Get(f) != [] then c.Get(f) else TemplateDefault.Get(f))
  {
    Config(
      if c.sets != [] then c.sets else TemplateDefault.sets,
      if c.reps != [] then c.reps else TemplateDefault.reps,
      if c.rest != [] then c.rest else TemplateDefault.rest,
      if c.notes != [] then c.notes else TemplateDefault.notes)
  }

  /** No two selected exercises share an id. */
  predicate Distinct(sel: seq<ExerciseRef>) {
    forall i, j :: 0 <= i < j < |sel| ==> sel[i].id != sel[j].id
  }

  /** Every selected exercise has a configuration. */
  predicate Covered(sel: seq<ExerciseRef>, configs: map<string, Config>) {
    forall k :: 0 <= k < |sel| ==> sel[k].id in configs
  }

  /** Whether `id` is already selected: `selectedExercises.find(ex => ex._id === id)`. */
  predicate IsSelected(sel: seq<ExerciseRef>, id: string) {
    exists k :: 0 <= k < |sel| && sel[k].id == id
  }

  /** The items that still have their exercise. */
  function Present(items: seq<TemplateItem>): seq<TemplateItem> {
    Filter(items, (it: TemplateItem) => it.exercise.Some?)
  }

  /** The prefill's selection: the items' exercises in order, skipping the missing ones. */
  function PrefillSelection(items: seq<TemplateItem>): (r: seq<ExerciseRef>)
    ensures |r| <= |items|
    ensures forall e :: e in r <==> exists k :: 0 <= k < |items| && items[k].exercise == Some(e)
    ensures |r| == |Present(items)|
    ensures forall k :: 0 <= k < |r| ==> r[k] == Present(items)[k].exercise.value
  {
    if items == [] then []
    else
      var init := items[..|items| - 1];
      var last := items[|items| - 1];
      assert forall k :: 0 <= k < |init| ==> init[k] == items[k];
      assert items == init + [last];
      FilterConcat(init, [last], (it: TemplateItem) => it.exercise.Some?);
      PrefillSelection(init) + (if last.exercise.Some? then [last.exercise.value] else [])
  }

  /** The prefill's configurations: one per present exercise id, the later item winning on a repeated id. */
  function PrefillConfigs(items: seq<TemplateItem>): (m: map<string, Config>)
    ensures forall id :: id in m <==>
      exists k :: 0 <= k < |items| && items[k].exercise.Some? && items[k].exercise.value.id == id
  {
    if items == [] then map[]
    else
      var init := items[..|items| - 1];
      var last := items[|items| - 1];
      assert forall k :: 0 <= k < |init| ==> init[k] == items[k];
      var m := PrefillConfigs(init);
      if last.exercise.Some? then m[last.exercise.value.id := Defaulted(last.config)] else m
  }

  /** The item at `k` is the last one naming its exercise. */
  predicate LastNaming(items: seq<TemplateItem>, k: int) {
    0 <= k < |items| && items[k].exercise.Some?
    && forall j :: k < j < |items| && items[j].exercise.Some? ==> items[j].exercise.value.id != items[k].exercise.value.id
  }

  /** Each exercise gets the defaulted configuration of the last item that names it. */
  lemma {:induction false} PrefillLastWins(items: seq<TemplateItem>, k: int)
    requires LastNaming(items, k)
    ensures PrefillConfigs(items)[items[k].exercise.value.id] == Defaulted(items[k].config)
    decreases |items|
  {
    var init := items[..|items| - 1];
    if k < |items| - 1 {
      assert init[k] == items[k];
      assert LastNaming(init, k);
      PrefillLastWins(init, k);
    }
  }

  /** The prefilled state has a configuration for every selected exercise. */
  lemma PrefillCovered(items: seq<TemplateItem>)
    ensures Covered(PrefillSelection(items), PrefillConfigs(items))
  {
    var sel := PrefillSelection(items);
    forall i | 0 <= i < |sel| ensures sel[i].id in PrefillConfigs(items) {
      assert sel[i] in sel;
    }
  }

  /** The ids of the template's present exercises are pairwise different. */
  predicate ItemIdsDistinct(items: seq<TemplateItem>) {
    forall i, j :: 0 <= i < j < |items| && items[i].exercise.Some? && items[j].exercise.Some?
      ==> items[i].exercise.value.id != items[j].exercise.value.id
  }

  /** A template without a repeated exercise prefills a selection without a repeated exercise. */
  lemma {:induction false} PrefillDistinct(items: seq<TemplateItem>)
    requires ItemIdsDistinct(items)
    ensures Distinct(PrefillSelection(items))
    decreases |items|
  {
    if items != [] {
      var init := items[..|items| - 1];
      var last := items[|items| - 1];
      assert ItemIdsDistinct(init) by {
        forall i, j | 0 <= i < j < |init| ensures
          init[i].exercise.Some? && init[j].exercise.Some? ==> init[i].exercise.value.id != init[j].exercise.value.id
        {
          assert init[i] == items[i] && init[j] == items[j];
        }
      }
      PrefillDistinct(init);
      var s := PrefillSelection(init);
      if last.exercise.Some? {
        forall i | 0 <= i < |s| ensures s[i].id != last.exercise.value.id {
          assert s[i] in s;
          var k :| 0 <= k < |init| && init[k].exercise == Some(s[i]);
          assert items[k] == init[k];
        }
      }
    }
  }

  /**
   * The forEach of the edit prefill: walks the template's items, pushing each present exercise and
   * storing its defaulted configuration under its id.
   */
  method CollectPrefill(items: seq<TemplateItem>) returns (sel: seq<ExerciseRef>, configs: map<string, Config>)
    ensures sel == PrefillSelection(items) && configs == PrefillConfigs(items)
    ensures Covered(sel, configs)
  {
    sel := [];
    configs := map[];
    var i := 0;
    while i < |items|
      invariant 0 <= i <= |items|
      invariant sel == PrefillSelection(items[..i]) && configs == PrefillConfigs(items[..i])
    {
      var item := items[i];
      if item.exercise.Some? {
        sel := sel + [item.exercise.value];
        configs := configs[item.exercise.value.id := Defaulted(item.config)];
      }
      assert items[..i + 1][..i] == items[..i];
      i := i + 1;
    }
    assert items[..|items|] == items;
    PrefillCovered(items);
  }

  /** The builder state both add and remove keep. */
  predicate Consistent(sel: seq<ExerciseRef>, configs: map<string, Config>) {
    Distinct(sel) && Covered(sel, configs)
  }

  /** Adding an exercise that is not yet selected keeps the state consistent. */
  lemma AddKeepsConsistent(sel: seq<ExerciseRef>, configs: map<string, Config>, ex: ExerciseRef)
    requires Consistent(sel, configs) && !IsSelected(sel, ex.id)
    ensures Consistent(sel + [ex], configs[ex.id := TemplateDefault])
  {
  }

  /** Removing the exercise at `i` and its configuration keeps the state consistent. */
  lemma RemoveKeepsConsistent(sel: seq<ExerciseRef>, configs: map<string, Config>, i: int)
    requires Consistent(sel, configs) && 0 <= i < |sel|
    ensures Consistent(RemoveAt(sel, i), configs - {sel[i].id})
  {
    var r := RemoveAt(sel, i);
    forall a, b | 0 <= a < b < |r| ensures r[a].id != r[b].id {
      var a' := if a < i then a else a + 1;
      var b' := if b < i then b else b + 1;
      assert r[a] == sel[a'] && r[b] == sel[b'];
    }
    forall k | 0 <= k < |r| ensures r[k].id in configs - {sel[i].id} {
      var k' := if k < i then k else k + 1;
      assert r[k] == sel[k'];
    }
  }

  /**
   * Removing index `i` and deleting its configuration key: the removed exercise is no longer
   * selected nor configured, no other selection entry is lost, and every other key keeps its value.
   */
  lemma RemoveDropsOnlyThat(sel: seq<ExerciseRef>, configs: map<string, Config>, i: int)
    requires Distinct(sel) && 0 <= i < |sel|
    ensures !IsSelected(RemoveAt(sel, i), sel[i].id) && sel[i].id !in configs - {sel[i].id}
    ensures multiset(RemoveAt(sel, i)) + multiset{sel[i]} == multiset(sel)
    ensures forall id :: id in configs && id != sel[i].id ==> id in configs - {sel[i].id} && (configs - {sel[i].id})[id] == configs[id]
  {
    var r := RemoveAt(sel, i);
    forall k | 0 <= k < |r| ensures r[k].id != sel[i].id {
      var k' := if k < i then k else k + 1;
      assert r[k] == sel[k'];
    }
    RemoveAtMultiset(sel, i);
  }

  /** `handleConfigChange(id, f, v)` on the configurations: only field `f` of `id` changes. */
  function ConfigChanged(configs: map<string, Config>, id: string, f: Field, v: string): (m: map<string, Config>)
    ensures m.Keys == configs.Keys + {id}
    ensures forall k :: k in configs && k != id ==> m[k] == configs[k]
    ensures m[id].Get(f) == v
    ensures id in configs ==> forall g :: g != f ==> m[id].Get(g) == configs[id].Get(g)
    ensures id !in configs ==> forall g :: g != f ==> m[id].Get(g) == NoConfig.Get(g)
  {
    var base := if id in configs then configs[id] else NoConfig;
    configs[id := base.With(f, v)]
  }

  /** The `exercises` of the template request: each selected id merged with its configuration, in order. */
  function Payload(sel: seq<ExerciseRef>, configs: map<string, Config>): (r: seq<PayloadItem>)
    ensures |r| == |sel|
    ensures forall k :: 0 <= k < |sel| ==> r[k].exercise == sel[k].id
  {
    if sel == [] then []
    else
      var c := if sel[0].id in configs then configs[sel[0].id] else NoConfig;
      [PayloadItem(sel[0].id, c)] + Payload(sel[1..], configs)
  }

  /** In a consistent state each payload item carries exactly the configuration stored for its exercise. */
  lemma {:induction false} PayloadUsesConfigs(sel: seq<ExerciseRef>, configs: map<string, Config>)
    requires Covered(sel, configs)
    ensures forall k :: 0 <= k < |sel| ==> Payload(sel, configs)[k] == PayloadItem(sel[k].id, configs[sel[k].id])
  {
    if sel != [] {
      assert Covered(sel[1..], configs) by {
        forall k | 0 <= k < |sel[1..]| ensures sel[1..][k].id in configs {
          assert sel[1..][k] == sel[k + 1];
        }
      }
      PayloadUsesConfigs(sel[1..], configs);
      assert forall k :: 1 <= k < |sel| ==> Payload(sel, configs)[k] == Payload(sel[1..], configs)[k - 1];
    }
  }

  /** Editing a template with no missing and no repeated exercise and saving it at once sends its items back with defaults filled in. */
  lemma EditThenSave(items: seq<TemplateItem>)
    requires forall k :: 0 <= k < |items| ==> items[k].exercise.Some?
    requires ItemIdsDistinct(items)
    ensures var p := Payload(PrefillSelection(items), PrefillConfigs(items));
      |p| == |items|
      && forall k :: 0 <= k < |items| ==> p[k] == PayloadItem(items[k].exercise.value.id, Defaulted(items[k].config))
  {
    AllPresentSelection(items);
    PrefillCovered(items);
    PayloadUsesConfigs(PrefillSelection(items), PrefillConfigs(items));
    forall k | 0 <= k < |items| ensures PrefillConfigs(items)[items[k].exercise.value.id] == Defaulted(items[k].config) {
      assert LastNaming(items, k);
      PrefillLastWins(items, k);
    }
  }

  /** With every exercise present, the prefilled selection is the items' exercises, one for one. */
  lemma {:induction false} AllPresentSelection(items: seq<TemplateItem>)
    requires forall k :: 0 <= k < |items| ==> items[k].exercise.Some?
    ensures |PrefillSelection(items)| == |items|
    ensures forall k :: 0 <= k < |items| ==> PrefillSelection(items)[k] == items[k].exercise.value
    decreases |items|
  {
    if items != [] {
      var init := items[..|items| - 1];
      assert forall k :: 0 <= k < |init| ==> init[k] == items[k];
      AllPresentSelection(init);
      var s := PrefillSelection(init);
      assert PrefillSelection(items) == s + [items[|items| - 1].exercise.value];
      forall k | 0 <= k < |items| ensures PrefillSelection(items)[k] == items[k].exercise.value {
        if k < |init| {
          assert PrefillSelection(items)[k] == s[k];
        }
      }
    }
  }

  /** `filteredExercises`: the library exercises whose lower-cased name or category includes the lower-cased term. */
  function LibraryFilter(library: seq<ExerciseRef>, term: string): seq<ExerciseRef> {
    Filter(library, (ex: ExerciseRef) => Contains(Lower(ex.name), Lower(term)) || Contains(Lower(ex.category), Lower(term)))
  }

  /** An exercise is offered exactly when it is in the library and its name or its category matches the term. */
  lemma LibraryFilterMembership(library: seq<ExerciseRef>, term: string, ex: ExerciseRef)
    ensures ex in LibraryFilter(library, term) <==>
      ex in library && (Contains(Lower(ex.name), Lower(term)) || Contains(Lower(ex.category), Lower(term)))
  {
    FilterMembership(library, (e: ExerciseRef) => Contains(Lower(e.name), Lower(term)) || Contains(Lower(e.category), Lower(term)), ex);
  }

  /** How the template is saved: a PUT to the edited template, or a POST of a new one. */
  datatype Target = Update(templateId: string) | Create

  datatype TemplateRequest = TemplateRequest(target: Target, title: string, description: string, exercises: seq<PayloadItem>)

  /** The open modal's state. `editing` is the template being edited, if any. */
  class Builder {
    var editing: Option<Template>
    var title: string
    var description: string
    var library: seq<ExerciseRef>
    var selected: seq<ExerciseRef>
    var configs: map<string, Config>
    var searchTerm: string

    constructor ()
      ensures editing.None? && title == [] && description == [] && library == []
      ensures selected == [] && configs == map[] && searchTerm == []
    {
      editing := None;
      title := [];
      description := [];
      library := [];
      selected := [];
      configs := map[];
      searchTerm := [];
    }

    /**
     * The effect on opening: with a template to edit its title, description, exercises and
     * configurations are copied in; without one the form is emptied, search included.
     */
    method Open(toEdit: Option<Template>)
      modifies this
      ensures editing == toEdit && library == old(library)
      ensures toEdit.Some? ==> (title == toEdit.value.title && description == toEdit.value.description
        && selected == PrefillSelection(toEdit.value.exercises) && configs == PrefillConfigs(toEdit.value.exercises)
        && searchTerm == old(searchTerm))
      ensures toEdit.None? ==> title == [] && description == [] && selected == [] && configs == map[] && searchTerm == []
      ensures Covered(selected, configs)
    {
      editing := toEdit;
      if toEdit.Some? {
        title := toEdit.value.title;
        description := toEdit.value.description;
        selected, configs := CollectPrefill(toEdit.value.exercises);
      } else {
        title := [];
        description := [];
        selected := [];
        configs := map[];
        searchTerm := [];
      }
    }

    /** The library fetch answered. */
    method LibraryLoaded(exercises: seq<ExerciseRef>)
      modifies this
      ensures library == exercises
      ensures editing == old(editing) && title == old(title) && description == old(description)
      ensures selected == old(selected) && configs == old(configs) && searchTerm == old(searchTerm)
    {
      library := exercises;
    }

    /** `handleAddExercise(ex)`: refused when the exercise is already selected; otherwise appended with the default configuration. */
    method AddExercise(ex: ExerciseRef) returns (rejected: bool)
      modifies this
      ensures rejected <==> IsSelected(old(selected), ex.id)
      ensures rejected ==> selected == old(selected) && configs == old(configs)
      ensures !rejected ==> selected == old(selected) + [ex] && configs == old(configs)[ex.id := TemplateDefault]
      ensures Consistent(old(selected), old(configs)) ==> Consistent(selected, configs)
      ensures editing == old(editing) && title == old(title) && description == old(description)
      ensures library == old(library) && searchTerm == old(searchTerm)
    {
      rejected := exists k :: 0 <= k < |selected| && selected[k].id == ex.id;
      if !rejected {
        if Consistent(selected, configs) {
          AddKeepsConsistent(selected, configs, ex);
        }
        selected := selected + [ex];
        configs := configs[ex.id := TemplateDefault];
      }
    }

    /** `handleRemoveExercise(i)`, from the remove button of the exercise at `i`. */
    method RemoveExercise(i: nat)
      requires i < |selected|
      modifies this
      ensures selected == RemoveAt(old(selected), i) && configs == old(configs) - {old(selected)[i].id}
      ensures Consistent(old(selected), old(configs)) ==> Consistent(selected, configs)
      ensures editing == old(editing) && title == old(title) && description == old(description)
      ensures library == old(library) && searchTerm == old(searchTerm)
    {
      var id := selected[i].id;
      if Consistent(selected, configs) {
        RemoveKeepsConsistent(selected, configs, i);
      }
      selected := RemoveAt(selected, i);
      configs := configs - {id};
    }

    /** `handleConfigChange(id, f, v)`. */
    method ConfigChange(id: string, f: Field, v: string)
      modifies this
      ensures configs == ConfigChanged(old(configs), id, f, v)
      ensures Consistent(old(selected), old(configs)) ==> Consistent(selected, configs)
      ensures editing == old(editing) && title == old(title) && description == old(description)
      ensures library == old(library) && selected == old(selected) && searchTerm == old(searchTerm)
    {
      configs := ConfigChanged(configs, id, f, v);
    }

    /**
     * `handleSubmit` up to the request: refused when the title is blank after trimming or nothing is
     * selected; otherwise the template is sent, to the edited template or as a new one. The answer
     * only tells the parent page (refresh and close) or raises an alert, so the modal state does not change.
     */
    method Submit() returns (req: Option<TemplateRequest>)
      ensures req.None? <==> IsBlank(title) || selected == []
      ensures req.Some? ==> (req.value.title == title && req.value.description == description
        && req.value.exercises == Payload(selected, configs)
        && req.value.target == (if editing.Some? then Update(editing.value.id) else Create))
    {
      if IsBlank(title) || selected == [] {
        return None;
      }
      var target := if editing.Some? then Update(editing.value.id) else Create;
      return Some(TemplateRequest(target, title, description, Payload(selected, configs)));
    }
  }
}
