/**
 * The records the coach's builders share: a library exercise as the server returns it, an
 * exercise configuration (sets, reps, rest, notes), a saved template, and one exercise of a
 * submitted routine or template.
 *
 * A string field the server may omit is the empty string when missing: every place that reads one
 * only tests it for falsiness, where `""` and a missing value behave the same.
 */
module Catalog {
  import opened Wrappers

  /** A library exercise: `_id`, `name` and `category`. */
  datatype ExerciseRef = ExerciseRef(id: string, name: string, category: string)

  /** The four editable fields of an exercise in a routine or template. */
  datatype Field = Sets | Reps | Rest | Notes

  datatype Config = Config(sets: string, reps: string, rest: string, notes: string) {
    /** The value of one field. */
    function Get(f: Field): string {
      match f
      case Sets => sets
      case Reps => reps
      case Rest => rest
      case Notes => notes
    }

    /** The configuration with field `f` set to `v`. */
    function With(f: Field, v: string): (c: Config)
      ensures c.Get(f) == v
      ensures forall g :: g != f ==> c.Get(g) == Get(g)
    {
      match f
      case Sets => this.(sets := v)
      case Reps => this.(reps := v)
      case Rest => this.(rest := v)
      case Notes => this.(notes := v)
    }
  }

  /** Two configurations are equal when they agree on every field. */
  lemma ConfigExtensional(c: Config, d: Config)
    requires forall f :: c.Get(f) == d.Get(f)
    ensures c == d
  {
    assert c.Get(Sets) == d.Get(Sets) && c.Get(Reps) == d.Get(Reps);
    assert c.Get(Rest) == d.Get(Rest) && c.Get(Notes) == d.Get(Notes);
  }

  /** Setting a field to the value it already has changes nothing; setting it twice keeps the last value. */
  lemma WithLaws(c: Config, f: Field, v: string, w: string)
    ensures c.With(f, c.Get(f)) == c
    ensures c.With(f, v).With(f, w) == c.With(f, w)
  {
    ConfigExtensional(c.With(f, c.Get(f)), c);
    ConfigExtensional(c.With(f, v).With(f, w), c.With(f, w));
  }

  /** One item of a saved template; `exercise` is missing when the exercise was deleted from the library. */
  datatype TemplateItem = TemplateItem(exercise: Option<ExerciseRef>, config: Config)

  datatype Template = Template(id: string, title: string, description: string, exercises: seq<TemplateItem>)

  /** One exercise as it is sent to the server: the exercise id and its configuration. */
  datatype PayloadItem = PayloadItem(exercise: string, config: Config)

  /** The position of the first template with id `id`. */
  function FindTemplateIndex(templates: seq<Template>, id: string): (r: Option<nat>)
    ensures r.None? <==> forall k :: 0 <= k < |templates| ==> templates[k].id != id
    ensures r.Some? ==> (r.value < |templates| && templates[r.value].id == id
      && forall j :: 0 <= j < r.value ==> templates[j].id != id)
  {
    if templates == [] then None
    else if templates[0].id == id then Some(0)
    else
      match FindTemplateIndex(templates[1..], id)
      case None => None
      case Some(k) => Some(k + 1)
  }

  /** `templates.find(t => t._id === id)`: the first template with that id. */
  function FindTemplate(templates: seq<Template>, id: string): Option<Template> {
    match FindTemplateIndex(templates, id)
    case None => None
    case Some(k) => Some(templates[k])
  }
}
