/**
 * The post-workout feedback form (src/components/FeedbackModal.jsx): the effort rating (RPE), the
 * comments and the weight used per exercise, sent together when the client saves.
 *
 * The form's state lives above the `isOpen` test, so closing the modal keeps it; a closed modal
 * only renders nothing.
 */
module Feedback {
  import opened Wrappers

  /** The exercise of a workout item, when it still exists. */
  datatype ItemExercise = ItemExercise(id: string, name: string)

  /** One exercise of the feedback request. */
  datatype ExerciseData = ExerciseData(exerciseId: Option<string>, exerciseName: Option<string>, weightUsed: string)

  /** The recorded weight for an exercise id, `""` when none was typed. */
  function WeightFor(weights: map<string, string>, id: string): string {
    if id in weights then weights[id] else ""
  }

  /** `exercisesData`: one entry per workout item, in order, with the weight recorded for its exercise. */
  function ExercisesData(items: seq<Option<ItemExercise>>, weights: map<string, string>): (r: seq<ExerciseData>)
    ensures |r| == |items|
    ensures forall k :: 0 <= k < |items| && items[k].None? ==> r[k] == ExerciseData(None, None, "")
    ensures forall k :: 0 <= k < |items| && items[k].Some? ==>
      r[k] == ExerciseData(Some(items[k].value.id), Some(items[k].value.name), WeightFor(weights, items[k].value.id))
  {
    if items == [] then []
    else
      var head := match items[0]
        case None => ExerciseData(None, None, "")
        case Some(ex) => ExerciseData(Some(ex.id), Some(ex.name), WeightFor(weights, ex.id));
      [head] + ExercisesData(items[1..], weights)
  }

  /** The weights after a weight is typed for an item: recorded under its exercise id, and only when it has one. */
  function WeightChanged(weights: map<string, string>, item: Option<ItemExercise>, value: string): (m: map<string, string>)
    ensures item.None? || item.value.id == [] ==> m == weights
    ensures item.Some? && item.value.id != [] ==> (m.Keys == weights.Keys + {item.value.id}
      && WeightFor(m, item.value.id) == value
      && forall k :: k != item.value.id ==> WeightFor(m, k) == WeightFor(weights, k))
  {
    if item.Some? && item.value.id != [] then weights[item.value.id := value] else weights
  }

  /**
   * After typing a weight for one exercise, the request carries that weight for every item of that
   * exercise, and the other items' weights are as before.
   */
  lemma TypedWeightIsSent(items: seq<Option<ItemExercise>>, weights: map<string, string>, item: Option<ItemExercise>, value: string)
    requires item.Some? && item.value.id != []
    ensures var before := ExercisesData(items, weights);
      var after := ExercisesData(items, WeightChanged(weights, item, value));
      forall k :: 0 <= k < |items| ==>
        after[k].weightUsed == (if items[k].Some? && items[k].value.id == item.value.id then value else before[k].weightUsed)
  {
  }

  /** The feedback request. */
  datatype FeedbackRequest = FeedbackRequest(workoutId: string, rpe: int, comments: string, exercisesData: seq<ExerciseData>)

  /** The slider's range. */
  predicate IsRpe(v: int) {
    1 <= v <= 10
  }

  class FeedbackForm {
    var rpe: int
    var comments: string
    var saving: bool
    var weights: map<string, string>

    /** The RPE always lies on the slider. */
    predicate Valid()
      reads this
    {
      IsRpe(rpe)
    }

    /** A fresh form: RPE 5, no comments, no weights. */
    constructor ()
      ensures rpe == 5 && comments == [] && !saving && weights == map[]
      ensures Valid()
    {
      rpe := 5;
      comments := [];
      saving := false;
      weights := map[];
    }

    /** The slider moved to `v` (`parseInt` of an integer between 1 and 10). */
    method SetRpe(v: int)
      requires IsRpe(v)
      modifies this
      ensures rpe == v && Valid()
      ensures comments == old(comments) && saving == old(saving) && weights == old(weights)
    {
      rpe := v;
    }

    method SetComments(text: string)
      modifies this
      ensures comments == text
      ensures rpe == old(rpe) && saving == old(saving) && weights == old(weights)
    {
      comments := text;
    }

    /** A weight typed for `item`: `handleWeightChange` runs only when the item has an exercise id. */
    method WeightChange(item: Option<ItemExercise>, value: string)
      modifies this
      ensures weights == WeightChanged(old(weights), item, value)
      ensures rpe == old(rpe) && comments == old(comments) && saving == old(saving)
    {
      if item.Some? && item.value.id != [] {
        weights := weights[item.value.id := value];
      }
    }

    /** `handleSubmit` up to the request: `saving` is set and the feedback sent. The button is disabled while saving. */
    method Submit(workoutId: string, items: seq<Option<ItemExercise>>) returns (req: FeedbackRequest)
      requires !saving && Valid()
      modifies this
      ensures saving
      ensures req == FeedbackRequest(workoutId, rpe, comments, ExercisesData(items, weights))
      ensures IsRpe(req.rpe) && |req.exercisesData| == |items|
      ensures rpe == old(rpe) && comments == old(comments) && weights == old(weights)
    {
      saving := true;
      req := FeedbackRequest(workoutId, rpe, comments, ExercisesData(items, weights));
    }

    /** The answer: only a saved feedback tells the page (`onSaved`) and closes the modal; `saving` ends either way. */
    method SubmitSettled(ok: bool) returns (savedAndClosed: bool)
      requires saving
      modifies this
      ensures !saving && savedAndClosed == ok
      ensures rpe == old(rpe) && comments == old(comments) && weights == old(weights)
    {
      saving := false;
      savedAndClosed := ok;
    }
  }
}
