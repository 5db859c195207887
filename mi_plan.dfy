/**
 * The client's plan page (src/pages/client/MiPlan.jsx): the accordion of assigned workouts and
 * the media area of each exercise card. Both copies of `getEmbedUrl` in the file are
 * `YouTube.EmbedUrl`.
 */
module MiPlan {
  import opened Wrappers
  import opened Text
  import opened YouTube
  import opened ImageUtils

  /** An assigned workout, by id. */
  datatype Workout = Workout(id: string, title: string)

  /** The accordion after a click on the header of workout `id`: it collapses if open, otherwise it alone opens. */
  function Toggled(expanded: Option<string>, id: string): (r: Option<string>)
    ensures expanded == Some(id) ==> r.None?
    ensures expanded != Some(id) ==> r == Some(id)
  {
    if expanded == Some(id) then None else Some(id)
  }

  /** Clicking the same header twice restores an open card, and closes the accordion otherwise. */
  lemma ToggledTwice(expanded: Option<string>, id: string)
    ensures Toggled(Toggled(expanded, id), id) == if expanded == Some(id) then expanded else None
  {
  }

  /** Whether a workout's card is open. */
  predicate IsExpanded(expanded: Option<string>, w: Workout) {
    expanded == Some(w.id)
  }

  /** Whatever the clicks, the open cards all have the same id: at most one workout is open. */
  lemma AtMostOneExpanded(expanded: Option<string>, w1: Workout, w2: Workout)
    requires IsExpanded(expanded, w1) && IsExpanded(expanded, w2)
    ensures w1.id == w2.id
  {
  }

  const UnknownError := "Error desconocido"

  class PlanView {
    var workouts: seq<Workout>
    var loading: bool
    var error: Option<string>
    var expanded: Option<string>

    constructor ()
      ensures workouts == [] && loading && error.None? && expanded.None?
    {
      workouts := [];
      loading := true;
      error := None;
      expanded := None;
    }

    /** The plan arrived: it is shown, and the first workout, if any, is open. */
    method Loaded(data: seq<Workout>)
      modifies this
      ensures workouts == data && !loading && error == old(error)
      ensures data != [] ==> expanded == Some(data[0].id)
      ensures data == [] ==> expanded == old(expanded)
    {
      workouts := data;
      if |data| > 0 {
        expanded := Some(data[0].id);
      }
      loading := false;
    }

    /** The request failed: the error's message, or "Error desconocido", is kept for display. */
    method LoadFailed(message: Option<string>)
      modifies this
      ensures error == Some(Or(message, UnknownError)) && !loading
      ensures workouts == old(workouts) && expanded == old(expanded)
    {
      error := Some(Or(message, UnknownError));
      loading := false;
    }

    /** A click on the header of `w`. */
    method Toggle(w: Workout)
      modifies this
      ensures expanded == Toggled(old(expanded), w.id)
      ensures workouts == old(workouts) && loading == old(loading) && error == old(error)
    {
      expanded := Toggled(expanded, w.id);
    }
  }

  /** The exercise a card shows; `image` and `videoUrl` are empty when missing. */
  datatype CardExercise = CardExercise(name: string, image: string, videoUrl: string)

  /** What the media area of a card holds. */
  datatype Media =
    | Cover(src: Option<string>, playButton: bool)   // the stored image, with a play button when there is a video
    | Player(src: Option<string>)                    // the YouTube player
    | NoVideo                                        // "Sin video disponible"

  function ImageOf(ex: Option<CardExercise>): string {
    if ex.Some? then ex.value.image else []
  }

  function VideoOf(ex: Option<CardExercise>): string {
    if ex.Some? then ex.value.videoUrl else []
  }

  /** The media area for `showVideo`, with `apiUrl` the image server's base. */
  function MediaOf(apiUrl: string, ex: Option<CardExercise>, showVideo: bool): (m: Media)
    ensures m.Cover? <==> !showVideo && ImageOf(ex) != []
    ensures m.Cover? ==> m.src == ImageUrl(apiUrl, Some(ImageOf(ex))) && m.src.Some?
    ensures m.Cover? ==> m.playButton == (VideoOf(ex) != [])
    ensures m.Player? <==> (showVideo || ImageOf(ex) == []) && VideoOf(ex) != []
    ensures m.Player? ==> m.src == EmbedUrl(Some(VideoOf(ex)))
  {
    if !showVideo && ImageOf(ex) != [] then
      ImageUrlEndsWithPath(apiUrl, ImageOf(ex));
      Cover(ImageUrl(apiUrl, Some(ImageOf(ex))), VideoOf(ex) != [])
    else if VideoOf(ex) != [] then Player(EmbedUrl(Some(VideoOf(ex))))
    else NoVideo
  }

  /** Whether the "Ver Portada" button is on the card. */
  predicate CoverButton(ex: Option<CardExercise>, showVideo: bool) {
    showVideo && ImageOf(ex) != []
  }

  class ExerciseCard {
    const exercise: Option<CardExercise>
    var showVideo: bool

    /** A card starts on its cover when the exercise has an image, and on the video otherwise. */
    constructor (ex: Option<CardExercise>)
      ensures exercise == ex && showVideo == (ImageOf(ex) == [])
    {
      exercise := ex;
      showVideo := ImageOf(ex) == [];
    }

    /** The play button over the cover. */
    method PlayVideo()
      requires !showVideo && ImageOf(exercise) != [] && VideoOf(exercise) != []
      modifies this
      ensures showVideo
    {
      showVideo := true;
    }

    /** The "Ver Portada" button. */
    method ShowCover()
      requires CoverButton(exercise, showVideo)
      modifies this
      ensures !showVideo
    {
      showVideo := false;
    }
  }

  /** A new card shows the cover when there is an image; without one it shows the player, or the "no video" note. */
  lemma InitialMedia(apiUrl: string, ex: Option<CardExercise>)
    ensures ImageOf(ex) != [] ==> MediaOf(apiUrl, ex, ImageOf(ex) == []).Cover?
    ensures ImageOf(ex) == [] && VideoOf(ex) != [] ==> MediaOf(apiUrl, ex, ImageOf(ex) == []) == Player(EmbedUrl(Some(VideoOf(ex))))
    ensures ImageOf(ex) == [] && VideoOf(ex) == [] ==> MediaOf(apiUrl, ex, ImageOf(ex) == []) == NoVideo
    ensures !CoverButton(ex, ImageOf(ex) == [])
  {
  }

  /** The play button leads to the player, and "Ver Portada" back to the cover. */
  lemma SwitchingMedia(apiUrl: string, ex: Option<CardExercise>)
    requires ImageOf(ex) != [] && VideoOf(ex) != []
    ensures MediaOf(apiUrl, ex, true).Player? && CoverButton(ex, true)
    ensures MediaOf(apiUrl, ex, false).Cover? && MediaOf(apiUrl, ex, false).playButton
  {
  }
}
