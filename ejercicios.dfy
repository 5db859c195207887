/**
 * The coach's exercise library page (src/pages/admin/Ejercicios.jsx): the search and category
 * filter effect, and the YouTube thumbnail of each card.
 */
module Ejercicios {
  import opened Wrappers
  import opened Text
  import opened Lists
  import opened YouTube

  datatype Exercise = Exercise(id: string, name: string, category: string, tags: seq<string>, videoUrl: Option<string>)

  /** The text test: the lower-cased name, or some lower-cased tag, includes the lower-cased term. */
  predicate MatchesText(ex: Exercise, term: string) {
    Contains(Lower(ex.name), Lower(term))
    || exists k | 0 <= k < |ex.tags| :: Contains(Lower(ex.tags[k]), Lower(term))
  }

  /** The value of `filteredExercises` after the effect runs. */
  function Filtered(exercises: seq<Exercise>, term: string, category: string): seq<Exercise> {
    var byText := if term != [] then Filter(exercises, (ex: Exercise) => MatchesText(ex, term)) else exercises;
    if category != "Todos" then Filter(byText, (ex: Exercise) => ex.category == category) else byText
  }

  /** Whether an exercise passes both filters: the conjunction of the text and category tests. */
  predicate Passes(ex: Exercise, term: string, category: string) {
    (term == [] || MatchesText(ex, term)) && (category == "Todos" || ex.category == category)
  }

  /** The effect is one filter by the conjunction of the two tests. */
  lemma FilteredIsOneFilter(exercises: seq<Exercise>, term: string, category: string)
    ensures Filtered(exercises, term, category) == Filter(exercises, (ex: Exercise) => Passes(ex, term, category))
  {
    var textP := (ex: Exercise) => MatchesText(ex, term);
    var catP := (ex: Exercise) => ex.category == category;
    var both := (ex: Exercise) => Passes(ex, term, category);
    if term == [] && category == "Todos" {
      FilterKeepsAll(exercises, both);
    } else if term == [] {
      FilterCongruent(exercises, catP, both);
    } else if category == "Todos" {
      FilterCongruent(exercises, textP, both);
    } else {
      FilterFilter(exercises, textP, catP, both);
    }
  }

  /** The filtered list keeps the library's order and invents nothing. */
  lemma FilteredIsSubseq(exercises: seq<Exercise>, term: string, category: string)
    ensures IsSubseq(Filtered(exercises, term, category), exercises)
  {
    FilteredIsOneFilter(exercises, term, category);
    FilterIsSubseq(exercises, (ex: Exercise) => Passes(ex, term, category));
  }

  /** An exercise is shown exactly when it is in the library and passes the text and category tests. */
  lemma FilteredMembership(exercises: seq<Exercise>, term: string, category: string, ex: Exercise)
    ensures ex in Filtered(exercises, term, category) <==> ex in exercises && Passes(ex, term, category)
  {
    FilteredIsOneFilter(exercises, term, category);
    FilterMembership(exercises, (e: Exercise) => Passes(e, term, category), ex);
  }

  /** The initial state (empty search, category 'Todos') shows the whole library. */
  lemma UnfilteredShowsAll(exercises: seq<Exercise>)
    ensures Filtered(exercises, [], "Todos") == exercises
  {
  }

  const ThumbnailPrefix := "https://img.youtube.com/vi/"
  const ThumbnailSuffix := "/mqdefault.jpg"

  /** `getYoutubeThumbnail(url)`: the still image of the video when the link carries an 11-character id. */
  function Thumbnail(url: Option<string>): (r: Option<string>)
    ensures url.None? || url.value == [] ==> r.None?
    ensures r.Some? ==> |r.value| == |ThumbnailPrefix| + 11 + |ThumbnailSuffix| && r.value[..|ThumbnailPrefix|] == ThumbnailPrefix
  {
    if url.None? || url.value == [] then None
    else
      match VideoId(url.value)
      case Some(id) => if |id| == 11 then Some(ThumbnailPrefix + id + ThumbnailSuffix) else None
      case None => None
  }

  /**
   * The thumbnail and the client page's embed helper accept exactly the same links, and they
   * name the same video.
   */
  lemma ThumbnailAgreesWithEmbed(url: Option<string>)
    ensures Thumbnail(url).Some? <==> EmbedUrl(url).Some?
    ensures EmbedUrl(url).Some? ==>
      Thumbnail(url).value == ThumbnailPrefix + EmbedUrl(url).value[|EmbedPrefix|..] + ThumbnailSuffix
  {
    if EmbedUrl(url).Some? {
      var id := VideoId(url.value).value;
      assert (EmbedPrefix + id)[|EmbedPrefix|..] == id;
    }
  }

  /** With a marker chosen at `p`, the thumbnail is present iff the id after it has 11 characters. */
  lemma ThumbnailSpec(u: string, p: int)
    requires u != []
    requires IsChosenStart(u, p)
    ensures var id := IdAfter(u, p + MarkerAt(u, p).value);
      Thumbnail(Some(u)) == if |id| == 11 then Some(ThumbnailPrefix + id + ThumbnailSuffix) else None
  {
    VideoIdSpec(u);
  }
}
