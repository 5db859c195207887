/**
 * The YouTube link reader shared by the client plan page (both copies of `getEmbedUrl` in
 * src/pages/client/MiPlan.jsx) and the exercise library thumbnails (src/pages/admin/Ejercicios.jsx).
 *
 * The source runs the regular expression
 *   ^.*(youtu.be\/|v\/|u\/\w\/|embed\/|watch\?v=|&v=)([^#&?]*).*
 * and keeps group 2 when it is 11 characters long. Here the expression is a hand-written parser:
 * the greedy `^.*` makes the marker that starts LAST win (no two alternatives start with the same
 * character, so at most one matches at a position), `.` matches anything but a line terminator
 * (also the unescaped dot inside `youtu.be`), and the id is the longest run after the marker
 * that holds no '#', '&' or '?'.
 */
module YouTube {
  import opened Wrappers
  import opened Text

  /** `\w` without the `u` flag: ASCII letters, digits and '_'. */
  predicate IsWordChar(c: char) {
    ('a' <= c <= 'z') || ('A' <= c <= 'Z') || ('0' <= c <= '9') || c == '_'
  }

  /** The literal `lit` occurs in `s` at position `p`. */
  predicate LiteralAt(s: string, p: nat, lit: string) {
    p + |lit| <= |s| && s[p..p + |lit|] == lit
  }

  /** The length of the marker alternative that matches at `p`, tried in the expression's order. */
  function MarkerAt(s: string, p: nat): (m: Option<nat>)
    ensures m.Some? ==> p + m.value <= |s|
  {
    if LiteralAt(s, p, "youtu") && p + 9 <= |s| && !IsLineTerminator(s[p + 5]) && LiteralAt(s, p + 6, "be/") then Some(9)
    else if LiteralAt(s, p, "v/") then Some(2)
    else if LiteralAt(s, p, "u/") && p + 4 <= |s| && IsWordChar(s[p + 2]) && s[p + 3] == '/' then Some(4)
    else if LiteralAt(s, p, "embed/") then Some(6)
    else if LiteralAt(s, p, "watch?v=") then Some(8)
    else if LiteralAt(s, p, "&v=") then Some(3)
    else None
  }

  /** The expression matches with `^.*` consuming exactly `s[..p]`. */
  predicate IsMatchStart(s: string, p: int) {
    0 <= p <= |s|
    && (forall i :: 0 <= i < p ==> !IsLineTerminator(s[i]))
    && MarkerAt(s, p).Some?
  }

  /** The start the greedy `^.*` settles on: a match start with none after it. */
  predicate IsChosenStart(s: string, p: int) {
    IsMatchStart(s, p) && forall q :: p < q <= |s| ==> !IsMatchStart(s, q)
  }

  /** The first line terminator at or after `i`, or `|s|`. */
  function LineEnd(s: string, i: nat): (e: nat)
    requires i <= |s|
    ensures i <= e <= |s|
    ensures forall k :: i <= k < e ==> !IsLineTerminator(s[k])
    ensures e < |s| ==> IsLineTerminator(s[e])
    decreases |s| - i
  {
    if i == |s| || IsLineTerminator(s[i]) then i else LineEnd(s, i + 1)
  }

  /** Scanning `p, p - 1, …, 0`: the last position at or before `p` where a marker starts. */
  function LastMarkerFrom(s: string, p: nat): (r: Option<nat>)
    ensures r.Some? ==> r.value <= p && MarkerAt(s, r.value).Some?
    ensures r.Some? ==> forall q :: r.value < q <= p ==> MarkerAt(s, q).None?
    ensures r.None? ==> forall q :: 0 <= q <= p ==> MarkerAt(s, q).None?
    decreases p
  {
    if MarkerAt(s, p).Some? then Some(p)
    else if p == 0 then None
    else LastMarkerFrom(s, p - 1)
  }

  /** Where the expression's group 1 starts, if the expression matches at all. */
  function MatchStart(s: string): (r: Option<nat>)
    ensures r.Some? ==> IsChosenStart(s, r.value)
    ensures r.None? ==> forall q :: !IsMatchStart(s, q)
  {
    var e := LineEnd(s, 0);
    var r := LastMarkerFrom(s, e);
    assert forall q :: e < q <= |s| ==> !IsMatchStart(s, q) by {
      forall q | e < q <= |s| ensures !IsMatchStart(s, q) {
        assert IsLineTerminator(s[e]);
      }
    }
    r
  }

  /** The end of the run of characters other than '#', '&' and '?' that starts at `i`. */
  function IdEnd(s: string, i: nat): (e: nat)
    requires i <= |s|
    ensures i <= e <= |s|
    ensures forall k :: i <= k < e ==> s[k] !in "#&?"
    ensures e < |s| ==> s[e] in "#&?"
    decreases |s| - i
  {
    if i == |s| || s[i] in "#&?" then i else IdEnd(s, i + 1)
  }

  /** Group 2, `([^#&?]*)`, when group 1 ends at `i`. */
  function IdAfter(s: string, i: nat): string
    requires i <= |s|
  {
    s[i..IdEnd(s, i)]
  }

  /** The chosen start is unique. */
  lemma ChosenStartUnique(s: string, p: int, q: int)
    requires IsChosenStart(s, p) && IsChosenStart(s, q)
    ensures p == q
  {
  }

  /** Group 2 of the match, or nothing when the expression does not match. */
  function VideoId(s: string): Option<string> {
    match MatchStart(s)
    case None => None
    case Some(p) => Some(IdAfter(s, p + MarkerAt(s, p).value))
  }

  /** The id read from a link is the run after the marker that starts last; there is none without a marker. */
  lemma VideoIdSpec(s: string)
    ensures VideoId(s).None? <==> forall q :: !IsMatchStart(s, q)
    ensures forall p :: IsChosenStart(s, p) ==> VideoId(s) == Some(IdAfter(s, p + MarkerAt(s, p).value))
  {
    forall p | IsChosenStart(s, p) ensures VideoId(s) == Some(IdAfter(s, p + MarkerAt(s, p).value)) {
      ChosenStartUnique(s, p, MatchStart(s).value);
    }
  }

  /** The id holds no '#', '&' or '?', and it stops only at one of them or at the end of the link. */
  lemma VideoIdIsMaximalRun(s: string, p: int)
    requires IsChosenStart(s, p)
    ensures var i := p + MarkerAt(s, p).value;
      var id := IdAfter(s, i);
      && (forall c :: c in id ==> c !in "#&?")
      && (i + |id| == |s| || s[i + |id|] in "#&?")
  {
    var i := p + MarkerAt(s, p).value;
    var e := IdEnd(s, i);
    forall c | c in IdAfter(s, i) ensures c !in "#&?" {
      var k :| 0 <= k < e - i && s[i..e][k] == c;
      assert s[i + k] == c;
    }
  }

  const EmbedPrefix := "https://www.youtube.com/embed/"

  /** `getEmbedUrl(url)`: the embeddable player address when the link carries an 11-character id. */
  function EmbedUrl(url: Option<string>): (r: Option<string>)
    ensures url.None? || url.value == [] ==> r.None?
    ensures r.Some? ==> |r.value| == |EmbedPrefix| + 11 && r.value[..|EmbedPrefix|] == EmbedPrefix
  {
    if url.None? || url.value == [] then None
    else
      match VideoId(url.value)
      case Some(id) => if |id| == 11 then Some(EmbedPrefix + id) else None
      case None => None
  }

  /**
   * The embed address exists exactly when a marker occurs (before any line break) and the id after
   * the last one has 11 characters; it is then the embed prefix followed by that id.
   */
  lemma EmbedUrlSpec(u: string, p: int)
    requires u != []
    requires IsChosenStart(u, p)
    ensures var id := IdAfter(u, p + MarkerAt(u, p).value);
      EmbedUrl(Some(u)) == if |id| == 11 then Some(EmbedPrefix + id) else None
  {
    VideoIdSpec(u);
  }

  /** With no marker anywhere the link has no embed address. */
  lemma EmbedUrlWithoutMarker(u: string)
    requires forall q :: !IsMatchStart(u, q)
    ensures EmbedUrl(Some(u)) == None
  {
    VideoIdSpec(u);
  }

  /** An embed address always ends in an 11-character id free of '#', '&' and '?'. */
  lemma EmbedUrlShape(url: Option<string>)
    requires EmbedUrl(url).Some?
    ensures var r := EmbedUrl(url).value;
      |r| == |EmbedPrefix| + 11 && r[..|EmbedPrefix|] == EmbedPrefix
      && forall k :: |EmbedPrefix| <= k < |r| ==> r[k] !in "#&?"
  {
    var u := url.value;
    var p := MatchStart(u).value;
    VideoIdIsMaximalRun(u, p);
    var id := VideoId(u).value;
    assert EmbedUrl(url).value == EmbedPrefix + id;
    forall k | |EmbedPrefix| <= k < |EmbedPrefix| + 11 ensures (EmbedPrefix + id)[k] !in "#&?" {
      assert (EmbedPrefix + id)[k] == id[k - |EmbedPrefix|];
      assert id[k - |EmbedPrefix|] in id;
    }
  }
}
