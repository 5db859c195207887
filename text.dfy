/**
 * The JavaScript string operations the application relies on: `trim`, `split(',')`,
 * `toLowerCase`, `toUpperCase`, `includes`, `startsWith` and the `x || default` fallback
 * for a string that may be missing or empty.
 */
module Text {
  import opened Wrappers
  import opened Lists

  /** JavaScript line terminators: LF, CR, LINE SEPARATOR, PARAGRAPH SEPARATOR. */
  predicate IsLineTerminator(c: char) {
    c == '\n' || c == '\r' || c == '\U{2028}' || c == '\U{2029}'
  }

  /** What `String.prototype.trim` removes: white space (Zs, TAB, VT, FF, NBSP, BOM) and line terminators. */
  predicate IsWhite(c: char) {
    IsLineTerminator(c) || c == '\t' || c == '\U{000B}' || c == '\U{000C}' || c == ' '
    || c == '\U{00A0}' || c == '\U{FEFF}' || c == '\U{1680}' || ('\U{2000}' <= c <= '\U{200A}')
    || c == '\U{202F}' || c == '\U{205F}' || c == '\U{3000}'
  }

  /** `s` has no white space at either end. */
  predicate IsTrimmed(s: string) {
    s == [] || (!IsWhite(s[0]) && !IsWhite(s[|s| - 1]))
  }

  function TrimStart(s: string): (r: string)
    ensures |r| <= |s| && r == s[|s| - |r|..]
    ensures r != [] ==> !IsWhite(r[0])
    ensures forall i :: 0 <= i < |s| - |r| ==> IsWhite(s[i])
  {
    if s != [] && IsWhite(s[0]) then TrimStart(s[1..]) else s
  }

  function TrimEnd(s: string): (r: string)
    ensures |r| <= |s| && r == s[..|r|]
    ensures r != [] ==> !IsWhite(r[|r| - 1])
    ensures forall i :: |r| <= i < |s| ==> IsWhite(s[i])
  {
    if s != [] && IsWhite(s[|s| - 1]) then TrimEnd(s[..|s| - 1]) else s
  }

  /** `s.trim()`: the longest infix of `s` that neither starts nor ends with white space. */
  function Trim(s: string): (r: string)
    ensures |r| <= |s|
    ensures IsTrimmed(r)
    ensures forall c :: c in r ==> c in s
    ensures exists i, j :: TrimsTo(s, i, j) && r == s[i..j]
  {
    TrimIsInfix(s);
    TrimEnd(TrimStart(s))
  }

  /** Trimming both ends cuts white space only, leaving an infix of the input. */
  lemma TrimIsInfix(s: string)
    ensures forall c :: c in TrimEnd(TrimStart(s)) ==> c in s
    ensures TrimsTo(s, |s| - |TrimStart(s)|, |s| - |TrimStart(s)| + |TrimEnd(TrimStart(s))|)
    ensures TrimEnd(TrimStart(s)) == s[|s| - |TrimStart(s)|..|s| - |TrimStart(s)| + |TrimEnd(TrimStart(s))|]
  {
    var t := TrimStart(s);
    var r := TrimEnd(t);
    var i := |s| - |t|;
    var j := i + |r|;
    assert t == s[i..];
    forall k | j <= k < |s| ensures IsWhite(s[k]) {
      assert s[k] == t[k - i];
    }
  }

  /** `s[i..j]` is `s` with only white space cut from its two ends. */
  predicate TrimsTo(s: string, i: int, j: int) {
    0 <= i <= j <= |s|
    && (forall k :: 0 <= k < i ==> IsWhite(s[k]))
    && (forall k :: j <= k < |s| ==> IsWhite(s[k]))
  }

  /** `!s.trim()`: the string is empty once trimmed. */
  predicate IsBlank(s: string) {
    Trim(s) == []
  }

  /** A string is blank exactly when every one of its characters is white space. */
  lemma BlankIffAllWhite(s: string)
    ensures IsBlank(s) <==> forall i :: 0 <= i < |s| ==> IsWhite(s[i])
  {
    var t := TrimStart(s);
    if forall i :: 0 <= i < |s| ==> IsWhite(s[i]) {
      assert t == [];
    }
    if IsBlank(s) {
      assert t == [];
    }
  }

  /** Trimming leaves a string without surrounding white space unchanged. */
  lemma TrimOfTrimmed(s: string)
    requires IsTrimmed(s)
    ensures Trim(s) == s
  {
    assert TrimStart(s) == s;
    assert TrimEnd(s) == s;
  }

  /** `trim` is idempotent. */
  lemma TrimIdempotent(s: string)
    ensures Trim(Trim(s)) == Trim(s)
  {
    TrimOfTrimmed(Trim(s));
  }

  function LowerChar(c: char): char {
    if 'A' <= c <= 'Z' then (c as int + 32) as char else c
  }

  function UpperChar(c: char): char {
    if 'a' <= c <= 'z' then (c as int - 32) as char else c
  }

  /** `s.toLowerCase()` on the ASCII letters. */
  function Lower(s: string): (r: string)
    ensures |r| == |s|
    ensures forall i :: 0 <= i < |s| ==> r[i] == LowerChar(s[i])
  {
    seq(|s|, i requires 0 <= i < |s| => LowerChar(s[i]))
  }

  /** `s.toUpperCase()` on the ASCII letters. */
  function Upper(s: string): (r: string)
    ensures |r| == |s|
    ensures forall i :: 0 <= i < |s| ==> r[i] == UpperChar(s[i])
  {
    seq(|s|, i requires 0 <= i < |s| => UpperChar(s[i]))
  }

  /** The result of `Upper` has no lower-case ASCII letter. */
  lemma UpperHasNoLowerCase(s: string)
    ensures forall i :: 0 <= i < |s| ==> !('a' <= Upper(s)[i] <= 'z')
  {
  }

  /** `s.startsWith(p)`. */
  predicate StartsWith(s: string, p: string) {
    |p| <= |s| && s[..|p|] == p
  }

  /** `s.endsWith(p)`. */
  predicate EndsWith(s: string, p: string) {
    |p| <= |s| && s[|s| - |p|..] == p
  }

  /** `n` occurs in `h` starting at position `i`. */
  predicate OccursAt(h: string, n: string, i: int) {
    0 <= i <= |h| - |n| && h[i..i + |n|] == n
  }

  /** `h.includes(n)`: `n` occurs in `h` at some position. */
  predicate Contains(h: string, n: string) {
    exists i | 0 <= i <= |h| - |n| :: OccursAt(h, n, i)
  }

  /** Every string includes the empty string. */
  lemma ContainsEmpty(h: string)
    ensures Contains(h, [])
  {
    assert OccursAt(h, [], 0);
  }

  /** Every string includes itself. */
  lemma ContainsSelf(h: string)
    ensures Contains(h, h)
  {
    assert OccursAt(h, h, 0);
  }

  /** JavaScript's `x || d` for a string that may be missing: `d` when `x` is missing or empty. */
  function Or(x: Option<string>, d: string): string {
    if x.Some? && x.value != [] then x.value else d
  }

  /** `xs.join(sep)`. */
  function JoinWith(xs: seq<string>, sep: char): string {
    if xs == [] then []
    else if |xs| == 1 then xs[0]
    else xs[0] + [sep] + JoinWith(xs[1..], sep)
  }

  /** `s.split(sep)` for a one-character separator: the pieces between separators, at least one. */
  function SplitOn(s: string, sep: char): (r: seq<string>)
    ensures |r| >= 1
    ensures forall k :: 0 <= k < |r| ==> sep !in r[k]
    ensures JoinWith(r, sep) == s
  {
    if s == [] then [[]]
    else
      var rest := SplitOn(s[1..], sep);
      if s[0] == sep then
        assert JoinWith([[]] + rest, sep) == [sep] + JoinWith(rest, sep);
        [[]] + rest
      else
        var r := [[s[0]] + rest[0]] + rest[1..];
        assert |rest| > 1 ==> rest == [rest[0]] + rest[1..];
        assert |rest| > 1 ==> JoinWith(rest, sep) == rest[0] + [sep] + JoinWith(rest[1..], sep);
        assert s == [s[0]] + s[1..];
        r
  }

  /** Splitting a string free of the separator gives that string alone. */
  lemma {:induction false} SplitWithoutSep(a: string, sep: char)
    requires sep !in a
    ensures SplitOn(a, sep) == [a]
  {
    if a != [] {
      SplitWithoutSep(a[1..], sep);
      assert [a[0]] + a[1..] == a;
    }
  }

  /** Splitting `a + sep + t`, where `a` holds no separator, gives `a` followed by the pieces of `t`. */
  lemma {:induction false} SplitAfterPiece(a: string, t: string, sep: char)
    requires sep !in a
    ensures SplitOn(a + [sep] + t, sep) == [a] + SplitOn(t, sep)
  {
    var s := a + [sep] + t;
    if a == [] {
      assert s[0] == sep && s[1..] == t;
    } else {
      SplitAfterPiece(a[1..], t, sep);
      assert s[0] == a[0] && s[1..] == a[1..] + [sep] + t;
      assert [a[0]] + a[1..] == a;
    }
  }

  /** `split` undoes `join` when no piece contains the separator. */
  lemma {:induction false} SplitJoin(xs: seq<string>, sep: char)
    requires |xs| >= 1
    requires forall k :: 0 <= k < |xs| ==> sep !in xs[k]
    ensures SplitOn(JoinWith(xs, sep), sep) == xs
  {
    if |xs| == 1 {
      SplitWithoutSep(xs[0], sep);
    } else {
      SplitJoin(xs[1..], sep);
      SplitAfterPiece(xs[0], JoinWith(xs[1..], sep), sep);
      assert [xs[0]] + xs[1..] == xs;
    }
  }

  /** `xs.map(s => s.trim())`. */
  function TrimAll(xs: seq<string>): (r: seq<string>)
    ensures |r| == |xs|
    ensures forall k :: 0 <= k < |xs| ==> r[k] == Trim(xs[k])
  {
    if xs == [] then [] else [Trim(xs[0])] + TrimAll(xs[1..])
  }

  /**
   * `s.split(sep).map(x => x.trim()).filter(Boolean)`: the comma-separated list reading of a text
   * field, as used for exercise tags and client limitations.
   */
  function SplitList(s: string, sep: char): seq<string> {
    Filter(TrimAll(SplitOn(s, sep)), (x: string) => x != [])
  }

  /** Every item of a split list is non-empty, has no separator and no surrounding white space. */
  lemma SplitListItems(s: string, sep: char)
    ensures forall k :: 0 <= k < |SplitList(s, sep)| ==>
      var x := SplitList(s, sep)[k]; x != [] && sep !in x && IsTrimmed(x)
  {
    var pieces := TrimAll(SplitOn(s, sep));
    var nonEmpty := (x: string) => x != [];
    forall k | 0 <= k < |SplitList(s, sep)|
      ensures var x := SplitList(s, sep)[k]; x != [] && sep !in x && IsTrimmed(x)
    {
      var x := SplitList(s, sep)[k];
      FilterMembership(pieces, nonEmpty, x);
      var j :| 0 <= j < |pieces| && pieces[j] == x;
      assert x == Trim(SplitOn(s, sep)[j]);
    }
  }

  /** The split list keeps the trimmed pieces in the order they were typed. */
  lemma SplitListInOrder(s: string, sep: char)
    ensures IsSubseq(SplitList(s, sep), TrimAll(SplitOn(s, sep)))
  {
    FilterIsSubseq(TrimAll(SplitOn(s, sep)), (x: string) => x != []);
  }

  /** Writing clean items joined by the separator and reading them back gives the same items. */
  lemma SplitListOfJoin(xs: seq<string>, sep: char)
    requires forall k :: 0 <= k < |xs| ==> xs[k] != [] && sep !in xs[k] && IsTrimmed(xs[k])
    ensures SplitList(JoinWith(xs, sep), sep) == xs
  {
    var nonEmpty := (x: string) => x != [];
    if xs == [] {
      assert SplitOn([], sep) == [[]];
      assert TrimAll([[]]) == [Trim([])];
    } else {
      SplitJoin(xs, sep);
      forall k | 0 <= k < |xs| ensures Trim(xs[k]) == xs[k] {
        TrimOfTrimmed(xs[k]);
      }
      assert TrimAll(xs) == xs;
      FilterKeepsAll(xs, nonEmpty);
    }
  }

  /** Reading back a split list written with the separator gives the same list. */
  lemma SplitListIdempotent(s: string, sep: char)
    ensures SplitList(JoinWith(SplitList(s, sep), sep), sep) == SplitList(s, sep)
  {
    SplitListItems(s, sep);
    SplitListOfJoin(SplitList(s, sep), sep);
  }
}
