/** `getImageUrl` (src/utils/imageUtils.js): the address of a stored image. */
module ImageUtils {
  import opened Wrappers
  import opened Text

  /** Whether `path` is already an absolute web address. */
  predicate IsAbsolute(path: string) {
    StartsWith(path, "http://") || StartsWith(path, "https://")
  }

  /**
   * `getImageUrl(path)` with `API_URL` as `apiUrl`: nothing for a missing or empty path, an absolute
   * address unchanged, any other path appended to the API base after one '/'.
   */
  function ImageUrl(apiUrl: string, path: Option<string>): (r: Option<string>)
    ensures path.None? || path.value == [] ==> r.None?
    ensures path.Some? && path.value != [] && IsAbsolute(path.value) ==> r == path
    ensures path.Some? && path.value != [] && !IsAbsolute(path.value) ==>
      r.Some? && |r.value| == |apiUrl| + 1 + |path.value|
      && r.value[..|apiUrl|] == apiUrl && r.value[|apiUrl|] == '/'
  {
    if path.None? || path.value == [] then None
    else if IsAbsolute(path.value) then path
    else Some(apiUrl + "/" + path.value)
  }

  /** Every non-empty path gives an address, and the address ends with the path. */
  lemma ImageUrlEndsWithPath(apiUrl: string, path: string)
    requires path != []
    ensures ImageUrl(apiUrl, Some(path)).Some?
    ensures EndsWith(ImageUrl(apiUrl, Some(path)).value, path)
  {
    if !IsAbsolute(path) {
      var r := apiUrl + "/" + path;
      assert r[|r| - |path|..] == path;
    }
  }

  /** There is no slash normalisation: a path that starts with '/' yields "//" after the base. */
  lemma ImageUrlKeepsLeadingSlash(apiUrl: string, rest: string)
    ensures ImageUrl(apiUrl, Some("/" + rest)) == Some(apiUrl + "//" + rest)
  {
    var path := "/" + rest;
    assert !StartsWith(path, "http://") by { assert path[0] == '/'; }
    assert !StartsWith(path, "https://") by { assert path[0] == '/'; }
    assert apiUrl + "/" + path == apiUrl + "//" + rest;
  }

  /** Applying the function to its own result changes nothing once the base is absolute. */
  lemma ImageUrlIdempotent(apiUrl: string, path: string)
    requires path != []
    requires IsAbsolute(apiUrl)
    ensures ImageUrl(apiUrl, ImageUrl(apiUrl, Some(path))) == ImageUrl(apiUrl, Some(path))
  {
    if !IsAbsolute(path) {
      var r := apiUrl + "/" + path;
      assert r[..|apiUrl|] == apiUrl;
      if StartsWith(apiUrl, "http://") {
        assert r[..7] == apiUrl[..7];
      } else {
        assert r[..8] == apiUrl[..8];
      }
    }
  }
}
