/** Slash-separated path handling in the manner of Go's `path/filepath` on Unix.
    `filepath.Clean` normalisation (collapsing `..`, `.` and repeated separators) is not modelled:
    Join only avoids doubling a separator the directory already ends with. */
module Paths {

  const Separator: char := '/'

  /** The trailing run of separators removed. */
  function StripTrailingSeparators(s: string): (r: string)
    ensures |r| <= |s| && r == s[..|r|]
    ensures r == [] || r[|r| - 1] != Separator
    ensures forall k | |r| <= k < |s| :: s[k] == Separator
  {
    if s != [] && s[|s| - 1] == Separator then StripTrailingSeparators(s[..|s| - 1]) else s
  }

  /** Everything after the last separator. */
  function LastSegment(s: string): (r: string)
    ensures |r| <= |s| && r == s[|s| - |r|..]
    ensures Separator !in r
    ensures |r| == |s| || s[|s| - |r| - 1] == Separator
  {
    if s == [] || s[|s| - 1] == Separator then []
    else
      var r := LastSegment(s[..|s| - 1]);
      assert s[|s| - 1 - |r|..] == s[..|s| - 1][|s| - 1 - |r|..] + [s[|s| - 1]];
      r + [s[|s| - 1]]
  }

  /** `filepath.Base`: the last element of the path, "." for the empty path, and the separator
      itself for a path made only of separators. The result is never empty and is either the
      root or free of separators. */
  function Base(path: string): (r: string)
    ensures r != []
    ensures r == [Separator] || Separator !in r
    ensures path == [] ==> r == "."
    ensures path != [] && (forall k | 0 <= k < |path| :: path[k] == Separator) ==> r == [Separator]
    ensures (exists k | 0 <= k < |path| :: path[k] != Separator) ==>
      r == LastSegment(StripTrailingSeparators(path))
  {
    if path == [] then "."
    else
      var stripped := StripTrailingSeparators(path);
      if stripped == [] then [Separator] else LastSegment(stripped)
  }

  /** `filepath.Join` of two elements, with empty elements ignored and Clean left out. */
  function Join(dir: string, name: string): string {
    if dir == [] then name
    else if name == [] then dir
    else if dir[|dir| - 1] == Separator then dir + name
    else dir + [Separator] + name
  }

  /** The last segment of `prefix + name` is `name` when `name` holds no separator and
      `prefix` is empty or ends with one. */
  lemma {:induction false} LastSegmentOfSuffix(prefix: string, name: string)
    requires Separator !in name
    requires prefix == [] || prefix[|prefix| - 1] == Separator
    ensures LastSegment(prefix + name) == name
  {
    var p := prefix + name;
    if name != [] {
      var init := name[..|name| - 1];
      var last := name[|name| - 1];
      assert last in name;
      assert p[..|p| - 1] == prefix + init && p[|p| - 1] == last;
      LastSegmentOfSuffix(prefix, init);
      LastSegmentStep(p);
      assert init + [last] == name;
    } else {
      assert p == prefix;
    }
  }

  /** A path that does not end with a separator keeps its last character in its last segment. */
  lemma LastSegmentStep(s: string)
    requires s != [] && s[|s| - 1] != Separator
    ensures LastSegment(s) == LastSegment(s[..|s| - 1]) + [s[|s| - 1]]
  {
  }

  /** Joining a separator-free, non-empty name onto any directory yields a path whose base
      is that name. */
  lemma BaseOfJoin(dir: string, name: string)
    requires name != [] && Separator !in name
    ensures Base(Join(dir, name)) == name
  {
    var p := Join(dir, name);
    assert p[|p| - 1] == name[|name| - 1];
    assert StripTrailingSeparators(p) == p;
    if dir == [] {
      LastSegmentOfSuffix([], name);
      assert [] + name == name;
    } else if dir[|dir| - 1] == Separator {
      LastSegmentOfSuffix(dir, name);
    } else {
      LastSegmentOfSuffix(dir + [Separator], name);
    }
  }

  /** Joining keeps the directory as a prefix of the result. */
  lemma JoinExtendsDir(dir: string, name: string)
    ensures dir <= Join(dir, name)
  {
  }
}
