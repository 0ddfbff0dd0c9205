/** POSIX-style path joining and the last path segment, as the logger, the file-system manager
    and the screenshot handler use them. Normalisation of `.`/`..` segments and repeated
    separators inside a part is not modelled. */
module Paths {
  import opened Text

  /** `/` or `\`, the separators the screenshot handler splits on. */
  predicate IsSeparator(c: char) { c == '/' || c == '\\' }

  predicate HasSeparator(s: string)
  {
    exists i :: 0 <= i < |s| && IsSeparator(s[i])
  }

  /** `path.join(dir, name)`: one '/' between the parts; an empty directory adds nothing. */
  function Join(dir: string, name: string): (p: string)
    ensures EndsWith(p, name)
  {
    if dir == "" then name
    else if EndsWith(dir, "/") then dir + name
    else dir + "/" + name
  }

  /** The part after the last separator (all of `p` when it has none). */
  function LastSegment(p: string): (seg: string)
    ensures !HasSeparator(seg)
    ensures |seg| <= |p| && seg == p[|p| - |seg|..]
  {
    if |p| == 0 || IsSeparator(p[|p| - 1]) then ""
    else
      var front := LastSegment(p[..|p| - 1]);
      assert p[..|p| - 1][|p| - 1 - |front|..] == p[|p| - 1 - |front|..|p| - 1];
      front + [p[|p| - 1]]
  }

  lemma {:induction false} LastSegmentOfSuffix(a: string, name: string)
    requires |a| > 0 && IsSeparator(a[|a| - 1]) && !HasSeparator(name)
    ensures LastSegment(a + name) == name
    decreases |name|
  {
    var p := a + name;
    if |name| == 0 {
      assert p == a;
    } else {
      var front := name[..|name| - 1];
      assert p[..|p| - 1] == a + front;
      assert p[|p| - 1] == name[|name| - 1];
      assert !IsSeparator(name[|name| - 1]);
      assert !HasSeparator(front) by {
        forall i | 0 <= i < |front|
          ensures !IsSeparator(front[i])
        {
          assert front[i] == name[i];
        }
      }
      LastSegmentOfSuffix(a, front);
      assert front + [name[|name| - 1]] == name;
    }
  }

  /** Joining a name onto a non-empty directory puts the name last: the last segment of the
      joined path is the name. */
  lemma LastSegmentOfJoin(dir: string, name: string)
    requires dir != "" && !HasSeparator(name)
    ensures LastSegment(Join(dir, name)) == name
  {
    if EndsWith(dir, "/") {
      assert dir[|dir| - 1] == dir[|dir| - 1..][0];
      LastSegmentOfSuffix(dir, name);
    } else {
      assert dir + "/" + name == (dir + "/") + name;
      LastSegmentOfSuffix(dir + "/", name);
    }
  }

  /** A joined path begins with its directory. */
  lemma JoinStartsWith(dir: string, name: string)
    ensures StartsWith(Join(dir, name), dir)
  {
    if dir != "" {
      if EndsWith(dir, "/") {
        assert (dir + name)[..|dir|] == dir;
      } else {
        assert (dir + "/" + name)[..|dir|] == dir;
      }
    }
  }
}
