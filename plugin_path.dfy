/**
 * The last element of a plugin path, as Go's `filepath.Base` computes it
 * with `/` as the separator: trailing separators are ignored, an empty path
 * gives `.`, and a path of separators only gives `/`.
 */
module PluginPath {

  const Separator := '/'

  /** `p` without its trailing separators. */
  function TrimTrailingSeparators(p: string): (r: string)
    ensures r <= p
    ensures r == [] || r[|r| - 1] != Separator
    ensures forall i :: |r| <= i < |p| ==> p[i] == Separator
  {
    if p == [] || p[|p| - 1] != Separator then p
    else TrimTrailingSeparators(p[..|p| - 1])
  }

  /** What follows the last separator of `p` (all of `p` when it has none). */
  function LastSegment(p: string): (r: string)
    ensures |r| <= |p|
    ensures Separator !in r
    ensures |r| < |p| ==> p[|p| - |r| - 1] == Separator
  {
    if p == [] || p[|p| - 1] == Separator then []
    else LastSegment(p[..|p| - 1]) + [p[|p| - 1]]
  }

  function Base(path: string): (r: string)
    ensures r != []
    ensures r == [Separator] || Separator !in r
    ensures path == [] ==> r == "."
  {
    if path == [] then "."
    else
      var t := TrimTrailingSeparators(path);
      if t == [] then [Separator] else LastSegment(t)
  }

  /** The last segment is a suffix of the path it comes from. */
  lemma {:induction false} LastSegmentSuffix(p: string)
    ensures LastSegment(p) == p[|p| - |LastSegment(p)|..]
  {
    if p != [] && p[|p| - 1] != Separator {
      var q := p[..|p| - 1];
      LastSegmentSuffix(q);
      assert p[|p| - |LastSegment(p)|..] == q[|q| - |LastSegment(q)|..] + [p[|p| - 1]];
    }
  }

  /** Unless the path is empty or all separators, its base name is its tail once trailing separators are dropped. */
  lemma BaseSuffix(path: string)
    requires TrimTrailingSeparators(path) != []
    ensures var t := TrimTrailingSeparators(path); |Base(path)| <= |t| && Base(path) == t[|t| - |Base(path)|..]
    ensures var t := TrimTrailingSeparators(path); |Base(path)| < |t| ==> t[|t| - |Base(path)| - 1] == Separator
  {
    LastSegmentSuffix(TrimTrailingSeparators(path));
  }

  /** A name without separators is its own base name. */
  lemma {:induction false} BaseOfName(name: string)
    requires name != [] && Separator !in name
    ensures Base(name) == name
  {
    LastSegmentOfName(name);
  }

  lemma {:induction false} LastSegmentOfName(name: string)
    requires Separator !in name
    ensures LastSegment(name) == name
  {
    if name != [] {
      var n := |name| - 1;
      assert Separator !in name[..n] by {
        forall i | 0 <= i < n ensures name[..n][i] != Separator {
          assert name[..n][i] == name[i];
        }
      }
      LastSegmentOfName(name[..n]);
    }
  }

  /** The base name of `dir/name` is `name`, whatever the directory. */
  lemma {:induction false} BaseOfJoin(dir: string, name: string)
    requires name != [] && Separator !in name
    ensures Base(dir + [Separator] + name) == name
  {
    var p := dir + [Separator] + name;
    assert TrimTrailingSeparators(p) == p by {
      assert p[|p| - 1] == name[|name| - 1];
    }
    LastSegmentOfJoin(dir, name);
  }

  lemma {:induction false} LastSegmentOfJoin(dir: string, name: string)
    requires Separator !in name
    ensures LastSegment(dir + [Separator] + name) == name
    decreases |name|
  {
    var p := dir + [Separator] + name;
    if name == [] {
    } else {
      var n := |name| - 1;
      assert p[..|p| - 1] == dir + [Separator] + name[..n];
      assert Separator !in name[..n] by {
        forall i | 0 <= i < n ensures name[..n][i] != Separator {
          assert name[..n][i] == name[i];
        }
      }
      LastSegmentOfJoin(dir, name[..n]);
    }
  }

  /** Taking the base name twice is the same as taking it once. */
  lemma BaseIdempotent(path: string)
    ensures Base(Base(path)) == Base(path)
  {
    var b := Base(path);
    if b != [Separator] {
      BaseOfName(b);
    }
  }
}
