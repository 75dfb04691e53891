/**
 * Path resolver: normalises a stored path, splits it into containing
 * directory and base name, and records whether the filesystem reports it as a
 * directory.
 */
module Paths {
  import opened Wrappers
  import opened Strings

  predicate NoSlash(s: string) {
    forall i :: 0 <= i < |s| ==> s[i] != '/'
  }

  predicate StartsWithSlash(s: string) {
    |s| > 0 && s[0] == '/'
  }

  predicate EndsWithSlash(s: string) {
    |s| > 0 && s[|s| - 1] == '/'
  }

  /** `p` without one leading and one trailing '/'; nothing else changes. */
  function Normalize(p: string): (r: string)
    ensures r == p || "/" + r == p || r + "/" == p || "/" + r + "/" == p
    ensures StartsWithSlash(p) <==> ("/" + r == p || "/" + r + "/" == p)
    ensures p != "/" ==> (EndsWithSlash(p) <==> (r + "/" == p || "/" + r + "/" == p))
  {
    var q := if StartsWithSlash(p) then p[1..] else p;
    assert StartsWithSlash(p) ==> "/" + q == p;
    if EndsWithSlash(q) then
      assert q[..|q| - 1] + "/" == q;
      q[..|q| - 1]
    else q
  }

  /** A path stored without its leading '/' normalises like the one stored with it. */
  lemma LegacyPathNormalizesIdentically(p: string)
    requires !StartsWithSlash(p)
    ensures Normalize("/" + p) == Normalize(p)
  {
    assert ("/" + p)[1..] == p;
  }

  /** A path stored with a trailing '/' normalises like the one stored without it. */
  lemma TrailingSlashNormalizesIdentically(p: string)
    requires !EndsWithSlash(p)
    ensures Normalize(p + "/") == Normalize(p)
  {
    if StartsWithSlash(p) {
      assert (p + "/")[1..] == p[1..] + "/";
      assert (p[1..] + "/")[..|p[1..]|] == p[1..];
    } else {
      assert (p + "/")[..|p|] == p;
    }
  }

  /** Position of the last '/' in `s`, if any. */
  function LastSlash(s: string): (r: Option<nat>)
    ensures r.None? <==> NoSlash(s)
    ensures r.Some? ==> r.value < |s| && s[r.value] == '/' && NoSlash(s[r.value + 1..])
  {
    if |s| == 0 then None
    else if s[|s| - 1] == '/' then Some(|s| - 1)
    else
      var r := LastSlash(s[..|s| - 1]);
      assert r.Some? ==> s[r.value + 1..] == s[..|s| - 1][r.value + 1..] + [s[|s| - 1]];
      assert r.None? ==> s == s[..|s| - 1] + [s[|s| - 1]];
      r
  }

  /** The part of `p` after its last '/', or all of `p` when it holds none. */
  function Basename(p: string): (r: string)
    ensures NoSlash(r)
    ensures IsSuffix(r, p)
    ensures NoSlash(p) ==> r == p
    ensures !NoSlash(p) ==> |r| < |p| && p[|p| - |r| - 1] == '/'
  {
    match LastSlash(p)
    case None => p
    case Some(i) => p[i + 1..]
  }

  /** The part of `p` before its last '/', or "" when it holds none. */
  function Dirname(p: string): (r: string)
    ensures NoSlash(p) ==> r == "" && Basename(p) == p
    ensures !NoSlash(p) ==> r + "/" + Basename(p) == p
  {
    match LastSlash(p)
    case None => ""
    case Some(i) =>
      assert p[..i] + "/" + p[i + 1..] == p;
      p[..i]
  }

  /** The last '/' of a path lies before its last component. */
  lemma {:induction false} LastSlashBeforeName(dir: string, name: string)
    requires NoSlash(name)
    ensures LastSlash(dir + "/" + name) == Some(|dir|)
    decreases |name|
  {
    var p := dir + "/" + name;
    if |name| > 0 {
      var n := |name| - 1;
      assert p[..|p| - 1] == dir + "/" + name[..n];
      assert p[|p| - 1] == name[n];
      LastSlashBeforeName(dir, name[..n]);
    }
  }

  /** A path whose last component is `name` splits into `dir` and `name`. */
  lemma SplitAtLastSlash(dir: string, name: string)
    requires NoSlash(name)
    ensures Dirname(dir + "/" + name) == dir && Basename(dir + "/" + name) == name
  {
    var p := dir + "/" + name;
    LastSlashBeforeName(dir, name);
    assert p[..|dir|] == dir;
    assert p[|dir| + 1..] == name;
  }

  /** Everything the renderer needs to know about one stored path. */
  datatype Descriptor = Descriptor(path: string, name: string, dir: string, isDir: bool)

  /** Describes the stored path `raw`; `isDir` is the filesystem's answer for it. */
  function Resolve(raw: string, isDir: bool): (d: Descriptor)
    ensures StartsWithSlash(d.path) ==> IsPrefix("//", raw)
    ensures NoSlash(d.name) && IsSuffix(d.name, d.path)
    ensures d.path == d.name || d.path == d.dir + "/" + d.name
  {
    var path := Normalize(raw);
    RootedOnlyFromDoubleSlash(raw);
    NameEndsPath(path);
    Descriptor(path, Basename(path), Dirname(path), isDir)
  }

  /** A normalised path keeps a leading '/' only when the stored one began with "//". */
  lemma RootedOnlyFromDoubleSlash(raw: string)
    ensures StartsWithSlash(Normalize(raw)) ==> IsPrefix("//", raw)
  {
    var r := Normalize(raw);
    if StartsWithSlash(r) {
      assert raw[..2] == ("/" + r)[..2];
    }
  }

  /** A path is its last component, or its directory and that component joined by '/'. */
  lemma NameEndsPath(p: string)
    ensures NoSlash(Basename(p)) && IsSuffix(Basename(p), p)
    ensures p == Basename(p) || p == Dirname(p) + "/" + Basename(p)
  {
  }

  /** Gives a legacy path (stored without its leading '/') the '/' it lacks. */
  function WithLeadingSlash(raw: string): (r: string)
    ensures StartsWithSlash(r)
    ensures Normalize(r) == Normalize(raw)
    ensures r == raw || r == "/" + raw
  {
    if StartsWithSlash(raw) then raw
    else
      LegacyPathNormalizesIdentically(raw);
      "/" + raw
  }
}
