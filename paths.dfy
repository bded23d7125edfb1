/**
 * The two `os.path` functions the pipeline uses, for POSIX paths:
 * `basename` (the text after the last '/') and `join` of two components.
 */
module Paths {

  /** `os.path.basename(p)`: everything after the last '/', or all of `p` when it has none. */
  function Basename(p: string): (b: string)
    ensures '/' !in b
    ensures |b| <= |p| && b == p[|p| - |b|..]
    ensures |b| < |p| ==> p[|p| - |b| - 1] == '/'
  {
    if p == [] || p[|p| - 1] == '/' then []
    else Basename(p[..|p| - 1]) + [p[|p| - 1]]
  }

  /**
   * `os.path.join(a, b)`: an absolute `b` replaces `a`; otherwise `b` is
   * appended to `a`, with a '/' between them unless `a` is empty or already
   * ends in one.
   */
  function Join(a: string, b: string): (p: string)
  {
    if |b| > 0 && b[0] == '/' then b
    else if a == [] || a[|a| - 1] == '/' then a + b
    else a + "/" + b
  }

  /** The joined path always ends with `b`, and starts with `a` unless `b` is absolute. */
  lemma JoinParts(a: string, b: string)
    ensures |b| <= |Join(a, b)| && Join(a, b)[|Join(a, b)| - |b|..] == b
    ensures (b == [] || b[0] != '/') ==> |a| <= |Join(a, b)| && Join(a, b)[..|a|] == a
  {
  }

  /** A relative name joined onto a non-empty directory without a trailing '/' gets exactly one separator. */
  lemma JoinRelative(a: string, b: string)
    requires a != [] && a[|a| - 1] != '/'
    requires b == [] || b[0] != '/'
    ensures Join(a, b) == a + "/" + b
  {
  }

  /** Basename undoes Join for a plain file name: the joined path names that file. */
  lemma {:induction false} BasenameOfJoin(a: string, b: string)
    requires b != [] && '/' !in b
    ensures Basename(Join(a, b)) == b
  {
    var p := Join(a, b);
    assert p[|p| - |b|..] == b;
    assert |p| > |b| ==> p[|p| - |b| - 1] == '/';
    BasenameOfSuffix(p, b);
  }

  /** A '/'-free tail that follows a '/' (or is the whole path) is the basename. */
  lemma {:induction false} BasenameOfSuffix(p: string, b: string)
    requires '/' !in b && |b| <= |p| && p[|p| - |b|..] == b
    requires |b| < |p| ==> p[|p| - |b| - 1] == '/'
    ensures Basename(p) == b
    decreases |b|
  {
    if b != [] {
      var p' := p[..|p| - 1];
      assert p[|p| - 1] == b[|b| - 1];
      assert p'[|p'| - (|b| - 1)..] == b[..|b| - 1];
      BasenameOfSuffix(p', b[..|b| - 1]);
      assert b == b[..|b| - 1] + [p[|p| - 1]];
    }
  }
}
