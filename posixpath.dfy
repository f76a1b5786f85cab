/** Python 2's `posixpath.join` and `posixpath.dirname`, on path strings. */
module PosixPath {

  predicate NoSlash(s: string) {
    forall i :: 0 <= i < |s| ==> s[i] != '/'
  }

  predicate AllSlash(s: string) {
    forall i :: 0 <= i < |s| ==> s[i] == '/'
  }

  predicate EndsWithSlash(s: string) {
    s != [] && s[|s| - 1] == '/'
  }

  /**
   * `os.path.join(a, b)`: an absolute `b` replaces `a`; otherwise `b` is
   * appended, with a '/' between unless `a` is empty or already ends with one.
   */
  function Join(a: string, b: string): string
  {
    if b != [] && b[0] == '/' then b
    else if a == [] || EndsWithSlash(a) then a + b
    else a + "/" + b
  }

  /** `os.path.join(a, *parts)`: joining the parts one after another, left to right. */
  function JoinAll(a: string, parts: seq<string>): string
    decreases |parts|
  {
    if parts == [] then a else JoinAll(Join(a, parts[0]), parts[1..])
  }

  /** `JoinAll` over four parts is four nested `Join`s. */
  lemma JoinAllFour(a: string, p0: string, p1: string, p2: string, p3: string)
    ensures JoinAll(a, [p0, p1, p2, p3]) == Join(Join(Join(Join(a, p0), p1), p2), p3)
  {
    var s1, s2, s3 := Join(a, p0), Join(Join(a, p0), p1), Join(Join(Join(a, p0), p1), p2);
    assert [p0, p1, p2, p3][1..] == [p1, p2, p3];
    assert [p1, p2, p3][1..] == [p2, p3];
    assert [p2, p3][1..] == [p3];
    assert JoinAll(s3, [p3]) == JoinAll(Join(s3, p3), []);
    assert JoinAll(s2, [p2, p3]) == JoinAll(s3, [p3]);
    assert JoinAll(s1, [p1, p2, p3]) == JoinAll(s2, [p2, p3]);
  }

  /** Joining a relative part onto a directory that does not end in '/' inserts one '/'. */
  lemma JoinRelative(a: string, b: string)
    requires a != [] && !EndsWithSlash(a) && (b == [] || b[0] != '/')
    ensures Join(a, b) == a + "/" + b
  {
  }

  /** Whether a path ends in '/' is decided by its last, non-empty part. */
  lemma EndsWithSlashAppend(a: string, b: string)
    requires b != []
    ensures EndsWithSlash(a + b) == EndsWithSlash(b)
  {
    assert (a + b)[|a + b| - 1] == b[|b| - 1];
  }

  /** The position just after the last '/' of `s`, or 0 when there is none. */
  function AfterLastSlash(s: string): (i: nat)
    ensures i <= |s|
    ensures i > 0 ==> s[i - 1] == '/'
    ensures NoSlash(s[i..])
  {
    if s == [] then 0
    else if s[|s| - 1] == '/' then |s|
    else AfterLastSlash(s[..|s| - 1])
  }

  /** `head.rstrip('/')`. */
  function RStripSlash(s: string): (r: string)
    ensures |r| <= |s| && r == s[..|r|] && AllSlash(s[|r|..])
    ensures r == [] || r[|r| - 1] != '/'
  {
    if EndsWithSlash(s) then RStripSlash(s[..|s| - 1]) else s
  }

  /**
   * `os.path.dirname(p)`: everything up to the last '/', with the trailing
   * slashes removed unless the head consists of slashes only.
   */
  function DirName(p: string): string
  {
    var head := p[..AfterLastSlash(p)];
    if head != [] && !AllSlash(head) then RStripSlash(head) else head
  }

  /** The directory of a path is no longer than the path. */
  lemma DirNameShorter(p: string)
    ensures |DirName(p)| <= |p|
  {
  }

  /** The directory of a relative name joined under a directory is that directory. */
  lemma DirNameOfJoin(dir: string, name: string)
    requires dir != [] && !EndsWithSlash(dir)
    requires name != [] && NoSlash(name)
    ensures Join(dir, name) == dir + "/" + name
    ensures DirName(Join(dir, name)) == dir
  {
    var p := dir + "/" + name;
    assert p[..|dir| + 1][..|dir|] == dir;
    LastSlashAt(p, |dir|);
    var head := p[..|dir| + 1];
    assert head[|dir| - 1] != '/';
    RStripOneSlash(head);
  }

  lemma LastSlashAt(p: string, k: nat)
    requires k < |p| && p[k] == '/' && NoSlash(p[k + 1..])
    ensures AfterLastSlash(p) == k + 1
    decreases |p|
  {
    if |p| > k + 1 {
      assert p[|p| - 1] == p[k + 1..][|p| - k - 2];
      var q := p[..|p| - 1];
      assert q[k + 1..] == p[k + 1..][..|p| - k - 2];
      LastSlashAt(q, k);
    }
  }

  lemma RStripOneSlash(head: string)
    requires |head| >= 2 && head[|head| - 1] == '/' && head[|head| - 2] != '/'
    ensures RStripSlash(head) == head[..|head| - 1]
    ensures !AllSlash(head)
  {
    assert head[..|head| - 1][|head| - 2] == head[|head| - 2];
  }
}
