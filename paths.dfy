/**
 * The POSIX `path.dirname`, `path.basename` and a two-part `path.join` of Node.js, as the
 * workspace and process helpers use them.
 */
module Paths {
  import opened Wrappers

  /**
   * Node's scan for `dirname`: walking down from index `i` to 1, skip the trailing slashes
   * (`matchedSlash`), then the last name; the first slash after that is the end of the directory.
   */
  function DirEnd(p: string, i: int, matchedSlash: bool): (r: Option<nat>)
    requires i < |p|
    ensures r.Some? ==> 1 <= r.value <= i && p[r.value] == '/'
    decreases i
  {
    if i < 1 then None
    else if p[i] == '/' then
      if !matchedSlash then Some(i) else DirEnd(p, i - 1, true)
    else DirEnd(p, i - 1, false)
  }

  /** `path.posix.dirname(p)`. */
  function Dirname(p: string): (r: string)
    ensures |p| == 0 ==> r == "."
    ensures |p| > 0 && DirEnd(p, |p| - 1, true).None? ==> r == (if p[0] == '/' then "/" else ".")
  {
    if |p| == 0 then "."
    else
      match DirEnd(p, |p| - 1, true)
      case None => if p[0] == '/' then "/" else "."
      case Some(end) => if p[0] == '/' && end == 1 then "//" else p[..end]
  }

  /** `path.join(dir, name)` for a non-empty directory and a plain name, without normalisation. */
  function JoinPath(dir: string, name: string): (r: string)
    ensures dir == "" ==> r == name
    ensures dir != "" ==> r == dir + "/" + name
  {
    if dir == "" then name else dir + "/" + name
  }

  /** The last index below `i` holding `c`. */
  function LastIndexBefore(s: string, c: char, i: nat): (r: Option<nat>)
    requires i <= |s|
    ensures r.Some? ==> r.value < i && s[r.value] == c && c !in s[r.value + 1..i]
    ensures r.None? ==> c !in s[..i]
  {
    if i == 0 then None
    else if s[i - 1] == c then Some(i - 1)
    else
      match LastIndexBefore(s, c, i - 1)
      case None => assert s[..i] == s[..i - 1] + [s[i - 1]]; None
      case Some(k) => assert s[k + 1..i] == s[k + 1..i - 1] + [s[i - 1]]; Some(k)
  }

  /** `p` without its trailing slashes. */
  function TrimTrailingSlashes(p: string): (r: string)
    ensures |r| <= |p| && r == p[..|r|]
    ensures |r| > 0 ==> r[|r| - 1] != '/'
    ensures forall i :: |r| <= i < |p| ==> p[i] == '/'
  {
    if |p| > 0 && p[|p| - 1] == '/' then TrimTrailingSlashes(p[..|p| - 1]) else p
  }

  /** `path.posix.basename(p)`: the last name of `p`, ignoring trailing slashes. */
  function Basename(p: string): (r: string)
    ensures '/' !in r
  {
    var q := TrimTrailingSlashes(p);
    match LastIndexBefore(q, '/', |q|)
    case None => q
    case Some(k) => q[k + 1..]
  }

  /** The directory of a name joined onto a directory other than the root is that directory. */
  lemma {:induction false} DirnameOfJoin(dir: string, name: string)
    requires dir != "" && dir != "/"
    requires name != "" && '/' !in name
    ensures Dirname(JoinPath(dir, name)) == dir
  {
    var p := JoinPath(dir, name);
    var slash := |dir|;
    assert p[slash] == '/';
    NameScan(p, slash, |p| - 1);
    assert p[..slash] == dir;
  }

  /** Scanning down through the name (no slash) stops at the slash in front of it. */
  lemma {:induction false} NameScan(p: string, slash: nat, i: nat)
    requires 1 <= slash < i < |p| && p[slash] == '/'
    requires forall j :: slash < j < |p| ==> p[j] != '/'
    ensures DirEnd(p, i, true) == Some(slash)
  {
    NameScanAfter(p, slash, i - 1);
  }

  lemma {:induction false} NameScanAfter(p: string, slash: nat, i: nat)
    requires 1 <= slash <= i < |p| && p[slash] == '/'
    requires forall j :: slash < j < |p| ==> p[j] != '/'
    ensures DirEnd(p, i, false) == Some(slash)
    decreases i
  {
    if i > slash {
      NameScanAfter(p, slash, i - 1);
    }
  }

  /** The base name of a name joined onto a directory is that name. */
  lemma BasenameOfJoin(dir: string, name: string)
    requires name != "" && '/' !in name
    ensures Basename(JoinPath(dir, name)) == name
  {
    var p := JoinPath(dir, name);
    assert p[|p| - 1] == name[|name| - 1];
    assert TrimTrailingSlashes(p) == p;
    if dir != "" {
      assert p[|dir|] == '/';
      assert p[|dir| + 1..|p|] == name;
      var k := LastIndexBefore(p, '/', |p|);
      assert k.Some?;
      assert k.value == |dir|;
    } else {
      assert p == name;
    }
  }
}
