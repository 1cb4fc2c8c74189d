/**
 * The POSIX path helpers of Node.js that the backup tool uses to place its
 * files: `path.join` of a directory and a plain name, `path.isAbsolute`
 * with the working directory in front, and `path.dirname`.
 * Normalisation of "." and ".." segments is not modelled.
 */
module Paths {
  import opened Text

  /** `path.join(dir, name)` for a name without "." or ".." segments. */
  function JoinPath(dir: string, name: string): string {
    if dir == "" then name
    else if EndsWith(dir, "/") then dir + name
    else dir + "/" + name
  }

  /** `path.isAbsolute(p) ? p : path.join(cwd, p)` */
  function Absolute(cwd: string, p: string): string {
    if StartsWith(p, "/") then p else JoinPath(cwd, p)
  }

  /** Scans `p` from index `i` down to 1 for the slash that ends the
      directory part, skipping trailing slashes first (`matched`). */
  function DirEnd(p: string, i: int, matched: bool): (end: int)
    requires i < |p|
    ensures end == -1 || 1 <= end <= i
    decreases i
  {
    if i < 1 then -1
    else if p[i] == '/' then (if !matched then i else DirEnd(p, i - 1, matched))
    else DirEnd(p, i - 1, false)
  }

  /** `path.dirname(p)` */
  function Dirname(p: string): string {
    if p == "" then "."
    else
      var end := DirEnd(p, |p| - 1, true);
      if end == -1 then (if p[0] == '/' then "/" else ".")
      else if p[0] == '/' && end == 1 then "//"
      else p[..end]
  }

  lemma {:induction false} DirEndInName(d: string, name: string, i: int)
    requires |d| >= 1 && '/' !in name
    requires |d| <= i < |d| + 1 + |name|
    ensures DirEnd(d + "/" + name, i, false) == |d|
    decreases i
  {
    var p := d + "/" + name;
    if i > |d| {
      assert p[i] == name[i - |d| - 1];
      DirEndInName(d, name, i - 1);
    }
  }

  /** The directory of a file joined onto a directory is that directory. */
  lemma DirnameOfJoin(d: string, name: string)
    requires d != "" && d[|d| - 1] != '/'
    requires name != "" && '/' !in name
    ensures Dirname(JoinPath(d, name)) == d
  {
    var p := d + "/" + name;
    assert JoinPath(d, name) == p;
    assert p[|p| - 1] == name[|name| - 1];
    DirEndInName(d, name, |p| - 2);
    assert DirEnd(p, |p| - 1, true) == DirEnd(p, |p| - 2, false);
    assert |d| == 1 ==> d[0] == d[|d| - 1];
    assert p[..|d|] == d;
  }
}
