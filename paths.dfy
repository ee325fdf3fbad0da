/**
 * Slash-separated path strings as the glob scan returns them: the slashes in
 * them, and the directory that immediately contains a file.
 */
module Paths {
  import opened Results

  /** Index of the last '/' in s[..end], or -1 when s[..end] has none. */
  function LastSlashBefore(s: string, end: nat): (k: int)
    requires end <= |s|
    ensures -1 <= k < end
    ensures k >= 0 ==> s[k] == '/'
    ensures forall m :: k < m < end ==> s[m] != '/'
    decreases end
  {
    if end == 0 then -1
    else if s[end - 1] == '/' then end - 1
    else LastSlashBefore(s, end - 1)
  }

  /** Index of the first '/' in s[from..], or |s| when s[from..] has none. */
  function NextSlash(s: string, from: nat): (j: nat)
    requires from <= |s|
    ensures from <= j <= |s|
    ensures j < |s| ==> s[j] == '/'
    ensures forall m :: from <= m < j ==> s[m] != '/'
    decreases |s| - from
  {
    if from == |s| || s[from] == '/' then from else NextSlash(s, from + 1)
  }

  /** s holds at least two slashes. */
  predicate HasTwoSlashes(s: string) {
    exists a, b :: 0 <= a < b < |s| && s[a] == '/' && s[b] == '/'
  }

  /**
   * The segment between the last two slashes of s: the name of the directory
   * that immediately contains the file s names. Absent when s has fewer than
   * two slashes.
   */
  function ParentDir(s: string): (r: Option<string>)
    ensures r.Some? <==> HasTwoSlashes(s)
    ensures r.Some? ==> '/' !in r.value
  {
    var k2 := LastSlashBefore(s, |s|);
    if k2 < 0 then None
    else
      var k1 := LastSlashBefore(s, k2);
      if k1 < 0 then None
      else
        assert forall m :: k1 + 1 <= m < k2 ==> s[m] != '/';
        Some(s[k1 + 1..k2])
  }

  /** The parent directory of every path, in order. */
  function ParentDirs(paths: seq<string>): (dirs: seq<string>)
    requires forall k :: 0 <= k < |paths| ==> HasTwoSlashes(paths[k])
    ensures |dirs| == |paths|
    ensures forall k :: 0 <= k < |paths| ==> ParentDir(paths[k]) == Some(dirs[k])
  {
    seq(|paths|, k requires 0 <= k < |paths| => ParentDir(paths[k]).value)
  }

  /** In `root/dir/file` with slash-free dir and file, the last two slashes are the two shown. */
  lemma {:induction false} LastTwoSlashes(root: string, dir: string, file: string)
    requires '/' !in dir && '/' !in file
    ensures var s := root + "/" + dir + "/" + file;
            LastSlashBefore(s, |s|) == |root| + 1 + |dir| &&
            LastSlashBefore(s, |root| + 1 + |dir|) == |root|
  {
    var s := root + "/" + dir + "/" + file;
    var k1, k2 := |root|, |root| + 1 + |dir|;
    assert s[k1] == '/' && s[k2] == '/';
    assert forall m :: k2 < m < |s| ==> s[m] == file[m - k2 - 1];
    assert forall m :: k1 < m < k2 ==> s[m] == dir[m - k1 - 1];
  }

  /** `dir/file` at the end of s is found by ParentDir, whatever comes before. */
  lemma {:induction false} ParentDirOf(root: string, dir: string, file: string)
    requires '/' !in dir && '/' !in file
    ensures ParentDir(root + "/" + dir + "/" + file) == Some(dir)
  {
    var s := root + "/" + dir + "/" + file;
    LastTwoSlashes(root, dir, file);
    assert s[|root| + 1..|root| + 1 + |dir|] == dir;
  }
}
