/**
 * Folder-name extraction: every template path the scan for `.html` files below `./src/pages`
 * returns is matched against the regular expression
 *
 *     ^.+/([^/]+)/[^/]+.html
 *
 * (the source writes `\.html` inside a JavaScript string literal, so the
 * backslash is lost and the dot matches any character; nothing anchors the
 * end) and the first capture group becomes the page name. A path the
 * expression does not match makes the source throw (it reads `[1]` of null).
 */
module FolderName {
  import opened Results
  import opened Paths

  /** The characters JavaScript's `.` does not match (no `s` flag). */
  predicate IsLineTerminator(c: char) {
    c == '\n' || c == '\r' || c == '\U{2028}' || c == '\U{2029}'
  }

  predicate NoLineTerminator(s: string) {
    forall k :: 0 <= k < |s| ==> !IsLineTerminator(s[k])
  }

  /**
   * `[^/]+.html` matches at j + 1 (the end is not anchored): some d has a
   * non-empty slash-free run s[j+1..d], any non-terminator at d, then "html".
   */
  predicate FileTailAt(s: string, j: nat)
    requires j < |s|
  {
    exists d :: j + 2 <= d <= |s| - 5 && d <= NextSlash(s, j + 1) && DotHtmlAt(s, d)
  }

  /** `.html` at d, where `.` is any character but a line terminator. */
  predicate DotHtmlAt(s: string, d: nat)
    requires d + 5 <= |s|
  {
    !IsLineTerminator(s[d]) && s[d + 1..d + 5] == "html"
  }

  /**
   * The whole expression matches with `.+` consuming exactly s[..k]: that run
   * is non-empty and free of line terminators, s[k] is the first '/', the
   * capture `[^/]+` runs to the next '/', and the file tail follows it.
   */
  predicate MatchesAt(s: string, k: nat): (b: bool)
    ensures b ==> k < |s| && HasTwoSlashes(s) && NextSlash(s, k + 1) < |s|
    ensures b ==> k + 1 < NextSlash(s, k + 1) && '/' !in s[k + 1..NextSlash(s, k + 1)]
  {
    1 <= k < |s| && s[k] == '/' && NoLineTerminator(s[..k]) &&
    var j := NextSlash(s, k + 1);
    k + 1 < j < |s| && FileTailAt(s, j)
  }

  /** The text of the capture group when `.+` ends at k. */
  function Captured(s: string, k: nat): string
    requires k < |s|
  {
    s[k + 1..NextSlash(s, k + 1)]
  }

  /**
   * Backtracking over the end of the greedy `.+`, longest first: the greatest
   * position below i where the expression matches, or -1 when there is none.
   */
  function LastMatchBelow(s: string, i: nat): (k: int)
    requires i <= |s|
    ensures -1 <= k < i
    ensures k >= 0 ==> MatchesAt(s, k)
    ensures forall m :: k < m < i ==> !MatchesAt(s, m)
    decreases i
  {
    if i == 0 then -1
    else if MatchesAt(s, i - 1) then i - 1
    else LastMatchBelow(s, i - 1)
  }

  /**
   * `path.match(/^.+\/([^\/]+)\/[^\/]+.html/)[1]`, None where the match is null.
   * The result is the capture at the greatest position where the expression
   * matches, and it is a non-empty run of non-slash characters. A path with
   * fewer than two slashes never matches: on it the source throws.
   */
  function Capture(s: string): (r: Option<string>)
    ensures r.Some? <==> exists k :: 0 <= k < |s| && MatchesAt(s, k)
    ensures r.Some? ==> r.value != [] && '/' !in r.value
    ensures r.Some? ==> HasTwoSlashes(s)
  {
    var k := LastMatchBelow(s, |s|);
    if k < 0 then None
    else
      assert forall m :: k + 1 <= m < NextSlash(s, k + 1) ==> s[m] != '/';
      Some(Captured(s, k))
  }

  /**
   * A path as the template scan returns it: at least two slashes, a non-empty
   * run before the second-to-last one that holds no line terminator, a
   * non-empty directory name, and a last segment `<stem>.html` with a
   * non-empty stem.
   */
  predicate TemplateShaped(s: string) {
    var k2 := LastSlashBefore(s, |s|);
    k2 >= 0 &&
    var k1 := LastSlashBefore(s, k2);
    1 <= k1 && k1 + 1 < k2 && k2 + 7 <= |s| &&
    NoLineTerminator(s[..k1]) && s[|s| - 5..] == ".html"
  }

  /** Seen from the second-to-last slash k1, the next slash is the last one, k2, and after it none follows. */
  lemma LastTwoSlashesNext(s: string, k1: int, k2: int)
    requires 0 <= k2 == LastSlashBefore(s, |s|)
    requires 0 <= k1 == LastSlashBefore(s, k2)
    ensures NextSlash(s, k1 + 1) == k2 && NextSlash(s, k2 + 1) == |s|
    ensures ParentDir(s) == Some(s[k1 + 1..k2])
  {
  }

  /** With `.+` ending at the second-to-last slash k1 (k2 the last), the expression matches. */
  lemma MatchesAtParentSlash(s: string, k1: nat, k2: nat)
    requires 1 <= k1 && k1 + 1 < k2 && k2 + 7 <= |s| && s[k1] == '/'
    requires NextSlash(s, k1 + 1) == k2 && NextSlash(s, k2 + 1) == |s|
    requires NoLineTerminator(s[..k1]) && s[|s| - 5..] == ".html"
    ensures MatchesAt(s, k1)
  {
    var d := |s| - 5;
    assert s[d] == s[|s| - 5..][0] == '.';
    assert s[d + 1..d + 5] == s[|s| - 5..][1..] == "html";
    assert DotHtmlAt(s, d);
    assert FileTailAt(s, k2);
  }

  /** Past the second-to-last slash k1 the expression never matches: a match needs two more slashes. */
  lemma NoMatchPastParentSlash(s: string, k1: nat, k2: nat)
    requires k1 < k2 < |s|
    requires NextSlash(s, k1 + 1) == k2 && NextSlash(s, k2 + 1) == |s|
    ensures forall m :: k1 < m < |s| ==> !MatchesAt(s, m)
  {
    forall m | k1 < m < |s|
      ensures !MatchesAt(s, m)
    {
      if s[m] == '/' {
        assert m == k2;
      }
    }
  }

  /** The greedy `.+` of a template-shaped path ends at its second-to-last slash k1. */
  lemma LastMatchAtParentSlash(s: string, k1: nat, k2: nat)
    requires 1 <= k1 && k1 + 1 < k2 && k2 + 7 <= |s| && s[k1] == '/'
    requires NextSlash(s, k1 + 1) == k2 && NextSlash(s, k2 + 1) == |s|
    requires NoLineTerminator(s[..k1]) && s[|s| - 5..] == ".html"
    ensures LastMatchBelow(s, |s|) == k1
  {
    MatchesAtParentSlash(s, k1, k2);
    NoMatchPastParentSlash(s, k1, k2);
  }

  /** On a template-shaped path the capture is the immediate parent directory. */
  lemma {:induction false} CaptureIsParentDir(s: string)
    requires TemplateShaped(s)
    ensures Capture(s).Some? && Capture(s) == ParentDir(s)
  {
    var k2 := LastSlashBefore(s, |s|);
    var k1 := LastSlashBefore(s, k2);
    LastTwoSlashesNext(s, k1, k2);
    LastMatchAtParentSlash(s, k1, k2);
    assert Captured(s, k1) == s[k1 + 1..k2];
  }

  /** A path `<root>/<dir>/<stem>.html` is template-shaped, and its parent directory is dir. */
  lemma TemplatePathIsShaped(root: string, dir: string, stem: string)
    requires root != [] && NoLineTerminator(root)
    requires dir != [] && '/' !in dir
    requires stem != [] && '/' !in stem
    ensures TemplateShaped(root + "/" + dir + "/" + stem + ".html")
    ensures ParentDir(root + "/" + dir + "/" + stem + ".html") == Some(dir)
  {
    var file := stem + ".html";
    var s := root + "/" + dir + "/" + file;
    assert s == root + "/" + dir + "/" + stem + ".html";
    assert '/' !in file by {
      assert forall m :: 0 <= m < |file| ==> file[m] == if m < |stem| then stem[m] else ".html"[m - |stem|];
    }
    ParentDirOf(root, dir, file);
    LastTwoSlashes(root, dir, file);
    assert s[..|root|] == root;
    assert s[|s| - 5..] == ".html";
  }

  /**
   * Every path `<root>/<dir>/<stem>.html` (a root free of line terminators,
   * slash-free dir and stem) yields the folder name dir. In particular
   * `./src/pages/about.html`, where `**` matched no directory, yields "pages".
   */
  lemma TemplatePathYieldsDir(root: string, dir: string, stem: string)
    requires root != [] && NoLineTerminator(root)
    requires dir != [] && '/' !in dir
    requires stem != [] && '/' !in stem
    ensures Capture(root + "/" + dir + "/" + stem + ".html") == Some(dir)
  {
    TemplatePathIsShaped(root, dir, stem);
    CaptureIsParentDir(root + "/" + dir + "/" + stem + ".html");
  }

  /**
   * `glob.sync(...).map(path => path.match(...)[1])`: the folder names in scan
   * order, one per template path, duplicates kept. The map throws at the
   * first path the expression does not match; the error is that path's index.
   */
  function FolderNames(paths: seq<string>): (r: Result<seq<string>, nat>)
    ensures r.Ok? <==> forall k :: 0 <= k < |paths| ==> Capture(paths[k]).Some?
    ensures r.Ok? ==> |r.value| == |paths| &&
                      forall k :: 0 <= k < |paths| ==> Capture(paths[k]) == Some(r.value[k])
    ensures r.Err? ==> r.error < |paths| && Capture(paths[r.error]) == None &&
                       forall m :: 0 <= m < r.error ==> Capture(paths[m]).Some?
  {
    MapOrThrow(paths, Capture)
  }

  /** When every scanned path is template-shaped, the page names are the paths' parent directories. */
  lemma FolderNamesOfTemplates(paths: seq<string>)
    requires forall k :: 0 <= k < |paths| ==> TemplateShaped(paths[k])
    ensures forall k :: 0 <= k < |paths| ==> HasTwoSlashes(paths[k])
    ensures FolderNames(paths) == Ok(ParentDirs(paths))
  {
    forall k | 0 <= k < |paths|
      ensures Capture(paths[k]).Some? && Capture(paths[k]) == ParentDir(paths[k])
    {
      CaptureIsParentDir(paths[k]);
    }
    var r := FolderNames(paths);
    assert r.value == ParentDirs(paths);
  }
}
