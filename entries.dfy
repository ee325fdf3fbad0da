/**
 * The entry manifest: `folderNames.reduce((c, name) => { c[name] = [...]; return c; }, {})`,
 * which maps every page name to the files webpack bundles for that page.
 */
module EntryManifest {
  import opened Layout

  /** webpack's `entry` option: page name to the files of that page's bundle. */
  type Manifest = map<string, seq<string>>

  /**
   * The entry list of the page called name: the shared stylesheet, then the
   * scripts of the page's folder, then its stylesheets, each group in scan order.
   */
  function EntryList(glob: Glob, name: string): (r: seq<string>)
    ensures |r| == 1 + |glob(ScriptsPattern(name))| + |glob(StylesPattern(name))|
    ensures r[0] == CommonStyles
    ensures r[1..1 + |glob(ScriptsPattern(name))|] == glob(ScriptsPattern(name))
    ensures r[1 + |glob(ScriptsPattern(name))|..] == glob(StylesPattern(name))
  {
    [CommonStyles] + glob(ScriptsPattern(name)) + glob(StylesPattern(name))
  }

  /** A name ending in `.scss` does not end in `.js`. */
  lemma StylesheetIsNotScript(f: string)
    requires EndsWith(f, ".scss")
    ensures !EndsWith(f, ".js")
  {
    var tail := f[|f| - 5..];
    assert tail == ".scss" && f[|f| - 3] == tail[2] == ".scss"[2];
    assert f[|f| - 3..][0] == f[|f| - 3] == 'c';
  }

  /**
   * When the scan returns what its patterns ask for, no script of the page
   * follows one of its stylesheets in the entry list.
   */
  lemma ScriptsBeforeStyles(glob: Glob, name: string)
    requires forall f :: f in glob(ScriptsPattern(name)) ==> EndsWith(f, ".js")
    requires forall f :: f in glob(StylesPattern(name)) ==> EndsWith(f, ".scss")
    ensures var r := EntryList(glob, name);
            forall i, j :: 1 <= i < j < |r| && EndsWith(r[j], ".js") ==> EndsWith(r[i], ".js")
  {
    var js, styles := glob(ScriptsPattern(name)), glob(StylesPattern(name));
    var r := EntryList(glob, name);
    forall i | 1 <= i < 1 + |js|
      ensures EndsWith(r[i], ".js")
    {
      assert r[i] == r[1..1 + |js|][i - 1] == js[i - 1];
    }
    forall j | 1 + |js| <= j < |r|
      ensures !EndsWith(r[j], ".js")
    {
      assert r[j] == r[1 + |js|..][j - 1 - |js|] == styles[j - 1 - |js|];
      StylesheetIsNotScript(r[j]);
    }
  }

  /** One step of the reduce, `c[name] = [...]`: it sets name and leaves every other key as it was. */
  function Assign(glob: Glob, c: Manifest, name: string): (c': Manifest)
    ensures c'.Keys == c.Keys + {name}
    ensures c'[name] == EntryList(glob, name)
    ensures forall n :: n in c && n != name ==> c'[n] == c[n]
  {
    c[name := EntryList(glob, name)]
  }

  /**
   * The reduce over the folder names, from `{}`, one Assign per name in
   * order. Its keys are exactly the names, and each key's list depends on the
   * key alone, so a repeated name rewrites its own value unchanged.
   */
  function Entries(glob: Glob, names: seq<string>): (m: Manifest)
    ensures m.Keys == set n | n in names
    ensures forall n :: n in m ==> m[n] == EntryList(glob, n)
    decreases |names|
  {
    if names == [] then map[]
    else Assign(glob, Entries(glob, names[..|names| - 1]), names[|names| - 1])
  }

  /** Two scans that find the same set of page names give the same manifest, whatever the order and repeats. */
  lemma {:induction false} EntriesDependOnNameSet(glob: Glob, a: seq<string>, b: seq<string>)
    requires forall n :: n in a <==> n in b
    ensures Entries(glob, a) == Entries(glob, b)
  {
    var ma, mb := Entries(glob, a), Entries(glob, b);
    assert ma.Keys == mb.Keys;
    forall n | n in ma
      ensures ma[n] == mb[n]
    {
    }
  }

  /** Processing a name that was already processed leaves the manifest as it was. */
  lemma {:induction false} RepeatedNameLeavesEntries(glob: Glob, names: seq<string>, name: string)
    requires name in names
    ensures Entries(glob, names + [name]) == Entries(glob, names)
  {
    assert (names + [name])[..|names|] == names;
    var m := Entries(glob, names);
    assert m[name] == EntryList(glob, name);
    assert m[name := EntryList(glob, name)] == m;
  }

  /**
   * The reduce as the source runs it: an accumulator that starts empty and is
   * assigned `c[name] = [...]` for each folder name in turn.
   */
  method BuildEntries(glob: Glob, folderNames: seq<string>) returns (c: Manifest)
    ensures c == Entries(glob, folderNames)
  {
    c := map[];
    for i := 0 to |folderNames|
      invariant c == Entries(glob, folderNames[..i])
    {
      var name := folderNames[i];
      assert folderNames[..i + 1][..i] == folderNames[..i];
      c := c[name := [CommonStyles] + glob(ScriptsPattern(name)) + glob(StylesPattern(name))];
    }
    assert folderNames[..|folderNames|] == folderNames;
  }
}
