/**
 * The configuration object webpack.config.js exports, restricted to the parts
 * it computes: the mode-dependent options, the entry manifest and the per-page
 * HTML plugins. Building it throws when a template path does not match the
 * folder-name expression.
 */
module WebpackConfig {
  import opened Results
  import opened Layout
  import opened Paths
  import opened FolderName
  import opened EntryManifest
  import opened HtmlPages
  import opened BuildMode

  datatype Config = Config(options: ModeOptions, entry: Manifest, pages: seq<HtmlPlugin>)

  /**
   * `module.exports` for the file system glob sees and the value of NODE_ENV,
   * or the index (in scan order) of the template path whose match threw. On
   * success page k is named by the capture of the k-th template path, and the
   * options are those of the mode NODE_ENV selects.
   */
  function Resolve(glob: Glob, nodeEnv: Option<string>): (r: Result<Config, nat>)
    ensures var ts := glob(TemplateScan);
            r.Err? ==> r.error < |ts| && Capture(ts[r.error]) == None
    ensures var ts := glob(TemplateScan);
            r.Ok? ==> |r.value.pages| == |ts| &&
                      forall k :: 0 <= k < |ts| ==>
                        |r.value.pages[k].chunks| == 3 && Capture(ts[k]) == Some(r.value.pages[k].chunks[2])
    ensures r.Ok? ==> r.value.options == OptionsFor(ModeOf(nodeEnv))
  {
    match FolderNames(glob(TemplateScan))
    case Err(k) => Err(k)
    case Ok(names) => Ok(Assemble(glob, nodeEnv, names))
  }

  /**
   * The exported object once the folder names are known: the entry keys are
   * the names, page k belongs to name k, and the options follow NODE_ENV.
   */
  function Assemble(glob: Glob, nodeEnv: Option<string>, names: seq<string>): (c: Config)
    ensures c.entry.Keys == set n | n in names
    ensures |c.pages| == |names| && forall k :: 0 <= k < |names| ==> |c.pages[k].chunks| == 3 && c.pages[k].chunks[2] == names[k]
    ensures c.options == OptionsFor(ModeOf(nodeEnv))
  {
    var pages := PagePlugins(glob, names);
    assert forall k :: 0 <= k < |names| ==> pages[k] == PagePlugin(glob, names[k]);
    Config(OptionsFor(ModeOf(nodeEnv)), Entries(glob, names), pages)
  }

  /**
   * Loading the configuration throws exactly when some template path does not
   * match, and it throws at the first such path.
   */
  lemma ResolveThrowsIffUnmatched(glob: Glob, nodeEnv: Option<string>)
    ensures var ts := glob(TemplateScan);
            Resolve(glob, nodeEnv).Err? <==> exists k :: 0 <= k < |ts| && Capture(ts[k]) == None
    ensures var ts := glob(TemplateScan);
            Resolve(glob, nodeEnv).Err? ==>
              var k := Resolve(glob, nodeEnv).error;
              k < |ts| && Capture(ts[k]) == None && forall m :: 0 <= m < k ==> Capture(ts[m]).Some?
  {
    var ts := glob(TemplateScan);
    var r := FolderNames(ts);
    if r.Ok? {
      forall k | 0 <= k < |ts|
        ensures Capture(ts[k]).Some?
      {
        assert Capture(ts[k]) == Some(r.value[k]);
      }
    }
  }

  /**
   * The two tables agree: there is one HTML page per folder name, each page's
   * own chunk is an entry whose list is that page's, and every entry is the
   * own chunk of some page.
   */
  lemma PagesMatchEntries(glob: Glob, nodeEnv: Option<string>, names: seq<string>)
    ensures var c := Assemble(glob, nodeEnv, names);
            |c.pages| == |names| &&
            (forall k :: 0 <= k < |c.pages| ==>
               |c.pages[k].chunks| == 3 && c.pages[k].chunks[2] in c.entry &&
               c.entry[c.pages[k].chunks[2]] == EntryList(glob, c.pages[k].chunks[2])) &&
            (forall n :: n in c.entry ==> exists k :: 0 <= k < |c.pages| && c.pages[k].chunks[2] == n)
  {
    var c := Assemble(glob, nodeEnv, names);
    forall n | n in c.entry
      ensures exists k :: 0 <= k < |c.pages| && c.pages[k].chunks[2] == n
    {
      var k :| 0 <= k < |names| && names[k] == n;
      assert c.pages[k].chunks[2] == n;
    }
  }

  /** NODE_ENV changes the mode-dependent options and nothing else. */
  lemma ModeChangesOnlyOptions(glob: Glob, e1: Option<string>, e2: Option<string>)
    ensures Resolve(glob, e1).Ok? == Resolve(glob, e2).Ok?
    ensures Resolve(glob, e1).Ok? ==>
              Resolve(glob, e1).value.entry == Resolve(glob, e2).value.entry &&
              Resolve(glob, e1).value.pages == Resolve(glob, e2).value.pages
    ensures Resolve(glob, e1).Ok? ==>
              (Resolve(glob, e1).value.options == Resolve(glob, e2).value.options <==>
               ModeOf(e1) == ModeOf(e2))
  {
    if FolderNames(glob(TemplateScan)).Ok? {
      ModeRoundTrip(ModeOf(e1));
      ModeRoundTrip(ModeOf(e2));
    }
  }

  /**
   * When the scan returns only paths `<root>/<dir>/<stem>.html`, loading
   * succeeds and the pages are named after the templates' parent directories,
   * one page per template, in scan order.
   */
  lemma ResolveTemplateTree(glob: Glob, nodeEnv: Option<string>)
    requires forall k :: 0 <= k < |glob(TemplateScan)| ==> TemplateShaped(glob(TemplateScan)[k])
    ensures forall k :: 0 <= k < |glob(TemplateScan)| ==> HasTwoSlashes(glob(TemplateScan)[k])
    ensures Resolve(glob, nodeEnv) == Ok(Assemble(glob, nodeEnv, ParentDirs(glob(TemplateScan))))
  {
    FolderNamesOfTemplates(glob(TemplateScan));
  }

  /**
   * A pages tree with `home/home.html`, `home/main.js`, `home/home.scss`,
   * `about/about.html` and `about/about.scss`, as the scan would report it.
   */
  function ExampleScan(pattern: string): seq<string> {
    if pattern == TemplateScan then ["./src/pages/home/home.html", "./src/pages/about/about.html"]
    else if pattern == ScriptsPattern("home") then ["./src/pages/home/main.js"]
    else if pattern == StylesPattern("home") then ["./src/pages/home/home.scss"]
    else if pattern == StylesPattern("about") then ["./src/pages/about/about.scss"]
    else if pattern == TemplatesPattern("home") then ["./src/pages/home/home.html"]
    else if pattern == TemplatesPattern("about") then ["./src/pages/about/about.html"]
    else []
  }

  /** The example tree's manifest: home's script precedes its stylesheet; about has no script. */
  lemma ExampleEntries()
    ensures Entries(ExampleScan, ["home", "about"]) ==
            map["home" := [CommonStyles, "./src/pages/home/main.js", "./src/pages/home/home.scss"],
                "about" := [CommonStyles, "./src/pages/about/about.scss"]]
  {
    assert ScriptsPattern("home")[12] != TemplateScan[12];
    assert ExampleScan(ScriptsPattern("home")) == ["./src/pages/home/main.js"];
    assert StylesPattern("home")[12] != TemplateScan[12];
    assert ExampleScan(StylesPattern("home")) == ["./src/pages/home/home.scss"];
    assert StylesPattern("about")[12] != TemplateScan[12];
    assert StylesPattern("about")[12] != ScriptsPattern("home")[12];
    assert StylesPattern("about")[12] != StylesPattern("home")[12];
    assert ExampleScan(StylesPattern("about")) == ["./src/pages/about/about.scss"];
    assert ScriptsPattern("about")[12] != TemplateScan[12];
    assert ScriptsPattern("about")[12] != ScriptsPattern("home")[12];
    assert ScriptsPattern("about")[12] != StylesPattern("home")[12];
    assert ScriptsPattern("about")[12] != TemplatesPattern("home")[12];
    assert ExampleScan(ScriptsPattern("about")) == [];
    var m := Entries(ExampleScan, ["home", "about"]);
    assert m.Keys == {"home", "about"};
    assert m["home"] == EntryList(ExampleScan, "home") == [CommonStyles, "./src/pages/home/main.js", "./src/pages/home/home.scss"];
    assert m["about"] == EntryList(ExampleScan, "about") == [CommonStyles, "./src/pages/about/about.scss"];
  }

  /** The example's two template paths are template-shaped, with parent directories `home` and `about`. */
  lemma ExampleTemplates()
    ensures var ts := ExampleScan(TemplateScan);
            |ts| == 2 && TemplateShaped(ts[0]) && TemplateShaped(ts[1]) &&
            ParentDir(ts[0]) == Some("home") && ParentDir(ts[1]) == Some("about")
  {
    var ts := ExampleScan(TemplateScan);
    assert ts[0] == "./src/pages" + "/" + "home" + "/" + "home" + ".html";
    assert ts[1] == "./src/pages" + "/" + "about" + "/" + "about" + ".html";
    TemplatePathIsShaped("./src/pages", "home", "home");
    TemplatePathIsShaped("./src/pages", "about", "about");
  }

  /**
   * Loading the example tree in production: both template paths match, the
   * folder names are `home` and `about`, and the entry manifest is the one
   * ExampleEntries gives.
   */
  lemma ExampleResolves()
    ensures Resolve(ExampleScan, None).Ok?
    ensures Resolve(ExampleScan, None).value.entry ==
            map["home" := [CommonStyles, "./src/pages/home/main.js", "./src/pages/home/home.scss"],
                "about" := [CommonStyles, "./src/pages/about/about.scss"]]
  {
    ExampleTemplates();
    ExampleNames(ExampleScan);
    ExampleEntries();
  }

  /** Any scan whose template paths are the example's yields the folder names `home` and `about`. */
  lemma ExampleNames(glob: Glob)
    requires var ts := glob(TemplateScan);
             |ts| == 2 && TemplateShaped(ts[0]) && TemplateShaped(ts[1]) &&
             ParentDir(ts[0]) == Some("home") && ParentDir(ts[1]) == Some("about")
    ensures Resolve(glob, None) == Ok(Assemble(glob, None, ["home", "about"]))
  {
    var ts := glob(TemplateScan);
    assert HasTwoSlashes(ts[0]) && HasTwoSlashes(ts[1]);
    var dirs := ParentDirs(ts);
    assert dirs[0] == "home" && dirs[1] == "about";
    assert dirs == ["home", "about"];
    ResolveTemplateTree(glob, None);
  }
}
