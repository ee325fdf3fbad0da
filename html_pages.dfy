/**
 * The per-page HTML output table: `folderNames.map(name => new HtmlWebpackPlugin({...}))`,
 * one plugin descriptor per folder name, each writing `<name>/index.html`.
 */
module HtmlPages {
  import opened Results
  import opened Layout

  /** The options of one HtmlWebpackPlugin that the build sets from the page name. */
  datatype HtmlPlugin = HtmlPlugin(
    inject: string,
    chunks: seq<string>,
    template: Option<string>,
    filename: string,
    hash: bool)

  const IndexSuffix: string := "/index.html"

  /** `xs[0]`, undefined on an empty array. */
  function First(xs: seq<string>): (r: Option<string>)
    ensures r.Some? <==> xs != []
    ensures r.Some? ==> r.value == xs[0]
  {
    if xs == [] then None else Some(xs[0])
  }

  /**
   * The descriptor of the page called name: scripts go in the head, the page's
   * own chunk follows the shared `common` and `vendor` ones, any template is a
   * file the scan found in the page's folder, and the output is an `index.html`.
   */
  function PagePlugin(glob: Glob, name: string): (p: HtmlPlugin)
    ensures p.inject == "head" && p.hash
    ensures |p.chunks| == 3 && p.chunks[..2] == ["common", "vendor"] && p.chunks[2] == name
    ensures p.template.Some? ==> p.template.value in glob(TemplatesPattern(name))
    ensures |p.filename| >= |IndexSuffix| && p.filename[|p.filename| - |IndexSuffix|..] == IndexSuffix
  {
    var filename := name + IndexSuffix;
    assert filename[|filename| - |IndexSuffix|..] == IndexSuffix;
    HtmlPlugin(
      inject := "head",
      chunks := ["common", "vendor", name],
      template := First(glob(TemplatesPattern(name))),
      filename := filename,
      hash := true)
  }

  /** One descriptor per folder name, in the same order, duplicates included. */
  function PagePlugins(glob: Glob, names: seq<string>): (ps: seq<HtmlPlugin>)
    ensures |ps| == |names|
    ensures forall k :: 0 <= k < |names| ==> ps[k] == PagePlugin(glob, names[k])
  {
    seq(|names|, k requires 0 <= k < |names| => PagePlugin(glob, names[k]))
  }

  /** The output folder an emitted `<folder>/index.html` belongs to; None for any other file name. */
  function OutputFolder(filename: string): (r: Option<string>)
    ensures r.Some? ==> r.value + IndexSuffix == filename
  {
    if |filename| >= |IndexSuffix| && filename[|filename| - |IndexSuffix|..] == IndexSuffix
    then
      assert filename == filename[..|filename| - |IndexSuffix|] + filename[|filename| - |IndexSuffix|..];
      Some(filename[..|filename| - |IndexSuffix|])
    else None
  }

  /** The page's output file name gives back its name. */
  lemma OutputFolderOfPage(glob: Glob, name: string)
    ensures OutputFolder(PagePlugin(glob, name).filename) == Some(name)
  {
    var f := name + IndexSuffix;
    assert f[..|name|] == name && f[|name|..] == IndexSuffix;
  }

  /**
   * The page's own chunk comes after the two shared ones, its template is the
   * first `.html` file the scan finds in its folder (none when the folder has
   * none), and it writes `<name>/index.html`.
   */
  lemma PagePluginFields(glob: Glob, name: string)
    ensures var p := PagePlugin(glob, name);
            |p.chunks| == 3 && p.chunks[..2] == ["common", "vendor"] && p.chunks[2] == name &&
            (p.template.Some? <==> glob(TemplatesPattern(name)) != []) &&
            (p.template.Some? ==> p.template.value == glob(TemplatesPattern(name))[0]) &&
            OutputFolder(p.filename) == Some(name)
  {
    OutputFolderOfPage(glob, name);
  }

  /** Two descriptors write the same file exactly when they come from the same folder name. */
  lemma {:induction false} OutputsCollideIffNamesEqual(glob: Glob, names: seq<string>, i: nat, j: nat)
    requires i < |names| && j < |names|
    ensures var ps := PagePlugins(glob, names);
            ps[i].filename == ps[j].filename <==> names[i] == names[j]
  {
    var ps := PagePlugins(glob, names);
    OutputFolderOfPage(glob, names[i]);
    OutputFolderOfPage(glob, names[j]);
    assert OutputFolder(ps[i].filename) == Some(names[i]);
    assert OutputFolder(ps[j].filename) == Some(names[j]);
  }
}
