/**
 * Build-mode selection: `devMode = process.env.NODE_ENV === 'development'`
 * and the options that switch on it (mode, devtool, the script and stylesheet
 * file name patterns, and hot reloading of extracted stylesheets).
 */
module BuildMode {
  import opened Results

  datatype Mode = Development | Production

  /** `NODE_ENV === 'development'`; an unset variable (None) or any other value is production. */
  function ModeOf(nodeEnv: Option<string>): (m: Mode)
    ensures m == Development <==> nodeEnv == Some("development")
  {
    if nodeEnv == Some("development") then Development else Production
  }

  /** The options that depend on the mode; devtool None is the source's `false`. */
  datatype ModeOptions = ModeOptions(
    mode: string,
    devtool: Option<string>,
    scriptFilename: string,
    styleFilename: string,
    styleChunkFilename: string,
    styleHotReload: bool)

  /**
   * The mode-dependent options of the exported object: the stylesheet and
   * stylesheet-chunk name patterns always agree, and source maps and hot
   * reloading are on exactly in development.
   */
  function OptionsFor(m: Mode): (o: ModeOptions)
    ensures o.styleFilename == o.styleChunkFilename
    ensures o.devtool.Some? <==> m == Development
    ensures o.styleHotReload <==> m == Development
  {
    if m == Development then
      ModeOptions("development", Some("inline-source-map"),
                  "assets/js/[name].js", "assets/css/[name].css", "assets/css/[name].css", true)
    else
      ModeOptions("production", None,
                  "assets/js/[id].[chunkhash].js", "assets/css/[id].[hash].css", "assets/css/[id].[hash].css", false)
  }

  /** The inverse of the `mode` ternary: the mode whose `mode` string is the given one. */
  function ModeFromOptions(o: ModeOptions): Mode {
    if o.mode == "development" then Development else Production
  }

  /**
   * The `mode` option names the build mode: `'development'` in development,
   * `'production'` otherwise, so it determines the mode it was built for.
   */
  lemma ModeRoundTrip(m: Mode)
    ensures OptionsFor(Development).mode == "development" && OptionsFor(Production).mode == "production"
    ensures ModeFromOptions(OptionsFor(m)) == m
  {
  }

  /** Source maps are inlined exactly in development; hot reloading of stylesheets is on exactly then too. */
  lemma SourceMapsOnlyInDevelopment(nodeEnv: Option<string>)
    ensures var o := OptionsFor(ModeOf(nodeEnv));
            (o.devtool.Some? <==> nodeEnv == Some("development")) &&
            (o.devtool.Some? ==> o.devtool.value == "inline-source-map") &&
            (o.styleHotReload <==> nodeEnv == Some("development"))
  {
  }

  /** t occurs in s at position k. */
  predicate OccursAt(s: string, t: string, k: nat) {
    k + |t| <= |s| && s[k..k + |t|] == t
  }

  /** t occurs in s. */
  ghost predicate Contains(s: string, t: string) {
    exists k: nat :: OccursAt(s, t, k)
  }

  /**
   * Production file names carry a content hash (`[chunkhash]` for scripts,
   * `[hash]` for stylesheets); development names carry the entry name.
   */
  lemma FilenamesByMode()
    ensures var p := OptionsFor(Production);
            Contains(p.scriptFilename, "[chunkhash]") && Contains(p.styleFilename, "[hash]") &&
            Contains(p.styleChunkFilename, "[hash]")
    ensures var d := OptionsFor(Development);
            Contains(d.scriptFilename, "[name]") && Contains(d.styleFilename, "[name]") &&
            Contains(d.styleChunkFilename, "[name]")
  {
    var p, d := OptionsFor(Production), OptionsFor(Development);
    assert OccursAt(p.scriptFilename, "[chunkhash]", 15);
    assert OccursAt(p.styleFilename, "[hash]", 16);
    assert OccursAt(d.scriptFilename, "[name]", 10);
    assert OccursAt(d.styleFilename, "[name]", 11);
  }
}
