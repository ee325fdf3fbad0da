# Page-entry resolution of a static-site webpack configuration

This project models the part of `webpack.config.js` that the build computes
rather than declares. That part covers four things.

- **Folder names.** The configuration scans `./src/pages/**/*.html` and turns
  every template path into a page name with the expression
  `^.+/([^/]+)/[^/]+.html`. The backslash before `.html` is lost in the
  JavaScript string literal, and the expression is not anchored at the end.
  The name is the capture group, read with `[1]`, so a path the expression
  does not match throws.
- **The entry manifest.** A reduce from `{}` maps every page name to a list:
  the shared `common.scss`, then the scripts of `./src/pages/<name>/`, then
  its stylesheets.
- **The HTML page table.** Every page name gets one HtmlWebpackPlugin
  descriptor. Its chunks are `common`, `vendor` and the page name. Its
  template is the first `.html` file in the page's folder. It writes
  `<name>/index.html`.
- **The build mode.** `NODE_ENV === 'development'` selects the mode, the
  devtool, the script and stylesheet file-name patterns, and stylesheet hot
  reloading.

The file-system scan `glob.sync` is a parameter of type
`Layout.Glob = string -> seq<string>`. It is applied to exactly the pattern
strings the configuration builds. The configuration only reads the scan's
results, so the model is a function of what the scan returns and of
`NODE_ENV`.

Modules:

- `Results`: Option and Result, plus `MapOrThrow`. `MapOrThrow` is
  `Array.prototype.map` with a callback that may throw. The error is the
  index of the element that threw.
- `Paths`: slash positions and the parent directory of a path.
- `FolderName`: the folder-name expression with its exact matching rules,
  and the `folderNames` array.
- `Layout`: the scan patterns and the shared stylesheet.
- `EntryManifest`: the reduce as a specification function and as the
  imperative loop it is.
- `HtmlPages`: the plugin descriptors.
- `BuildMode`: the `devMode` switch.
- `WebpackConfig`: the exported object.

Two edge cases of the code, modelled as written:

- **No templates.** With no templates the code yields an empty `entry`
  object and no pages; it does not fail.
- **Unmatched paths.** A template path the expression does not match makes
  the code throw a TypeError (`null[1]`); the path is not skipped. The model
  returns `Err` with the index of the first such path.

## Model

| member | source | states |
|---|---|---|
| `Results.MapOrThrow` | webpack.config.js:13-14 | `map` whose callback throws: success iff every element maps, with the results in order and one per element; otherwise the error is the first element that fails |
| `Paths.ParentDir` | webpack.config.js:14 | the segment between the last two slashes; it exists exactly when the path has two slashes, and it holds no slash |
| `Paths.ParentDirOf` | webpack.config.js:14 | `root/dir/file` with slash-free dir and file has parent directory dir |
| `FolderName.MatchesAt` | webpack.config.js:14 | the expression matches with `.+` ending at k: then the path has two slashes, and the capture after k is non-empty and slash-free |
| `FolderName.LastMatchBelow` | webpack.config.js:14 | backtracking of the greedy `.+`: the greatest position below i where the expression matches, with no match between it and i |
| `FolderName.Capture` | webpack.config.js:14 | `path.match(...)[1]`: present iff the expression matches at some position; the capture is non-empty and slash-free, and a path with a capture has at least two slashes |
| `FolderName.CaptureIsParentDir` | webpack.config.js:14 | on a template-shaped path, the capture exists and is the immediate parent directory |
| `FolderName.TemplatePathIsShaped` | webpack.config.js:13 | every `<root>/<dir>/<stem>.html` whose root is non-empty and has no line terminator, with non-empty slash-free dir and stem, is template-shaped, and its parent directory is dir |
| `FolderName.TemplatePathYieldsDir` | webpack.config.js:13-14 | for `<root>/<dir>/<stem>.html` whose root is non-empty and has no line terminator, with non-empty slash-free dir and stem, the folder name is dir; for `./src/pages/about.html` (root `./src`) it is `pages` |
| `FolderName.FolderNames` | webpack.config.js:13-14 | the `folderNames` array: defined iff every scanned path matches, then one name per path in scan order; otherwise the index of the first path that throws |
| `FolderName.FolderNamesOfTemplates` | webpack.config.js:13-14 | when every scanned path is template-shaped, the names are the paths' parent directories |
| `EntryManifest.EntryList` | webpack.config.js:18-22 | the list starts with `common.scss`, then all of the folder's scripts, then all of its stylesheets, each group as scanned |
| `EntryManifest.ScriptsBeforeStyles` | webpack.config.js:18-22 | given scan results that fit their patterns, no script follows a stylesheet in an entry list |
| `EntryManifest.StylesheetIsNotScript` | webpack.config.js:20-21 | a `.scss` name never ends in `.js`, so the two groups are disjoint |
| `EntryManifest.Assign` | webpack.config.js:18-23 | one reduce step sets its own key to its entry list and leaves every other key unchanged |
| `EntryManifest.Entries` | webpack.config.js:17-24 | the manifest's keys are exactly the folder names, and each key maps to its own entry list |
| `EntryManifest.EntriesDependOnNameSet` | webpack.config.js:17-24 | two name sequences with the same set of names give the same manifest, whatever the order and repeats |
| `EntryManifest.RepeatedNameLeavesEntries` | webpack.config.js:17-24 | reducing over a name seen before leaves the manifest unchanged |
| `EntryManifest.BuildEntries` | webpack.config.js:17-24 | the reduce loop's accumulator ends as the manifest of all folder names |
| `HtmlPages.First` | webpack.config.js:50 | `xs[0]` is present iff the scan is non-empty, and then it is the first path |
| `HtmlPages.PagePlugin` | webpack.config.js:47-59 | the descriptor of one page: injected in the head with hashing on, chunks `common`, `vendor`, then the name, a template only from the page folder's scan, and an output ending in `/index.html` |
| `HtmlPages.PagePlugins` | webpack.config.js:47-59 | one descriptor per folder name, in order, duplicates kept |
| `HtmlPages.OutputFolder` | webpack.config.js:51 | a name read back from `<folder>/index.html` gives back that file name when `/index.html` is appended |
| `HtmlPages.OutputFolderOfPage` | webpack.config.js:51 | a page's output file name gives back the page name |
| `HtmlPages.PagePluginFields` | webpack.config.js:47-59 | chunks are `common`, `vendor`, then the name; the template exists iff the folder has an `.html` file, and then it is the first one; the output is `<name>/index.html` |
| `HtmlPages.OutputsCollideIffNamesEqual` | webpack.config.js:47-51 | two descriptors write the same file iff they come from the same folder name |
| `BuildMode.ModeOf` | webpack.config.js:10 | the mode is development iff `NODE_ENV` is exactly `development`; an unset variable means production |
| `BuildMode.OptionsFor` | webpack.config.js:27-44 | the stylesheet and stylesheet-chunk name patterns agree; there is a devtool, and stylesheet hot reloading (`hmr`, line 81) is on, exactly in development |
| `BuildMode.ModeRoundTrip` | webpack.config.js:27 | the `mode` option is `'development'` in development and `'production'` otherwise, and reading it back through the inverse of the ternary gives the mode it was built for |
| `BuildMode.SourceMapsOnlyInDevelopment` | webpack.config.js:28 | there is a devtool (`inline-source-map`) iff in development; otherwise it is `false` |
| `BuildMode.FilenamesByMode` | webpack.config.js:33-44 | production script names carry `[chunkhash]` and production stylesheet names `[hash]`; development names carry `[name]` |
| `WebpackConfig.Resolve` | webpack.config.js:13-51 | `module.exports`: an error names a template path the expression does not match; on success page k is named by the k-th template path's capture, and the options are those of the mode `NODE_ENV` selects |
| `WebpackConfig.Assemble` | webpack.config.js:17-51 | the exported object for known folder names: the entry keys are exactly the names, page k belongs to name k, and the options follow `NODE_ENV` |
| `WebpackConfig.ResolveThrowsIffUnmatched` | webpack.config.js:13-14 | loading the configuration throws iff some template path does not match, and it throws at the first such path |
| `WebpackConfig.PagesMatchEntries` | webpack.config.js:17-24 | one page per folder name; each page's own chunk is an entry with that page's list, and every entry is some page's own chunk |
| `WebpackConfig.ModeChangesOnlyOptions` | webpack.config.js:10 | `NODE_ENV` changes the mode-dependent options and nothing else, and the options differ iff the modes differ |
| `WebpackConfig.ResolveTemplateTree` | webpack.config.js:13-51 | when every template path is template-shaped, loading succeeds with pages named after the templates' parent directories, in scan order |
| `WebpackConfig.ExampleEntries` | webpack.config.js:17-24 | for a `home`/`about` tree, home's script comes before its stylesheet, and about, which has no script, gets only the shared and own stylesheets |
| `WebpackConfig.ExampleTemplates` | webpack.config.js:13-14 | the example's template paths are template-shaped with parent directories `home` and `about` |
| `WebpackConfig.ExampleNames` | webpack.config.js:13-51 | any scan returning those two template paths loads with the folder names `home` and `about`, in that order |
| `WebpackConfig.ExampleResolves` | webpack.config.js:13-29 | loading the example tree succeeds and its `entry` is exactly the home/about manifest |

## Left out

- The file system: `glob.sync` is the `Glob` parameter. Its own matching
  rules, its result order and its handling of dot-files and symbolic links
  are not part of this model. Lemmas that need scan results to fit their
  patterns take that as a precondition.
- Regular expressions in general: only the one expression on line 14 is
  modelled, character by character. UTF-16 code units and surrogate pairs
  are not distinguished from characters.
- Key order, integer-like keys and the `__proto__` key of the JavaScript
  `entry` object: the manifest is a map.
- The TypeError itself: the model reports the index of the first path
  that does not match instead of an exception object.
- The nested-folder lookup is modelled as written rather than corrected.
  For `./src/pages/a/b/x.html` the name is `b`, and its scripts, stylesheets
  and template are looked up in `./src/pages/b/`. No spot in the code says
  what was intended there.
- `BuildMode.FilenamesByMode`: states only that the names contain the
  markers. The exact strings are in `OptionsFor`, and the absence of the
  other markers is not stated.
- The output path `path.resolve(__dirname, 'dist')` (line 34): it depends
  on the process's directory.
- The plugins that need no computation (lines 38-40, 60), and the fixed
  `excludeAssets` and `meta` options of each page (lines 52-57): they are
  constant.
- The module rules (lines 63-131), `optimization.splitChunks`
  (lines 133-152), `devServer` (lines 155-160) and `performance`
  (lines 162-165): they are fixed data that webpack and its loaders
  interpret.
- `babel.config.js` is not part of this model: it is constant
  configuration data for the Babel loader.
