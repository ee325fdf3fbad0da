/**
 * The directory convention the build configuration relies on, and the glob
 * patterns it scans with. The scan itself (`glob.sync`) reads the file system;
 * here it is a function from a pattern to the paths it returns, in order.
 */
module Layout {

  /** `glob.sync`: the paths a pattern matches, in the order the scan yields them. */
  type Glob = string -> seq<string>

  /** The stylesheet every page's entry list starts with. */
  const CommonStyles: string := "./src/pages/common.scss"

  /** Every page template at any depth below the pages directory. */
  const TemplateScan: string := "./src/pages/**/*.html"

  /** The scripts directly inside the pages folder called name. */
  function ScriptsPattern(name: string): string {
    "./src/pages/" + name + "/*.js"
  }

  /** The stylesheets directly inside the pages folder called name. */
  function StylesPattern(name: string): string {
    "./src/pages/" + name + "/*.scss"
  }

  /** The templates directly inside the pages folder called name. */
  function TemplatesPattern(name: string): string {
    "./src/pages/" + name + "/*.html"
  }

  predicate EndsWith(s: string, suffix: string) {
    |suffix| <= |s| && s[|s| - |suffix|..] == suffix
  }
}
