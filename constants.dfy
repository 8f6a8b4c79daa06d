/** The constant lists of `src/util/constants.ts` that the scaffolding
    decisions read, as plain data. */
module Constants {

  /** `Strings.packagePrefix`: the npm scope every generated library lives in. */
  const PACKAGE_PREFIX: string := "@rbxts"

  /** `Strings.defaultAuthor`: the author offered when git knows no user name. */
  const DEFAULT_AUTHOR: string := "Daymon Littrell-Reyes"

  /** `Strings.defaultOrg`: the GitHub org offered when git knows no email. */
  const DEFAULT_ORG: string := "daymxn"

  /** `FeatureFiles.api`: paths of the template that only the API feature needs. */
  const API_FILES: seq<string> := ["wiki/docs/api", "api-extractor.json", "api", ".github/workflows/api-check.yaml"]

  /** `FeatureFiles.wiki`. */
  const WIKI_FILES: seq<string> := ["wiki", ".github/workflows/deploy.yaml"]

  /** `FeatureFiles.tests`. */
  const TEST_FILES: seq<string> := ["test.project.json", "testez-companion.toml", ".github/workflows/unit-tests.yaml"]

  /** `FeatureFiles.lua`. */
  const LUA_FILES: seq<string> := ["stylua.toml", ".luarc"]

  /** `TemplateFiles.all`: templates rendered for every project. */
  const ALL_TEMPLATES: seq<string> := [".gitattributes", "CONTRIBUTING.md", "eslint.config.ts", "package.json", "README.md", "TODO.md"]

  /** `TemplateFiles.api`: templates rendered only with the API feature. */
  const API_TEMPLATES: seq<string> := ["api-extractor.json"]
}
