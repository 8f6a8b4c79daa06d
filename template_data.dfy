/** The data handed to the templates (`omitBy(..., it => it === false)` in
    `main` of `src/index.ts`) and the wiki's project config. */
module TemplateData {
  import opened Features
  import opened Names

  /** A field of the template data: a string or a feature flag. */
  datatype Value = Text(s: string) | Flag(b: bool)

  /** The free-text answers of `main`. */
  datatype ProjectInfo = ProjectInfo(projectName: string, projectAuthor: string, repoOrg: string, repoName: string)

  /** The string fields of `TemplateData`. */
  datatype TextField = PackageName | ProjectName | ProjectAuthor | RepoOrg | RepoName | RepoShort | RepoUrl | Year

  /** A key of `TemplateData`: a string field or the flag of a feature. */
  datatype Key = TextKey(field: TextField) | FlagKey(toggle: Toggle)

  /** The property name of a key in the object. */
  function KeyName(k: Key): string {
    match k
    case TextKey(PackageName) => "packageName"
    case TextKey(ProjectName) => "projectName"
    case TextKey(ProjectAuthor) => "projectAuthor"
    case TextKey(RepoOrg) => "repoOrg"
    case TextKey(RepoName) => "repoName"
    case TextKey(RepoShort) => "repoShort"
    case TextKey(RepoUrl) => "repoUrl"
    case TextKey(Year) => "year"
    case FlagKey(Tests) => "tests"
    case FlagKey(Api) => "api"
    case FlagKey(Logo) => "logo"
    case FlagKey(Lua) => "lua"
    case FlagKey(Wiki) => "wiki"
    case FlagKey(Rollup) => "rollup"
  }

  /** Every key of the object literal. */
  const ALL_KEYS: set<Key> := {
    TextKey(PackageName), TextKey(ProjectName), TextKey(ProjectAuthor), TextKey(RepoOrg),
    TextKey(RepoName), TextKey(RepoShort), TextKey(RepoUrl), TextKey(Year),
    FlagKey(Tests), FlagKey(Api), FlagKey(Logo), FlagKey(Lua), FlagKey(Wiki), FlagKey(Rollup)
  }

  /** The value of a string field: the answers and the names derived from them. */
  function TextOf(info: ProjectInfo, year: string, field: TextField): string {
    match field
    case PackageName => Names.PackageName(info.projectName)
    case ProjectName => info.projectName
    case ProjectAuthor => info.projectAuthor
    case RepoOrg => info.repoOrg
    case RepoName => info.repoName
    case RepoShort => Names.RepoShort(info.repoOrg, info.repoName)
    case RepoUrl => Names.RepoUrl(info.repoOrg, info.repoName)
    case Year => year
  }

  function ValueOf(info: ProjectInfo, f: Features, year: string, k: Key): Value {
    match k
    case TextKey(field) => Text(TextOf(info, year, field))
    case FlagKey(t) => Flag(f.Has(t))
  }

  /** `ALL_KEYS` lists every key. */
  lemma AllKeysListed()
    ensures forall k: Key :: k in ALL_KEYS
  {
    forall k: Key
      ensures k in ALL_KEYS
    {
      match k
      case TextKey(field) =>
        match field {
          case PackageName =>
          case ProjectName =>
          case ProjectAuthor =>
          case RepoOrg =>
          case RepoName =>
          case RepoShort =>
          case RepoUrl =>
          case Year =>
        }
      case FlagKey(t) =>
        match t {
          case Tests =>
          case Api =>
          case Logo =>
          case Lua =>
          case Wiki =>
          case Rollup =>
        }
    }
  }

  /** The object literal passed to `omitBy`: every string field and every
      feature flag is present. The year is the clock's, so it is a
      parameter. */
  function Fields(info: ProjectInfo, f: Features, year: string): (m: map<Key, Value>)
    ensures forall field :: TextKey(field) in m && m[TextKey(field)] == Text(TextOf(info, year, field))
    ensures forall t :: FlagKey(t) in m && m[FlagKey(t)] == Flag(f.Has(t))
  {
    AllKeysListed();
    map k | k in ALL_KEYS :: ValueOf(info, f, year, k)
  }

  /** `omitBy(m, it => it === false)`: drop the entries whose value is the
      boolean `false` (an empty string is not `false` and stays). */
  function OmitFalse(m: map<Key, Value>): (r: map<Key, Value>)
    ensures forall k :: k in r <==> k in m && m[k] != Flag(false)
    ensures forall k :: k in r ==> r[k] == m[k]
  {
    map k | k in m && m[k] != Flag(false) :: m[k]
  }

  /** No value the templates see is the boolean `false`. */
  function TemplateDataFor(info: ProjectInfo, f: Features, year: string): (data: map<Key, Value>)
    ensures forall k :: k in data ==> data[k] != Flag(false)
  {
    OmitFalse(Fields(info, f, year))
  }

  /** The template data keeps every string field, with its value, and has a
      feature's flag, set to true, exactly when the feature is on. */
  lemma TemplateDataKeepsTextDropsFalseFlags(info: ProjectInfo, f: Features, year: string)
    ensures forall field :: TextKey(field) in TemplateDataFor(info, f, year)
    ensures forall field :: TemplateDataFor(info, f, year)[TextKey(field)] == Text(TextOf(info, year, field))
    ensures forall t :: FlagKey(t) in TemplateDataFor(info, f, year) <==> f.Has(t)
    ensures forall t :: FlagKey(t) in TemplateDataFor(info, f, year) ==> TemplateDataFor(info, f, year)[FlagKey(t)] == Flag(true)
  {
    var m := Fields(info, f, year);
  }

  /** `WikiProjectConfig`, written to `wiki/project-config.json`. */
  datatype WikiProjectConfig = WikiProjectConfig(
    title: string, packageName: string, author: string, url: string,
    repoOrg: string, repoProject: string, api: bool)

  /** The wiki config describes the same package and repository as the
      template data. */
  function WikiConfigFor(info: ProjectInfo, f: Features): (c: WikiProjectConfig)
    ensures c.packageName == Names.PackageName(c.title) && c.title == info.projectName
    ensures c.repoOrg == info.repoOrg && c.repoProject == info.repoName
    ensures c.author == info.projectAuthor && c.api == f.api && c.url == "TODO()"
  {
    WikiProjectConfig(info.projectName, Names.PackageName(info.projectName), info.projectAuthor, "TODO()",
                      info.repoOrg, info.repoName, f.api)
  }

  /** The wiki config is written only with a wiki, and there is no wiki
      without an API, so a written config always says the API is on. */
  lemma WrittenWikiConfigHasApi(info: ProjectInfo, a: Answers)
    requires Choose(a).wiki
    ensures WikiConfigFor(info, Choose(a)).api
  {
  }
}
