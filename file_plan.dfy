/** Which paths `main` of `src/index.ts` removes from the cloned template and
    which it creates or writes afterwards. Only the paths are modelled: the
    filesystem calls themselves are not. */
module FilePlan {
  import opened Constants
  import opened Features

  /** The entry of `FeatureFiles` for a toggle. Only api, wiki, tests and lua
      have one; logo and rollup have no files of their own. */
  function FeatureFiles(t: Toggle): seq<string> {
    match t
    case Api => API_FILES
    case Wiki => WIKI_FILES
    case Tests => TEST_FILES
    case Lua => LUA_FILES
    case Logo => []
    case Rollup => []
  }

  predicate Distinct(s: seq<string>) {
    forall i, j :: 0 <= i < j < |s| ==> s[i] != s[j]
  }

  /** `p` belongs to a feature the library does not get. */
  ghost predicate Removed(f: Features, p: string) {
    exists t :: !f.Has(t) && p in FeatureFiles(t)
  }

  /** The deletion list of `main`: the files of every disabled feature, each
      once, and nothing else. */
  method ScheduleRemovals(f: Features) returns (paths: seq<string>)
    ensures forall p :: p in paths <==> Removed(f, p)
    ensures Distinct(paths)
  {
    FeatureListsDisjoint();
    paths := [];
    if !f.api {
      paths := paths + API_FILES;
    }
    assert forall p :: p in paths <==> !f.api && p in API_FILES;
    assert Distinct(paths);
    if !f.wiki {
      DistinctAppend(paths, WIKI_FILES);
      paths := paths + WIKI_FILES;
    }
    assert forall p :: p in paths <==> (!f.api && p in API_FILES) || (!f.wiki && p in WIKI_FILES);
    if !f.tests {
      DistinctAppend(paths, TEST_FILES);
      paths := paths + TEST_FILES;
    }
    assert forall p :: p in paths <==> (!f.api && p in API_FILES) || (!f.wiki && p in WIKI_FILES)
                                       || (!f.tests && p in TEST_FILES);
    if !f.lua {
      DistinctAppend(paths, LUA_FILES);
      paths := paths + LUA_FILES;
    }
    forall p
      ensures p in paths <==> Removed(f, p)
    {
      RemovedCases(f, p);
    }
  }

  /** `a` and `b` share no element. */
  predicate Disjoint(a: seq<string>, b: seq<string>) {
    forall x :: x in a ==> x !in b
  }

  lemma DistinctAppend(a: seq<string>, b: seq<string>)
    requires Distinct(a) && Distinct(b) && Disjoint(a, b)
    ensures Distinct(a + b)
  {
    forall i, j | 0 <= i < j < |a + b|
      ensures (a + b)[i] != (a + b)[j]
    {
      if i < |a| && |a| <= j {
        assert (a + b)[i] in a && (a + b)[j] in b;
      }
    }
  }

  /** Each list of `FeatureFiles` is free of repeats, and no two share a
      path. */
  lemma FeatureListsDisjoint()
    ensures Distinct(API_FILES) && Distinct(WIKI_FILES) && Distinct(TEST_FILES) && Distinct(LUA_FILES)
    ensures Disjoint(API_FILES, WIKI_FILES) && Disjoint(API_FILES, TEST_FILES) && Disjoint(API_FILES, LUA_FILES)
    ensures Disjoint(WIKI_FILES, TEST_FILES) && Disjoint(WIKI_FILES, LUA_FILES) && Disjoint(TEST_FILES, LUA_FILES)
  {
    forall t: Toggle, u: Toggle, p | t != u && p in FeatureFiles(t)
      ensures p !in FeatureFiles(u)
    {
      FeatureFilesDisjoint(t, u, p);
    }
    assert WIKI_FILES == FeatureFiles(Wiki) && TEST_FILES == FeatureFiles(Tests);
    assert API_FILES == FeatureFiles(Api) && LUA_FILES == FeatureFiles(Lua);
  }

  /** `Removed` spelt out feature by feature. */
  lemma RemovedCases(f: Features, p: string)
    ensures Removed(f, p) <==> || (!f.api && p in API_FILES) || (!f.wiki && p in WIKI_FILES)
                               || (!f.tests && p in TEST_FILES) || (!f.lua && p in LUA_FILES)
  {
    if !f.api && p in API_FILES {
      assert !f.Has(Api) && p in FeatureFiles(Api);
    } else if !f.wiki && p in WIKI_FILES {
      assert !f.Has(Wiki) && p in FeatureFiles(Wiki);
    } else if !f.tests && p in TEST_FILES {
      assert !f.Has(Tests) && p in FeatureFiles(Tests);
    } else if !f.lua && p in LUA_FILES {
      assert !f.Has(Lua) && p in FeatureFiles(Lua);
    }
  }

  /** No path is listed for two features. */
  lemma FeatureFilesDisjoint(t: Toggle, u: Toggle, p: string)
    requires t != u && p in FeatureFiles(t)
    ensures p !in FeatureFiles(u)
  {
  }

  /** A path of `FeatureFiles` is removed exactly when its feature is off. */
  lemma RemovedExactlyWhenOff(f: Features, t: Toggle, p: string)
    requires p in FeatureFiles(t)
    ensures Removed(f, p) <==> !f.Has(t)
  {
    if Removed(f, p) {
      var u :| !f.Has(u) && p in FeatureFiles(u);
      if u != t {
        FeatureFilesDisjoint(t, u, p);
      }
    }
  }

  /** Logo and rollup never cause a removal: the deletions depend on api,
      wiki, tests and lua alone. */
  lemma LogoAndRollupRemoveNothing(f: Features, g: Features, p: string)
    requires f.api == g.api && f.wiki == g.wiki && f.tests == g.tests && f.lua == g.lua
    ensures Removed(f, p) <==> Removed(g, p)
  {
    if Removed(f, p) {
      var t :| !f.Has(t) && p in FeatureFiles(t);
      assert !g.Has(t);
    }
    if Removed(g, p) {
      var t :| !g.Has(t) && p in FeatureFiles(t);
      assert !f.Has(t);
    }
  }

  /** A template is rendered when it is in `TemplateFiles.all`, or in
      `TemplateFiles.api` and the library has an API. */
  predicate Rendered(f: Features, p: string) {
    p in ALL_TEMPLATES || (f.api && p in API_TEMPLATES)
  }

  /** The list of templates `main` renders, each once. */
  method CollectTemplates(f: Features) returns (files: seq<string>)
    ensures forall p :: p in files <==> Rendered(f, p)
    ensures Distinct(files)
  {
    files := [];
    files := files + ALL_TEMPLATES;
    if f.api {
      files := files + API_TEMPLATES;
    }
  }

  const API_DIR: string := "api"
  const WIKI_CONFIG_PATH: string := "wiki/project-config.json"
  const BS_CONFIG_PATH: string := "bs.config.json"

  /** What `main` creates after the removals: the `api` directory and the
      API template when there is an API, every other template, the wiki's
      project config when there is a wiki, and the rewritten `bs.config.json`. */
  predicate Created(f: Features, p: string) {
    || (f.api && p == API_DIR)
    || Rendered(f, p)
    || (f.wiki && p == WIKI_CONFIG_PATH)
    || p == BS_CONFIG_PATH
  }

  /** `p` is `d` or lies inside the directory `d`. */
  predicate Under(p: string, d: string) {
    p == d || (|d| < |p| && p[|d|] == '/' && p[..|d|] == d)
  }

  /** Nothing `main` creates is removed again or lies inside a removed
      directory: a path is only created for a feature that is on, and only
      removed for one that is off. */
  lemma CreatedPathsSurvive(f: Features, p: string, d: string)
    requires Created(f, p) && Removed(f, d)
    ensures !Under(p, d)
  {
    RemovedCases(f, d);
    if p in ALL_TEMPLATES || p == BS_CONFIG_PATH {
      if d in API_FILES {
        CommonPathsOutsideApi(p, d);
      } else if d in WIKI_FILES {
        CommonPathsOutsideWiki(p, d);
      } else if d in TEST_FILES {
        CommonPathsOutsideTests(p, d);
      } else {
        CommonPathsOutsideLua(p, d);
      }
    } else if p == API_DIR || p in API_TEMPLATES {
      ApiPathsOutsideOthers(p, d);
    } else {
      assert p == WIKI_CONFIG_PATH;
      WikiConfigOutsideOthers(d);
    }
  }

  lemma CommonPathsOutsideApi(p: string, d: string)
    requires p in ALL_TEMPLATES || p == BS_CONFIG_PATH
    requires d in API_FILES
    ensures !Under(p, d)
  {
  }

  lemma CommonPathsOutsideWiki(p: string, d: string)
    requires p in ALL_TEMPLATES || p == BS_CONFIG_PATH
    requires d in WIKI_FILES
    ensures !Under(p, d)
  {
  }

  lemma CommonPathsOutsideTests(p: string, d: string)
    requires p in ALL_TEMPLATES || p == BS_CONFIG_PATH
    requires d in TEST_FILES
    ensures !Under(p, d)
  {
  }

  lemma CommonPathsOutsideLua(p: string, d: string)
    requires p in ALL_TEMPLATES || p == BS_CONFIG_PATH
    requires d in LUA_FILES
    ensures !Under(p, d)
  {
  }

  /** The `api` directory and the API template lie outside the files of
      the other features. */
  lemma ApiPathsOutsideOthers(p: string, d: string)
    requires p == API_DIR || p in API_TEMPLATES
    requires d in WIKI_FILES || d in TEST_FILES || d in LUA_FILES
    ensures !Under(p, d)
  {
  }

  /** The wiki's project config lies outside the files of the other
      features. */
  lemma WikiConfigOutsideOthers(d: string)
    requires d in API_FILES || d in TEST_FILES || d in LUA_FILES
    ensures !Under(WIKI_CONFIG_PATH, d)
  {
  }
}
