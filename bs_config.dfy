/** The rewrite of `bs.config.json` at the end of `main` in `src/index.ts`:
    the parsed config is pruned in place, field by field, to match the chosen
    features. The config is taken as already parsed; reading and writing the
    file and the JSON text are not modelled. */
module BsConfig {
  import opened Wrappers
  import opened Features

  /** A parsed JSON value. Numbers are kept abstract as integers. */
  datatype Json =
    | Null
    | Bool(b: bool)
    | Number(n: int)
    | Str(s: string)
    | Array(items: seq<Json>)
    | Object(fields: map<string, Json>)

  /** The `TypeError` JavaScript throws on `config[section][property] = ...`
      when `config[section]` is undefined, null or a primitive (the module
      code runs in strict mode). */
  datatype TypeError = CannotSetProperty(section: string, property: string)

  /** `config[section][property] = ...` does not throw: the section is an
      object or an array. */
  predicate CanSetIn(root: map<string, Json>, section: string) {
    section in root && (root[section].Object? || root[section].Array?)
  }

  /** `value[property] = v` as `JSON.stringify` then sees it: `None` stands
      for `undefined`, which is the same as an absent property, and a named
      property of an array is not serialised at all. */
  function SetProperty(value: Json, property: string, v: Option<Json>): (r: Json)
    ensures value.Object? ==> r.Object? && r.fields - {property} == value.fields - {property}
    ensures value.Object? && v.None? ==> property !in r.fields
    ensures value.Object? && v.Some? ==> property in r.fields && r.fields[property] == v.value
    ensures !value.Object? ==> r == value
  {
    match value
    case Object(fields) =>
      Object(match v
        case None => fields - {property}
        case Some(x) => fields[property := x])
    case _ => value
  }

  /** The config object, changed in place as `main` does. */
  class Config {
    var root: map<string, Json>

    constructor (parsed: map<string, Json>)
      ensures root == parsed
    {
      root := parsed;
    }

    /** `config[section][property] = v`; on a `TypeError` nothing changes. */
    method Assign(section: string, property: string, v: Option<Json>) returns (err: Option<TypeError>)
      modifies this
      ensures err.None? <==> CanSetIn(old(root), section)
      ensures err.Some? ==> err.value == CannotSetProperty(section, property) && root == old(root)
      ensures err.None? ==> root == old(root)[section := SetProperty(old(root)[section], property, v)]
    {
      if section in root && (root[section].Object? || root[section].Array?) {
        root := root[section := SetProperty(root[section], property, v)];
        err := None;
      } else {
        err := Some(CannotSetProperty(section, property));
      }
    }

    /** `config[section] = undefined`: the section disappears from the file. */
    method Remove(section: string)
      modifies this
      ensures root == old(root) - {section}
    {
      root := root - {section};
    }

    /** The pruning of `main`, in the source's order. It stops at the first
        `TypeError`; `main` then fails and the config is not written, so the
        state it leaves behind is not specified. */
    method Prune(f: Features) returns (err: Option<TypeError>)
      modifies this
      ensures err == PruneError(old(root), f)
      ensures err.None? ==> root == Pruned(old(root), f)
    {
      ghost var original := root;
      if !f.rollup {
        err := Assign("api", "rollup", None);
        if err.Some? {
          return;
        }
        err := Assign("api", "transformers", None);
        err := Assign("global", "rollup", Some(Bool(false)));
        if err.Some? {
          return;
        }
      }
      ghost var afterRollup := root;
      assert CanSetIn(afterRollup, "docs") == CanSetIn(original, "docs");
      assert CanSetIn(afterRollup, "global") == CanSetIn(original, "global");
      if !f.api {
        Remove("api");
        err := Assign("docs", "apiFolder", None);
        if err.Some? {
          return;
        }
      }
      ghost var afterApi := root;
      assert CanSetIn(afterApi, "global") == CanSetIn(original, "global");
      if !f.wiki {
        Remove("docs");
        err := Assign("global", "docs", Some(Bool(false)));
        if err.Some? {
          return;
        }
      }
      ghost var afterWiki := root;
      if !f.tests {
        Remove("tests");
      }
      err := None;
      assert PruneStates(original, afterRollup, afterApi, afterWiki, root, f);
      PruneSteps(original, afterRollup, afterApi, afterWiki, root, f);
    }
  }

  /** The first assignment of the pruning that throws, in the source's order:
      without rollup, `api` and `global` must be objects; without an API,
      `docs` must be; without a wiki, `global` must be. */
  function PruneError(root: map<string, Json>, f: Features): Option<TypeError> {
    if !f.rollup && !CanSetIn(root, "api") then Some(CannotSetProperty("api", "rollup"))
    else if !f.rollup && !CanSetIn(root, "global") then Some(CannotSetProperty("global", "rollup"))
    else if !f.api && !CanSetIn(root, "docs") then Some(CannotSetProperty("docs", "apiFolder"))
    else if !f.wiki && !CanSetIn(root, "global") then Some(CannotSetProperty("global", "docs"))
    else None
  }

  /** The top-level sections dropped: `api` without an API, `docs` without a
      wiki and `tests` without tests. */
  function DroppedSections(f: Features): set<string> {
    (if f.api then {} else {"api"}) + (if f.wiki then {} else {"docs"}) + (if f.tests then {} else {"tests"})
  }

  /** What becomes of a kept section. */
  function PrunedSection(key: string, value: Json, f: Features): Json {
    if key == "api" && !f.rollup then
      SetProperty(SetProperty(value, "rollup", None), "transformers", None)
    else if key == "docs" && !f.api then
      SetProperty(value, "apiFolder", None)
    else if key == "global" then
      var v := if f.rollup then value else SetProperty(value, "rollup", Some(Bool(false)));
      if f.wiki then v else SetProperty(v, "docs", Some(Bool(false)))
    else value
  }

  /** The pruned config, section by section. */
  function Pruned(root: map<string, Json>, f: Features): map<string, Json> {
    map k | k in root && k !in DroppedSections(f) :: PrunedSection(k, root[k], f)
  }

  /** The states of the config after each of the four steps of `Prune`,
      when none of them throws. */
  ghost predicate PruneStates(
    original: map<string, Json>, afterRollup: map<string, Json>, afterApi: map<string, Json>,
    afterWiki: map<string, Json>, final: map<string, Json>, f: Features)
  {
    && PruneError(original, f).None?
    && afterRollup == (if f.rollup then original else
      var a := original["api" := SetProperty(original["api"], "rollup", None)];
      var b := a["api" := SetProperty(a["api"], "transformers", None)];
      b["global" := SetProperty(b["global"], "rollup", Some(Bool(false)))])
    && afterApi == (if f.api then afterRollup else
      var a := afterRollup - {"api"};
      a["docs" := SetProperty(a["docs"], "apiFolder", None)])
    && afterWiki == (if f.wiki then afterApi else
      var a := afterApi - {"docs"};
      a["global" := SetProperty(a["global"], "docs", Some(Bool(false)))])
    && final == (if f.tests then afterWiki else afterWiki - {"tests"})
  }

  /** The four steps of `Prune` compose to `Pruned`. */
  lemma PruneSteps(
    original: map<string, Json>, afterRollup: map<string, Json>, afterApi: map<string, Json>,
    afterWiki: map<string, Json>, final: map<string, Json>, f: Features)
    requires PruneStates(original, afterRollup, afterApi, afterWiki, final, f)
    ensures final == Pruned(original, f)
  {
    PruneStepsKeys(original, afterRollup, afterApi, afterWiki, final, f);
    PruneStepsValues(original, afterRollup, afterApi, afterWiki, final, f);
  }

  /** The steps drop exactly the sections of `DroppedSections`. */
  lemma PruneStepsKeys(
    original: map<string, Json>, afterRollup: map<string, Json>, afterApi: map<string, Json>,
    afterWiki: map<string, Json>, final: map<string, Json>, f: Features)
    requires PruneStates(original, afterRollup, afterApi, afterWiki, final, f)
    ensures forall k :: k in final <==> k in original && k !in DroppedSections(f)
  {
    assert afterRollup.Keys == original.Keys;
  }

  /** Each kept section ends as `PrunedSection` makes it. */
  lemma PruneStepsValues(
    original: map<string, Json>, afterRollup: map<string, Json>, afterApi: map<string, Json>,
    afterWiki: map<string, Json>, final: map<string, Json>, f: Features)
    requires PruneStates(original, afterRollup, afterApi, afterWiki, final, f)
    requires forall k :: k in final <==> k in original && k !in DroppedSections(f)
    ensures forall k :: k in final ==> final[k] == PrunedSection(k, original[k], f)
  {
    forall k | k in final
      ensures final[k] == PrunedSection(k, original[k], f)
    {
      if k == "api" {
        assert final[k] == afterRollup[k];
      } else if k == "docs" {
        assert final[k] == afterApi[k];
        assert afterRollup[k] == original[k];
      } else if k == "global" {
        assert afterApi[k] == afterRollup[k];
      } else {
        assert final[k] == original[k];
      }
    }
  }

  /** Which top-level sections survive: `api` only with an API, `docs` only
      with a wiki, `tests` only with tests; `global` and every other section
      stay, the others unchanged. */
  lemma PruneKeepsSections(root: map<string, Json>, f: Features)
    requires PruneError(root, f).None?
    ensures var r := Pruned(root, f);
      && ("api" in r <==> "api" in root && f.api)
      && ("docs" in r <==> "docs" in root && f.wiki)
      && ("tests" in r <==> "tests" in root && f.tests)
      && ("global" in r <==> "global" in root)
    ensures var r := Pruned(root, f);
      forall k :: k !in {"api", "docs", "global", "tests"} ==> (k in r <==> k in root) && (k in r ==> r[k] == root[k])
  {
  }

  /** Without rollup, `api.rollup` and `api.transformers` go and the other
      fields of `api` stay. */
  lemma PruneApiSection(root: map<string, Json>, f: Features)
    requires PruneError(root, f).None?
    requires "api" in Pruned(root, f) && !f.rollup && root["api"].Object?
    ensures var api := Pruned(root, f)["api"];
      && api.Object?
      && "rollup" !in api.fields && "transformers" !in api.fields
      && api.fields - {"rollup", "transformers"} == root["api"].fields - {"rollup", "transformers"}
  {
    var api := Pruned(root, f)["api"];
    var once := SetProperty(root["api"], "rollup", None);
    assert api == SetProperty(once, "transformers", None);
    assert once.fields - {"rollup", "transformers"} == root["api"].fields - {"rollup", "transformers"};
  }

  /** Without an API, `main` never has a wiki, so `docs` is dropped right
      after its `apiFolder` is cleared. Clearing it still demands a `docs`
      object or array: a config without one fails with the `TypeError` on
      `docs.apiFolder`, once `api` and `global` have passed. */
  lemma PruneDocsSection(root: map<string, Json>, f: Features)
    requires Consistent(f) && !f.api
    ensures "api" !in Pruned(root, f) && "docs" !in Pruned(root, f)
    ensures PruneError(root, f).None? ==> CanSetIn(root, "docs")
    ensures CanSetIn(root, "api") && CanSetIn(root, "global") && !CanSetIn(root, "docs") ==>
      PruneError(root, f) == Some(CannotSetProperty("docs", "apiFolder"))
  {
  }

  /** `global.rollup` is false without rollup and `global.docs` false without
      a wiki; the other fields of `global` stay. */
  lemma PruneGlobalSection(root: map<string, Json>, f: Features)
    requires PruneError(root, f).None?
    requires "global" in Pruned(root, f) && root["global"].Object?
    ensures var global := Pruned(root, f)["global"];
      && global.Object?
      && (!f.rollup ==> "rollup" in global.fields && global.fields["rollup"] == Bool(false))
      && (!f.wiki ==> "docs" in global.fields && global.fields["docs"] == Bool(false))
      && global.fields - {"rollup", "docs"} == root["global"].fields - {"rollup", "docs"}
  {
    var g := root["global"];
    var once := if f.rollup then g else SetProperty(g, "rollup", Some(Bool(false)));
    assert once.fields - {"rollup", "docs"} == g.fields - {"rollup", "docs"};
  }

  /** The pruning only fails when a section it touches is missing or is
      neither an object nor an array; the template's config has all three. */
  lemma PruneSucceedsOnObjectSections(root: map<string, Json>, f: Features)
    requires "api" in root && root["api"].Object?
    requires "docs" in root && root["docs"].Object?
    requires "global" in root && root["global"].Object?
    ensures PruneError(root, f).None?
  {
  }

  /** With an API, pruning a pruned config again changes nothing. */
  lemma PruneIsIdempotentWithApi(root: map<string, Json>, f: Features)
    requires PruneError(root, f).None? && f.api
    ensures PruneError(Pruned(root, f), f).None?
    ensures Pruned(Pruned(root, f), f) == Pruned(root, f)
  {
    var r := Pruned(root, f);
    var rr := Pruned(r, f);
    forall k | k in r
      ensures PrunedSection(k, r[k], f) == r[k]
    {
      if k == "api" && !f.rollup {
        SetPropertyAgain(root[k], "rollup", "transformers");
      } else if k == "global" {
        SetFalseAgain(root[k], f);
      }
    }
    assert rr.Keys == r.Keys;
  }

  /** Removing two properties a second time changes nothing. */
  lemma SetPropertyAgain(value: Json, p: string, q: string)
    ensures var once := SetProperty(SetProperty(value, p, None), q, None);
      SetProperty(SetProperty(once, p, None), q, None) == once
  {
    if value.Object? {
      var once := SetProperty(SetProperty(value, p, None), q, None);
      assert once.fields - {p} - {q} == once.fields;
    }
  }

  /** Setting `global.rollup` and `global.docs` to false a second time
      changes nothing. */
  lemma SetFalseAgain(value: Json, f: Features)
    ensures PrunedSection("global", PrunedSection("global", value, f), f) == PrunedSection("global", value, f)
  {
    if value.Object? {
      var once := PrunedSection("global", value, f);
      var twice := PrunedSection("global", once, f);
      assert twice.fields == once.fields;
    }
  }
}
