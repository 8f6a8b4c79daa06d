/** The feature toggles chosen in `main` of `src/index.ts`: which yes/no
    prompts are shown and how the answers are combined into the features the
    generated library gets. */
module Features {

  /** The answer the user gives to each yes/no prompt when it is shown. An
      answer to a prompt that is not shown is never read. */
  datatype Answers = Answers(api: bool, wiki: bool, rollup: bool, tests: bool, logo: bool, lua: bool)

  /** One feature toggle; the order is that of the template data. */
  datatype Toggle = Tests | Api | Logo | Lua | Wiki | Rollup

  /** The features of the generated library. */
  datatype Features = Features(api: bool, wiki: bool, rollup: bool, tests: bool, logo: bool, lua: bool) {
    predicate Has(t: Toggle) {
      match t
      case Tests => tests
      case Api => api
      case Logo => logo
      case Lua => lua
      case Wiki => wiki
      case Rollup => rollup
    }
  }

  /** The yes/no prompts of `main`. */
  datatype Prompt = ApiPrompt | WikiPrompt | RollupPrompt | TestsPrompt | LogoPrompt | LuaPrompt

  /** The position of a prompt in the source's sequence of questions. */
  function Rank(p: Prompt): nat {
    match p
    case ApiPrompt => 0
    case WikiPrompt => 1
    case RollupPrompt => 2
    case TestsPrompt => 3
    case LogoPrompt => 4
    case LuaPrompt => 5
  }

  function AnswerTo(a: Answers, p: Prompt): bool {
    match p
    case ApiPrompt => a.api
    case WikiPrompt => a.wiki
    case RollupPrompt => a.rollup
    case TestsPrompt => a.tests
    case LogoPrompt => a.logo
    case LuaPrompt => a.lua
  }

  /** The rules between the toggles: no wiki and no rollup without an API, and
      a wiki needs a logo. */
  predicate Consistent(f: Features) {
    && (f.wiki ==> f.api)
    && (f.rollup ==> f.api)
    && (f.wiki ==> f.logo)
  }

  /** The prompts `main` shows, in order: wiki and rollup only after a yes to
      the API, and the logo only when there will be no wiki. */
  function Prompts(a: Answers): (ps: seq<Prompt>)
    ensures 3 <= |ps| && ps[0] == ApiPrompt && ps[|ps| - 1] == LuaPrompt
    ensures TestsPrompt in ps
    ensures WikiPrompt in ps <==> a.api
    ensures RollupPrompt in ps <==> a.api
    ensures LogoPrompt in ps <==> !(a.api && a.wiki)
    ensures forall i, j :: 0 <= i < j < |ps| ==> Rank(ps[i]) < Rank(ps[j])
  {
    [ApiPrompt] + (if a.api then [WikiPrompt, RollupPrompt] else []) + [TestsPrompt]
    + (if a.api && a.wiki then [] else [LogoPrompt]) + [LuaPrompt]
  }

  /** The features `main` settles on. */
  function Choose(a: Answers): (f: Features)
    ensures Consistent(f)
    ensures f.api == a.api && f.tests == a.tests && f.lua == a.lua
    ensures f.api ==> f.wiki == a.wiki && f.rollup == a.rollup
    ensures !f.wiki ==> f.logo == a.logo
  {
    var api := a.api;
    var wiki := if api then a.wiki else false;
    var rollup := if api then a.rollup else false;
    var logo := if wiki then true else a.logo;
    Features(api, wiki, rollup, a.tests, logo, a.lua)
  }

  /** Only the answers to the prompts shown decide the outcome: two users who
      answer every shown prompt alike see the same prompts and get the same
      features. */
  lemma OnlyShownPromptsMatter(a: Answers, b: Answers)
    requires forall p :: p in Prompts(a) ==> AnswerTo(a, p) == AnswerTo(b, p)
    ensures Prompts(b) == Prompts(a)
    ensures Choose(b) == Choose(a)
  {
    assert AnswerTo(a, ApiPrompt) == AnswerTo(b, ApiPrompt);
    assert AnswerTo(a, TestsPrompt) == AnswerTo(b, TestsPrompt);
    assert AnswerTo(a, LuaPrompt) == AnswerTo(b, LuaPrompt);
    if a.api {
      assert AnswerTo(a, WikiPrompt) == AnswerTo(b, WikiPrompt);
      assert AnswerTo(a, RollupPrompt) == AnswerTo(b, RollupPrompt);
    }
    if !(a.api && a.wiki) {
      assert AnswerTo(a, LogoPrompt) == AnswerTo(b, LogoPrompt);
    }
  }

  /** The rules are all there is: every consistent selection of features is
      what some user can get. */
  lemma EveryConsistentSelectionIsReachable(f: Features)
    requires Consistent(f)
    ensures exists a :: Choose(a) == f
  {
    assert Choose(Answers(f.api, f.wiki, f.rollup, f.tests, f.logo, f.lua)) == f;
  }
}
