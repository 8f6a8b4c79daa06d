# create-rbxts-library, modelled in Dafny

`create-rbxts-library` is a command-line tool that scaffolds a new roblox-ts
library. It asks for a name, an author, a GitHub repository and a set of
features, clones a template repository, deletes the files of the features
the user does not want, renders the templates, and prunes the template's
`bs.config.json` to match.

Two parts of it are sequential logic, and this project models them:

- `retry` (`src/util/retry.ts`), module `Retry` in `retry.dfy`. This is a
  do-while loop that calls a fallible callback until it succeeds or runs out
  of attempts or time, and sleeps after every failure.
  - The callback is an oracle: `callback(i)` is the outcome of call `i`.
  - Each call and each sleep is logged as an event in a ghost trace.
  - The method `Retry.Retry` keeps the source's loop and mutable locals. It
    is proved equal to a loop-free specification, `Retry.Expected`. The
    counting rules are proved about that specification: how many calls are
    made, which error is thrown, and how long it sleeps.
- The decisions inside `main` (`src/index.ts`):
  - `features.dfy`: which yes/no prompts are shown, and how the answers
    imply one another.
  - `file_plan.dfy`: which template paths are deleted, which templates are
    rendered, and what is created afterwards.
  - `template_data.dfy`: the data handed to the templates, and the wiki's
    project config.
  - `names.dfy`: the derived names and URLs, the repository-name check, and
    the defaults offered from the git config.
  - `bs_config.dfy`: the in-place pruning of the parsed `bs.config.json`.
    This is a `Config` class whose `Prune` method assigns the fields in
    source order. It is proved against a declarative `Pruned` map.
- The supporting modules:
  - `constants.dfy` holds the lists of `src/util/constants.ts` as data.
  - `wrappers.dfy` holds `Option`.

## Model

| member | source | states |
|---|---|---|
| Retry.Expected | src/util/retry.ts:28-50 | The loop-free specification of a run. It returns a value exactly when some call within the attempt budget succeeds. |
| Retry.Resolve | src/util/retry.ts:29-31 | The defaults. An absent timeout is 5000 and an absent delay is 100. An absent `retries` is `MAX_SAFE_INTEGER` unless the timeout is 0, and then it is 10. Given values are kept. |
| Retry.Attempts | src/util/retry.ts:45-48 | With every call failing, the number of calls is the least n ≥ 1 at which `n >= retries` or `n * delay >= timeout`. It is never more than max(retries, 1). |
| Retry.TimeSleptAfterIsProduct | src/util/retry.ts:36-46 | After k failed iterations, `timeSlept`, which starts at 0 and grows by `delay` each time, equals k × delay. |
| Retry.ContinuesBelowAttempts | src/util/retry.ts:45-48 | If the loop guard held after each of the first k failed calls, then k is below the number of attempts. |
| Retry.BelowAttemptsContinues | src/util/retry.ts:45-48 | Conversely, below the number of attempts the guard held after every failed call. |
| Retry.FirstSuccess | src/util/retry.ts:39-44 | The index of the first successful call among the first n, or n. Every earlier call failed. |
| Retry.FailedAttempts | src/util/retry.ts:38-48 | The trace of k failed iterations has 2k events. Event 2i is call i, and event 2i+1 is the sleep after it. |
| Retry.ExpectedOnSuccess | src/util/retry.ts:39-41 | When call k is the first success within the budget, the run returns its value after k failed iterations and one more call. |
| Retry.ExpectedOnExhaustion | src/util/retry.ts:45-50 | When the loop stops after k failed calls, k is the number of attempts and the error of call k-1 is thrown. |
| Retry.FailedAttemptsTotals | src/util/retry.ts:45-47 | k failed iterations make k calls and k sleeps, k × delay milliseconds in all. |
| Retry.Retry | src/util/retry.ts:28-51 | The do-while loop returns exactly the outcome and trace of `Expected`. It terminates because `attemptsLeft` decreases. |
| Retry.CallbackRunsAtLeastOnce | src/util/retry.ts:38-48 | The callback is called at least once, even with `retries <= 0` or `timeout <= 0`. |
| Retry.SuccessIsReturned | src/util/retry.ts:39-41 | If call k is the first success within the budget, its value is returned. Calls 0..k were made in order, one sleep follows each earlier failure, and nothing follows the success: k+1 calls and k sleeps. |
| Retry.ExhaustionThrowsLastError | src/util/retry.ts:43-50 | When every allowed call fails, the last call's error is thrown. The calls run in order, and there is one sleep after every call, the last included. So there are as many sleeps as calls, and the time slept is attempts × delay. |
| Retry.AttemptsIsLeast | src/util/retry.ts:45-48 | Any m ≥ 1 at which the loop stops, and before which it does not, is the number of attempts. |
| Retry.AttemptsWithPositiveDelay | src/util/retry.ts:45-48 | With delay > 0 and timeout > 0, the number of attempts is min(max(retries, 1), ⌈timeout / delay⌉). |
| Retry.AllDefaultsTryFiftyTimes | src/util/retry.ts:29-31 | With no options, an always-failing callback is called exactly 50 times. The 50th error is thrown after 5000 ms of sleeps. |
| Retry.ZeroTimeoutMakesOneAttempt | src/util/retry.ts:30 | A timeout of 0 with delay ≥ 0 makes exactly one call, although `retries` defaults to 10. |
| Retry.TimeoutBoundsAttempts | src/util/retry.ts:46-48 | With unbounded retries, delay 100 and timeout 250, there are 3 calls. |
| Features.Prompts | src/index.ts:136-143 | The prompts shown, in the source's order (API, wiki, rollup, tests, logo, lua), none twice. API comes first and Lua last. Wiki and rollup appear exactly when the API answer is yes. Logo appears exactly when there will be no wiki. Tests and Lua always appear. |
| Features.Choose | src/index.ts:136-143 | Wiki and rollup are false without an API, and otherwise they are the answers. Logo is true with a wiki, and otherwise it is the answer. API, tests and lua are the answers. The result is always `Consistent`. |
| Features.OnlyShownPromptsMatter | src/index.ts:136-143 | Two users who answer every shown prompt alike see the same prompts and get the same features. |
| Features.EveryConsistentSelectionIsReachable | src/index.ts:136-143 | Every selection that satisfies the implications can be chosen by some user. |
| FilePlan.ScheduleRemovals | src/index.ts:165-170 | The deletion list holds exactly the files of the disabled features among api, wiki, tests and lua, each once. |
| FilePlan.FeatureListsDisjoint | src/util/constants.ts:28-33 | Each `FeatureFiles` list is free of repeats, and no two lists share a path. |
| FilePlan.RemovedCases | src/index.ts:165-170 | A path is removed exactly when it is in the list of a disabled feature, spelt out feature by feature. |
| FilePlan.FeatureFilesDisjoint | src/util/constants.ts:28-33 | No path belongs to two features. |
| FilePlan.RemovedExactlyWhenOff | src/index.ts:165-170 | A path of feature f's list is removed exactly when f is off. |
| FilePlan.LogoAndRollupRemoveNothing | src/index.ts:165-170 | Logo and rollup never change what is removed. |
| FilePlan.CollectTemplates | src/index.ts:197-203 | The rendered files are exactly `TemplateFiles.all`, plus `TemplateFiles.api` when the API is on, each once. |
| FilePlan.CreatedPathsSurvive | src/index.ts:165-250 | No path created later lies in or under a removed path. This covers the `api` directory, the rendered templates, the wiki config and `bs.config.json`. |
| TemplateData.Fields | src/index.ts:177-193 | The object literal holds every string field with its value, and every feature flag set to whether the feature is on. |
| TemplateData.TemplateDataFor | src/index.ts:177-195 | After `omitBy(it => it === false)`, no value the templates see is the boolean false. |
| TemplateData.TemplateDataKeepsTextDropsFalseFlags | src/index.ts:177-195 | The template data keeps every string field with its value. A feature flag is present, and true, exactly when the feature is on. |
| TemplateData.WikiConfigFor | src/index.ts:209-221 | The wiki config names the package of its title, the same author, the org and repository name of the template data as they are, the API flag of the features, and the placeholder URL `TODO()`. |
| TemplateData.WrittenWikiConfigHasApi | src/index.ts:209-225 | The wiki config is only written with a wiki, so it always says the API is on. |
| Names.PackageName | src/index.ts:109 | The package name is `@rbxts`, a `/`, then the project name, which can be read back from it. |
| Names.IndexOf | src/index.ts:128 | The position of the first occurrence of a character, or the length. |
| Names.ReplaceFirst | src/index.ts:128 | A one-character `String.replace` leaves a string without the pattern unchanged. Otherwise it removes one character and inserts the replacement. |
| Names.ReplaceFirstSplits | src/index.ts:128 | `String.replace` with a one-character pattern replaces only the first occurrence and keeps the rest, later occurrences included. |
| Names.DefaultRepoName | src/index.ts:128 | `replace("@", "").replace("/", "-")` leaves a name without `@` and `/` unchanged. |
| Names.DefaultRepoNameOfScoped | src/index.ts:128 | `@scope/name` becomes `scope-name` when the scope has no `/`, even when the name has `/` or `@`. |
| Names.DefaultRepoNameOfPackage | src/index.ts:109-128 | The default repository name of `@rbxts/foo` is `rbxts-foo`, whatever `foo` holds. |
| Names.RepoShort | src/index.ts:184 | The short name is the org, a `/`, then the repository name. Both parts can be read back from it. |
| Names.RepoUrlIsInjective | src/index.ts:145 | With valid orgs, the URL `https://github.com/org/name` determines both the org and the name. |
| Names.FirstUnallowed | src/util/constants.ts:24-26 | The first character the `npmName` regular expression matches, or the length. |
| Names.CheckRepoName | src/index.ts:42-49 | The name is valid exactly when no folder of that name exists and every character is in `[\w\d-_.)]`. An existing folder is reported first. The reported symbol is the first character of the name that is not allowed (`matches[0]`). |
| Names.RepoShortIsInjective | src/index.ts:184 | With a valid org, which has no `/`, the short name `org/name` determines both parts. |
| Names.DefaultUsername | src/index.ts:111-114 | The default org is the part of `user.email` before the first `@`: a prefix of the email without `@`, followed in the email by `@` unless it is the whole email. It is `daymxn` when git gives no email or fails. |
| Names.DefaultUsernameOfEmail | src/index.ts:111-114 | The email `user@host` offers `user`, whatever `host` holds, further `@` included. |
| Names.DefaultAuthorAsWritten | src/index.ts:116-119 | As written: `user.name` when git gives one, `Strings.defaultAuthor` when it gives none, and `Strings.defaultOrg` when the lookup fails. |
| Names.AuthorFallbackDiffersOnRejection | src/index.ts:116-119 | As written, a failed `user.name` lookup offers the org default, not the author default. |
| Names.DefaultAuthor | src/index.ts:116-119 | Corrected: the default author is `user.name`, or `Strings.defaultAuthor` whenever git gives no name. |
| Names.AuthorFallbackIsUniform | src/index.ts:116-119 | Corrected: a failed lookup and an absent name give the same default author. |
| BsConfig.Config.constructor | src/index.ts:227-228 | The config object starts as the parsed file. |
| BsConfig.SetProperty | src/index.ts:230-248 | Assigning a property of an object changes that property only. `undefined` removes it. Assigning a property of an array leaves its JSON unchanged. |
| BsConfig.Config.Assign | src/index.ts:230-248 | `config[section][property] = v` throws exactly when the section is missing or is neither an object nor an array. Otherwise only that section changes. |
| BsConfig.Config.Remove | src/index.ts:236-247 | `config[section] = undefined` drops the section and nothing else. |
| BsConfig.Config.Prune | src/index.ts:230-248 | The pruning in source order throws the first `TypeError` of `PruneError`. Otherwise it leaves exactly `Pruned` of the old config. |
| BsConfig.PruneSteps | src/index.ts:230-248 | The four in-place steps compose to the declarative `Pruned`. |
| BsConfig.PruneStepsKeys | src/index.ts:236-247 | The steps drop exactly the sections `api` (no API), `docs` (no wiki) and `tests` (no tests). |
| BsConfig.PruneStepsValues | src/index.ts:230-243 | Each kept section ends as `PrunedSection` describes. |
| BsConfig.PruneKeepsSections | src/index.ts:236-247 | `api` survives only with an API, `docs` only with a wiki and `tests` only with tests. `global` and every other top-level section stay, and the others are unchanged. |
| BsConfig.PruneApiSection | src/index.ts:230-232 | Without rollup, `api.rollup` and `api.transformers` go, and the other fields of `api` stay. |
| BsConfig.PruneDocsSection | src/index.ts:236-244 | For a selection `main` can make without an API, `api` and `docs` are both dropped. Clearing `docs.apiFolder` still needs `docs` to be an object or array. Without one, the pruning fails on `docs.apiFolder` once `api` and `global` have passed. |
| BsConfig.PruneGlobalSection | src/index.ts:230-243 | `global.rollup` is false without rollup, and `global.docs` is false without a wiki. The other fields of `global` stay. |
| BsConfig.PruneSucceedsOnObjectSections | src/index.ts:230-248 | With `api`, `docs` and `global` all objects, the pruning never throws. |
| BsConfig.PruneIsIdempotentWithApi | src/index.ts:230-248 | With an API, pruning again succeeds and changes nothing. |

## Findings

| source | as written | input that shows it | evidently intended | confidence | as-written member | corrected member |
|---|---|---|---|---|---|---|
| src/index.ts:116-119 | When the `git config user.name` lookup rejects, the default author falls back to `Strings.defaultOrg` ("daymxn"). | Git fails, for example because it is not installed, so the lookup rejects. | Fall back to `Strings.defaultAuthor`, as a lookup that finds no name does. | medium; not executed | Names.AuthorFallbackDiffersOnRejection | Names.AuthorFallbackIsUniform |

## Left out

- `sleep` and real time. A sleep is an event in a ghost trace. No clock is read.
- The callback is not run. Its outcomes are an oracle indexed by call number.
- Retry.Retry: the options are unbounded integers, not JavaScript doubles.
  - Fractional values, NaN and precision loss above 2^53 are not modelled.
  - `MAX_SAFE_INTEGER` is exact.
- Retry.Retry: `await` and asynchronous scheduling are not modelled, because the loop is sequential.
- All git operations are not modelled: clone, init, addRemote, and `getConfig` as a call. The outcome of a `getConfig` lookup is a parameter of `Names.DefaultUsername` and `Names.DefaultAuthor`.
- Filesystem effects are not modelled: `fs.remove`, `fs.ensureDir`, `fs.writeFile`, `fs.readFile`, `process.chdir` and the final removal of `templates`. Only the paths involved are modelled.
- `Promise.all` over the deletions and over the renders is not modelled. The removals can overlap: without an API there is no wiki, and `wiki/docs/api` lies under `wiki`. The paths left at the end are the same in any order.
- EJS rendering is not modelled. Only the data passed to it is.
- `JSON.parse` and `JSON.stringify` are not modelled:
  - the config starts as an already parsed map;
  - key order in the output is not modelled;
  - a config whose top level is not an object is not modelled.
- BsConfig.Config.Prune does not specify the half-pruned state left behind when a `TypeError` is thrown. `main` then fails and the file is not written.
- `src/util/prompts.ts` is not part of this model. Prompts are modelled by which ones are shown and what they answer; their texts, colours and help lines are not.
- The npm package-name validation, `validate-npm-package-name`, is a foreign library and is not modelled.
- Names.CheckRepoName: whether a local folder of that name exists is a parameter. The error message texts and colours are not modelled.
- Names.CheckRepoName: characters are single code units. Characters outside the Basic Multilingual Plane, as UTF-16 surrogate pairs, are not modelled.
- The current year in the template data is a parameter.
- Names.ReplaceFirst: only the one-character patterns with `$`-free replacements of `main` are modelled, not general `String.replace`.
- The nested `repo` and `features` objects of the wiki config are flattened into one record.
