/** The strings `main` of `src/index.ts` derives from the answers: the npm
    package name, the default repository name, the repository's short name
    and URL, and the character check of `isValidRepoName`. */
module Names {
  import opened Wrappers
  import opened Constants

  /** `${Strings.packagePrefix}/${projectName}`: the project name inside the
      `@rbxts` scope, recoverable from the package name. */
  function PackageName(projectName: string): (name: string)
    ensures |name| == |PACKAGE_PREFIX| + 1 + |projectName|
    ensures name[..|PACKAGE_PREFIX|] == PACKAGE_PREFIX && name[|PACKAGE_PREFIX|] == '/'
    ensures name[|PACKAGE_PREFIX| + 1..] == projectName
  {
    PACKAGE_PREFIX + "/" + projectName
  }

  /** The index of the first `c` in `s`, or `|s|` when there is none. */
  function IndexOf(s: string, c: char): (i: nat)
    ensures i <= |s|
    ensures forall j :: 0 <= j < i ==> s[j] != c
    ensures i < |s| ==> s[i] == c
  {
    if s == [] then 0
    else if s[0] == c then 0
    else 1 + IndexOf(s[1..], c)
  }

  /** JavaScript's `s.replace(pattern, replacement)` for a one-character string
      pattern without `$` in `replacement`: only the first occurrence is replaced. */
  function ReplaceFirst(s: string, c: char, replacement: string): (r: string)
    ensures c !in s ==> r == s
    ensures c in s ==> |r| == |s| - 1 + |replacement|
  {
    var i := IndexOf(s, c);
    if i == |s| then s else s[..i] + replacement + s[i + 1..]
  }

  /** The first `c` after a prefix free of `c` is found at the end of that prefix. */
  lemma {:induction false} IndexOfAfter(u: string, c: char, v: string)
    requires c !in u
    ensures IndexOf(u + [c] + v, c) == |u|
  {
    if u != [] {
      assert (u + [c] + v)[1..] == u[1..] + [c] + v;
      IndexOfAfter(u[1..], c, v);
    }
  }

  /** `ReplaceFirst` replaces the first occurrence and keeps all the rest,
      later occurrences of `c` included. */
  lemma ReplaceFirstSplits(u: string, c: char, replacement: string, v: string)
    requires c !in u
    ensures ReplaceFirst(u + [c] + v, c, replacement) == u + replacement + v
  {
    var s := u + [c] + v;
    IndexOfAfter(u, c, v);
    assert s[..|u|] == u;
    assert s[|u| + 1..] == v;
  }

  /** `packageName.replace("@", "").replace("/", "-")`: the default name of
      the GitHub repository. */
  function DefaultRepoName(packageName: string): (repoName: string)
    ensures '@' !in packageName && '/' !in packageName ==> repoName == packageName
  {
    ReplaceFirst(ReplaceFirst(packageName, '@', ""), '/', "-")
  }

  /** The default repository name of `@rbxts/foo` is `rbxts-foo`, whatever
      `foo` contains: only the scope's `@` and `/` are touched. */
  lemma DefaultRepoNameOfPackage(projectName: string)
    ensures DefaultRepoName(PackageName(projectName)) == "rbxts-" + projectName
  {
    PackageNameSpelled(projectName);
    DefaultRepoNameOfScoped("rbxts", projectName);
    assert "rbxts" + "-" == "rbxts-";
  }

  lemma PackageNameSpelled(projectName: string)
    ensures PackageName(projectName) == ['@'] + ("rbxts" + ['/'] + projectName)
  {
  }

  /** `@scope/name` becomes `scope-name` when the scope has no `/`. */
  lemma DefaultRepoNameOfScoped(scope: string, name: string)
    requires '/' !in scope
    ensures DefaultRepoName(['@'] + (scope + ['/'] + name)) == scope + "-" + name
  {
    StripLeading(scope + ['/'] + name, '@');
    ReplaceFirstSplits(scope, '/', "-", name);
  }

  /** Replacing the first `c` by nothing strips a leading `c`. */
  lemma StripLeading(rest: string, c: char)
    ensures ReplaceFirst([c] + rest, c, "") == rest
  {
    assert [c] + rest == [] + [c] + rest;
    ReplaceFirstSplits([], c, "", rest);
    assert [] + "" + rest == rest;
  }

  /** `${repoOrg}/${repoName}`: the org, a `/`, then the repository name. */
  function RepoShort(repoOrg: string, repoName: string): (short: string)
    ensures |short| == |repoOrg| + 1 + |repoName|
    ensures short[..|repoOrg|] == repoOrg && short[|repoOrg|] == '/'
    ensures short[|repoOrg| + 1..] == repoName
  {
    repoOrg + "/" + repoName
  }

  /** `https://github.com/${repoOrg}/${repoName}`. */
  function RepoUrl(repoOrg: string, repoName: string): (url: string)
    ensures url == "https://github.com/" + RepoShort(repoOrg, repoName)
  {
    "https://github.com/" + repoOrg + "/" + repoName
  }

  /** With valid orgs, the repository URL fixes both the org and the name:
      two different repositories never get the same remote. */
  lemma RepoUrlIsInjective(org1: string, name1: string, org2: string, name2: string)
    requires CheckRepoName(org1, false).Valid? && CheckRepoName(org2, false).Valid?
    requires RepoUrl(org1, name1) == RepoUrl(org2, name2)
    ensures org1 == org2 && name1 == name2
  {
    var host := "https://github.com/";
    var url := RepoUrl(org1, name1);
    assert url[|host|..] == RepoShort(org1, name1);
    assert url[|host|..] == RepoShort(org2, name2);
    RepoShortIsInjective(org1, name1, org2, name2);
  }

  /** `\w` of a JavaScript regular expression without the `u` flag. */
  predicate IsWordChar(c: char) {
    ('a' <= c <= 'z') || ('A' <= c <= 'Z') || ('0' <= c <= '9') || c == '_'
  }

  /** A character that `Regex.npmName`, `/[^\w\d-_.)]/`, does not match. */
  predicate IsRepoNameChar(c: char) {
    IsWordChar(c) || c == '-' || c == '.' || c == ')'
  }

  /** What `isValidRepoName` answers. */
  datatype RepoNameVerdict = Valid | FolderExists | UnallowedSymbol(symbol: char)

  /** The index of the first character `Regex.npmName` matches, or `|name|`. */
  function FirstUnallowed(name: string): (i: nat)
    ensures i <= |name|
    ensures forall j :: 0 <= j < i ==> IsRepoNameChar(name[j])
    ensures i < |name| ==> !IsRepoNameChar(name[i])
  {
    if name == [] then 0
    else if !IsRepoNameChar(name[0]) then 0
    else 1 + FirstUnallowed(name[1..])
  }

  /** `isValidRepoName(name)`: a local folder of that name is reported first;
      otherwise the first character outside `[\w\d-_.)]` is reported. Whether
      the folder exists is a parameter. */
  function CheckRepoName(name: string, folderExists: bool): (v: RepoNameVerdict)
    ensures v.Valid? <==> !folderExists && forall c :: c in name ==> IsRepoNameChar(c)
    ensures v.FolderExists? <==> folderExists
    ensures v.UnallowedSymbol? ==> v.symbol in name && !IsRepoNameChar(v.symbol)
    ensures v.UnallowedSymbol? ==> exists i :: 0 <= i < |name| && name[i] == v.symbol
                                             && forall j :: 0 <= j < i ==> IsRepoNameChar(name[j])
  {
    if folderExists then FolderExists
    else
      var i := FirstUnallowed(name);
      if i == |name| then Valid else UnallowedSymbol(name[i])
  }

  /** An organisation that passes `isValidRepoName` has no `/`, so the short
      name `org/name` determines both parts. */
  lemma RepoShortIsInjective(org1: string, name1: string, org2: string, name2: string)
    requires CheckRepoName(org1, false).Valid? && CheckRepoName(org2, false).Valid?
    requires RepoShort(org1, name1) == RepoShort(org2, name2)
    ensures org1 == org2 && name1 == name2
  {
    assert !IsRepoNameChar('/');
    assert '/' !in org1 && '/' !in org2;
    assert RepoShort(org1, name1) == org1 + ['/'] + name1;
    assert RepoShort(org2, name2) == org2 + ['/'] + name2;
    IndexOfAfter(org1, '/', name1);
    IndexOfAfter(org2, '/', name2);
    var s := RepoShort(org1, name1);
    assert org1 == s[..|org1|] && org2 == s[..|org2|];
    assert name1 == s[|org1| + 1..] && name2 == s[|org2| + 1..];
  }

  /** How a `git config` lookup settles: it resolves with a value that may be
      absent, or it rejects (git is missing, or not configured). */
  datatype ConfigLookup = Read(value: Option<string>) | Rejected

  /** The org offered by default: the part of `user.email` before the first
      `@` (`email.split("@")[0]`), or `Strings.defaultOrg`. */
  function DefaultUsername(email: ConfigLookup): (org: string)
    ensures email.Read? && email.value.Some? ==> org <= email.value.value && '@' !in org
    ensures email.Read? && email.value.Some? && |org| < |email.value.value| ==> email.value.value[|org|] == '@'
    ensures email.Read? && email.value.Some? && '@' !in email.value.value ==> org == email.value.value
    ensures !(email.Read? && email.value.Some?) ==> org == DEFAULT_ORG
  {
    match email
    case Read(Some(e)) => e[..IndexOf(e, '@')]
    case _ => DEFAULT_ORG
  }

  /** An email `user@host` offers `user` as the org, whatever `host` holds,
      `@` included. */
  lemma DefaultUsernameOfEmail(user: string, host: string)
    requires '@' !in user
    ensures DefaultUsername(Read(Some(user + "@" + host))) == user
  {
    IndexOfAfter(user, '@', host);
    assert (user + ['@'] + host)[..|user|] == user;
  }

  /** The author offered by default, as written: `user.name`, else
      `Strings.defaultAuthor`; but a rejected lookup falls back to
      `Strings.defaultOrg`. */
  function DefaultAuthorAsWritten(name: ConfigLookup): (author: string)
    ensures name.Read? && name.value.Some? ==> author == name.value.value
    ensures name == Read(None) ==> author == DEFAULT_AUTHOR
    ensures name.Rejected? ==> author == DEFAULT_ORG
  {
    match name
    case Read(Some(n)) => n
    case Read(None) => DEFAULT_AUTHOR
    case Rejected => DEFAULT_ORG
  }

  /** When git fails, the author offered is the org name, not the default
      author that an absent `user.name` gives. */
  lemma AuthorFallbackDiffersOnRejection()
    ensures DefaultAuthorAsWritten(Rejected) == DEFAULT_ORG
    ensures DefaultAuthorAsWritten(Rejected) != DefaultAuthorAsWritten(Read(None))
  {
    assert DEFAULT_ORG[0] != DEFAULT_AUTHOR[0];
  }

  /** The author offered by default, with both fallbacks the same. */
  function DefaultAuthor(name: ConfigLookup): (author: string)
    ensures name.Read? && name.value.Some? ==> author == name.value.value
    ensures !(name.Read? && name.value.Some?) ==> author == DEFAULT_AUTHOR
  {
    match name
    case Read(Some(n)) => n
    case _ => DEFAULT_AUTHOR
  }

  /** Without a user name from git the default author is `Strings.defaultAuthor`,
      whether the lookup found nothing or failed. */
  lemma AuthorFallbackIsUniform()
    ensures DefaultAuthor(Rejected) == DefaultAuthor(Read(None)) == DEFAULT_AUTHOR
  {
  }
}
