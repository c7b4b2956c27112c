/**
 * Resolution of the repository name a user types (`yolo`, `owner/yolo`,
 * `https://github.com/owner/yolo.git`, `git@github.com:owner/yolo.git`)
 * and the two clone URLs built from an owner and a name.
 */
module GitHub {
  import opened Wrappers
  import opened Strings
  import opened Entities

  /** The two parts of a parsed URL the resolution looks at. */
  datatype URL = URL(hostname: string, path: string)

  /**
   * The two URL parsers, as oracles: `gitURL` stands for giturls.Parse and
   * `url` for url.Parse; None is a parse error.
   */
  datatype URLParsers = URLParsers(gitURL: string -> Option<URL>, url: string -> Option<URL>)

  datatype ParsedGitHubRepositoryName = ParsedGitHubRepositoryName(owner: string, explicitOwner: bool, name: string)

  const GitHubHost := "github.com"

  /** The SCP-like address is tried first, the generic URL parser second. */
  function ParseAsURL(parsers: URLParsers, repositoryName: string): (u: Option<URL>)
    ensures parsers.gitURL(repositoryName).Some? ==> u == parsers.gitURL(repositoryName)
    ensures parsers.gitURL(repositoryName).None? ==> u == parsers.url(repositoryName)
  {
    match parsers.gitURL(repositoryName)
    case Some(u) => Some(u)
    case None => parsers.url(repositoryName)
  }

  /**
   * ParseRepositoryName: a name is read as a URL when a parser accepts it
   * and finds a host; otherwise it is split on "/".
   */
  function ParseRepositoryName(parsers: URLParsers, repositoryName: string, defaultRepositoryOwner: string)
    : (r: Result<ParsedGitHubRepositoryName, Error>)
    ensures r.Failure? ==> r.error == InvalidGitHubURL
    // Not a URL, or a URL without a host: at most two "/"-separated segments.
    ensures
      var u := ParseAsURL(parsers, repositoryName);
      var parts := Split(repositoryName, '/');
      (u.None? || u.value.hostname == "") ==>
        (r.Failure? <==> |parts| > 2)
        && (|parts| == 1 ==> r == Success(ParsedGitHubRepositoryName(defaultRepositoryOwner, false, repositoryName)))
        && (|parts| == 2 ==> r == Success(ParsedGitHubRepositoryName(parts[0], true, parts[1])))
    // A URL with a host: on github.com, with at least two path segments.
    ensures
      var u := ParseAsURL(parsers, repositoryName);
      var segments := Split(TrimPrefix(if u.Some? then u.value.path else "", "/"), '/');
      (u.Some? && u.value.hostname != "") ==>
        (r.Failure? <==> u.value.hostname != GitHubHost || |segments| < 2)
        && (r.Success? ==> r.value == ParsedGitHubRepositoryName(segments[0], true, TrimSuffix(segments[1], ".git")))
  {
    var u := ParseAsURL(parsers, repositoryName);
    if u.None? || |u.value.hostname| == 0 then
      var repositoryNameParts := Split(repositoryName, '/');
      if |repositoryNameParts| > 2 then Failure(InvalidGitHubURL)
      else if |repositoryNameParts| == 1 then
        SplitOnePart(repositoryName, '/');
        Success(ParsedGitHubRepositoryName(defaultRepositoryOwner, false, repositoryNameParts[0]))
      else Success(ParsedGitHubRepositoryName(repositoryNameParts[0], true, repositoryNameParts[1]))
    else
      var host := u.value.hostname;
      if host != GitHubHost then Failure(InvalidGitHubURL)
      else
        var path := TrimPrefix(u.value.path, "/");
        var pathComponents := Split(path, '/');
        if |pathComponents| < 2 then Failure(InvalidGitHubURL)
        else Success(ParsedGitHubRepositoryName(pathComponents[0], true, TrimSuffix(pathComponents[1], ".git")))
  }

  /** A string that splits into one piece is that piece. */
  lemma {:induction false} SplitOnePart(s: string, sep: char)
    ensures |Split(s, sep)| == 1 ==> Split(s, sep)[0] == s
  {
    if |s| > 0 {
      SplitOnePart(s[1..], sep);
      assert [s[0]] + s[1..] == s;
    }
  }

  /** BuildGitHTTPURL, with `escape` standing for url.PathEscape. */
  function BuildGitHTTPURL(escape: string -> string, repoOwner: string, repoName: string): (u: string)
    ensures |u| == 19 + |escape(repoOwner)| + 1 + |escape(repoName)| + 4
    ensures u[..19] == "https://github.com/" && u[|u| - 4..] == ".git"
  {
    "https://github.com/" + escape(repoOwner) + "/" + escape(repoName) + ".git"
  }

  /** BuildGitURL, the SCP-like SSH address, with `escape` standing for url.PathEscape. */
  function BuildGitURL(escape: string -> string, repoOwner: string, repoName: string): (u: string)
    ensures |u| == 15 + |escape(repoOwner)| + 1 + |escape(repoName)| + 4
    ensures u[..15] == "git@github.com:" && u[|u| - 4..] == ".git"
  {
    "git@github.com:" + escape(repoOwner) + "/" + escape(repoName) + ".git"
  }

  /** Escaped owners without "/" give the same HTTPS clone URL only for the same escaped owner and name. */
  lemma GitHTTPURLInjective(escape: string -> string, owner1: string, name1: string, owner2: string, name2: string)
    requires '/' !in escape(owner1) && '/' !in escape(owner2)
    requires BuildGitHTTPURL(escape, owner1, name1) == BuildGitHTTPURL(escape, owner2, name2)
    ensures escape(owner1) == escape(owner2) && escape(name1) == escape(name2)
  {
    var u := BuildGitHTTPURL(escape, owner1, name1);
    var r1 := ResolvedEnvRepository(escape(name1), escape(owner1), true, "", "", []);
    var r2 := ResolvedEnvRepository(escape(name2), escape(owner2), true, "", "", []);
    assert u[19..|u| - 4] == BuildEnvNameFromResolvedRepo(r1);
    assert u[19..|u| - 4] == BuildEnvNameFromResolvedRepo(r2);
    EnvNameInjective(r1, r2);
  }

  /** Escaped owners without "/" give the same SSH address only for the same escaped owner and name. */
  lemma GitURLInjective(escape: string -> string, owner1: string, name1: string, owner2: string, name2: string)
    requires '/' !in escape(owner1) && '/' !in escape(owner2)
    requires BuildGitURL(escape, owner1, name1) == BuildGitURL(escape, owner2, name2)
    ensures escape(owner1) == escape(owner2) && escape(name1) == escape(name2)
  {
    var u := BuildGitURL(escape, owner1, name1);
    var r1 := ResolvedEnvRepository(escape(name1), escape(owner1), true, "", "", []);
    var r2 := ResolvedEnvRepository(escape(name2), escape(owner2), true, "", "", []);
    assert u[15..|u| - 4] == BuildEnvNameFromResolvedRepo(r1);
    assert u[15..|u| - 4] == BuildEnvNameFromResolvedRepo(r2);
    EnvNameInjective(r1, r2);
  }

  /** A parser that fails on a string, or finds no host in it. */
  predicate NoHost(parsers: URLParsers, s: string) {
    var u := ParseAsURL(parsers, s);
    u.None? || u.value.hostname == ""
  }

  /** A bare name without "/" resolves to the default owner, implicitly. */
  lemma BareNameResolves(parsers: URLParsers, name: string, defaultOwner: string)
    requires '/' !in name && NoHost(parsers, name)
    ensures ParseRepositoryName(parsers, name, defaultOwner)
      == Success(ParsedGitHubRepositoryName(defaultOwner, false, name))
  {
    SplitNoSeparator(name, '/');
  }

  /** `owner/name` resolves to that owner, explicitly, and that name: the inverse of the environment-name format. */
  lemma OwnerSlashNameRoundTrip(parsers: URLParsers, repo: ResolvedEnvRepository, defaultOwner: string)
    requires '/' !in repo.owner && '/' !in repo.name
    requires NoHost(parsers, BuildEnvNameFromResolvedRepo(repo))
    ensures ParseRepositoryName(parsers, BuildEnvNameFromResolvedRepo(repo), defaultOwner)
      == Success(ParsedGitHubRepositoryName(repo.owner, true, repo.name))
  {
    SplitNoSeparator(repo.name, '/');
    SplitAfterSeparator(repo.owner, '/', repo.name);
  }

  /** Three or more segments without a host are rejected. */
  lemma TooManySegmentsRejected(parsers: URLParsers, a: string, b: string, rest: string, defaultOwner: string)
    requires '/' !in a && '/' !in b
    requires NoHost(parsers, a + "/" + b + "/" + rest)
    ensures ParseRepositoryName(parsers, a + "/" + b + "/" + rest, defaultOwner) == Failure(InvalidGitHubURL)
  {
    var s := a + "/" + b + "/" + rest;
    assert s == a + ['/'] + (b + ['/'] + rest);
    SplitAfterSeparator(b, '/', rest);
    SplitAfterSeparator(a, '/', b + ['/'] + rest);
  }

  /**
   * The clone URL built from an owner and a name resolves back to the
   * escaped owner and name, given a URL parser that reads the host and the
   * path of that URL and escaped parts that hold no "/".
   */
  lemma GitHTTPURLRoundTrip(parsers: URLParsers, escape: string -> string, owner: string, name: string,
                            defaultOwner: string)
    requires '/' !in escape(owner) && '/' !in escape(name)
    requires ParseAsURL(parsers, BuildGitHTTPURL(escape, owner, name))
      == Some(URL(GitHubHost, "/" + escape(owner) + "/" + escape(name) + ".git"))
    ensures ParseRepositoryName(parsers, BuildGitHTTPURL(escape, owner, name), defaultOwner)
      == Success(ParsedGitHubRepositoryName(escape(owner), true, escape(name)))
  {
    var o, n := escape(owner), escape(name);
    var path := "/" + o + "/" + n + ".git";
    assert TrimPrefix(path, "/") == o + ['/'] + (n + ".git");
    assert '/' !in n + ".git";
    SplitNoSeparator(n + ".git", '/');
    SplitAfterSeparator(o, '/', n + ".git");
    assert TrimSuffix(n + ".git", ".git") == n;
  }

  /**
   * The SSH address resolves likewise, given a parser that reads its host
   * and its path, which has no leading "/"; the owner must then be non-empty.
   */
  lemma GitURLRoundTrip(parsers: URLParsers, escape: string -> string, owner: string, name: string,
                        defaultOwner: string)
    requires |escape(owner)| > 0 && '/' !in escape(owner) && '/' !in escape(name)
    requires ParseAsURL(parsers, BuildGitURL(escape, owner, name))
      == Some(URL(GitHubHost, escape(owner) + "/" + escape(name) + ".git"))
    ensures ParseRepositoryName(parsers, BuildGitURL(escape, owner, name), defaultOwner)
      == Success(ParsedGitHubRepositoryName(escape(owner), true, escape(name)))
  {
    var o, n := escape(owner), escape(name);
    var path := o + "/" + n + ".git";
    assert path == o + ['/'] + (n + ".git");
    assert path[0] == o[0];
    assert '/' !in n + ".git";
    SplitNoSeparator(n + ".git", '/');
    SplitAfterSeparator(o, '/', n + ".git");
    assert TrimSuffix(n + ".git", ".git") == n;
  }
}
