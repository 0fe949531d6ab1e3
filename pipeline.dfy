/** How the stages fit together: the directory `Clone` picks for a repository
    reference is the name the hosts later register the built server under. */
module Pipeline {
  import opened Common
  import opened BuildTypes
  import PythonBuild
  import GoBuild
  import opened ClaudeCode
  import opened Fetcher
  import opened InstallCommand

  /** A URL `<host><org>/<repo>.git` is cloned into a directory named `repo`. */
  lemma HostedRepoName(host: string, org: string, repo: string)
    requires '/' !in repo
    ensures RepoName(host + (org + "/" + repo) + ".git") == repo
  {
    assert host + (org + "/" + repo) + ".git" == (host + org) + "/" + repo + ".git";
    RepoNameOfGitUrl(host + org, repo);
  }

  /** Every shorthand `<prefix><org>/<repo>` is cloned into a directory named `repo`. */
  lemma ShorthandCloneDir(org: string, repo: string)
    requires '/' !in repo
    ensures RepoName(ParseScheme(GitHubPrefix + org + "/" + repo).0) == repo
    ensures RepoName(ParseScheme(GitLabPrefix + org + "/" + repo).0) == repo
    ensures RepoName(ParseScheme(RedHatPrefix + org + "/" + repo).0) == repo
  {
    var path := org + "/" + repo;
    Shorthands(path);
    assert GitHubPrefix + org + "/" + repo == "@" + path;
    assert GitLabPrefix + org + "/" + repo == "gl:@" + path;
    assert RedHatPrefix + org + "/" + repo == "gl:rh:@" + path;
    HostedRepoName("https://github.com/", org, repo);
    HostedRepoName("https://gitlab.com/", org, repo);
    HostedRepoName("https://gitlab.cee.redhat.com/", org, repo);
  }

  /** A Python server built in the directory `Clone` returned is registered
      under that directory's name. */
  lemma ClonedPythonServerName(d: Disk, url: string, m: Machine)
    requires CloneSpec(d, url).1.None?
    requires RepoName(url) != "" && RepoName(url) != "."
    requires PythonBuild.PythonBuild(m, CloneSpec(d, url).0).result.Ok?
    ensures ServerName(d.cwd.value, PythonBuild.PythonBuild(m, CloneSpec(d, url).0).result.value) == RepoName(url)
  {
    var cwd := d.cwd.value;
    var path := CloneSpec(d, url).0;
    assert path == Join3(Join(cwd, ".mcp"), "servers", RepoName(url));
    var r := PythonBuild.PythonBuild(m, path).result.value;
    PythonBuild.EntryIsFirstExisting(m, path);
    var i :| 0 <= i < |PythonBuild.Candidates| && r.args[0] == Join(path, PythonBuild.Candidates[i]);
    ServerNameIsCloneDir(cwd, RepoName(url), PythonBuild.Candidates[i], r);
  }

  /** `mcpm install @<org>/<repo>` of a Python server registers it as `repo`. */
  lemma InstalledPythonServerName(d: Disk, org: string, repo: string, m: Machine)
    requires repo != "" && repo != "." && '/' !in repo
    requires var url := ParseScheme(GitHubPrefix + org + "/" + repo).0;
      CloneSpec(d, url).1.None? && PythonBuild.PythonBuild(m, CloneSpec(d, url).0).result.Ok?
    ensures var url := ParseScheme(GitHubPrefix + org + "/" + repo).0;
      ServerName(d.cwd.value, PythonBuild.PythonBuild(m, CloneSpec(d, url).0).result.value) == repo
  {
    ShorthandCloneDir(org, repo);
    ClonedPythonServerName(d, ParseScheme(GitHubPrefix + org + "/" + repo).0, m);
  }

  /** A Go server is launched without arguments, so its name never comes from
      its directory: every Go server is registered as "mcp-server", and a
      second one replaces the first in a host's table. */
  lemma GoServersShareName(cwd: string, m1: Machine, p1: string, m2: Machine, p2: string)
    requires GoBuild.GoBuild(m1, p1).result.Ok? && GoBuild.GoBuild(m2, p2).result.Ok?
    ensures ServerName(cwd, GoBuild.GoBuild(m1, p1).result.value) == DefaultName
    ensures ServerName(cwd, GoBuild.GoBuild(m2, p2).result.value) == DefaultName
    ensures NameAsWritten(GoBuild.GoBuild(m1, p1).result.value) == DefaultName
  {
  }
}
