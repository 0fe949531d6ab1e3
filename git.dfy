/** `fetcher.Clone`: a repository is cloned once into
    `<cwd>/.mcp/servers/<name>`, where the name is the URL's last path
    segment without `.git`; an existing directory there is reused. */
module Fetcher {
  import opened Common

  /** The disk as `Clone` sees it: the working directory (None when it cannot
      be determined), the directories that exist, the directories that cannot
      be created, the URLs whose clone fails, and a log of the clones made. */
  datatype Disk = Disk(
    cwd: Option<string>,
    dirs: set<string>,
    mkdirFails: set<string>,
    cloneFails: set<string>,
    clones: seq<string>)

  datatype FetchError =
    | NoWorkingDirectory
    | ServersDirFailed(dir: string)   // "failed to create .mcp directory"
    | CloneFailed(url: string)        // "git clone failed"

  /** The directory name for a URL: its last `/`-separated segment with one
      trailing ".git" removed. */
  function RepoName(url: string): (name: string)
    ensures '/' !in name
    ensures var last := LastPiece(url, '/');
      (EndsWith(last, ".git") ==> name + ".git" == last) && (!EndsWith(last, ".git") ==> name == last)
  {
    TrimSuffix(LastPiece(url, '/'), ".git")
  }

  /** The last segment of a URL whose tail after its last `/` is `tail`. */
  lemma LastPieceOfJoin(head: string, tail: string)
    requires '/' !in tail
    ensures LastPiece(head + "/" + tail, '/') == tail
  {
    SplitConcat(head, tail, '/');
    SplitNoSep(tail, '/');
  }

  /** For a URL ending in `/<repo>.git`, the directory name is `repo`. */
  lemma RepoNameOfGitUrl(head: string, repo: string)
    requires '/' !in repo
    ensures RepoName(head + "/" + repo + ".git") == repo
  {
    assert '/' !in repo + ".git";
    assert head + "/" + repo + ".git" == head + "/" + (repo + ".git");
    LastPieceOfJoin(head, repo + ".git");
    assert EndsWith(repo + ".git", ".git");
  }

  function ServersDir(cwd: string): string {
    Join3(cwd, ".mcp", "servers")
  }

  function TargetPath(cwd: string, url: string): string {
    Join(ServersDir(cwd), RepoName(url))
  }

  /** `Clone` as a value: the path, the error, and the disk afterwards. */
  function CloneSpec(d: Disk, url: string): (res: (string, Option<FetchError>, Disk))
    ensures res.1.Some? ==> res.0 == ""
    ensures res.1.None? ==> d.cwd.Some? && res.0 == TargetPath(d.cwd.value, url) && res.0 in res.2.dirs
    ensures |d.clones| <= |res.2.clones| <= |d.clones| + 1 && res.2.clones[..|d.clones|] == d.clones
  {
    if d.cwd.None? then ("", Some(NoWorkingDirectory), d)
    else
      var base := ServersDir(d.cwd.value);
      if base in d.mkdirFails then ("", Some(ServersDirFailed(base)), d)
      else
        var d1 := d.(dirs := d.dirs + {base});
        var target := Join(base, RepoName(url));
        if target in d1.dirs then (target, None, d1)
        else
          var d2 := d1.(clones := d1.clones + [url]);
          if url in d.cloneFails then ("", Some(CloneFailed(url)), d2)
          else (target, None, d2.(dirs := d2.dirs + {target}))
  }

  /** `Clone`: the effects in order, with the early returns. */
  method Clone(d: Disk, url: string) returns (path: string, err: Option<FetchError>, d': Disk)
    ensures (path, err, d') == CloneSpec(d, url)
  {
    d' := d;
    if d.cwd.None? {
      return "", Some(NoWorkingDirectory), d';
    }
    var baseDir := Join3(d.cwd.value, ".mcp", "servers");
    if baseDir in d.mkdirFails {
      return "", Some(ServersDirFailed(baseDir)), d';
    }
    d' := d'.(dirs := d'.dirs + {baseDir});
    var parts := Split(url, '/');
    var repoName := TrimSuffix(parts[|parts| - 1], ".git");
    var targetPath := Join(baseDir, repoName);
    if targetPath in d'.dirs {
      return targetPath, None, d';
    }
    d' := d'.(clones := d'.clones + [url]);
    if url in d.cloneFails {
      return "", Some(CloneFailed(url)), d';
    }
    d' := d'.(dirs := d'.dirs + {targetPath});
    return targetPath, None, d';
  }

  /** An existing target directory is returned as it is: nothing is cloned. */
  lemma ExistingTargetReused(d: Disk, url: string)
    requires d.cwd.Some? && ServersDir(d.cwd.value) !in d.mkdirFails
    requires TargetPath(d.cwd.value, url) in d.dirs
    ensures var res := CloneSpec(d, url);
      res.0 == TargetPath(d.cwd.value, url) && res.1 == None && res.2.clones == d.clones
  {
  }

  /** A missing target is cloned exactly once; its failure is an error with
      an empty path. */
  lemma MissingTargetCloned(d: Disk, url: string)
    requires d.cwd.Some? && ServersDir(d.cwd.value) !in d.mkdirFails
    requires TargetPath(d.cwd.value, url) !in d.dirs && TargetPath(d.cwd.value, url) != ServersDir(d.cwd.value)
    ensures var res := CloneSpec(d, url);
      && res.2.clones == d.clones + [url]
      && (res.1 == Some(CloneFailed(url)) <==> url in d.cloneFails)
      && (url in d.cloneFails ==> res.0 == "")
  {
  }

  /** A URL ending in `/` names no repository directory: the target is the
      servers directory itself, which `MkdirAll` has just made, so it is
      returned and nothing is cloned. */
  lemma TrailingSlashReturnsServersDir(d: Disk, head: string)
    requires d.cwd.Some? && ServersDir(d.cwd.value) !in d.mkdirFails
    ensures var res := CloneSpec(d, head + "/");
      res.0 == ServersDir(d.cwd.value) && res.1 == None && res.2.clones == d.clones
  {
    assert head + "/" + "" == head + "/";
    LastPieceOfJoin(head, "");
    assert RepoName(head + "/") == "";
  }

  /** Cloning the same URL twice clones once: the second call reuses the directory. */
  lemma CloneTwice(d: Disk, url: string)
    requires CloneSpec(d, url).1.None?
    ensures var once := CloneSpec(d, url);
      var twice := CloneSpec(once.2, url);
      twice.0 == once.0 && twice.1 == None && twice.2.clones == once.2.clones
  {
  }
}
