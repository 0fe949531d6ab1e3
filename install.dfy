/** `mcpm install <scheme>`: the repository shorthands and the wizard they
    start. */
module InstallCommand {
  import opened Common
  import Installer

  const RedHatPrefix: string := "gl:rh:@"
  const GitLabPrefix: string := "gl:@"
  const GitHubPrefix: string := "@"

  /** A shorthand maps to an HTTPS clone URL and the hosting service's name;
      anything else is passed through, labelled "Custom URL" when it starts
      with "http" and "Unknown" otherwise. */
  function ParseScheme(input: string): (r: (string, string))
    ensures r.1 in {"GitLab Red Hat", "GitLab", "GitHub", "Custom URL", "Unknown"}
    ensures r.1 in {"GitLab Red Hat", "GitLab", "GitHub"} ==> StartsWith(r.0, "https://") && EndsWith(r.0, ".git")
    ensures r.1 in {"Custom URL", "Unknown"} ==> r.0 == input
    ensures r.1 == "Custom URL" ==> StartsWith(input, "http")
  {
    if StartsWith(input, RedHatPrefix) then
      ("https://gitlab.cee.redhat.com/" + input[|RedHatPrefix|..] + ".git", "GitLab Red Hat")
    else if StartsWith(input, GitLabPrefix) then
      ("https://gitlab.com/" + input[|GitLabPrefix|..] + ".git", "GitLab")
    else if StartsWith(input, GitHubPrefix) then
      ("https://github.com/" + input[|GitHubPrefix|..] + ".git", "GitHub")
    else if StartsWith(input, "http") then (input, "Custom URL")
    else (input, "Unknown")
  }

  /** Each shorthand, written out. */
  lemma Shorthands(path: string)
    ensures ParseScheme("@" + path) == ("https://github.com/" + path + ".git", "GitHub")
    ensures ParseScheme("gl:@" + path) == ("https://gitlab.com/" + path + ".git", "GitLab")
    ensures ParseScheme("gl:rh:@" + path) == ("https://gitlab.cee.redhat.com/" + path + ".git", "GitLab Red Hat")
  {
    assert ("@" + path)[..1] == "@";
    assert ("@" + path)[1..] == path;
    assert !StartsWith("@" + path, RedHatPrefix) && !StartsWith("@" + path, GitLabPrefix) by {
      assert ("@" + path)[0] == '@';
    }
    assert ("gl:@" + path)[..4] == "gl:@";
    assert ("gl:@" + path)[4..] == path;
    assert !StartsWith("gl:@" + path, RedHatPrefix) by {
      assert ("gl:@" + path)[3] == '@';
    }
    assert ("gl:rh:@" + path)[..7] == "gl:rh:@";
    assert ("gl:rh:@" + path)[7..] == path;
  }

  /** The input is passed through unchanged exactly when it is not a shorthand. */
  lemma PassThrough(input: string)
    ensures ParseScheme(input).0 == input <==>
      !StartsWith(input, RedHatPrefix) && !StartsWith(input, GitLabPrefix) && !StartsWith(input, GitHubPrefix)
  {
    var r := ParseScheme(input);
    if StartsWith(input, RedHatPrefix) || StartsWith(input, GitLabPrefix) || StartsWith(input, GitHubPrefix) {
      assert r.0[0] == 'h';
      assert input[0] != 'h';
    }
  }

  /** `installCmd.Run`: the wizard starts on the parsed URL, showing the
      reference as typed. */
  function InstallWizard(repoRef: string, global: bool): (s: Installer.InstallState)
    ensures s.repoUrl == ParseScheme(repoRef).0 && s.repoName == repoRef
    ensures s.phase == Installer.Fetching && s.global == global
  {
    Installer.Initial(ParseScheme(repoRef).0, repoRef, global)
  }
}
