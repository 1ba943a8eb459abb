/** `repo_raw_url`: the public raw-content URL of a file committed to a repository. */
module Utils {
  import opened Text

  const RawHost := "https://raw.githubusercontent.com/"

  /** `https://raw.githubusercontent.com/{repo}/{branch}/{path}`. */
  function RepoRawUrl(repo: string, branch: string, path: string): string {
    RawHost + repo + "/" + branch + "/" + path
  }

  /**
   * The URL is the raw-content host, the repository and a slash, the branch and a slash,
   * and the path, each segment at its fixed position; nothing else is added.
   */
  lemma RepoRawUrlShape(repo: string, branch: string, path: string)
    ensures var url := RepoRawUrl(repo, branch, path);
      && StartsWith(url, RawHost)
      && |url| == |RawHost| + |repo| + |branch| + |path| + 2
      && url[|url| - |path|..] == path
      && url[|RawHost|..|RawHost| + |repo| + 1] == repo + "/"
      && url[|RawHost| + |repo| + 1..|url| - |path|] == branch + "/"
  {
  }

  /** For a fixed repository and branch, different files have different URLs. */
  lemma RepoRawUrlInjective(repo: string, branch: string, p: string, q: string)
    requires RepoRawUrl(repo, branch, p) == RepoRawUrl(repo, branch, q)
    ensures p == q
  {
    var u := RepoRawUrl(repo, branch, p);
    var n := |RawHost| + |repo| + |branch| + 2;
    RepoRawUrlShape(repo, branch, p);
    RepoRawUrlShape(repo, branch, q);
    assert p == u[n..] == q;
  }
}
