/** The repository-URL check: `re.match` of
    `^https://github\.com/[^/]+/[^/]+/?$` against the URL. The pattern has
    no flags, so the host is compared case-sensitively, `[^/]` also matches
    a newline, and `$` matches at the end of the text or just before a
    newline that ends it. */
module Validators {
  import opened Common

  const GithubPrefix := "https://github.com/"

  predicate IsSlash(c: char) { c == '/' }

  /** What one `[^/]+` matches. */
  predicate IsSegment(s: string) {
    |s| > 0 && '/' !in s
  }

  /** What `/?$` leaves after the repository segment. */
  predicate IsTail(t: string) {
    t == "" || t == "/" || t == "\n" || t == "/\n"
  }

  /** One way for the pattern to match: the owner segment ends at the
      slash at `k`, the repository segment at `m`, and the rest is a tail. */
  predicate MatchSplit(url: string, k: int, m: int) {
    && StartsWith(url, GithubPrefix)
    && |GithubPrefix| < k && k + 1 < m <= |url|
    && url[k] == '/'
    && IsSegment(url[|GithubPrefix|..k])
    && IsSegment(url[k + 1..m])
    && IsTail(url[m..])
  }

  /** The regular expression's language, read declaratively. */
  ghost predicate RegexMatches(url: string) {
    exists k, m :: MatchSplit(url, k, m)
  }

  /** `validate_github_repo_url`, as a matcher scans: the owner runs to the
      first slash after the prefix, the repository greedily to the next
      slash, and what remains must be nothing, "/" or "/\n". An accepted
      URL holds the prefix, a non-empty owner, a slash and a non-empty
      repository; `ValidatorMatchesRegex` shows it accepts exactly what the
      pattern matches. */
  function ValidateGithubRepoUrl(url: string): (r: bool)
    ensures r ==> StartsWith(url, GithubPrefix) && |url| >= |GithubPrefix| + 3 && url[|GithubPrefix|] != '/'
  {
    StartsWith(url, GithubPrefix) && PathAccepted(url[|GithubPrefix|..])
  }

  /** The scan of what follows the prefix. */
  predicate PathAccepted(rest: string) {
    var i := IndexWhere(rest, IsSlash);
    && 0 < i < |rest|
    && var after := rest[i + 1..];
       var j := IndexWhere(after, IsSlash);
       && 0 < j
       && (after[j..] == "" || after[j..] == "/" || after[j..] == "/\n")
  }

  lemma AfterPrefix(rest: string)
    ensures StartsWith(GithubPrefix + rest, GithubPrefix)
    ensures (GithubPrefix + rest)[|GithubPrefix|..] == rest
  {
  }

  /** The scan accepts exactly the URLs the pattern matches. */
  lemma ValidatorMatchesRegex(url: string)
    ensures ValidateGithubRepoUrl(url) <==> RegexMatches(url)
  {
    if ValidateGithubRepoUrl(url) {
      ScanGivesMatch(url);
    }
    if RegexMatches(url) {
      var k, m :| MatchSplit(url, k, m);
      MatchGivesScan(url, k, m);
    }
  }

  lemma ScanGivesMatch(url: string)
    requires ValidateGithubRepoUrl(url)
    ensures RegexMatches(url)
  {
    var p := |GithubPrefix|;
    var rest := url[p..];
    var i := IndexWhere(rest, IsSlash);
    var after := rest[i + 1..];
    var j := IndexWhere(after, IsSlash);
    var k, m := p + i, p + i + 1 + j;
    assert url[p..k] == rest[..i];
    assert url[k + 1..m] == after[..j];
    assert url[m..] == after[j..];
    assert '/' !in rest[..i] by {
      forall x | 0 <= x < i ensures rest[..i][x] != '/' { assert !IsSlash(rest[x]); }
    }
    assert '/' !in after[..j] by {
      forall x | 0 <= x < j ensures after[..j][x] != '/' { assert !IsSlash(after[x]); }
    }
    assert MatchSplit(url, k, m);
  }

  lemma MatchGivesScan(url: string, k: int, m: int)
    requires MatchSplit(url, k, m)
    ensures ValidateGithubRepoUrl(url)
  {
    var p := |GithubPrefix|;
    var rest := url[p..];
    assert rest[..k - p] == url[p..k];
    FirstSlashAt(rest, k - p);
    var after := rest[k - p + 1..];
    assert after[..m - k - 1] == url[k + 1..m];
    assert after[m - k - 1..] == url[m..];
    RepoScan(after, m - k - 1);
  }

  /** The owner segment holds no slash, so the first slash is the one after it. */
  lemma FirstSlashAt(s: string, i: int)
    requires 0 <= i < |s| && s[i] == '/' && '/' !in s[..i]
    ensures IndexWhere(s, IsSlash) == i
  {
    forall x | 0 <= x < i ensures !IsSlash(s[x]) {
      assert s[x] == s[..i][x];
    }
  }

  /** After the owner's slash, a slash-free repository segment of length
      `e` followed by a tail passes the greedy scan. */
  lemma RepoScan(after: string, e: int)
    requires 0 < e <= |after| && '/' !in after[..e] && IsTail(after[e..])
    ensures var j := IndexWhere(after, IsSlash);
      0 < j && (after[j..] == "" || after[j..] == "/" || after[j..] == "/\n")
  {
    var j := IndexWhere(after, IsSlash);
    forall x | 0 <= x < e ensures !IsSlash(after[x]) {
      assert after[x] == after[..e][x];
    }
    var t := after[e..];
    if j == e {
      assert t != "\n" by {
        if j < |after| { assert IsSlash(after[j]); }
      }
    } else {
      // The repository segment stopped before the greedy run did, so the
      // tail starts with a character that is not a slash: it is "\n", the
      // last character, and the greedy run reaches the end.
      assert !IsSlash(after[e]) && after[e] == t[0];
      assert t == "\n";
      assert j == |after|;
    }
  }

  /** Every URL made of the prefix, two non-empty slash-free segments and
      an optional slash (or slash and final newline) is accepted, whatever
      else the segments contain: "?", "#", spaces. */
  lemma AcceptsOwnerRepo(owner: string, repo: string, tail: string)
    requires IsSegment(owner) && IsSegment(repo) && IsTail(tail)
    ensures ValidateGithubRepoUrl(GithubPrefix + owner + "/" + repo + tail)
  {
    var url := GithubPrefix + owner + "/" + repo + tail;
    var k := |GithubPrefix| + |owner|;
    var m := k + 1 + |repo|;
    assert url[..|GithubPrefix|] == GithubPrefix;
    assert url[|GithubPrefix|..k] == owner;
    assert url[k] == '/';
    assert url[k + 1..m] == repo;
    assert url[m..] == tail;
    assert MatchSplit(url, k, m);
    ValidatorMatchesRegex(url);
  }

  /** The first slash of `a + "/" + b` is the one after `a` when `a` has none. */
  lemma FirstSlash(a: string, b: string)
    requires '/' !in a
    ensures IndexWhere(a + "/" + b, IsSlash) == |a|
  {
    var s := a + "/" + b;
    forall x | 0 <= x < |a| ensures !IsSlash(s[x]) {
      assert s[x] == a[x];
    }
    assert IsSlash(s[|a|]);
  }

  /** A third segment, a second trailing slash, or an empty owner or
      repository is rejected. */
  lemma RejectsExtraSegment(owner: string, repo: string, more: string)
    requires IsSegment(owner) && IsSegment(repo) && more != [] && more != "\n"
    ensures !ValidateGithubRepoUrl(GithubPrefix + owner + "/" + repo + "/" + more)
  {
    var rest := owner + "/" + (repo + "/" + more);
    assert GithubPrefix + owner + "/" + repo + "/" + more == GithubPrefix + rest;
    AfterPrefix(rest);
    ExtraSegmentPath(owner, repo, more);
  }

  lemma ExtraSegmentPath(owner: string, repo: string, more: string)
    requires IsSegment(owner) && IsSegment(repo) && more != [] && more != "\n"
    ensures !PathAccepted(owner + "/" + (repo + "/" + more))
  {
    var rest := owner + "/" + (repo + "/" + more);
    FirstSlash(owner, repo + "/" + more);
    var after := rest[|owner| + 1..];
    assert after == repo + "/" + more;
    FirstSlash(repo, more);
    assert after[|repo|..] == "/" + more;
    assert ("/" + more)[1..] == more;
  }

  lemma RejectsEmptySegments(owner: string, s: string)
    requires IsSegment(owner)
    ensures !ValidateGithubRepoUrl(GithubPrefix + "/" + s)
    ensures !ValidateGithubRepoUrl(GithubPrefix + owner + "/")
    ensures !ValidateGithubRepoUrl(GithubPrefix + owner + "//" + s)
  {
    var u1 := GithubPrefix + "/" + s;
    assert u1[|GithubPrefix|..][0] == '/';
    var u2 := GithubPrefix + owner + "/";
    var rest2 := u2[|GithubPrefix|..];
    assert rest2 == owner + "/";
    FirstSlash(owner, "");
    assert rest2 == owner + "/" + "";
    var u3 := GithubPrefix + owner + "//" + s;
    var rest3 := u3[|GithubPrefix|..];
    assert rest3 == owner + "//" + s;
    FirstSlash(owner, "/" + s);
    assert rest3 == owner + "/" + ("/" + s);
    assert rest3[|owner| + 1..][0] == '/';
  }

  /** The scheme and host are compared exactly: no "http", no "www." and
      no capitals. */
  lemma RejectsOtherHosts()
    ensures !ValidateGithubRepoUrl("http://github.com/a/b")
    ensures !ValidateGithubRepoUrl("https://www.github.com/a/b")
    ensures !ValidateGithubRepoUrl("https://GitHub.com/a/b")
  {
    assert "http://github.com/a/b"[4] != GithubPrefix[4];
    assert "https://www.github.com/a/b"[8] != GithubPrefix[8];
    assert "https://GitHub.com/a/b"[8] != GithubPrefix[8];
  }
}
