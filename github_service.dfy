/** `extract_owner_repo`: the path of the URL as `urllib.parse.urlparse`
    finds it, with its slashes stripped at both ends, split at "/", and
    the first two parts unpacked. The path is found as the library does:
    leading control characters and spaces are dropped, tabs and line breaks
    are deleted everywhere, then the scheme, the network location, the
    fragment, the query and (for the schemes that have them) the
    parameters of the last segment are split off. */
module GithubService {
  import opened Common
  import opened Validators

  // ---- urlparse ----

  predicate IsUnsafe(c: char) { c == '\t' || c == '\r' || c == '\n' }

  /** Removal of the characters the URL parser deletes wherever they are. */
  function RemoveUnsafe(s: string): (r: string)
    ensures |r| <= |s|
  {
    if s == [] then [] else (if IsUnsafe(s[0]) then [] else [s[0]]) + RemoveUnsafe(s[1..])
  }

  predicate IsControlOrSpace(c: char) { c <= ' ' }

  predicate IsAsciiLetter(c: char) { 'a' <= c <= 'z' || 'A' <= c <= 'Z' }

  predicate IsSchemeChar(c: char) {
    IsAsciiLetter(c) || '0' <= c <= '9' || c == '+' || c == '-' || c == '.'
  }

  /** The scheme, lowercased, and the rest, when the text before the first
      ":" is a letter followed by scheme characters; otherwise no scheme. */
  function SplitScheme(u: string): (string, string) {
    match Find(u, ':')
    case None => ("", u)
    case Some(i) =>
      if i > 0 && IsAsciiLetter(u[0]) && forall k :: 0 <= k < i ==> IsSchemeChar(u[k])
      then (Lower(u[..i]), u[i + 1..])
      else ("", u)
  }

  predicate IsNetlocEnd(c: char) { c == '/' || c == '?' || c == '#' }

  /** The text after the network location of a "//"-prefixed rest. */
  function AfterNetloc(rest: string): string {
    if StartsWith(rest, "//") then rest[2 + IndexWhere(rest[2..], IsNetlocEnd)..] else rest
  }

  /** Everything before the first `c`, or all of `s`. */
  function Before(s: string, c: char): string {
    match Find(s, c)
    case None => s
    case Some(i) => s[..i]
  }

  const UsesParams: seq<string> := ["", "ftp", "hdl", "prospero", "http", "imap", "https", "shttp",
                                     "rtsp", "rtsps", "rtspu", "sip", "sips", "mms", "sftp", "tel"]

  /** The path without the parameters: cut at the first ";" of the last
      segment (of the whole path when it has no "/"). */
  function SplitParams(path: string): string {
    match RFind(path, '/')
    case None => Before(path, ';')
    case Some(j) =>
      match Find(path[j..], ';')
      case None => path
      case Some(i) => path[..j + i]
  }

  /** The URL after the leading control characters and spaces are
      dropped and the tabs and line breaks deleted. */
  function Clean(url: string): string {
    RemoveUnsafe(StripLeft(url, IsControlOrSpace))
  }

  /** The path of what follows the scheme: the network location, the
      fragment, the query and the parameters split off. */
  function PathOf(scheme: string, rest: string): string {
    var path := Before(Before(AfterNetloc(rest), '#'), '?');
    if scheme in UsesParams && ';' in path then SplitParams(path) else path
  }

  /** `urlparse(url).path`. */
  function UrlPath(url: string): string {
    var (scheme, rest) := SplitScheme(Clean(url));
    PathOf(scheme, rest)
  }

  // ---- extract_owner_repo ----

  const UnpackError := "not enough values to unpack (expected 2, got 1)"

  /** `extract_owner_repo`: the first two "/"-separated parts of the
      stripped path, or the unpacking error when it has only one. */
  function ExtractOwnerRepo(url: string): (r: Result<(string, string), string>)
    ensures r.Err? ==> r.error == UnpackError
  {
    OwnerRepoOf(UrlPath(url))
  }

  /** The unpacking of the first two parts of a path, slashes stripped. */
  function OwnerRepoOf(path: string): Result<(string, string), string> {
    var parts := SplitOn(StripBy(path, IsSlash), '/');
    if |parts| < 2 then Err(UnpackError) else Ok((parts[0], parts[1]))
  }

  /** The first part of a split is the text up to the first separator; there
      are further parts exactly when there is a separator, and then the
      rest is split again after it. */
  lemma SplitHead(s: string)
    ensures var parts := SplitOn(s, '/');
      && '/' !in parts[0] && StartsWith(s, parts[0])
      && (|parts| > 1 <==> '/' in s)
      && (|parts| > 1 ==> |parts[0]| < |s| && s[|parts[0]|] == '/'
                          && parts[1..] == SplitOn(s[|parts[0]| + 1..], '/'))
  {
    var parts := SplitOn(s, '/');
    match Find(s, '/')
    case None =>
      assert parts == [s];
    case Some(i) =>
      var tail := SplitOn(s[i + 1..], '/');
      assert parts == [s[..i]] + tail;
      assert parts[0] == s[..i];
      assert parts[1..] == tail;
  }

  /** The owner and repository are the text before the first slash of the
      stripped path and the text between it and the next one; the unpacking
      fails exactly when the stripped path has no slash. */
  lemma ExtractTakesFirstTwoParts(path: string)
    ensures var stripped := StripBy(path, IsSlash);
      var r := OwnerRepoOf(path);
      && (r.Err? <==> '/' !in stripped)
      && (r.Ok? ==> '/' !in r.value.0 && '/' !in r.value.1
                    && StartsWith(stripped, r.value.0 + "/" + r.value.1))
  {
    var stripped := StripBy(path, IsSlash);
    var parts := SplitOn(stripped, '/');
    SplitHead(stripped);
    if |parts| >= 2 {
      TwoParts(stripped);
    }
  }

  lemma TwoParts(s: string)
    requires |SplitOn(s, '/')| >= 2
    ensures var parts := SplitOn(s, '/');
      '/' !in parts[0] && '/' !in parts[1] && StartsWith(s, parts[0] + "/" + parts[1])
  {
    var parts := SplitOn(s, '/');
    SplitHead(s);
    var rest := s[|parts[0]| + 1..];
    SplitHead(rest);
    PrefixAroundSlash(s, parts[0], parts[1]);
  }

  /** `a`, a slash and `b` start `s` when `a` does and `b` starts what
      follows the slash after it. */
  lemma PrefixAroundSlash(s: string, a: string, b: string)
    requires StartsWith(s, a) && |a| < |s| && s[|a|] == '/' && StartsWith(s[|a| + 1..], b)
    ensures StartsWith(s, a + "/" + b)
  {
    var n := |a|;
    assert s[..n + 1 + |b|] == s[..n] + [s[n]] + s[n + 1..][..|b|];
  }

  // ---- the round trip with the validator ----

  /** A segment the URL parser passes through unchanged: no query,
      fragment or parameter delimiter and no character it deletes. */
  predicate IsPlainSegment(s: string) {
    IsSegment(s) && forall k :: 0 <= k < |s| ==> s[k] != '?' && s[k] != '#' && s[k] != ';' && !IsUnsafe(s[k])
  }

  lemma {:induction false} RemoveUnsafeConcat(a: string, b: string)
    ensures RemoveUnsafe(a + b) == RemoveUnsafe(a) + RemoveUnsafe(b)
    decreases |a|
  {
    if a == [] {
      assert a + b == b;
    } else {
      assert (a + b)[0] == a[0];
      assert (a + b)[1..] == a[1..] + b;
      RemoveUnsafeConcat(a[1..], b);
    }
  }

  lemma {:induction false} RemoveUnsafeSafe(s: string)
    requires forall k :: 0 <= k < |s| ==> !IsUnsafe(s[k])
    ensures RemoveUnsafe(s) == s
    decreases |s|
  {
    if s != [] {
      RemoveUnsafeSafe(s[1..]);
    }
  }

  /** The first `c` of `a + b` is the first character of `b` when `a` has none. */
  lemma FindAfter(a: string, b: string, c: char)
    requires c !in a && |b| > 0 && b[0] == c
    ensures Find(a + b, c) == Some(|a|)
  {
    var s := a + b;
    assert s[|a|] == c;
    var r := Find(s, c).value;
    forall x | 0 <= x < |a| ensures s[x] != c { assert s[x] == a[x]; }
    forall x | |a| < x <= |s| ensures c in s[..x] { assert s[..x][|a|] == c; }
  }

  lemma IndexWhereAfter(a: string, b: string, stop: char -> bool)
    requires forall x :: 0 <= x < |a| ==> !stop(a[x])
    requires |b| > 0 && stop(b[0])
    ensures IndexWhere(a + b, stop) == |a|
  {
    var s := a + b;
    forall x | 0 <= x < |a| ensures !stop(s[x]) { assert s[x] == a[x]; }
    assert stop(s[|a|]);
  }

  const GithubHost := "https://github.com"

  /** A scheme of letters and scheme characters before the first ":" is
      split off, lowercased. */
  lemma SchemeSplit(scheme: string, rest: string)
    requires |scheme| > 0 && IsAsciiLetter(scheme[0]) && ':' !in scheme
    requires forall k :: 0 <= k < |scheme| ==> IsSchemeChar(scheme[k])
    ensures SplitScheme(scheme + ":" + rest) == (Lower(scheme), rest)
  {
    var u := scheme + ":" + rest;
    assert u == scheme + (":" + rest);
    FindAfter(scheme, ":" + rest, ':');
    assert u[..|scheme|] == scheme;
    assert u[|scheme| + 1..] == rest;
  }

  lemma HttpsScheme()
    ensures |"https"| > 0 && IsAsciiLetter("https"[0]) && ':' !in "https"
    ensures forall k :: 0 <= k < |"https"| ==> IsSchemeChar("https"[k])
    ensures Lower("https") == "https"
  {
  }

  /** On a github.com URL the scheme is "https" and what follows the
      network location is what follows the host. */
  lemma GithubScheme(q: string)
    ensures SplitScheme(GithubHost + q) == ("https", "//github.com" + q)
  {
    assert GithubHost + q == "https" + ":" + ("//github.com" + q);
    HttpsScheme();
    SchemeSplit("https", "//github.com" + q);
  }

  lemma GithubHostEnd(q: string)
    requires |q| > 0 && q[0] == '/'
    ensures AfterNetloc("//github.com" + q) == q
  {
    var rest := "//github.com" + q;
    assert rest[2..] == "github.com" + q;
    IndexWhereAfter("github.com", q, IsNetlocEnd);
  }

  /** A github.com URL is parsed with the scheme "https", after the
      deletion of its tabs and line breaks. */
  lemma GithubUrlPath(p: string)
    ensures UrlPath(GithubHost + p) == PathOf("https", "//github.com" + RemoveUnsafe(p))
  {
    var url := GithubHost + p;
    assert Clean(url) == GithubHost + RemoveUnsafe(p) by {
      assert StripLeft(url, IsControlOrSpace) == url;
      RemoveUnsafeSafe(GithubHost);
      RemoveUnsafeConcat(GithubHost, p);
    }
    GithubScheme(RemoveUnsafe(p));
  }

  /** A path with no fragment, query or parameter delimiter is kept whole. */
  lemma GithubPlainPath(q: string)
    requires |q| > 0 && q[0] == '/' && '#' !in q && '?' !in q && ';' !in q
    ensures PathOf("https", "//github.com" + q) == q
  {
    GithubHostEnd(q);
  }

  /** The unsafe characters of a tail leave "" or "/". */
  lemma CleanTail(tail: string)
    requires IsTail(tail)
    ensures RemoveUnsafe(tail) == if tail == "" || tail == "\n" then "" else "/"
  {
    if tail == "\n" || tail == "/" {
      assert tail[1..] == [];
    } else if tail == "/\n" {
      assert tail[1..] == "\n" && "\n"[1..] == [];
    }
  }

  /** The path of a well-formed repository URL is "/owner/repo", with its
      trailing slash if it has one. */
  lemma PathOfRepoUrl(owner: string, repo: string, tail: string)
    requires IsPlainSegment(owner) && IsPlainSegment(repo) && IsTail(tail)
    ensures UrlPath(GithubPrefix + owner + "/" + repo + tail) == "/" + owner + "/" + repo + RemoveUnsafe(tail)
  {
    var body := "/" + owner + "/" + repo;
    assert GithubPrefix + owner + "/" + repo + tail == GithubHost + (body + tail);
    forall k | 0 <= k < |body| ensures !IsUnsafe(body[k]) && body[k] != '#' && body[k] != '?' && body[k] != ';' {
      if 1 <= k < 1 + |owner| {
        assert body[k] == owner[k - 1];
      } else if 2 + |owner| <= k {
        assert body[k] == repo[k - 2 - |owner|];
      }
    }
    RemoveUnsafeSafe(body);
    RemoveUnsafeConcat(body, tail);
    CleanTail(tail);
    var q := body + RemoveUnsafe(tail);
    assert '#' !in q && '?' !in q && ';' !in q;
    GithubUrlPath(body + tail);
    GithubPlainPath(q);
  }

  lemma StripLeftSlash(x: string)
    requires |x| > 0 && x[0] != '/'
    ensures StripLeft("/" + x, IsSlash) == x
  {
    assert ("/" + x)[1..] == x;
  }

  lemma StripRightSlash(x: string)
    requires |x| > 0 && x[|x| - 1] != '/'
    ensures StripRight(x, IsSlash) == x
    ensures StripRight(x + "/", IsSlash) == x
  {
    assert (x + "/")[..|x|] == x;
  }

  /** Stripping the slashes of "/owner/repo" (and of one more at the end)
      leaves "owner/repo". */
  lemma StripRepoPath(owner: string, repo: string, t: string)
    requires IsSegment(owner) && IsSegment(repo) && (t == "" || t == "/")
    ensures StripBy("/" + owner + "/" + repo + t, IsSlash) == owner + "/" + repo
  {
    var body := owner + "/" + repo;
    var x := body + t;
    assert "/" + owner + "/" + repo + t == "/" + x;
    StripLeftOfRepoPath(owner, repo, t);
    StripRightOfRepoPath(owner, repo, t);
  }

  lemma StripLeftOfRepoPath(owner: string, repo: string, t: string)
    requires IsSegment(owner)
    ensures StripLeft("/" + (owner + "/" + repo + t), IsSlash) == owner + "/" + repo + t
  {
    var x := owner + "/" + repo + t;
    assert x[0] == owner[0] && owner[0] in owner;
    StripLeftSlash(x);
  }

  lemma StripRightOfRepoPath(owner: string, repo: string, t: string)
    requires IsSegment(repo) && (t == "" || t == "/")
    ensures StripRight(owner + "/" + repo + t, IsSlash) == owner + "/" + repo
  {
    var body := owner + "/" + repo;
    assert body[|body| - 1] == repo[|repo| - 1] && repo[|repo| - 1] in repo;
    StripRightSlash(body);
    if t == "" {
      assert body + t == body;
    }
  }

  /** Validation and extraction agree: for owner and repository names
      without "?", "#", ";", tabs or line breaks, the URL is accepted and
      gives back exactly those names, with or without a trailing slash. */
  lemma ExtractInvertsValidUrl(owner: string, repo: string, tail: string)
    requires IsPlainSegment(owner) && IsPlainSegment(repo) && IsTail(tail)
    ensures ValidateGithubRepoUrl(GithubPrefix + owner + "/" + repo + tail)
    ensures ExtractOwnerRepo(GithubPrefix + owner + "/" + repo + tail) == Ok((owner, repo))
  {
    var url := GithubPrefix + owner + "/" + repo + tail;
    AcceptsOwnerRepo(owner, repo, tail);
    var stripped := owner + "/" + repo;
    assert StripBy(UrlPath(url), IsSlash) == stripped by {
      PathOfRepoUrl(owner, repo, tail);
      CleanTail(tail);
      StripRepoPath(owner, repo, RemoveUnsafe(tail));
    }
    SplitOwnerRepo(owner, repo);
  }

  lemma SplitOwnerRepo(owner: string, repo: string)
    requires IsSegment(owner) && IsSegment(repo)
    ensures SplitOn(owner + "/" + repo, '/') == [owner, repo]
  {
    var s := owner + "/" + repo;
    FindAfter(owner, "/" + repo, '/');
    assert s == owner + ("/" + repo);
    assert s[..|owner|] == owner;
    assert s[|owner| + 1..] == repo;
    assert SplitOn(s, '/') == [owner] + SplitOn(repo, '/');
  }

  /** A query-like text: no slash, no fragment mark, no deleted character. */
  predicate IsQueryText(query: string) {
    forall k :: 0 <= k < |query| ==> query[k] != '/' && query[k] != '#' && !IsUnsafe(query[k])
  }

  /** The path of ".../owner?query/repo" is "/owner": the rest is the query. */
  lemma QueryCutsPath(owner: string, query: string, repo: string)
    requires IsPlainSegment(owner) && IsPlainSegment(repo) && IsQueryText(query)
    ensures UrlPath(GithubHost + ("/" + owner + ("?" + query + "/" + repo))) == "/" + owner
  {
    var head := "/" + owner;
    var p := head + ("?" + query + "/" + repo);
    assert forall k :: 0 <= k < |head| ==> head[k] != '?' by {
      forall k | 0 <= k < |head| ensures head[k] != '?' {
        if k > 0 { assert head[k] == owner[k - 1]; }
      }
    }
    assert forall k :: 0 <= k < |p| ==> !IsUnsafe(p[k]) && p[k] != '#' by {
      forall k | 0 <= k < |p| ensures !IsUnsafe(p[k]) && p[k] != '#' {
        if k >= |head| + 1 + |query| + 1 { assert p[k] == repo[k - |head| - |query| - 2]; }
        else if k > |head| && k < |head| + 1 + |query| { assert p[k] == query[k - |head| - 1]; }
        else if 0 < k < |head| { assert p[k] == owner[k - 1]; }
      }
    }
    assert RemoveUnsafe(p) == p by {
      RemoveUnsafeSafe(p);
    }
    GithubUrlPath(p);
    assert Before(Before(p, '#'), '?') == head by {
      assert '#' !in p;
      FindAfter(head, "?" + query + "/" + repo, '?');
    }
    assert ';' !in head by {
      forall k | 0 <= k < |head| ensures head[k] != ';' {
        if k > 0 { assert head[k] == owner[k - 1]; }
      }
    }
    GithubHostEnd(p);
  }

  /** A "?" inside the owner passes the validator, but the query is cut off
      before the repository segment, so only one part remains and the
      unpacking fails: "https://github.com/a?x/b" is accepted and then
      raises. */
  lemma QueryInOwnerFails(owner: string, query: string, repo: string)
    requires IsPlainSegment(owner) && IsPlainSegment(repo) && IsQueryText(query)
    ensures ValidateGithubRepoUrl(GithubPrefix + owner + "?" + query + "/" + repo)
    ensures ExtractOwnerRepo(GithubPrefix + owner + "?" + query + "/" + repo) == Err(UnpackError)
  {
    QueryInOwnerAccepted(owner, query, repo);
    QueryInOwnerUnpacks(owner, query, repo);
  }

  lemma QueryInOwnerAccepted(owner: string, query: string, repo: string)
    requires IsPlainSegment(owner) && IsPlainSegment(repo) && IsQueryText(query)
    ensures ValidateGithubRepoUrl(GithubPrefix + owner + "?" + query + "/" + repo)
  {
    var first := owner + "?" + query;
    forall k | 0 <= k < |first| ensures first[k] != '/' {
      if k < |owner| { assert first[k] == owner[k]; }
      else if k > |owner| { assert first[k] == query[k - |owner| - 1]; }
    }
    assert GithubPrefix + owner + "?" + query + "/" + repo == GithubPrefix + first + "/" + repo + "";
    AcceptsOwnerRepo(first, repo, "");
  }

  lemma QueryInOwnerUnpacks(owner: string, query: string, repo: string)
    requires IsPlainSegment(owner) && IsPlainSegment(repo) && IsQueryText(query)
    ensures ExtractOwnerRepo(GithubPrefix + owner + "?" + query + "/" + repo) == Err(UnpackError)
  {
    assert GithubPrefix + owner + "?" + query + "/" + repo == GithubHost + ("/" + owner + ("?" + query + "/" + repo)) by {
      assert GithubPrefix == GithubHost + "/";
    }
    QueryCutsPath(owner, query, repo);
    StripOwner(owner);
  }

  lemma StripOwner(owner: string)
    requires IsSegment(owner)
    ensures StripBy("/" + owner, IsSlash) == owner
  {
    assert owner[0] in owner;
    StripLeftSlash(owner);
    assert owner[|owner| - 1] in owner;
    StripRightSlash(owner);
  }
}
